/** The product catalogue page (src/components/products/ProductList.tsx): the
    search and category filter over the products, and the create, update and
    delete operations on the product collection. */
module Products {
  import opened Basics
  import opened Text
  import opened Types

  /** The search box and the category select; `all` is the unrestricted category. */
  datatype ProductFilters = ProductFilters(searchTerm: string, selectedCategory: string)

  /** The lowercased term occurs in the lowercased name or description; the id is not searched. */
  predicate ProductSearchHit(term: string, p: Product) {
    var t := Lower(term);
    Contains(Lower(p.name), t) || Contains(Lower(p.description), t)
  }

  function MatchesSearch(term: string): Product -> bool {
    (p: Product) => ProductSearchHit(term, p)
  }

  /** `product.category === selectedCategory` */
  function InCategory(category: string): Product -> bool {
    (p: Product) => p.category == category
  }

  /** The filter effect: search, then category, each applied only when set. */
  function FilterProducts(products: seq<Product>, f: ProductFilters): seq<Product> {
    var bySearch := FilterIf(f.searchTerm != "", MatchesSearch(f.searchTerm), products);
    FilterIf(f.selectedCategory != "all", InCategory(f.selectedCategory), bySearch)
  }

  function Admitted(f: ProductFilters): Product -> bool {
    Both(Stage(f.searchTerm != "", MatchesSearch(f.searchTerm)),
         Stage(f.selectedCategory != "all", InCategory(f.selectedCategory)))
  }

  lemma FilterProductsIsFilter(products: seq<Product>, f: ProductFilters)
    ensures FilterProducts(products, f) == Filter(Admitted(f), products)
  {
    var t1 := Stage(f.searchTerm != "", MatchesSearch(f.searchTerm));
    var t2 := Stage(f.selectedCategory != "all", InCategory(f.selectedCategory));
    FilterIfIsFilter(f.searchTerm != "", MatchesSearch(f.searchTerm), products);
    FilterIfIsFilter(f.selectedCategory != "all", InCategory(f.selectedCategory), Filter(t1, products));
    FilterThen(t1, t2, products);
  }

  /** A product is listed exactly when it is in the collection, a non-empty
      search hits its name or description, and the category is `all` or its own. */
  lemma ListedIff(products: seq<Product>, f: ProductFilters, p: Product)
    ensures p in FilterProducts(products, f) <==>
              && p in products
              && (f.searchTerm != "" ==> ProductSearchHit(f.searchTerm, p))
              && (f.selectedCategory != "all" ==> p.category == f.selectedCategory)
  {
    FilterProductsIsFilter(products, f);
    assert Admitted(f)(p) <==>
             (f.searchTerm != "" ==> ProductSearchHit(f.searchTerm, p))
             && (f.selectedCategory != "all" ==> p.category == f.selectedCategory);
    if p in products {
      var i :| 0 <= i < |products| && products[i] == p;
    }
  }

  /** The search ignores ids: products that differ only in id are listed alike. */
  lemma SearchIgnoresId(f: ProductFilters, p: Product, id: string)
    ensures Admitted(f)(p) == Admitted(f)(p.(id := id))
  {
  }

  /** The listed products keep their order, and filtering them again changes nothing. */
  lemma ListedIsStableSubsequence(products: seq<Product>, f: ProductFilters)
    ensures IsSubsequence(FilterProducts(products, f), products)
    ensures FilterProducts(FilterProducts(products, f), f) == FilterProducts(products, f)
  {
    FilterProductsIsFilter(products, f);
    FilterIsSubsequence(Admitted(f), products);
    FilterProductsIsFilter(FilterProducts(products, f), f);
    FilterIdempotent(Admitted(f), products);
  }

  /** `{ ...p, ...productData, updatedAt }`: the form's seven fields over the product. */
  function MergeProduct(p: Product, data: ProductFormData, now: string): Product {
    p.(name := data.name,
       description := data.description,
       price := data.price,
       category := data.category,
       stock := data.stock,
       imageUrl := data.imageUrl,
       isActive := data.isActive,
       updatedAt := now)
  }

  /** `prev.map(p => p.id === editingId ? merged : p)` */
  function UpdatedProducts(products: seq<Product>, editingId: string, data: ProductFormData, now: string): (r: seq<Product>)
    ensures |r| == |products|
    ensures forall i :: 0 <= i < |products| && products[i].id != editingId ==> r[i] == products[i]
    ensures forall i :: 0 <= i < |products| && products[i].id == editingId ==> r[i] == MergeProduct(products[i], data, now)
  {
    if products == [] then []
    else [if products[0].id == editingId then MergeProduct(products[0], data, now) else products[0]]
         + UpdatedProducts(products[1..], editingId, data, now)
  }

  /** An update takes the form's fields into the products with the edited id,
      keeping their id and creation time; every other product is unchanged,
      and an absent id changes nothing. */
  lemma UpdateSpec(products: seq<Product>, editingId: string, data: ProductFormData, now: string)
    ensures forall i :: 0 <= i < |products| ==>
              UpdatedProducts(products, editingId, data, now)[i].id == products[i].id
              && UpdatedProducts(products, editingId, data, now)[i].createdAt == products[i].createdAt
    ensures forall i :: 0 <= i < |products| && products[i].id == editingId ==>
              var u := UpdatedProducts(products, editingId, data, now)[i];
              u.name == data.name && u.description == data.description && u.price == data.price
              && u.category == data.category && u.stock == data.stock && u.imageUrl == data.imageUrl
              && u.isActive == data.isActive && u.updatedAt == now
    ensures (forall i :: 0 <= i < |products| ==> products[i].id != editingId) ==>
              UpdatedProducts(products, editingId, data, now) == products
  {
  }

  /** The product `handleSaveProduct` creates; `id` stands for `Date.now().toString()`. */
  function NewProduct(id: string, data: ProductFormData, now: string): (p: Product)
    ensures p.id == id && p.createdAt == now && p.updatedAt == now
    ensures MergeProduct(p, data, now) == p
  {
    Product(id, data.name, data.description, data.price, data.category, data.imageUrl, data.stock, data.isActive, now, now)
  }

  /** `p.id !== productId` */
  function OtherProduct(productId: string): Product -> bool {
    (p: Product) => p.id != productId
  }

  /** `prev.filter(p => p.id !== productId)` */
  function WithoutProduct(products: seq<Product>, productId: string): seq<Product> {
    Filter(OtherProduct(productId), products)
  }

  /** Deleting keeps exactly the products with another id, in order; deleting an
      absent id changes nothing. */
  lemma DeleteSpec(products: seq<Product>, productId: string)
    ensures IsSubsequence(WithoutProduct(products, productId), products)
    ensures forall i :: 0 <= i < |WithoutProduct(products, productId)| ==> WithoutProduct(products, productId)[i].id != productId
    ensures forall i :: 0 <= i < |products| && products[i].id != productId ==> products[i] in WithoutProduct(products, productId)
    ensures (forall i :: 0 <= i < |products| ==> products[i].id != productId) ==> WithoutProduct(products, productId) == products
    ensures forall x: Product :: x.id != productId ==> multiset(WithoutProduct(products, productId))[x] == multiset(products)[x]
  {
    FilterMultiset(OtherProduct(productId), products);
    FilterIsSubsequence(OtherProduct(productId), products);
    if forall i :: 0 <= i < |products| ==> products[i].id != productId {
      FilterKeepsAll(OtherProduct(productId), products);
    }
  }

  /** The page's product collection and its loading flag. */
  class ProductCatalog {
    var products: seq<Product>
    var isLoading: bool

    constructor ()
      ensures products == [] && isLoading
    {
      products := [];
      isLoading := true;
    }

    /** The mount effect's deferred update; the sample products are a parameter. */
    method Load(initial: seq<Product>)
      modifies this
      ensures products == initial && !isLoading
    {
      products := initial;
      isLoading := false;
    }

    /** `handleSaveProduct`: update the edited product, or append a new one. */
    method SaveProduct(editing: Option<Product>, data: ProductFormData, newId: string, now: string)
      modifies this
      ensures editing.Some? ==> products == UpdatedProducts(old(products), editing.value.id, data, now)
      ensures editing.None? ==> products == old(products) + [NewProduct(newId, data, now)]
      ensures isLoading == old(isLoading)
    {
      if editing.Some? {
        products := UpdatedProducts(products, editing.value.id, data, now);
      } else {
        var newProduct := NewProduct(newId, data, now);
        products := products + [newProduct];
      }
    }

    /** `handleDeleteProduct`, with the answer to the confirmation dialog as input. */
    method DeleteProduct(productId: string, confirmed: bool)
      modifies this
      ensures products == if confirmed then WithoutProduct(old(products), productId) else old(products)
      ensures isLoading == old(isLoading)
    {
      if confirmed {
        products := WithoutProduct(products, productId);
      }
    }
  }
}
