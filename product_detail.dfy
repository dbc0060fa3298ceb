/** The product detail view (src/components/products/ProductDetail.tsx): adding
    the product to the stored cart, and the quantity selector beside the button. */
module ProductDetail {
  import opened Basics
  import opened Types
  import opened Storage
  import Cart

  datatype AddOutcome = NotAllowed | Added | Failed

  /** `JSON.parse(localStorage.getItem('cart') || '[]')` as a cart: nothing stored
      (or an empty text) reads as the empty cart; a stored cart reads as itself;
      anything else makes the parse, or the array methods used on its result, throw. */
  function SavedCart(entries: map<string, Stored>): Option<seq<CartItem>> {
    if !IsPresent(entries, Cart.CartKey) then Some([])
    else match entries[Cart.CartKey]
      case CartJson(items) => Some(items)
      case _ => None
  }

  /** `existingCart.findIndex(item => item.productId === productId)`: the first
      line for the product, or -1 when there is none. */
  function FindIndex(cart: seq<CartItem>, productId: string): (i: int)
    ensures -1 <= i < |cart|
    ensures i == -1 <==> forall k :: 0 <= k < |cart| ==> cart[k].productId != productId
    ensures 0 <= i ==> cart[i].productId == productId
    ensures forall k :: 0 <= k < i ==> cart[k].productId != productId
  {
    if cart == [] then -1
    else if cart[0].productId == productId then 0
    else
      var j := FindIndex(cart[1..], productId);
      if j < 0 then -1 else j + 1
  }

  /** The line `handleAddToCart` appends for a product not yet in the cart: the
      product's price is captured now. */
  function NewLine(product: Product, quantity: int, lineId: string): CartItem {
    CartItem(lineId, product.id, product, quantity, product.price)
  }

  /** The cart `handleAddToCart` writes back: the first line for the product
      grows by `quantity`, or a new line is appended. */
  function WithAdded(cart: seq<CartItem>, product: Product, quantity: int, lineId: string): seq<CartItem> {
    var i := FindIndex(cart, product.id);
    if i >= 0 then cart[i := cart[i].(quantity := cart[i].quantity + quantity)]
    else cart + [NewLine(product, quantity, lineId)]
  }

  /** `handleAddToCart`. `lineId` stands for `Date.now().toString()`; the
      confirmation alert and the closing of the view are not modelled. */
  method AddToCart(store: Store, viewer: Option<User>, product: Product, quantity: int, lineId: string)
    returns (outcome: AddOutcome)
    modifies store
    ensures !HasRole(viewer, UserRole) ==> outcome == NotAllowed && store.entries == old(store.entries)
    ensures HasRole(viewer, UserRole) && SavedCart(old(store.entries)).None? ==>
              outcome == Failed && store.entries == old(store.entries)
    ensures HasRole(viewer, UserRole) && SavedCart(old(store.entries)).Some? ==>
              outcome == Added &&
              store.entries == old(store.entries)[Cart.CartKey :=
                CartJson(WithAdded(SavedCart(old(store.entries)).value, product, quantity, lineId))]
  {
    if !HasRole(viewer, UserRole) {
      return NotAllowed;
    }
    var existingCart: seq<CartItem> := [];
    if store.Present(Cart.CartKey) {
      match store.entries[Cart.CartKey]
      case CartJson(items) =>
        existingCart := items;
      case _ =>
        return Failed;
    }
    var existingItemIndex := FindIndex(existingCart, product.id);
    if existingItemIndex >= 0 {
      var line := existingCart[existingItemIndex];
      existingCart := existingCart[existingItemIndex := line.(quantity := line.quantity + quantity)];
    } else {
      existingCart := existingCart + [NewLine(product, quantity, lineId)];
    }
    store.SetItem(Cart.CartKey, CartJson(existingCart));
    return Added;
  }

  /** When the product already has a line, the first such line grows by
      `quantity`; its price, every other line and the length stay the same. */
  lemma AddMergesIntoFirstLine(cart: seq<CartItem>, product: Product, quantity: int, lineId: string, i: int)
    requires 0 <= i < |cart| && cart[i].productId == product.id
    requires forall k :: 0 <= k < i ==> cart[k].productId != product.id
    ensures |WithAdded(cart, product, quantity, lineId)| == |cart|
    ensures WithAdded(cart, product, quantity, lineId)[i] == cart[i].(quantity := cart[i].quantity + quantity)
    ensures WithAdded(cart, product, quantity, lineId)[i].price == cart[i].price
    ensures forall k :: 0 <= k < |cart| && k != i ==> WithAdded(cart, product, quantity, lineId)[k] == cart[k]
  {
    assert FindIndex(cart, product.id) == i;
  }

  /** When the product has no line yet, exactly one line is appended at the end,
      for that product, with the given quantity and the product's current price. */
  lemma AddAppendsNewLine(cart: seq<CartItem>, product: Product, quantity: int, lineId: string)
    requires forall k :: 0 <= k < |cart| ==> cart[k].productId != product.id
    ensures WithAdded(cart, product, quantity, lineId) == cart + [NewLine(product, quantity, lineId)]
    ensures WithAdded(cart, product, quantity, lineId)[|cart|].productId == product.id
    ensures WithAdded(cart, product, quantity, lineId)[|cart|].price == product.price
  {
  }

  /** Adding raises the number of items by exactly `quantity`, and the amount by
      `quantity` times the unit price of the line that receives them. */
  lemma AddRaisesTotals(cart: seq<CartItem>, product: Product, quantity: int, lineId: string)
    ensures Cart.TotalItems(WithAdded(cart, product, quantity, lineId)) == Cart.TotalItems(cart) + quantity
    ensures var i := FindIndex(cart, product.id);
            var unit := if i >= 0 then cart[i].price else product.price;
            Cart.TotalAmount(WithAdded(cart, product, quantity, lineId)) == Cart.TotalAmount(cart) + unit * quantity
  {
    var i := FindIndex(cart, product.id);
    var added := WithAdded(cart, product, quantity, lineId);
    if i >= 0 {
      var line := cart[i];
      var line' := line.(quantity := line.quantity + quantity);
      assert added == cart[i := line'];
      TotalsReplaceLine(cart, i, line');
      Cart.MulDistributes(line.price, line.quantity, quantity);
      assert Cart.TotalAmount(added) == Cart.TotalAmount(cart) + line.price * quantity;
    } else {
      var line := NewLine(product, quantity, lineId);
      assert added == cart + [line];
      assert added[..|cart|] == cart;
      assert Cart.TotalAmount(added) == Cart.TotalAmount(cart) + line.price * line.quantity;
    }
  }

  /** Replacing one line changes each total by the difference between the new line's and the old line's share. */
  lemma TotalsReplaceLine(cart: seq<CartItem>, i: int, line': CartItem)
    requires 0 <= i < |cart|
    ensures Cart.TotalItems(cart[i := line']) == Cart.TotalItems(cart) - cart[i].quantity + line'.quantity
    ensures Cart.TotalAmount(cart[i := line']) == Cart.TotalAmount(cart) - cart[i].price * cart[i].quantity + line'.price * line'.quantity
  {
    var line := cart[i];
    var before, after := cart[..i], cart[i + 1..];
    assert cart == before + [line] + after;
    assert cart[i := line'] == before + [line'] + after;
    Cart.TotalsAppend(before + [line], after);
    Cart.TotalsAppend(before + [line'], after);
    Cart.TotalsAppend(before, [line]);
    Cart.TotalsAppend(before, [line']);
    Cart.TotalsCons(line, []);
    Cart.TotalsCons(line', []);
    assert [line] + [] == [line] && [line'] + [] == [line'];
  }

  /** The add-to-cart section is shown to a signed-in `user` for an active product in stock. */
  predicate AddSectionShown(viewer: Option<User>, product: Product) {
    HasRole(viewer, UserRole) && product.isActive && product.stock > 0
  }

  /** The add button of the shown section: `handleAddToCart` with the
      selector's quantity. The role gate passes, so the add is never refused;
      it fails exactly when the saved cart is unreadable, and otherwise the
      saved cart gains between 1 and `stock` items. */
  method AddFromSection(store: Store, viewer: Option<User>, product: Product, selector: QuantitySelector, lineId: string)
    returns (outcome: AddOutcome)
    requires AddSectionShown(viewer, product)
    requires selector.stock == product.stock && selector.Valid()
    modifies store
    ensures outcome != NotAllowed
    ensures outcome == Failed <==> SavedCart(old(store.entries)).None?
    ensures outcome == Failed ==> store.entries == old(store.entries)
    ensures outcome == Added ==>
              && 1 <= selector.quantity <= product.stock
              && SavedCart(store.entries).Some?
              && Cart.TotalItems(SavedCart(store.entries).value)
                 == Cart.TotalItems(SavedCart(old(store.entries)).value) + selector.quantity
  {
    outcome := AddToCart(store, viewer, product, selector.quantity, lineId);
    if outcome == Added {
      AddRaisesTotals(SavedCart(old(store.entries)).value, product, selector.quantity, lineId);
    }
  }

  /** `Math.max(1, quantity - 1)` */
  function Decremented(quantity: int): int {
    if quantity - 1 > 1 then quantity - 1 else 1
  }

  /** `Math.min(stock, quantity + 1)` */
  function Incremented(quantity: int, stock: int): int {
    if stock < quantity + 1 then stock else quantity + 1
  }

  /** `Math.max(1, Math.min(stock, parseInt(value) || 1))`, with `None` for a
      text `parseInt` reads as NaN. */
  function Typed(parsed: Option<int>, stock: int): int {
    var v := if parsed.None? || parsed.value == 0 then 1 else parsed.value;
    var capped := if stock < v then stock else v;
    if capped > 1 then capped else 1
  }

  /** Whatever the buttons or the typed text do, a quantity within [1, stock]
      stays within [1, stock]; a typed quantity already in range is kept. */
  lemma SelectorStaysInRange(quantity: int, stock: int, parsed: Option<int>)
    requires 1 <= quantity <= stock
    ensures 1 <= Decremented(quantity) <= stock
    ensures 1 <= Incremented(quantity, stock) <= stock
    ensures 1 <= Typed(parsed, stock) <= stock
    ensures parsed.Some? && 1 <= parsed.value <= stock ==> Typed(parsed, stock) == parsed.value
  {
  }

  /** The quantity selector's state. Its buttons and input exist only while the
      add section is shown, hence only for a positive stock. */
  class QuantitySelector {
    var quantity: int
    const stock: int

    ghost predicate Valid()
      reads this
    {
      stock > 0 ==> 1 <= quantity <= stock
    }

    /** `useState(1)` */
    constructor (stock: int)
      ensures this.stock == stock && quantity == 1 && Valid()
    {
      this.stock := stock;
      quantity := 1;
    }

    method Decrement()
      requires Valid() && stock > 0
      modifies this
      ensures quantity == Decremented(old(quantity)) && Valid()
    {
      quantity := Decremented(quantity);
      SelectorStaysInRange(old(quantity), stock, None);
    }

    method Increment()
      requires Valid() && stock > 0
      modifies this
      ensures quantity == Incremented(old(quantity), stock) && Valid()
    {
      quantity := Incremented(quantity, stock);
      SelectorStaysInRange(old(quantity), stock, None);
    }

    method Type(parsed: Option<int>)
      requires Valid() && stock > 0
      modifies this
      ensures quantity == Typed(parsed, stock) && Valid()
    {
      quantity := Typed(parsed, stock);
      SelectorStaysInRange(old(quantity), stock, parsed);
    }
  }
}
