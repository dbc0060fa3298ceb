/** The cart page (src/components/cart/CartPage.tsx): the lines it holds, the
    totals derived from them, and the copy of the lines it keeps under the
    `cart` storage key. */
module Cart {
  import opened Basics
  import opened Types
  import opened Storage

  const CartKey := "cart"

  /** `cartItems.reduce((total, item) => total + item.quantity, 0)`, folded from the left. */
  function TotalItems(items: seq<CartItem>): int {
    if items == [] then 0 else TotalItems(items[..|items| - 1]) + items[|items| - 1].quantity
  }

  /** `cartItems.reduce((total, item) => total + item.price * item.quantity, 0)` */
  function TotalAmount(items: seq<CartItem>): int {
    if items == [] then 0 else TotalAmount(items[..|items| - 1]) + items[|items| - 1].price * items[|items| - 1].quantity
  }

  /** Both totals add up over a cart split in two, and both are 0 for an empty cart. */
  lemma {:induction false} TotalsAppend(a: seq<CartItem>, b: seq<CartItem>)
    ensures TotalItems([]) == 0 && TotalAmount([]) == 0
    ensures TotalItems(a + b) == TotalItems(a) + TotalItems(b)
    ensures TotalAmount(a + b) == TotalAmount(a) + TotalAmount(b)
    decreases |b|
  {
    if b == [] {
      assert a + b == a;
    } else {
      var b' := b[..|b| - 1];
      assert (a + b)[..|a + b| - 1] == a + b';
      TotalsAppend(a, b');
    }
  }

  lemma TotalsCons(x: CartItem, s: seq<CartItem>)
    ensures TotalItems([x] + s) == x.quantity + TotalItems(s)
    ensures TotalAmount([x] + s) == x.price * x.quantity + TotalAmount(s)
  {
    TotalsAppend([x], s);
    assert [x][..0] == [];
  }

  /** The tests `item.id !== itemId` and `item.id === itemId`. */
  function OtherLine(itemId: string): CartItem -> bool {
    (item: CartItem) => item.id != itemId
  }

  function SameLine(itemId: string): CartItem -> bool {
    (item: CartItem) => item.id == itemId
  }

  /** `cartItems.filter(item => item.id !== itemId)` */
  function WithoutLine(items: seq<CartItem>, itemId: string): seq<CartItem> {
    Filter(OtherLine(itemId), items)
  }

  /** `cartItems.map(item => item.id === itemId ? { ...item, quantity } : item)`:
      every line with that id gets the new quantity, every other line, every
      other field and the order stay as they were. */
  function WithQuantity(items: seq<CartItem>, itemId: string, quantity: int): (r: seq<CartItem>)
    ensures |r| == |items|
    ensures forall i :: 0 <= i < |items| && items[i].id != itemId ==> r[i] == items[i]
    ensures forall i :: 0 <= i < |items| && items[i].id == itemId ==> r[i] == items[i].(quantity := quantity)
  {
    if items == [] then []
    else [if items[0].id == itemId then items[0].(quantity := quantity) else items[0]]
         + WithQuantity(items[1..], itemId, quantity)
  }

  /** Removing a line keeps exactly the lines with another id, in their original
      order; removing an id no line has changes nothing. */
  lemma RemoveLineSpec(items: seq<CartItem>, itemId: string)
    ensures IsSubsequence(WithoutLine(items, itemId), items)
    ensures forall i :: 0 <= i < |WithoutLine(items, itemId)| ==> WithoutLine(items, itemId)[i].id != itemId
    ensures forall i :: 0 <= i < |items| && items[i].id != itemId ==> items[i] in WithoutLine(items, itemId)
    ensures (forall i :: 0 <= i < |items| ==> items[i].id != itemId) ==> WithoutLine(items, itemId) == items
    ensures forall x: CartItem :: x.id != itemId ==> multiset(WithoutLine(items, itemId))[x] == multiset(items)[x]
  {
    FilterMultiset(OtherLine(itemId), items);
    FilterIsSubsequence(OtherLine(itemId), items);
    if forall i :: 0 <= i < |items| ==> items[i].id != itemId {
      FilterKeepsAll(OtherLine(itemId), items);
    }
  }

  /** The lines with a given id. */
  function LinesWithId(items: seq<CartItem>, itemId: string): seq<CartItem> {
    Filter(SameLine(itemId), items)
  }

  /** Removing the lines with an id takes exactly their quantities and amounts off the totals. */
  lemma {:induction false} RemoveLineTotals(items: seq<CartItem>, itemId: string)
    ensures TotalItems(items) == TotalItems(WithoutLine(items, itemId)) + TotalItems(LinesWithId(items, itemId))
    ensures TotalAmount(items) == TotalAmount(WithoutLine(items, itemId)) + TotalAmount(LinesWithId(items, itemId))
  {
    if items != [] {
      var x, rest := items[0], items[1..];
      assert items == [x] + rest;
      RemoveLineTotals(rest, itemId);
      TotalsCons(x, rest);
      TotalsCons(x, WithoutLine(rest, itemId));
      TotalsCons(x, LinesWithId(rest, itemId));
    }
  }

  /** Setting the quantity of the lines with an id to `q` makes each of them
      count `q` items. */
  lemma {:induction false} SetQuantityItems(items: seq<CartItem>, itemId: string, q: int)
    ensures TotalItems(WithQuantity(items, itemId, q)) == TotalItems(WithoutLine(items, itemId)) + q * |LinesWithId(items, itemId)|
  {
    if items != [] {
      var x, rest := items[0], items[1..];
      var x' := if x.id == itemId then x.(quantity := q) else x;
      var n := |LinesWithId(rest, itemId)|;
      assert WithQuantity(items, itemId, q) == [x'] + WithQuantity(rest, itemId, q);
      SetQuantityItems(rest, itemId, q);
      TotalsCons(x', WithQuantity(rest, itemId, q));
      if x.id == itemId {
        assert |LinesWithId(items, itemId)| == n + 1;
        MulDistributes(q, n, 1);
      } else {
        TotalsCons(x, WithoutLine(rest, itemId));
      }
    }
  }

  /** Setting the quantity of the lines with an id to `q` makes each of them
      cost `q` times the unit price captured on that line. */
  lemma SetQuantityAmount(items: seq<CartItem>, itemId: string, q: int)
    ensures TotalAmount(WithQuantity(items, itemId, q)) == TotalAmount(WithoutLine(items, itemId)) + q * PriceSum(LinesWithId(items, itemId))
  {
    SetQuantityAmountScaled(items, itemId, q);
    ScaledIsProduct(LinesWithId(items, itemId), q);
  }

  lemma {:induction false} SetQuantityAmountScaled(items: seq<CartItem>, itemId: string, q: int)
    ensures TotalAmount(WithQuantity(items, itemId, q)) == TotalAmount(WithoutLine(items, itemId)) + Scaled(LinesWithId(items, itemId), q)
  {
    if items != [] {
      var x, rest := items[0], items[1..];
      var x' := if x.id == itemId then x.(quantity := q) else x;
      var w := WithQuantity(rest, itemId, q);
      assert WithQuantity(items, itemId, q) == [x'] + w;
      SetQuantityAmountScaled(rest, itemId, q);
      TotalsCons(x', w);
      if x.id == itemId {
        assert LinesWithId(items, itemId) == [x] + LinesWithId(rest, itemId);
      } else {
        TotalsCons(x, WithoutLine(rest, itemId));
      }
    }
  }

  /** The amount of some lines if each held `q` units. */
  function Scaled(items: seq<CartItem>, q: int): int {
    if items == [] then 0 else items[0].price * q + Scaled(items[1..], q)
  }

  lemma {:induction false} ScaledIsProduct(items: seq<CartItem>, q: int)
    ensures Scaled(items, q) == q * PriceSum(items)
  {
    if items != [] {
      ScaledIsProduct(items[1..], q);
      MulDistributes(q, PriceSum(items[1..]), items[0].price);
    }
  }

  lemma MulDistributes(q: int, a: int, b: int)
    ensures q * (a + b) == q * a + b * q
  {
  }

  /** The sum of the unit prices of some lines. */
  function PriceSum(items: seq<CartItem>): int {
    if items == [] then 0 else items[0].price + PriceSum(items[1..])
  }

  /** The state of the cart page: the lines on screen, the loading flag, and the
      store its lines are written to. */
  class CartPage {
    var cartItems: seq<CartItem>
    var isLoading: bool
    const store: Store

    /** The copy under `cart` holds exactly the lines in memory. */
    ghost predicate Persisted()
      reads this, store
    {
      CartKey in store.entries && store.entries[CartKey] == CartJson(cartItems)
    }

    constructor (store: Store)
      ensures this.store == store && cartItems == [] && isLoading
    {
      this.store := store;
      cartItems := [];
      isLoading := true;
    }

    /** The mount effect. A missing or empty saved value leaves the cart empty;
        a saved cart is loaded. Text that is not JSON makes `JSON.parse` throw,
        so nothing is set and the page keeps loading. A saved user parses: the
        effect runs to its end and loading ends, but the page then fails while
        totalling a value that is not a list of lines; the model keeps the old
        lines in that case. Both failures are reported as `false`. */
    method Load() returns (ok: bool)
      modifies this
      ensures ok == (!store.Present(CartKey) || store.entries[CartKey].CartJson?)
      ensures cartItems == if ok && store.Present(CartKey) then store.entries[CartKey].items else old(cartItems)
      ensures isLoading == if ok || store.entries[CartKey].UserJson? then false else old(isLoading)
    {
      if store.Present(CartKey) {
        match store.entries[CartKey]
        case CartJson(items) =>
          cartItems := items;
        case UserJson(_) =>
          isLoading := false;
          return false;
        case Text(_) =>
          return false;
      }
      isLoading := false;
      return true;
    }

    /** `updateCart`: replace the lines and write them to `cart`. */
    method UpdateCart(newCartItems: seq<CartItem>)
      modifies this, store
      ensures cartItems == newCartItems && isLoading == old(isLoading)
      ensures store.entries == old(store.entries)[CartKey := CartJson(newCartItems)]
      ensures Persisted()
    {
      cartItems := newCartItems;
      store.SetItem(CartKey, CartJson(newCartItems));
    }

    /** `updateQuantity`: a quantity of 0 or less removes the line, as `removeItem` does. */
    method UpdateQuantity(itemId: string, newQuantity: int)
      modifies this, store
      ensures cartItems == if newQuantity <= 0 then WithoutLine(old(cartItems), itemId)
                           else WithQuantity(old(cartItems), itemId, newQuantity)
      ensures isLoading == old(isLoading)
      ensures store.entries == old(store.entries)[CartKey := CartJson(cartItems)]
      ensures Persisted()
    {
      if newQuantity <= 0 {
        RemoveItem(itemId);
        return;
      }
      var updatedItems := WithQuantity(cartItems, itemId, newQuantity);
      UpdateCart(updatedItems);
    }

    /** `removeItem` */
    method RemoveItem(itemId: string)
      modifies this, store
      ensures cartItems == WithoutLine(old(cartItems), itemId) && isLoading == old(isLoading)
      ensures store.entries == old(store.entries)[CartKey := CartJson(cartItems)]
      ensures Persisted()
    {
      var updatedItems := WithoutLine(cartItems, itemId);
      UpdateCart(updatedItems);
    }

    /** `clearCart`, with the answer to the confirmation dialog as input. */
    method ClearCart(confirmed: bool)
      modifies this, store
      ensures confirmed ==> cartItems == [] && store.entries == old(store.entries)[CartKey := CartJson([])]
      ensures !confirmed ==> cartItems == old(cartItems) && store.entries == old(store.entries)
      ensures isLoading == old(isLoading)
    {
      if confirmed {
        UpdateCart([]);
      }
    }
  }
}
