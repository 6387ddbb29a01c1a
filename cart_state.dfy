/** The value side of the cart in script.js: the line items kept under the
    "cart" storage key, lookup by name, the two derived totals and the three
    list edits the handlers perform. Prices are whole numbers of the smallest
    currency unit, so every total below is an exact sum. */
module CartState {

  datatype Option<T> = None | Some(value: T)

  /** One row of the stored cart: `{name, price, quantity}`. */
  datatype LineItem = LineItem(name: string, price: int, quantity: int)

  /** The stored cart: an ordered list of line items. */
  type Cart = seq<LineItem>

  /** The price argument of `addToCart`, as `parseFloat` hands it over:
      either NaN or a number. */
  datatype ParsedPrice = NotANumber | Amount(units: int)

  /** The guard at the top of `addToCart`: a non-empty name and a price
      that is a number greater than zero. */
  predicate ValidProduct(name: string, price: ParsedPrice) {
    name != "" && price.Amount? && price.units > 0
  }

  predicate HasName(cart: Cart, name: string) {
    exists i :: 0 <= i < |cart| && cart[i].name == name
  }

  /** `i` is the position of the first item called `name`. */
  predicate FirstWithName(cart: Cart, name: string, i: int) {
    && 0 <= i < |cart|
    && cart[i].name == name
    && forall j :: 0 <= j < i ==> cart[j].name != name
  }

  predicate NamesUnique(cart: Cart) {
    forall i, j :: 0 <= i < j < |cart| ==> cart[i].name != cart[j].name
  }

  predicate QuantitiesPositive(cart: Cart) {
    forall i :: 0 <= i < |cart| ==> cart[i].quantity >= 1
  }

  /** A cart built only through the handlers: unique names, and every item
      with a non-empty name, a positive price and a quantity of at least 1. */
  predicate WellFormed(cart: Cart) {
    && NamesUnique(cart)
    && QuantitiesPositive(cart)
    && forall i :: 0 <= i < |cart| ==> cart[i].name != "" && cart[i].price > 0
  }

  /** `r` is `cart` with the item at `index` taken out and the later items
      moved down one place, in order. */
  predicate RemovedAt(cart: Cart, r: Cart, index: int) {
    && 0 <= index < |cart|
    && |r| == |cart| - 1
    && (forall k :: 0 <= k < index ==> r[k] == cart[k])
    && (forall k :: index <= k < |r| ==> r[k] == cart[k + 1])
  }

  /** `cart.find(item => item.name === name)`, as the index it stops at. */
  function FindByName(cart: Cart, name: string): (r: Option<nat>)
    ensures r.Some? <==> HasName(cart, name)
    ensures r.Some? ==> FirstWithName(cart, name, r.value)
  {
    if cart == [] then None
    else if cart[0].name == name then Some(0)
    else match FindByName(cart[1..], name)
      case None => None
      case Some(k) => Some(k + 1)
  }

  /** A left fold of `weight` over the cart, in list order, from 0. */
  function SumOf(cart: Cart, weight: LineItem -> int): int {
    if cart == [] then 0
    else SumOf(cart[..|cart| - 1], weight) + weight(cart[|cart| - 1])
  }

  function Quantity(item: LineItem): int {
    item.quantity
  }

  /** The row subtotal shown on the cart page: price times quantity. */
  function Subtotal(item: LineItem): int {
    item.price * item.quantity
  }

  /** The number on the cart badge: the sum of the quantities. */
  function ItemCount(cart: Cart): int {
    SumOf(cart, Quantity)
  }

  /** The cart-page total: the sum of the row subtotals. */
  function TotalPrice(cart: Cart): int {
    SumOf(cart, Subtotal)
  }

  /** What `addToCart` does to the cart once the input has passed the guard:
      raise the first item of that name by one, or append a new item. */
  function AddItem(cart: Cart, name: string, price: int): (r: Cart)
    ensures forall i :: FirstWithName(cart, name, i) ==>
      && |r| == |cart|
      && r[i] == cart[i].(quantity := cart[i].quantity + 1)
      && forall k :: 0 <= k < |cart| && k != i ==> r[k] == cart[k]
    ensures !HasName(cart, name) ==>
      && |r| == |cart| + 1
      && r[..|cart|] == cart
      && r[|cart|] == LineItem(name, price, 1)
    ensures NamesUnique(cart) ==> NamesUnique(r)
    ensures QuantitiesPositive(cart) ==> QuantitiesPositive(r)
    ensures WellFormed(cart) && name != "" && price > 0 ==> WellFormed(r)
  {
    match FindByName(cart, name)
    case Some(i) => cart[i := cart[i].(quantity := cart[i].quantity + 1)]
    case None => cart + [LineItem(name, price, 1)]
  }

  /** `cart.splice(index, 1)` when `index` is in range; otherwise nothing. */
  function RemoveAt(cart: Cart, index: int): (r: Cart)
    ensures 0 <= index < |cart| ==> RemovedAt(cart, r, index)
    ensures !(0 <= index < |cart|) ==> r == cart
    ensures NamesUnique(cart) ==> NamesUnique(r)
    ensures QuantitiesPositive(cart) ==> QuantitiesPositive(r)
    ensures WellFormed(cart) ==> WellFormed(r)
  {
    if 0 <= index < |cart| then cart[..index] + cart[index + 1..] else cart
  }

  /** What `updateQuantity` does to the cart: add `change` to the quantity
      at `index` and drop the item when that leaves it at 0 or below. */
  function ChangeQuantity(cart: Cart, index: int, change: int): (r: Cart)
    ensures !(0 <= index < |cart|) ==> r == cart
    ensures 0 <= index < |cart| && cart[index].quantity + change > 0 ==>
      && |r| == |cart|
      && r[index] == cart[index].(quantity := cart[index].quantity + change)
      && forall k :: 0 <= k < |cart| && k != index ==> r[k] == cart[k]
    ensures 0 <= index < |cart| && cart[index].quantity + change <= 0 ==>
      RemovedAt(cart, r, index)
    ensures NamesUnique(cart) ==> NamesUnique(r)
    ensures QuantitiesPositive(cart) ==> QuantitiesPositive(r)
    ensures WellFormed(cart) ==> WellFormed(r)
  {
    if 0 <= index < |cart| then
      var q := cart[index].quantity + change;
      if q <= 0 then RemoveAt(cart, index)
      else cart[index := cart[index].(quantity := q)]
    else cart
  }

  // Facts about the fold.

  lemma {:induction false} SumOfAppend(a: Cart, b: Cart, weight: LineItem -> int)
    ensures SumOf(a + b, weight) == SumOf(a, weight) + SumOf(b, weight)
  {
    if b == [] {
      assert a + b == a;
    } else {
      var front := b[..|b| - 1];
      assert (a + b)[..|a + b| - 1] == a + front;
      SumOfAppend(a, front, weight);
    }
  }

  lemma SumOfSplit(s: Cart, i: int, weight: LineItem -> int)
    requires 0 <= i < |s|
    ensures SumOf(s, weight) == SumOf(s[..i], weight) + weight(s[i]) + SumOf(s[i + 1..], weight)
  {
    assert s == s[..i] + [s[i]] + s[i + 1..];
    SumOfAppend(s[..i] + [s[i]], s[i + 1..], weight);
    SumOfAppend(s[..i], [s[i]], weight);
  }

  lemma SumOfUpdate(s: Cart, i: int, x: LineItem, weight: LineItem -> int)
    requires 0 <= i < |s|
    ensures SumOf(s[i := x], weight) == SumOf(s, weight) - weight(s[i]) + weight(x)
  {
    SumOfSplit(s, i, weight);
    SumOfSplit(s[i := x], i, weight);
    assert s[i := x][..i] == s[..i];
    assert s[i := x][i + 1..] == s[i + 1..];
  }

  lemma SumOfRemove(s: Cart, i: int, weight: LineItem -> int)
    requires 0 <= i < |s|
    ensures SumOf(s[..i] + s[i + 1..], weight) == SumOf(s, weight) - weight(s[i])
  {
    SumOfSplit(s, i, weight);
    SumOfAppend(s[..i], s[i + 1..], weight);
  }

  lemma {:induction false} SumOfAtLeastLength(s: Cart, weight: LineItem -> int)
    requires forall k :: 0 <= k < |s| ==> weight(s[k]) >= 1
    ensures SumOf(s, weight) >= |s|
  {
    if s != [] {
      var front := s[..|s| - 1];
      assert forall k :: 0 <= k < |front| ==> front[k] == s[k];
      SumOfAtLeastLength(front, weight);
    }
  }

  // The totals.

  /** With every quantity at least 1 the badge count is at least the number
      of rows. */
  lemma CountCoversRows(cart: Cart)
    requires QuantitiesPositive(cart)
    ensures ItemCount(cart) >= |cart|
  {
    SumOfAtLeastLength(cart, Quantity);
  }

  /** For a well-formed cart the total is positive exactly when the cart has
      a row: the empty cart, and only it, shows a total of 0. */
  lemma TotalZeroIffEmpty(cart: Cart)
    requires WellFormed(cart)
    ensures TotalPrice(cart) >= |cart|
    ensures TotalPrice(cart) == 0 <==> cart == []
  {
    forall k | 0 <= k < |cart|
      ensures Subtotal(cart[k]) >= 1
    {
      var item := cart[k];
      assert item.price * item.quantity >= item.price * 1;
    }
    SumOfAtLeastLength(cart, Subtotal);
  }

  /** `addToCart` raises the badge count by exactly one, and the total by the
      price of the item that was raised or appended. */
  lemma AddItemTotals(cart: Cart, name: string, price: int)
    ensures ItemCount(AddItem(cart, name, price)) == ItemCount(cart) + 1
    ensures forall i :: FirstWithName(cart, name, i) ==>
      TotalPrice(AddItem(cart, name, price)) == TotalPrice(cart) + cart[i].price
    ensures !HasName(cart, name) ==>
      TotalPrice(AddItem(cart, name, price)) == TotalPrice(cart) + price
  {
    match FindByName(cart, name)
    case Some(i) =>
      var raised := cart[i].(quantity := cart[i].quantity + 1);
      SumOfUpdate(cart, i, raised, Quantity);
      SumOfUpdate(cart, i, raised, Subtotal);
      assert Subtotal(raised) == Subtotal(cart[i]) + cart[i].price;
    case None =>
      var added := LineItem(name, price, 1);
      SumOfAppend(cart, [added], Quantity);
      SumOfAppend(cart, [added], Subtotal);
  }

  /** `removeItem` lowers the count by the removed quantity and the total by
      the removed row's subtotal. */
  lemma RemoveAtTotals(cart: Cart, index: int)
    requires 0 <= index < |cart|
    ensures ItemCount(RemoveAt(cart, index)) == ItemCount(cart) - cart[index].quantity
    ensures TotalPrice(RemoveAt(cart, index)) == TotalPrice(cart) - Subtotal(cart[index])
  {
    SumOfRemove(cart, index, Quantity);
    SumOfRemove(cart, index, Subtotal);
  }

  /** `updateQuantity` moves the count by `change` while the item stays, and
      by minus its old quantity when the item is dropped; the total moves
      by the same number of units of the item's price. */
  lemma ChangeQuantityTotals(cart: Cart, index: int, change: int)
    requires 0 <= index < |cart|
    ensures cart[index].quantity + change > 0 ==>
      && ItemCount(ChangeQuantity(cart, index, change)) == ItemCount(cart) + change
      && TotalPrice(ChangeQuantity(cart, index, change)) == TotalPrice(cart) + cart[index].price * change
    ensures cart[index].quantity + change <= 0 ==>
      && ItemCount(ChangeQuantity(cart, index, change)) == ItemCount(cart) - cart[index].quantity
      && TotalPrice(ChangeQuantity(cart, index, change)) == TotalPrice(cart) - Subtotal(cart[index])
  {
    var item := cart[index];
    if item.quantity + change <= 0 {
      RemoveAtTotals(cart, index);
    } else {
      var moved := item.(quantity := item.quantity + change);
      SumOfUpdate(cart, index, moved, Quantity);
      SumOfUpdate(cart, index, moved, Subtotal);
      assert Subtotal(moved) == Subtotal(item) + item.price * change;
    }
  }
}
