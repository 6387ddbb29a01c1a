/** The stateful side of the cart in script.js: the single persisted "cart"
    slot of the browser's local storage, and the handlers that read it, edit
    the cart and write it back. */
module CartStorage {
  import opened CartState

  /** What the "cart" slot holds: nothing, a cart written by `saveCart`, or
      text that does not parse. The serialised text is not modelled; a cart
      written is the cart read back. */
  datatype Stored = Absent | Saved(items: Cart) | Corrupt

  /** How a handler ended: its guard turned the call away, the storage write
      failed (a quota error, caught by the handler), or the new cart was
      written. */
  datatype Outcome = Rejected | WriteFailed | Written

  /** `getCart`: a missing slot or one that fails to parse reads as the empty
      cart, and reading never fails. */
  function Load(slot: Stored): (cart: Cart)
    ensures slot.Saved? ==> cart == slot.items
    ensures !slot.Saved? ==> cart == []
  {
    if slot.Saved? then slot.items else []
  }

  class CartStore {
    /** The "cart" key of local storage. */
    var slot: Stored

    constructor (initial: Stored)
      ensures slot == initial
    {
      slot := initial;
    }

    /** The store's accessor for `Load`: the cart that `getCart` reads from
        the current slot. */
    function GetCart(): Cart
      reads this
    {
      Load(slot)
    }

    /** The number `updateCartCount` puts on the badge: the `reduce` of the
        quantities of the stored cart, starting from 0. */
    function CartCount(): (n: int)
      reads this
      ensures GetCart() == [] ==> n == 0
      ensures QuantitiesPositive(GetCart()) ==> n >= |GetCart()|
    {
      var cart := GetCart();
      if QuantitiesPositive(cart) then
        CountCoversRows(cart);
        ItemCount(cart)
      else
        ItemCount(cart)
    }

    /** `saveCart`: write the cart to the slot. `accepted` is the storage's
        answer; when it refuses (quota exceeded) the slot keeps its old
        value and the failure is reported. */
    method SaveCart(cart: Cart, accepted: bool) returns (ok: bool)
      modifies this
      ensures ok == accepted
      ensures ok ==> slot == Saved(cart) && GetCart() == cart
      ensures !ok ==> slot == old(slot)
    {
      ok := accepted;
      if ok {
        slot := Saved(cart);
      }
    }

    /** `addToCart`: reject an empty name or a price that is NaN or not above
        zero; otherwise read the cart, raise the first item of that name by
        one or append a new item with quantity 1, and write the cart back. */
    method AddToCart(name: string, price: ParsedPrice, accepted: bool) returns (outcome: Outcome)
      modifies this
      ensures outcome == Rejected <==> !ValidProduct(name, price)
      ensures outcome == WriteFailed <==> ValidProduct(name, price) && !accepted
      ensures outcome == Written ==>
        price.Amount? && slot == Saved(AddItem(old(GetCart()), name, price.units))
      ensures outcome == Written ==> CartCount() == old(CartCount()) + 1
      ensures outcome != Written ==> slot == old(slot)
      ensures WellFormed(old(GetCart())) ==> WellFormed(GetCart())
    {
      if name == "" || price.NotANumber? || price.units <= 0 {
        return Rejected;
      }
      var cart := GetCart();
      ghost var before := cart;
      match FindByName(cart, name) {
        case Some(i) =>
          cart := cart[i := cart[i].(quantity := cart[i].quantity + 1)];
        case None =>
          cart := cart + [LineItem(name, price.units, 1)];
      }
      var ok := SaveCart(cart, accepted);
      outcome := if ok then Written else WriteFailed;
      AddItemTotals(before, name, price.units);
    }

    /** `updateQuantity`: ignore an index outside the cart; otherwise add
        `change` to that item's quantity, splice the item out when the
        quantity is 0 or less, and write the cart back. */
    method UpdateQuantity(index: int, change: int, accepted: bool) returns (outcome: Outcome)
      modifies this
      ensures outcome == Rejected <==> !(0 <= index < |old(GetCart())|)
      ensures outcome == WriteFailed <==> 0 <= index < |old(GetCart())| && !accepted
      ensures outcome == Written ==>
        slot == Saved(ChangeQuantity(old(GetCart()), index, change))
      ensures outcome != Written ==> slot == old(slot)
      ensures WellFormed(old(GetCart())) ==> WellFormed(GetCart())
    {
      var cart := GetCart();
      if !(0 <= index < |cart|) {
        return Rejected;
      }
      ghost var before := cart;
      cart := cart[index := cart[index].(quantity := cart[index].quantity + change)];
      if cart[index].quantity <= 0 {
        cart := cart[..index] + cart[index + 1..];
        assert cart == RemoveAt(before, index);
      }
      var ok := SaveCart(cart, accepted);
      outcome := if ok then Written else WriteFailed;
    }

    /** `removeItem`: splice out the item at `index` when it is in range and
        write the cart back; an index outside the cart is ignored. */
    method RemoveItem(index: int, accepted: bool) returns (outcome: Outcome)
      modifies this
      ensures outcome == Rejected <==> !(0 <= index < |old(GetCart())|)
      ensures outcome == WriteFailed <==> 0 <= index < |old(GetCart())| && !accepted
      ensures outcome == Written ==>
        slot == Saved(RemoveAt(old(GetCart()), index))
      ensures outcome != Written ==> slot == old(slot)
      ensures WellFormed(old(GetCart())) ==> WellFormed(GetCart())
    {
      var cart := GetCart();
      if !(0 <= index < |cart|) {
        return Rejected;
      }
      cart := cart[..index] + cart[index + 1..];
      var ok := SaveCart(cart, accepted);
      outcome := if ok then Written else WriteFailed;
    }

    /** `clearCart`: remove the key; the next read yields the empty cart. */
    method ClearCart()
      modifies this
      ensures slot == Absent && GetCart() == []
    {
      slot := Absent;
    }

    /** The total that `loadCartItems` shows: 0 for an empty cart, otherwise
        the subtotals added up row by row. */
    method CartTotal() returns (total: int)
      ensures total == TotalPrice(GetCart())
    {
      var cart := GetCart();
      total := 0;
      if |cart| == 0 {
        return;
      }
      var i := 0;
      while i < |cart|
        invariant 0 <= i <= |cart|
        invariant total == TotalPrice(cart[..i])
      {
        assert cart[..i + 1][..i] == cart[..i];
        total := total + cart[i].price * cart[i].quantity;
        i := i + 1;
      }
      assert cart[..i] == cart;
    }
  }

  /** Two uses of the handlers, checked against their contracts alone:
      adding the same bar twice gives one row of quantity 2 and a total of
      300, and lowering that row twice empties the cart. */
  method Scenarios() {
    var store := new CartStore(Absent);
    var first := store.AddToCart("Protein Bar", Amount(150), true);
    assert store.GetCart() == [LineItem("Protein Bar", 150, 1)];
    var second := store.AddToCart("Protein Bar", Amount(150), true);
    assert store.GetCart() == [LineItem("Protein Bar", 150, 2)];
    var total := store.CartTotal();
    assert [LineItem("Protein Bar", 150, 2)][..0] == [];
    assert total == 300;
    var lowered := store.UpdateQuantity(0, -1, true);
    lowered := store.UpdateQuantity(0, -1, true);
    assert store.GetCart() == [];
  }
}
