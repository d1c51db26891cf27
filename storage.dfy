/**
 * The browser's key/value storage, reduced to the one slot named "cart".
 * The slot is absent until the first add-to-cart and again after checkout.
 */
module Storage {
  import opened Wrappers
  import opened CartLines

  /** `JSON.parse(localStorage.getItem("cart")) || []`: an absent slot reads as the empty cart. */
  function Load(slot: Option<seq<CartLine>>): (cart: seq<CartLine>)
    ensures slot.None? ==> cart == []
    ensures slot.Some? ==> cart == slot.value
  {
    slot.GetOr([])
  }

  /** The count in the navigation badge, computed from whatever the slot holds. */
  function CartCount(slot: Option<seq<CartLine>>): (count: int)
    ensures slot.None? ==> count == 0
    ensures ValidCart(Load(slot)) ==> count >= |Load(slot)|
  {
    CountAtLeastLines(Load(slot));
    TotalQuantity(Load(slot))
  }

  /** The storage, shared by the three pages; `slot` is the "cart" entry. */
  class Store {
    var slot: Option<seq<CartLine>>

    /** A browser with nothing stored under "cart". */
    constructor ()
      ensures slot == None
    {
      slot := None;
    }

    /** `localStorage.setItem("cart", JSON.stringify(cart))`: the whole slot is overwritten. */
    method Save(cart: seq<CartLine>)
      modifies this
      ensures slot == Some(cart)
    {
      slot := Some(cart);
    }

    /** `localStorage.removeItem("cart")`. */
    method Clear()
      modifies this
      ensures slot == None
    {
      slot := None;
    }
  }
}
