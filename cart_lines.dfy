/**
 * Cart line items, shared by the catalog page and the cart page.
 * A line is a snapshot of the product taken when it was first added,
 * plus a quantity. Prices are integer US cents.
 */
module CartLines {
  import opened Wrappers

  /** A product as delivered by the remote catalog (price in US cents). */
  datatype Product = Product(
    id: int,
    title: string,
    price: int,
    image: string,
    description: string,
    category: string)

  /** `{ ...product, quantity }`: the product's fields plus a quantity. */
  datatype CartLine = CartLine(item: Product, quantity: int)

  function Id(line: CartLine): int { line.item.id }
  function Quantity(line: CartLine): int { line.quantity }
  /** What one line contributes to the USD total: price times quantity. */
  function LineTotal(line: CartLine): int { line.item.price * line.quantity }

  /** Left-to-right sum of `f` over the lines, as `reduce` and `forEach` accumulate it. */
  function SumBy(cart: seq<CartLine>, f: CartLine -> int): int
  {
    if cart == [] then 0 else SumBy(cart[..|cart| - 1], f) + f(cart[|cart| - 1])
  }

  /** The number shown in the cart badge: the sum of all quantities. */
  function TotalQuantity(cart: seq<CartLine>): int { SumBy(cart, Quantity) }

  /** The cart's grand total in US cents: the sum of price times quantity. */
  function TotalUsd(cart: seq<CartLine>): int { SumBy(cart, LineTotal) }

  /** Every stored line has quantity at least 1 (a decrement to zero removes the line). */
  predicate PositiveQuantities(cart: seq<CartLine>)
  {
    forall i :: 0 <= i < |cart| ==> cart[i].quantity >= 1
  }

  /** At most one line per product id. */
  predicate UniqueIds(cart: seq<CartLine>)
  {
    forall i, j :: 0 <= i < j < |cart| ==> cart[i].item.id != cart[j].item.id
  }

  /** The two invariants every cart operation keeps. */
  predicate ValidCart(cart: seq<CartLine>)
  {
    PositiveQuantities(cart) && UniqueIds(cart)
  }

  /**
   * `cart.find(item => item.id === id)`: the index of the FIRST line with that
   * id, or None when no line has it.
   */
  function FindLine(cart: seq<CartLine>, id: int): (r: Option<nat>)
    ensures r.Some? ==> r.value < |cart| && cart[r.value].item.id == id
    ensures r.Some? ==> forall j :: 0 <= j < r.value ==> cart[j].item.id != id
    ensures r.None? <==> forall j :: 0 <= j < |cart| ==> cart[j].item.id != id
  {
    if cart == [] then None
    else if cart[0].item.id == id then Some(0)
    else match FindLine(cart[1..], id)
      case None => None
      case Some(k) => Some(k + 1)
  }

  /** `cart.splice(index, 1)`: the cart without the line at `index`. */
  function RemoveAt(cart: seq<CartLine>, index: nat): seq<CartLine>
    requires index < |cart|
  {
    cart[..index] + cart[index + 1..]
  }

  /** The lines before the index stay in place, the ones after it move up by one. */
  lemma RemoveAtShape(cart: seq<CartLine>, index: nat)
    requires index < |cart|
    ensures var r := RemoveAt(cart, index);
      && |r| == |cart| - 1
      && (forall j :: 0 <= j < index ==> r[j] == cart[j])
      && (forall j :: index <= j < |r| ==> r[j] == cart[j + 1])
  {
  }

  lemma {:induction false} SumByConcat(a: seq<CartLine>, b: seq<CartLine>, f: CartLine -> int)
    ensures SumBy(a + b, f) == SumBy(a, f) + SumBy(b, f)
    decreases |b|
  {
    if b == [] {
      assert a + b == a;
    } else {
      var b' := b[..|b| - 1];
      assert (a + b)[..|a + b| - 1] == a + b';
      SumByConcat(a, b', f);
    }
  }

  lemma SumBySplit(cart: seq<CartLine>, k: nat, f: CartLine -> int)
    requires k <= |cart|
    ensures SumBy(cart, f) == SumBy(cart[..k], f) + SumBy(cart[k..], f)
  {
    assert cart == cart[..k] + cart[k..];
    SumByConcat(cart[..k], cart[k..], f);
  }

  lemma SumByPrefixStep(cart: seq<CartLine>, k: nat, f: CartLine -> int)
    requires k < |cart|
    ensures SumBy(cart[..k + 1], f) == SumBy(cart[..k], f) + f(cart[k])
  {
    assert cart[..k + 1][..k] == cart[..k];
  }

  /** Removing a line takes exactly that line's contribution off the sum. */
  lemma SumByRemoveAt(cart: seq<CartLine>, index: nat, f: CartLine -> int)
    requires index < |cart|
    ensures SumBy(RemoveAt(cart, index), f) == SumBy(cart, f) - f(cart[index])
  {
    SumBySplit(cart, index + 1, f);
    SumByPrefixStep(cart, index, f);
    SumByConcat(cart[..index], cart[index + 1..], f);
  }

  /** Replacing a line swaps its contribution to the sum for the new one's. */
  lemma SumByUpdate(cart: seq<CartLine>, index: nat, line: CartLine, f: CartLine -> int)
    requires index < |cart|
    ensures SumBy(cart[index := line], f) == SumBy(cart, f) - f(cart[index]) + f(line)
  {
    var u := cart[index := line];
    assert RemoveAt(u, index) == RemoveAt(cart, index);
    SumByRemoveAt(cart, index, f);
    SumByRemoveAt(u, index, f);
  }

  /** Appending a line adds its contribution to the sum. */
  lemma SumByAppend(cart: seq<CartLine>, line: CartLine, f: CartLine -> int)
    ensures SumBy(cart + [line], f) == SumBy(cart, f) + f(line)
  {
    assert (cart + [line])[..|cart|] == cart;
  }

  /** With every quantity at least 1, the count is at least the number of lines. */
  lemma {:induction false} CountAtLeastLines(cart: seq<CartLine>)
    ensures PositiveQuantities(cart) ==> TotalQuantity(cart) >= |cart|
    decreases |cart|
  {
    if cart != [] && PositiveQuantities(cart) {
      var prefix := cart[..|cart| - 1];
      assert forall i :: 0 <= i < |prefix| ==> prefix[i] == cart[i];
      CountAtLeastLines(prefix);
    }
  }
}
