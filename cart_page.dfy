/**
 * The cart page: the per-row quantity controls, the running USD total of
 * `renderCart`, and the page's rate table and selected currency.
 * Each control acts on the row's index in the freshly loaded cart.
 */
module CartPage {
  import opened Wrappers
  import opened CartLines
  import opened Storage
  import Currency

  /** The "−" button: one unit fewer, or the whole line when only one is left. */
  function Decrease(cart: seq<CartLine>, index: nat): (r: seq<CartLine>)
    requires index < |cart|
  {
    if cart[index].quantity > 1
    then cart[index := cart[index].(quantity := cart[index].quantity - 1)]
    else RemoveAt(cart, index)
  }

  /** The "+" button: one unit more. */
  function Increase(cart: seq<CartLine>, index: nat): (r: seq<CartLine>)
    requires index < |cart|
  {
    cart[index := cart[index].(quantity := cart[index].quantity + 1)]
  }

  /** The "Remove" button: the line goes, whatever its quantity. */
  function Remove(cart: seq<CartLine>, index: nat): (r: seq<CartLine>)
    requires index < |cart|
  {
    RemoveAt(cart, index)
  }

  /** Removing a line keeps the remaining lines in their order and keeps the invariants. */
  lemma RemoveAtPreservesValid(cart: seq<CartLine>, index: nat)
    requires index < |cart| && ValidCart(cart)
    ensures ValidCart(RemoveAt(cart, index))
  {
    var r := RemoveAt(cart, index);
    RemoveAtShape(cart, index);
    forall i, j | 0 <= i < j < |r|
      ensures r[i].item.id != r[j].item.id
    {
      var i' := if i < index then i else i + 1;
      var j' := if j < index then j else j + 1;
      assert r[i] == cart[i'] && r[j] == cart[j'] && i' < j';
    }
  }

  /** Decrease on a line with more than one unit takes one unit off that line only. */
  lemma DecreaseDecrements(cart: seq<CartLine>, index: nat)
    requires index < |cart| && cart[index].quantity > 1
    ensures var r := Decrease(cart, index);
      && |r| == |cart|
      && r[index].item == cart[index].item
      && r[index].quantity == cart[index].quantity - 1
      && forall j :: 0 <= j < |cart| && j != index ==> r[j] == cart[j]
  {
  }

  /** Decrease on a line with one unit removes that line; the others keep their order. */
  lemma DecreaseRemovesLast(cart: seq<CartLine>, index: nat)
    requires index < |cart| && cart[index].quantity == 1
    ensures var r := Decrease(cart, index);
      && |r| == |cart| - 1
      && (forall j :: 0 <= j < index ==> r[j] == cart[j])
      && (forall j :: index <= j < |r| ==> r[j] == cart[j + 1])
  {
    RemoveAtShape(cart, index);
  }

  /** Increase adds one unit at the index and changes nothing else. */
  lemma IncreaseIncrements(cart: seq<CartLine>, index: nat)
    requires index < |cart|
    ensures var r := Increase(cart, index);
      && |r| == |cart|
      && r[index].item == cart[index].item
      && r[index].quantity == cart[index].quantity + 1
      && forall j :: 0 <= j < |cart| && j != index ==> r[j] == cart[j]
  {
  }

  /** Remove deletes the line at the index; the others keep their order. */
  lemma RemoveDeletes(cart: seq<CartLine>, index: nat)
    requires index < |cart|
    ensures var r := Remove(cart, index);
      && |r| == |cart| - 1
      && (forall j :: 0 <= j < index ==> r[j] == cart[j])
      && (forall j :: index <= j < |r| ==> r[j] == cart[j + 1])
  {
    RemoveAtShape(cart, index);
  }

  /** All three controls keep every quantity at least 1 and the ids unique. */
  lemma ControlsPreserveValid(cart: seq<CartLine>, index: nat)
    requires index < |cart|
    ensures ValidCart(cart) ==> ValidCart(Decrease(cart, index))
    ensures ValidCart(cart) ==> ValidCart(Increase(cart, index))
    ensures ValidCart(cart) ==> ValidCart(Remove(cart, index))
  {
    if ValidCart(cart) {
      RemoveAtPreservesValid(cart, index);
      var d := Decrease(cart, index);
      if cart[index].quantity > 1 {
        assert forall j :: 0 <= j < |d| ==> d[j].item == cart[j].item;
      }
      var u := Increase(cart, index);
      assert forall j :: 0 <= j < |u| ==> u[j].item == cart[j].item;
    }
  }

  /**
   * Decrease lowers the badge count by exactly 1, Increase raises it by 1,
   * Remove lowers it by the removed line's quantity.
   */
  lemma ControlsChangeCount(cart: seq<CartLine>, index: nat)
    requires index < |cart| && cart[index].quantity >= 1
    ensures TotalQuantity(Decrease(cart, index)) == TotalQuantity(cart) - 1
    ensures TotalQuantity(Increase(cart, index)) == TotalQuantity(cart) + 1
    ensures TotalQuantity(Remove(cart, index)) == TotalQuantity(cart) - cart[index].quantity
  {
    var line := cart[index];
    SumByRemoveAt(cart, index, Quantity);
    SumByUpdate(cart, index, line.(quantity := line.quantity - 1), Quantity);
    SumByUpdate(cart, index, line.(quantity := line.quantity + 1), Quantity);
  }

  /** The "−" click handler: mutate the loaded cart, then save it whole. */
  method DecreaseClicked(store: Store, index: nat)
    requires index < |Load(store.slot)|
    modifies store
    ensures store.slot == Some(Decrease(old(Load(store.slot)), index))
    ensures ValidCart(old(Load(store.slot))) ==> ValidCart(Load(store.slot))
  {
    var cart := Load(store.slot);
    if cart[index].quantity > 1 {
      cart := cart[index := cart[index].(quantity := cart[index].quantity - 1)];
    } else {
      cart := cart[..index] + cart[index + 1..];
    }
    ControlsPreserveValid(Load(store.slot), index);
    store.Save(cart);
  }

  /** The "+" click handler. */
  method IncreaseClicked(store: Store, index: nat)
    requires index < |Load(store.slot)|
    modifies store
    ensures store.slot == Some(Increase(old(Load(store.slot)), index))
    ensures ValidCart(old(Load(store.slot))) ==> ValidCart(Load(store.slot))
  {
    var cart := Load(store.slot);
    cart := cart[index := cart[index].(quantity := cart[index].quantity + 1)];
    ControlsPreserveValid(Load(store.slot), index);
    store.Save(cart);
  }

  /** The "Remove" click handler: `cart.splice(index, 1)`, then save. */
  method RemoveClicked(store: Store, index: nat)
    requires index < |Load(store.slot)|
    modifies store
    ensures store.slot == Some(Remove(old(Load(store.slot)), index))
    ensures ValidCart(old(Load(store.slot))) ==> ValidCart(Load(store.slot))
  {
    var cart := Load(store.slot);
    cart := cart[..index] + cart[index + 1..];
    ControlsPreserveValid(Load(store.slot), index);
    store.Save(cart);
  }

  /** The `forEach` in `renderCart` that accumulates `totalUSD`, in US cents. */
  method AccumulateTotal(cart: seq<CartLine>) returns (totalUsd: int)
    ensures totalUsd == TotalUsd(cart)
    ensures cart == [] ==> totalUsd == 0
  {
    totalUsd := 0;
    var index := 0;
    while index < |cart|
      invariant 0 <= index <= |cart|
      invariant totalUsd == TotalUsd(cart[..index])
    {
      assert cart[..index + 1][..index] == cart[..index];
      totalUsd := totalUsd + cart[index].item.price * cart[index].quantity;
      index := index + 1;
    }
    assert cart[..|cart|] == cart;
  }

  /** The cart page's globals: `exchangeRates` and `currentCurrency`. */
  class CartView {
    var exchangeRates: map<string, real>
    var currentCurrency: string

    /** Page start: no rates, US dollars. */
    constructor ()
      ensures exchangeRates == map[] && currentCurrency == "USD"
    {
      exchangeRates := map[];
      currentCurrency := "USD";
    }

    /** The rate fetch resolved. */
    method RatesLoaded(rates: map<string, real>)
      modifies this
      ensures exchangeRates == rates && currentCurrency == old(currentCurrency)
    {
      exchangeRates := rates;
    }

    /** The currency drop-down changed. */
    method CurrencyChanged(code: string)
      modifies this
      ensures currentCurrency == code && exchangeRates == old(exchangeRates)
    {
      currentCurrency := code;
    }

    /**
     * The numbers behind the total line of `renderCart`: the USD total of the
     * stored cart, the multiplier it is converted with, and the symbol shown.
     */
    method RenderTotal(store: Store) returns (totalUsd: int, rate: real, symbol: string)
      ensures totalUsd == TotalUsd(Load(store.slot))
      ensures store.slot.None? ==> totalUsd == 0
      ensures rate == Currency.Rate(exchangeRates, currentCurrency)
      ensures symbol == Currency.Symbol(Currency.CartSymbols, currentCurrency)
    {
      var cart := Load(store.slot);
      totalUsd := AccumulateTotal(cart);
      rate := Currency.Rate(exchangeRates, currentCurrency);
      symbol := Currency.Symbol(Currency.CartSymbols, currentCurrency);
    }
  }

  /** Decreasing the only line, of quantity 1, empties the cart; its total is 0. */
  lemma DecreaseLastLineScenario(line: CartLine)
    requires line.quantity == 1
    ensures Decrease([line], 0) == [] && TotalUsd(Decrease([line], 0)) == 0
  {
  }
}
