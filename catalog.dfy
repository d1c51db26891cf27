/**
 * The catalog page: category filtering, the category drop-down, the
 * add-to-cart handler and the page's mutable state (product list, rate
 * table and selected currency).
 */
module Catalog {
  import opened Wrappers
  import opened CartLines
  import opened Storage
  import Currency

  // ---------------------------------------------------------------------
  // Category filter
  // ---------------------------------------------------------------------

  /** `products.filter(p => p.category === category)`. */
  function InCategory(products: seq<Product>, category: string): (r: seq<Product>)
    ensures |r| <= |products|
    ensures forall i :: 0 <= i < |r| ==> r[i].category == category
  {
    if products == [] then []
    else
      var rest := InCategory(products[1..], category);
      if products[0].category == category then [products[0]] + rest else rest
  }

  /** The filter keeps exactly the products of the category. */
  lemma {:induction false} InCategoryMembers(products: seq<Product>, category: string)
    ensures forall p :: p in InCategory(products, category) <==> p in products && p.category == category
    decreases |products|
  {
    if products != [] {
      InCategoryMembers(products[1..], category);
      assert products == [products[0]] + products[1..];
    }
  }

  /** The filter distributes over concatenation: it keeps the products' order. */
  lemma {:induction false} InCategoryConcat(a: seq<Product>, b: seq<Product>, category: string)
    ensures InCategory(a + b, category) == InCategory(a, category) + InCategory(b, category)
    decreases |a|
  {
    if a == [] {
      assert a + b == b;
    } else {
      assert (a + b)[0] == a[0];
      assert (a + b)[1..] == a[1..] + b;
      InCategoryConcat(a[1..], b, category);
      var head := if a[0].category == category then [a[0]] else [];
      assert InCategory(a + b, category) == head + InCategory(a[1..] + b, category);
      assert InCategory(a, category) == head + InCategory(a[1..], category);
    }
  }

  /** A product list within one category is left as it is. */
  lemma {:induction false} InCategoryKeepsAll(products: seq<Product>, category: string)
    requires forall i :: 0 <= i < |products| ==> products[i].category == category
    ensures InCategory(products, category) == products
    decreases |products|
  {
    if products != [] {
      InCategoryKeepsAll(products[1..], category);
    }
  }

  /**
   * The change handler of the category drop-down: an empty selection (the
   * "all" option, a falsy string) shows every product, otherwise only the
   * products of the selected category, in their original order.
   */
  function FilterByCategory(products: seq<Product>, selected: string): (shown: seq<Product>)
    ensures selected == "" ==> shown == products
    ensures selected != "" ==> forall i :: 0 <= i < |shown| ==> shown[i].category == selected
    ensures selected != "" ==> forall p :: p in shown <==> p in products && p.category == selected
  {
    if selected != "" then
      InCategoryMembers(products, selected);
      InCategory(products, selected)
    else products
  }

  // ---------------------------------------------------------------------
  // Category drop-down
  // ---------------------------------------------------------------------

  /** `products.map(p => p.category)`. */
  function CategoriesOf(products: seq<Product>): (cs: seq<string>)
    ensures |cs| == |products|
    ensures forall i :: 0 <= i < |products| ==> cs[i] == products[i].category
  {
    seq(|products|, i requires 0 <= i < |products| => products[i].category)
  }

  /** Position of the first occurrence of `x` in `s`. */
  function FirstIndex(s: seq<string>, x: string): (k: nat)
    requires x in s
    ensures k < |s| && s[k] == x
    ensures forall j :: 0 <= j < k ==> s[j] != x
  {
    if s[0] == x then 0 else 1 + FirstIndex(s[1..], x)
  }

  /**
   * `[...new Set(s)]`: a JavaScript Set keeps insertion order, so each value
   * appears once, at the place of its first occurrence.
   */
  function Distinct(s: seq<string>): (r: seq<string>)
    ensures forall x :: x in r <==> x in s
    ensures forall i, j :: 0 <= i < j < |r| ==> r[i] != r[j]
    decreases |s|
  {
    if s == [] then []
    else
      var d := Distinct(s[..|s| - 1]);
      var last := s[|s| - 1];
      assert forall x :: x in s <==> x in s[..|s| - 1] || x == last;
      if last in d then d else d + [last]
  }

  /** The first occurrence of `x` within a prefix is its first occurrence in the whole sequence. */
  lemma FirstIndexPrefix(s: seq<string>, m: nat, x: string)
    requires m <= |s| && x in s[..m]
    ensures FirstIndex(s, x) == FirstIndex(s[..m], x) < m
  {
    assert s[FirstIndex(s[..m], x)] == x;
  }

  /** Distinct lists values in the order of their first occurrence in the input. */
  lemma {:induction false} DistinctFirstOccurrenceOrder(s: seq<string>)
    ensures forall i, j :: 0 <= i < j < |Distinct(s)| ==>
      FirstIndex(s, Distinct(s)[i]) < FirstIndex(s, Distinct(s)[j])
    decreases |s|
  {
    if s != [] {
      var n := |s|;
      var s' := s[..n - 1];
      var d := Distinct(s');
      var last := s[n - 1];
      DistinctFirstOccurrenceOrder(s');
      assert s[..n - 1] == s';
      forall x | x in d
        ensures FirstIndex(s, x) == FirstIndex(s', x) < n - 1
      {
        FirstIndexPrefix(s, n - 1, x);
      }
      if last !in d {
        assert last !in s';
        assert FirstIndex(s, last) == n - 1;
        var r := d + [last];
        forall k | 0 <= k < |r|
          ensures r[k] in s
        {
          if k < |d| {
            assert r[k] in d;
            assert r[k] in s';
          }
        }
        forall i, j | 0 <= i < j < |r|
          ensures FirstIndex(s, r[i]) < FirstIndex(s, r[j])
        {
          assert r[i] in d;
          if j < |d| {
            assert r[j] in d;
          }
        }
      }
    }
  }

  /** The categories offered by the drop-down, from `populateCategoryFilter`. */
  function UniqueCategories(products: seq<Product>): (cs: seq<string>)
  {
    Distinct(CategoriesOf(products))
  }

  /**
   * The drop-down's categories are pairwise distinct, each is the category of
   * some product, every product's category is among them, and they are
   * listed in order of first occurrence.
   */
  lemma UniqueCategoriesSpec(products: seq<Product>)
    ensures var cs := UniqueCategories(products);
      && (forall i, j :: 0 <= i < j < |cs| ==> cs[i] != cs[j])
      && (forall i :: 0 <= i < |cs| ==>
            exists k :: 0 <= k < |products| && products[k].category == cs[i])
      && (forall k :: 0 <= k < |products| ==> products[k].category in cs)
      && (forall i, j :: 0 <= i < j < |cs| ==>
            FirstIndex(CategoriesOf(products), cs[i]) < FirstIndex(CategoriesOf(products), cs[j]))
  {
    var names := CategoriesOf(products);
    var cs := Distinct(names);
    DistinctFirstOccurrenceOrder(names);
    forall i | 0 <= i < |cs|
      ensures exists k :: 0 <= k < |products| && products[k].category == cs[i]
    {
      var k := FirstIndex(names, cs[i]);
      assert products[k].category == cs[i];
    }
    forall k | 0 <= k < |products|
      ensures products[k].category in cs
    {
      assert names[k] in names;
    }
  }

  /** ASCII upper-casing of one character; other characters are left alone. */
  function ToUpper(c: char): (u: char)
  {
    if 'a' <= c <= 'z' then (c as int - 'a' as int + 'A' as int) as char else c
  }

  /** `cat.charAt(0).toUpperCase() + cat.slice(1)`: the option's visible label. */
  function Label(category: string): (caption: string)
    ensures |caption| == |category|
    ensures |category| > 0 ==> caption[1..] == category[1..]
    ensures |category| > 0 ==> caption[0] == ToUpper(category[0])
    ensures |category| > 0 ==> !('a' <= caption[0] <= 'z')
  {
    if category == [] then [] else [ToUpper(category[0])] + category[1..]
  }

  // ---------------------------------------------------------------------
  // Add to cart
  // ---------------------------------------------------------------------

  /**
   * The cart after the add-to-cart handler: the first line with the
   * product's id gets one more unit (its snapshot of the product is
   * kept), otherwise a new line with quantity 1 is appended.
   */
  function AddProduct(cart: seq<CartLine>, product: Product): (r: seq<CartLine>)
  {
    match FindLine(cart, product.id)
    case Some(i) => cart[i := cart[i].(quantity := cart[i].quantity + 1)]
    case None => cart + [CartLine(product, 1)]
  }

  /** Adding a product already in the cart increments its line; nothing else changes. */
  lemma AddExistingIncrements(cart: seq<CartLine>, product: Product, i: nat)
    requires UniqueIds(cart)
    requires i < |cart| && cart[i].item.id == product.id
    ensures var r := AddProduct(cart, product);
      && |r| == |cart|
      && r[i] == CartLine(cart[i].item, cart[i].quantity + 1)
      && forall j :: 0 <= j < |cart| && j != i ==> r[j] == cart[j]
  {
    var k := FindLine(cart, product.id);
    assert k.Some?;
  }

  /** Adding a product not in the cart appends one line with quantity 1. */
  lemma AddAbsentAppends(cart: seq<CartLine>, product: Product)
    requires forall j :: 0 <= j < |cart| ==> cart[j].item.id != product.id
    ensures var r := AddProduct(cart, product);
      && |r| == |cart| + 1
      && r[..|cart|] == cart
      && r[|cart|] == CartLine(product, 1)
  {
  }

  /** Adding keeps every quantity at least 1 and the ids unique. */
  lemma AddPreservesValid(cart: seq<CartLine>, product: Product)
    requires ValidCart(cart)
    ensures ValidCart(AddProduct(cart, product))
  {
    var r := AddProduct(cart, product);
    match FindLine(cart, product.id)
    case Some(i) =>
      assert forall j :: 0 <= j < |r| ==> r[j].item == cart[j].item;
    case None =>
      assert forall j :: 0 <= j < |cart| ==> r[j] == cart[j];
  }

  /** After an add the badge count is exactly one more than before. */
  lemma AddIncrementsCount(cart: seq<CartLine>, product: Product)
    ensures TotalQuantity(AddProduct(cart, product)) == TotalQuantity(cart) + 1
  {
    match FindLine(cart, product.id)
    case Some(i) =>
      SumByUpdate(cart, i, cart[i].(quantity := cart[i].quantity + 1), Quantity);
    case None =>
      SumByAppend(cart, CartLine(product, 1), Quantity);
  }

  /**
   * The add-to-cart click handler: load the cart, find the line by id,
   * bump it in place or push a new line, save the whole cart.
   * The acknowledgement alert and the badge refresh are presentation.
   */
  method AddToCart(store: Store, product: Product)
    modifies store
    ensures store.slot == Some(AddProduct(old(Load(store.slot)), product))
    ensures TotalQuantity(Load(store.slot)) == TotalQuantity(old(Load(store.slot))) + 1
    ensures ValidCart(old(Load(store.slot))) ==> ValidCart(Load(store.slot))
  {
    var cart := Load(store.slot);
    ghost var before := cart;
    var existing := FindLine(cart, product.id);
    if existing.Some? {
      var i := existing.value;
      cart := cart[i := cart[i].(quantity := cart[i].quantity + 1)];
    } else {
      cart := cart + [CartLine(product, 1)];
    }
    store.Save(cart);
    AddIncrementsCount(before, product);
    if ValidCart(before) {
      AddPreservesValid(before, product);
    }
  }

  /**
   * A product at 9.99 added twice to an absent cart: a single line of
   * quantity 2, a badge count of 2 and a total of 19.98.
   */
  lemma AddTwiceScenario(p: Product)
    requires p.id == 7 && p.price == 999
    ensures AddProduct(AddProduct(Load(None), p), p) == [CartLine(p, 2)]
    ensures TotalQuantity([CartLine(p, 2)]) == 2
    ensures TotalUsd([CartLine(p, 2)]) == 1998
  {
    var once := AddProduct(Load(None), p);
    assert once == [CartLine(p, 1)];
    assert FindLine(once, p.id) == Some(0);
    assert [] + [CartLine(p, 2)] == [CartLine(p, 2)];
    SumByAppend([], CartLine(p, 2), Quantity);
    SumByAppend([], CartLine(p, 2), LineTotal);
  }

  // ---------------------------------------------------------------------
  // Page state
  // ---------------------------------------------------------------------

  /** The catalog page's globals: `allProducts`, `exchangeRates`, `currentCurrency`. */
  class CatalogPage {
    var allProducts: seq<Product>
    var exchangeRates: map<string, real>
    var currentCurrency: string

    /** Page start: no products, no rates, US dollars. */
    constructor ()
      ensures allProducts == [] && exchangeRates == map[] && currentCurrency == "USD"
    {
      allProducts := [];
      exchangeRates := map[];
      currentCurrency := "USD";
    }

    /** The product fetch resolved: keep the list and fill the drop-down. */
    method ProductsLoaded(products: seq<Product>) returns (options: seq<(string, string)>)
      modifies this
      ensures allProducts == products
      ensures exchangeRates == old(exchangeRates) && currentCurrency == old(currentCurrency)
      ensures |options| == |UniqueCategories(products)|
      ensures forall i :: 0 <= i < |options| ==>
        options[i] == (UniqueCategories(products)[i], Label(UniqueCategories(products)[i]))
    {
      allProducts := products;
      var categories := UniqueCategories(products);
      options := seq(|categories|, i requires 0 <= i < |categories| => (categories[i], Label(categories[i])));
    }

    /** The rate fetch resolved: `exchangeRates = data.rates`. */
    method RatesLoaded(rates: map<string, real>)
      modifies this
      ensures exchangeRates == rates
      ensures allProducts == old(allProducts) && currentCurrency == old(currentCurrency)
    {
      exchangeRates := rates;
    }

    /**
     * The currency drop-down changed: the products re-rendered, with the
     * multiplier and symbol `convertPrices` applies to them. The whole
     * product list is rendered, so a category selection no longer shows.
     */
    method CurrencyChanged(code: string) returns (shown: seq<Product>, rate: real, symbol: string)
      modifies this
      ensures currentCurrency == code
      ensures allProducts == old(allProducts) && exchangeRates == old(exchangeRates)
      ensures shown == allProducts
      ensures rate == Currency.Rate(exchangeRates, code)
      ensures symbol == Currency.Symbol(Currency.CatalogSymbols, code)
    {
      currentCurrency := code;
      shown := allProducts;
      rate := Currency.Rate(exchangeRates, currentCurrency);
      symbol := Currency.Symbol(Currency.CatalogSymbols, currentCurrency);
    }

    /**
     * The category drop-down changed: the products to render, with the
     * multiplier and symbol `convertPrices` applies to them.
     */
    method CategoryChanged(selected: string) returns (shown: seq<Product>, rate: real, symbol: string)
      ensures shown == FilterByCategory(allProducts, selected)
      ensures rate == Currency.Rate(exchangeRates, currentCurrency)
      ensures symbol == Currency.Symbol(Currency.CatalogSymbols, currentCurrency)
    {
      shown := if selected != "" then InCategory(allProducts, selected) else allProducts;
      rate := Currency.Rate(exchangeRates, currentCurrency);
      symbol := Currency.Symbol(Currency.CatalogSymbols, currentCurrency);
    }
  }
}
