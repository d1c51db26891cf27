/**
 * Exchange-rate and currency-symbol lookups with their fallbacks. Each page
 * keeps its own copy of the symbol table; the two copies differ in their
 * fifth entry. The rate table maps a currency code to its multiplier
 * against the US dollar.
 */
module Currency {

  /** The symbol table of the catalog page. */
  const CatalogSymbols: map<string, string> :=
    map["USD" := "$", "EUR" := "€", "GBP" := "£", "JPY" := "¥", "AFG" := "؋"]

  /** The symbol table of the cart page. */
  const CartSymbols: map<string, string> :=
    map["USD" := "$", "EUR" := "€", "GBP" := "£", "JPY" := "¥", "INR" := "₹"]

  /**
   * `exchangeRates[code] || 1`: the multiplier for `code`, where a missing
   * code and a zero (falsy) rate both fall back to 1.
   */
  function Rate(rates: map<string, real>, code: string): (r: real)
    ensures r != 0.0
    ensures code in rates && rates[code] != 0.0 ==> r == rates[code]
    ensures code !in rates ==> r == 1.0
    ensures code in rates && rates[code] == 0.0 ==> r == 1.0
  {
    if code in rates && rates[code] != 0.0 then rates[code] else 1.0
  }

  /** `currencySymbols[code] || "$"`: a missing code (or an empty symbol) shows "$". */
  function Symbol(symbols: map<string, string>, code: string): (s: string)
    ensures s != ""
    ensures code in symbols && symbols[code] != "" ==> s == symbols[code]
    ensures code !in symbols ==> s == "$"
  {
    if code in symbols && symbols[code] != "" then symbols[code] else "$"
  }

  /** The tables differ: "INR" has a symbol only on the cart page, "AFG" only on the catalog page. */
  lemma SymbolTablesDiffer()
    ensures Symbol(CartSymbols, "INR") == "₹" && Symbol(CatalogSymbols, "INR") == "$"
    ensures Symbol(CatalogSymbols, "AFG") == "؋" && Symbol(CartSymbols, "AFG") == "$"
  {
  }
}
