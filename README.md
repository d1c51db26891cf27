# Shopping cart, catalog filter and checkout validation

This project models the client-side logic of a small e-commerce demo with three
pages. The catalog page (`script.js`) lists products, filters them by category
and adds them to the cart. The cart page (`cart.js`) changes the quantity of a
line and shows the total. The checkout page (`checkout.js`) validates a
contact form and empties the cart. The pages share one storage slot named
"cart". It holds the whole cart as a sequence of lines, and it is absent until
the first add and again after a successful checkout.

Modules, one per component:

- `Wrappers`: `Option`.
- `CartLines`: `Product` and `CartLine` (a snapshot of the product plus a
  quantity), the two sums (badge count, USD total), the cart invariants
  (every quantity at least 1, at most one line per id), `cart.find` by id
  and `splice(index, 1)`.
- `Storage`: the `Store` class (the "cart" slot; `Save` overwrites it,
  `Clear` removes it), `Load`, where an absent slot reads as the empty
  cart, and the badge count.
- `Currency`: the rate lookup with fallback 1 and the symbol lookup with
  fallback "$", plus both pages' symbol tables.
- `Catalog` (`script.js`): the category filter, the drop-down's
  categories and labels, add-to-cart, and the page state (`CatalogPage`).
- `CartPage` (`cart.js`): the decrease, increase and remove controls, the
  `totalUSD` loop, and the page state (`CartView`).
- `Text`: JavaScript white space (the same set for `trim()` and for `\s`)
  and `trim`.
- `Checkout` (`checkout.js`): the e-mail pattern, the three field checks,
  the confirmation text, and the submit handler on the `CheckoutForm` class.

Prices are whole US cents. Quantities and ids are unbounded integers.

Some details of the code that the model keeps:

- The name check fails only below length 2. Name "Jo", e-mail "bad" and
  address "123" give the e-mail and address errors
  (`Checkout.JoBadScenario`).
- The name and address lengths are JavaScript `length`s, which count UTF-16
  code units. A character above U+FFFF counts twice
  (`Text.Utf16Length`, `Checkout.AstralLengthScenario`).
- Only an absent slot reads as the empty cart (`|| []`). A slot that does
  not parse would make `JSON.parse` throw, so `Load` maps only absence to
  `[]`.
- Each page has its own symbol table. The catalog page has "AFG" where the
  cart page has "INR" (`Currency.SymbolTablesDiffer`).
- The e-mail pattern forbids `@` on both sides of the `@`.
- Changing the currency on the catalog page renders the whole product list,
  whatever category is selected (`Catalog.CatalogPage.CurrencyChanged`).

## Model

| member | source | states |
|---|---|---|
| `CartLines.FindLine` | script.js:77 | `find` by id: on a hit, the index holds that id and no earlier line does; None exactly when no line has the id |
| `CartLines.SumBy` | script.js:131 | definition: the left-to-right sum of a per-line value, as `reduce` and `forEach` accumulate it; properties in `SumByRemoveAt`, `SumByUpdate`, `SumByAppend` |
| `CartLines.TotalQuantity` | script.js:131 | definition: the badge count, the sum of the quantities; properties in `CountAtLeastLines`, `Catalog.AddIncrementsCount`, `CartPage.ControlsChangeCount` |
| `CartLines.TotalUsd` | cart.js:38 | definition: the sum of price times quantity; a method computing it in `CartPage.AccumulateTotal` |
| `CartLines.RemoveAt` | cart.js:70 | definition of `splice(index, 1)`; properties in `RemoveAtShape` and `SumByRemoveAt` |
| `CartLines.SumByAppend` | script.js:82 | appending a line adds exactly its share to a sum |
| `CartLines.CountAtLeastLines` | script.js:131 | when every quantity is at least 1, the count is at least the number of lines |
| `CartLines.SumByRemoveAt` | cart.js:85 | removing a line takes exactly that line's share off a sum |
| `CartLines.SumByUpdate` | cart.js:68 | replacing a line swaps its share of a sum for the new line's |
| `CartLines.RemoveAtShape` | cart.js:70 | `splice(index, 1)`: one line shorter; lines before the index stay, later ones move up by one |
| `Storage.Load` | script.js:76 | an absent slot reads as the empty cart; a present one as its contents |
| `Storage.CartCount` | script.js:129-133 | the badge count is 0 for an absent slot, as left by a placed order, and, for a valid cart, at least its number of lines |
| `Storage.Store.Save` | cart.js:72 | the slot afterwards holds exactly the saved cart |
| `Storage.Store.Clear` | checkout.js:45 | the slot is absent afterwards |
| `Storage.Store.constructor` | script.js:76 | the browser starts with no "cart" entry |
| `Currency.Rate` | script.js:137 | the multiplier is never 0: a missing code and a zero (falsy) rate both give 1, any other stored rate is used as is |
| `Currency.Symbol` | script.js:141 | never empty: a missing code gives "$", a mapped code its own symbol |
| `Currency.SymbolTablesDiffer` | cart.js:11-17 | "INR" has a symbol only on the cart page and "AFG" only on the catalog page; elsewhere they show "$" |
| `Catalog.InCategory` | script.js:100 | the filtered list is no longer than the input and holds only products of the category |
| `Catalog.InCategoryMembers` | script.js:100 | a product is in the filtered list iff it is in the input and has the category |
| `Catalog.InCategoryConcat` | script.js:100 | filtering distributes over concatenation, so the input's order is kept |
| `Catalog.InCategoryKeepsAll` | script.js:100 | a list whose products all have the category is returned unchanged |
| `Catalog.FilterByCategory` | script.js:97-101 | an empty selection returns the product list unchanged; otherwise exactly the products of that category |
| `Catalog.Distinct` | script.js:40 | `[...new Set(s)]`: the same values as the input, each exactly once |
| `Catalog.FirstIndexPrefix` | script.js:40 | the first occurrence within a prefix is the first occurrence overall |
| `Catalog.DistinctFirstOccurrenceOrder` | script.js:40 | the values are listed in the order of their first occurrence |
| `Catalog.UniqueCategoriesSpec` | script.js:39-40 | the drop-down's categories are pairwise distinct, each belongs to some product, every product's category is there, in first-occurrence order |
| `Catalog.UniqueCategories` | script.js:40 | definition: `[...new Set(products.map(p => p.category))]`; properties in `UniqueCategoriesSpec` |
| `Catalog.Label` | script.js:44 | the label has the category's length, an upper-cased first character and the rest unchanged |
| `Catalog.AddProduct` | script.js:77-83 | definition of the cart after the add-to-cart handler; properties in `AddExistingIncrements`, `AddAbsentAppends`, `AddPreservesValid`, `AddIncrementsCount` |
| `Catalog.AddExistingIncrements` | script.js:77-80 | adding a product already in the cart raises that line's quantity by 1 and keeps its product snapshot; the length and all other lines stay |
| `Catalog.AddAbsentAppends` | script.js:81-83 | adding a product not in the cart appends one line with quantity 1; the existing lines stay |
| `Catalog.AddPreservesValid` | script.js:76-83 | add-to-cart keeps every quantity at least 1 and the ids unique |
| `Catalog.AddIncrementsCount` | script.js:76-85 | after an add the badge count is exactly one more than before |
| `Catalog.AddToCart` | script.js:76-85 | the handler stores the cart with the product added, the count grows by 1, and a valid cart stays valid |
| `Catalog.AddTwiceScenario` | script.js:76-83 | a 9.99 product added twice to an absent cart gives one line of quantity 2, count 2 and total 1998 cents |
| `Catalog.CatalogPage.constructor` | script.js:8-10 | the page starts with no products, no rates and "USD" |
| `Catalog.CatalogPage.ProductsLoaded` | script.js:25-26 | the product list is kept; the drop-down options pair each unique category with its label |
| `Catalog.CatalogPage.RatesLoaded` | script.js:157 | the rate table is replaced; nothing else changes |
| `Catalog.CatalogPage.CurrencyChanged` | script.js:164-167 | the selected currency is replaced and nothing else changes; the whole product list is rendered, dropping any category filter, with the new code's rate and catalog symbol |
| `Catalog.CatalogPage.CategoryChanged` | script.js:97-104 | the products rendered are the filter of the held product list by the selection, priced with the current rate and catalog symbol |
| `CartPage.Decrease` | cart.js:67-70 | definition of the "−" button on the cart; properties in `DecreaseDecrements`, `DecreaseRemovesLast`, `ControlsPreserveValid`, `ControlsChangeCount` |
| `CartPage.Increase` | cart.js:78 | definition of the "+" button on the cart; properties in `IncreaseIncrements`, `ControlsPreserveValid`, `ControlsChangeCount` |
| `CartPage.Remove` | cart.js:85 | definition of the "Remove" button on the cart; properties in `RemoveDeletes`, `ControlsPreserveValid`, `ControlsChangeCount` |
| `CartPage.DecreaseDecrements` | cart.js:67-68 | decrease on a line with quantity above 1 lowers it by 1; the length and all other lines stay |
| `CartPage.DecreaseRemovesLast` | cart.js:69-70 | decrease on a line with quantity 1 removes it; the other lines keep their order |
| `CartPage.IncreaseIncrements` | cart.js:77-78 | increase adds 1 to the quantity at the index and changes nothing else |
| `CartPage.RemoveDeletes` | cart.js:84-85 | remove deletes the line whatever its quantity: the length drops by 1, the others keep their order |
| `CartPage.RemoveAtPreservesValid` | cart.js:85 | deleting a line keeps both cart invariants |
| `CartPage.ControlsPreserveValid` | cart.js:66-88 | decrease, increase and remove keep every quantity at least 1 and the ids unique |
| `CartPage.ControlsChangeCount` | cart.js:66-88 | decrease lowers the count by 1, increase raises it by 1, remove lowers it by the line's quantity |
| `CartPage.DecreaseClicked` | cart.js:66-74 | the stored cart becomes the decreased cart, and a valid cart stays valid |
| `CartPage.IncreaseClicked` | cart.js:77-81 | the stored cart becomes the increased cart, and a valid cart stays valid |
| `CartPage.RemoveClicked` | cart.js:84-88 | the stored cart becomes the cart without that line, and a valid cart stays valid |
| `CartPage.AccumulateTotal` | cart.js:35-38 | the loop's `totalUSD` is the sum of price times quantity over the lines, and 0 for an empty cart |
| `CartPage.DecreaseLastLineScenario` | cart.js:69-70 | decreasing the only line, of quantity 1, leaves the empty cart with total 0 |
| `CartPage.CartView.constructor` | cart.js:7-8 | the page starts with no rates and "USD" |
| `CartPage.CartView.RatesLoaded` | cart.js:111 | the rate table is replaced; the currency stays |
| `CartPage.CartView.CurrencyChanged` | cart.js:26 | the currency is replaced; the rate table stays |
| `CartPage.CartView.RenderTotal` | cart.js:94-97 | the total line uses the stored cart's USD total (0 for an absent slot), the rate with its fallback and the cart page's symbol with its fallback |
| `Text.TrimStart` | checkout.js:13-15 | definition: leading JavaScript white space removed; properties in `TrimStartSuffix` |
| `Text.TrimEnd` | checkout.js:13-15 | definition: trailing JavaScript white space removed; properties in `TrimEndPrefix` |
| `Text.Trim` | checkout.js:13-15 | definition of `trim()`; properties in `TrimIsCore`, `TrimIgnoresPadding`, `TrimIdempotent` |
| `Text.TrimStartSuffix` | checkout.js:13-15 | trimming the start leaves a suffix that is empty or starts with a non-space, and drops only white space |
| `Text.TrimEndPrefix` | checkout.js:13-15 | trimming the end leaves a prefix that is empty or ends with a non-space, and drops only white space |
| `Text.TrimIsCore` | checkout.js:13-15 | the trimmed value is the slice between leading and trailing white space, and it neither starts nor ends with white space |
| `Text.TrimIgnoresPadding` | checkout.js:13-15 | white space added before or after a value does not change what it trims to |
| `Text.TrimIdempotent` | checkout.js:13-15 | trimming twice is trimming once |
| `Text.Utf16Length` | checkout.js:23 | JavaScript `length`: at least the number of code points and at most twice it |
| `Text.Utf16LengthConcat` | checkout.js:36 | the length of a concatenation is the sum of the lengths |
| `Text.Utf16LengthBasicPlane` | checkout.js:23 | the length equals the number of code points iff no character is above U+FFFF |
| `Checkout.MatchesEmailPattern` | checkout.js:29 | definition of `emailRegex.test`: plain run, `@`, plain run, `.`, plain run, anchored; properties in `EmailPatternIff` |
| `Checkout.PatternIsWellFormed` | checkout.js:29 | a string the regular expression accepts is well formed |
| `Checkout.WellFormedIsPattern` | checkout.js:29 | a well-formed string is accepted by the regular expression |
| `Checkout.EmailPatternIff` | checkout.js:29 | the pattern holds iff there is exactly one `@`, no white space, a non-empty part before the `@`, and a domain with a `.` that is neither its first nor its last character |
| `Checkout.Failing` | checkout.js:22-39 | definition: the errors of the checks that did not pass, in the order name, e-mail, address; properties in `ValidateSpec` |
| `Checkout.Validate` | checkout.js:13-39 | definition of the three checks on the trimmed values; properties in `ValidateSpec`, `ValidateIgnoresPadding`, the scenarios |
| `Checkout.Message` | checkout.js:24 | definition: the inline text for each error (lines 24, 31, 37); properties in `MessagesDistinct` |
| `Checkout.MessagesDistinct` | checkout.js:22-39 | the three error texts are pairwise different, so each identifies its field |
| `Checkout.RunChecks` | checkout.js:17-42 | all three checks run; each failure appends its error in the order name, e-mail, address; the lengths are UTF-16 `length`s; the flag stays true iff none failed |
| `Checkout.ValidateSpec` | checkout.js:22-39 | the errors are exactly the failing fields, in check order; none iff the trimmed name's UTF-16 length is at least 2, the trimmed e-mail is well formed and the trimmed address's UTF-16 length is at least 5 |
| `Checkout.ValidateIgnoresPadding` | checkout.js:13-15 | white space around any field does not change the validation outcome |
| `Checkout.JoBadScenario` | checkout.js:22-39 | "Jo", "bad", "123" fail on the e-mail and the address only |
| `Checkout.AstralLengthScenario` | checkout.js:23-39 | a one-character name above U+FFFF and a three-emoji address are long enough: with "a@b.co" the submission has no errors |
| `Checkout.Confirmation` | checkout.js:49 | the confirmation text holds the name verbatim, after "Thank you, " |
| `Checkout.CheckoutForm.constructor` | checkout.js:8-10 | the three inputs start empty, with no errors shown and no banner |
| `Checkout.CheckoutForm.ErrorTexts` | checkout.js:57-61 | one error paragraph per error, in order, each with that error's text |
| `Checkout.CheckoutForm.Submit` | checkout.js:13-53 | old errors are replaced by the current inputs' errors; on failure the cart, the inputs and the banner stay; on success the slot is absent (so a later `Load` gives the empty cart and `CartCount` 0), the banner thanks the trimmed name and the fields are empty |

## Left out

- Rendering of the page: cards, rows, the detail modal, option elements,
  where the error paragraphs are inserted and showing the banner. It is
  presentation with no logic. The form's errors, their texts and the banner
  are kept as values on `CheckoutForm`.
- The product and exchange-rate fetches and their promise chains. A
  resolved fetch reaches the model as the argument of `ProductsLoaded` or
  `RatesLoaded`. A failed rate fetch keeps the previous table, initially
  empty.
- `localStorage`, `JSON.parse` and `JSON.stringify`. The store is an
  optional sequence of lines. A slot that does not parse is not modelled.
- The floating-point multiply and `toFixed(2)` when converting prices. Only
  the rate and symbol lookups are modelled, and totals are exact integers of
  cents.
- Currency.Rate: models a rate that is a number, so the falsy rates are 0
  only. NaN does not exist in the model.
- Catalog.Label: upper-cases only ASCII `a`–`z`. JavaScript's
  `toUpperCase` uses full Unicode case mapping, which can change length
  (for example "ß" becomes "SS").
- The detail modal's price symbol (script.js:114) has no "$" fallback. It
  prints `undefined` for an unmapped code. It is rendering and is not
  modelled.
- The `index` captured by each cart row is assumed to be that row's position
  in a freshly loaded cart. The cart-page operations therefore require an
  in-range index. A stale index across renders is not modelled.
- `alert`, `console.error`, `preventDefault` and the event-listener wiring.
