# KhmerShopcart cart ledger and route table, in Dafny

This project models two parts of the KhmerShopcart Android front end.

The first is the **cart ledger** of the cart screen, in `cart.dfy` (module `CartScreen`):

- `CartItem` is a line item with id, title, price, quantity and image URL.
- The screen keeps the items in a `cartItems` state cell. Here that cell is class `CartLedger`. It starts with two demo entries.
- The row handlers reassign the cell. A positive quantity is written onto the entries with the row's id (`map`). A quantity of zero or less drops them (`filter`). Remove also drops them (`filter`).
- The increase and decrease buttons pass `quantity + 1` and `quantity - 1`.
- The summary shows the subtotal Σ price·quantity, a 10% tax, shipping of 0, and total = subtotal + tax.

The second is the **route table** of the navigation graph, in `navigation.dfy` (module `Navigation`):

- Each destination has a fixed route string.
- The product-detail route is built as `"product_detail/" + productId`. It fills the template `"product_detail/{productId}"`.
- A missing `productId` argument falls back to `""`.
- The graph starts at the welcome route.

The list updates and totals are pure functions: `WithQuantity`, `Without`, `SetQuantity`, `Subtotal`, `ComputeTotals`. The lemmas are stated about those functions. The class methods update the `items` field, and their `ensures` tie the new state to those functions. `CartLedger.Valid()` holds three invariants, and every method keeps them: each quantity is at least 1, ids are unique, and prices are non-negative. The last one gives `CartLedger.Totals` its bound 0 ≤ subtotal ≤ total on every state the ledger can reach.

Kotlin `Int` is modelled as the subset type `Int32`. The button arguments wrap explicitly, as an `Int` addition does. Prices are exact `real`s.

Two details of the code:

- The code does not enforce one entry per id: `map` and `filter` act on every entry with the id. The model does the same, and proves that uniqueness is preserved from the seed.
- Total is subtotal + tax. Shipping is the constant 0.0 shown beside it (`ComputeTotals`).

## Model

| member | source | states |
|---|---|---|
| CartScreen.Seed | app/src/main/java/com/peanech/khmershopcart/ui/screens/CartScreen.kt:66-72 | the seed has two entries with positive quantities, unique ids and non-negative prices; its subtotal is 299.99 + 2·199.99 = 699.97 |
| CartScreen.Wrap | app/src/main/java/com/peanech/khmershopcart/ui/screens/CartScreen.kt:231-235 | Kotlin `Int` arithmetic: an in-range value is kept, and the result is always congruent to the exact value modulo 2^32 |
| CartScreen.IncrementArg | app/src/main/java/com/peanech/khmershopcart/ui/screens/CartScreen.kt:235 | `quantity + 1` is one more below `Int.MAX_VALUE` and wraps to `Int.MIN_VALUE` at it |
| CartScreen.DecrementArg | app/src/main/java/com/peanech/khmershopcart/ui/screens/CartScreen.kt:231 | `quantity - 1` is one less above `Int.MIN_VALUE` and wraps to `Int.MAX_VALUE` at it |
| CartScreen.WithQuantity | app/src/main/java/com/peanech/khmershopcart/ui/screens/CartScreen.kt:160-163 | same length and order; exactly the entries with the id get the new quantity (all other fields kept); every other entry is unchanged |
| CartScreen.Without | app/src/main/java/com/peanech/khmershopcart/ui/screens/CartScreen.kt:165 | no entry of the result has the id, and the result is no longer than the input |
| CartScreen.SetQuantity | app/src/main/java/com/peanech/khmershopcart/ui/screens/CartScreen.kt:159-167 | the quantity-change handler: it never lengthens the cart; a positive quantity keeps length and ids in order and puts the new quantity on exactly the entries with the id; zero or less leaves no entry with the id (further properties: AbsentIsNoOp, SetQuantityKeepsPositive, SetQuantityKeepsUnique, SetQuantityKeepsPrices) |
| CartScreen.Increment | app/src/main/java/com/peanech/khmershopcart/ui/screens/CartScreen.kt:235 | for a quantity from 0 below `Int.MAX_VALUE`, every entry with the row's id gets quantity + 1 and every other entry is unchanged; at `Int.MAX_VALUE` the wrapped argument removes the entries with the id (per row: IncrementAt) |
| CartScreen.Decrement | app/src/main/java/com/peanech/khmershopcart/ui/screens/CartScreen.kt:231 | a quantity of 1 (or less, above `Int.MIN_VALUE`) removes the entries with the row's id; above 1 every entry with the id gets quantity − 1 and every other entry is unchanged (per row: DecrementAt) |
| CartScreen.WithoutMembers | app/src/main/java/com/peanech/khmershopcart/ui/screens/CartScreen.kt:165 | an entry is in the result if and only if it is in the input and does not carry the id |
| CartScreen.WithoutMultiplicity | app/src/main/java/com/peanech/khmershopcart/ui/screens/CartScreen.kt:165 | every entry without the id keeps its number of occurrences; entries with the id occur zero times |
| CartScreen.WithoutAppend | app/src/main/java/com/peanech/khmershopcart/ui/screens/CartScreen.kt:165 | filtering distributes over concatenation, so the kept entries keep their relative order |
| CartScreen.WithoutAbsent | app/src/main/java/com/peanech/khmershopcart/ui/screens/CartScreen.kt:169 | filtering out an id no entry carries returns the input unchanged |
| CartScreen.WithoutIdempotent | app/src/main/java/com/peanech/khmershopcart/ui/screens/CartScreen.kt:168-170 | removing an id twice gives the same list as removing it once |
| CartScreen.AbsentIsNoOp | app/src/main/java/com/peanech/khmershopcart/ui/screens/CartScreen.kt:159-170 | for an absent id, the quantity change (any quantity) and the removal both return the input unchanged |
| CartScreen.WithQuantityAppend | app/src/main/java/com/peanech/khmershopcart/ui/screens/CartScreen.kt:161-163 | writing a quantity distributes over concatenation |
| CartScreen.SetQuantityKeepsPositive | app/src/main/java/com/peanech/khmershopcart/ui/screens/CartScreen.kt:159-170 | if every quantity is at least 1, it still is after a quantity change or a removal |
| CartScreen.SetQuantityKeepsUnique | app/src/main/java/com/peanech/khmershopcart/ui/screens/CartScreen.kt:159-170 | unique ids stay unique after a quantity change or a removal |
| CartScreen.SetQuantityKeepsPrices | app/src/main/java/com/peanech/khmershopcart/ui/screens/CartScreen.kt:159-170 | neither handler changes a price, so non-negative prices stay non-negative |
| CartScreen.WithoutKeepsUnique | app/src/main/java/com/peanech/khmershopcart/ui/screens/CartScreen.kt:165 | the filter keeps ids unique |
| CartScreen.RemoveAt | app/src/main/java/com/peanech/khmershopcart/ui/screens/CartScreen.kt:168-170 | with unique ids, removing the id of entry k drops exactly entry k and keeps the rest in order |
| CartScreen.IncrementAt | app/src/main/java/com/peanech/khmershopcart/ui/screens/CartScreen.kt:235 | with unique ids, the increase button on row k adds exactly 1 to that row and changes nothing else; at `Int.MAX_VALUE` the wrapped argument removes the row |
| CartScreen.DecrementAt | app/src/main/java/com/peanech/khmershopcart/ui/screens/CartScreen.kt:231 | the decrease button on a row of quantity 1 removes exactly that row; above 1 it subtracts exactly 1 from that row only |
| CartScreen.ReplayKeepsInvariant | app/src/main/java/com/peanech/khmershopcart/ui/screens/CartScreen.kt:159-170 | starting from positive quantities, unique ids and non-negative prices, as the seed has, all three still hold after any sequence of quantity changes and removals |
| CartScreen.ReplayAddsNothing | app/src/main/java/com/peanech/khmershopcart/ui/screens/CartScreen.kt:159-170 | after any sequence of events, every entry is an input entry, changed at most in its quantity |
| CartScreen.ComputeTotals | app/src/main/java/com/peanech/khmershopcart/ui/screens/CartScreen.kt:75-77 | tax is subtotal/10, shipping is 0, total = subtotal + tax + shipping = 11/10 · subtotal |
| CartScreen.Subtotal | app/src/main/java/com/peanech/khmershopcart/ui/screens/CartScreen.kt:75 | `sumOf` of price·quantity; its properties are stated by SubtotalAppend, SubtotalNonNegative, SubtotalAfterRemove and SubtotalAfterWithQuantity |
| CartScreen.SubtotalAppend | app/src/main/java/com/peanech/khmershopcart/ui/screens/CartScreen.kt:75 | the subtotal of a concatenation is the sum of the subtotals |
| CartScreen.SubtotalNonNegative | app/src/main/java/com/peanech/khmershopcart/ui/screens/CartScreen.kt:75 | with non-negative prices and positive quantities the subtotal is at least 0 |
| CartScreen.EmptyCartTotals | app/src/main/java/com/peanech/khmershopcart/ui/screens/CartScreen.kt:75-77 | the empty cart totals to 0, 0, 0, 0 |
| CartScreen.TotalsBounds | app/src/main/java/com/peanech/khmershopcart/ui/screens/CartScreen.kt:75-77 | with non-negative prices and quantities at least 1, 0 ≤ subtotal ≤ total |
| CartScreen.SeedTotals | app/src/main/java/com/peanech/khmershopcart/ui/screens/CartScreen.kt:66-77 | the seeded cart's summary is 699.97, 69.997, 0 and 769.967 |
| CartScreen.SubtotalAfterRemove | app/src/main/java/com/peanech/khmershopcart/ui/screens/CartScreen.kt:75 | with unique ids, removing entry k lowers the subtotal by exactly price·quantity of entry k |
| CartScreen.SubtotalAfterWithQuantity | app/src/main/java/com/peanech/khmershopcart/ui/screens/CartScreen.kt:75 | with unique ids, writing quantity q onto entry k changes the subtotal by price·(q − old quantity) |
| CartScreen.CartLedger.constructor | app/src/main/java/com/peanech/khmershopcart/ui/screens/CartScreen.kt:66-72 | the state cell starts with the seed and satisfies the ledger invariant (quantities ≥ 1, unique ids, non-negative prices) |
| CartScreen.CartLedger.UpdateQuantity | app/src/main/java/com/peanech/khmershopcart/ui/screens/CartScreen.kt:159-167 | the new items are the quantity change of the old ones; the invariant is kept |
| CartScreen.CartLedger.Remove | app/src/main/java/com/peanech/khmershopcart/ui/screens/CartScreen.kt:168-170 | the new items are the old ones with the id filtered out, so none carries it; the invariant is kept |
| CartScreen.CartLedger.Increase | app/src/main/java/com/peanech/khmershopcart/ui/screens/CartScreen.kt:235 | the new items are the quantity change with the row's `quantity + 1`; the invariant is kept |
| CartScreen.CartLedger.Decrease | app/src/main/java/com/peanech/khmershopcart/ui/screens/CartScreen.kt:231 | the new items are the quantity change with the row's `quantity - 1`; the invariant is kept |
| CartScreen.CartLedger.Totals | app/src/main/java/com/peanech/khmershopcart/ui/screens/CartScreen.kt:75-77 | callable on every state; subtotal is the sum over the current items, tax is subtotal/10, total = subtotal + tax, and on a valid ledger 0 ≤ subtotal ≤ total |
| Navigation.CreateRoute | app/src/main/java/com/peanech/khmershopcart/ui/navigation/Navigation.kt:23 | the route is the product-detail prefix followed by the id: its length is the sum of both, its first characters are the prefix, and the rest is the id |
| Navigation.Route | app/src/main/java/com/peanech/khmershopcart/ui/navigation/Navigation.kt:17-27 | the product-detail route is the template, `createRoute("{productId}")`; every other route is non-empty and shorter than the product-detail prefix (pairwise distinctness: RoutesDistinct) |
| Navigation.ParseCreateRoute | app/src/main/java/com/peanech/khmershopcart/ui/navigation/Navigation.kt:22-23 | stripping the prefix from `createRoute(id)` gives back `id` |
| Navigation.CreateRouteOfParse | app/src/main/java/com/peanech/khmershopcart/ui/navigation/Navigation.kt:22-23 | every route that parses to an id is `createRoute` of that id (the other direction of the round trip) |
| Navigation.CreateRouteInjective | app/src/main/java/com/peanech/khmershopcart/ui/navigation/Navigation.kt:23 | distinct product ids give distinct routes |
| Navigation.TemplateSharesPrefix | app/src/main/java/com/peanech/khmershopcart/ui/navigation/Navigation.kt:22-23 | the route template uses the same prefix, so it is `createRoute("{productId}")` |
| Navigation.RoutesDistinct | app/src/main/java/com/peanech/khmershopcart/ui/navigation/Navigation.kt:17-27 | the seven destination routes are pairwise distinct |
| Navigation.FixedRoutesAreNotProductRoutes | app/src/main/java/com/peanech/khmershopcart/ui/navigation/Navigation.kt:18-26 | none of the six fixed routes starts with the prefix, so none equals any `createRoute` output |
| Navigation.ResolveProductId | app/src/main/java/com/peanech/khmershopcart/ui/navigation/Navigation.kt:86 | a missing argument resolves to "" and a present one is passed through unchanged |
| Navigation.ProductIdDelivered | app/src/main/java/com/peanech/khmershopcart/ui/navigation/Navigation.kt:74-86 | the id given to `createRoute` is the id the product-detail screen receives; a route without the prefix delivers "" |
| Navigation.StartDestination | app/src/main/java/com/peanech/khmershopcart/ui/navigation/Navigation.kt:33 | the start destination is the welcome route, which belongs to the Welcome screen alone and is not a product route |

## Left out

- The `Double` arithmetic of prices, subtotal and tax. Amounts are exact reals, and the rate `0.1` is taken as exactly 1/10. Binary rounding is not modelled.
- The `"%.2f"` display rounding of the amounts (CartScreen.kt:107, 121, 189, 252). It is presentation only.
- All Compose layout and rendering: the scaffold, the lazy column, cards, the empty-cart placeholder and image loading. These are UI glue over a toolkit that is not shown.
- `navigate`, `popUpTo { inclusive = true }` and `popBackStack`. Their back-stack meaning lives in the androidx navigation library, which is not part of this model.
- How androidx matches a concrete route against the template and fills the argument bundle, which is not part of this model. `ParseProductRoute` stands in for it by stripping the prefix. It does not capture the library's segment rules, for example for an id containing `/`.
- Product ids come from HomeScreen's placeholder data, and the add-to-cart action is a no-op. HomeScreen's tab selection, ProductDetailScreen's colour chips, Color.kt, and the checkout, sign-in, sign-up and welcome screens are not part of this model. They hold no cart or routing logic.
- CartScreen.SubtotalAfterRemove, CartScreen.SubtotalAfterWithQuantity, CartScreen.RemoveAt: stated for carts with unique ids, which the seed has and every update keeps. With duplicate ids, every entry with that id is affected, as `WithQuantity` and `Without` state.
