# Clothing store cart and storefront — a Dafny model

This project models the client-side core of a React clothing store. At its
centre is the shopping-cart store (`CartProvider`). It holds an ordered list
of cart lines, each a product, a quantity and an optional size. A line is
identified by the pair (product id, size). The store offers four operations
(`addToCart`, `removeFromCart`, `updateQuantity`, `clearCart`). It reads the
cart from browser storage once on mount and writes the whole cart back after
every change, but only once that first read is done.

Around the store are the screens that read it or call it:

- the cart drawer: total, "−"/"+" stepper, Remove;
- the checkout page: total, order payload, submission;
- the header: item-count badge, user-icon routing;
- the catalog page: the filter/sort pipeline, 12-per-page pagination, image
  cycling, and the size-guarded "Add to Cart".

Three more components carry logic of their own:

- the footer's typewriter state machine;
- the admin dashboard's chart data: a running revenue total and the status
  slices;
- the registration form's validation and payload.

Modules follow the source files:

- `CartContext`: pure operations, storage, and the `CartProvider` class.
- `CartTotals`: the `reduce` totals shared by three screens.
- `CartDrawer`, `Checkout`, `Header`, `Products`, `Footer`, `AdminDashboard`,
  `Register`: one per screen.
- `ProductTypes`: the product record.
- `Sequences`: JavaScript's `filter`, `sort` and `reverse`, with their laws.
- `Wrappers`: `Option` and `Result`.

Operations that change state in place are class methods. Each is proved
against a pure function of the old state, and the lemmas are stated on those
functions.

Behaviour of the store worth knowing:

- `updateQuantity` applies no clamp. It stores whatever quantity it is
  given, 0 and negatives included.
- `addToCart` does not normalise the quantity either.
- A malformed stored cart makes the load effect throw. Nothing falls back
  to an empty cart.
- The drawer and checkout buttons pass no size. On lines that carry a size
  (every line the catalog adds) they change nothing. See "## Findings".

Numbers are unbounded integers. Prices and quantities are whole numbers.
Strings are sequences of characters.

## Model

| member | source | states |
|---|---|---|
| Sequences.Filter | src/context/cartContext.tsx:62-64 | `filter` is never longer than its input, and keeps its whole length exactly when every element passes |
| Sequences.FilterIsSubsequence | src/context/cartContext.tsx:62-64 | `filter` keeps its elements in their original order |
| Sequences.FilterCounts | src/context/cartContext.tsx:62-64 | `filter` keeps exactly the elements passing the test, each as often as in the input, and drops every other |
| Sequences.SortByKey | src/pages/Products.tsx:90-93 | `sort` with a key-difference comparator gives a permutation of the input, of the same length, in non-decreasing key order |
| Sequences.Reversed | src/pages/AdminDashboard.tsx:64-65 | `reverse` gives the same length, with element `i` the input's element `n-1-i` |
| CartContext.AddItem | src/context/cartContext.tsx:40-58 | a present (id, size) pair has its quantity raised by the amount while every other line keeps its place; an absent pair is appended as a new line; afterwards the pair is present |
| CartContext.RemoveItems | src/context/cartContext.tsx:60-66 | no line of the pair is left; removing an absent pair changes nothing |
| CartContext.RemoveKeepsOthers | src/context/cartContext.tsx:60-66 | removal keeps the other lines in their order, each with its multiplicity, and drops every line of the pair |
| CartContext.UpdateItems | src/context/cartContext.tsx:68-76 | same length; matching lines take exactly the given quantity (no clamp) and keep product and size; other lines are unchanged; an absent pair is a no-op |
| CartContext.AddKeepsKeysUnique | src/context/cartContext.tsx:40-58 | adding never creates a second line for an identity |
| CartContext.CallKeepsKeysUnique | src/context/cartContext.tsx:60-76 | removing and updating keep identities unique |
| CartContext.AddTwiceMerges | src/context/cartContext.tsx:42-53 | adding q1 then q2 of the same product and size equals adding q1+q2 at once |
| CartContext.TwoAddsOneLine | src/context/cartContext.tsx:42-56 | two adds of a new pair leave one appended line whose quantity is the sum |
| CartContext.AddLeavesOtherSizes | src/context/cartContext.tsx:42-52 | adding under one size leaves the same product's lines under other sizes untouched |
| CartContext.RemoveUndoesFreshAdd | src/context/cartContext.tsx:56-66 | removing a pair that was just appended restores the previous cart |
| CartContext.MergeChangesOneLine | src/context/cartContext.tsx:48-53 | with unique identities, a merge changes exactly the matching line's quantity |
| CartContext.UpdateChangesOneLine | src/context/cartContext.tsx:68-76 | with unique identities, an update changes exactly the matching line's quantity |
| CartContext.RemoveDropsOneLine | src/context/cartContext.tsx:60-66 | with unique identities, remove deletes exactly the matching line, keeping the others in order |
| CartContext.UpdateOverrides | src/context/cartContext.tsx:68-76 | two updates of one pair equal the last one alone |
| CartContext.UnsizedCallSkipsSizedLine | src/context/cartContext.tsx:60-76 | an update or remove without a size never changes or drops a sized line |
| CartContext.UnsizedCallIsNoOp | src/context/cartContext.tsx:60-76 | on a cart whose every line has a size, any call without a size leaves the cart unchanged |
| CartContext.SizedAddKeepsAllSized | src/context/cartContext.tsx:40-58 | adding with a size keeps every line sized |
| CartContext.ReadCart | src/context/cartContext.tsx:25-29 | a missing key or empty text reads as nothing stored, the JSON of a cart reads as those lines, malformed text throws |
| CartContext.SaveThenLoad | src/context/cartContext.tsx:25-37 | what the save effect writes, the load effect reads back unchanged, whatever else storage holds |
| CartContext.CartProvider.constructor | src/context/cartContext.tsx:20-22 | the provider starts with an empty cart and `hasLoaded` false |
| CartContext.CartProvider.LoadEffect | src/context/cartContext.tsx:25-31 | a stored cart replaces the cart and nothing stored keeps it, both ending loaded; malformed text throws before `hasLoaded` is set |
| CartContext.CartProvider.SaveEffect | src/context/cartContext.tsx:34-37 | once loaded, storage holds exactly the cart under "cart"; before that, storage is untouched |
| CartContext.CartProvider.Mount | src/context/cartContext.tsx:24-37 | mounting hydrates from storage, then writes the cart back under "cart" and leaves every other key as it was; a throw changes nothing |
| CartContext.CartProvider.AddToCart | src/context/cartContext.tsx:40-58 | the cart becomes `AddItem` of the old cart, and storage follows it exactly when loaded |
| CartContext.CartProvider.RemoveFromCart | src/context/cartContext.tsx:60-66 | the cart becomes `RemoveItems` of the old cart, and storage follows it when loaded |
| CartContext.CartProvider.UpdateQuantity | src/context/cartContext.tsx:68-76 | the cart becomes `UpdateItems` of the old cart, and storage follows it when loaded |
| CartContext.CartProvider.ClearCart | src/context/cartContext.tsx:78 | the cart becomes empty, and storage holds the empty cart when loaded |
| CartContext.CartProvider.Perform | src/context/cartContext.tsx:60-76 | a screen's call applies the matching store operation; once loaded, storage changes only under "cart", to the new cart; before loading, storage is untouched |
| CartContext.Reload | src/context/cartContext.tsx:24-37 | a new provider mounted over the storage a loaded provider saved into comes up loaded with the same cart, and storage is left exactly as it was |
| CartTotals.TotalPrice | src/components/Cart.tsx:14-17 | the price total of an empty cart is 0, and it is never negative while no line price is (the checkout's total at src/pages/Checkout.tsx:28-31 is the same `reduce`) |
| CartTotals.TotalItems | src/components/Header.tsx:20-23 | the item count of an empty cart is 0, and it is never negative while no quantity is |
| CartTotals.EmptyTotals | src/components/Cart.tsx:14-17 | an empty cart totals 0 price and 0 items |
| CartTotals.TotalsAfterFreshAdd | src/components/Cart.tsx:14-17 | adding a new pair raises the item count by the quantity and the total by price times quantity |
| CartTotals.TotalsAfterMerge | src/components/Cart.tsx:14-17 | merging into an existing line raises the count by the quantity and the total by that line's price times the quantity |
| CartTotals.TotalsAfterUpdate | src/pages/Checkout.tsx:28-31 | setting a line's quantity changes the count and total by exactly that line's difference |
| CartTotals.TotalsAfterRemove | src/pages/Checkout.tsx:28-31 | removing a line takes off exactly its quantity and line price |
| CartTotals.ItemsCoverLines | src/components/Header.tsx:20-23 | with quantities of at least 1, the item count is at least the number of lines, and positive exactly when the cart is non-empty |
| CartDrawer.DecrementRequest | src/components/Cart.tsx:66-70 | `Math.max(1, q-1)` is at least 1, never above q when q is at least 1, and is q-1 except at the floor |
| CartDrawer.MinusCall | src/components/Cart.tsx:64-73 | "−" asks for an update of the line's product id, with no size, to a quantity of at least 1 |
| CartDrawer.PlusCall | src/components/Cart.tsx:76-85 | "+" asks for an update of the line's product id, with no size, to a larger quantity |
| CartDrawer.RemoveCall | src/components/Cart.tsx:90-93 | Remove asks to remove the line's product id with no size |
| CartDrawer.View | src/components/Cart.tsx:19-121 | a closed drawer renders nothing; an open one shows the "empty" notice exactly when the cart is empty, otherwise its lines, and a footer exactly when the cart is non-empty, holding the cart's total |
| CartDrawer.MinusOnUnsizedLine | src/components/Cart.tsx:64-73 | on an unsized line, "−" sets exactly that line to the decremented quantity, which stays at least 1 |
| CartDrawer.PlusOnUnsizedLine | src/components/Cart.tsx:76-85 | on an unsized line, "+" raises exactly that line by one |
| CartDrawer.ButtonsIgnoreSizedLine | src/components/Cart.tsx:64-93 | on a sized line, "−" and "+" leave the line unchanged and Remove keeps it in the cart |
| CartDrawer.SizedLineStepperCounterexample | src/components/Cart.tsx:64-93 | a one-line cart of 2 items in size "M": "−" should give 1 but leaves the cart unchanged, and so does Remove |
| CartDrawer.CorrectedStepperActsOnOwnLine | src/components/Cart.tsx:64-85 | when the line's size is passed along, "−" and "+" change exactly their own line's quantity, sized or not |
| CartDrawer.CorrectedRemoveDropsOwnLine | src/components/Cart.tsx:90-93 | when the line's size is passed along, Remove drops exactly its own line |
| Header.UserClickRoute | src/components/Header.tsx:14-18 | no user goes to "/login", an ADMIN to "/dashboard/admin", any other role to "/dashboard/user", each if and only if |
| Header.Badge | src/components/Header.tsx:63-65 | the badge is shown exactly when the item count is positive, and shows that count |
| Header.BadgeAgreesWithDrawer | src/components/Header.tsx:63-65 | with quantities of at least 1, the badge shows exactly when the drawer shows its Checkout footer, and counts at least one per line |
| Checkout.Payload | src/pages/Checkout.tsx:56-61 | one order item per line, in cart order, with the line's product id and quantity |
| Checkout.PayloadCountsItems | src/pages/Checkout.tsx:56-61 | the order asks for exactly the header's item count |
| Checkout.PayloadIgnoresSize | src/pages/Checkout.tsx:56-61 | carts that differ only in sizes give the same payload |
| Checkout.QuantityInputCall | src/pages/Checkout.tsx:120 | the quantity input asks for an update to the typed number, with no size and no floor |
| Checkout.QuantityInputEffect | src/pages/Checkout.tsx:120 | on an unsized line the typed number (0 and negatives too) becomes that line's quantity; a sized line is unchanged |
| Checkout.RemoveButtonEffect | src/pages/Checkout.tsx:126 | on an unsized line Remove drops exactly that line; a sized line stays |
| Checkout.ScreenFor | src/pages/Checkout.tsx:76-83 | the thank-you screen shows exactly after a submission, the empty notice exactly for an empty cart before one |
| Checkout.CheckoutPage.constructor | src/pages/Checkout.tsx:18-19 | the page starts neither submitted nor loading |
| Checkout.CheckoutPage.BeginSubmit | src/pages/Checkout.tsx:37-61 | an empty cart sends nothing; otherwise loading starts and the payload of the cart is sent |
| Checkout.CheckoutPage.FinishSubmit | src/pages/Checkout.tsx:63-73 | a created order clears the cart and shows the thank-you screen; storage then holds the empty cart under "cart" if the store had loaded, and is untouched otherwise; a failure changes neither cart nor storage; loading ends; `hasLoaded` never changes |
| Checkout.CheckoutPage.HandleSubmit | src/pages/Checkout.tsx:34-74 | the whole submission: payload of the old cart if non-empty; on success an empty cart, written under "cart" exactly when the store had loaded; on failure cart and storage unchanged; `hasLoaded` never changes |
| Products.Lower | src/pages/Products.tsx:74-75 | lower-casing keeps the length, leaves no upper-case letter, and changes characters only in case |
| Products.LowerIdempotent | src/pages/Products.tsx:74-75 | lower-casing twice is lower-casing once |
| Products.LowerIgnoresCase | src/pages/Products.tsx:74-75 | two strings lower to the same string exactly when they differ only in case |
| Products.SearchIgnoresCase | src/pages/Products.tsx:73-77 | the search matches alike for titles, and for search texts, that differ only in case |
| Products.IncludesIffOccurs | src/pages/Products.tsx:75 | `includes` holds exactly when the needle occurs at some position |
| Products.NarrowInOrder | src/pages/Products.tsx:73-88 | one guarded `filter` step keeps the products in their order |
| Products.NarrowCounts | src/pages/Products.tsx:73-88 | one guarded `filter` step keeps exactly the passing products while active, each as often as before, and everything otherwise |
| Products.KeptProducts | src/pages/Products.tsx:73-88 | the filter chain never lengthens the list, and keeps every product when no filter is active |
| Products.KeptInFetchedOrder | src/pages/Products.tsx:73-88 | the filter chain keeps the products in fetched order |
| Products.KeptProductsExactly | src/pages/Products.tsx:73-88 | the filter chain keeps exactly the products passing every active filter, each as often as fetched |
| Products.KeptMeansPasses | src/pages/Products.tsx:73-88 | a product is shown exactly when it was fetched and passes search, category, gender, minimum and maximum price |
| Products.Arrange | src/pages/Products.tsx:90-93 | sorting is a permutation of the same length, and "default" keeps the order |
| Products.PriceOrders | src/pages/Products.tsx:90-91 | "price_low" lists prices non-decreasing and "price_high" non-increasing |
| Products.DefaultKeepsFetchedOrder | src/pages/Products.tsx:73-93 | with the default sort, the list is a subsequence of the fetched products |
| Products.JsSlice | src/pages/Products.tsx:106 | `slice` gives at most the whole sequence, exactly `[start, end)` when both indices are in range, and nothing when the end does not come after the start |
| Products.SliceIndex | src/pages/Products.tsx:106 | `slice` clips its indices into the sequence |
| Products.CurrentItems | src/pages/Products.tsx:104-106 | page p shows products (p-1)*12 up to p*12, clipped, at most 12 |
| Products.TotalPages | src/pages/Products.tsx:107 | the page count is the least number of 12-product pages that hold all products |
| Products.PagesCoverProducts | src/pages/Products.tsx:104-107 | product i is on page i/12+1 at position i mod 12, and a page is non-empty exactly when it is at most the page count |
| Products.ShownIndex | src/pages/Products.tsx:44 | `prev[id] || 0` is 0 for an unseen id, and never negative while no recorded index is |
| Products.JsRem | src/pages/Products.tsx:45 | JavaScript's `%` takes the sign of the dividend, is smaller than the divisor in magnitude, and leaves a dividend smaller than the divisor unchanged |
| Products.NextImage | src/pages/Products.tsx:43-45 | the next index stays in range, goes up by one, and wraps to 0 after the last image |
| Products.Advanced | src/pages/Products.tsx:40-49 | a tick never loses an entry of the map |
| Products.AdvancedKeys | src/pages/Products.tsx:42-47 | a tick adds exactly the ids of cycling products |
| Products.AdvancedKeepsOthers | src/pages/Products.tsx:41-42 | the entry of an id that does not cycle is unchanged |
| Products.AdvancedValue | src/pages/Products.tsx:43-46 | a cycling id gets the next image of a product carrying it |
| Products.AdvancedNonNegative | src/pages/Products.tsx:44-45 | indices stay non-negative |
| Products.AdvancedEntries | src/pages/Products.tsx:40-49 | a tick adds exactly the cycling ids, leaves other entries alone, sets each cycling id to the next image of a product with that id, and keeps indices non-negative |
| Products.ProductsPage.constructor | src/pages/Products.tsx:7-33 | the first render's state: no products, loading, page 1, filters cleared, no modal |
| Products.ProductsPage.BeginLoad | src/pages/Products.tsx:67-70 | a run sets loading and captures the filters of the render that started it |
| Products.ProductsPage.FinishLoad | src/pages/Products.tsx:70-102 | when the response settles, the page shows the fetched products kept and arranged by the captured filters, from page 1, whatever the filters are by now; on failure list and page stay; loading ends false |
| Products.ProductsPage.LoadProducts | src/pages/Products.tsx:67-102 | a run whose response comes back before any other run: on success the page shows the kept and arranged products from page 1; on failure list and page stay; loading ends false |
| Products.ProductsPage.SetFilters | src/pages/Products.tsx:126-170 | a filter or sort control sets the page's filters |
| Products.ProductsPage.StaleResponseWins | src/pages/Products.tsx:55-102 | when a run started before a filter change settles last, the page shows that run's list, filtered with the old filters |
| Products.ProductsPage.CycleImages | src/pages/Products.tsx:39-49 | the image map becomes the one the `forEach` builds from the previous map |
| Products.ProductsPage.OpenProduct | src/pages/Products.tsx:59-65 | opening a product resets its image, quantity and size |
| Products.ProductsPage.AddSelectedToCart | src/pages/Products.tsx:341-348 | without a size nothing is added, storage is untouched and the modal stays; with one the product is added with that size, the new cart is written under "cart" if the store had loaded (storage untouched otherwise), and the modal closes; an all-sized cart stays all-sized |
| Footer.Substring | src/components/Footer.tsx:21 | `substring(0, n)` is a prefix of length n, clipped to the string |
| Footer.Step | src/components/Footer.tsx:15-35 | a tick keeps the role index in range |
| Footer.PauseOver | src/components/Footer.tsx:24 | the deferred callback switches to deleting and changes nothing else |
| Footer.StepKeepsValid | src/components/Footer.tsx:9-38 | ticks and the pause keep the text a prefix of the current role and the index in range |
| Footer.TypingAppends | src/components/Footer.tsx:18-21 | typing below full length appends the role's next character and schedules nothing |
| Footer.DeletingDropsLast | src/components/Footer.tsx:27-29 | deleting a non-empty text drops its last character |
| Footer.EmptyTextAdvancesRole | src/components/Footer.tsx:30-33 | deleting at empty text starts typing the next role, wrapping after the third |
| Footer.FullTextOnlySchedules | src/components/Footer.tsx:22-24 | at full text a typing tick changes nothing and only schedules the switch to deleting |
| Footer.Run | src/components/Footer.tsx:15-38 | any number of ticks keeps the role index in range |
| Footer.TypesOut | src/components/Footer.tsx:18-21 | from any typed prefix, the remaining ticks type exactly the whole role |
| Footer.DeletesOut | src/components/Footer.tsx:27-33 | from any prefix, one tick per character plus one bring the next role with empty text |
| Footer.FullCycle | src/components/Footer.tsx:15-38 | a full cycle from an empty text types the role, and after the pause deletes it and moves to the next role |
| Footer.TypewriterFooter.constructor | src/components/Footer.tsx:5-7 | the footer starts at role 0, empty text, typing |
| Footer.TypewriterFooter.OnTimeout | src/components/Footer.tsx:16-35 | the state becomes the tick's next state, reports the scheduled switch, and stays valid |
| Footer.TypewriterFooter.OnPauseOver | src/components/Footer.tsx:24 | the state switches to deleting and stays valid |
| AdminDashboard.StatusData | src/pages/AdminDashboard.tsx:55-60 | one slice per status entry, in key order, named by its status |
| AdminDashboard.SliceValueIsCount | src/pages/AdminDashboard.tsx:55-60 | each slice's value is that status's count, and no two slices share a name |
| AdminDashboard.SlicesRoundTrip | src/pages/AdminDashboard.tsx:55-60 | reading the slices back as pairs gives the status entries again |
| AdminDashboard.RevenueSeries | src/pages/AdminDashboard.tsx:62-72 | one point per recent order, in reversed order, each dated by its order |
| AdminDashboard.AmountSum | src/pages/AdminDashboard.tsx:62-67 | the running sum is 0 for no orders and the amount itself for one order |
| AdminDashboard.AmountSumReversed | src/pages/AdminDashboard.tsx:64-67 | reversing the orders leaves the sum of amounts unchanged |
| AdminDashboard.Points | src/pages/AdminDashboard.tsx:66-72 | one point per order in the given order, each dated by its order |
| AdminDashboard.PointsEndAtTotal | src/pages/AdminDashboard.tsx:66-72 | the last running total is the sum of every amount |
| AdminDashboard.LastIsTotal | src/pages/AdminDashboard.tsx:62-72 | the last point is the sum of all amounts |
| AdminDashboard.NonDecreasing | src/pages/AdminDashboard.tsx:62-72 | with non-negative amounts the revenue line never goes down |
| AdminDashboard.ReverseInPlace | src/pages/AdminDashboard.tsx:65 | `reverse` leaves the array holding the reversal of its old contents |
| AdminDashboard.Accumulate | src/pages/AdminDashboard.tsx:66-72 | the `map` with `runningTotal` produces exactly the points whose revenue is the sum of the amounts up to and including each order |
| AdminDashboard.RevenueData | src/pages/AdminDashboard.tsx:62-72 | copying, reversing the copy and accumulating the running total gives exactly the revenue series, and the orders passed in are not modified |
| Register.Validate | src/pages/Register.tsx:18-36 | an empty field rejects first, then differing passwords, each if and only if; otherwise a payload with role "USER" |
| Register.PayloadKeepsForm | src/pages/Register.tsx:30-36 | an accepted form is recovered from its payload |
| Register.PayloadShape | src/pages/Register.tsx:30-36 | every accepted payload has non-empty fields and role "USER" |
| Register.EmptyFieldWins | src/pages/Register.tsx:18-26 | any empty field is reported as missing even when the passwords also differ |
| Register.RegisterPage.constructor | src/pages/Register.tsx:8-13 | the form starts empty and not loading |
| Register.RegisterPage.HandleRegister | src/pages/Register.tsx:15-48 | a rejected form raises its alert and sends nothing; a valid one sends its payload, ends with loading false, and reaches "/login" only on success |

## Left out

- Browser storage is a map from keys to stored values. `JSON.stringify` and `JSON.parse` are an exact round trip on cart lines. Text that does not parse is one abstract "malformed" value.
- React machinery is not modelled. That covers state batching, effect scheduling, re-renders, context lookup and the `useCart` guard. Each effect is a method the caller invokes in the order React would run it.
- The network services (`getProducts`, `createOrder`, `register`, `getDashboardStats`) are reduced to a success/failure parameter, or to the fetched list when there is one. The dashboard's loading and error screens are not modelled.
- Timers are out: the `setTimeout`/`setInterval` delays and their cleanup. Each tick is a method call, and the footer's deferred switch to deleting is a separate method.
- Prices, amounts and quantities are integers, not floating-point numbers. `Number(...)` on the price fields and the quantity input is taken as already parsed. An empty price field is absent. Text that does not parse (NaN) is not modelled.
- Products.Lower: only ASCII letters are lower-cased, because full Unicode case mapping is not modelled. `trim` counts only ASCII whitespace.
- Products.Arrange: `localeCompare` is reduced to an integer collation rank of the title, supplied by the caller. The sort is modelled as an insertion sort on values, not as the engine's in-place sort. Only sortedness and permutation are proved; stability, which the engine guarantees, is not.
- Products.ProductsPage.LoadProducts: a run is `BeginLoad` followed by `FinishLoad`, with nothing in between. Overlapping runs, one started by each filter change or keystroke, are the caller's interleaving of those two steps, and which response settles last is a choice of the caller. The model proves one such interleaving (`StaleResponseWins`) and nothing about all of them.
- Products.ProductsPage.SetFilters: the controls are one method that sets the whole filter record. Their text-to-number parsing is not modelled.
- `getProducts(1, 200)` fetches at most 200 products. The fetched list is a parameter of any length, so the model does not capture that cap: products past the 200th are never filtered or shown.
- AdminDashboard.RevenueSeries: `new Date(...).toLocaleDateString()` is a date-formatting function supplied by the caller.
- CartContext.CartProvider.LoadEffect: a malformed stored cart makes `JSON.parse` throw out of the effect. No error boundary catches it, so React unmounts the whole application. The malformed value stays in storage, so every reload throws again. The model only records the throw (`thrown`, `hasLoaded` still false) and lets later calls on the store go on. It does not capture the unmount.
- Alerts, `console` output and navigation through the router are recorded as page fields (alerts, path) where a contract needs them, and are otherwise left out.
- The remaining pages are not part of this model: home, about, contact, login, user dashboard, the admin screens other than the dashboard, and routing in `App.tsx`.

## Findings

| source | as written | input that shows it | evidently intended | confidence | as-written member | corrected member |
|---|---|---|---|---|---|---|
| src/components/Cart.tsx:64-93 | the drawer's "−", "+" and Remove call the store with the product id and no size. The store matches a line only when its size equals the one passed, so the calls match no line that has a size. Every line added from the catalog has one. The checkout's quantity input and Remove (src/pages/Checkout.tsx:120,126) do the same. | a cart of one line: 2 of product p in size "M". Pressing "−" leaves it at 2, and Remove leaves it in the cart. | pass the line's own `selectedSize` with its id | not executed | CartDrawer.SizedLineStepperCounterexample | CartDrawer.CorrectedStepperActsOnOwnLine |
