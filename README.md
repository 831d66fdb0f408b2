# Food-order storefront: cart, checkout and sales ledger

A Dafny model of `script.js`, the script behind a single-page food-ordering
storefront. It covers:

- the **cart**: the globals `cart`, `total` and `nextCartId`, and
  `addToCart`/`removeFromCart`, which append and splice lines and keep a
  running total;
- the **checkout**: the `placeOrder` guard, the payment dialog's validation
  (trimmed name, then phone of at least seven characters, then address), the
  18% GST on the receipt, and the receipt's Close handler, which appends a
  sale record and empties the cart;
- the **sales ledger**: `salesRecords`, `recordSale`, the startup load, the
  clear-all action, and the figures `renderSales` computes (total revenue,
  units sold per product, revenue per month with months listed latest first);
- two pure helpers: `escapeHtml` and the reordering done by `performSearch`.

Money is counted in whole paise. The script's `Number(x.toFixed(2))` becomes
rounding to the nearest paisa, half up (`Money.Round2`). With whole-paise
prices the total on a receipt is then exactly subtotal plus GST.

Modules, one per component:

| file | module | what |
|---|---|---|
| common.dfy | Common | `Option`, `Result` |
| text.dfy | Text | `trim`, ASCII `toLowerCase`, `includes` |
| money.dfy | Money | rounding to paise, GST, total |
| cart.dfy | ShoppingCart | `class Cart` with the running-total invariant |
| order.dfy | Order | validation and the Idle / Collecting / Cancelled / Confirmed phases |
| ledger.dfy | Ledger | sale records, aggregate views, `class SalesLedger` |
| checkout.dfy | Checkout | receipt figures, record construction, the commit |
| html.dfy | Html | `escapeHtml` and its inverse |
| search.dfy | Search | `performSearch` as a placement of the original cards |

The state the script mutates is modelled by two classes. `Cart` holds the
three cart globals; its `Valid()` says that `total` is the sum of the line
prices, that every line is one unit, and that ids strictly increase and stay
below `nextCartId`. `SalesLedger` holds `salesRecords`. The commit
(`Checkout.CloseReceipt`) changes both.
`Checkout.BurgerAndFries` walks one session through the contracts alone:
two items added, a stale id removed, a cancelled payment dialog that changes
nothing, one checkout of 7.00 that records a
total of 8.26 and leaves the cart empty with its id counter at 3.

Behaviour of the code worth knowing:

- Starting an order is refused when the running total is 0, not when the cart
  is empty. So a cart holding only free items is refused as well
  (`Checkout.PlaceOrderRefusesFreeCart`).
- A non-numeric price becomes `NaN` in the code, not 0. Prices here are
  whole, non-negative paise.
- Stored records use the field names `item`, `price`, `qty` and
  `totalWithGst`, and store the amounts as 2-decimal strings. The model keeps
  these as numbers.
- A record without any date is not skipped by the monthly view. The code
  falls back to the current time, so such a record counts toward the month in
  which the page is rendered. Only a date that does not parse is skipped. The
  model receives each record's month already resolved (`Option<YearMonth>`).

## Model

| member | source | states |
|---|---|---|
| ShoppingCart.Cart.constructor | script.js:1-3 | The cart starts empty with total 0 and id counter 1, and satisfies the invariant |
| ShoppingCart.Cart.AddToCart | script.js:91-124 | Appends exactly one line `{id, item, price, qty: 1}` at the end, with id equal to the old counter and greater than every id in the cart; the counter moves up by 1 and the total rises by the price; the running-total invariant is kept |
| ShoppingCart.Cart.RemoveFromCart | script.js:126-141 | An absent id changes nothing; a present id removes only that line, keeps the other lines in order and lowers the total by its price; the result equals dropping every line of that id; the invariant is kept |
| ShoppingCart.Cart.Clear | script.js:274-275 | After a commit the cart is empty and the total 0, but the id counter is not reset, so ids stay unique for the session |
| ShoppingCart.SumPrices | script.js:210 | The subtotal is at least the price of every line in the cart |
| ShoppingCart.SumPricesAppend | script.js:122 | The sum of prices over two stretches of lines is the sum of their sums |
| ShoppingCart.SumPricesSplice | script.js:129-130 | Splicing out the line at a position lowers the sum by exactly that line's price |
| ShoppingCart.SumPricesZeroIff | script.js:148 | The sum of prices is 0 exactly when every line is free |
| ShoppingCart.FindFrom | script.js:127 | The search from a position returns the first position at or after it carrying the id, or none exactly when no such line exists |
| ShoppingCart.FindLine | script.js:127-128 | `findIndex` returns the first position whose line has the id, and reports absence exactly when no line has it |
| ShoppingCart.SpliceIsWithoutId | script.js:127-130 | With unique ids, splicing out the found line equals keeping every line whose id differs |
| ShoppingCart.NoIdNoChange | script.js:128 | Removing an id no line carries leaves the lines unchanged |
| ShoppingCart.WithoutIdIdempotent | script.js:126-130 | Removing the same id twice equals removing it once |
| ShoppingCart.AppendKeepsShape | script.js:93-117 | A new one-unit line with the counter as its id keeps ids increasing and below the advanced counter |
| ShoppingCart.SpliceKeepsShape | script.js:130 | Splicing out a line keeps ids increasing and every line one unit with an id below the counter |
| Money.Round2 | script.js:211-212 | Rounding to paise gives the nearest whole paisa, a half rounding up |
| Money.Round2Whole | script.js:212 | An amount already in whole paise is unchanged by the rounding |
| Money.Gst | script.js:209-211 | GST is 18% of the subtotal rounded to the nearest paisa, half up |
| Money.TotalWithGst | script.js:212 | The amount payable, `round2(subtotal + gst)`, is exactly subtotal plus GST: with whole paise the second rounding loses nothing |
| Money.GstMonotone | script.js:211 | A larger subtotal never draws less GST |
| Money.GstBounds | script.js:211 | GST never exceeds the subtotal, and a subtotal of at least 3 paise draws some GST |
| Money.SevenRupeeOrder | script.js:209-212 | A subtotal of 7.00 gives GST 1.26 and total 8.26 |
| Order.Validate | script.js:185-196 | Checks in order: a blank name fails first, then a trimmed phone shorter than 7, then a blank address; only when all pass are the details the payment method and the trimmed fields |
| Order.ValidatedIsWellFormed | script.js:186-196 | Accepted details have non-empty trimmed fields and a phone of at least 7 characters, and validating them again accepts the same details |
| Order.PlaceOrder | script.js:147-157 | A total of 0 is refused and nothing opens; any other total opens the payment dialog with no error shown |
| Order.Confirm | script.js:184-197 | Confirm reaches the callback exactly when name, phone and address all pass, handing on the validated details: the chosen method and the trimmed fields, which are well formed; otherwise the dialog stays open reporting the first failing check |
| Order.ShortPhoneRefused | script.js:192 | A three-character phone is refused at the phone check and the dialog stays open |
| Order.TrimmedFormAccepted | script.js:184-197 | A form whose name, phone and address are non-empty with no white space at either end, and whose phone has at least 7 characters, is accepted and reaches the callback exactly as typed |
| Ledger.EffectiveQty | script.js:34 | The effective quantity (1 for a missing or zero `qty`) is at least 1, and equals `qty` whenever that is non-zero |
| Ledger.TotalRevenue | script.js:28 | Total revenue is at least the total of every recorded sale |
| Ledger.TotalRevenueAppend | script.js:28 | Total revenue over two stretches of records is the sum of their revenues |
| Ledger.ItemUnitsPositiveIff | script.js:34 | A record's items give a product positive units exactly when one of its lines names that product |
| Ledger.UnitsSoldPositiveIff | script.js:32-35 | A product's unit count is positive exactly when some line of some record names it |
| Ledger.ProductCounts | script.js:31-35 | The counts map holds exactly the products sold, each mapped to the sum of its effective quantities over all records (a missing or zero `qty` counting 1) |
| Ledger.DatedMonthsIff | script.js:40-46 | A month is among the dated months exactly when some record is dated in it |
| Ledger.MonthRevenueBounded | script.js:40-46 | A month's revenue never exceeds total revenue |
| Ledger.SameMonthSalesAdd | script.js:44-45 | Two sales in the same month add both totals to that one month's entry |
| Ledger.MonthlyRevenue | script.js:39-46 | The monthly map has one entry per month in which some record is dated, holding the sum of those records' totals; undated records are skipped |
| Ledger.InsertDescending | script.js:49 | Inserting a new month into a strictly descending list keeps it strictly descending and adds exactly that month |
| Ledger.MonthKeysDescending | script.js:49 | The month keys are listed latest first, each month of the map exactly once |
| Ledger.SalesLedger.Load | script.js:9-16 | At startup the ledger holds the stored records, or none when nothing readable is stored |
| Ledger.SalesLedger.RecordSale | script.js:72-76 | The record is appended as the last record, earlier records are unchanged, and revenue rises by its total |
| Ledger.SalesLedger.ClearSales | script.js:81-86 | The confirmed clear-all leaves no records and zero revenue |
| Checkout.ShowReceipt | script.js:200-212 | The receipt's subtotal is the sum of the cart prices, its GST is 18% rounded half up to the paisa, and its total is exactly subtotal plus GST |
| Checkout.SnapshotItems | script.js:263 | The record's items copy each cart line's item and price in order, with quantity 1 when `qty` is missing or zero |
| Checkout.SnapshotKeepsSubtotal | script.js:263 | The copied items are worth exactly the cart's sum of prices |
| Checkout.SnapshotUnits | script.js:263 | For one-unit lines, the copied items give each product as many units as it has cart lines |
| Checkout.MakeRecord | script.js:259-269 | The record carries the copied items, the receipt's amounts, the payment method and the customer details, dated in the given month |
| Checkout.RecordConsistent | script.js:259-269 | If the cart is unchanged since the receipt was shown, the record's items add up to its subtotal and its total is subtotal plus GST |
| Checkout.CommitAddsUp | script.js:259-270 | Committing a cart raises each product's unit count by its number of cart lines and total revenue by the receipt total |
| Checkout.CloseReceipt | script.js:255-278 | Close appends exactly one record built from the receipt and the cart as the last ledger entry, then empties the cart and zeroes the total, keeping the id counter |
| Checkout.PlaceOrderRefusesFreeCart | script.js:147-151 | An order start is refused exactly when every cart line is free, so always for an empty cart |
| Checkout.PlaceAndCommit | script.js:147-278 | A refused start, a press of Cancel (script.js:183) or a rejected form leaves cart, total and ledger unchanged; Cancel after a successful start always ends in `Cancelled`; an accepted form commits exactly one record and empties the cart |
| Html.EscapeChar | script.js:282 | Each of & < > " ' becomes an entity that starts with & and ends with ;, and any other character is kept |
| Html.EscapeHtml | script.js:281-283 | The output holds none of < > " ', is no shorter than the input, and equals the input when it has none of the five characters |
| Html.UnescapeEscapedChar | script.js:282 | Reading back one escaped character in front of any text recovers that character |
| Html.EscapeRoundTrip | script.js:281-283 | Escaping loses nothing: reading the entities back restores the original text |
| Search.Query | script.js:295 | The query is empty exactly when the input is only white space |
| Search.CardMatches | script.js:308-310 | A card matches exactly when its lowercased name contains the query at some position; a card without a name matches only the empty query |
| Search.Matches | script.js:307-311 | An index is among the matches exactly when it is a card whose name contains the query |
| Search.NonMatches | script.js:313 | An index is among the non-matches exactly when it is a card whose name does not contain the query |
| Search.MatchesShape | script.js:307-311 | The matches are exactly the cards whose lowercased name contains the query, in page order |
| Search.NonMatchesShape | script.js:313 | The non-matches are exactly the other cards, in page order, and the two groups together number the cards |
| Search.PlaceGroups | script.js:316-324 | Two increasing groups placed one after the other keep each group's order, highlight the first group only, and place every member |
| Search.SearchPartition | script.js:307-324 | Matches come first and highlighted, then non-matches without highlight, each group in page order, every card once |
| Search.PerformSearch | script.js:294-325 | A blank query restores page order without highlights; any other query gives a stable partition with the matching cards first |
| Text.Trim | script.js:186-188 | `trim` returns a slice of the input that neither starts nor ends with white space, with only white space cut from either end |
| Text.TrimIdempotent | script.js:186-188 | Trimming twice is trimming once |
| Text.TrimEmptyIffBlank | script.js:191-193 | A field trims to empty exactly when it holds only white space |
| Text.ToLower | script.js:295 | Lowercasing keeps the length and maps each character to its lowercase form |
| Text.Includes | script.js:310 | `includes` holds exactly when the needle occurs at some position of the haystack |

## Left out

- Page rendering: DOM rows, the placeholder row, `updateTotalDisplay`, receipt and ledger HTML, the latest-first sales list, and the display order of the product summary. These are presentation. The product counts are a map, without an entry order.
- `saveSales` and the persisted JSON. Storage is foreign I/O and its failures are swallowed. `Ledger.SalesLedger.Load` takes the stored records already parsed, or `None` when none are stored or the stored text does not parse. Stored data of another shape (not an array, a negative `qty`) is not modelled.
- `alert`, `confirm`, `window.print`, event-listener wiring and the header and back-button panel toggles. These are browser calls. Clear-all is modelled in its confirmed branch; a cancelled confirm does nothing.
- Dates and the clock. `new Date()`, `toISOString`, `toLocaleString` and the local-time `getFullYear`/`getMonth` become a `YearMonth` parameter of the commit and an `Option<YearMonth>` on each record.
- Ledger.MonthKeysDescending: orders months by (year, month), not by the strings "YYYY-MM" the code sorts. The two orders agree for four-digit years only; other years are not modelled.
- Floating point. Amounts are whole paise. The binary rounding of `toFixed` (for example 1.005 printing as 1.00) and drift in the running total after many additions and removals are not modelled.
- Non-numeric prices, which turn into `NaN` in the code.
- Unicode case mapping. `Text.ToLower` lowercases the ASCII letters A-Z only.
- Order.Validate: counts the phone's length in Unicode scalar values, while `phone.length` counts UTF-16 code units. A character outside the Basic Multilingual Plane counts 2 in the script and 1 here, so a phone of four such characters passes in the script and is refused here as `InvalidPhone`.
- Order.PlaceOrder: models one dialog at a time. Two overlapping dialogs opened by repeated clicks are not modelled.
- Checkout.PlaceAndCommit: chains one start, one press (Cancel, or Confirm followed by Close). Repeated rejected confirms are repeated `Order.Confirm` steps from `Collecting`.
- `showReceipt` called with a bare payment-method string instead of the details object. `placeOrder` never does this.
- JavaScript objects used as dictionaries treat keys such as `__proto__` specially. The model uses maps.
