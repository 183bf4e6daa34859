# shopquanao inventory core in Dafny

A model of the inventory and order engine of `quanao.py`, a small clothing
shop's back office. The engine keeps four sheets: products, orders,
order_items and stock_movements. It supports four write operations:

- `add_product` adds a product and seeds its stock with an "Initial / Import"
  movement.
- `update_product` edits a product's name, prices, notes and image.
- `add_stock_movement` records a manual adjustment to the stock ledger.
- `create_order` places an order in two passes. It first checks every line
  against the stock as loaded. It then takes each line off the stock and
  writes one order item and one "Sale" movement per line.

On top of these sit the checks the pages make before calling an operation
and the sales report built from the order items.

The project has five modules:

- `Tables` holds the sheets as one value: products keyed by id, and orders,
  items and movements as sequences. It also holds the errors the shop
  raises, the stock ledger (the sum of a product's movements), and the
  consistency conditions `WellFormed` and `Balanced`. `WellFormed` keeps every
  id of every sheet below the id counter and unique within its sheet, and
  every movement and order item pointing at existing rows.
- `Reports` covers the sales report: line revenue, cost and profit at the
  prices snapshotted into each item, the inner joins with orders and
  products, total revenue, gross profit and the per-order summary.
- `Inventory` defines the four operations as functions from sheets to
  sheets (or an error). Lemmas state each operation's exact effect and prove
  that any sequence of operations keeps stock equal to its ledger and every
  order total equal to its items' revenue.
- `Shop` is a class whose fields are the four sheets. Its methods update
  them in place, as the shop does. Each method is proved to produce exactly
  the sheets the matching `Inventory` function gives. Each keeps `Valid()`,
  except `AddStockMovement` on its ledger-only path, which keeps it only as
  part of `AddProduct`.
  The two loops of `create_order` are the methods `CheckLines` and
  `SellLines`, each proved equal to its specification function.
- `Guards` covers the page-level checks:
  - the product forms: a name is required and the price may not be below
    the cost;
  - the stock adjustment form: a change of zero is refused;
  - the POS page: one bounded quantity box per product in stock, a running
    estimate, and a cart dict turned into order lines.

  It proves that a POS order is always accepted and that its total equals
  the estimate shown. It also proves that any run of admitted actions keeps
  every price at or above cost, so the report never shows a negative gross
  profit.

Representation choices:

- Ids come from a counter (`nextId`) kept with the sheets instead of
  `uuid4`. Every id on consistent sheets is below the counter, so the
  counter's next value is an id no row of that sheet has yet.
- The current time is a parameter (`now`). So are the stored image path and
  whether the old image file exists.
- Money is a whole number of VND.

## Model

| member | source | states |
|---|---|---|
| Tables.LedgerConcat | quanao.py:198-207 | appending movements adds their changes to each product's ledger |
| Tables.LedgerOfOthers | quanao.py:198-207 | movements of other products contribute nothing to a product's ledger |
| Reports.ProfitIsRevenueMinusCost | quanao.py:615-617 | the sum of line profits is the sum of line revenue minus the sum of line cost |
| Reports.LineProfitNonNegative | quanao.py:615-617 | a line with non-negative quantity and price at or above cost has non-negative profit |
| Reports.ProfitNonNegative | quanao.py:615-617 | lines with non-negative quantity and price at or above cost have non-negative total profit |
| Reports.OrderProfitNonNegative | quanao.py:669-673 | under the same condition every order's profit in the order summary is non-negative |
| Reports.OrderRevenueConcat | quanao.py:669-673 | an order's revenue over two runs of lines is the sum over each run |
| Reports.OrderRevenueOfOwn | quanao.py:669-673 | when every line belongs to one order, that order's revenue is the revenue of all lines |
| Reports.OrderRevenueOfOthers | quanao.py:669-673 | lines of other orders add nothing to an order's revenue |
| Reports.RevenueWithinAdd | quanao.py:625 | the revenue of the lines of a set of orders grows by exactly one order's revenue when that order is added |
| Reports.RevenueWithinNone | quanao.py:625 | no orders, no revenue |
| Reports.RevenueWithinAll | quanao.py:625 | when every line's order is in the set, the revenue within the set is the plain revenue |
| Reports.GroupedIsWithin | quanao.py:625 | summing per-order group sums over distinct orders is the revenue of the lines of those orders |
| Reports.GroupedRevenueIsTotal | quanao.py:625 | grouping by order and adding the group sums equals the plain sum of line revenue |
| Reports.SumTotalsIsGrouped | quanao.py:280-285 | when each header's total is its lines' revenue, the header totals add up to the grouped revenue |
| Reports.JoinedFromKeepsAll | quanao.py:604-607 | the inner joins drop no line whose order and product both exist |
| Reports.JoinedKeepsAll | quanao.py:604-607 | on consistent sheets the joined lines are exactly the order items |
| Reports.TotalRevenueIsLineSum | quanao.py:625 | the report's total revenue is the sum of qty times price over all order items |
| Reports.TotalRevenueIsOrderTotals | quanao.py:625 | the report's total revenue equals the sum of the stored order totals |
| Reports.OrderTotalsAreLineSum | quanao.py:267-285 | the stored order totals add up to the revenue of all order items |
| Reports.OrderSummaryMatchesHeader | quanao.py:669-673 | each order's revenue in the order summary equals the total stored in its header |
| Reports.GrossProfitIsRevenueMinusCost | quanao.py:626 | the report's gross profit is the items' revenue minus their snapshotted cost |
| Inventory.AddStockMovement | quanao.py:180-209 | fails exactly when the product is missing, with the not-found error |
| Inventory.AddStockMovementEffect | quanao.py:190-207 | one movement row with the counter's id, the change, the reason and the time; the product's stock moves by the change only on the default path; nothing else changes |
| Inventory.LedgerOfOne | quanao.py:198-207 | one movement adds its change to its own product's ledger only |
| Inventory.AddStockMovementKeepsBalance | quanao.py:190-207 | the default path keeps every stock equal to its ledger, and the sheets consistent |
| Inventory.AddStockMovementFreshId | quanao.py:198-207 | on consistent sheets no earlier movement has the new movement's id, and either path keeps the sheets consistent |
| Inventory.AddProductEffect | quanao.py:106-138 | the new product gets an unused id and exactly the given fields, others are unchanged, and one "Initial / Import" movement carries the stock (the stock is not counted twice) |
| Inventory.AddProductKeepsWellFormed | quanao.py:119-136 | adding a product keeps the sheets consistent: the product and its seed movement take ids no row had |
| Inventory.AddProductKeepsBalance | quanao.py:119-136 | adding a product keeps the sheets consistent and every stock equal to its ledger |
| Inventory.UpdateProduct | quanao.py:140-146 | fails exactly when the product is missing, with the not-found error |
| Inventory.UpdateProductEffect | quanao.py:148-175 | only name, prices, notes and image path of that product change; the image is the upload if any, else cleared if removal was asked and the file exists, else kept |
| Inventory.UpdateProductKeepsReport | quanao.py:140-178 | an edit keeps consistency, the ledger and the order totals, and leaves total revenue and gross profit unchanged |
| Inventory.FirstFailure | quanao.py:221-233 | the first pass finds no failure exactly when every line names an existing product with enough stock |
| Inventory.FirstFailureAt | quanao.py:221-233 | the error raised is that of the first failing line |
| Inventory.SellAll | quanao.py:243-277 | the second pass neither adds nor removes products |
| Inventory.SellAllKeepsProducts | quanao.py:247-251 | the second pass changes only stock: every other field of every product is as before |
| Inventory.CreateOrder | quanao.py:211-297 | the order is accepted exactly when every line passes the first-pass check |
| Inventory.CreateOrderRejects | quanao.py:221-233 | a rejected order reports its first failing line: not found, or insufficient stock with the name, the stock and the quantity asked |
| Inventory.SellAllStock | quanao.py:251 | after the second pass each product's stock is down by the total quantity its lines ask for |
| Inventory.SaleItemsAt | quanao.py:254-265 | the j-th item of a sale is line j's product and quantity at the product's prices, under the sale's order id |
| Inventory.SaleMovementsAt | quanao.py:270-277 | the j-th movement of a sale is minus line j's quantity, reason "Sale", at the order's time |
| Inventory.SellAllLast | quanao.py:243-277 | selling the last line appends that line's item and movement and adds its price times its quantity to the total |
| Inventory.SellAllRows | quanao.py:243-277 | the second pass appends exactly the sale's items and movements and takes two consecutive ids from the counter per line |
| Inventory.SellAllLedger | quanao.py:270-277 | the movements of the second pass take off each product's ledger exactly the quantity sold of it |
| Inventory.SellAllTotal | quanao.py:267 | the running total is the revenue of the items written |
| Inventory.NewRowsAreSaleRows | quanao.py:288-289 | the rows an accepted order appends are the sale's rows, numbered from just after the order id |
| Inventory.AcceptedLinesFound | quanao.py:225-227 | every line of an accepted order names an existing product |
| Inventory.CreateOrderProducts | quanao.py:251 | an accepted order lowers each product's stock by the quantity ordered of it and changes nothing else in the products sheet |
| Inventory.NewItemsAt | quanao.py:254-265 | an accepted order's items, one per line in input order, at the prices at sale time |
| Inventory.NewMovementsAt | quanao.py:270-277 | an accepted order's "Sale" movements, one per line in input order |
| Inventory.CreateOrderHeader | quanao.py:236-285 | an accepted order appends one header with the next id, the time, and the items' revenue as total |
| Inventory.CreateOrderEffect | quanao.py:211-297 | the complete new sheets of an accepted order: stocks, header, items, movements and the id counter |
| Inventory.NewItemsWellFormed | quanao.py:254-265 | an accepted order's items point at existing products and the new order, with distinct ids above the order's id |
| Inventory.NewMovementsWellFormed | quanao.py:270-277 | an accepted order's movements point at existing products, with distinct ids above the order's id |
| Inventory.CreateOrderFreshIds | quanao.py:236-277 | on consistent sheets the order id is no earlier order's, and no earlier item or movement shares an id with a new one |
| Inventory.CreateOrderKeepsWellFormed | quanao.py:280-295 | an accepted order keeps every sheet's ids unique and below the counter, and every item and movement pointing at existing rows |
| Inventory.CreateOrderKeepsBalance | quanao.py:251-277 | an accepted order keeps every product's stock equal to its ledger |
| Inventory.CreateOrderKeepsTotals | quanao.py:267-289 | an accepted order keeps every header total equal to its items' revenue |
| Inventory.CreateOrderTwice | quanao.py:236-297 | placing the same order twice gives two orders with different ids and takes the quantities off twice |
| Inventory.QtyForDistinct | quanao.py:543 | with distinct products, the quantity ordered of a product is that of its one line |
| Inventory.QtyForNone | quanao.py:543 | a product no line names is ordered zero times |
| Inventory.DistinctOrderStockFloor | quanao.py:221-251 | with distinct products per order, every product sold ends with non-negative stock, and unsold products keep their stock |
| Inventory.DuplicateLinesOversell | quanao.py:221-251 | two one-unit lines for a product with one unit both pass the check, and the sale leaves its stock at -1 |
| Inventory.RunKeepsLedger | quanao.py:106-297 | any sequence of operations from consistent sheets keeps them consistent, every stock equal to its ledger, and every order total equal to its items' revenue |
| Shop.Shop.constructor | quanao.py:71-74 | a shop starts with empty sheets, which are valid |
| Shop.Shop.AddStockMovement | quanao.py:180-209 | in place: the sheets become what `Inventory.AddStockMovement` gives (or stay on error); returns the movement id; the default path keeps `Valid()` |
| Shop.Shop.AddProduct | quanao.py:106-138 | in place: the sheets become what `Inventory.AddProduct` gives; returns the new id and the name; keeps `Valid()` |
| Shop.Shop.UpdateProduct | quanao.py:140-178 | in place: the sheets become what `Inventory.UpdateProduct` gives (or stay on error); returns the id and the new name; keeps `Valid()` |
| Shop.Shop.CreateOrder | quanao.py:211-297 | in place: the sheets become what `Inventory.CreateOrder` gives (or stay on error); returns the order id and total; keeps `Valid()` |
| Shop.CheckLines | quanao.py:221-233 | the first loop returns exactly the first-pass failure, stopping at the first failing line |
| Shop.SellLines | quanao.py:243-277 | the second loop computes exactly the second pass |
| Guards.ProductFormCheck | quanao.py:375-379 | the form passes exactly when the name is non-empty and the price is not below the cost; each error exactly in its case |
| Guards.Clamp | quanao.py:520-527 | a quantity box holds a value between 0 and the stock, and any value in range unchanged |
| Guards.BuildCart | quanao.py:494-531 | the POS loop builds exactly the cart of its specification |
| Guards.CartLines | quanao.py:543 | one order line per cart key, in the cart's order |
| Guards.CartLinesQty | quanao.py:543 | each line's quantity is the one kept in the cart |
| Guards.PosCartOk | quanao.py:505-531 | the cart holds each product once, every quantity between 1 and the product's stock |
| Guards.PosLinesAccepted | quanao.py:520-545 | the POS lines name distinct products, ask for positive quantities, and pass create_order's check |
| Guards.SaleItemsRevenue | quanao.py:254-267 | the revenue of a sale's items is the value of its lines at the starting prices |
| Guards.CartLinesFrame | quanao.py:530 | adding a new product to the cart dict leaves the earlier lines as they were |
| Guards.CartLinesSnoc | quanao.py:530-543 | a cart entry for a product not yet in the cart appends exactly one order line |
| Guards.LinesValueSnoc | quanao.py:531 | one more line adds its price times its quantity to the value of the lines |
| Guards.CartStepValue | quanao.py:529-531 | one more product in the cart keeps the estimate equal to the value of the cart's lines |
| Guards.EstimateIsLinesValue | quanao.py:529-536 | the estimate shown is the value of the lines handed to create_order |
| Guards.OrderTotalIsLinesValue | quanao.py:267-285 | an accepted order's total is the value of its lines at the prices when it started |
| Guards.PosEstimateIsOrderTotal | quanao.py:529-545 | the order placed from the POS page is accepted and its total is the estimate the page showed |
| Guards.AdmittedKeepsMargins | quanao.py:375-587 | every action the pages let through keeps every price at or above cost and every sold line priced at or above cost |
| Guards.OrderKeepsMargins | quanao.py:254-265 | an accepted order of positive quantities keeps those margins |
| Guards.JoinedFromIn | quanao.py:604-607 | the joined lines are order items |
| Guards.MarginsReport | quanao.py:615-626 | with those margins, gross profit and every order's profit are non-negative |
| Guards.AdmittedRunKeepsMargins | quanao.py:375-587 | any sequence of admitted actions keeps the margins |
| Guards.AdmittedRunProfitNonNegative | quanao.py:615-673 | after any sequence of admitted actions from a consistent shop with its margins, the report shows no negative gross profit and no order with negative profit |

### Behaviour of the code worth knowing

- **Oversell.** `create_order`'s only stock check (line 232) compares each
  line with the stock as loaded, not with what earlier lines of the same
  order already took.
  - The model follows the code. `Inventory.DuplicateLinesOversell` shows the
    case where two lines for one product pass the check and the sale drives
    the stock negative.
  - The POS page never produces such an order: its cart is a dict keyed by
    product id (`Guards.PosLinesAccepted`).
  - For distinct lines, the floor holds (`Inventory.DistinctOrderStockFloor`).
- **Zero adjustments.** A zero stock adjustment is refused by the page (line
  578), not by `add_stock_movement`. So `Inventory.AddStockMovement` accepts
  it and `Guards.Admits` refuses it.

## Left out

- Google Sheets I/O, the connection, the per-sheet cache and its clearing
  (lines 18-102). The sheets are in-memory values. Column coercion with
  `to_numeric` and the filling of missing cells are not modelled.
- Stale reads: the model assumes every load sees the previous write.
  `write_data` clears only the cache of `load_data` (line 81), not the
  five-second caches of `load_products` and the other loaders (lines 84-98).
  So the reload at line 182, inside the `add_stock_movement` call that
  `add_product` makes, can miss the product row written at line 135. It would
  then raise at line 188 after the product is already stored. This is read
  from the code and was not executed.
- Partial writes: each write operation stores its sheets one after another,
  and a failure between writes would leave them inconsistent. The model
  treats each operation's writes as one step:
  - `create_order` writes four sheets (lines 292-295);
  - `add_product` writes products, then movements (lines 135-136 and 207);
  - `add_stock_movement` on its default path writes products, then
    movements (lines 195 and 207).
- Concurrency: two sessions reading and then writing the same sheet can lose
  an update or oversell. The model is single-threaded.
- Image files: saving an upload, deleting the old file and checking that it
  exists. The saved path and the existence check are parameters. File names
  built from the clock are not modelled.
- `uuid4` ids are replaced by the counter `nextId`. Freshness, not
  randomness, is what the shop relies on.
- Timestamps: `utcnow()` is the parameter `now`. In `add_product` only the
  seed movement's timestamp (line 204) reaches a sheet; the reading at line
  112 only names the image file, which is not modelled.
- Floating point: prices and totals are whole VND (`int`), with no rounding.
- Report presentation: date and month columns, the daily, monthly and top-5
  charts, the formatted detail strings, and CSV export (lines 613-614 and
  636-767). The margin percentage and average per order are divisions of
  the modelled totals and are not modelled. The report's branch for empty
  sheets is also not modelled.
- Guards.PosEstimateIsOrderTotal: assumes the page and the click see the
  same products sheet and that the page lists each product once.
  Streamlit's reruns between render and click are not modelled.
- Guards.EstimateIsLinesValue: requires a listing without duplicate ids.
  Each quantity box is keyed by its product id (line 525), and Streamlit
  refuses a second widget with the same key, so a listing with a duplicated
  id makes the page fail before it can show an estimate. Wherever the page
  renders, its listing is distinct.
- Reports.TotalRevenueIsOrderTotals: the report groups by the order ids
  present in the joined lines. The model sums over the orders sheet.
  Orders with no lines add zero, so the two agree on consistent sheets,
  which is what the lemma requires.
- Streamlit rendering, session state, navigation and the edit-form toggling
  are not modelled.
