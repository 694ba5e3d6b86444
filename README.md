# Café point of sale — verified model of the sale, cash-shift and reporting logic

This project models the core of a café point-of-sale application. It covers:

- the product catalog and the sale ledger kept by the application context;
- the cart of the two sale screens:
  - the stocked screen, with stock guards, the checkout validation and the commit;
  - the basic screen, with no stock checks;
- the cash-shift register (one current-shift slot plus a history of closed shifts);
- the cash-control screen, which validates the open and close amounts, computes the expected cash in the drawer and classifies the difference;
- the login table and the role policy;
- the stock alerts;
- the aggregations of the reports screen and of the sales-history screen.

Amounts are whole currency units (`int`). Identities, dates and times are passed in as parameters. "Does this sale fall in the shift / in the period" is a predicate parameter.

A text field that the source converts with `Number(...)` is an `AmountInput`: `Blank`, `Numeric(n)` or `NotANumber`. `Blank` reads as 0, as `Number('')` does. `NotANumber` plays the role of NaN.

Modules:

| module | models |
|---|---|
| `Wrappers`, `Seqs` | `Option`/`Result`; order-preserving filter, sums, first-occurrence de-duplication |
| `Inputs` | the parsed amount fields |
| `Catalog` | products, `find` by id and by name, the list updates, the category buttons, the initial catalog |
| `Ledger` | cart lines, frozen sale lines, sales, totals, paid amount and change, the stock update, revenue |
| `AppState` | class `Store`: the catalog and ledger state and its handlers |
| `Cart` | the cart updaters shared by both sale screens |
| `Checkout` | the stocked sale screen: stock guards, checkout decision, class `SaleScreen` |
| `SimpleSale` | the basic sale screen, class `SimpleSaleScreen` |
| `Shifts` | the shift context: spec functions over `Till` and class `ShiftRegister` |
| `CashControl` | the cash-control screen: reconciliation and class `CashDrawer` |
| `Auth` | accounts, `login`, `hasRole`, class `Session` |
| `StockAlerts` | the low / sold-out / low-but-available lists |
| `Grouping` | "reduce into a dictionary, then `Object.entries`", and the sorts (proved stable) |
| `Reports` | the reports screen |
| `SalesHistory` | the sales-history screen |

## Model

| member | source | states |
|---|---|---|
| Inputs.AsNumber | src/components/VentaViewOdoo.tsx:120 | an empty field reads as 0, a number as itself, other text as NaN (None) |
| Seqs.Filter | src/contexts/AppContext.tsx:89 | the kept elements are exactly the elements satisfying the predicate, and the result is no longer than the input |
| Seqs.FilterConcat | src/contexts/AppContext.tsx:89 | filtering a concatenation filters each part, so kept elements stay in order |
| Seqs.Distinct | src/components/VentaViewOdoo.tsx:30 | `Array.from(new Set(...))`: the same members, each once |
| Catalog.Find | src/components/VentaViewOdoo.tsx:77 | `find`: a found product is in the catalog and satisfies the test, and no earlier product does; None exactly when no product satisfies it |
| Catalog.Lookup | src/components/VentaViewOdoo.tsx:77 | `find` by id: a found product is in the catalog with that id; None exactly when no product has it |
| Catalog.LookupByName | src/components/ReportesView.tsx:96 | `find` by name: a found product has that name; None exactly when none has it |
| Catalog.Replaced | src/contexts/AppContext.tsx:82-86 | same length and order; each position holds the update if its id matches, otherwise the old product |
| Catalog.ReplacedUnknownId | src/contexts/AppContext.tsx:82-86 | updating under an id no product has leaves the catalog unchanged |
| Catalog.Deleted | src/contexts/AppContext.tsx:88-90 | the remaining products are exactly those with another id |
| Catalog.DeletedIdempotent | src/contexts/AppContext.tsx:88-90 | deleting twice is deleting once |
| Catalog.DeletedConcat | src/contexts/AppContext.tsx:88-90 | deletion works part by part, so the other products keep their order |
| Catalog.CategoryColumn | src/components/VentaViewOdoo.tsx:30 | `products.map(p => p.categoria)`, position by position |
| Catalog.Categories | src/components/VentaViewOdoo.tsx:30 | 'todas' first, then every category of the catalog exactly once and nothing else (the same expression is at src/components/VentaView.tsx:36) |
| Catalog.InSelectedCategory | src/components/VentaView.tsx:38-40 | 'todas' keeps the whole catalog; any other label keeps exactly the products of that category (also the category half of src/components/VentaViewOdoo.tsx:33) |
| Catalog.Loaded | src/contexts/AppContext.tsx:55-58 | the stored catalog if there is one, otherwise the eight initial products |
| Catalog.InitialCatalogWellFormed | src/contexts/AppContext.tsx:43-58 | a first start loads products with distinct ids, positive prices and positive stock; a stored catalog is loaded exactly as saved |
| Ledger.LinesTotal | src/components/VentaViewOdoo.tsx:97 | the cart total: 0 for an empty cart, and never negative when no price or quantity is (the same sum is taken at src/contexts/AppContext.tsx:96) |
| Ledger.LinesTotalSteps | src/components/VentaViewOdoo.tsx:97 | the cart total is 0 for an empty cart, and each line adds price × quantity |
| Ledger.Snapshot | src/contexts/AppContext.tsx:103-107 | same length and order as the cart; each frozen line copies the name, quantity and price at commit time |
| Ledger.SnapshotKeepsTotal | src/contexts/AppContext.tsx:96-107 | the frozen lines add up to the cart total |
| Ledger.SnapshotLineSubtotal | src/contexts/AppContext.tsx:103-107 | each frozen line's subtotal equals its cart line's subtotal |
| Ledger.AmountPaid | src/contexts/AppContext.tsx:109 | an absent or zero tender records the total as paid, otherwise the tender |
| Ledger.ChangeDue | src/contexts/AppContext.tsx:110 | the change is never negative: the excess of a nonzero tender over the total, otherwise 0 |
| Ledger.ChangeIsExcess | src/contexts/AppContext.tsx:109-110 | whenever the recorded payment covers the total, the recorded change is exactly payment − total |
| Ledger.NewSale | src/contexts/AppContext.tsx:96-111 | the sale's total is the cart total and the sum of its frozen lines; it carries the given id, date, time and method; the amount paid is `AmountPaid` of the tender (the total when none or 0 was given) and the change is `ChangeDue` (≥ 0, the excess when the payment covers the total) |
| Ledger.DecrementLine | src/contexts/AppContext.tsx:117-123 | one stock update: products with the line's id lose its quantity, the others are unchanged |
| Ledger.Decremented | src/contexts/AppContext.tsx:116-124 | after all updates each product's stock has dropped by the total quantity of the lines with its id (with no lower bound), and nothing else changes |
| Ledger.Revenue | src/components/ReportesView.tsx:50 | Σ of the sales' totals: 0 for no sales, never negative when no total is |
| Ledger.RevenueConcat | src/components/ReportesView.tsx:50 | revenue over two runs of the ledger adds up |
| Ledger.Average | src/components/ReportesView.tsx:51 | 0 with no sales, otherwise average × count = total |
| AppState.Store.constructor | src/contexts/AppContext.tsx:55-62 | the stored catalog or the initial one, and the stored ledger or an empty one |
| AppState.Store.AddProduct | src/contexts/AppContext.tsx:74-80 | exactly one product, with the given id, is appended at the end |
| AppState.Store.UpdateProduct | src/contexts/AppContext.tsx:82-86 | the catalog becomes `Replaced` of the old one |
| AppState.Store.DeleteProduct | src/contexts/AppContext.tsx:88-90 | the catalog becomes `Deleted` of the old one |
| AppState.Store.RegisterSale | src/contexts/AppContext.tsx:92-125 | the new sale is placed at the front of the ledger and the earlier sales follow unchanged; the per-line update loop leaves the catalog at `Decremented`; ledger consistency is preserved |
| Cart.FindLine | src/components/VentaViewOdoo.tsx:48 | the position of the first line with the id, or None exactly when no line has it |
| Cart.QuantityInCart | src/components/VentaViewOdoo.tsx:48 | the quantity of the first line with the id (the line `FindLine` finds), or 0 when no line has it |
| Cart.IncrementAll | src/components/VentaViewOdoo.tsx:62-66 | every line with the id gains one unit; products and other quantities are unchanged |
| Cart.Incremented | src/components/VentaViewOdoo.tsx:59-70 | the cart keeps its length when the product has a line and grows by one otherwise; no line changes product or moves; lines of other products are untouched; a new product's line of 1 is last |
| Cart.AddOneUnit | src/components/VentaViewOdoo.tsx:59-70 | the product's quantity rises by exactly one and no other product's quantity changes. An existing line keeps its position and no other line moves; a new product gets one line of 1 at the end. Ids stay unique |
| Cart.Without | src/components/VentaViewOdoo.tsx:75 | the remaining lines are exactly those of other products |
| Cart.RemoveLineGone | src/components/VentaViewOdoo.tsx:75 | after removal no line has the id |
| Cart.RemoveLineUnique | src/components/VentaViewOdoo.tsx:75 | removal keeps ids unique |
| Cart.RemoveLineOthers | src/components/VentaViewOdoo.tsx:75 | removal leaves every other product's presence and quantity unchanged |
| Cart.WithQuantity | src/components/VentaViewOdoo.tsx:87-93 | same length and products; lines with the id get the new quantity, the others keep theirs |
| Cart.SetLineQuantity | src/components/VentaViewOdoo.tsx:87-93 | a present product gets exactly the new quantity; an absent id leaves the cart unchanged; other quantities are unchanged; ids stay unique |
| Cart.QuantityForUnique | src/contexts/AppContext.tsx:116-124 | with one line per product, the quantity the stock update subtracts is the quantity on that product's line |
| Cart.QuantityForAbsent | src/contexts/AppContext.tsx:116-124 | a product with no cart line loses no stock |
| Checkout.AddDecision | src/components/VentaViewOdoo.tsx:39-57 | "Sin stock" exactly when stock ≤ 0; "Stock insuficiente" exactly when in stock but the cart already holds the stock; otherwise the add goes through |
| Checkout.AfterAdd | src/components/VentaViewOdoo.tsx:38-71 | the cart after an add grows by at most one line and no existing line changes product or moves |
| Checkout.AddToCartEffect | src/components/VentaViewOdoo.tsx:38-71 | a refused add leaves the cart unchanged; an accepted one adds exactly one unit and ends within the stock; other quantities are unchanged; ids stay unique |
| Checkout.AddKeepsWithinStock | src/components/VentaViewOdoo.tsx:48-57 | adding a catalog product to a cart that is within stock keeps every line within stock |
| Checkout.QuantityAccepted | src/components/VentaViewOdoo.tsx:74-85 | refused exactly when the quantity is positive and above the stock of a product found in the catalog |
| Checkout.AfterSetQuantity | src/components/VentaViewOdoo.tsx:73-95 | the cart after a quantity change has no more lines than before, and every line is an old one or the product's line at the new quantity |
| Checkout.SetQuantityEffect | src/components/VentaViewOdoo.tsx:73-95 | ≤ 0 removes the product's line; a refused quantity leaves the cart unchanged; an accepted one is the product's new quantity; an absent product stays absent; other quantities are unchanged; ids stay unique |
| Checkout.UnknownProductSkipsStockCheck | src/components/VentaViewOdoo.tsx:77-78 | for an id not in the catalog, any positive quantity is set without a stock check |
| Checkout.SetQuantityKeepsWithinStock | src/components/VentaViewOdoo.tsx:73-95 | setting a quantity keeps a within-stock cart within stock |
| Checkout.LookupFindsMember | src/components/VentaViewOdoo.tsx:77 | with unique catalog ids, looking up a catalog product's id finds that product |
| Checkout.CommitWithinStock | src/contexts/AppContext.tsx:116-124 | committing a within-stock cart with one line per product never drives a non-negative stock below zero, although the commit checks nothing |
| Checkout.CheckoutDecision | src/components/VentaViewOdoo.tsx:101-131 | the three refusals, each as an if-and-only-if, in order: empty cart; then a non-admin with no open shift; then a tender that is NaN or below the total. On success the change is tender − total ≥ 0 |
| Checkout.ExactTenderSucceeds | src/components/VentaViewOdoo.tsx:122 | a tender equal to the total is accepted with change 0 |
| Checkout.OneShortFails | src/components/VentaViewOdoo.tsx:122 | a tender one unit below the total is refused |
| Checkout.AdminBypassesShift | src/components/VentaViewOdoo.tsx:111 | an administrator is never refused for a missing shift; no user, or a cashier, always is |
| Checkout.TwoLineCheckout | src/components/VentaViewOdoo.tsx:97-131 | 2000 × 3 + 1500 × 2 totals 9000, and a tender of 10000 gives 1000 of change |
| Checkout.ThirdAddRefused | src/components/VentaViewOdoo.tsx:48-57 | with a stock of 2, two adds go through, the third is refused, and the cart holds 2 |
| Checkout.ChangePreview | src/components/VentaViewOdoo.tsx:164 | the change shown while typing: 0 for an empty field, NaN for text, otherwise never negative and the excess when positive |
| Checkout.PreviewMatchesChange | src/components/VentaViewOdoo.tsx:131-164 | when checkout succeeds (for a non-negative total or a numeric field), the change handed back is the change the screen showed |
| Checkout.SaleScreen.constructor | src/components/VentaViewOdoo.tsx:22-27 | empty cart, 'efectivo', empty tender field, no receipt |
| Checkout.SaleScreen.AddToCart | src/components/VentaViewOdoo.tsx:38-71 | returns `AddDecision` and leaves the cart at `AfterAdd` |
| Checkout.SaleScreen.SetQuantity | src/components/VentaViewOdoo.tsx:73-95 | returns `QuantityAccepted` and leaves the cart at `AfterSetQuantity` |
| Checkout.SaleScreen.SetTender | src/components/VentaViewOdoo.tsx:310 | the tender field holds exactly what was typed; nothing else changes |
| Checkout.SaleScreen.SetPaymentMethod | src/components/VentaViewOdoo.tsx:317 | the chosen method is selected; nothing else changes |
| Checkout.SaleScreen.ClearCart | src/components/VentaViewOdoo.tsx:225-232 | the "Limpiar" button empties the cart; nothing else changes |
| Checkout.ClearedCartState | src/components/VentaViewOdoo.tsx:101-104 | an emptied cart holds nothing of any product, is within stock with unique ids, totals 0, and checkout refuses it as empty |
| Checkout.SaleScreen.ClearReceipt | src/components/VentaViewOdoo.tsx:160-162 | the receipt is dropped |
| Checkout.SaleScreen.Confirm | src/components/VentaViewOdoo.tsx:100-158 | returns `CheckoutDecision`. A refusal changes no screen field, catalog, ledger or shift. On success: the receipt is kept; one sale is prepended to the ledger; stocks are decremented; an open shift gets count+1 and total+sale total; cart, tender and method are reset. Ledger consistency is preserved |
| SimpleSale.SimpleSaleScreen.AddToCart | src/components/VentaView.tsx:42-55 | the cart becomes `Incremented` of the old one, with no stock bound (see Cart.AddOneUnit) |
| SimpleSale.SimpleSaleScreen.SetQuantity | src/components/VentaView.tsx:57-69 | ≤ 0 removes the id's line; otherwise only that id's line is set |
| SimpleSale.SimpleSaleScreen.Process | src/components/VentaView.tsx:73-78 | processed exactly when the cart was non-empty; then the cart is emptied and the announced total is the cart total; otherwise nothing changes |
| Shifts.NewShift | src/contexts/TurnoContext.tsx:53-62 | state open, counters 0, the given float, cashier, id and opening date and time, no close data |
| Shifts.ClosedRecord | src/contexts/TurnoContext.tsx:71-79 | copies the shift's identity, opening data, cashier and float; sets the closing amount, counters and close date/time; state closed |
| Shifts.AfterOpen | src/contexts/TurnoContext.tsx:51-65 | the new shift takes the slot with no already-open guard, so an open shift is dropped; the history is untouched |
| Shifts.AfterClose | src/contexts/TurnoContext.tsx:67-86 | with no shift nothing changes; otherwise the slot empties and exactly one closed record is appended at the end |
| Shifts.AfterUpdate | src/contexts/TurnoContext.tsx:88-96 | with no shift nothing changes; otherwise both counters take the given absolute values and nothing else changes |
| Shifts.CloseTwice | src/contexts/TurnoContext.tsx:68-85 | a second close is a no-op |
| Shifts.Step | src/contexts/TurnoContext.tsx:51-96 | one action: the old history is a prefix of the new one, which is at most one entry longer and unchanged unless the action is a close; well-formedness is kept |
| Shifts.Run | src/contexts/TurnoContext.tsx:51-96 | a run of actions with no close leaves the history exactly as it was |
| Shifts.HistoryOnlyGrows | src/contexts/TurnoContext.tsx:82 | over any run of actions the old history is a prefix of the new one, and it grows by at most one entry per action |
| Shifts.RunKeepsWellFormed | src/contexts/TurnoContext.tsx:51-96 | any run keeps the slot holding only an open shift and the history only closed ones |
| Shifts.ShiftRegister.constructor | src/contexts/TurnoContext.tsx:28-36 | the slot and the history are as loaded |
| Shifts.ShiftRegister.Open | src/contexts/TurnoContext.tsx:51-65 | the register's state becomes `AfterOpen` |
| Shifts.ShiftRegister.Close | src/contexts/TurnoContext.tsx:67-86 | the register's state becomes `AfterClose` |
| Shifts.ShiftRegister.Update | src/contexts/TurnoContext.tsx:88-96 | the register's state becomes `AfterUpdate` |
| CashControl.ShiftSales | src/components/ControlCajaView.tsx:57-61 | no shift, no sales; otherwise exactly the ledger's sales that fall in the shift |
| CashControl.ExpectedCash | src/components/ControlCajaView.tsx:140 | the opening float plus the shift's sales total, or 0 with no shift |
| CashControl.Discrepancy | src/components/ControlCajaView.tsx:141 | empty field 0; NaN exactly for non-numeric text; otherwise difference + expected = counted |
| CashControl.Classify | src/components/ControlCajaView.tsx:327-340 | exact iff 0, surplus iff > 0 (the difference), shortage iff < 0 (shown as its positive absolute value) |
| CashControl.ClosePreview | src/components/ControlCajaView.tsx:325-341 | hidden exactly when the field is empty; a number shows the classified difference; NaN shows the shortage box |
| CashControl.ExactCountBalances | src/components/ControlCajaView.tsx:141 | counting exactly the expected cash balances; one more or one less is a surplus or shortage of 1 |
| CashControl.ShortBy500 | src/components/ControlCajaView.tsx:140-141 | float 50000, sales 9000, counted 58500: a difference of −500, shown as a shortage of 500 |
| CashControl.OneSaleExpected | src/components/ControlCajaView.tsx:63-140 | a float of 50000 and one sale of 2500 in the shift give 52500 expected |
| CashControl.CashierName | src/components/ControlCajaView.tsx:80 | the user's name, or 'Usuario' when there is no user or the name is empty |
| CashControl.CashDrawer.SetOpeningInput | src/components/ControlCajaView.tsx:260 | the opening-amount field holds exactly what was typed; nothing else changes |
| CashControl.CashDrawer.SetClosingInput | src/components/ControlCajaView.tsx:317 | the closing-amount field holds exactly what was typed; nothing else changes |
| CashControl.CashDrawer.Open | src/components/ControlCajaView.tsx:65-97 | succeeds exactly for a numeric amount; then the register becomes `AfterOpen` with that float and the cashier name, and the field is cleared; otherwise nothing changes |
| CashControl.CashDrawer.Close | src/components/ControlCajaView.tsx:99-138 | succeeds exactly with a current shift and a numeric amount; then the register becomes `AfterClose` with the count and sum of the shift's sales, and the field is cleared; otherwise nothing changes |
| CashControl.CloseRecordMatchesDialog | src/components/ControlCajaView.tsx:112-141 | the appended record holds the number and total of the shift's sales, and its (corrected) history difference equals the difference the close dialog showed |
| CashControl.NewestFirst | src/components/ControlCajaView.tsx:387 | the history table lists the closed shifts in reverse order |
| CashControl.ClosedShiftListedFirst | src/components/ControlCajaView.tsx:387 | after a close the new record heads the table and the earlier rows follow in the same order |
| CashControl.HistoryDifferenceAsWritten | src/components/ControlCajaView.tsx:388-390 | a missing closing amount, or one of 0, shows 0; otherwise closing − (float + sales) |
| CashControl.HistoryDifference | src/components/ControlCajaView.tsx:388-390 | corrected: any recorded closing amount, 0 included, gives difference + float + sales = closing |
| CashControl.HistoryDifferenceDiffers | src/components/ControlCajaView.tsx:388-390 | the two readings differ exactly when the closing amount is 0 and the drawer should have held cash |
| CashControl.EmptyDrawerShownBalanced | src/components/ControlCajaView.tsx:141 | counted 0 after 50000 + 9000: the dialog shows a shortage of 59000, the history as written shows it balanced |
| Auth.FindUser | src/contexts/AuthContext.tsx:58 | the account with that username, or None exactly when there is none |
| Auth.Authenticate | src/contexts/AuthContext.tsx:57-67 | succeeds exactly when the username is an account and its stored password equals the one given; the result is that account |
| Auth.OnlyBuiltInCredentials | src/contexts/AuthContext.tsx:21-40 | exactly admin/admin123 and cajero/cajero123 sign in, each as its own account |
| Auth.HasRole | src/contexts/AuthContext.tsx:74-78 | no user has no role; an admin has every role; a cashier has a role iff it is their own |
| Auth.RolesAreNested | src/contexts/AuthContext.tsx:74-78 | the admin role implies the cashier role; every signed-in user has the cashier role; only admins have the admin role |
| Auth.Session.constructor | src/contexts/AuthContext.tsx:43-55 | the session starts with the stored user, if any |
| Auth.Session.IsAuthenticated | src/contexts/AuthContext.tsx:85 | signed out holds no role at all; signed in holds at least the cashier role |
| Auth.Session.Login | src/contexts/AuthContext.tsx:57-67 | returns true exactly when `Authenticate` succeeds, and then the user is that account; on failure the user is unchanged |
| Auth.Session.Logout | src/contexts/AuthContext.tsx:69-72 | no user afterwards |
| StockAlerts.LowStock | src/components/StockAlerts.tsx:16 | exactly the products with stock ≤ threshold |
| StockAlerts.OutOfStock | src/components/StockAlerts.tsx:17 | exactly the products with stock 0 |
| StockAlerts.LowButAvailable | src/components/StockAlerts.tsx:35-40 | exactly the products with 0 < stock ≤ threshold |
| StockAlerts.AlertsFor | src/components/StockAlerts.tsx:13-21 | nothing exactly when every stock is above the threshold; otherwise the two lists (the card at lines 50-58 and 70-80 uses the same rule) |
| StockAlerts.AlertListsDisjoint | src/components/StockAlerts.tsx:17-35 | no product is in both lists |
| StockAlerts.SoldOutIsLow | src/components/StockAlerts.tsx:16-17 | for a threshold ≥ 0, every sold-out product is low |
| StockAlerts.LowStockSplits | src/components/StockAlerts.tsx:16-35 | for a threshold ≥ 0 and no negative stock, the low list is exactly (as a multiset) the sold-out list plus the low-but-available list |
| StockAlerts.NegativeStockUnlisted | src/components/StockAlerts.tsx:16-40 | a product with negative stock raises an alert but is in neither list |
| StockAlerts.NothingSoldOut | src/components/StockAlerts.tsx:17 | with every product in stock the sold-out list is empty |
| StockAlerts.FreshCatalogAlerts | src/components/StockAlerts.tsx:13-40 | on a first start, with the default threshold of 10, an alert is shown, nothing is sold out and the Muffin (8 left) is listed as low |
| Grouping.Keys | src/components/ReportesView.tsx:72-73 | the keys of the entries, position by position |
| Grouping.KeyTotalOfDistinct | src/components/ReportesView.tsx:66-73 | with distinct keys an entry's amount is everything held under its key |
| Grouping.TotalConcat | src/components/ReportesView.tsx:50 | the total of a concatenation is the sum of the totals |
| Grouping.KeyTotalConcat | src/components/ReportesView.tsx:66-70 | the per-key total of a concatenation adds up |
| Grouping.Accumulate | src/components/ReportesView.tsx:68 | adding an amount under a key, a missing key counting as 0: a new key is appended at the end and an existing one keeps its place; keys stay distinct; the total and per-key totals grow by the amount under that key only |
| Grouping.GroupFrom | src/components/ReportesView.tsx:66-70 | folding pairs into a dictionary keeps keys distinct, has exactly the keys seen, and adds the pairs' total and per-key totals |
| Grouping.Group | src/components/ReportesView.tsx:66-73 | one entry per distinct key, exactly the keys of the pairs, each holding the sum of the pairs under it, same grand total |
| Grouping.KeyLeqTotal | src/components/ReportesView.tsx:74 | the key order compares any two keys |
| Grouping.KeyLeqTransitive | src/components/ReportesView.tsx:74 | the key order is transitive |
| Grouping.KeyLeqAntisymmetric | src/components/ReportesView.tsx:74 | keys ordered both ways are equal |
| Grouping.OrdersArePreorders | src/components/ReportesView.tsx:74-88 | by key and by descending amount are total preorders |
| Grouping.Insert | src/components/ReportesView.tsx:74 | one insertion step: a permutation of x :: s with the same keys, total and per-key totals (its placement among ties is `InsertTies`) |
| Grouping.InsertSorted | src/components/ReportesView.tsx:74 | inserting into a sorted list keeps it sorted |
| Grouping.InsertKeepsDistinct | src/components/ReportesView.tsx:74 | inserting an entry with a new key keeps keys distinct |
| Grouping.Sort | src/components/ReportesView.tsx:74-88 | `sort` is a permutation with the same keys, total and per-key totals |
| Grouping.SortIsSorted | src/components/ReportesView.tsx:74-88 | for a total preorder the result is sorted, and distinct keys stay distinct |
| Grouping.Ties | src/components/ReportesView.tsx:74-88 | exactly the entries that compare equal to a given one |
| Grouping.InsertTies | src/components/ReportesView.tsx:74-88 | an inserted entry goes ahead of every entry it ties with, and the other ties keep their order |
| Grouping.SortIsStable | src/components/ReportesView.tsx:74-88 | the sort is stable: the entries that tie with any given entry come out in the order they went in |
| Reports.PeriodSales | src/components/ReportesView.tsx:20-45 | 'todo', and a custom period with an empty bound, return the ledger; otherwise exactly the sales in the period |
| Reports.Statistics | src/components/ReportesView.tsx:48-62 | count = number of sales, revenue = sum of totals, average 0 without sales and otherwise average × count = revenue, items sold = sum of all line quantities = the total the product ranking counts |
| Reports.LineQuantities | src/components/ReportesView.tsx:53 | Σ quantity over a sale's lines, never negative when no quantity is |
| Reports.ItemsSold | src/components/ReportesView.tsx:52-54 | Σ over the sales of their line quantities: 0 for no sales, never negative when no quantity is |
| Reports.SnapshotRevenueIsRevenue | src/components/ReportesView.tsx:98 | for consistent sales, summing quantity × frozen price over all lines gives the revenue |
| Reports.LineEntriesTotal | src/components/ReportesView.tsx:79-101 | the per-line contributions add up to the items sold (by product) or to the sum of frozen lines (by category) |
| Reports.SaleEntriesTotal | src/components/ReportesView.tsx:66-112 | the per-sale contributions, by date or by method, add up to the revenue |
| Reports.SaleEntriesKeys | src/components/ReportesView.tsx:67-110 | their keys are exactly the sales' dates, or their methods |
| Reports.SalesByDay | src/components/ReportesView.tsx:65-75 | one entry per distinct date with sales and no other, sorted by date, each holding that date's revenue, adding up to the revenue |
| Reports.TopProducts | src/components/ReportesView.tsx:78-90 | at most five entries, each an entry of the per-product dictionary (so only products actually sold), all of them when there are five or fewer; in non-increasing quantity, distinct names, each holding everything sold under its name; no product left out sold more than one kept |
| Reports.CategoryOf | src/components/ReportesView.tsx:96-97 | the category of the first product with the name, or 'Sin categoría' when there is none or it is empty |
| Reports.SalesByCategory | src/components/ReportesView.tsx:93-105 | one entry per category label, each holding Σ quantity × frozen price of its lines; for a consistent ledger they add up to the revenue |
| Reports.SalesByMethod | src/components/ReportesView.tsx:108-116 | one entry per payment method used, each holding its revenue, adding up to the revenue |
| Reports.DetailRevenue | src/components/ReportesView.tsx:333-334 | units × the product's current catalog price, or 0 when no product has the name |
| Reports.DetailUsesCurrentPrice | src/components/ReportesView.tsx:333-334 | 3 units sold at 2000 after a price change to 2500 report 7500, though the sale took 6000 |
| SalesHistory.DateFiltered | src/components/HistorialView.tsx:15-17 | an empty filter keeps the ledger; a date keeps exactly the sales of that date |
| SalesHistory.Listed | src/components/HistorialView.tsx:95-104 | the "no sales" notice exactly when the ledger is empty, otherwise the filtered list |
| SalesHistory.SummaryOf | src/components/HistorialView.tsx:19-20 | the panel's figures for a list: its count, the sum of its totals, and an average that is 0 with no sales and otherwise satisfies average × count = total |
| SalesHistory.Summarize | src/components/HistorialView.tsx:15-20 | the figures of the date-filtered list; with no filter they are the reports screen's revenue and count |
| SalesHistory.DateRevenueIsKeyTotal | src/components/HistorialView.tsx:16-19 | the revenue of one date's sales is what the per-day dictionary holds under that date |
| SalesHistory.HistoryMatchesDailyReport | src/components/HistorialView.tsx:15-19 | for a date with sales, the history total equals the reports screen's per-day entry for that date |
| SalesHistory.DetailLinesAddUp | src/components/HistorialView.tsx:159-178 | for the sale checkout records from a cart (`NewSale`), there is one detail line per cart line, each detail line (price × quantity) equals its cart line's subtotal, and the detail lines add up to the total shown |

## Left out

- Browser storage: loading and saving the catalog, ledger, shift slots and session. The loaded values are constructor parameters; a JSON parse failure is treated as "nothing stored".
- Clock: the ids from `Date.now()` and the date/time strings built from `new Date()` are parameters.
- Date parsing and comparison: these decide whether a sale falls in the open shift (src/components/ControlCajaView.tsx:57-61) or in a report period (src/components/ReportesView.tsx:23-41). Both are predicate parameters (`inShift`, `inPeriod`).
- Text parsing: `Number(...)` is modelled only by its outcome (`AmountInput`). Fractional amounts and values like "1e3" or " 5 " are not distinguished from other numbers or from NaN beyond that.
- Floating point: prices, amounts and stock are integers. The averages are exact rationals (`real`), not rounded for display.
- The product search box (`toLowerCase`/`includes`, src/components/VentaViewOdoo.tsx:34): it needs Unicode case mapping. Only the category half of the filter is modelled.
- Rendering, toasts, dialogs, charts, `alert()`, the view toggle, receipt printing (PrintReceipt.tsx) and the management form's parsing (GestionView.tsx).
- Grouping.Group: keys are kept in first-insertion order, and a new key starts at 0. Each dictionary is built from `{}`, an ordinary object, so in the application `Object.entries` lists integer-like keys (such as a category named "1") first, in numeric order; `__proto__` is treated specially; and a product, category or payment method named "constructor", "toString", "valueOf" or another inherited member reads an inherited function in `acc[key] || 0`, so its entry becomes a string concatenation. None of these is modelled.
- Grouping.KeyLeq: `localeCompare` is modelled as plain lexicographic order on characters, which agrees with it on ISO dates (the only keys it sorts) but not on accented or mixed-case text in general.
- Reports.TopProducts: ties in quantity keep their insertion order (Grouping.SortIsStable proves it for the sort), but the contract does not say which tied product makes the cut of five.
- SimpleSale: the basic screen's menu products have no stock field; the model gives them 0, which that screen never reads. That the menu's category buttons are 'todas' plus its three categories is not proved.
- Checkout.PreviewMatchesChange: not stated for a negative cart total with an empty tender field, where the preview shows 0 but the change is −total.
- Shifts: the cash-control screen keeps its own copy of the shift slots read from the same storage as the shift context; the model lets both act on one `ShiftRegister`, so the two copies cannot drift apart as they can in the application.

## Findings

| source | as written | input that shows it | evidently intended | confidence | as-written member | corrected member |
|---|---|---|---|---|---|---|
| src/components/ControlCajaView.tsx:388-390 | `turno.montoCierre ? montoCierre − (montoApertura + totalVentas) : 0` treats a recorded closing amount of 0 as missing | a shift opened with 50000, 9000 of sales, closed with 0 counted: the close dialog (line 141) showed a shortage of 59000, the history row shows ✓ (balanced) | the history difference for any recorded closing amount, 0 included, as the dialog computed it | not executed | CashControl.HistoryDifferenceAsWritten (with CashControl.EmptyDrawerShownBalanced) | CashControl.HistoryDifference (with CashControl.CloseRecordMatchesDialog) |
