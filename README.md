# Inventory ledger of a hardware store, in Dafny

This project models the inventory ledger of a hardware-store management
application. The application has a back office built on a relational database
(`crud.py`, `models.py`, `schemas.py`) and a point-of-sale web front end
(`streamlit_app.py`). The model covers every operation that moves stock or money:

- recording a sale;
- creating and receiving a supplier purchase order;
- settling a credit sale;
- partial updates of products, suppliers and clients;
- the guarded deletes (a supplier still named by a purchase order is refused at commit);
- the key/value settings;
- the read-only reports: low stock, dashboard and finance indicators,
  realized profit over a date range, and the monthly sales chart;
- the front end's point-of-sale cart and purchase-order draft.

Layout, one module per file:

- `models.dfy` (`Models`): the stored entities and their enums.
  - Nullable columns are `Option`s.
  - Money and quantities are exact `real`s.
  - A record's primary key is the key of the table that holds it.
- `schemas.dfy` (`Schemas`): the request shapes and their field bounds.
  - A partial update's field is a `Patch`: left out (`Unset`), or given, possibly as an explicit null.
- `tables.dfy` (`Tables`): generic table folds.
  - SQL `SUM` is `MapSum` in ascending key order.
  - New ids are the largest id plus one (`NextId`).
- `ledger.dfy` (`Ledger`): every crud operation as a function from a database value `Db` to the new value and the reply.
  - The reply is `NoRecord` for the source's `None`, `Raised` for an exception, or `Returned` with the record.
  - The lemmas beside each function state what the operation guarantees.
- `store.dfy` (`Crud`): the same operations as methods on a `Store` object whose fields are the tables.
  - Each method runs the source's loops in place.
  - Each is proved to reach exactly the state and reply the `Ledger` function gives.
  - Each keeps the store's invariant (`Consistent`).
- `reports.dfy` (`Reports`): the read-only queries, each specified as a fold.
  - It also has lemmas relating each operation to the indicators it moves.
  - The monthly chart is a loop method filling twelve slots.
- `pos.dfy` (`Pos`): the cart and the draft as sequence functions, plus a `Session` object.
  - The `Session` methods are the clicks.
  - Checking out and submitting hand the built request to a `Store`.

Behaviour the model follows because the code does:

- A missing product and a short stock raise the same error in `create_sale`.
- The stock check compares each line with the stock before the sale. Two lines for the same product can together take more than there is, leaving a negative stock (`Ledger.DuplicateLinesOversell`; the cart cannot build such a request, `Pos.CheckoutKeepsStockNonNegative`).
- Receiving an order that is missing or already received returns nothing and changes nothing.
- Settling a sale does not look at its status.
- `update_product` skips null values, so it cannot clear a nullable column.
- `update_supplier` and `update_client` write explicit nulls too.
- Deleting a supplier detaches its purchase orders (models.py:46). Their supplier column is NOT NULL (models.py:115), so the commit fails while an order names the supplier. The model returns that failure as a `Raised` reply that changes nothing.
- Today's profit skips sale lines whose product is gone. The date-range profit counts their purchase price as zero.
- A default status is declared for new sales (models.py:86). `create_sale` never uses it, because a sale request must carry a status (schemas.py:139).
- A sale's status is exactly one of paid or credit, and an order's exactly one of pending or received. These are two-constructor datatypes.

## Model

| member | source | states |
|---|---|---|
| Ledger.UnitPrice | crud.py:124 | the unit price is the promo price when it exists and is positive, otherwise the selling price; it is positive for a valid product |
| Ledger.PricedLines | crud.py:124-131 | one stored line per requested line, with its quantity and product, the parent sale id and the product's unit price in place of the caller's |
| Ledger.SaleMoves | crud.py:133-134 | one stock move per requested line, taking its quantity off its product |
| Ledger.ApplyMovesEffect | crud.py:133-134 | applying moves creates and drops no product, touches nothing but stock, and changes each product's stock by the sum of the moves naming it; the reception loop (crud.py:179-181) uses the same moves |
| Ledger.FirstShortage | crud.py:120-123 | the error label is that of the first line whose product is missing or short ("ID inconnu" for a missing product), and there is none exactly when every line passes |
| Ledger.CreateSaleFailure | crud.py:120-123 | a sale fails exactly when some line names a missing product or asks for more than the stock; the error names the first such line and the store is unchanged |
| Ledger.CreateSaleRecord | crud.py:118-131 | a recorded sale has a fresh id and one line per requested line, priced at the product's unit price whatever the caller sent; its total is the sum of quantity times price over its lines; method, status, client, user and date come from the request |
| Ledger.ChargedTotalReconciles | crud.py:125-131 | the total accumulated by the first loop equals the sum of the stored lines' amounts |
| Ledger.CreateSaleStock | crud.py:130-134 | each product's stock drops by the sum of the quantities of the lines naming it; other products, fields and tables are unchanged |
| Ledger.SaleMovesNetDelta | crud.py:130-134 | a sale's moves take off each product exactly the total quantity its lines ask for |
| Ledger.SoldQuantityDistinct | crud.py:130-134 | when lines name distinct products, a product loses the quantity of the one line naming it, or nothing |
| Ledger.CreateSaleKeepsStockNonNegative | crud.py:120-134 | when the lines name distinct products, no stock goes below zero |
| Ledger.DuplicateLinesOversell | crud.py:120-134 | two lines of 3 for a product with 5 in stock both pass the check and leave the stock at -1 |
| Ledger.CreateSaleIgnoresCallerPrices | crud.py:124-126 | the prices a caller puts in the request have no effect on the outcome |
| Ledger.SameLinesSameShortage | crud.py:120-123 | the stock check reads only the products and quantities of the lines |
| Ledger.SameLinesSameTotal | crud.py:124-125 | the charged total reads only the products and quantities of the lines |
| Ledger.CreatePurchaseOrderEffect | crud.py:158-168 | a new order has a fresh id, is pending, has no reception date, is dated now, and stores one line per requested line; its total cost is the sum of its line costs; only the orders table changes, so no stock moves |
| Ledger.OrderCostReconciles | crud.py:159-165 | the total computed from the request equals the sum of the stored lines' costs |
| Ledger.OrderLines | crud.py:163-165 | one stored line per requested line, with its quantity, purchase price and product, and the parent order id |
| Ledger.ReceivePurchaseOrderEffect | crud.py:176-186 | a missing or received order gives no record and changes nothing; otherwise the order is marked received and dated, and each existing product gains the quantities its lines name, missing products being skipped; nothing else changes |
| Ledger.ReceiveMoves | crud.py:179-181 | one stock move per order line, adding its quantity to its product |
| Ledger.ReceiveMovesNetDelta | crud.py:179-181 | an order's moves add to each product exactly the total quantity its lines name |
| Ledger.ReceiveIdempotent | crud.py:178 | a second reception finds the order received, gives no record and changes nothing |
| Ledger.SettleCreditSaleEffect | crud.py:149-156 | a missing sale gives no record and changes nothing; otherwise status becomes paid and the payment method the given one, whatever the prior status; total, date, client, user and lines are untouched |
| Ledger.SettleTwice | crud.py:149-156 | settling twice equals settling once with the second payment method |
| Ledger.OverwriteLaws | crud.py:47-49 | on a product, an explicit null leaves the column as it was, a given non-null value is written whatever the column held, and applying the same update again changes nothing |
| Ledger.OverwriteNullable | crud.py:47-49 | a nullable column in a product update takes a given non-null value and otherwise keeps its value, so a column holding a value never becomes null |
| Ledger.AssignLaws | crud.py:70-72 | on a supplier or client, an explicit null clears the column, any given value is written whatever the column held, and applying the same update again changes nothing |
| Ledger.UpdateProductEffect | crud.py:43-52 | a missing id gives no record and changes nothing; otherwise each field given a non-null value takes it, every other field (and the sku) keeps its value, and no other product or table changes |
| Ledger.UpdateProductCannotClearPromo | crud.py:48 | a product update can never remove a promo price |
| Ledger.UpdateProductKeepsValid | schemas.py:96-102 | an update within the declared bounds keeps a valid product valid |
| Ledger.UpdateProductIdempotent | crud.py:43-52 | applying the same product update twice equals applying it once |
| Ledger.UpdateSupplierEffect | crud.py:67-75 | a missing id gives no record; a null name is refused by the NOT NULL column; otherwise every given field is written, explicit nulls included, and only those |
| Ledger.UpdateSupplierClears | crud.py:71-72 | a supplier update can clear a nullable field |
| Ledger.UpdateClientEffect | crud.py:99-107 | the same rules as for suppliers, with name and type both NOT NULL |
| Ledger.DeleteSupplierEffect | crud.py:77-84 | deleting succeeds exactly when the supplier exists and neither a product nor a purchase order names it; products are refused with the ValueError, orders by the commit's NOT NULL failure on their supplier column; it removes only that supplier; a refused or missing delete changes nothing |
| Ledger.DeleteSupplierKeepsReferences | crud.py:80-81 | after a delete, every product's supplier reference still resolves |
| Ledger.DeleteSupplierWithOrdersFails | crud.py:82-83 | a supplier named by no product but by a purchase order is not deleted: the commit refuses the order's null supplier and the store is unchanged |
| Ledger.DeleteSupplierKeepsOrderReferences | crud.py:82-83 | after a delete, every purchase order still names an existing supplier |
| Ledger.DeleteClientEffect | crud.py:109-116 | deleting succeeds exactly when the client exists and no sale names it; otherwise nothing changes |
| Ledger.DeleteClientKeepsReferences | crud.py:112-113 | after a delete, every sale's client reference still resolves |
| Ledger.IndexOfKey | crud.py:194 | the lookup finds the row with the key, or reports that none has it |
| Ledger.AsDictUpdate | crud.py:190-196 | with unique keys, overwriting a row's value changes the dictionary at that key alone |
| Ledger.UpsertEffect | crud.py:194-199 | one upsert keeps keys unique and sets exactly that key's value |
| Ledger.UpsertAllEffect | crud.py:193-199 | the loop keeps keys unique, and the dictionary becomes the old one overridden by the entries, a later entry winning |
| Ledger.UpdateSettingsEffect | crud.py:188-201 | update_settings returns get_settings of the new table, in which every given key has its last given value and every other key keeps its value |
| Ledger.CreateSaleConsistent | models.py:101-102 | a sale keeps every stored line pointing at its parent record and setting keys unique |
| Ledger.CreatePurchaseOrderConsistent | models.py:126-127 | creating an order keeps the invariant |
| Ledger.ReceivePurchaseOrderConsistent | crud.py:176-186 | receiving keeps the invariant |
| Ledger.SettleCreditSaleConsistent | crud.py:149-156 | settling keeps the invariant |
| Ledger.UpdateProductConsistent | crud.py:43-52 | a product update keeps the invariant |
| Ledger.UpdateSupplierConsistent | crud.py:67-75 | a supplier update keeps the invariant |
| Ledger.UpdateClientConsistent | crud.py:99-107 | a client update keeps the invariant |
| Ledger.DeletesConsistent | crud.py:77-116 | the deletes keep the invariant |
| Ledger.UpdateSettingsConsistent | models.py:134 | a settings update keeps the keys unique, as the primary key demands |
| Crud.CheckAndPrice | crud.py:119-126 | the first loop finds the same error as `FirstShortage`; when there is none, it accumulates the charged total and the unit price of every line |
| Crud.FirstShortageAt | crud.py:120-123 | when every line before i passes and line i fails, the error is the one naming line i |
| Crud.WriteSaleLines | crud.py:130-134 | the second loop writes exactly the priced lines and applies exactly the sale's stock moves |
| Crud.WriteProductFields | crud.py:47-49 | the setattr loop yields the patched product |
| Crud.Store.constructor | models.py:61-135 | an empty store satisfies the invariant |
| Crud.Store.CreateSale | crud.py:118-137 | the method reaches the state and reply of `Ledger.CreateSale` and keeps the invariant |
| Crud.Store.CreatePurchaseOrder | crud.py:158-168 | the method reaches the state and reply of `Ledger.CreatePurchaseOrder` |
| Crud.Store.ReceivePurchaseOrder | crud.py:176-186 | the method reaches the state and reply of `Ledger.ReceivePurchaseOrder` |
| Crud.Store.SettleCreditSale | crud.py:149-156 | the method reaches the state and reply of `Ledger.SettleCreditSale` |
| Crud.Store.UpdateProduct | crud.py:43-52 | the method reaches the state and reply of `Ledger.UpdateProduct` |
| Crud.Store.UpdateSupplier | crud.py:67-75 | the method reaches the state and reply of `Ledger.UpdateSupplier` |
| Crud.Store.UpdateClient | crud.py:99-107 | the method reaches the state and reply of `Ledger.UpdateClient` |
| Crud.Store.DeleteSupplier | crud.py:77-84 | the method reaches the state and reply of `Ledger.DeleteSupplier`, refusing while a product or a purchase order names the supplier |
| Crud.Store.DeleteClient | crud.py:109-116 | the method reaches the state and reply of `Ledger.DeleteClient` |
| Crud.Store.UpdateSettings | crud.py:192-201 | the method reaches the state and dictionary of `Ledger.UpdateSettings` |
| Reports.LowStock | crud.py:213-214 | the list holds exactly the products whose stock is strictly between zero and the threshold, each with its record, in ascending id order |
| Reports.DefaultLowStock | crud.py:213-214 | called without a threshold, the query lists exactly the products with a stock above 0 and below 10 |
| Reports.LowAmongComplete | crud.py:214 | every low-stock product under the scanned keys is listed |
| Reports.LowAmongRows | crud.py:214 | every listed row is a low-stock product under a scanned key |
| Reports.LowAmongAscending | crud.py:214 | the rows come in key order |
| Reports.ProfitRulesDiffer | crud.py:253-256 | when no sale is dated after today, the date-range profit for today equals today's profit (crud.py:222) plus the revenue of lines whose product is gone |
| Reports.NoOrphanRevenue | crud.py:254 | when every line's product exists, that difference is zero |
| Reports.StockValueAfterMoves | crud.py:208 | stock moves change the stock value by their value at purchase price |
| Reports.SaleMovesValue | crud.py:208 | a sale's moves change the stock value by minus the purchase value of the quantities sold |
| Reports.ReceiveMovesValue | crud.py:208 | an order's moves change the stock value by the purchase value of the quantities received, skipping missing products |
| Reports.CreateSaleDashboard | crud.py:203-211 | a sale recorded today adds its total to today's revenue and one to today's count, and leaves the purchases total alone |
| Reports.TodaySaleAdded | crud.py:206-207 | adding a sale of today under a fresh largest id adds its total to the revenue fold and one to the count |
| Reports.CreateSaleStockValue | crud.py:208 | a recorded sale lowers the stock value by the purchase value of what it sold |
| Reports.ReceiveDashboard | crud.py:203-211 | receiving adds the order's total cost to the purchases total and its lines' purchase value to the stock value; sales figures do not move |
| Reports.CreatePurchaseOrderDashboard | crud.py:210 | a new, pending order moves no dashboard indicator |
| Reports.SettleFinance | crud.py:223-224 | settling a credit sale takes its total off the credits; settling a paid one leaves them unchanged |
| Reports.CreateSaleFinance | crud.py:223-224 | a sale recorded on credit adds its total to the credits; a paid one does not |
| Reports.MonthTotalEmpty | crud.py:229 | a month without sales totals zero |
| Reports.GroupFromSpec | crud.py:228 | every grouped row from a given month on is for a month with sales and holds its total, and every month with sales from then on has its row |
| Reports.GroupFromOrdered | crud.py:228 | the grouped rows from a given month on are for that month or later, in strictly ascending month order, so each month appears once |
| Reports.MonthlyRows | crud.py:228 | the grouped query yields exactly one row for each month with sales, with its total, and no other month; the rows come in ascending month order |
| Reports.SlotValueIsTotal | crud.py:229-231 | writing the rows into zeroed slots leaves a month's total where the month has a row, and zero where it has none |
| Reports.RowsFillSlots | crud.py:229-231 | every month's slot ends up holding that month's total |
| Reports.FillSlots | crud.py:229-232 | the loop leaves twelve slots holding what the rows wrote |
| Reports.MonthlySalesChart | crud.py:227-232 | exactly twelve totals, month m's total of the year at index m - 1, zero for months without sales |
| Pos.FirstLineOf | streamlit_app.py:387 | the search finds the first entry for the product, or reports that none exists |
| Pos.FindCartLine | streamlit_app.py:387 | the search loop returns what `FirstLineOf` specifies |
| Pos.AddToCartEffect | streamlit_app.py:387-392 | a product already in the cart gains one unit while below its stock snapshot, its entry otherwise unchanged, and the entry is left exactly as it was at the cap; a new product gets an entry of one unit appended, at the promo-or-selling price, with the current stock as its cap; no other entry changes |
| Pos.AddToCartTotal | streamlit_app.py:385-406 | each uncapped click raises the displayed total by the product's price |
| Pos.AddToCartKeepsWellFormed | streamlit_app.py:375-392 | for offered products (stock above zero), the cart stays within its caps, each entry has at least one unit, and no product appears twice |
| Pos.WholeStockCaps | streamlit_app.py:389 | with a whole-number stock, an entry never asks for more than the stock |
| Pos.FractionalStockOverfills | streamlit_app.py:389 | with 2.5 in stock, three clicks give an entry of 3 units |
| Pos.SetCartQuantity | streamlit_app.py:404-405 | only the edited entry's quantity changes |
| Pos.SetCartQuantityKeepsWellFormed | streamlit_app.py:404 | a quantity between 1 and the stock keeps the cart well formed |
| Pos.RemoveFromCart | streamlit_app.py:408-409 | exactly entry i is removed, and the others keep their order |
| Pos.RemoveFromCartKeepsWellFormed | streamlit_app.py:409 | removing an entry keeps the cart well formed |
| Pos.SumCart | streamlit_app.py:398-406 | the accumulated total is the sum of price times quantity over the entries |
| Pos.SaleItemsOf | streamlit_app.py:427 | one sale line per entry, carrying its product, quantity and price |
| Pos.CartTotalIsCharged | streamlit_app.py:398-406 | while no price has changed since the products were added, the total shown equals the total create_sale charges (crud.py:124-125) |
| Pos.Checkout | streamlit_app.py:421-427 | an empty cart is refused; so is a credit sale without a client (a client id of 0 counts as none); otherwise the request carries the cart's lines, the client and the method, and is a credit sale exactly when the method is "Crédit" |
| Pos.CheckoutRequestValid | streamlit_app.py:427 | a request from a well-formed cart has positive quantities (schemas.py:117) and distinct products |
| Pos.CheckoutKeepsStockNonNegative | streamlit_app.py:427-429 | a sale checked out from the cart never drives a stock below zero |
| Pos.AddToDraft | streamlit_app.py:321-324 | a product already in the draft is refused with the draft unchanged; otherwise one entry of one unit at the purchase price is appended |
| Pos.DraftHas | streamlit_app.py:321 | the `any` loop tells whether the product has an entry |
| Pos.AddToDraftKeepsWellFormed | streamlit_app.py:321-322 | the draft keeps at most one entry per product, each with at least one unit |
| Pos.SetDraftQuantity | streamlit_app.py:331-332 | only the edited entry's quantity changes |
| Pos.SetDraftQuantityKeepsWellFormed | streamlit_app.py:331 | a quantity of at least 1 keeps the draft well formed |
| Pos.RemoveFromDraft | streamlit_app.py:335-337 | exactly entry i is removed, and the others keep their order |
| Pos.KeepAllBut | streamlit_app.py:335-337 | the keep loop rebuilds the draft without entry i |
| Pos.RemoveFromDraftKeepsWellFormed | streamlit_app.py:337 | removing an entry keeps the draft well formed |
| Pos.SumDraft | streamlit_app.py:328-333 | the accumulated total is the sum of purchase price times quantity over the entries |
| Pos.SubmittedItemsSpec | streamlit_app.py:340 | every entry with a positive quantity is sent, and every line sent is such an entry (membership) |
| Pos.SubmittedItemsOrder | streamlit_app.py:340 | the lines sent are one per entry with a positive quantity, in the draft's order: the positive entry at position j is sent at the position counting the positive entries before it |
| Pos.SubmittedItemsKeepsAll | streamlit_app.py:331-340 | from a well-formed draft every entry is sent, in order |
| Pos.DraftOrderValid | streamlit_app.py:340 | a submitted order always meets the request bounds (positive quantities, schemas.py:156) |
| Pos.DraftTotalIsOrderCost | streamlit_app.py:333-341 | the draft's total is the total cost create_purchase_order computes for the order (crud.py:159) |
| Pos.SubmittedTailCost | streamlit_app.py:333-340 | the cost a draft entry adds to the order equals its subtotal, zero for an entry of no units |
| Pos.Session.constructor | streamlit_app.py:51-53 | a new session has an empty cart, an empty draft and no last sale |
| Pos.Session.AddProduct | streamlit_app.py:385-393 | a click changes the cart as `AddToCart` says, clears the last-sale notice and keeps the session well formed |
| Pos.Session.SetLineQuantity | streamlit_app.py:404-405 | the quantity widget changes the cart as `SetCartQuantity` says |
| Pos.Session.RemoveLine | streamlit_app.py:408-409 | the delete button changes the cart as `RemoveFromCart` says |
| Pos.Session.Finalize | streamlit_app.py:421-433 | a refused checkout changes nothing; otherwise the store reaches the state `Ledger.CreateSale` gives; the cart is emptied and the sale id remembered only when the sale is recorded, and a failed sale keeps the cart |
| Pos.Session.AddToOrder | streamlit_app.py:319-325 | the draft changes as `AddToDraft` says |
| Pos.Session.SetOrderQuantity | streamlit_app.py:331-332 | the draft changes as `SetDraftQuantity` says |
| Pos.Session.RemoveOrderLine | streamlit_app.py:335-337 | the draft changes as `RemoveFromDraft` says |
| Pos.Session.SubmitDraft | streamlit_app.py:339-342 | the store reaches the state `Ledger.CreatePurchaseOrder` gives for the entries with a positive quantity, and the draft is emptied |

## Left out

- Database sessions (add, flush, commit, refresh), queries and the engine. Each crud call is one atomic step on the tables, so concurrent sales of the same product are not modelled.
- A NOT NULL column given an explicit null in `update_supplier` or `update_client`, or the purchase orders detached by `delete_supplier`, fail in the database at commit. Each is modelled as a `Raised` reply that changes nothing; the database's rollback is not modelled.
- New ids are the largest existing id plus one. The database's own id allocation is not part of this model.
- Clocks: `now` (a sale's and an order's server-default date, the reception date) and `today` are parameters. A time of day is an opaque ordered number, and time zones are not modelled.
- Floating point: amounts are exact reals, and the source's float conversions (`float(row.total)`) and rounding are not modelled.
- `update_settings`: the values are strings, so the source's `str(value)` conversion of other types is not modelled. The dictionary argument is a sequence of entries, and a later entry for the same key wins.
- Result order: `get_low_stock_products` has no ORDER BY, and the model returns rows in ascending id order. The grouped monthly query is taken in ascending month order; a month's slot does not depend on that order, because each month appears once.
- Users, password hashing, login and roles: the recording user's id is a parameter of `create_sale`.
- The web front end's rendering is not modelled: widgets, messages, toasts, the invoice download, `st.rerun` and the case-insensitive product search at streamlit_app.py:378. Which products the draft selector offers is not modelled either: products of the selected supplier, with the draft kept when that supplier changes.
- Pos.Session.SetLineQuantity: the source's widget raises an error when an entry already holds more than the whole part of its stock snapshot (possible after `Pos.FractionalStockOverfills`). The model instead requires a quantity within the widget's bounds.
- Pos.Session.Finalize: the source reads the client from a selector, whose "counter sale" option maps to no client. The model takes the selected client id directly.
- Request validation runs before a crud call: `ValidProductUpdate`, `ValidSaleCreate` and `ValidPurchaseOrderCreate` are hypotheses of lemmas, not checks inside the ledger.
