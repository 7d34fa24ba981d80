# small-pos-system, modelled in Dafny

This project models the core of a small point-of-sale system for a shop that
keeps stock, sells to customers, and records partners' investments. The
modelled parts are:

- the Express routes that create, pay and delete sales
  (`backend/routes/sales.js`), including invoice numbering and the stock
  withdrawal done in the same transaction;
- the inventory routes (`backend/routes/inventory.js`) and the uniqueness
  and foreign-key rules of the MySQL schema (`backend/database/db.js`);
- the WhatsApp invoice message and its delivery choice
  (`backend/services/whatsapp.js`);
- the dashboard aggregates (`backend/routes/dashboard.js`);
- the React pages that build the cart, list and filter inventory, total the
  partner ledger, list partners, and offer returns;
- the light/dark/system theme context.

The database is `Tables.Database`, a class whose map-valued fields are the
`inventory`, `sales` and `sales_items` tables and the two AUTO_INCREMENT
counters. Every route handler is a method on that class's state. Its
`ensures` ties the reply and the new state to a pure specification function
of the old state (`SaleLedger.PlaceOrder`, `InventoryRoutes.AdjustSpec`, …).
Lemmas about those functions state what the routes promise:

- the database stays consistent: SKUs and invoices are unique, and sale
  lines reference existing items;
- failures leave the state untouched;
- deleting a sale restores the stock it took.

Each module corresponds to one source file. Money is an exact `real`, stock
an unbounded `int`. The clock, the saved theme, the system colour scheme and
the WhatsApp API reply are parameters.

## Model

| member | source | states |
|---|---|---|
| Tables.Database.constructor | backend/database/db.js:93-174 | The tables start empty, both AUTO_INCREMENT counters at 1, and the state is consistent |
| InvoiceNumbers.TimeSuffixValue | backend/routes/sales.js:27 | The invoice suffix is all digits and reads back as the timestamp modulo 1,000,000; it has six digits once the timestamp is at least 100000 |
| InvoiceNumbers.PadStart2Value | backend/routes/sales.js:25-26 | Zero-padding a month or day to two characters keeps its numeric value and keeps it all digits |
| InvoiceNumbers.InvoiceCollision | backend/routes/sales.js:22-29 | On one day, two timestamps give the same invoice number exactly when they agree modulo 1,000,000 |
| InvoiceNumbers.InvoiceLayout | backend/routes/sales.js:22-29 | An invoice number is 19 characters: `INV-`, eight digits that read back as year, month and day, `-`, and six digits that read back as the timestamp modulo 1,000,000 |
| InvoiceNumbers.InvoiceNumber | backend/routes/sales.js:22-29 | The invoice number is `INV-`, the date as YYYYMMDD, a dash, and the last six digits of the clock reading (its layout and collisions are the two rows above) |
| SaleLedger.ParseStatus | backend/routes/sales.js:52-58 | Only the three status names are accepted, and each is accepted as its own status |
| SaleLedger.SalesWithStatus | backend/routes/sales.js:52-73 | An unknown status name is rejected; otherwise the result is exactly the sales with that status |
| SaleLedger.StatusFor | backend/routes/sales.js:205-211 | A sale is paid when the paid amount covers the total, partial when something less was paid, and unpaid otherwise; exactly one of the three holds |
| SaleLedger.ClaimsOf | backend/routes/sales.js:145-156 | Each validated cart entry becomes a claim with the same item id and a positive quantity, in order |
| SaleLedger.ValidateCart | backend/routes/sales.js:145-156 | A missing or empty cart is rejected as missing items; a cart is accepted exactly when every entry has an item id and a positive quantity |
| SaleLedger.PriceOne | backend/routes/sales.js:168-192 | A claim is priced exactly when its item exists and has enough stock; the line snapshots the item's name, SKU and sell price with line total price × quantity; otherwise it reports not found or insufficient stock with the stock figures |
| SaleLedger.PriceLines | backend/routes/sales.js:164-200 | The cart is priced exactly when every claim passes on its own; the lines follow the claims one for one; a failure is the first failing claim's error |
| SaleLedger.PriceLinesReserving | backend/routes/sales.js:164-200 | The corrected pricing loop keeps the lines in the claims' order, with the same item ids and quantities |
| SaleLedger.PriceLinesErrPersists | backend/routes/sales.js:164-200 | Once a prefix of the cart fails, the whole cart fails with the same error (the loop stops at the first failure) |
| SaleLedger.PriceLinesReservingErrPersists | backend/routes/sales.js:164-200 | The same first-failure rule for the corrected loop |
| SaleLedger.SubtotalIsCartValue | backend/routes/sales.js:189-202 | The subtotal of the priced lines is the cart's value at the inventory's sell prices |
| SaleLedger.DecrementEffect | backend/routes/sales.js:231-248 | The withdrawal loop keeps the set of items and lowers each item's stock by the total quantity the lines take of it, changing nothing else |
| SaleLedger.RestoreEffect | backend/routes/sales.js:421-425 | The restore loop raises each item's stock by the total quantity the lines took of it, changing nothing else |
| SaleLedger.RestoreUndoesDecrement | backend/routes/sales.js:421-425 | Restoring a sale's lines undoes withdrawing them, exactly |
| SaleLedger.DecrementUntouched | backend/routes/sales.js:231-248 | An item no line names is left as it was |
| SaleLedger.Withdraw | backend/routes/sales.js:246-247 | One line's stock UPDATE: the named item's quantity drops by the line's quantity; an unknown id touches no row |
| SaleLedger.Deposit | backend/routes/sales.js:423-424 | One line's restoring UPDATE: the named item's quantity rises by the line's quantity; an unknown id touches no row |
| SaleLedger.Decrement | backend/routes/sales.js:231-248 | The inventory after the insert loop has withdrawn every line of the sale, in order (its effect is `SaleLedger.DecrementEffect`) |
| SaleLedger.Restore | backend/routes/sales.js:421-425 | The inventory after the delete route has deposited every line back, in order (its effect is `SaleLedger.RestoreEffect`) |
| SaleLedger.ReservingNeverOversells | backend/routes/sales.js:164-248 | With the corrected pricing, no item with non-negative stock is left with negative stock |
| SaleLedger.ReservingAgreesWhenDistinct | backend/routes/sales.js:164-200 | When no item appears twice in the cart, the corrected pricing gives exactly the original result |
| SaleLedger.PriceOneLocal | backend/routes/sales.js:168-192 | Pricing a claim depends only on the inventory row of its own item |
| SaleLedger.DistinctCartNeverOversells | backend/routes/sales.js:164-248 | The original route does not oversell when no item appears twice in the cart |
| SaleLedger.SaleHeader | backend/routes/sales.js:161-228 | The sale header: the subtotal is the lines' sum; tax is the subtotal times the rate percentage (0 when absent); total is subtotal plus tax minus discount; the status follows the paid amount; the invoice comes from the clock; the date defaults to today |
| SaleLedger.Notification | backend/routes/sales.js:267-277 | A WhatsApp link is prepared exactly when the customer gave a phone number, and it carries the invoice message for the sale |
| SaleLedger.Settle | backend/routes/sales.js:213-265 | The commit fails only on an invoice number already in use, and then leaves the state unchanged |
| SaleLedger.PlaceOrder | backend/routes/sales.js:134-288 | A failed sale (validation, pricing or duplicate invoice) rolls back: the state is unchanged |
| SaleLedger.PlaceOrderReserving | backend/routes/sales.js:134-288 | The corrected route also rolls back fully on every failure |
| SaleLedger.DeleteSpec | backend/routes/sales.js:403-434 | Deleting fails exactly when the sale does not exist, and then changes nothing |
| SaleLedger.PaymentSpec | backend/routes/sales.js:361-400 | A missing or negative payment is rejected; an unknown sale gives not found; both leave the state unchanged; otherwise only that sale's paid amount and status change, the status following the new amount against the total |
| SaleLedger.PlaceOrderSucceedsIff | backend/routes/sales.js:134-288 | A sale is created exactly when the cart validates, every claim is priced, and the invoice number is free |
| SaleLedger.PlaceOrderRecordsSale | backend/routes/sales.js:213-265 | A created sale gets the next sale id, which was unused. The sale and its lines are inserted; both counters move as they should. Each line snapshots its claim; the subtotal is the cart's value. Each item's stock drops by what the lines take of it. A notification is prepared exactly when a phone number was given |
| SaleLedger.PlaceOrderHeader | backend/routes/sales.js:189-211 | The stored header is built from the priced lines, and its subtotal is the cart's value at the sell prices |
| SaleLedger.SettleConsistent | backend/routes/sales.js:213-250 | Committing lines that name existing items keeps the database consistent |
| SaleLedger.PlaceOrderConsistent | backend/routes/sales.js:134-288 | Creating a sale, successful or not, keeps unique SKUs and invoices, valid ids and lines that reference existing items |
| SaleLedger.PlaceOrderReservingConsistent | backend/routes/sales.js:134-288 | The corrected route keeps the database consistent too |
| SaleLedger.ReservingLinesExist | backend/routes/sales.js:168-177 | Every line the corrected pricing produces names an existing item |
| SaleLedger.DeleteConsistent | backend/routes/sales.js:403-434 | Deleting a sale keeps the database consistent |
| SaleLedger.PaymentConsistent | backend/routes/sales.js:361-400 | Recording a payment keeps the database consistent |
| SaleLedger.CreateThenDeleteRestores | backend/routes/sales.js:134-288 | Creating a sale and then deleting it restores the whole database except the sale-id counter, stock included |
| SaleLedger.PlaceOrderSettles | backend/routes/sales.js:134-250 | A successful sale is the commit of the lines the pricing loop produced |
| SaleLedger.SettleThenDelete | backend/routes/sales.js:403-434 | Deleting a freshly committed sale restores the state before the commit, except the sale-id counter |
| SaleLedger.TwiceOneValidates | backend/routes/sales.js:145-156 | A cart naming item 1 twice, one unit each time, passes validation as two claims |
| SaleLedger.PriceLinesSnoc | backend/routes/sales.js:164-200 | Pricing one more claim extends the lines, or fails with that claim's error, or keeps the earlier failure |
| SaleLedger.PriceLinesReservingSnoc | backend/routes/sales.js:164-200 | The same step rule for the corrected loop, which checks the new claim against the stock left by the earlier lines |
| SaleLedger.TwiceOnePricesAsWritten | backend/routes/sales.js:164-200 | Against one unit in stock, the original loop prices both one-unit claims on item 1 |
| SaleLedger.TwiceOneWithdrawn | backend/routes/sales.js:231-248 | Withdrawing those two lines leaves item 1 with stock -1 |
| SaleLedger.DuplicateCartOversells | backend/routes/sales.js:164-248 | From a consistent store with one unit of item 1, the original route accepts the duplicate cart and leaves stock -1 |
| SaleLedger.ReservingRejectsDuplicateOversell | backend/routes/sales.js:179-187 | The corrected route rejects the same cart as insufficient stock (0 available, 1 requested) and leaves the store unchanged |
| SaleLedger.CheckCart | backend/routes/sales.js:145-156 | The validation loop returns exactly the cart validation result |
| SaleLedger.PriceLinesStep | backend/routes/sales.js:164-200 | One successful loop pass extends the priced prefix by one line and the running subtotal by its line total |
| SaleLedger.PriceLinesStop | backend/routes/sales.js:173-187 | A failing pass ends the loop with that claim's error as the whole cart's result |
| SaleLedger.ReservingStop | backend/routes/sales.js:173-187 | The same stopping rule for the corrected loop |
| SaleLedger.ReservingStep | backend/routes/sales.js:164-200 | The same step rule for the corrected loop |
| SaleLedger.PriceEntry | backend/routes/sales.js:168-192 | One pass of the pricing loop computes exactly the claim's pricing |
| SaleLedger.PriceCart | backend/routes/sales.js:164-200 | The pricing loop returns the cart's pricing; on success, the running subtotal is the lines' sum and the cart's value |
| SaleLedger.PriceCartReserving | backend/routes/sales.js:164-200 | The corrected loop returns the corrected pricing; on success, the subtotal is the lines' sum and the withdrawals cannot oversell |
| SaleLedger.ReservedLinesNeverOversell | backend/routes/sales.js:164-248 | Lines the corrected loop finished with are the cart's pricing and do not oversell |
| SaleLedger.BuildHeader | backend/routes/sales.js:161-211 | The header computed step by step equals the specified header |
| SaleLedger.Persist | backend/routes/sales.js:213-250 | The insert and withdraw loop commits exactly as the commit specification says |
| SaleLedger.CreateSale | backend/routes/sales.js:134-288 | On a consistent database, the POST handler's reply and new database state are those of the sale-creation specification, and the database stays consistent |
| SaleLedger.CreateSaleReserving | backend/routes/sales.js:134-288 | On a consistent database, the corrected handler's reply and new state are those of the corrected specification, and the database stays consistent |
| SaleLedger.DeleteSale | backend/routes/sales.js:403-434 | On a consistent database, the DELETE handler's reply and new state are those of the delete specification, and the database stays consistent |
| SaleLedger.UpdatePayment | backend/routes/sales.js:361-400 | On a consistent database, the PATCH payment handler's reply and new state are those of the payment specification, and the database stays consistent |
| InventoryRoutes.ParseOperation | backend/routes/inventory.js:199-212 | Exactly `add`, `subtract` and `set` are operations |
| InventoryRoutes.CheckAdjustment | backend/routes/inventory.js:181-194 | An adjustment is rejected exactly when the quantity or operation is missing, the operation is unknown, or the quantity is negative; a missing field is reported as such |
| InventoryRoutes.NewQuantity | backend/routes/inventory.js:199-212 | The quantity each UPDATE writes: old plus n for `add`, `GREATEST(0, old - n)` for `subtract`, n for `set` |
| InventoryRoutes.AdjustSpec | backend/routes/inventory.js:177-224 | Failure changes nothing; a valid adjustment of an unknown item is not found; success sets only that item's quantity, to the old quantity plus n for `add`, the old quantity minus n floored at 0 for `subtract`, and n for `set` |
| InventoryRoutes.SubtractUndoesAdd | backend/routes/inventory.js:199-207 | Subtracting what was added gives back the original stock |
| InventoryRoutes.NewQuantityEffect | backend/routes/inventory.js:199-212 | Add raises stock by the amount; subtract lowers it but floors at 0 and never raises non-negative stock; set replaces it |
| InventoryRoutes.SetIdempotent | backend/routes/inventory.js:208-211 | Setting the same quantity twice is the same as setting it once |
| InventoryRoutes.SubtractNeverNegative | backend/routes/inventory.js:203-207 | A successful subtract leaves that item's stock non-negative and every other item untouched |
| InventoryRoutes.AdjustConsistent | backend/routes/inventory.js:177-224 | Adjusting stock keeps the database consistent |
| InventoryRoutes.AdjustQuantity | backend/routes/inventory.js:177-224 | On a consistent database, the PATCH quantity handler follows the adjustment specification and keeps the database consistent |
| InventoryRoutes.ValidateForm | backend/routes/inventory.js:78-101 | Name, SKU, buy and sell price are required; negative prices, quantity or minimum stock are rejected; an accepted item carries the form's fields, with quantity and minimum stock defaulting to 0 |
| InventoryRoutes.CreateSpec | backend/routes/inventory.js:76-129 | Failure changes nothing; a valid form with a SKU already in use is a duplicate; success inserts the item under the next item id and advances the counter |
| InventoryRoutes.UpdateSpec | backend/routes/inventory.js:132-174 | Failure changes nothing; an unknown id is not found; a SKU used by another item is a duplicate; success replaces only that row |
| InventoryRoutes.DeleteItemSpec | backend/routes/inventory.js:227-241 | An unknown item is not found; an item a sale line references cannot be deleted; both leave the state unchanged; success removes only that row |
| InventoryRoutes.UpdateResetsOmitted | backend/routes/inventory.js:156-157 | An update that omits the quantity or minimum stock sets it to 0 |
| InventoryRoutes.CreateConsistent | backend/routes/inventory.js:76-129 | Creating an item keeps the database consistent |
| InventoryRoutes.UpdateConsistent | backend/routes/inventory.js:132-174 | Updating an item keeps the database consistent |
| InventoryRoutes.DeleteItemConsistent | backend/routes/inventory.js:227-241 | Deleting an item keeps the database consistent, since referenced items are kept |
| InventoryRoutes.CreateItem | backend/routes/inventory.js:76-129 | On a consistent database, the POST handler follows the create specification and keeps the database consistent |
| InventoryRoutes.UpdateItem | backend/routes/inventory.js:132-174 | On a consistent database, the PUT handler follows the update specification and keeps the database consistent |
| InventoryRoutes.DeleteItem | backend/routes/inventory.js:227-241 | On a consistent database, the DELETE handler follows the delete specification and keeps the database consistent |
| WhatsApp.ItemLines | backend/services/whatsapp.js:39-44 | Every sold item contributes exactly two lines |
| WhatsApp.FormatInvoiceMessage | backend/services/whatsapp.js:19-73 | The message built line by line is the specified invoice message |
| WhatsApp.InvoiceMessage | backend/services/whatsapp.js:19-73 | The invoice message, section by section: title and date, the customer when named, the items, the amounts, tax and discount when positive, the balance or paid line, the status and a thank-you |
| WhatsApp.Bullets | backend/services/whatsapp.js:39-44 | One bullet per item, carrying its name, in order |
| WhatsApp.BulletsFollowItems | backend/services/whatsapp.js:39-44 | The item section's bullets are exactly the items' names, in order |
| WhatsApp.MessageBullets | backend/services/whatsapp.js:19-73 | The bullets of the whole message are exactly the sold items' names, in order |
| WhatsApp.OneBalanceLine | backend/services/whatsapp.js:60-67 | The message has exactly one balance line: balance due when the total exceeds the paid amount, change when it is less, fully paid when equal |
| WhatsApp.TaxLineWhenTaxed | backend/services/whatsapp.js:49-51 | The message has a tax line exactly when the tax is positive |
| WhatsApp.DiscountLineWhenDiscounted | backend/services/whatsapp.js:53-55 | The message has a discount line exactly when the discount is positive |
| WhatsApp.CustomerLineWhenNamed | backend/services/whatsapp.js:32-34 | The message has a customer line exactly when a non-empty customer name is given |
| WhatsApp.NormalizePhone | backend/services/whatsapp.js:101-107 | The number is all digits and ends with the digits of the input; `94` is prefixed exactly when those digits are nine long and do not already start with `94` |
| WhatsApp.NormalizePhoneIdempotent | backend/services/whatsapp.js:101-107 | Normalising a normalised number changes nothing |
| WhatsApp.SendInvoiceSimple | backend/services/whatsapp.js:82-126 | A missing phone number fails with "Phone number is required"; otherwise the link carries the normalised number and the invoice message, and a PDF only when one was asked for |
| WhatsApp.SendInvoiceApi | backend/services/whatsapp.js:134-167 | Without an API token the send fails with the token message; with one, it succeeds exactly when the API answers |
| WhatsApp.SendInvoice | backend/services/whatsapp.js:177-183 | The `api` method never yields a link; any other method never uses the API and fails exactly when no phone is given |
| SalesPage.FindEntry | frontend/src/pages/Sales.js:68 | The result is the first cart position holding the item, or none when the item is not in the cart |
| SalesPage.Cart.constructor | frontend/src/pages/Sales.js:28 | The cart starts empty and valid |
| SalesPage.Cart.AddToCart | frontend/src/pages/Sales.js:67-94 | Adding updates the cart and alert as the add rule says; each item stays in the cart once with at least one unit, and the per-item ceiling is kept when the stock shown has not grown past the recorded ceiling |
| SalesPage.Cart.UpdateCartQuantity | frontend/src/pages/Sales.js:96-113 | Changing a quantity updates the cart and alert as the update rule says; each item stays in the cart once with at least one unit, and every quantity stays within its ceiling |
| SalesPage.Cart.RemoveFromCart | frontend/src/pages/Sales.js:115-117 | Removing drops the item's entry and keeps the others in order; each item stays in the cart once with at least one unit, and every quantity stays within its ceiling |
| SalesPage.SetQuantityEffect | frontend/src/pages/Sales.js:108-112 | Setting an item's quantity changes that entry alone |
| SalesPage.AddExistingIncrements | frontend/src/pages/Sales.js:68-79 | Adding an item already in the cart raises its quantity by one while stock allows, and otherwise leaves the cart and raises the stock alert |
| SalesPage.AddNewAppends | frontend/src/pages/Sales.js:80-93 | Adding a new item in stock appends one unit at its sell price, capped at its stock; an out-of-stock item is refused with an alert |
| SalesPage.AfterAdd | frontend/src/pages/Sales.js:67-94 | The cart and alert after adding: an item in the cart gains one unit while below the stock shown, else a stock-limit alert; a new item is appended with one unit at its sell price and the stock as its ceiling, else an out-of-stock alert |
| SalesPage.AddKeepsInvariant | frontend/src/pages/Sales.js:67-94 | Adding keeps each item once in the cart with at least one unit; it keeps every quantity within its ceiling when the stock shown for an item already in the cart has not grown past the recorded ceiling |
| SalesPage.RemoveKeepsOthers | frontend/src/pages/Sales.js:115-117 | Removal keeps exactly the other entries, in order |
| SalesPage.Removed | frontend/src/pages/Sales.js:115-117 | The cart without the entries for the removed item id, others in order |
| SalesPage.SubsequenceKeepsInvariant | frontend/src/pages/Sales.js:115-117 | Dropping entries keeps the cart invariant |
| SalesPage.UpdateEffect | frontend/src/pages/Sales.js:96-113 | A quantity of 0 or less removes the item; a quantity over the cap raises an alert and changes nothing; any other quantity replaces that entry's |
| SalesPage.AfterUpdate | frontend/src/pages/Sales.js:96-113 | The cart and alert after a quantity change: 0 or less removes the entry, more than the ceiling gives a stock-limit alert, anything else replaces the quantity |
| SalesPage.UpdateKeepsInvariant | frontend/src/pages/Sales.js:96-113 | Updating keeps the cart invariant |
| SalesPage.CalculateTotals | frontend/src/pages/Sales.js:119-129 | The page's subtotal is the sum of unit price × quantity over the cart |
| SalesPage.EntriesOf | frontend/src/pages/Sales.js:139-140 | The request's items are the cart's entries, one for one |
| SalesPage.CreateRequest | frontend/src/pages/Sales.js:131-146 | An empty cart sends nothing; otherwise the request carries the cart's items and no date |
| SalesPage.CartRequestValidates | frontend/src/pages/Sales.js:131-146 | A valid cart's request passes the server's validation, with no item twice |
| SalesPage.CartSubtotalIsCartValue | frontend/src/pages/Sales.js:120 | When the cart's prices are the inventory's sell prices, the page's subtotal is the server's cart value |
| SalesPage.ServerSubtotalIsCartSubtotal | frontend/src/pages/Sales.js:119-122 | The sale the server stores for the page's cart has the page's subtotal |
| SalesPage.TotalsAgreeWithServer | frontend/src/pages/Sales.js:119-122 | The subtotal, tax and total the page shows are those the server stores |
| SalesPage.HeaderAgreesWithPage | frontend/src/pages/Sales.js:119-122 | A header with the page's tax rate and discount, over lines worth the cart's subtotal, carries the page's three totals |
| SalesPage.CartOrderNeverOversells | frontend/src/pages/Sales.js:67-94 | A sale placed from the page's cart never drives stock negative, because the cart holds each item once |
| SalesPage.FilteredSalesMembers | frontend/src/pages/Sales.js:204-210 | A sale is listed exactly when it matches the search and the status filter; order is kept |
| SalesPage.FilteredSales | frontend/src/pages/Sales.js:204-210 | The sales list shown: the rows that match the search and the status filter, in list order |
| SalesPage.NoFilterShowsAll | frontend/src/pages/Sales.js:204-210 | With no search term and the `all` filter, every sale is listed |
| InventoryPage.BadgeFor | frontend/src/pages/Inventory.js:232-240 | An item is out of stock at 0, low stock at or under its threshold, and in stock above it; exactly one applies |
| InventoryPage.StockListsFollowBadges | frontend/src/pages/Inventory.js:220-226 | The low-stock list holds the positive-stock items badged low; the out-of-stock list holds the items badged out; no item is on both |
| InventoryPage.LowFilterIncludesEmpty | frontend/src/pages/Inventory.js:197-199 | The `low` stock filter also shows the out-of-stock items |
| InventoryPage.OutAndInPartition | frontend/src/pages/Inventory.js:197-200 | The `out` and `in` filters never share a row, and together they show every row whose stock is not negative |
| InventoryPage.Threshold | frontend/src/pages/Inventory.js:198 | An item's low-stock threshold is its minimum stock, or 5 when that is zero |
| InventoryPage.LowStockItems | frontend/src/pages/Inventory.js:220-222 | The items at or under their threshold that still have stock, in inventory order |
| InventoryPage.OutOfStockItems | frontend/src/pages/Inventory.js:224-226 | The items whose quantity is 0, in inventory order |
| InventoryPage.FilteredInventory | frontend/src/pages/Inventory.js:188-202 | The rows the list shows before sorting: those matching the search, the category and the stock filter |
| InventoryPage.TotalValue | frontend/src/pages/Inventory.js:228-230 | The stock value: quantity times buying price, summed over the inventory |
| InventoryPage.TotalValueNonNegative | frontend/src/pages/Inventory.js:228-230 | With non-negative stock and prices, the stock value is non-negative |
| InventoryPage.TotalValueAppend | frontend/src/pages/Inventory.js:228-230 | The stock value of two lists together is the sum of their values |
| InventoryPage.UniqueCategories | frontend/src/pages/Inventory.js:183-186 | The category list holds no duplicates |
| InventoryPage.UniqueCategoriesMembers | frontend/src/pages/Inventory.js:183-186 | The category list holds exactly the non-empty categories in use |
| InventoryPage.AllToggled | frontend/src/pages/Inventory.js:149-155 | Select-all clears the selection when as many ids are selected as rows are shown (a length comparison, not a check of which ids), and otherwise selects the shown items' ids in order |
| InventoryPage.ToggleMembers | frontend/src/pages/Inventory.js:141-147 | Toggling an id adds it when absent and removes it when present, keeping the selection free of duplicates |
| InventoryPage.ToggleTwice | frontend/src/pages/Inventory.js:141-147 | Toggling an absent id twice restores the selection; a present id returns at the end |
| InventoryPage.Toggled | frontend/src/pages/Inventory.js:141-147 | Toggling an id removes it when it is selected and appends it otherwise |
| InventoryPage.Sorted | frontend/src/pages/Inventory.js:174-181 | Sorting by the current field flips the order; a new field becomes the sort field, ascending |
| InventoryPage.SortToggles | frontend/src/pages/Inventory.js:174-181 | Sorting by the current field flips the order, and twice restores it; a new field sorts ascending |
| InventoryPage.InventoryView.constructor | frontend/src/pages/Inventory.js:26-28 | The view starts with no selection, sorted by item name ascending |
| InventoryPage.InventoryView.SelectItem | frontend/src/pages/Inventory.js:141-147 | Selecting toggles the id and leaves the sort alone |
| InventoryPage.InventoryView.SelectAll | frontend/src/pages/Inventory.js:149-155 | Select-all applies the select-all rule and leaves the sort alone |
| InventoryPage.InventoryView.Sort | frontend/src/pages/Inventory.js:174-181 | Sorting applies the sort rule and leaves the selection alone |
| InvestmentsPage.CalculateTotals | frontend/src/pages/Investments.js:107-121 | The totals are the invest and withdraw sums |
| InvestmentsPage.TypeTotal | frontend/src/pages/Investments.js:108-114 | The sum of the amounts of the records of one type |
| InvestmentsPage.Signed | frontend/src/pages/Investments.js:116-120 | What one record adds to the net: its amount if invested, minus it if withdrawn, nothing otherwise |
| InvestmentsPage.FilterSumIsCaseSum | frontend/src/pages/Investments.js:108-114 | Filtering by type and summing equals summing with other types counted as zero |
| InvestmentsPage.NetIsSignedSum | frontend/src/pages/Investments.js:116-120 | The net amount is the sum of the signed amounts: invest adds, withdraw subtracts, other types count zero |
| InvestmentsPage.OtherTypesIgnored | frontend/src/pages/Investments.js:107-121 | A record of another type changes no total; an empty ledger totals zero |
| InvestmentsPage.PartnerName | frontend/src/pages/Investments.js:102-105 | The name is the first partner's with that id, or "Unknown Partner" when there is none |
| PartnersPage.PartnerNetIsShareSum | frontend/src/pages/Partners.js:46-55 | A partner's net is the sum of the signed amounts of its own records |
| PartnersPage.PartnerNet | frontend/src/pages/Partners.js:46-55 | A partner's net: the invest total minus the withdraw total over that partner's own records |
| PartnersPage.Share | frontend/src/pages/Partners.js:47-53 | What one record adds to a partner's net: its signed amount when it is that partner's, nothing otherwise |
| PartnersPage.FilteredSignedSum | frontend/src/pages/Partners.js:47-53 | Summing a partner's filtered records equals summing all records with others counted as zero |
| PartnersPage.UnrelatedRecordIgnored | frontend/src/pages/Partners.js:46-55 | Another partner's record, or one of another type, leaves a partner's net unchanged; a partner without records nets zero |
| PartnersPage.PartnersAddUpToLedger | frontend/src/pages/Partners.js:46-55 | When every record belongs to a listed partner, the partners' nets add up to the ledger page's net amount |
| PartnersPage.SharesOverPartners | frontend/src/pages/Partners.js:46-55 | Summed over distinct partners covering all records, the nets are the ledger's signed sum |
| PartnersPage.OneShareMatches | frontend/src/pages/Partners.js:47 | Over distinct partner ids, a record counts once, for its own partner only |
| ReturnsPage.ReturnedSaleIds | frontend/src/pages/Returns.js:59 | The returned sale ids are the returns' sale ids, one for one |
| ReturnsPage.AvailableSalesMembers | frontend/src/pages/Returns.js:58-61 | A sale is offered for return exactly when no return refers to it; order is kept |
| ReturnsPage.AvailableSales | frontend/src/pages/Returns.js:58-61 | The sales no return refers to, in list order |
| ReturnsPage.ReturnRequest | frontend/src/pages/Returns.js:63-69 | The form is sent, unchanged, exactly when a sale and a reason are chosen |
| ReturnsPage.FilteredReturnsMembers | frontend/src/pages/Returns.js:103-110 | A return is listed exactly when a present field contains the search term, ignoring case. Without a list nothing is shown. An empty term shows every return with some field present |
| ReturnsPage.FilteredReturns | frontend/src/pages/Returns.js:103-110 | The returns listed: those with a present field containing the search term, ignoring case, over an empty list when there is none |
| Theme.IndexOf | frontend/src/contexts/ThemeContext.js:80 | The index is the first position holding the mode, or -1 exactly when the mode is absent |
| Theme.InitialMode | frontend/src/contexts/ThemeContext.js:14-21 | A saved mode is kept when it is light, dark or system; otherwise the mode is system |
| Theme.Next | frontend/src/contexts/ThemeContext.js:78-83 | Toggling always yields one of the three modes |
| Theme.ToggleCycle | frontend/src/contexts/ThemeContext.js:78-83 | Toggle goes light → dark → system → light; it always changes the mode, and three toggles restore it |
| Theme.ActualDark | frontend/src/contexts/ThemeContext.js:34-40 | Dark is on in dark mode, off in light mode, and follows the system in system mode |
| Theme.ThemeState.ThemeName | frontend/src/contexts/ThemeContext.js:96 | The theme name is `dark` exactly when dark is on, and `light` otherwise |
| Theme.ThemeState.constructor | frontend/src/contexts/ThemeContext.js:14-28 | The initial mode comes from the saved preference and the dark flag from the mode |
| Theme.ThemeState.Toggle | frontend/src/contexts/ThemeContext.js:78-83 | Toggling moves to the next mode and re-derives the dark flag |
| Theme.ThemeState.SetTheme | frontend/src/contexts/ThemeContext.js:85-89 | An unknown mode is ignored. A known mode is taken; if it differs from the current one, the dark flag is re-derived; otherwise the flag is kept |
| Theme.ThemeState.SystemChanged | frontend/src/contexts/ThemeContext.js:59-76 | A system colour change moves the dark flag only in system mode, and never changes the mode |
| Dashboard.SqlSum | backend/routes/dashboard.js:47-48 | SQL SUM is NULL on no rows and the sum otherwise |
| Dashboard.TallyPartnerTypes | backend/routes/dashboard.js:30-35 | The loop finds the investor and supplier counts among the grouped rows |
| Dashboard.TypeCountFinds | backend/routes/dashboard.js:32-35 | Among rows with distinct types, the count found for a type is that row's count |
| Dashboard.TypeCountAbsent | backend/routes/dashboard.js:30-31 | A type with no row counts zero |
| Dashboard.TypeCount | backend/routes/dashboard.js:28-35 | The investor or supplier count the forEach leaves: the count of the last grouped row of that type, 0 when there is none |
| Dashboard.TallyOneType | backend/routes/dashboard.js:27-35 | When the rows are the GROUP BY of the partners, the tally for a type is the number of partners of that type |
| Dashboard.TallyCountsPartners | backend/routes/dashboard.js:27-35 | The same for any type; investors plus suppliers never exceed the number of partners |
| Dashboard.OverviewInvestments | backend/routes/dashboard.js:38-50 | The net is invested minus withdrawn, and the transaction count is the number of records |
| Dashboard.OverviewMatchesLedgerPage | backend/routes/dashboard.js:38-50 | The dashboard's invested, withdrawn and net figures equal the ledger page's |
| Dashboard.OverviewInventory | backend/routes/dashboard.js:53-70 | The item count is the number of rows; out-of-stock and low-stock counts do not exceed it |
| Dashboard.OutOfStockWithinLowStock | backend/routes/dashboard.js:59-60 | Every out-of-stock item is also counted as low stock |
| Dashboard.OverviewSales | backend/routes/dashboard.js:73-90 | The sale count is the number of rows; paid and unpaid counts together do not exceed it |
| Dashboard.RevenueSplitsByStatus | backend/routes/dashboard.js:76-78 | Revenue is the paid plus the unpaid plus the partial sales' revenue |
| Dashboard.TodaySales | backend/routes/dashboard.js:93-103 | Today's count does not exceed the number of sales |
| Dashboard.AllTodayIsOverall | backend/routes/dashboard.js:93-103 | When every sale is from today, today's figures are the overall ones |
| Dashboard.NewestRows | backend/routes/dashboard.js:119-148 | `ORDER BY created_at DESC LIMIT n` gives exactly min(n, table size) rows, newest first, drawn from the table, and no row left out is newer than any row returned |
| Dashboard.NewestOrdered | backend/routes/dashboard.js:119-148 | The rows a `ORDER BY created_at DESC LIMIT n` query returns are at most n, newest first, and drawn from the table |
| Dashboard.NewestOmitsOlder | backend/routes/dashboard.js:119-148 | The query returns min(n, table size) rows, the whole table when n reaches its size, and leaves out no row newer than one it returns |
| Dashboard.TwoStageNewest | backend/routes/dashboard.js:119-155 | Cutting each table to its newest n rows, then the merged list to its newest n, leaves out no row of either table newer than one it keeps |
| Dashboard.NewestMap | backend/routes/dashboard.js:119-148 | Selecting the activity columns of the newest rows gives the newest activities, since the columns keep `created_at` |
| Dashboard.Newest | backend/routes/dashboard.js:119-148 | `ORDER BY created_at DESC LIMIT n`: the rows sorted newest first, cut to n |
| Dashboard.RecentActivities | backend/routes/dashboard.js:112-159 | The list pushed, sorted and cut is the recent-activities list: exactly min(`limit`, sales + investments) activities, newest first, at most `limit` from each source, each one a sale or an investment of the tables, and no sale or investment left out is newer than one returned |
| Dashboard.RecentList | backend/routes/dashboard.js:112-159 | The route's answer: the newest `limit` sales and investments, merged, sorted newest first and cut to `limit` |
| Dashboard.RecentListShape | backend/routes/dashboard.js:112-159 | The answer is newest first, holds at most `limit` from each source, and every entry is a sale or an investment of the tables |
| Dashboard.RecentCount | backend/routes/dashboard.js:129-153 | The answer holds exactly min(`limit`, sales + investments) activities |
| Dashboard.NewestOfBoth | backend/routes/dashboard.js:112-159 | The merged recent-activities list leaves out no sale or investment newer than one it keeps |
| Dashboard.SourceCounts | backend/routes/dashboard.js:149-153 | Merging two lists and cutting the result keeps each source's count within its list's length |
| Dashboard.FromSources | backend/routes/dashboard.js:116-153 | Every merged activity comes from a sale row or an investment row |
| Dashboard.GroupClause | backend/routes/dashboard.js:166-179 | `month` groups by month, `year` by year, and anything else by day |
| Dashboard.DateClauseIsBounds | backend/routes/dashboard.js:181-193 | A row is admitted exactly when it falls within the given start and end days; the parameters are the given dates, in order |
| Dashboard.DateClause | backend/routes/dashboard.js:181-193 | The WHERE clause: between both dates when both are given, from or until the one given, none otherwise |
| Dashboard.LowStockAlertsSelect | backend/routes/dashboard.js:244-266 | The alerts are exactly the items at or under the threshold, each as often as in the table, in ascending quantity |
| Dashboard.LowStockAlerts | backend/routes/dashboard.js:246-260 | The items at or under the threshold (5 by default), in ascending quantity |

## Left out

- HTTP, sockets, the MySQL driver, axios, `localStorage`, `matchMedia`, toasts and alerts are not modelled as I/O. Stored and system values are parameters; an alert is a returned value.
- PDF generation and URL encoding of the WhatsApp link are not modelled. The link is modelled as the normalised phone number and the message.
- `toFixed`, `toLocaleDateString`, emoji and other number and date text formatting are not modelled. Message lines are a datatype carrying the values.
- Floating point and MySQL `DECIMAL(10,2)` rounding are not modelled: money is an exact `real`. mysql2 returning DECIMAL values as strings, and `parseFloat(x) || 0`, are not modelled either.
- Concurrency and interleaved transactions are not modelled. Each handler runs alone.
- AUTO_INCREMENT gaps left by rolled-back inserts are not modelled. The counter only advances on commit.
- Driver errors and the 500 replies they cause are not modelled, except the duplicate-invoice failure and the item foreign key on delete.
- The clock is a parameter (`SaleLedger.Clock`), so the invoice number and `CURDATE()` are computed from given values.
- The sort comparator of `filteredInventory` (frontend/src/pages/Inventory.js:204-218) is not modelled, only its filter. The sort-state toggle is modelled.
- The dashboard's top-selling items (backend/routes/dashboard.js:216-241) are not modelled.
- The per-period rows of the analytics `GROUP BY` are not modelled. Only the choice of grouping clause and the date bounds are.
- Query-string coercion of `limit` and `threshold` is not modelled. They arrive as optional integers with the route's defaults.
- The order SQL gives rows with equal sort keys is not modelled: equal `created_at` in the recent activities (backend/routes/dashboard.js:128, 144) and equal `quantity` in the low-stock alerts (backend/routes/dashboard.js:258). MySQL leaves that order unspecified; the model breaks ties by table order through a stable sort.
- Lower-casing in the search filters covers ASCII letters only, not Unicode case folding.
- The schema self-repair at start-up (backend/database/db.js) is not modelled. The tables are assumed to exist.
- The print view's back-derivation of a tax rate from stored amounts is not modelled.
- SalesPage.AfterUpdate: updating an id absent from the cart leaves the cart unchanged. The source would throw on the missing entry, which the page never triggers.
- SaleLedger.PaymentSpec: a null `paid_amount` is treated like a missing one and rejected as invalid. The source lets null past its `undefined` check (backend/routes/sales.js:364) and the update then fails at the NOT NULL column, a driver error.
- The inline unit-price edit in the cart (frontend/src/pages/Sales.js:449-462) is not modelled. The server charges the inventory sell price (backend/routes/sales.js:189), so after such an edit the page's totals and the stored totals disagree; `SalesPage.TotalsAgreeWithServer` assumes unedited prices.
- SalesPage.Cart.AddToCart: keeps each quantity within its recorded ceiling only while the stock shown has not grown past that ceiling. `addToCart` compares with the current stock (frontend/src/pages/Sales.js:71), not with the stored ceiling, so a restock can let the cart pass it.
- SaleLedger.SalesWithStatus: returns the set of matching sale ids. The listing's `ORDER BY s.created_at DESC` order and its `item_count` and `items_summary` columns (backend/routes/sales.js:61-71) are not modelled.
- InventoryRoutes.ValidateForm: a null buy or sell price is treated like a missing one and rejected as a missing field. The source tests only `=== undefined` (backend/routes/inventory.js:80), so null passes that check and the insert then fails at the NOT NULL column (backend/database/db.js:99-100), a driver error.
- The corrected sale route recomputes the remaining stock from the lines taken so far, rather than keeping a running copy. This is a modelling choice with the same outcome.

## Findings

The sale route refuses a sale the stock cannot cover: its insufficient-stock
check (backend/routes/sales.js:179-187) rejects an entry that asks for more
than the item holds. But it checks each cart entry against the stock as it
was before the sale, so the same item listed twice can oversell. The model
follows the code in `SaleLedger.PlaceOrder` and `SaleLedger.CreateSale`. The
corrected route is `SaleLedger.PlaceOrderReserving`, with its handler
`SaleLedger.CreateSaleReserving`; the promise is proved for it. The sales
page's cart never lists an item twice, and for such carts both routes give
the same result (`SaleLedger.ReservingAgreesWhenDistinct`).

| source | as written | input that shows it | evidently intended | confidence | as-written member | corrected member |
|---|---|---|---|---|---|---|
| backend/routes/sales.js:164-248 | each cart entry is checked against the stock before the sale, and the withdrawals happen afterwards | item 1 with stock 1; cart `[{item_id: 1, quantity: 1}, {item_id: 1, quantity: 1}]` is accepted and leaves stock -1 | each entry is checked against the stock left by the entries before it, so the cart is rejected as insufficient stock | high, not executed | SaleLedger.DuplicateCartOversells | SaleLedger.ReservingNeverOversells |
