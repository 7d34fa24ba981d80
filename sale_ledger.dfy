/** The sale workflow of backend/routes/sales.js: validating a cart, pricing
    it against the inventory, writing the invoice header and its lines while
    withdrawing stock, recording payments, and deleting a sale while putting
    its stock back. Each route is a method on the shared Database whose new
    state and response are tied to a pure function of the old state. */
module SaleLedger {
  import opened Common
  import opened Tables
  import InvoiceNumbers
  import WhatsApp

  /** One entry of the request's items array; None stands for a missing or
      null property. */
  datatype CartEntry = CartEntry(itemId: Option<int>, quantity: Option<int>)

  /** A validated entry: an item id and a positive quantity. */
  datatype Claim = Claim(itemId: int, quantity: int)

  /** The request body of POST /api/sales; a non-array `items` is None. */
  datatype SaleRequest = SaleRequest(
    items: Option<seq<CartEntry>>,
    customerName: Option<string>,
    customerPhone: Option<string>,
    taxRate: Option<real>,
    discountAmount: Option<real>,
    paidAmount: Option<real>,
    date: Option<string>)

  /** The server clock at the moment of the sale: calendar fields for the
      invoice number, the millisecond reading, and today's ISO date. */
  datatype Clock = Clock(year: nat, month: nat, day: nat, millis: nat, today: string)

  datatype SaleError =
    | MissingItems                  // 400: items absent, not an array, or empty
    | InvalidEntry                  // 400: an entry without item_id or a positive quantity
    | ItemNotFound(itemId: int)     // 404, after rollback
    | InsufficientStock(itemName: string, available: int, requested: int)  // 400, after rollback
    | DuplicateInvoice              // 500: the UNIQUE invoice constraint fails, rollback
    | InvalidStatus                 // 400: status outside paid, unpaid, partial
    | InvalidPayment                // 400: paid_amount missing or negative
    | SaleNotFound                  // 404

  /** The 201 response: the new id, the header, the lines, and the
      notification result when a phone number was given. */
  datatype Receipt = Receipt(id: int, sale: Sale, lines: seq<SaleLine>, whatsapp: Option<WhatsApp.SendResult>)

  datatype PaymentReceipt = PaymentReceipt(paid: real, status: PaymentStatus)

  // ---------------------------------------------------------------------
  // Status names and the payment-status rule
  // ---------------------------------------------------------------------

  function StatusName(s: PaymentStatus): string {
    match s
    case Paid => "paid"
    case Unpaid => "unpaid"
    case Partial => "partial"
  }

  /** The whitelist of GET /status/:status. */
  function ParseStatus(name: string): (r: Option<PaymentStatus>)
    ensures r.Some? ==> StatusName(r.value) == name
    ensures forall s :: name == StatusName(s) ==> r == Some(s)
  {
    if name == "paid" then Some(Paid)
    else if name == "unpaid" then Some(Unpaid)
    else if name == "partial" then Some(Partial)
    else None
  }

  /** GET /status/:status: the ids of the sales with that status. */
  function SalesWithStatus(st: DbState, name: string): (r: Result<set<int>, SaleError>)
    ensures ParseStatus(name).None? <==> r == Err(InvalidStatus)
    ensures r.Ok? ==> forall id :: id in r.value <==> id in st.sales && StatusName(st.sales[id].status) == name
  {
    match ParseStatus(name)
    case None => Err(InvalidStatus)
    case Some(s) => Ok(set id | id in st.sales && st.sales[id].status == s)
  }

  /** Paid when the amount covers the total, partial when something but not
      enough was paid, unpaid otherwise. */
  function StatusFor(paid: real, total: real): (s: PaymentStatus)
    ensures s == Paid <==> paid >= total
    ensures s == Partial <==> paid < total && paid > 0.0
    ensures s == Unpaid <==> paid < total && paid <= 0.0
  {
    if paid >= total then Paid else if paid > 0.0 then Partial else Unpaid
  }

  // ---------------------------------------------------------------------
  // Validation
  // ---------------------------------------------------------------------

  /** !item.item_id || !item.quantity || item.quantity <= 0 rejects the entry. */
  predicate EntryValid(e: CartEntry) {
    e.itemId.Some? && e.itemId.value != 0 && e.quantity.Some? && e.quantity.value > 0
  }

  function ClaimsOf(entries: seq<CartEntry>): (claims: seq<Claim>)
    requires forall k :: 0 <= k < |entries| ==> EntryValid(entries[k])
    ensures |claims| == |entries|
    ensures forall k :: 0 <= k < |entries| ==>
      Some(claims[k].itemId) == entries[k].itemId && Some(claims[k].quantity) == entries[k].quantity
    ensures forall k :: 0 <= k < |claims| ==> claims[k].quantity > 0
  {
    seq(|entries|, k requires 0 <= k < |entries| && EntryValid(entries[k]) => Claim(entries[k].itemId.value, entries[k].quantity.value))
  }

  /** The checks made before the transaction starts. */
  function ValidateCart(items: Option<seq<CartEntry>>): (r: Result<seq<Claim>, SaleError>)
    ensures r == Err(MissingItems) <==> items.None? || |items.value| == 0
    ensures r.Ok? <==> items.Some? && |items.value| > 0 && forall k :: 0 <= k < |items.value| ==> EntryValid(items.value[k])
    ensures r.Ok? ==> r.value == ClaimsOf(items.value)
  {
    if items.None? || |items.value| == 0 then Err(MissingItems)
    else if exists k :: 0 <= k < |items.value| && !EntryValid(items.value[k]) then Err(InvalidEntry)
    else Ok(ClaimsOf(items.value))
  }

  // ---------------------------------------------------------------------
  // Pricing against the inventory
  // ---------------------------------------------------------------------

  /** The sale line a claim produces when its item exists and has enough stock. */
  predicate PricedFrom(inventory: map<int, InventoryItem>, c: Claim, line: SaleLine) {
    && c.itemId in inventory
    && inventory[c.itemId].quantity >= c.quantity
    && line == SaleLine(c.itemId, inventory[c.itemId].name, inventory[c.itemId].sku, c.quantity,
                        inventory[c.itemId].sellPrice, inventory[c.itemId].sellPrice * c.quantity as real)
  }

  /** One pass of the pricing loop: the lookup, the stock check, the snapshot. */
  function PriceOne(inventory: map<int, InventoryItem>, c: Claim): (r: Result<SaleLine, SaleError>)
    ensures r.Ok? <==> c.itemId in inventory && inventory[c.itemId].quantity >= c.quantity
    ensures r.Ok? ==> PricedFrom(inventory, c, r.value)
    ensures c.itemId !in inventory ==> r == Err(ItemNotFound(c.itemId))
    ensures c.itemId in inventory && inventory[c.itemId].quantity < c.quantity ==>
      r == Err(InsufficientStock(inventory[c.itemId].name, inventory[c.itemId].quantity, c.quantity))
  {
    if c.itemId !in inventory then Err(ItemNotFound(c.itemId))
    else
      var item := inventory[c.itemId];
      if item.quantity < c.quantity then Err(InsufficientStock(item.name, item.quantity, c.quantity))
      else Ok(SaleLine(c.itemId, item.name, item.sku, c.quantity, item.sellPrice, item.sellPrice * c.quantity as real))
  }

  /** The pricing loop as written: every claim is checked against the stock
      read before any of the cart was withdrawn; the first failing claim
      decides the error. */
  function PriceLines(inventory: map<int, InventoryItem>, claims: seq<Claim>): (r: Result<seq<SaleLine>, SaleError>)
    ensures r.Ok? <==> forall k :: 0 <= k < |claims| ==> PriceOne(inventory, claims[k]).Ok?
    ensures r.Ok? ==> |r.value| == |claims| && forall k :: 0 <= k < |claims| ==> PricedFrom(inventory, claims[k], r.value[k])
    ensures r.Err? ==> exists k :: 0 <= k < |claims| && PriceOne(inventory, claims[k]) == Err(r.error)
                                   && forall j :: 0 <= j < k ==> PriceOne(inventory, claims[j]).Ok?
  {
    if claims == [] then Ok([])
    else
      var n := |claims| - 1;
      match PriceLines(inventory, claims[..n])
      case Err(e) => Err(e)
      case Ok(lines) =>
        match PriceOne(inventory, claims[n])
        case Err(e) => Err(e)
        case Ok(line) => Ok(lines + [line])
  }

  /** Stock withdrawn by one line: UPDATE inventory SET quantity = quantity - ?
      WHERE id = ?, which touches no row when the id is absent. */
  function Withdraw(inventory: map<int, InventoryItem>, itemId: int, quantity: int): map<int, InventoryItem> {
    if itemId in inventory then inventory[itemId := inventory[itemId].(quantity := inventory[itemId].quantity - quantity)]
    else inventory
  }

  /** UPDATE inventory SET quantity = quantity + ? WHERE id = ? */
  function Deposit(inventory: map<int, InventoryItem>, itemId: int, quantity: int): map<int, InventoryItem> {
    if itemId in inventory then inventory[itemId := inventory[itemId].(quantity := inventory[itemId].quantity + quantity)]
    else inventory
  }

  /** The inventory after the insert loop has withdrawn every line, in order. */
  function Decrement(inventory: map<int, InventoryItem>, lines: seq<SaleLine>): map<int, InventoryItem> {
    if lines == [] then inventory
    else Withdraw(Decrement(inventory, lines[..|lines| - 1]), lines[|lines| - 1].itemId, lines[|lines| - 1].quantity)
  }

  /** The inventory after the delete route's restore loop. */
  function Restore(inventory: map<int, InventoryItem>, lines: seq<SaleLine>): map<int, InventoryItem> {
    if lines == [] then inventory
    else Deposit(Restore(inventory, lines[..|lines| - 1]), lines[|lines| - 1].itemId, lines[|lines| - 1].quantity)
  }

  /** The corrected pricing loop: each claim is checked against the stock
      left after the claims before it. */
  function PriceLinesReserving(inventory: map<int, InventoryItem>, claims: seq<Claim>): (r: Result<seq<SaleLine>, SaleError>)
    ensures r.Ok? ==> |r.value| == |claims|
    ensures r.Ok? ==> forall k :: 0 <= k < |claims| ==> r.value[k].itemId == claims[k].itemId && r.value[k].quantity == claims[k].quantity
  {
    if claims == [] then Ok([])
    else
      var n := |claims| - 1;
      match PriceLinesReserving(inventory, claims[..n])
      case Err(e) => Err(e)
      case Ok(lines) =>
        match PriceOne(Decrement(inventory, lines), claims[n])
        case Err(e) => Err(e)
        case Ok(line) => Ok(lines + [line])
  }

  /** The sum of the line totals (subtotal += lineTotal). */
  function Subtotal(lines: seq<SaleLine>): real {
    Sum(lines, (l: SaleLine) => l.lineTotal)
  }

  /** The quantity the lines take of one item. */
  function Requested(lines: seq<SaleLine>, itemId: int): int {
    if lines == [] then 0
    else Requested(lines[..|lines| - 1], itemId)
         + (if lines[|lines| - 1].itemId == itemId then lines[|lines| - 1].quantity else 0)
  }

  /** The cart's value at the inventory's selling prices. */
  function CartValue(inventory: map<int, InventoryItem>, claims: seq<Claim>): real {
    Sum(claims, (c: Claim) => if c.itemId in inventory then inventory[c.itemId].sellPrice * c.quantity as real else 0.0)
  }

  // ---------------------------------------------------------------------
  // What pricing and stock movements promise
  // ---------------------------------------------------------------------

  /** Once a prefix of the cart fails, the whole cart fails the same way. */
  lemma {:induction false} PriceLinesErrPersists(inventory: map<int, InventoryItem>, claims: seq<Claim>, k: nat)
    requires k <= |claims| && PriceLines(inventory, claims[..k]).Err?
    ensures PriceLines(inventory, claims) == PriceLines(inventory, claims[..k])
    decreases |claims| - k
  {
    if k < |claims| {
      assert claims[..|claims| - 1][..k] == claims[..k];
      PriceLinesErrPersists(inventory, claims[..|claims| - 1], k);
    } else {
      assert claims[..k] == claims;
    }
  }

  lemma {:induction false} PriceLinesReservingErrPersists(inventory: map<int, InventoryItem>, claims: seq<Claim>, k: nat)
    requires k <= |claims| && PriceLinesReserving(inventory, claims[..k]).Err?
    ensures PriceLinesReserving(inventory, claims) == PriceLinesReserving(inventory, claims[..k])
    decreases |claims| - k
  {
    if k < |claims| {
      assert claims[..|claims| - 1][..k] == claims[..k];
      PriceLinesReservingErrPersists(inventory, claims[..|claims| - 1], k);
    } else {
      assert claims[..k] == claims;
    }
  }

  /** The subtotal of a priced cart is its value at the selling prices. */
  lemma {:induction false} SubtotalIsCartValue(inventory: map<int, InventoryItem>, claims: seq<Claim>)
    requires PriceLines(inventory, claims).Ok?
    ensures Subtotal(PriceLines(inventory, claims).value) == CartValue(inventory, claims)
  {
    if claims != [] {
      var n := |claims| - 1;
      var lines := PriceLines(inventory, claims).value;
      SubtotalIsCartValue(inventory, claims[..n]);
      assert lines[..n] == PriceLines(inventory, claims[..n]).value;
      assert PricedFrom(inventory, claims[n], lines[n]);
    }
  }

  /** Withdrawing lines changes only quantities, each by the amount the
      lines take of that item. */
  lemma {:induction false} DecrementEffect(inventory: map<int, InventoryItem>, lines: seq<SaleLine>)
    ensures Decrement(inventory, lines).Keys == inventory.Keys
    ensures forall id :: id in inventory ==>
      Decrement(inventory, lines)[id] == inventory[id].(quantity := inventory[id].quantity - Requested(lines, id))
  {
    if lines != [] {
      DecrementEffect(inventory, lines[..|lines| - 1]);
    }
  }

  lemma {:induction false} RestoreEffect(inventory: map<int, InventoryItem>, lines: seq<SaleLine>)
    ensures Restore(inventory, lines).Keys == inventory.Keys
    ensures forall id :: id in inventory ==>
      Restore(inventory, lines)[id] == inventory[id].(quantity := inventory[id].quantity + Requested(lines, id))
  {
    if lines != [] {
      RestoreEffect(inventory, lines[..|lines| - 1]);
    }
  }

  /** Putting back what a sale withdrew gives back the inventory. */
  lemma RestoreUndoesDecrement(inventory: map<int, InventoryItem>, lines: seq<SaleLine>)
    ensures Restore(Decrement(inventory, lines), lines) == inventory
  {
    DecrementEffect(inventory, lines);
    RestoreEffect(Decrement(inventory, lines), lines);
    var back := Restore(Decrement(inventory, lines), lines);
    assert back.Keys == inventory.Keys;
    forall id | id in inventory
      ensures back[id] == inventory[id]
    {
    }
  }

  /** Lines that never name an item leave its row alone. */
  lemma {:induction false} DecrementUntouched(inventory: map<int, InventoryItem>, lines: seq<SaleLine>, itemId: int)
    requires forall k :: 0 <= k < |lines| ==> lines[k].itemId != itemId
    ensures itemId in Decrement(inventory, lines) <==> itemId in inventory
    ensures itemId in inventory ==> Decrement(inventory, lines)[itemId] == inventory[itemId]
  {
    if lines != [] {
      DecrementUntouched(inventory, lines[..|lines| - 1], itemId);
    }
  }

  predicate DistinctItems(claims: seq<Claim>) {
    forall j, k :: 0 <= j < k < |claims| ==> claims[j].itemId != claims[k].itemId
  }

  /** No item that had non-negative stock is left with negative stock. */
  predicate NoOversell(before: map<int, InventoryItem>, after: map<int, InventoryItem>) {
    && after.Keys == before.Keys
    && forall id :: id in before && before[id].quantity >= 0 ==> after[id].quantity >= 0
  }

  /** The corrected pricing never lets the withdrawals drive stock below zero. */
  lemma {:induction false} ReservingNeverOversells(inventory: map<int, InventoryItem>, claims: seq<Claim>)
    requires PriceLinesReserving(inventory, claims).Ok?
    ensures NoOversell(inventory, Decrement(inventory, PriceLinesReserving(inventory, claims).value))
  {
    if claims != [] {
      var n := |claims| - 1;
      var lines := PriceLinesReserving(inventory, claims).value;
      var prefix := PriceLinesReserving(inventory, claims[..n]).value;
      ReservingNeverOversells(inventory, claims[..n]);
      assert lines == prefix + [lines[n]];
      assert lines[..n] == prefix;
      var before := Decrement(inventory, prefix);
      assert PricedFrom(before, claims[n], lines[n]);
    }
  }

  /** With one entry per item, the corrected pricing and the pricing as
      written agree. */
  lemma {:induction false} ReservingAgreesWhenDistinct(inventory: map<int, InventoryItem>, claims: seq<Claim>)
    requires DistinctItems(claims)
    ensures PriceLinesReserving(inventory, claims) == PriceLines(inventory, claims)
  {
    if claims != [] {
      var n := |claims| - 1;
      assert DistinctItems(claims[..n]) by {
        forall j, k | 0 <= j < k < n
          ensures claims[..n][j].itemId != claims[..n][k].itemId
        {
          assert claims[..n][j] == claims[j] && claims[..n][k] == claims[k];
        }
      }
      ReservingAgreesWhenDistinct(inventory, claims[..n]);
      var pre := PriceLinesReserving(inventory, claims[..n]);
      if pre.Ok? {
        forall k | 0 <= k < |pre.value|
          ensures pre.value[k].itemId != claims[n].itemId
        {
          assert |pre.value| == n;
          assert pre.value[k].itemId == claims[..n][k].itemId;
          assert claims[..n][k] == claims[k];
        }
        DecrementUntouched(inventory, pre.value, claims[n].itemId);
        PriceOneLocal(Decrement(inventory, pre.value), inventory, claims[n]);
      }
    }
  }

  /** Pricing a claim looks only at the row of its item. */
  lemma PriceOneLocal(a: map<int, InventoryItem>, b: map<int, InventoryItem>, c: Claim)
    requires c.itemId in a <==> c.itemId in b
    requires c.itemId in a ==> a[c.itemId] == b[c.itemId]
    ensures PriceOne(a, c) == PriceOne(b, c)
  {
    if c.itemId in a {
      var item := a[c.itemId];
      var q := c.quantity as real;
      assert item.sellPrice * q == b[c.itemId].sellPrice * q;
      if item.quantity >= c.quantity {
        assert PriceOne(a, c).value == PriceOne(b, c).value;
      }
    }
  }

  /** As written, a cart that names each item once never oversells. */
  lemma DistinctCartNeverOversells(inventory: map<int, InventoryItem>, claims: seq<Claim>)
    requires DistinctItems(claims) && PriceLines(inventory, claims).Ok?
    ensures NoOversell(inventory, Decrement(inventory, PriceLines(inventory, claims).value))
  {
    ReservingAgreesWhenDistinct(inventory, claims);
    ReservingNeverOversells(inventory, claims);
  }

  // ---------------------------------------------------------------------
  // The sale header and the committed state
  // ---------------------------------------------------------------------

  /** The header row: totals from the priced lines, tax as a percentage,
      the discount subtracted, the status from the amount paid. */
  function SaleHeader(req: SaleRequest, clock: Clock, lines: seq<SaleLine>): (sale: Sale)
    ensures sale.subtotal == Subtotal(lines)
    ensures sale.totalAmount == sale.subtotal + sale.taxAmount - sale.discountAmount
    ensures sale.taxAmount == sale.subtotal * (req.taxRate.GetOr(0.0) / 100.0)
    ensures sale.discountAmount == req.discountAmount.GetOr(0.0) && sale.paidAmount == req.paidAmount.GetOr(0.0)
    ensures sale.status == StatusFor(sale.paidAmount, sale.totalAmount)
    ensures sale.invoice == InvoiceNumbers.InvoiceNumber(clock.year, clock.month, clock.day, clock.millis)
    ensures sale.date == if Present(req.date) then req.date.value else clock.today
    ensures sale.customerName == req.customerName && sale.customerPhone == req.customerPhone
  {
    var subtotal := Subtotal(lines);
    var tax := subtotal * (req.taxRate.GetOr(0.0) / 100.0);
    var discount := req.discountAmount.GetOr(0.0);
    var paid := req.paidAmount.GetOr(0.0);
    var total := subtotal + tax - discount;
    Sale(InvoiceNumbers.InvoiceNumber(clock.year, clock.month, clock.day, clock.millis),
         if Present(req.date) then req.date.value else clock.today,
         req.customerName, req.customerPhone, subtotal, tax, discount, total, paid, StatusFor(paid, total))
  }

  predicate InvoiceTaken(sales: map<int, Sale>, invoice: string) {
    exists id :: id in sales && sales[id].invoice == invoice
  }

  /** The notification sent after commit: only when a phone number is given,
      by the default link method without a PDF. */
  function Notification(phone: Option<string>, sale: Sale, lines: seq<SaleLine>): (w: Option<WhatsApp.SendResult>)
    ensures w.Some? <==> Present(phone)
    ensures w.Some? ==> w.value.LinkReady? && w.value.message == WhatsApp.InvoiceMessage(sale, lines)
  {
    if Present(phone) then Some(WhatsApp.SendInvoiceSimple(phone, sale, lines, false, None)) else None
  }

  /** Inserting the header, the lines and the withdrawals, then committing;
      a duplicate invoice number rolls everything back. */
  function Settle(st: DbState, req: SaleRequest, clock: Clock, lines: seq<SaleLine>): (out: (Result<Receipt, SaleError>, DbState))
    ensures out.0.Err? ==> out == (Err(DuplicateInvoice), st)
    ensures out.0.Ok? <==> !InvoiceTaken(st.sales, SaleHeader(req, clock, lines).invoice)
  {
    var sale := SaleHeader(req, clock, lines);
    if InvoiceTaken(st.sales, sale.invoice) then (Err(DuplicateInvoice), st)
    else
      var id := st.nextSaleId;
      (Ok(Receipt(id, sale, lines, Notification(req.customerPhone, sale, lines))),
       st.(inventory := Decrement(st.inventory, lines),
           sales := st.sales[id := sale],
           saleLines := st.saleLines[id := lines],
           nextSaleId := id + 1))
  }

  /** POST /api/sales as written. */
  function PlaceOrder(st: DbState, req: SaleRequest, clock: Clock): (out: (Result<Receipt, SaleError>, DbState))
    ensures out.0.Err? ==> out.1 == st
  {
    match ValidateCart(req.items)
    case Err(e) => (Err(e), st)
    case Ok(claims) =>
      match PriceLines(st.inventory, claims)
      case Err(e) => (Err(e), st)
      case Ok(lines) => Settle(st, req, clock, lines)
  }

  /** POST /api/sales with each entry checked against the stock the entries
      before it left. */
  function PlaceOrderReserving(st: DbState, req: SaleRequest, clock: Clock): (out: (Result<Receipt, SaleError>, DbState))
    ensures out.0.Err? ==> out.1 == st
  {
    match ValidateCart(req.items)
    case Err(e) => (Err(e), st)
    case Ok(claims) =>
      match PriceLinesReserving(st.inventory, claims)
      case Err(e) => (Err(e), st)
      case Ok(lines) => Settle(st, req, clock, lines)
  }

  /** DELETE /api/sales/:id: the lines are read first, the header delete
      cascades to them, and each line's quantity goes back to stock. */
  function DeleteSpec(st: DbState, id: int): (out: (Result<(), SaleError>, DbState))
    ensures out.0.Err? <==> id !in st.sales
    ensures out.0.Err? ==> out == (Err(SaleNotFound), st)
  {
    if id !in st.sales then (Err(SaleNotFound), st)
    else
      var lines := if id in st.saleLines then st.saleLines[id] else [];
      (Ok(()), st.(inventory := Restore(st.inventory, lines),
                   sales := st.sales - {id},
                   saleLines := st.saleLines - {id}))
  }

  /** PATCH /api/sales/:id/payment: the amount is validated before the sale
      is looked up; only paid_amount and status change. */
  function PaymentSpec(st: DbState, id: int, paid: Option<real>): (out: (Result<PaymentReceipt, SaleError>, DbState))
    ensures out.0 == Err(InvalidPayment) <==> paid.None? || paid.value < 0.0
    ensures out.0 == Err(SaleNotFound) <==> paid.Some? && paid.value >= 0.0 && id !in st.sales
    ensures out.0.Err? ==> out.1 == st
    ensures out.0.Ok? ==> && out.0.value.status == StatusFor(paid.value, st.sales[id].totalAmount)
                          && out.1 == st.(sales := st.sales[id := st.sales[id].(paidAmount := paid.value, status := out.0.value.status)])
  {
    if paid.None? || paid.value < 0.0 then (Err(InvalidPayment), st)
    else if id !in st.sales then (Err(SaleNotFound), st)
    else
      var status := StatusFor(paid.value, st.sales[id].totalAmount);
      (Ok(PaymentReceipt(paid.value, status)),
       st.(sales := st.sales[id := st.sales[id].(paidAmount := paid.value, status := status)]))
  }

  // ---------------------------------------------------------------------
  // What the routes promise about the store
  // ---------------------------------------------------------------------

  /** A sale is recorded exactly when the cart validates, every entry
      prices, and the invoice number is free. */
  lemma PlaceOrderSucceedsIff(st: DbState, req: SaleRequest, clock: Clock)
    ensures PlaceOrder(st, req, clock).0.Ok? <==>
      && ValidateCart(req.items).Ok?
      && PriceLines(st.inventory, ValidateCart(req.items).value).Ok?
      && !InvoiceTaken(st.sales, SaleHeader(req, clock, PriceLines(st.inventory, ValidateCart(req.items).value).value).invoice)
  {
  }

  /** A recorded sale takes the next id, stores the header and the priced
      lines under it, and withdraws from each item exactly what the lines
      take of it. */
  lemma PlaceOrderRecordsSale(st: DbState, req: SaleRequest, clock: Clock)
    requires Consistent(st)
    requires PlaceOrder(st, req, clock).0.Ok?
    ensures var (r, st') := PlaceOrder(st, req, clock);
      var claims := ValidateCart(req.items).value;
      && r.value.id == st.nextSaleId && r.value.id !in st.sales
      && st'.sales == st.sales[r.value.id := r.value.sale]
      && st'.saleLines == st.saleLines[r.value.id := r.value.lines]
      && st'.nextSaleId == st.nextSaleId + 1 && st'.nextItemId == st.nextItemId
      && |r.value.lines| == |claims|
      && (forall k :: 0 <= k < |claims| ==> PricedFrom(st.inventory, claims[k], r.value.lines[k]))
      && r.value.sale.subtotal == CartValue(st.inventory, claims)
      && st'.inventory.Keys == st.inventory.Keys
      && (forall id :: id in st.inventory ==>
            st'.inventory[id] == st.inventory[id].(quantity := st.inventory[id].quantity - Requested(r.value.lines, id)))
      && (r.value.whatsapp.Some? <==> Present(req.customerPhone))
  {
    var claims := ValidateCart(req.items).value;
    var lines := PlaceOrderSettles(st, req, clock);
    var sale := SaleHeader(req, clock, lines);
    var id := st.nextSaleId;
    assert !InvoiceTaken(st.sales, sale.invoice);
    assert PlaceOrder(st, req, clock).0.value == Receipt(id, sale, lines, Notification(req.customerPhone, sale, lines));
    assert id !in st.sales;
    SubtotalIsCartValue(st.inventory, claims);
    DecrementEffect(st.inventory, lines);
  }

  /** The header of a recorded sale carries the cart's value at the
      inventory's selling prices as its subtotal. */
  lemma PlaceOrderHeader(st: DbState, req: SaleRequest, clock: Clock)
    requires PlaceOrder(st, req, clock).0.Ok?
    ensures var claims := ValidateCart(req.items).value;
      var lines := PriceLines(st.inventory, claims).value;
      && PlaceOrder(st, req, clock).0.value.sale == SaleHeader(req, clock, lines)
      && SaleHeader(req, clock, lines).subtotal == CartValue(st.inventory, claims)
  {
    SubtotalIsCartValue(st.inventory, ValidateCart(req.items).value);
  }

  /** Recording a sale keeps the schema's keys and constraints. */
  lemma SettleConsistent(st: DbState, req: SaleRequest, clock: Clock, lines: seq<SaleLine>)
    requires Consistent(st)
    requires forall k :: 0 <= k < |lines| ==> lines[k].itemId in st.inventory
    ensures Consistent(Settle(st, req, clock, lines).1)
  {
    var (r, st') := Settle(st, req, clock, lines);
    if r.Ok? {
      DecrementEffect(st.inventory, lines);
      var id := st.nextSaleId;
      assert SkusUnique(st'.inventory) by {
        forall a, b | a in st'.inventory && b in st'.inventory && st'.inventory[a].sku == st'.inventory[b].sku
          ensures a == b
        {
          assert st.inventory[a].sku == st'.inventory[a].sku && st.inventory[b].sku == st'.inventory[b].sku;
        }
      }
      assert InvoicesUnique(st'.sales) by {
        forall a, b | a in st'.sales && b in st'.sales && st'.sales[a].invoice == st'.sales[b].invoice
          ensures a == b
        {
          if a != id && b != id {
            assert st.sales[a].invoice == st.sales[b].invoice;
          }
        }
      }
      assert LinesReferenceInventory(st'.saleLines, st'.inventory) by {
        forall sid, k | sid in st'.saleLines && 0 <= k < |st'.saleLines[sid]|
          ensures st'.saleLines[sid][k].itemId in st'.inventory
        {
          if sid != id {
            assert st'.saleLines[sid] == st.saleLines[sid];
          }
        }
      }
    }
  }

  lemma PlaceOrderConsistent(st: DbState, req: SaleRequest, clock: Clock)
    requires Consistent(st)
    ensures Consistent(PlaceOrder(st, req, clock).1)
  {
    var v := ValidateCart(req.items);
    if v.Ok? && PriceLines(st.inventory, v.value).Ok? {
      var lines := PriceLines(st.inventory, v.value).value;
      forall k | 0 <= k < |lines|
        ensures lines[k].itemId in st.inventory
      {
        assert PricedFrom(st.inventory, v.value[k], lines[k]);
      }
      SettleConsistent(st, req, clock, lines);
    }
  }

  lemma PlaceOrderReservingConsistent(st: DbState, req: SaleRequest, clock: Clock)
    requires Consistent(st)
    ensures Consistent(PlaceOrderReserving(st, req, clock).1)
  {
    var v := ValidateCart(req.items);
    if v.Ok? && PriceLinesReserving(st.inventory, v.value).Ok? {
      var lines := PriceLinesReserving(st.inventory, v.value).value;
      ReservingLinesExist(st.inventory, v.value);
      SettleConsistent(st, req, clock, lines);
    }
  }

  /** The corrected pricing only produces lines for items that exist. */
  lemma {:induction false} ReservingLinesExist(inventory: map<int, InventoryItem>, claims: seq<Claim>)
    requires PriceLinesReserving(inventory, claims).Ok?
    ensures var lines := PriceLinesReserving(inventory, claims).value;
      forall k :: 0 <= k < |lines| ==> lines[k].itemId in inventory
  {
    if claims != [] {
      var n := |claims| - 1;
      var lines := PriceLinesReserving(inventory, claims).value;
      var prefix := PriceLinesReserving(inventory, claims[..n]).value;
      ReservingLinesExist(inventory, claims[..n]);
      assert lines == prefix + [lines[n]];
      DecrementEffect(inventory, prefix);
      assert PricedFrom(Decrement(inventory, prefix), claims[n], lines[n]);
    }
  }

  /** Deleting a sale keeps the schema's keys and constraints. */
  lemma DeleteConsistent(st: DbState, id: int)
    requires Consistent(st)
    ensures Consistent(DeleteSpec(st, id).1)
  {
    if id in st.sales {
      var st' := DeleteSpec(st, id).1;
      RestoreEffect(st.inventory, st.saleLines[id]);
      assert SkusUnique(st'.inventory) by {
        forall a, b | a in st'.inventory && b in st'.inventory && st'.inventory[a].sku == st'.inventory[b].sku
          ensures a == b
        {
          assert st.inventory[a].sku == st'.inventory[a].sku && st.inventory[b].sku == st'.inventory[b].sku;
        }
      }
      assert LinesReferenceInventory(st'.saleLines, st'.inventory) by {
        forall sid, k | sid in st'.saleLines && 0 <= k < |st'.saleLines[sid]|
          ensures st'.saleLines[sid][k].itemId in st'.inventory
        {
          assert st'.saleLines[sid] == st.saleLines[sid];
        }
      }
    }
  }

  /** Recording a payment keeps the schema's keys and constraints. */
  lemma PaymentConsistent(st: DbState, id: int, paid: Option<real>)
    requires Consistent(st)
    ensures Consistent(PaymentSpec(st, id, paid).1)
  {
    var st' := PaymentSpec(st, id, paid).1;
    assert InvoicesUnique(st'.sales) by {
      forall a, b | a in st'.sales && b in st'.sales && st'.sales[a].invoice == st'.sales[b].invoice
        ensures a == b
      {
        assert st.sales[a].invoice == st'.sales[a].invoice && st.sales[b].invoice == st'.sales[b].invoice;
      }
    }
  }

  /** Deleting a sale right after recording it gives back the inventory, the
      sales and the lines as they were; only the id counter has moved on. */
  lemma CreateThenDeleteRestores(st: DbState, req: SaleRequest, clock: Clock)
    requires Consistent(st)
    requires PlaceOrder(st, req, clock).0.Ok?
    ensures var (r, st') := PlaceOrder(st, req, clock);
      DeleteSpec(st', r.value.id) == (Ok(()), st.(nextSaleId := st.nextSaleId + 1))
  {
    var lines := PlaceOrderSettles(st, req, clock);
    SettleThenDelete(st, req, clock, lines);
  }

  /** A recorded sale is the settlement of the priced cart. */
  lemma PlaceOrderSettles(st: DbState, req: SaleRequest, clock: Clock) returns (lines: seq<SaleLine>)
    requires PlaceOrder(st, req, clock).0.Ok?
    ensures ValidateCart(req.items).Ok? && PriceLines(st.inventory, ValidateCart(req.items).value) == Ok(lines)
    ensures PlaceOrder(st, req, clock) == Settle(st, req, clock, lines)
  {
    lines := PriceLines(st.inventory, ValidateCart(req.items).value).value;
  }

  lemma SettleThenDelete(st: DbState, req: SaleRequest, clock: Clock, lines: seq<SaleLine>)
    requires Consistent(st)
    requires Settle(st, req, clock, lines).0.Ok?
    ensures var (r, st') := Settle(st, req, clock, lines);
      DeleteSpec(st', r.value.id) == (Ok(()), st.(nextSaleId := st.nextSaleId + 1))
  {
    var (r, st') := Settle(st, req, clock, lines);
    var id := st.nextSaleId;
    assert r.value.id == id && id !in st.sales;
    RestoreUndoesDecrement(st.inventory, lines);
    assert st'.sales - {id} == st.sales;
    assert st'.saleLines - {id} == st.saleLines;
  }

  // ---------------------------------------------------------------------
  // The duplicate-entry oversell
  // ---------------------------------------------------------------------

  /** The store of the counterexample: one unit of one item. */
  function OneUnitStore(): DbState {
    DbState(map[1 := InventoryItem("Cable", "CBL-1", None, None, 1.0, 2.0, 1, 0, None, None)], map[], map[], 2, 1)
  }

  /** A cart naming item 1 twice, one unit each time. */
  function TwiceOneRequest(): SaleRequest {
    SaleRequest(Some([CartEntry(Some(1), Some(1)), CartEntry(Some(1), Some(1))]), None, None, None, None, None, None)
  }

  lemma TwiceOneValidates()
    ensures ValidateCart(TwiceOneRequest().items) == Ok([Claim(1, 1), Claim(1, 1)])
  {
    var entries := TwiceOneRequest().items.value;
    assert EntryValid(entries[0]) && EntryValid(entries[1]);
    assert forall k :: 0 <= k < |entries| ==> EntryValid(entries[k]);
    var claims := ClaimsOf(entries);
    assert claims[0] == Claim(1, 1) && claims[1] == Claim(1, 1);
    assert claims == [Claim(1, 1), Claim(1, 1)];
  }

  lemma PriceLinesSnoc(inventory: map<int, InventoryItem>, claims: seq<Claim>, c: Claim)
    ensures PriceLines(inventory, claims).Err? ==> PriceLines(inventory, claims + [c]) == PriceLines(inventory, claims)
    ensures PriceLines(inventory, claims).Ok? && PriceOne(inventory, c).Err? ==>
      PriceLines(inventory, claims + [c]) == Err(PriceOne(inventory, c).error)
    ensures PriceLines(inventory, claims).Ok? && PriceOne(inventory, c).Ok? ==>
      PriceLines(inventory, claims + [c]) == Ok(PriceLines(inventory, claims).value + [PriceOne(inventory, c).value])
  {
    assert (claims + [c])[..|claims|] == claims;
  }

  lemma PriceLinesReservingSnoc(inventory: map<int, InventoryItem>, claims: seq<Claim>, c: Claim)
    ensures PriceLinesReserving(inventory, claims).Err? ==>
      PriceLinesReserving(inventory, claims + [c]) == PriceLinesReserving(inventory, claims)
    ensures var r := PriceLinesReserving(inventory, claims);
      r.Ok? && PriceOne(Decrement(inventory, r.value), c).Err? ==>
      PriceLinesReserving(inventory, claims + [c]) == Err(PriceOne(Decrement(inventory, r.value), c).error)
    ensures var r := PriceLinesReserving(inventory, claims);
      r.Ok? && PriceOne(Decrement(inventory, r.value), c).Ok? ==>
      PriceLinesReserving(inventory, claims + [c]) == Ok(r.value + [PriceOne(Decrement(inventory, r.value), c).value])
  {
    assert (claims + [c])[..|claims|] == claims;
  }

  /** Both entries of the cart price to the same line against the full stock. */
  lemma TwiceOnePricesAsWritten()
    ensures PriceLines(OneUnitStore().inventory, [Claim(1, 1), Claim(1, 1)])
         == Ok([SaleLine(1, "Cable", "CBL-1", 1, 2.0, 2.0), SaleLine(1, "Cable", "CBL-1", 1, 2.0, 2.0)])
  {
    var inv := OneUnitStore().inventory;
    var claims := [Claim(1, 1), Claim(1, 1)];
    var line := SaleLine(1, "Cable", "CBL-1", 1, 2.0, 2.0);
    assert PriceOne(inv, claims[0]).Ok? && PriceOne(inv, claims[1]).Ok?;
    var r := PriceLines(inv, claims);
    assert r.Ok? && |r.value| == 2;
    assert PricedFrom(inv, claims[0], r.value[0]) && PricedFrom(inv, claims[1], r.value[1]);
    assert r.value == [line, line];
  }

  /** Withdrawing the two lines leaves the item at -1. */
  lemma TwiceOneWithdrawn()
    ensures var after := Decrement(OneUnitStore().inventory, [SaleLine(1, "Cable", "CBL-1", 1, 2.0, 2.0), SaleLine(1, "Cable", "CBL-1", 1, 2.0, 2.0)]);
      1 in after && after[1].quantity == -1
  {
    var line := SaleLine(1, "Cable", "CBL-1", 1, 2.0, 2.0);
    DecrementEffect(OneUnitStore().inventory, [line, line]);
    assert [line, line][..1] == [line];
    assert [line][..0] == [];
  }

  /** As written, each entry is checked against the stock read before the
      cart, so two entries of one unit each both pass against a stock of one
      and the item is left at -1. */
  lemma DuplicateCartOversells(clock: Clock)
    ensures Consistent(OneUnitStore())
    ensures var (r, st') := PlaceOrder(OneUnitStore(), TwiceOneRequest(), clock);
      r.Ok? && 1 in st'.inventory && st'.inventory[1].quantity == -1
  {
    var st := OneUnitStore();
    var line := SaleLine(1, "Cable", "CBL-1", 1, 2.0, 2.0);
    TwiceOneValidates();
    TwiceOnePricesAsWritten();
    TwiceOneWithdrawn();
    assert PlaceOrder(st, TwiceOneRequest(), clock) == Settle(st, TwiceOneRequest(), clock, [line, line]);
  }

  /** The corrected pricing rejects the same cart: the second entry finds no
      unit left, and the store is unchanged. */
  lemma ReservingRejectsDuplicateOversell(clock: Clock)
    ensures PlaceOrderReserving(OneUnitStore(), TwiceOneRequest(), clock)
         == (Err(InsufficientStock("Cable", 0, 1)), OneUnitStore())
  {
    var inv := OneUnitStore().inventory;
    var c := Claim(1, 1);
    var line := SaleLine(1, "Cable", "CBL-1", 1, 2.0, 2.0);
    TwiceOneValidates();
    assert PriceOne(inv, c).Ok? && PricedFrom(inv, c, PriceOne(inv, c).value);
    assert PriceOne(inv, c).value == line;
    var none: seq<Claim> := [];
    assert PriceLinesReserving(inv, none) == Ok([]);
    assert Decrement(inv, []) == inv;
    PriceLinesReservingSnoc(inv, none, c);
    assert none + [c] == [c];
    assert PriceLinesReserving(inv, none + [c]) == Ok(PriceLinesReserving(inv, none).value + [line]);
    assert PriceLinesReserving(inv, none).value + [line] == [line];
    assert PriceLinesReserving(inv, [c]) == Ok([line]);
    var after := Decrement(inv, [line]);
    assert [line][..0] == [];
    assert after == inv[1 := inv[1].(quantity := 0)];
    assert PriceOne(after, c) == Err(InsufficientStock("Cable", 0, 1));
    PriceLinesReservingSnoc(inv, [c], c);
    assert [c] + [c] == [c, c];
  }

  // ---------------------------------------------------------------------
  // The routes, step by step, on the shared database
  // ---------------------------------------------------------------------

  /** The checks made before the transaction: the items array, then each
      entry in turn. */
  method CheckCart(items: Option<seq<CartEntry>>) returns (r: Result<seq<Claim>, SaleError>)
    ensures r == ValidateCart(items)
  {
    if items.None? || |items.value| == 0 {
      return Err(MissingItems);
    }
    var entries := items.value;
    for k := 0 to |entries|
      invariant forall j :: 0 <= j < k ==> EntryValid(entries[j])
    {
      if !EntryValid(entries[k]) {
        return Err(InvalidEntry);
      }
    }
    r := Ok(ClaimsOf(entries));
  }

  /** One pass of the pricing loop that succeeds extends the priced prefix
      by its line. */
  lemma PriceLinesStep(inventory: map<int, InventoryItem>, claims: seq<Claim>, i: int, lines: seq<SaleLine>, line: SaleLine)
    requires 0 <= i < |claims|
    requires PriceLines(inventory, claims[..i]) == Ok(lines)
    requires PriceOne(inventory, claims[i]).Ok? && PriceOne(inventory, claims[i]).value == line
    ensures PriceLines(inventory, claims[..i + 1]) == Ok(lines + [line])
    ensures Subtotal(lines + [line]) == Subtotal(lines) + line.lineTotal
  {
    assert claims[..i + 1][..i] == claims[..i];
    assert claims[..i + 1][i] == claims[i];
    assert (lines + [line])[..|lines|] == lines;
  }

  /** One pass of the pricing loop that fails decides the whole cart. */
  lemma PriceLinesStop(inventory: map<int, InventoryItem>, claims: seq<Claim>, i: int, lines: seq<SaleLine>)
    requires 0 <= i < |claims|
    requires PriceLines(inventory, claims[..i]) == Ok(lines)
    requires PriceOne(inventory, claims[i]).Err?
    ensures PriceLines(inventory, claims) == Err(PriceOne(inventory, claims[i]).error)
  {
    assert claims[..i + 1][..i] == claims[..i];
    assert claims[..i + 1][i] == claims[i];
    PriceLinesErrPersists(inventory, claims, i + 1);
  }

  lemma ReservingStop(inventory: map<int, InventoryItem>, claims: seq<Claim>, i: int, lines: seq<SaleLine>)
    requires 0 <= i < |claims|
    requires PriceLinesReserving(inventory, claims[..i]) == Ok(lines)
    requires PriceOne(Decrement(inventory, lines), claims[i]).Err?
    ensures PriceLinesReserving(inventory, claims) == Err(PriceOne(Decrement(inventory, lines), claims[i]).error)
  {
    assert claims[..i + 1][..i] == claims[..i];
    assert claims[..i + 1][i] == claims[i];
    PriceLinesReservingErrPersists(inventory, claims, i + 1);
  }

  lemma ReservingStep(inventory: map<int, InventoryItem>, claims: seq<Claim>, i: int, lines: seq<SaleLine>, line: SaleLine)
    requires 0 <= i < |claims|
    requires PriceLinesReserving(inventory, claims[..i]) == Ok(lines)
    requires PriceOne(Decrement(inventory, lines), claims[i]).Ok? && PriceOne(Decrement(inventory, lines), claims[i]).value == line
    ensures PriceLinesReserving(inventory, claims[..i + 1]) == Ok(lines + [line])
    ensures Subtotal(lines + [line]) == Subtotal(lines) + line.lineTotal
  {
    assert claims[..i + 1][..i] == claims[..i];
    assert claims[..i + 1][i] == claims[i];
    assert (lines + [line])[..|lines|] == lines;
  }

  /** The body of the pricing loop: the lookup, the stock check and the
      snapshot of name, SKU and selling price. */
  method PriceEntry(inventory: map<int, InventoryItem>, c: Claim) returns (r: Result<SaleLine, SaleError>)
    ensures r == PriceOne(inventory, c)
  {
    if c.itemId !in inventory {
      return Err(ItemNotFound(c.itemId));
    }
    var item := inventory[c.itemId];
    if item.quantity < c.quantity {
      return Err(InsufficientStock(item.name, item.quantity, c.quantity));
    }
    var lineTotal := item.sellPrice * c.quantity as real;
    assert lineTotal == inventory[c.itemId].sellPrice * c.quantity as real;
    assert PriceOne(inventory, c).Ok?;
    assert PriceOne(inventory, c).value == SaleLine(c.itemId, item.name, item.sku, c.quantity, item.sellPrice, lineTotal);
    return Ok(SaleLine(c.itemId, item.name, item.sku, c.quantity, item.sellPrice, lineTotal));
  }

  /** The pricing loop as written: each entry is looked up in the inventory
      as read, the first missing item or short stock ends the loop, and the
      subtotal is accumulated line by line. */
  method PriceCart(inventory: map<int, InventoryItem>, claims: seq<Claim>) returns (r: Result<seq<SaleLine>, SaleError>, subtotal: real)
    ensures r == PriceLines(inventory, claims)
    ensures r.Ok? ==> subtotal == Subtotal(r.value) == CartValue(inventory, claims)
  {
    var lines: seq<SaleLine> := [];
    subtotal := 0.0;
    for i := 0 to |claims|
      invariant PriceLines(inventory, claims[..i]) == Ok(lines)
      invariant subtotal == Subtotal(lines)
    {
      var priced := PriceEntry(inventory, claims[i]);
      if priced.Err? {
        PriceLinesStop(inventory, claims, i, lines);
        return Err(priced.error), subtotal;
      }
      var line := priced.value;
      PriceLinesStep(inventory, claims, i, lines, line);
      subtotal := subtotal + line.lineTotal;
      lines := lines + [line];
    }
    assert claims[..|claims|] == claims;
    r := Ok(lines);
    SubtotalIsCartValue(inventory, claims);
  }

  /** The corrected pricing loop: each entry is checked against the stock
      that the lines priced so far leave. */
  method PriceCartReserving(inventory: map<int, InventoryItem>, claims: seq<Claim>) returns (r: Result<seq<SaleLine>, SaleError>, subtotal: real)
    ensures r == PriceLinesReserving(inventory, claims)
    ensures r.Ok? ==> subtotal == Subtotal(r.value) && NoOversell(inventory, Decrement(inventory, r.value))
  {
    var lines: seq<SaleLine> := [];
    subtotal := 0.0;
    for i := 0 to |claims|
      invariant PriceLinesReserving(inventory, claims[..i]) == Ok(lines)
      invariant subtotal == Subtotal(lines)
    {
      var left := Decrement(inventory, lines);
      var priced := PriceEntry(left, claims[i]);
      if priced.Err? {
        ReservingStop(inventory, claims, i, lines);
        return Err(priced.error), subtotal;
      }
      var line := priced.value;
      ReservingStep(inventory, claims, i, lines, line);
      subtotal := subtotal + line.lineTotal;
      lines := lines + [line];
    }
    ReservedLinesNeverOversell(inventory, claims, lines);
    r := Ok(lines);
  }

  /** The loop's last invariant is the corrected pricing of the whole cart,
      which never oversells. */
  lemma ReservedLinesNeverOversell(inventory: map<int, InventoryItem>, claims: seq<Claim>, lines: seq<SaleLine>)
    requires PriceLinesReserving(inventory, claims[..|claims|]) == Ok(lines)
    ensures PriceLinesReserving(inventory, claims) == Ok(lines)
    ensures NoOversell(inventory, Decrement(inventory, lines))
  {
    assert claims[..|claims|] == claims;
    ReservingNeverOversells(inventory, claims);
  }

  /** The header row's totals: tax from the rate on the subtotal, the
      total after the discount, and the payment status from the amount
      paid against the total. */
  method BuildHeader(req: SaleRequest, clock: Clock, lines: seq<SaleLine>, subtotal: real, invoice: string) returns (sale: Sale)
    requires subtotal == Subtotal(lines)
    requires invoice == InvoiceNumbers.InvoiceNumber(clock.year, clock.month, clock.day, clock.millis)
    ensures sale == SaleHeader(req, clock, lines)
  {
    var date := if Present(req.date) then req.date.value else clock.today;
    var discount := req.discountAmount.GetOr(0.0);
    var paid := req.paidAmount.GetOr(0.0);
    var tax := subtotal * (req.taxRate.GetOr(0.0) / 100.0);
    assert tax == Subtotal(lines) * (req.taxRate.GetOr(0.0) / 100.0);
    var total := subtotal + tax - discount;
    var status := Unpaid;
    if paid >= total {
      status := Paid;
    } else if paid > 0.0 {
      status := Partial;
    }
    assert status == StatusFor(paid, total);
    sale := Sale(invoice, date, req.customerName, req.customerPhone, subtotal, tax, discount, total, paid, status);
  }

  /** The transaction after pricing: the header row with its totals and
      status, the UNIQUE invoice check, then one line insert and one stock
      withdrawal per line, and the commit. */
  method Persist(db: Database, req: SaleRequest, clock: Clock, lines: seq<SaleLine>, subtotal: real) returns (r: Result<Receipt, SaleError>)
    requires subtotal == Subtotal(lines)
    modifies db
    ensures (r, db.State()) == Settle(old(db.State()), req, clock, lines)
  {
    var invoice := InvoiceNumbers.InvoiceNumber(clock.year, clock.month, clock.day, clock.millis);
    var sale := BuildHeader(req, clock, lines, subtotal, invoice);
    if InvoiceTaken(db.sales, invoice) {
      return Err(DuplicateInvoice);
    }
    var saleId := db.nextSaleId;
    var stock := db.inventory;
    var inserted: seq<SaleLine> := [];
    for k := 0 to |lines|
      invariant inserted == lines[..k]
      invariant stock == Decrement(db.inventory, inserted)
    {
      assert lines[..k + 1][..k] == lines[..k];
      inserted := inserted + [lines[k]];
      stock := Withdraw(stock, lines[k].itemId, lines[k].quantity);
    }
    assert inserted == lines;
    db.inventory, db.sales, db.saleLines, db.nextSaleId := stock, db.sales[saleId := sale], db.saleLines[saleId := inserted], saleId + 1;
    r := Ok(Receipt(saleId, sale, lines, Notification(req.customerPhone, sale, lines)));
  }

  /** POST /api/sales as written. */
  method CreateSale(db: Database, req: SaleRequest, clock: Clock) returns (r: Result<Receipt, SaleError>)
    requires db.Valid()
    modifies db
    ensures (r, db.State()) == PlaceOrder(old(db.State()), req, clock)
    ensures db.Valid()
  {
    PlaceOrderConsistent(db.State(), req, clock);
    var checked := CheckCart(req.items);
    if checked.Err? {
      return Err(checked.error);
    }
    var priced, subtotal := PriceCart(db.inventory, checked.value);
    if priced.Err? {
      return Err(priced.error);
    }
    r := Persist(db, req, clock, priced.value, subtotal);
  }

  /** POST /api/sales with the corrected pricing loop. */
  method CreateSaleReserving(db: Database, req: SaleRequest, clock: Clock) returns (r: Result<Receipt, SaleError>)
    requires db.Valid()
    modifies db
    ensures (r, db.State()) == PlaceOrderReserving(old(db.State()), req, clock)
    ensures db.Valid()
  {
    PlaceOrderReservingConsistent(db.State(), req, clock);
    var checked := CheckCart(req.items);
    if checked.Err? {
      return Err(checked.error);
    }
    var priced, subtotal := PriceCartReserving(db.inventory, checked.value);
    if priced.Err? {
      return Err(priced.error);
    }
    r := Persist(db, req, clock, priced.value, subtotal);
  }

  /** DELETE /api/sales/:id: read the lines, delete the header (and with it
      the lines), then put each line's quantity back. */
  method DeleteSale(db: Database, id: int) returns (r: Result<(), SaleError>)
    requires db.Valid()
    modifies db
    ensures (r, db.State()) == DeleteSpec(old(db.State()), id)
    ensures db.Valid()
  {
    DeleteConsistent(db.State(), id);
    var items := if id in db.saleLines then db.saleLines[id] else [];
    if id !in db.sales {
      return Err(SaleNotFound);
    }
    var stock := db.inventory;
    for k := 0 to |items|
      invariant stock == Restore(db.inventory, items[..k])
    {
      assert items[..k + 1][..k] == items[..k];
      stock := Deposit(stock, items[k].itemId, items[k].quantity);
    }
    assert items[..|items|] == items;
    db.inventory, db.sales, db.saleLines := stock, db.sales - {id}, db.saleLines - {id};
    r := Ok(());
  }

  /** PATCH /api/sales/:id/payment. */
  method UpdatePayment(db: Database, id: int, paid: Option<real>) returns (r: Result<PaymentReceipt, SaleError>)
    requires db.Valid()
    modifies db
    ensures (r, db.State()) == PaymentSpec(old(db.State()), id, paid)
    ensures db.Valid()
  {
    PaymentConsistent(db.State(), id, paid);
    if paid.None? || paid.value < 0.0 {
      return Err(InvalidPayment);
    }
    if id !in db.sales {
      return Err(SaleNotFound);
    }
    var sale := db.sales[id];
    var status := Unpaid;
    if paid.value >= sale.totalAmount {
      status := Paid;
    } else if paid.value > 0.0 {
      status := Partial;
    }
    db.sales := db.sales[id := sale.(paidAmount := paid.value, status := status)];
    r := Ok(PaymentReceipt(paid.value, status));
  }
}
