/** The point-of-sale page of frontend/src/pages/Sales.js: the cart being
    assembled for a new invoice, its client-side totals, the request it
    turns into, and the filter over the sales list. */
module SalesPage {
  import opened Common
  import opened Tables
  import SaleLedger

  /** One cart entry: a snapshot of the inventory row taken when the item
      was first added, with the stock seen then as its ceiling. */
  datatype CartItem = CartItem(itemId: int, itemName: string, sku: string, unitPrice: real, quantity: int, maxQuantity: int)

  /** The alert the page raises instead of changing the cart. */
  datatype Alert = StockLimit(available: int) | OutOfStock

  /** One entry per item, each with at least one unit. Every handler keeps
      this. */
  predicate OnePerItem(cart: seq<CartItem>) {
    && (forall i, j :: 0 <= i < j < |cart| ==> cart[i].itemId != cart[j].itemId)
    && (forall k :: 0 <= k < |cart| ==> 1 <= cart[k].quantity)
  }

  /** One entry per item, each with a quantity between 1 and its ceiling. */
  predicate CartInvariant(cart: seq<CartItem>) {
    && OnePerItem(cart)
    && (forall k :: 0 <= k < |cart| ==> cart[k].quantity <= cart[k].maxQuantity)
  }

  /** cart.find(entry => entry.item_id === id), as the index it stops at. */
  function FindEntry(cart: seq<CartItem>, id: int): (r: Option<nat>)
    ensures r.Some? ==> r.value < |cart| && cart[r.value].itemId == id
    ensures r.Some? ==> forall j :: 0 <= j < r.value ==> cart[j].itemId != id
    ensures r.None? ==> forall j :: 0 <= j < |cart| ==> cart[j].itemId != id
  {
    if cart == [] then None
    else if cart[0].itemId == id then Some(0)
    else match FindEntry(cart[1..], id)
      case None => None
      case Some(k) => Some(k + 1)
  }

  /** cart.map(entry => entry.item_id === id ? { ...entry, quantity: q } : entry) */
  function SetQuantity(cart: seq<CartItem>, id: int, q: int): seq<CartItem> {
    seq(|cart|, k requires 0 <= k < |cart| => if cart[k].itemId == id then cart[k].(quantity := q) else cart[k])
  }

  /** removeFromCart: cart.filter(entry => entry.item_id !== id) */
  function Removed(cart: seq<CartItem>, id: int): seq<CartItem> {
    Filter(cart, (e: CartItem) => e.itemId != id)
  }

  /** addToCart: an item already in the cart gains one unit while the stock
      shown allows it; a new item is appended with one unit at its selling
      price, unless it is out of stock. */
  function AfterAdd(cart: seq<CartItem>, id: int, item: InventoryItem): (seq<CartItem>, Option<Alert>) {
    match FindEntry(cart, id)
    case Some(k) =>
      if cart[k].quantity < item.quantity then (SetQuantity(cart, id, cart[k].quantity + 1), None)
      else (cart, Some(StockLimit(item.quantity)))
    case None =>
      if item.quantity > 0 then (cart + [CartItem(id, item.name, item.sku, item.sellPrice, 1, item.quantity)], None)
      else (cart, Some(OutOfStock))
  }

  /** updateCartQuantity: zero or less removes the entry, more than the
      ceiling raises an alert, anything else replaces the quantity. An id
      that is not in the cart makes the page's lookup fail, and the cart
      stays as it was. */
  function AfterUpdate(cart: seq<CartItem>, id: int, newQuantity: int): (seq<CartItem>, Option<Alert>) {
    if newQuantity <= 0 then (Removed(cart, id), None)
    else match FindEntry(cart, id)
      case None => (cart, None)
      case Some(k) =>
        if newQuantity > cart[k].maxQuantity then (cart, Some(StockLimit(cart[k].maxQuantity)))
        else (SetQuantity(cart, id, newQuantity), None)
  }

  /** The cart as the page's state: each handler replaces the list. */
  class Cart {
    var items: seq<CartItem>

    ghost predicate Valid()
      reads this
    {
      OnePerItem(items)
    }

    constructor ()
      ensures items == [] && Valid() && CartInvariant(items)
    {
      items := [];
    }

    /** The ceiling is kept only while the stock shown has not grown past
        the ceiling recorded when the item was first added. */
    method AddToCart(id: int, item: InventoryItem) returns (alert: Option<Alert>)
      requires Valid()
      modifies this
      ensures (items, alert) == AfterAdd(old(items), id, item)
      ensures Valid()
      ensures CartInvariant(old(items))
              && (FindEntry(old(items), id).Some? ==> item.quantity <= old(items)[FindEntry(old(items), id).value].maxQuantity)
              ==> CartInvariant(items)
    {
      AddKeepsInvariant(items, id, item);
      var existing := FindEntry(items, id);
      if existing.Some? {
        var current := items[existing.value].quantity;
        if current < item.quantity {
          items := SetQuantity(items, id, current + 1);
          alert := None;
        } else {
          alert := Some(StockLimit(item.quantity));
        }
      } else if item.quantity > 0 {
        items := items + [CartItem(id, item.name, item.sku, item.sellPrice, 1, item.quantity)];
        alert := None;
      } else {
        alert := Some(OutOfStock);
      }
    }

    method UpdateCartQuantity(id: int, newQuantity: int) returns (alert: Option<Alert>)
      requires Valid()
      modifies this
      ensures (items, alert) == AfterUpdate(old(items), id, newQuantity)
      ensures Valid()
      ensures CartInvariant(old(items)) ==> CartInvariant(items)
    {
      UpdateKeepsInvariant(items, id, newQuantity);
      if newQuantity <= 0 {
        RemoveFromCart(id);
        return None;
      }
      var existing := FindEntry(items, id);
      if existing.None? {
        return None;
      }
      if newQuantity > items[existing.value].maxQuantity {
        return Some(StockLimit(items[existing.value].maxQuantity));
      }
      items := SetQuantity(items, id, newQuantity);
      alert := None;
    }

    method RemoveFromCart(id: int)
      requires Valid()
      modifies this
      ensures items == Removed(old(items), id)
      ensures Valid()
      ensures CartInvariant(old(items)) ==> CartInvariant(items)
    {
      RemoveKeepsOthers(items, id);
      SubsequenceKeepsInvariant(Removed(items, id), items);
      items := Removed(items, id);
    }
  }

  // ---------------------------------------------------------------------
  // What the cart handlers promise
  // ---------------------------------------------------------------------

  /** In a cart with one entry per item, replacing one item's quantity
      changes that entry alone. */
  lemma SetQuantityEffect(cart: seq<CartItem>, id: int, q: int)
    requires OnePerItem(cart) && FindEntry(cart, id).Some?
    ensures var k := FindEntry(cart, id).value;
      SetQuantity(cart, id, q) == cart[k := cart[k].(quantity := q)]
  {
    var k := FindEntry(cart, id).value;
    assert forall j :: 0 <= j < |cart| && j != k ==> cart[j].itemId != id;
  }

  /** Adding an item already in the cart never appends: it raises that
      entry's quantity by one when the stock shown allows it, and otherwise
      leaves the cart unchanged with an alert. */
  lemma AddExistingIncrements(cart: seq<CartItem>, id: int, item: InventoryItem)
    requires CartInvariant(cart) && FindEntry(cart, id).Some?
    ensures var k := FindEntry(cart, id).value;
      var (after, alert) := AfterAdd(cart, id, item);
      && |after| == |cart|
      && (cart[k].quantity < item.quantity ==> after == cart[k := cart[k].(quantity := cart[k].quantity + 1)] && alert.None?)
      && (cart[k].quantity >= item.quantity ==> after == cart && alert == Some(StockLimit(item.quantity)))
  {
    var k := FindEntry(cart, id).value;
    SetQuantityEffect(cart, id, cart[k].quantity + 1);
  }

  /** Adding an item not yet in the cart appends one unit at its selling
      price with the stock seen as ceiling, or alerts when the stock is 0. */
  lemma AddNewAppends(cart: seq<CartItem>, id: int, item: InventoryItem)
    requires FindEntry(cart, id).None?
    ensures var (after, alert) := AfterAdd(cart, id, item);
      && (item.quantity > 0 ==> after == cart + [CartItem(id, item.name, item.sku, item.sellPrice, 1, item.quantity)] && alert.None?)
      && (item.quantity <= 0 ==> after == cart && alert == Some(OutOfStock))
  {
  }

  /** Adding keeps one entry per item and every quantity within its
      ceiling, as long as the stock shown has not grown past the ceiling
      recorded when the item was first added. */
  lemma AddKeepsInvariant(cart: seq<CartItem>, id: int, item: InventoryItem)
    requires OnePerItem(cart)
    ensures OnePerItem(AfterAdd(cart, id, item).0)
    ensures CartInvariant(cart)
            && (FindEntry(cart, id).Some? ==> item.quantity <= cart[FindEntry(cart, id).value].maxQuantity)
            ==> CartInvariant(AfterAdd(cart, id, item).0)
  {
    if FindEntry(cart, id).Some? {
      var k := FindEntry(cart, id).value;
      SetQuantityEffect(cart, id, cart[k].quantity + 1);
    }
  }

  /** Removing an item drops exactly its entry and keeps the others in
      their order. */
  lemma RemoveKeepsOthers(cart: seq<CartItem>, id: int)
    ensures forall e :: e in Removed(cart, id) <==> e in cart && e.itemId != id
    ensures IsSubsequence(Removed(cart, id), cart)
  {
    FilterMembers(cart, (e: CartItem) => e.itemId != id);
    FilterIsSubsequence(cart, (e: CartItem) => e.itemId != id);
  }

  lemma {:induction false} SubsequenceKeepsInvariant(a: seq<CartItem>, b: seq<CartItem>)
    requires IsSubsequence(a, b) && OnePerItem(b)
    ensures OnePerItem(a)
    ensures CartInvariant(b) ==> CartInvariant(a)
    decreases |b|
  {
    SubsequenceMembers(a, b);
    if a != [] && b != [] {
      assert OnePerItem(b[1..]) by {
        forall i, j | 0 <= i < j < |b[1..]|
          ensures b[1..][i].itemId != b[1..][j].itemId
        {
          assert b[1..][i] == b[i + 1] && b[1..][j] == b[j + 1];
        }
      }
      if a[0] == b[0] {
        SubsequenceKeepsInvariant(a[1..], b[1..]);
        SubsequenceMembers(a[1..], b[1..]);
        forall j | 0 < j < |a|
          ensures a[0].itemId != a[j].itemId
        {
          assert a[j] == a[1..][j - 1];
          var i :| 0 <= i < |b[1..]| && b[1..][i] == a[j];
          assert b[0].itemId != b[i + 1].itemId;
        }
      } else {
        SubsequenceKeepsInvariant(a, b[1..]);
      }
    }
  }

  lemma {:induction false} SubsequenceMembers(a: seq<CartItem>, b: seq<CartItem>)
    requires IsSubsequence(a, b)
    ensures forall j :: 0 <= j < |a| ==> exists i :: 0 <= i < |b| && b[i] == a[j]
    decreases |b|
  {
    if a != [] && b != [] {
      if a[0] == b[0] {
        SubsequenceMembers(a[1..], b[1..]);
        forall j | 0 < j < |a|
          ensures exists i :: 0 <= i < |b| && b[i] == a[j]
        {
          assert a[j] == a[1..][j - 1];
          var i :| 0 <= i < |b[1..]| && b[1..][i] == a[j];
          assert b[i + 1] == a[j];
        }
      } else {
        SubsequenceMembers(a, b[1..]);
        forall j | 0 <= j < |a|
          ensures exists i :: 0 <= i < |b| && b[i] == a[j]
        {
          var i :| 0 <= i < |b[1..]| && b[1..][i] == a[j];
          assert b[i + 1] == a[j];
        }
      }
    }
  }

  /** A quantity of zero or less removes the entry; a quantity above the
      ceiling, or an id the cart does not hold, leaves the cart unchanged;
      otherwise only that entry's quantity changes. */
  lemma UpdateEffect(cart: seq<CartItem>, id: int, newQuantity: int)
    requires CartInvariant(cart)
    ensures var (after, alert) := AfterUpdate(cart, id, newQuantity);
      && (newQuantity <= 0 ==> after == Removed(cart, id) && alert.None?)
      && (newQuantity > 0 && FindEntry(cart, id).None? ==> after == cart)
      && (newQuantity > 0 && FindEntry(cart, id).Some? ==>
            var k := FindEntry(cart, id).value;
            if newQuantity > cart[k].maxQuantity then after == cart && alert == Some(StockLimit(cart[k].maxQuantity))
            else after == cart[k := cart[k].(quantity := newQuantity)] && alert.None?)
  {
    if newQuantity > 0 && FindEntry(cart, id).Some? {
      SetQuantityEffect(cart, id, newQuantity);
    }
  }

  /** Updating keeps one entry per item and every quantity within its
      ceiling. */
  lemma UpdateKeepsInvariant(cart: seq<CartItem>, id: int, newQuantity: int)
    requires OnePerItem(cart)
    ensures OnePerItem(AfterUpdate(cart, id, newQuantity).0)
    ensures CartInvariant(cart) ==> CartInvariant(AfterUpdate(cart, id, newQuantity).0)
  {
    if newQuantity <= 0 {
      RemoveKeepsOthers(cart, id);
      SubsequenceKeepsInvariant(Removed(cart, id), cart);
    } else if FindEntry(cart, id).Some? {
      SetQuantityEffect(cart, id, newQuantity);
    }
  }

  // ---------------------------------------------------------------------
  // Totals and the create request
  // ---------------------------------------------------------------------

  /** cart.reduce((sum, e) => sum + e.unit_price * e.quantity, 0) */
  function CartSubtotal(cart: seq<CartItem>): real {
    Sum(cart, (e: CartItem) => e.unitPrice * e.quantity as real)
  }

  datatype Totals = Totals(subtotal: real, taxAmount: real, total: real)

  /** calculateTotals, before its toFixed(2) formatting. */
  function CalculateTotals(cart: seq<CartItem>, taxRate: real, discount: real): (t: Totals)
    ensures t.subtotal == CartSubtotal(cart)
  {
    var subtotal := CartSubtotal(cart);
    var tax := subtotal * (taxRate / 100.0);
    Totals(subtotal, tax, subtotal + tax - discount)
  }

  datatype CustomerInfo = CustomerInfo(name: string, phone: string)
  datatype InvoiceSettings = InvoiceSettings(taxRate: real, discountAmount: real, paidAmount: real)

  /** The item_id and quantity the server reads from each cart entry. */
  function EntriesOf(cart: seq<CartItem>): (entries: seq<SaleLedger.CartEntry>)
    ensures |entries| == |cart|
    ensures forall k :: 0 <= k < |cart| ==> entries[k] == SaleLedger.CartEntry(Some(cart[k].itemId), Some(cart[k].quantity))
  {
    seq(|cart|, k requires 0 <= k < |cart| => SaleLedger.CartEntry(Some(cart[k].itemId), Some(cart[k].quantity)))
  }

  /** handleCreateSale: an empty cart stops at an alert; otherwise the cart,
      the customer fields and the invoice settings are posted, with no date. */
  function CreateRequest(cart: seq<CartItem>, customer: CustomerInfo, settings: InvoiceSettings): (r: Option<SaleLedger.SaleRequest>)
    ensures r.None? <==> cart == []
    ensures r.Some? ==> r.value.items == Some(EntriesOf(cart)) && r.value.date.None?
  {
    if cart == [] then None
    else Some(SaleLedger.SaleRequest(Some(EntriesOf(cart)), Some(customer.name), Some(customer.phone),
                                     Some(settings.taxRate), Some(settings.discountAmount), Some(settings.paidAmount), None))
  }

  function ClaimsOfCart(cart: seq<CartItem>): seq<SaleLedger.Claim> {
    seq(|cart|, k requires 0 <= k < |cart| => SaleLedger.Claim(cart[k].itemId, cart[k].quantity))
  }

  /** A request built from a valid cart of inventory ids passes the server's
      checks, with one claim per entry and no item named twice. */
  lemma CartRequestValidates(cart: seq<CartItem>, customer: CustomerInfo, settings: InvoiceSettings)
    requires CartInvariant(cart) && cart != []
    requires forall k :: 0 <= k < |cart| ==> cart[k].itemId >= 1
    ensures var req := CreateRequest(cart, customer, settings).value;
      && SaleLedger.ValidateCart(req.items) == Ok(ClaimsOfCart(cart))
      && SaleLedger.DistinctItems(ClaimsOfCart(cart))
  {
    var entries := EntriesOf(cart);
    assert forall k :: 0 <= k < |entries| ==> SaleLedger.EntryValid(entries[k]);
    var claims := SaleLedger.ClaimsOf(entries);
    assert claims == ClaimsOfCart(cart);
  }

  /** The cart's subtotal is the cart's value at its own unit prices. */
  lemma {:induction false} CartSubtotalIsCartValue(inventory: map<int, InventoryItem>, cart: seq<CartItem>)
    requires forall k :: 0 <= k < |cart| ==> cart[k].itemId in inventory && inventory[cart[k].itemId].sellPrice == cart[k].unitPrice
    ensures SaleLedger.CartValue(inventory, ClaimsOfCart(cart)) == CartSubtotal(cart)
  {
    if cart != [] {
      var n := |cart| - 1;
      assert ClaimsOfCart(cart)[..n] == ClaimsOfCart(cart[..n]);
      CartSubtotalIsCartValue(inventory, cart[..n]);
    }
  }

  /** The server's header for a sale placed from the cart carries the
      page's subtotal, when prices have not changed since the items were
      added. */
  lemma ServerSubtotalIsCartSubtotal(st: DbState, cart: seq<CartItem>, customer: CustomerInfo, settings: InvoiceSettings, clock: SaleLedger.Clock)
    requires CartInvariant(cart) && cart != []
    requires forall k :: 0 <= k < |cart| ==> cart[k].itemId >= 1
    requires forall k :: 0 <= k < |cart| ==> cart[k].itemId in st.inventory && st.inventory[cart[k].itemId].sellPrice == cart[k].unitPrice
    requires SaleLedger.PlaceOrder(st, CreateRequest(cart, customer, settings).value, clock).0.Ok?
    ensures var req := CreateRequest(cart, customer, settings).value;
      var sale := SaleLedger.PlaceOrder(st, req, clock).0.value.sale;
      && sale == SaleLedger.SaleHeader(req, clock, SaleLedger.PriceLines(st.inventory, ClaimsOfCart(cart)).value)
      && sale.subtotal == CartSubtotal(cart)
  {
    var req := CreateRequest(cart, customer, settings).value;
    CartRequestValidates(cart, customer, settings);
    SaleLedger.PlaceOrderHeader(st, req, clock);
    CartSubtotalIsCartValue(st.inventory, cart);
  }

  /** When the server records the sale and the prices have not changed since
      the items were added, the server's subtotal, tax and total are the
      ones the page showed. */
  lemma TotalsAgreeWithServer(st: DbState, cart: seq<CartItem>, customer: CustomerInfo, settings: InvoiceSettings, clock: SaleLedger.Clock)
    requires CartInvariant(cart) && cart != []
    requires forall k :: 0 <= k < |cart| ==> cart[k].itemId >= 1
    requires forall k :: 0 <= k < |cart| ==> cart[k].itemId in st.inventory && st.inventory[cart[k].itemId].sellPrice == cart[k].unitPrice
    requires SaleLedger.PlaceOrder(st, CreateRequest(cart, customer, settings).value, clock).0.Ok?
    ensures var sale := SaleLedger.PlaceOrder(st, CreateRequest(cart, customer, settings).value, clock).0.value.sale;
      var t := CalculateTotals(cart, settings.taxRate, settings.discountAmount);
      sale.subtotal == t.subtotal && sale.taxAmount == t.taxAmount && sale.totalAmount == t.total
  {
    ServerSubtotalIsCartSubtotal(st, cart, customer, settings, clock);
    var req := CreateRequest(cart, customer, settings).value;
    var lines := SaleLedger.PlaceOrderSettles(st, req, clock);
    assert SaleLedger.PlaceOrder(st, req, clock).0.value.sale == SaleLedger.SaleHeader(req, clock, lines);
    assert req.taxRate == Some(settings.taxRate) && req.discountAmount == Some(settings.discountAmount);
    HeaderAgreesWithPage(req, clock, lines, cart, settings);
  }

  /** A header built from the page's tax rate and discount over lines worth
      the cart's subtotal carries the page's totals. */
  lemma HeaderAgreesWithPage(req: SaleLedger.SaleRequest, clock: SaleLedger.Clock, lines: seq<SaleLine>, cart: seq<CartItem>, settings: InvoiceSettings)
    requires req.taxRate == Some(settings.taxRate) && req.discountAmount == Some(settings.discountAmount)
    requires SaleLedger.SaleHeader(req, clock, lines).subtotal == CartSubtotal(cart)
    ensures var sale := SaleLedger.SaleHeader(req, clock, lines);
      var t := CalculateTotals(cart, settings.taxRate, settings.discountAmount);
      sale.subtotal == t.subtotal && sale.taxAmount == t.taxAmount && sale.totalAmount == t.total
  {
  }

  /** A sale placed from the page's cart never drives stock negative: the
      cart names each item once, which is the condition under which the
      server's check is sound. */
  lemma CartOrderNeverOversells(st: DbState, cart: seq<CartItem>, customer: CustomerInfo, settings: InvoiceSettings, clock: SaleLedger.Clock)
    requires CartInvariant(cart) && cart != []
    requires forall k :: 0 <= k < |cart| ==> cart[k].itemId >= 1
    requires SaleLedger.PlaceOrder(st, CreateRequest(cart, customer, settings).value, clock).0.Ok?
    ensures SaleLedger.NoOversell(st.inventory, SaleLedger.PlaceOrder(st, CreateRequest(cart, customer, settings).value, clock).1.inventory)
  {
    CartRequestValidates(cart, customer, settings);
    SaleLedger.DistinctCartNeverOversells(st.inventory, ClaimsOfCart(cart));
  }

  // ---------------------------------------------------------------------
  // The sales list filter
  // ---------------------------------------------------------------------

  /** A row of the sales list, with the items summary the list query adds. */
  datatype SaleListing = SaleListing(invoice: string, customerName: Option<string>, itemsSummary: Option<string>, status: string)

  predicate SearchMatches(s: SaleListing, term: string) {
    Includes(Lower(s.invoice), Lower(term)) || FieldMatches(s.customerName, term) || FieldMatches(s.itemsSummary, term)
  }

  predicate StatusMatches(s: SaleListing, statusFilter: string) {
    statusFilter == "all" || s.status == statusFilter
  }

  /** filteredSales: the search and the status filter, in list order. */
  function FilteredSales(sales: seq<SaleListing>, term: string, statusFilter: string): seq<SaleListing> {
    Filter(sales, (s: SaleListing) => SearchMatches(s, term) && StatusMatches(s, statusFilter))
  }

  /** A row is shown exactly when it matches the search and its status is
      the one chosen, or the choice is "all"; order is kept. */
  lemma FilteredSalesMembers(sales: seq<SaleListing>, term: string, statusFilter: string)
    ensures forall s :: s in FilteredSales(sales, term, statusFilter) <==>
      s in sales && SearchMatches(s, term) && (statusFilter == "all" || s.status == statusFilter)
    ensures IsSubsequence(FilteredSales(sales, term, statusFilter), sales)
  {
    FilterMembers(sales, (s: SaleListing) => SearchMatches(s, term) && StatusMatches(s, statusFilter));
    FilterIsSubsequence(sales, (s: SaleListing) => SearchMatches(s, term) && StatusMatches(s, statusFilter));
  }

  /** With an empty search and "all", the whole list is shown. */
  lemma NoFilterShowsAll(sales: seq<SaleListing>)
    ensures FilteredSales(sales, "", "all") == sales
  {
    forall i | 0 <= i < |sales|
      ensures SearchMatches(sales[i], "")
    {
      IncludesEmpty(Lower(sales[i].invoice));
    }
    FilterKeepsAll(sales, (s: SaleListing) => SearchMatches(s, "") && StatusMatches(s, "all"));
  }
}
