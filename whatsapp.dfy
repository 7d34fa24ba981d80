/** The WhatsApp invoice notifier (backend/services/whatsapp.js): the shape of
    the invoice message, phone-number normalisation, and the choice between
    the wa.me link path and the HTTP API path. Number and date formatting
    (toFixed, toLocaleDateString), URL encoding and the HTTP call itself are
    outside the model: amounts stay as values inside the message lines, and
    the API's answer is a parameter. */
module WhatsApp {
  import opened Common
  import opened Tables

  /** One line of the message, carrying the values it displays. */
  datatype MessageLine =
    | Title(invoice: string)
    | DateLine(date: string)
    | CustomerLine(name: string)
    | ItemsHeading
    | Rule
    | Bullet(itemName: string)
    | QtyLine(quantity: int, unitPrice: real, lineTotal: real)
    | SubtotalLine(subtotal: real)
    | TaxLine(tax: real)
    | DiscountLine(discount: real)
    | TotalLine(total: real)
    | PaidLine(paid: real)
    | BalanceDue(due: real)
    | Change(change: real)
    | FullyPaid
    | StatusLine(status: string)
    | ThankYou

  /** status.toUpperCase() */
  function StatusText(s: PaymentStatus): string {
    match s
    case Paid => "PAID"
    case Unpaid => "UNPAID"
    case Partial => "PARTIAL"
  }

  /** The two lines the forEach emits per sale item. */
  function ItemLines(items: seq<SaleLine>): (m: seq<MessageLine>)
    ensures |m| == 2 * |items|
  {
    if items == [] then []
    else
      var it := items[|items| - 1];
      ItemLines(items[..|items| - 1]) + [Bullet(it.itemName), QtyLine(it.quantity, it.unitPrice, it.lineTotal)]
  }

  /** The closing balance line, chosen by the sign of total - paid. */
  function BalanceLine(total: real, paid: real): MessageLine {
    var balance := total - paid;
    if balance > 0.0 then BalanceDue(balance)
    else if balance < 0.0 then Change(-balance)
    else FullyPaid
  }

  /** A line that is emitted only under a condition. */
  function When(c: bool, m: MessageLine): seq<MessageLine> {
    if c then [m] else []
  }

  function Opening(sale: Sale): seq<MessageLine> {
    [Title(sale.invoice), DateLine(sale.date)]
  }

  function CustomerPart(sale: Sale): seq<MessageLine> {
    When(Present(sale.customerName), CustomerLine(sale.customerName.GetOr("")))
  }

  function Summary(sale: Sale): seq<MessageLine> {
    [Rule, SubtotalLine(sale.subtotal)]
  }

  function TaxPart(sale: Sale): seq<MessageLine> {
    When(sale.taxAmount > 0.0, TaxLine(sale.taxAmount))
  }

  function DiscountPart(sale: Sale): seq<MessageLine> {
    When(sale.discountAmount > 0.0, DiscountLine(sale.discountAmount))
  }

  function Closing(sale: Sale): seq<MessageLine> {
    [TotalLine(sale.totalAmount), PaidLine(sale.paidAmount),
     BalanceLine(sale.totalAmount, sale.paidAmount),
     StatusLine(StatusText(sale.status)), ThankYou]
  }

  /** The message formatInvoiceMessage builds, section by section. */
  function InvoiceMessage(sale: Sale, items: seq<SaleLine>): seq<MessageLine> {
    Opening(sale) + CustomerPart(sale) + [ItemsHeading, Rule] + ItemLines(items)
    + Summary(sale) + TaxPart(sale) + DiscountPart(sale) + Closing(sale)
  }

  /** formatInvoiceMessage: appends to `message` step by step. */
  method FormatInvoiceMessage(sale: Sale, items: seq<SaleLine>) returns (message: seq<MessageLine>)
    ensures message == InvoiceMessage(sale, items)
  {
    message := [Title(sale.invoice), DateLine(sale.date)];
    if Present(sale.customerName) {
      message := message + [CustomerLine(sale.customerName.value)];
    }
    message := message + [ItemsHeading, Rule];
    ghost var head := message;
    assert head == Opening(sale) + CustomerPart(sale) + [ItemsHeading, Rule];
    var i := 0;
    while i < |items|
      invariant 0 <= i <= |items|
      invariant message == head + ItemLines(items[..i])
    {
      assert items[..i + 1][..i] == items[..i];
      message := message + [Bullet(items[i].itemName), QtyLine(items[i].quantity, items[i].unitPrice, items[i].lineTotal)];
      i := i + 1;
    }
    assert items[..i] == items;
    ghost var body := message;
    message := message + [Rule, SubtotalLine(sale.subtotal)];
    if sale.taxAmount > 0.0 {
      message := message + [TaxLine(sale.taxAmount)];
    }
    if sale.discountAmount > 0.0 {
      message := message + [DiscountLine(sale.discountAmount)];
    }
    assert message == body + Summary(sale) + TaxPart(sale) + DiscountPart(sale);
    message := message + [TotalLine(sale.totalAmount), PaidLine(sale.paidAmount)];
    var balance := sale.totalAmount - sale.paidAmount;
    if balance > 0.0 {
      message := message + [BalanceDue(balance)];
    } else if balance < 0.0 {
      message := message + [Change(-balance)];
    } else {
      message := message + [FullyPaid];
    }
    message := message + [StatusLine(StatusText(sale.status)), ThankYou];
  }

  // ---------------------------------------------------------------------
  // What the message promises
  // ---------------------------------------------------------------------

  predicate IsBalanceLine(m: MessageLine) {
    m.BalanceDue? || m.Change? || m.FullyPaid?
  }

  predicate IsTaxLine(m: MessageLine) {
    m.TaxLine?
  }

  predicate IsDiscountLine(m: MessageLine) {
    m.DiscountLine?
  }

  predicate IsCustomerLine(m: MessageLine) {
    m.CustomerLine?
  }

  predicate IsBullet(m: MessageLine) {
    m.Bullet?
  }

  /** The lines before the items and the lines after them. */
  function Head(sale: Sale): seq<MessageLine> {
    Opening(sale) + CustomerPart(sale) + [ItemsHeading, Rule]
  }

  function Tail(sale: Sale): seq<MessageLine> {
    Summary(sale) + TaxPart(sale) + DiscountPart(sale) + Closing(sale)
  }

  /** Filtering the message distributes over head, items and tail. */
  lemma FilterMessage(sale: Sale, items: seq<SaleLine>, p: MessageLine -> bool)
    ensures Filter(InvoiceMessage(sale, items), p)
         == Filter(Head(sale), p) + Filter(ItemLines(items), p) + Filter(Tail(sale), p)
  {
    var head, body, tail := Head(sale), ItemLines(items), Tail(sale);
    assert InvoiceMessage(sale, items) == head + body + tail;
    FilterAppend(head + body, tail, p);
    FilterAppend(head, body, p);
  }

  lemma FilterOne(m: MessageLine, p: MessageLine -> bool)
    ensures Filter([m], p) == When(p(m), m)
  {
    assert [m][1..] == [];
  }

  lemma FilterTwo(a: MessageLine, b: MessageLine, p: MessageLine -> bool)
    ensures Filter([a, b], p) == When(p(a), a) + When(p(b), b)
  {
    assert [a, b] == [a] + [b];
    FilterAppend([a], [b], p);
    FilterOne(a, p);
    FilterOne(b, p);
  }

  lemma FilterHead(sale: Sale, p: MessageLine -> bool)
    ensures Filter(Head(sale), p)
         == When(p(Title(sale.invoice)), Title(sale.invoice)) + When(p(DateLine(sale.date)), DateLine(sale.date))
          + Filter(CustomerPart(sale), p) + When(p(ItemsHeading), ItemsHeading) + When(p(Rule), Rule)
  {
    FilterAppend(Opening(sale) + CustomerPart(sale), [ItemsHeading, Rule], p);
    FilterAppend(Opening(sale), CustomerPart(sale), p);
    FilterTwo(Title(sale.invoice), DateLine(sale.date), p);
    FilterTwo(ItemsHeading, Rule, p);
  }

  lemma FilterTail(sale: Sale, p: MessageLine -> bool)
    ensures Filter(Tail(sale), p)
         == When(p(Rule), Rule) + When(p(SubtotalLine(sale.subtotal)), SubtotalLine(sale.subtotal))
          + Filter(TaxPart(sale), p) + Filter(DiscountPart(sale), p) + Filter(Closing(sale), p)
  {
    FilterAppend(Summary(sale) + TaxPart(sale) + DiscountPart(sale), Closing(sale), p);
    FilterAppend(Summary(sale) + TaxPart(sale), DiscountPart(sale), p);
    FilterAppend(Summary(sale), TaxPart(sale), p);
    FilterTwo(Rule, SubtotalLine(sale.subtotal), p);
  }

  lemma FilterClosing(sale: Sale, p: MessageLine -> bool)
    ensures Filter(Closing(sale), p)
         == When(p(TotalLine(sale.totalAmount)), TotalLine(sale.totalAmount))
          + When(p(PaidLine(sale.paidAmount)), PaidLine(sale.paidAmount))
          + When(p(BalanceLine(sale.totalAmount, sale.paidAmount)), BalanceLine(sale.totalAmount, sale.paidAmount))
          + When(p(StatusLine(StatusText(sale.status))), StatusLine(StatusText(sale.status)))
          + When(p(ThankYou), ThankYou)
  {
    var a := [TotalLine(sale.totalAmount), PaidLine(sale.paidAmount)];
    var b := [BalanceLine(sale.totalAmount, sale.paidAmount)];
    var c := [StatusLine(StatusText(sale.status)), ThankYou];
    assert Closing(sale) == a + b + c;
    FilterAppend(a + b, c, p);
    FilterAppend(a, b, p);
    FilterTwo(TotalLine(sale.totalAmount), PaidLine(sale.paidAmount), p);
    FilterOne(BalanceLine(sale.totalAmount, sale.paidAmount), p);
    FilterTwo(StatusLine(StatusText(sale.status)), ThankYou, p);
  }

  lemma FilterWhen(c: bool, m: MessageLine, p: MessageLine -> bool)
    ensures Filter(When(c, m), p) == When(c && p(m), m)
  {
    if c {
      FilterOne(m, p);
    }
  }

  /** Item lines hold no line of a kind that only the frame emits. */
  lemma {:induction false} ItemLinesHoldNo(items: seq<SaleLine>, p: MessageLine -> bool)
    requires forall name :: !p(Bullet(name))
    requires forall q, u, t :: !p(QtyLine(q, u, t))
    ensures Filter(ItemLines(items), p) == []
  {
    if items != [] {
      var it := items[|items| - 1];
      ItemLinesHoldNo(items[..|items| - 1], p);
      FilterAppend(ItemLines(items[..|items| - 1]), [Bullet(it.itemName), QtyLine(it.quantity, it.unitPrice, it.lineTotal)], p);
      FilterTwo(Bullet(it.itemName), QtyLine(it.quantity, it.unitPrice, it.lineTotal), p);
    }
  }

  /** The bullet lines of the message body, one per sale item, in order. */
  function Bullets(items: seq<SaleLine>): (b: seq<MessageLine>)
    ensures |b| == |items|
    ensures forall i :: 0 <= i < |items| ==> b[i] == Bullet(items[i].itemName)
  {
    seq(|items|, i requires 0 <= i < |items| => Bullet(items[i].itemName))
  }

  lemma {:induction false} BulletsFollowItems(items: seq<SaleLine>)
    ensures Filter(ItemLines(items), IsBullet) == Bullets(items)
  {
    if items != [] {
      var it := items[|items| - 1];
      BulletsFollowItems(items[..|items| - 1]);
      FilterAppend(ItemLines(items[..|items| - 1]), [Bullet(it.itemName), QtyLine(it.quantity, it.unitPrice, it.lineTotal)], IsBullet);
      FilterTwo(Bullet(it.itemName), QtyLine(it.quantity, it.unitPrice, it.lineTotal), IsBullet);
    }
  }

  lemma HeadWithout(sale: Sale, p: MessageLine -> bool)
    requires !p(Title(sale.invoice)) && !p(DateLine(sale.date)) && !p(ItemsHeading) && !p(Rule)
    requires !p(CustomerLine(sale.customerName.GetOr("")))
    ensures Filter(Head(sale), p) == []
  {
    FilterHead(sale, p);
    FilterWhen(Present(sale.customerName), CustomerLine(sale.customerName.GetOr("")), p);
  }

  lemma ClosingWithout(sale: Sale, p: MessageLine -> bool)
    requires !p(TotalLine(sale.totalAmount)) && !p(PaidLine(sale.paidAmount))
    requires !p(BalanceLine(sale.totalAmount, sale.paidAmount))
    requires !p(StatusLine(StatusText(sale.status))) && !p(ThankYou)
    ensures Filter(Closing(sale), p) == []
  {
    FilterClosing(sale, p);
  }

  lemma TailWithout(sale: Sale, p: MessageLine -> bool)
    requires !p(Rule) && !p(SubtotalLine(sale.subtotal))
    requires !p(TaxLine(sale.taxAmount)) && !p(DiscountLine(sale.discountAmount))
    requires Filter(Closing(sale), p) == []
    ensures Filter(Tail(sale), p) == []
  {
    FilterTail(sale, p);
    FilterWhen(sale.taxAmount > 0.0, TaxLine(sale.taxAmount), p);
    FilterWhen(sale.discountAmount > 0.0, DiscountLine(sale.discountAmount), p);
  }

  lemma ClosingBalance(sale: Sale)
    ensures Filter(Closing(sale), IsBalanceLine) == [BalanceLine(sale.totalAmount, sale.paidAmount)]
  {
    FilterClosing(sale, IsBalanceLine);
  }

  lemma TailBalance(sale: Sale)
    ensures Filter(Tail(sale), IsBalanceLine) == [BalanceLine(sale.totalAmount, sale.paidAmount)]
  {
    ClosingBalance(sale);
    FilterTail(sale, IsBalanceLine);
    FilterWhen(sale.taxAmount > 0.0, TaxLine(sale.taxAmount), IsBalanceLine);
    FilterWhen(sale.discountAmount > 0.0, DiscountLine(sale.discountAmount), IsBalanceLine);
  }

  /** Exactly one balance line, and it is Balance Due, Change or Fully Paid
      as the total exceeds, falls short of, or equals the amount paid. */
  lemma OneBalanceLine(sale: Sale, items: seq<SaleLine>)
    ensures Filter(InvoiceMessage(sale, items), IsBalanceLine) == [BalanceLine(sale.totalAmount, sale.paidAmount)]
    ensures var b := BalanceLine(sale.totalAmount, sale.paidAmount);
      && (b.BalanceDue? <==> sale.totalAmount > sale.paidAmount)
      && (b.Change? <==> sale.totalAmount < sale.paidAmount)
      && (b.FullyPaid? <==> sale.totalAmount == sale.paidAmount)
  {
    FilterMessage(sale, items, IsBalanceLine);
    ItemLinesHoldNo(items, IsBalanceLine);
    HeadWithout(sale, IsBalanceLine);
    TailBalance(sale);
  }

  lemma TailTax(sale: Sale)
    ensures Filter(Tail(sale), IsTaxLine) == TaxPart(sale)
  {
    ClosingWithout(sale, IsTaxLine);
    FilterTail(sale, IsTaxLine);
    FilterWhen(sale.taxAmount > 0.0, TaxLine(sale.taxAmount), IsTaxLine);
    FilterWhen(sale.discountAmount > 0.0, DiscountLine(sale.discountAmount), IsTaxLine);
  }

  /** The tax line appears exactly when the tax amount is positive. */
  lemma TaxLineWhenTaxed(sale: Sale, items: seq<SaleLine>)
    ensures Filter(InvoiceMessage(sale, items), IsTaxLine) == if sale.taxAmount > 0.0 then [TaxLine(sale.taxAmount)] else []
  {
    FilterMessage(sale, items, IsTaxLine);
    ItemLinesHoldNo(items, IsTaxLine);
    HeadWithout(sale, IsTaxLine);
    TailTax(sale);
  }

  lemma TailDiscount(sale: Sale)
    ensures Filter(Tail(sale), IsDiscountLine) == DiscountPart(sale)
  {
    ClosingWithout(sale, IsDiscountLine);
    FilterTail(sale, IsDiscountLine);
    FilterWhen(sale.taxAmount > 0.0, TaxLine(sale.taxAmount), IsDiscountLine);
    FilterWhen(sale.discountAmount > 0.0, DiscountLine(sale.discountAmount), IsDiscountLine);
  }

  /** The discount line appears exactly when the discount is positive. */
  lemma DiscountLineWhenDiscounted(sale: Sale, items: seq<SaleLine>)
    ensures Filter(InvoiceMessage(sale, items), IsDiscountLine)
         == if sale.discountAmount > 0.0 then [DiscountLine(sale.discountAmount)] else []
  {
    FilterMessage(sale, items, IsDiscountLine);
    ItemLinesHoldNo(items, IsDiscountLine);
    HeadWithout(sale, IsDiscountLine);
    TailDiscount(sale);
  }

  lemma HeadCustomer(sale: Sale)
    ensures Filter(Head(sale), IsCustomerLine) == CustomerPart(sale)
  {
    FilterHead(sale, IsCustomerLine);
    FilterWhen(Present(sale.customerName), CustomerLine(sale.customerName.GetOr("")), IsCustomerLine);
  }

  /** The customer line appears exactly when a customer name is present. */
  lemma CustomerLineWhenNamed(sale: Sale, items: seq<SaleLine>)
    ensures Filter(InvoiceMessage(sale, items), IsCustomerLine)
         == if Present(sale.customerName) then [CustomerLine(sale.customerName.value)] else []
  {
    FilterMessage(sale, items, IsCustomerLine);
    ItemLinesHoldNo(items, IsCustomerLine);
    HeadCustomer(sale);
    ClosingWithout(sale, IsCustomerLine);
    TailWithout(sale, IsCustomerLine);
  }

  /** The message lists one bullet per sale item, in item order. */
  lemma MessageBullets(sale: Sale, items: seq<SaleLine>)
    ensures Filter(InvoiceMessage(sale, items), IsBullet) == Bullets(items)
  {
    FilterMessage(sale, items, IsBullet);
    BulletsFollowItems(items);
    HeadWithout(sale, IsBullet);
    ClosingWithout(sale, IsBullet);
    TailWithout(sale, IsBullet);
  }

  // ---------------------------------------------------------------------
  // Phone numbers
  // ---------------------------------------------------------------------

  /** phoneNumber.replace(/\D/g, '') followed by the Sri Lankan prefix rule. */
  function NormalizePhone(phone: string): (r: string)
    ensures AllDigits(r)
    ensures var clean := Filter(phone, IsDigit);
      && |r| >= |clean| && r[|r| - |clean|..] == clean
      && (|r| != |clean| <==> |clean| == 9 && !StartsWith(clean, "94"))
      && (|r| != |clean| ==> |r| == 11 && r[..2] == "94")
  {
    var clean := Filter(phone, IsDigit);
    FilterMembers(phone, IsDigit);
    if !StartsWith(clean, "94") && |clean| == 9 then "94" + clean else clean
  }

  /** Normalising an already normalised number changes nothing. */
  lemma NormalizePhoneIdempotent(phone: string)
    ensures NormalizePhone(NormalizePhone(phone)) == NormalizePhone(phone)
  {
    var r := NormalizePhone(phone);
    FilterKeepsAll(r, IsDigit);
  }

  // ---------------------------------------------------------------------
  // Sending
  // ---------------------------------------------------------------------

  /** The result object of a send: a wa.me link (phone and message), an API
      response, or a failure with its error text. */
  datatype SendResult =
    | LinkReady(phone: string, message: seq<MessageLine>, pdfPath: Option<string>)
    | ApiSent(response: string)
    | Failed(error: string)

  /** sendInvoiceSimple; `pdf` is what PDF generation produced (None when it failed). */
  function SendInvoiceSimple(phone: Option<string>, sale: Sale, items: seq<SaleLine>,
                             includePdf: bool, pdf: Option<string>): (r: SendResult)
    ensures r.Failed? <==> !Present(phone)
    ensures r.Failed? ==> r.error == "Phone number is required"
    ensures r.LinkReady? ==> && r.phone == NormalizePhone(phone.value)
                             && r.message == InvoiceMessage(sale, items)
                             && (r.pdfPath.Some? ==> includePdf)
  {
    if !Present(phone) then Failed("Phone number is required")
    else LinkReady(NormalizePhone(phone.value), InvoiceMessage(sale, items), if includePdf then pdf else None)
  }

  /** sendInvoiceAPI; `response` is the HTTP call's outcome. */
  function SendInvoiceApi(apiToken: string, response: Result<string, string>): (r: SendResult)
    ensures apiToken == "" ==> r == Failed("WhatsApp API token not configured")
    ensures apiToken != "" ==> (r.ApiSent? <==> response.Ok?)
  {
    if apiToken == "" then Failed("WhatsApp API token not configured")
    else match response
      case Ok(body) => ApiSent(body)
      case Err(e) => Failed(e)
  }

  /** sendInvoice: method 'api' takes the API path, every other value the link path. */
  function SendInvoice(sendMethod: string, apiToken: string, phone: Option<string>, sale: Sale,
                       items: seq<SaleLine>, includePdf: bool, pdf: Option<string>,
                       response: Result<string, string>): (r: SendResult)
    ensures sendMethod == "api" ==> !r.LinkReady?
    ensures sendMethod != "api" ==> !r.ApiSent? && (r.Failed? <==> !Present(phone))
  {
    if sendMethod == "api" then SendInvoiceApi(apiToken, response)
    else SendInvoiceSimple(phone, sale, items, includePdf, pdf)
  }
}
