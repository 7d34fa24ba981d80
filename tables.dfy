/** The relational tables the sale workflow reads and writes: inventory,
    sales (invoice headers) and sales_items (line items). Each table is a map
    from its AUTO_INCREMENT primary key to a row; sales_items rows are grouped
    by the sale that owns them, since they are only ever read, written and
    cascade-deleted per sale. */
module Tables {
  import opened Common

  datatype PaymentStatus = Paid | Unpaid | Partial

  datatype InventoryItem = InventoryItem(
    name: string,
    sku: string,
    category: Option<string>,
    supplier: Option<string>,
    buyPrice: real,
    sellPrice: real,
    quantity: int,
    minStock: int,
    description: Option<string>,
    barcode: Option<string>)

  datatype Sale = Sale(
    invoice: string,
    date: string,
    customerName: Option<string>,
    customerPhone: Option<string>,
    subtotal: real,
    taxAmount: real,
    discountAmount: real,
    totalAmount: real,
    paidAmount: real,
    status: PaymentStatus)

  /** A sales_items row without its own id and sale_id: name, sku and unit
      price are a snapshot of the inventory row at sale time. */
  datatype SaleLine = SaleLine(
    itemId: int,
    itemName: string,
    sku: string,
    quantity: int,
    unitPrice: real,
    lineTotal: real)

  /** A snapshot of the whole store. */
  datatype DbState = DbState(
    inventory: map<int, InventoryItem>,
    sales: map<int, Sale>,
    saleLines: map<int, seq<SaleLine>>,
    nextItemId: int,
    nextSaleId: int)

  /** UNIQUE on inventory.sku. */
  predicate SkusUnique(inventory: map<int, InventoryItem>) {
    forall a, b :: a in inventory && b in inventory && inventory[a].sku == inventory[b].sku ==> a == b
  }

  /** UNIQUE on sales.invoice. */
  predicate InvoicesUnique(sales: map<int, Sale>) {
    forall a, b :: a in sales && b in sales && sales[a].invoice == sales[b].invoice ==> a == b
  }

  /** FOREIGN KEY (item_id) REFERENCES inventory (id). */
  predicate LinesReferenceInventory(saleLines: map<int, seq<SaleLine>>, inventory: map<int, InventoryItem>) {
    forall sid, k :: sid in saleLines && 0 <= k < |saleLines[sid]| ==> saleLines[sid][k].itemId in inventory
  }

  /** What the schema's keys and constraints guarantee of every committed state. */
  predicate Consistent(st: DbState) {
    && st.saleLines.Keys == st.sales.Keys
    && st.nextSaleId >= 1 && st.nextItemId >= 1
    && (forall id :: id in st.sales ==> 1 <= id < st.nextSaleId)
    && (forall id :: id in st.inventory ==> 1 <= id < st.nextItemId)
    && SkusUnique(st.inventory)
    && InvoicesUnique(st.sales)
    && LinesReferenceInventory(st.saleLines, st.inventory)
  }

  /** The database handle shared by the route modules. */
  class Database {
    var inventory: map<int, InventoryItem>
    var sales: map<int, Sale>
    var saleLines: map<int, seq<SaleLine>>
    var nextItemId: int
    var nextSaleId: int

    function State(): DbState
      reads this
    {
      DbState(inventory, sales, saleLines, nextItemId, nextSaleId)
    }

    ghost predicate Valid()
      reads this
    {
      Consistent(State())
    }

    /** Empty tables whose AUTO_INCREMENT counters start at 1. */
    constructor ()
      ensures Valid()
      ensures State() == DbState(map[], map[], map[], 1, 1)
    {
      inventory, sales, saleLines := map[], map[], map[];
      nextItemId, nextSaleId := 1, 1;
    }
  }
}
