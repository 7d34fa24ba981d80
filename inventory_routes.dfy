/** The stock-keeping routes of backend/routes/inventory.js: creating,
    updating and deleting inventory rows, and the direct quantity adjustment
    (add, floor-at-zero subtract, set). Each route is a method on the shared
    Database tied to a pure function of the old state. */
module InventoryRoutes {
  import opened Common
  import opened Tables

  datatype InventoryError =
    | MissingFields          // 400: name, SKU, buy price or sell price missing
    | NegativePrice          // 400
    | NegativeQuantity       // 400
    | NegativeMinStock       // 400
    | DuplicateSku           // 400: the UNIQUE constraint on sku
    | ItemNotFound           // 404
    | ItemInUse              // 500: the sales_items foreign key refuses the delete
    | MissingAdjustment      // 400: quantity or operation missing
    | InvalidOperation       // 400: operation outside add, subtract, set

  // ---------------------------------------------------------------------
  // PATCH /api/inventory/:id/quantity
  // ---------------------------------------------------------------------

  datatype Operation = Add | Subtract | Set

  /** The request body of the quantity adjustment; None is a missing property. */
  datatype Adjustment = Adjustment(quantity: Option<int>, operation: Option<string>)

  /** The whitelist of operations. */
  function ParseOperation(name: string): (r: Option<Operation>)
    ensures r == Some(Add) <==> name == "add"
    ensures r == Some(Subtract) <==> name == "subtract"
    ensures r == Some(Set) <==> name == "set"
  {
    if name == "add" then Some(Add)
    else if name == "subtract" then Some(Subtract)
    else if name == "set" then Some(Set)
    else None
  }

  /** The quantity each UPDATE statement writes: q + n, GREATEST(0, q - n),
      or n. */
  function NewQuantity(op: Operation, q: int, n: int): int {
    match op
    case Add => q + n
    case Subtract => if q - n > 0 then q - n else 0
    case Set => n
  }

  /** The checks, in the route's order, before any statement runs. */
  function CheckAdjustment(a: Adjustment): (r: Result<(Operation, int), InventoryError>)
    ensures r.Err? <==> a.quantity.None? || !Present(a.operation)
                        || ParseOperation(a.operation.value).None? || a.quantity.value < 0
    ensures r.Ok? ==> Some(r.value.0) == ParseOperation(a.operation.value) && r.value.1 == a.quantity.value >= 0
    ensures a.quantity.None? || !Present(a.operation) ==> r == Err(MissingAdjustment)
  {
    if a.quantity.None? || !Present(a.operation) then Err(MissingAdjustment)
    else match ParseOperation(a.operation.value)
      case None => Err(InvalidOperation)
      case Some(op) =>
        if a.quantity.value < 0 then Err(NegativeQuantity) else Ok((op, a.quantity.value))
  }

  /** The whole route: checks, then one UPDATE that touches no row for an
      unknown id. */
  function AdjustSpec(st: DbState, id: int, a: Adjustment): (out: (Result<int, InventoryError>, DbState))
    ensures out.0.Err? ==> out.1 == st
    ensures CheckAdjustment(a).Ok? ==> (out.0 == Err(ItemNotFound) <==> id !in st.inventory)
    ensures out.0.Ok? ==> id in st.inventory && out.1 == st.(inventory := st.inventory[id := st.inventory[id].(quantity := out.0.value)])
    ensures out.0.Ok? ==>
      && CheckAdjustment(a).Ok?
      && out.0.value == NewQuantity(CheckAdjustment(a).value.0, st.inventory[id].quantity, CheckAdjustment(a).value.1)
  {
    match CheckAdjustment(a)
    case Err(e) => (Err(e), st)
    case Ok((op, n)) =>
      if id !in st.inventory then (Err(ItemNotFound), st)
      else
        var q := NewQuantity(op, st.inventory[id].quantity, n);
        (Ok(q), st.(inventory := st.inventory[id := st.inventory[id].(quantity := q)]))
  }

  /** Adding n, then subtracting n, gives back a non-negative stock. */
  lemma SubtractUndoesAdd(q: int, n: int)
    requires q >= 0 && n >= 0
    ensures NewQuantity(Subtract, NewQuantity(Add, q, n), n) == q
  {
  }

  /** The three operations' effects on a quantity: add raises it by n,
      subtract lowers it by n but never below zero, set replaces it. */
  lemma NewQuantityEffect(q: int, n: int)
    requires n >= 0
    ensures NewQuantity(Add, q, n) - q == n
    ensures NewQuantity(Subtract, q, n) >= 0
    ensures NewQuantity(Subtract, q, n) == q - n || (q - n < 0 && NewQuantity(Subtract, q, n) == 0)
    ensures q >= 0 ==> NewQuantity(Subtract, q, n) <= q
    ensures NewQuantity(Set, q, n) == n
  {
  }

  /** Setting twice is setting once. */
  lemma SetIdempotent(st: DbState, id: int, n: int)
    ensures var a := Adjustment(Some(n), Some("set"));
      AdjustSpec(AdjustSpec(st, id, a).1, id, a) == AdjustSpec(st, id, a)
  {
    var a := Adjustment(Some(n), Some("set"));
    assert ParseOperation("set") == Some(Set);
    if n >= 0 && id in st.inventory {
      var st1 := AdjustSpec(st, id, a).1;
      assert st1.inventory[id := st1.inventory[id].(quantity := n)] == st1.inventory;
    }
  }

  /** A subtract never leaves negative stock behind, and no other row
      changes. */
  lemma SubtractNeverNegative(st: DbState, id: int, n: Option<int>)
    requires id in st.inventory
    ensures var (r, st') := AdjustSpec(st, id, Adjustment(n, Some("subtract")));
      && st'.inventory.Keys == st.inventory.Keys
      && (r.Ok? ==> st'.inventory[id].quantity >= 0)
      && (forall other :: other in st.inventory && other != id ==> st'.inventory[other] == st.inventory[other])
  {
    assert ParseOperation("subtract") == Some(Subtract);
  }

  lemma AdjustConsistent(st: DbState, id: int, a: Adjustment)
    requires Consistent(st)
    ensures Consistent(AdjustSpec(st, id, a).1)
  {
    var (r, st') := AdjustSpec(st, id, a);
    if r.Ok? {
      assert SkusUnique(st'.inventory) by {
        forall x, y | x in st'.inventory && y in st'.inventory && st'.inventory[x].sku == st'.inventory[y].sku
          ensures x == y
        {
          assert st'.inventory[x].sku == st.inventory[x].sku && st'.inventory[y].sku == st.inventory[y].sku;
        }
      }
    }
  }

  /** The route: the checks, the switch choosing the statement, the UPDATE. */
  method AdjustQuantity(db: Database, id: int, a: Adjustment) returns (r: Result<int, InventoryError>)
    requires db.Valid()
    modifies db
    ensures (r, db.State()) == AdjustSpec(old(db.State()), id, a)
    ensures db.Valid()
  {
    AdjustConsistent(db.State(), id, a);
    if a.quantity.None? || !Present(a.operation) {
      return Err(MissingAdjustment);
    }
    var parsed := ParseOperation(a.operation.value);
    if parsed.None? {
      return Err(InvalidOperation);
    }
    var n := a.quantity.value;
    if n < 0 {
      return Err(NegativeQuantity);
    }
    if id !in db.inventory {
      return Err(ItemNotFound);
    }
    var q := db.inventory[id].quantity;
    match parsed.value {
      case Add => q := q + n;
      case Subtract => q := if q - n > 0 then q - n else 0;
      case Set => q := n;
    }
    db.inventory := db.inventory[id := db.inventory[id].(quantity := q)];
    r := Ok(q);
  }

  // ---------------------------------------------------------------------
  // POST /api/inventory and PUT /api/inventory/:id
  // ---------------------------------------------------------------------

  /** The request body of create and update; None is a missing property. */
  datatype ItemForm = ItemForm(
    name: Option<string>,
    sku: Option<string>,
    category: Option<string>,
    supplier: Option<string>,
    buyPrice: Option<real>,
    sellPrice: Option<real>,
    quantity: Option<int>,
    minStock: Option<int>,
    description: Option<string>,
    barcode: Option<string>)

  /** The checks shared by create and update, in their order, and the row
      they write: an absent quantity or minimum stock becomes 0. */
  function ValidateForm(f: ItemForm): (r: Result<InventoryItem, InventoryError>)
    ensures r == Err(MissingFields) <==> !Present(f.name) || !Present(f.sku) || f.buyPrice.None? || f.sellPrice.None?
    ensures r.Ok? <==> && Present(f.name) && Present(f.sku) && f.buyPrice.Some? && f.sellPrice.Some?
                       && f.buyPrice.value >= 0.0 && f.sellPrice.value >= 0.0
                       && f.quantity.GetOr(0) >= 0 && f.minStock.GetOr(0) >= 0
    ensures r.Ok? ==> && r.value.name == f.name.value && r.value.sku == f.sku.value
                      && r.value.buyPrice == f.buyPrice.value && r.value.sellPrice == f.sellPrice.value
                      && r.value.quantity == f.quantity.GetOr(0) && r.value.minStock == f.minStock.GetOr(0)
                      && r.value.category == f.category && r.value.supplier == f.supplier
                      && r.value.description == f.description && r.value.barcode == f.barcode
  {
    if !Present(f.name) || !Present(f.sku) || f.buyPrice.None? || f.sellPrice.None? then Err(MissingFields)
    else if f.buyPrice.value < 0.0 || f.sellPrice.value < 0.0 then Err(NegativePrice)
    else if f.quantity.Some? && f.quantity.value < 0 then Err(NegativeQuantity)
    else if f.minStock.Some? && f.minStock.value < 0 then Err(NegativeMinStock)
    else Ok(InventoryItem(f.name.value, f.sku.value, f.category, f.supplier, f.buyPrice.value, f.sellPrice.value,
                          f.quantity.GetOr(0), f.minStock.GetOr(0), f.description, f.barcode))
  }

  /** Some row other than `except` already carries the SKU. */
  predicate SkuTaken(inventory: map<int, InventoryItem>, sku: string, except: Option<int>) {
    exists id :: id in inventory && inventory[id].sku == sku && Some(id) != except
  }

  /** POST /api/inventory: the row goes in under the next id, unless its SKU
      is already taken. */
  function CreateSpec(st: DbState, f: ItemForm): (out: (Result<int, InventoryError>, DbState))
    ensures out.0.Err? ==> out.1 == st
    ensures ValidateForm(f).Ok? ==> (out.0 == Err(DuplicateSku) <==> SkuTaken(st.inventory, f.sku.value, None))
    ensures out.0.Ok? ==> && ValidateForm(f).Ok? && out.0.value == st.nextItemId
                          && out.1 == st.(inventory := st.inventory[st.nextItemId := ValidateForm(f).value],
                                          nextItemId := st.nextItemId + 1)
  {
    match ValidateForm(f)
    case Err(e) => (Err(e), st)
    case Ok(row) =>
      if SkuTaken(st.inventory, row.sku, None) then (Err(DuplicateSku), st)
      else (Ok(st.nextItemId), st.(inventory := st.inventory[st.nextItemId := row], nextItemId := st.nextItemId + 1))
  }

  /** PUT /api/inventory/:id: every column is replaced; an unknown id matches
      no row, and a SKU held by another row breaks the UNIQUE constraint. */
  function UpdateSpec(st: DbState, id: int, f: ItemForm): (out: (Result<(), InventoryError>, DbState))
    ensures out.0.Err? ==> out.1 == st
    ensures ValidateForm(f).Ok? ==> (out.0 == Err(ItemNotFound) <==> id !in st.inventory)
    ensures ValidateForm(f).Ok? && id in st.inventory ==>
      (out.0 == Err(DuplicateSku) <==> SkuTaken(st.inventory, f.sku.value, Some(id)))
    ensures out.0.Ok? ==> ValidateForm(f).Ok? && out.1 == st.(inventory := st.inventory[id := ValidateForm(f).value])
  {
    match ValidateForm(f)
    case Err(e) => (Err(e), st)
    case Ok(row) =>
      if id !in st.inventory then (Err(ItemNotFound), st)
      else if SkuTaken(st.inventory, row.sku, Some(id)) then (Err(DuplicateSku), st)
      else (Ok(()), st.(inventory := st.inventory[id := row]))
  }

  /** Some recorded sale line names the item. */
  predicate Referenced(saleLines: map<int, seq<SaleLine>>, itemId: int) {
    exists sid, k :: sid in saleLines && 0 <= k < |saleLines[sid]| && saleLines[sid][k].itemId == itemId
  }

  /** DELETE /api/inventory/:id: refused by the foreign key of sales_items
      while a sale line names the item. */
  function DeleteItemSpec(st: DbState, id: int): (out: (Result<(), InventoryError>, DbState))
    ensures out.0 == Err(ItemNotFound) <==> id !in st.inventory
    ensures out.0 == Err(ItemInUse) <==> id in st.inventory && Referenced(st.saleLines, id)
    ensures out.0.Err? ==> out.1 == st
    ensures out.0.Ok? ==> out.1 == st.(inventory := st.inventory - {id})
  {
    if id !in st.inventory then (Err(ItemNotFound), st)
    else if Referenced(st.saleLines, id) then (Err(ItemInUse), st)
    else (Ok(()), st.(inventory := st.inventory - {id}))
  }

  /** An update that leaves out quantity or minimum stock writes 0 there. */
  lemma UpdateResetsOmitted(st: DbState, id: int, f: ItemForm)
    requires UpdateSpec(st, id, f).0.Ok?
    ensures f.quantity.None? ==> UpdateSpec(st, id, f).1.inventory[id].quantity == 0
    ensures f.minStock.None? ==> UpdateSpec(st, id, f).1.inventory[id].minStock == 0
  {
  }

  lemma CreateConsistent(st: DbState, f: ItemForm)
    requires Consistent(st)
    ensures Consistent(CreateSpec(st, f).1)
  {
    var (r, st') := CreateSpec(st, f);
    if r.Ok? {
      var id := st.nextItemId;
      assert SkusUnique(st'.inventory) by {
        forall x, y | x in st'.inventory && y in st'.inventory && st'.inventory[x].sku == st'.inventory[y].sku
          ensures x == y
        {
          if x != id && y != id {
            assert st.inventory[x].sku == st.inventory[y].sku;
          }
        }
      }
    }
  }

  lemma UpdateConsistent(st: DbState, id: int, f: ItemForm)
    requires Consistent(st)
    ensures Consistent(UpdateSpec(st, id, f).1)
  {
    var (r, st') := UpdateSpec(st, id, f);
    if r.Ok? {
      assert SkusUnique(st'.inventory) by {
        forall x, y | x in st'.inventory && y in st'.inventory && st'.inventory[x].sku == st'.inventory[y].sku
          ensures x == y
        {
          if x != id && y != id {
            assert st.inventory[x].sku == st.inventory[y].sku;
          }
        }
      }
    }
  }

  lemma DeleteItemConsistent(st: DbState, id: int)
    requires Consistent(st)
    ensures Consistent(DeleteItemSpec(st, id).1)
  {
    var (r, st') := DeleteItemSpec(st, id);
    if r.Ok? {
      assert LinesReferenceInventory(st'.saleLines, st'.inventory) by {
        forall sid, k | sid in st'.saleLines && 0 <= k < |st'.saleLines[sid]|
          ensures st'.saleLines[sid][k].itemId in st'.inventory
        {
          assert st.saleLines[sid][k].itemId in st.inventory;
        }
      }
    }
  }

  method CreateItem(db: Database, f: ItemForm) returns (r: Result<int, InventoryError>)
    requires db.Valid()
    modifies db
    ensures (r, db.State()) == CreateSpec(old(db.State()), f)
    ensures db.Valid()
  {
    CreateConsistent(db.State(), f);
    var checked := ValidateForm(f);
    if checked.Err? {
      return Err(checked.error);
    }
    if SkuTaken(db.inventory, checked.value.sku, None) {
      return Err(DuplicateSku);
    }
    r := Ok(db.nextItemId);
    db.inventory := db.inventory[db.nextItemId := checked.value];
    db.nextItemId := db.nextItemId + 1;
  }

  method UpdateItem(db: Database, id: int, f: ItemForm) returns (r: Result<(), InventoryError>)
    requires db.Valid()
    modifies db
    ensures (r, db.State()) == UpdateSpec(old(db.State()), id, f)
    ensures db.Valid()
  {
    UpdateConsistent(db.State(), id, f);
    var checked := ValidateForm(f);
    if checked.Err? {
      return Err(checked.error);
    }
    if id !in db.inventory {
      return Err(ItemNotFound);
    }
    if SkuTaken(db.inventory, checked.value.sku, Some(id)) {
      return Err(DuplicateSku);
    }
    db.inventory := db.inventory[id := checked.value];
    r := Ok(());
  }

  method DeleteItem(db: Database, id: int) returns (r: Result<(), InventoryError>)
    requires db.Valid()
    modifies db
    ensures (r, db.State()) == DeleteItemSpec(old(db.State()), id)
    ensures db.Valid()
  {
    DeleteItemConsistent(db.State(), id);
    if id !in db.inventory {
      return Err(ItemNotFound);
    }
    if Referenced(db.saleLines, id) {
      return Err(ItemInUse);
    }
    db.inventory := db.inventory - {id};
    r := Ok(());
  }
}
