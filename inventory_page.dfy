/** The stock page of frontend/src/pages/Inventory.js: the stock badge, the
    search/category/stock filters, the low- and out-of-stock lists, the
    stock value, the category list, and the selection and sort state. */
module InventoryPage {
  import opened Common
  import opened Tables

  /** An inventory row as the page receives it, with its id. */
  datatype Row = Row(id: int, item: InventoryItem)

  datatype Badge = OutOfStock | LowStock | InStock

  /** item.min_stock || 5: an absent or zero minimum falls back to 5. */
  function Threshold(item: InventoryItem): int {
    if item.minStock == 0 then 5 else item.minStock
  }

  /** getStockStatusBadge. */
  function BadgeFor(item: InventoryItem): (b: Badge)
    ensures b == OutOfStock <==> item.quantity == 0
    ensures b == LowStock <==> item.quantity != 0 && item.quantity <= Threshold(item)
    ensures b == InStock <==> item.quantity != 0 && item.quantity > Threshold(item)
  {
    if item.quantity == 0 then OutOfStock
    else if item.quantity <= Threshold(item) then LowStock
    else InStock
  }

  /** getLowStockItems: at or under the threshold, but not empty. */
  function LowStockItems(inventory: seq<Row>): seq<Row> {
    Filter(inventory, (r: Row) => r.item.quantity <= Threshold(r.item) && r.item.quantity > 0)
  }

  /** getOutOfStockItems. */
  function OutOfStockItems(inventory: seq<Row>): seq<Row> {
    Filter(inventory, (r: Row) => r.item.quantity == 0)
  }

  /** The stock filter of the list: all, low, out or in. */
  predicate StockMatches(item: InventoryItem, stockFilter: string) {
    || stockFilter == "all"
    || (stockFilter == "low" && item.quantity <= Threshold(item))
    || (stockFilter == "out" && item.quantity == 0)
    || (stockFilter == "in" && item.quantity > 0)
  }

  predicate SearchMatches(item: InventoryItem, term: string) {
    || Includes(Lower(item.name), Lower(term))
    || Includes(Lower(item.sku), Lower(term))
    || FieldMatches(item.category, term)
    || FieldMatches(item.supplier, term)
  }

  predicate CategoryMatches(item: InventoryItem, categoryFilter: string) {
    categoryFilter == "all" || item.category == Some(categoryFilter)
  }

  /** filteredInventory, before its sort. */
  function FilteredInventory(inventory: seq<Row>, term: string, categoryFilter: string, stockFilter: string): seq<Row> {
    Filter(inventory, (r: Row) => SearchMatches(r.item, term) && CategoryMatches(r.item, categoryFilter) && StockMatches(r.item, stockFilter))
  }

  /** The low-stock list holds exactly the rows badged low that still have
      stock, and the out-of-stock list exactly the rows badged out; the two
      never share a row. */
  lemma StockListsFollowBadges(inventory: seq<Row>)
    ensures forall r :: r in LowStockItems(inventory) <==> r in inventory && BadgeFor(r.item) == LowStock && r.item.quantity > 0
    ensures forall r :: r in OutOfStockItems(inventory) <==> r in inventory && BadgeFor(r.item) == OutOfStock
    ensures forall r :: r in LowStockItems(inventory) ==> r !in OutOfStockItems(inventory)
  {
    FilterMembers(inventory, (r: Row) => r.item.quantity <= Threshold(r.item) && r.item.quantity > 0);
    FilterMembers(inventory, (r: Row) => r.item.quantity == 0);
  }

  /** The "low" filter, unlike the low-stock count, also shows empty rows
      (whenever the threshold is not negative). */
  lemma LowFilterIncludesEmpty(inventory: seq<Row>)
    ensures forall r :: r in OutOfStockItems(inventory) && Threshold(r.item) >= 0 ==>
      r in FilteredInventory(inventory, "", "all", "low") && r !in LowStockItems(inventory)
  {
    StockListsFollowBadges(inventory);
    var p := (r: Row) => SearchMatches(r.item, "") && CategoryMatches(r.item, "all") && StockMatches(r.item, "low");
    FilterMembers(inventory, p);
    forall r | r in OutOfStockItems(inventory) && Threshold(r.item) >= 0
      ensures p(r)
    {
      IncludesEmpty(Lower(r.item.name));
    }
  }

  /** The "out" and "in" filters never share a row, and together they show
      every row whose stock is not negative. */
  lemma OutAndInPartition(inventory: seq<Row>, term: string, categoryFilter: string)
    ensures var out := FilteredInventory(inventory, term, categoryFilter, "out");
      var inStock := FilteredInventory(inventory, term, categoryFilter, "in");
      var all := FilteredInventory(inventory, term, categoryFilter, "all");
      && (forall r :: r in out ==> r !in inStock)
      && (forall r :: r in all ==> (r in out || r in inStock <==> r.item.quantity >= 0))
  {
    FilterMembers(inventory, (r: Row) => SearchMatches(r.item, term) && CategoryMatches(r.item, categoryFilter) && StockMatches(r.item, "out"));
    FilterMembers(inventory, (r: Row) => SearchMatches(r.item, term) && CategoryMatches(r.item, categoryFilter) && StockMatches(r.item, "in"));
    FilterMembers(inventory, (r: Row) => SearchMatches(r.item, term) && CategoryMatches(r.item, categoryFilter) && StockMatches(r.item, "all"));
  }

  /** getTotalValue: quantity times buying price, summed. */
  function TotalValue(inventory: seq<Row>): real {
    Sum(inventory, (r: Row) => r.item.quantity as real * r.item.buyPrice)
  }

  /** The stock value of a store without negative quantities or prices is
      not negative. */
  lemma {:induction false} TotalValueNonNegative(inventory: seq<Row>)
    requires forall k :: 0 <= k < |inventory| ==> inventory[k].item.quantity >= 0 && inventory[k].item.buyPrice >= 0.0
    ensures TotalValue(inventory) >= 0.0
  {
    if inventory != [] {
      var n := |inventory| - 1;
      TotalValueNonNegative(inventory[..n]);
      var last := inventory[n].item;
      assert last.quantity as real * last.buyPrice >= 0.0;
    }
  }

  /** The stock value is additive over any split of the list. */
  lemma TotalValueAppend(a: seq<Row>, b: seq<Row>)
    ensures TotalValue(a + b) == TotalValue(a) + TotalValue(b)
  {
    SumAppend(a, b, (r: Row) => r.item.quantity as real * r.item.buyPrice);
  }

  /** getUniqueCategories: the non-empty categories, first occurrence
      first, each once. */
  function UniqueCategories(inventory: seq<Row>): (r: seq<string>)
    ensures NoDuplicates(r)
  {
    Dedup(PresentCategories(inventory))
  }

  function PresentCategories(inventory: seq<Row>): seq<string> {
    if inventory == [] then []
    else PresentCategories(inventory[..|inventory| - 1])
         + (var c := inventory[|inventory| - 1].item.category; if Present(c) then [c.value] else [])
  }

  /** A name is in the category list exactly when it is the non-empty
      category of some row. */
  lemma {:induction false} UniqueCategoriesMembers(inventory: seq<Row>)
    ensures forall c :: c in UniqueCategories(inventory) <==> c != "" && exists r :: r in inventory && r.item.category == Some(c)
  {
    PresentCategoriesMembers(inventory);
  }

  lemma {:induction false} PresentCategoriesMembers(inventory: seq<Row>)
    ensures forall c :: c in PresentCategories(inventory) <==> c != "" && exists r :: r in inventory && r.item.category == Some(c)
  {
    if inventory != [] {
      var n := |inventory| - 1;
      PresentCategoriesMembers(inventory[..n]);
      assert inventory == inventory[..n] + [inventory[n]];
      forall c
        ensures c in PresentCategories(inventory) <==> c != "" && exists r :: r in inventory && r.item.category == Some(c)
      {
        if c != "" && exists r :: r in inventory && r.item.category == Some(c) {
          var r :| r in inventory && r.item.category == Some(c);
          if r != inventory[n] {
            assert r in inventory[..n];
          }
        }
      }
    }
  }

  // ---------------------------------------------------------------------
  // Selection and sort state
  // ---------------------------------------------------------------------

  /** handleSelectItem: a selected id is dropped, any other is appended. */
  function Toggled(selected: seq<int>, id: int): seq<int> {
    if id in selected then Filter(selected, (x: int) => x != id) else selected + [id]
  }

  /** handleSelectAll: when as many ids are selected as rows are shown, the
      selection is cleared; otherwise it becomes the shown ids, in order. */
  function AllToggled(selected: seq<int>, shown: seq<Row>): (r: seq<int>)
    ensures |selected| == |shown| ==> r == []
    ensures |selected| != |shown| ==> |r| == |shown| && forall k :: 0 <= k < |shown| ==> r[k] == shown[k].id
  {
    if |selected| == |shown| then [] else seq(|shown|, k requires 0 <= k < |shown| => shown[k].id)
  }

  datatype SortOrder = Asc | Desc

  /** handleSort: the current field flips the order, a new field starts
      ascending. */
  function Sorted(sortBy: string, order: SortOrder, field: string): (string, SortOrder) {
    if sortBy == field then (sortBy, if order == Asc then Desc else Asc) else (field, Asc)
  }

  /** Toggling keeps the selection free of duplicates and flips exactly the
      membership of the toggled id. */
  lemma ToggleMembers(selected: seq<int>, id: int)
    requires NoDuplicates(selected)
    ensures NoDuplicates(Toggled(selected, id))
    ensures forall x :: x in Toggled(selected, id) <==> (x in selected) != (x == id)
  {
    var keep := (x: int) => x != id;
    FilterMembers(selected, keep);
    if id in selected {
      FilterIsSubsequence(selected, keep);
      SubsequenceNoDuplicates(Filter(selected, keep), selected);
    }
  }

  lemma {:induction false} SubsequenceNoDuplicates(a: seq<int>, b: seq<int>)
    requires IsSubsequence(a, b) && NoDuplicates(b)
    ensures NoDuplicates(a)
    decreases |b|
  {
    if a != [] && b != [] {
      assert NoDuplicates(b[1..]) by {
        forall i, j | 0 <= i < j < |b[1..]|
          ensures b[1..][i] != b[1..][j]
        {
          assert b[1..][i] == b[i + 1] && b[1..][j] == b[j + 1];
        }
      }
      if a[0] == b[0] {
        SubsequenceNoDuplicates(a[1..], b[1..]);
        SubsequenceIn(a[1..], b[1..]);
        assert b[0] !in b[1..];
        forall j | 0 < j < |a|
          ensures a[0] != a[j]
        {
          assert a[j] == a[1..][j - 1];
        }
      } else {
        SubsequenceNoDuplicates(a, b[1..]);
      }
    }
  }

  lemma {:induction false} SubsequenceIn(a: seq<int>, b: seq<int>)
    requires IsSubsequence(a, b)
    ensures forall x :: x in a ==> x in b
    decreases |b|
  {
    if a != [] && b != [] {
      if a[0] == b[0] {
        SubsequenceIn(a[1..], b[1..]);
        assert a == [a[0]] + a[1..];
        assert b == [b[0]] + b[1..];
      } else {
        SubsequenceIn(a, b[1..]);
        assert b == [b[0]] + b[1..];
      }
    }
  }

  /** Toggling an unselected id twice gives back the selection unchanged;
      toggling a selected id twice keeps the same ids, with that id moved to
      the end. */
  lemma ToggleTwice(selected: seq<int>, id: int)
    requires NoDuplicates(selected)
    ensures id !in selected ==> Toggled(Toggled(selected, id), id) == selected
    ensures id in selected ==> Toggled(Toggled(selected, id), id) == Filter(selected, (x: int) => x != id) + [id]
  {
    var keep := (x: int) => x != id;
    if id !in selected {
      FilterAppend(selected, [id], keep);
      assert Filter([id], keep) == [];
      FilterKeepsAll(selected, keep);
    } else {
      FilterMembers(selected, keep);
    }
  }

  /** Sorting twice by the current field restores the order; a new field
      always starts ascending. */
  lemma SortToggles(sortBy: string, order: SortOrder, field: string)
    ensures sortBy == field ==> Sorted(Sorted(sortBy, order, field).0, Sorted(sortBy, order, field).1, field) == (sortBy, order)
    ensures sortBy == field ==> Sorted(sortBy, order, field).1 != order
    ensures sortBy != field ==> Sorted(sortBy, order, field) == (field, Asc)
  {
  }

  /** The page's selection and sort state. */
  class InventoryView {
    var selected: seq<int>
    var sortBy: string
    var sortOrder: SortOrder

    ghost predicate Valid()
      reads this
    {
      NoDuplicates(selected)
    }

    constructor ()
      ensures Valid() && selected == [] && sortBy == "item_name" && sortOrder == Asc
    {
      selected, sortBy, sortOrder := [], "item_name", Asc;
    }

    method SelectItem(id: int)
      requires Valid()
      modifies this
      ensures Valid()
      ensures selected == Toggled(old(selected), id)
      ensures sortBy == old(sortBy) && sortOrder == old(sortOrder)
    {
      ToggleMembers(selected, id);
      if id in selected {
        selected := Filter(selected, (x: int) => x != id);
      } else {
        selected := selected + [id];
      }
    }

    method SelectAll(shown: seq<Row>)
      requires forall i, j :: 0 <= i < j < |shown| ==> shown[i].id != shown[j].id
      modifies this
      ensures Valid()
      ensures selected == AllToggled(old(selected), shown)
      ensures sortBy == old(sortBy) && sortOrder == old(sortOrder)
    {
      if |selected| == |shown| {
        selected := [];
      } else {
        selected := seq(|shown|, k requires 0 <= k < |shown| => shown[k].id);
      }
    }

    method Sort(field: string)
      modifies this
      ensures (sortBy, sortOrder) == Sorted(old(sortBy), old(sortOrder), field)
      ensures selected == old(selected)
    {
      if sortBy == field {
        sortOrder := if sortOrder == Asc then Desc else Asc;
      } else {
        sortBy, sortOrder := field, Asc;
      }
    }
  }
}
