/** The dashboard routes of backend/routes/dashboard.js. Each SQL aggregate
    is a fold over the rows of its table: COUNT(*) is the length,
    SUM(CASE WHEN c THEN x ELSE 0 END) a sum with the other rows counted as
    zero, and a SUM over no rows is NULL, which the route turns into 0. */
module Dashboard {
  import opened Common
  import opened Tables
  import opened InvestmentsPage

  /** A sales row with its creation time (milliseconds) and calendar day. */
  datatype SaleRecord = SaleRecord(sale: Sale, createdAt: int, createdDay: int)

  /** An investments row with the partner name stored beside it. */
  datatype InvestmentRecord = InvestmentRecord(record: Investment, partnerName: string)

  /** SQL SUM: NULL over no rows. */
  function SqlSum<T>(rows: seq<T>, f: T -> real): (r: Option<real>)
    ensures r.None? <==> rows == []
    ensures r.Some? ==> r.value == Sum(rows, f)
  {
    if rows == [] then None else Some(Sum(rows, f))
  }

  /** `value || 0` applied to a sum. */
  function OrZero(sum: Option<real>): real {
    sum.GetOr(0.0)
  }

  // ---------------------------------------------------------------------
  // Partner-type tally
  // ---------------------------------------------------------------------

  /** A row of SELECT type, COUNT(*) FROM partners GROUP BY type. */
  datatype TypeGroup = TypeGroup(partnerType: string, count: nat)

  /** What the forEach leaves in a counter: the count of the last group of
      that type, 0 when there is none. */
  function TypeCount(groups: seq<TypeGroup>, t: string): nat {
    if groups == [] then 0
    else if groups[|groups| - 1].partnerType == t then groups[|groups| - 1].count
    else TypeCount(groups[..|groups| - 1], t)
  }

  /** The forEach over the grouped rows. */
  method TallyPartnerTypes(groups: seq<TypeGroup>) returns (investors: nat, suppliers: nat)
    ensures investors == TypeCount(groups, "investor")
    ensures suppliers == TypeCount(groups, "supplier")
  {
    investors, suppliers := 0, 0;
    for i := 0 to |groups|
      invariant investors == TypeCount(groups[..i], "investor")
      invariant suppliers == TypeCount(groups[..i], "supplier")
    {
      assert groups[..i + 1][..i] == groups[..i];
      if groups[i].partnerType == "investor" {
        investors := groups[i].count;
      }
      if groups[i].partnerType == "supplier" {
        suppliers := groups[i].count;
      }
    }
    assert groups[..|groups|] == groups;
  }

  /** The rows GROUP BY type yields for a partner list: one row per type
      present, holding the number of partners of that type. */
  predicate GroupsOf(groups: seq<TypeGroup>, partners: seq<Partner>) {
    && (forall i, j :: 0 <= i < j < |groups| ==> groups[i].partnerType != groups[j].partnerType)
    && (forall i :: 0 <= i < |groups| ==>
          groups[i].count == Count(partners, (p: Partner) => p.partnerType == groups[i].partnerType))
    && (forall k :: 0 <= k < |partners| ==>
          exists i :: 0 <= i < |groups| && groups[i].partnerType == partners[k].partnerType)
  }

  lemma {:induction false} TypeCountFinds(groups: seq<TypeGroup>, t: string, i: int)
    requires forall a, b :: 0 <= a < b < |groups| ==> groups[a].partnerType != groups[b].partnerType
    requires 0 <= i < |groups| && groups[i].partnerType == t
    ensures TypeCount(groups, t) == groups[i].count
  {
    var n := |groups| - 1;
    if i < n {
      TypeCountFinds(groups[..n], t, i);
    }
  }

  lemma {:induction false} TypeCountAbsent(groups: seq<TypeGroup>, t: string)
    requires forall i :: 0 <= i < |groups| ==> groups[i].partnerType != t
    ensures TypeCount(groups, t) == 0
  {
    if groups != [] {
      TypeCountAbsent(groups[..|groups| - 1], t);
    }
  }

  lemma TallyOneType(groups: seq<TypeGroup>, partners: seq<Partner>, t: string)
    requires GroupsOf(groups, partners)
    ensures TypeCount(groups, t) == Count(partners, (p: Partner) => p.partnerType == t)
  {
    if i :| 0 <= i < |groups| && groups[i].partnerType == t {
      TypeCountFinds(groups, t, i);
    } else {
      TypeCountAbsent(groups, t);
      CountNone(partners, (p: Partner) => p.partnerType == t);
    }
  }

  /** Over grouped rows, each counter is the number of partners of its type;
      together they never exceed the partner count. */
  lemma TallyCountsPartners(groups: seq<TypeGroup>, partners: seq<Partner>, t: string)
    requires GroupsOf(groups, partners)
    ensures TypeCount(groups, t) == Count(partners, (p: Partner) => p.partnerType == t)
    ensures TypeCount(groups, "investor") + TypeCount(groups, "supplier") <= |partners|
  {
    TallyOneType(groups, partners, t);
    TallyOneType(groups, partners, "investor");
    TallyOneType(groups, partners, "supplier");
    CountDisjoint(partners, (p: Partner) => p.partnerType == "investor", (p: Partner) => p.partnerType == "supplier");
  }

  // ---------------------------------------------------------------------
  // Overview: investments, inventory, sales, today
  // ---------------------------------------------------------------------

  datatype InvestmentStats = InvestmentStats(
    totalInvestments: real,
    totalWithdrawals: real,
    netInvestments: real,
    totalInvestmentTransactions: nat)

  function OverviewInvestments(records: seq<Investment>): (s: InvestmentStats)
    ensures s.netInvestments == s.totalInvestments - s.totalWithdrawals
    ensures s.totalInvestmentTransactions == |records|
  {
    var invested := OrZero(SqlSum(records, (r: Investment) => if r.recordType == "invest" then r.amount else 0.0));
    var withdrawn := OrZero(SqlSum(records, (r: Investment) => if r.recordType == "withdraw" then r.amount else 0.0));
    InvestmentStats(invested, withdrawn, invested - withdrawn, |records|)
  }

  /** The dashboard's investment totals agree with the investments page's,
      including on an empty ledger. */
  lemma OverviewMatchesLedgerPage(records: seq<Investment>)
    ensures OverviewInvestments(records).totalInvestments == CalculateTotals(records).totalInvestments
    ensures OverviewInvestments(records).totalWithdrawals == CalculateTotals(records).totalWithdrawals
    ensures OverviewInvestments(records).netInvestments == CalculateTotals(records).netAmount
  {
    FilterSumIsCaseSum(records, "invest");
    FilterSumIsCaseSum(records, "withdraw");
  }

  datatype InventoryStats = InventoryStats(
    totalItems: nat,
    totalQuantity: real,
    totalBuyValue: real,
    totalSellValue: real,
    outOfStockItems: nat,
    lowStockItems: nat)

  function OverviewInventory(items: seq<InventoryItem>): (s: InventoryStats)
    ensures s.totalItems == |items|
    ensures s.outOfStockItems <= s.totalItems && s.lowStockItems <= s.totalItems
  {
    CountDisjoint(items, (x: InventoryItem) => x.quantity == 0, (x: InventoryItem) => false);
    CountDisjoint(items, (x: InventoryItem) => x.quantity <= 5, (x: InventoryItem) => false);
    InventoryStats(
      |items|,
      OrZero(SqlSum(items, (x: InventoryItem) => x.quantity as real)),
      OrZero(SqlSum(items, (x: InventoryItem) => x.quantity as real * x.buyPrice)),
      OrZero(SqlSum(items, (x: InventoryItem) => x.quantity as real * x.sellPrice)),
      Count(items, (x: InventoryItem) => x.quantity == 0),
      Count(items, (x: InventoryItem) => x.quantity <= 5))
  }

  /** low_stock_items counts quantity <= 5 including zero, so every
      out-of-stock item is also a low-stock item. */
  lemma OutOfStockWithinLowStock(items: seq<InventoryItem>)
    ensures OverviewInventory(items).outOfStockItems <= OverviewInventory(items).lowStockItems
  {
    CountMonotone(items, (x: InventoryItem) => x.quantity == 0, (x: InventoryItem) => x.quantity <= 5);
  }

  datatype SalesStats = SalesStats(
    totalSales: nat,
    totalRevenue: real,
    paidRevenue: real,
    unpaidRevenue: real,
    paidSales: nat,
    unpaidSales: nat)

  function StatusAmount(r: SaleRecord, status: PaymentStatus): real {
    if r.sale.status == status then r.sale.totalAmount else 0.0
  }

  function OverviewSales(sales: seq<SaleRecord>): (s: SalesStats)
    ensures s.totalSales == |sales|
    ensures s.paidSales + s.unpaidSales <= s.totalSales
  {
    CountDisjoint(sales, (r: SaleRecord) => r.sale.status == Paid, (r: SaleRecord) => r.sale.status == Unpaid);
    SalesStats(
      |sales|,
      OrZero(SqlSum(sales, (r: SaleRecord) => r.sale.totalAmount)),
      OrZero(SqlSum(sales, (r: SaleRecord) => StatusAmount(r, Paid))),
      OrZero(SqlSum(sales, (r: SaleRecord) => StatusAmount(r, Unpaid))),
      Count(sales, (r: SaleRecord) => r.sale.status == Paid),
      Count(sales, (r: SaleRecord) => r.sale.status == Unpaid))
  }

  /** Partial sales fall in neither bucket: the revenue is the paid, the
      unpaid and the partial revenue together. */
  lemma RevenueSplitsByStatus(sales: seq<SaleRecord>)
    ensures OverviewSales(sales).totalRevenue
         == OverviewSales(sales).paidRevenue + OverviewSales(sales).unpaidRevenue
          + Sum(sales, (r: SaleRecord) => StatusAmount(r, Partial))
  {
    SumSplit(sales, (r: SaleRecord) => r.sale.totalAmount, (r: SaleRecord) => StatusAmount(r, Paid),
             (r: SaleRecord) => StatusAmount(r, Unpaid), (r: SaleRecord) => StatusAmount(r, Partial));
  }

  /** Today's count and revenue: the sales whose calendar day is `today`. */
  function TodaySales(sales: seq<SaleRecord>, today: int): (r: (nat, real))
    ensures r.0 <= |sales|
  {
    var rows := Filter(sales, (s: SaleRecord) => s.createdDay == today);
    (|rows|, OrZero(SqlSum(rows, (s: SaleRecord) => s.sale.totalAmount)))
  }

  /** When every sale is from today, today's figures are the overall ones. */
  lemma AllTodayIsOverall(sales: seq<SaleRecord>, today: int)
    requires forall k :: 0 <= k < |sales| ==> sales[k].createdDay == today
    ensures TodaySales(sales, today).0 == OverviewSales(sales).totalSales
    ensures TodaySales(sales, today).1 == OverviewSales(sales).totalRevenue
  {
    FilterKeepsAll(sales, (s: SaleRecord) => s.createdDay == today);
  }

  // ---------------------------------------------------------------------
  // Recent activities
  // ---------------------------------------------------------------------

  datatype Activity =
    | SaleActivity(reference: string, itemName: Option<string>, amount: real, status: PaymentStatus, createdAt: int)
    | InvestmentActivity(partnerName: string, investmentType: string, amount: real, createdAt: int)

  function SaleActivityOf(r: SaleRecord): Activity {
    SaleActivity(r.sale.invoice, r.sale.customerName, r.sale.totalAmount, r.sale.status, r.createdAt)
  }

  function InvestmentActivityOf(r: InvestmentRecord): Activity {
    InvestmentActivity(r.partnerName, r.record.recordType, r.record.amount, r.record.createdAt)
  }

  /** `req.query.limit || 10`. */
  function LimitOf(limit: Option<nat>): nat {
    limit.GetOr(10)
  }

  /** The sort key that puts later rows first. */
  function Negated<T>(createdAt: T -> int): T -> int {
    (r: T) => -createdAt(r)
  }

  /** ORDER BY created_at DESC LIMIT n. */
  function Newest<T>(rows: seq<T>, createdAt: T -> int, n: nat): seq<T> {
    Take(SortBy(rows, Negated(createdAt)), n)
  }

  lemma NewestRows<T>(rows: seq<T>, createdAt: T -> int, n: nat)
    ensures |Newest(rows, createdAt, n)| <= n
    ensures forall i, j :: 0 <= i < j < |Newest(rows, createdAt, n)| ==>
      createdAt(Newest(rows, createdAt, n)[i]) >= createdAt(Newest(rows, createdAt, n)[j])
    ensures multiset(Newest(rows, createdAt, n)) <= multiset(rows)
    ensures forall x :: x in Newest(rows, createdAt, n) ==> x in rows
    ensures |Newest(rows, createdAt, n)| == if n < |rows| then n else |rows|
    ensures n >= |rows| ==> multiset(Newest(rows, createdAt, n)) == multiset(rows)
    ensures forall x, y :: x in Newest(rows, createdAt, n) && y in multiset(rows) - multiset(Newest(rows, createdAt, n)) ==>
      createdAt(y) <= createdAt(x)
  {
    NewestOrdered(rows, createdAt, n);
    NewestOmitsOlder(rows, createdAt, n);
  }

  /** The rows kept come newest first and are drawn from the table. */
  lemma NewestOrdered<T>(rows: seq<T>, createdAt: T -> int, n: nat)
    ensures |Newest(rows, createdAt, n)| <= n
    ensures forall i, j :: 0 <= i < j < |Newest(rows, createdAt, n)| ==>
      createdAt(Newest(rows, createdAt, n)[i]) >= createdAt(Newest(rows, createdAt, n)[j])
    ensures multiset(Newest(rows, createdAt, n)) <= multiset(rows)
    ensures forall x :: x in Newest(rows, createdAt, n) ==> x in rows
  {
    var key := Negated(createdAt);
    SortBySorted(rows, key);
    SortByPermutes(rows, key);
    TakeKeepsOrder(SortBy(rows, key), n, key);
    var r := Newest(rows, createdAt, n);
    forall i, j | 0 <= i < j < |r|
      ensures createdAt(r[i]) >= createdAt(r[j])
    {
      assert key(r[i]) <= key(r[j]);
    }
    forall x | x in r
      ensures x in rows
    {
      assert x in multiset(r);
    }
  }

  /** The query keeps min(n, table size) rows, the whole table when n
      reaches its size, and leaves out no row newer than one it keeps. */
  lemma NewestOmitsOlder<T>(rows: seq<T>, createdAt: T -> int, n: nat)
    ensures |Newest(rows, createdAt, n)| == if n < |rows| then n else |rows|
    ensures n >= |rows| ==> multiset(Newest(rows, createdAt, n)) == multiset(rows)
    ensures forall x, y :: x in Newest(rows, createdAt, n) && y in multiset(rows) - multiset(Newest(rows, createdAt, n)) ==>
      createdAt(y) <= createdAt(x)
  {
    var key := Negated(createdAt);
    var s := SortBy(rows, key);
    SortBySorted(rows, key);
    SortByPermutes(rows, key);
    var r := Newest(rows, createdAt, n);
    assert r == s[..|r|];
    PrefixFirst(s, |r|, key);
    forall x, y | x in r && y in multiset(rows) - multiset(r)
      ensures createdAt(y) <= createdAt(x)
    {
      assert key(x) <= key(y);
    }
  }


  /** In a sequence sorted by key, every element of a prefix has a key no
      greater than any element left after it. */
  lemma PrefixFirst<T>(s: seq<T>, m: nat, key: T -> int)
    requires SortedBy(s, key) && m <= |s|
    ensures forall x, y :: x in s[..m] && y in multiset(s) - multiset(s[..m]) ==> key(x) <= key(y)
  {
    assert s == s[..m] + s[m..];
    assert multiset(s) - multiset(s[..m]) == multiset(s[m..]);
    forall x, y | x in s[..m] && y in multiset(s) - multiset(s[..m])
      ensures key(x) <= key(y)
    {
      assert y in s[m..];
      var i :| 0 <= i < m && s[..m][i] == x;
      var j :| 0 <= j < |s| - m && s[m..][j] == y;
      assert s[i] == x && s[m + j] == y;
    }
  }

  /** Reading rows through a map that keeps their time commutes with the
      newest-first query. */
  lemma NewestMap<A, B>(rows: seq<A>, f: A -> B, ta: A -> int, tb: B -> int, n: nat)
    requires forall y :: tb(f(y)) == ta(y)
    ensures Map(Newest(rows, ta, n), f) == Newest(Map(rows, f), tb, n)
  {
    SortByMap(rows, f, Negated(ta), Negated(tb));
    TakeMap(SortBy(rows, Negated(ta)), f, n);
  }

  /** Taking the newest n of each table, then the newest n of both lists
      together, leaves out no row newer than one it keeps. */
  lemma TwoStageNewest<T>(a: seq<T>, b: seq<T>, time: T -> int, n: nat)
    ensures var r := Newest(Newest(a, time, n) + Newest(b, time, n), time, n);
      forall x, y :: x in r && y in multiset(a + b) - multiset(r) ==> time(y) <= time(x)
  {
    var a' := Newest(a, time, n);
    var b' := Newest(b, time, n);
    var m := a' + b';
    var r := Newest(m, time, n);
    NewestRows(a, time, n);
    NewestRows(b, time, n);
    NewestRows(m, time, n);
    assert multiset(a + b) == multiset(a) + multiset(b);
    assert multiset(m) == multiset(a') + multiset(b');
    forall x, y | x in r && y in multiset(a + b) - multiset(r)
      ensures time(y) <= time(x)
    {
      if y !in multiset(m) - multiset(r) {
        if y in multiset(a) - multiset(a') {
          CutSide(a', m, r, time, n, x, y);
        } else {
          assert y in multiset(b) - multiset(b');
          CutSide(b', m, r, time, n, x, y);
        }
      }
    }
  }

  /** When one table's query was cut at n rows and a row `y` older than all
      of them was dropped, `y` is no newer than anything the final cut keeps:
      either one of that table's rows was cut again, or they all survived and
      fill the final list. */
  lemma CutSide<T>(side: seq<T>, m: seq<T>, r: seq<T>, time: T -> int, n: nat, x: T, y: T)
    requires |side| == n && |r| == n
    requires multiset(side) <= multiset(m)
    requires forall z :: z in side ==> time(y) <= time(z)
    requires forall z, w :: z in r && w in multiset(m) - multiset(r) ==> time(w) <= time(z)
    requires x in r
    ensures time(y) <= time(x)
  {
    if multiset(side) <= multiset(r) {
      var d := multiset(r) - multiset(side);
      assert multiset(r) == multiset(side) + d;
      assert |d| == 0;
      assert x in multiset(side);
    } else {
      var w :| multiset(side)[w] > multiset(r)[w];
      assert w in multiset(m) - multiset(r);
      assert w in side;
    }
  }

  function SaleTime(r: SaleRecord): int { r.createdAt }
  function InvestmentTime(r: InvestmentRecord): int { r.record.createdAt }
  function ActivityTime(a: Activity): int { a.createdAt }
  predicate IsSale(a: Activity) { a.SaleActivity? }
  predicate IsInvestment(a: Activity) { a.InvestmentActivity? }

  /** What GET /recent-activities returns: the newest sales and the newest
      investments, each query limited, merged, sorted newest-first and cut
      to the limit. */
  function RecentList(sales: seq<SaleRecord>, investments: seq<InvestmentRecord>, n: nat): seq<Activity> {
    var merged := Map(Newest(sales, SaleTime, n), SaleActivityOf) + Map(Newest(investments, InvestmentTime, n), InvestmentActivityOf);
    Newest(merged, ActivityTime, n)
  }

  /** GET /recent-activities: each query's rows are pushed into one list,
      which is then sorted and cut. */
  method RecentActivities(sales: seq<SaleRecord>, investments: seq<InvestmentRecord>, limit: Option<nat>)
    returns (activities: seq<Activity>)
    ensures activities == RecentList(sales, investments, LimitOf(limit))
    ensures |activities| == if LimitOf(limit) < |sales| + |investments| then LimitOf(limit) else |sales| + |investments|
    ensures forall i, j :: 0 <= i < j < |activities| ==> activities[i].createdAt >= activities[j].createdAt
    ensures Count(activities, IsSale) <= LimitOf(limit)
    ensures Count(activities, IsInvestment) <= LimitOf(limit)
    ensures forall a :: a in activities ==>
      (exists r :: r in sales && a == SaleActivityOf(r)) || (exists r :: r in investments && a == InvestmentActivityOf(r))
    ensures var all := Map(sales, SaleActivityOf) + Map(investments, InvestmentActivityOf);
      forall a, b :: a in activities && b in multiset(all) - multiset(activities) ==> b.createdAt <= a.createdAt
  {
    var n := LimitOf(limit);
    var fromSales := Map(Newest(sales, SaleTime, n), SaleActivityOf);
    var fromInvestments := Map(Newest(investments, InvestmentTime, n), InvestmentActivityOf);

    activities := [];
    activities := activities + fromSales;
    activities := activities + fromInvestments;
    assert activities == fromSales + fromInvestments;
    activities := Newest(activities, ActivityTime, n);

    RecentListShape(sales, investments, n);
    NewestOfBoth(sales, investments, n);
    RecentCount(sales, investments, n);
  }

  /** The recent activities come newest first, at most n from each source,
      and each is a sale or an investment of the tables. */
  lemma RecentListShape(sales: seq<SaleRecord>, investments: seq<InvestmentRecord>, n: nat)
    ensures var r := RecentList(sales, investments, n);
      && (forall i, j :: 0 <= i < j < |r| ==> r[i].createdAt >= r[j].createdAt)
      && Count(r, IsSale) <= n
      && Count(r, IsInvestment) <= n
      && (forall a :: a in r ==>
           (exists x :: x in sales && a == SaleActivityOf(x)) || (exists x :: x in investments && a == InvestmentActivityOf(x)))
  {
    var saleRows := Newest(sales, SaleTime, n);
    var investmentRows := Newest(investments, InvestmentTime, n);
    var fromSales := Map(saleRows, SaleActivityOf);
    var fromInvestments := Map(investmentRows, InvestmentActivityOf);
    var merged := fromSales + fromInvestments;
    var r := Newest(merged, ActivityTime, n);
    NewestOrdered(sales, SaleTime, n);
    NewestOrdered(investments, InvestmentTime, n);
    NewestOrdered(merged, ActivityTime, n);
    SourceCounts(r, fromSales, fromInvestments);
    FromSources(r, sales, investments, saleRows, investmentRows);
  }

  /** The recent activities leave out no sale or investment newer than one
      they keep. */
  lemma NewestOfBoth(sales: seq<SaleRecord>, investments: seq<InvestmentRecord>, n: nat)
    ensures var kept := RecentList(sales, investments, n);
      var all := Map(sales, SaleActivityOf) + Map(investments, InvestmentActivityOf);
      forall a, b :: a in kept && b in multiset(all) - multiset(kept) ==> b.createdAt <= a.createdAt
  {
    var s := Map(sales, SaleActivityOf);
    var i := Map(investments, InvestmentActivityOf);
    var merged := Map(Newest(sales, SaleTime, n), SaleActivityOf) + Map(Newest(investments, InvestmentTime, n), InvestmentActivityOf);
    NewestMap(sales, SaleActivityOf, SaleTime, ActivityTime, n);
    NewestMap(investments, InvestmentActivityOf, InvestmentTime, ActivityTime, n);
    assert merged == Newest(s, ActivityTime, n) + Newest(i, ActivityTime, n);
    var kept := Newest(merged, ActivityTime, n);
    TwoStageNewest(s, i, ActivityTime, n);
    forall a: Activity, b: Activity | a in kept && b in multiset(s + i) - multiset(kept)
      ensures b.createdAt <= a.createdAt
    {
      assert ActivityTime(b) <= ActivityTime(a);
    }
  }

  /** The route returns the limit's worth of activities, or every sale and
      investment when there are fewer. */
  lemma RecentCount(sales: seq<SaleRecord>, investments: seq<InvestmentRecord>, n: nat)
    ensures |RecentList(sales, investments, n)| == if n < |sales| + |investments| then n else |sales| + |investments|
  {
    var merged := Map(Newest(sales, SaleTime, n), SaleActivityOf) + Map(Newest(investments, InvestmentTime, n), InvestmentActivityOf);
    NewestOmitsOlder(sales, SaleTime, n);
    NewestOmitsOlder(investments, InvestmentTime, n);
    NewestOmitsOlder(merged, ActivityTime, n);
  }

  /** Each source contributes no more entries than its own query returned. */
  lemma SourceCounts(activities: seq<Activity>, fromSales: seq<Activity>, fromInvestments: seq<Activity>)
    requires multiset(activities) <= multiset(fromSales + fromInvestments)
    requires forall k :: 0 <= k < |fromSales| ==> fromSales[k].SaleActivity?
    requires forall k :: 0 <= k < |fromInvestments| ==> fromInvestments[k].InvestmentActivity?
    ensures Count(activities, IsSale) <= |fromSales|
    ensures Count(activities, IsInvestment) <= |fromInvestments|
  {
    CountOfSubMultiset(activities, fromSales + fromInvestments, IsSale);
    CountOfSubMultiset(activities, fromSales + fromInvestments, IsInvestment);
    CountAppend(fromSales, fromInvestments, IsSale);
    CountAppend(fromSales, fromInvestments, IsInvestment);
    CountNone(fromInvestments, IsSale);
    CountNone(fromSales, IsInvestment);
    CountDisjoint(fromSales, IsSale, (a: Activity) => false);
    CountDisjoint(fromInvestments, IsInvestment, (a: Activity) => false);
  }

  /** Every merged activity is the image of a row of its own table. */
  lemma FromSources(activities: seq<Activity>, sales: seq<SaleRecord>, investments: seq<InvestmentRecord>,
                    saleRows: seq<SaleRecord>, investmentRows: seq<InvestmentRecord>)
    requires forall a :: a in activities ==> a in Map(saleRows, SaleActivityOf) + Map(investmentRows, InvestmentActivityOf)
    requires forall r :: r in saleRows ==> r in sales
    requires forall r :: r in investmentRows ==> r in investments
    ensures forall a :: a in activities ==>
      (exists r :: r in sales && a == SaleActivityOf(r)) || (exists r :: r in investments && a == InvestmentActivityOf(r))
  {
    var fromSales := Map(saleRows, SaleActivityOf);
    var fromInvestments := Map(investmentRows, InvestmentActivityOf);
    forall a | a in activities
      ensures (exists r :: r in sales && a == SaleActivityOf(r)) || (exists r :: r in investments && a == InvestmentActivityOf(r))
    {
      if a in fromSales {
        var k :| 0 <= k < |fromSales| && fromSales[k] == a;
        assert saleRows[k] in sales;
      } else {
        assert a in fromInvestments;
        var k :| 0 <= k < |fromInvestments| && fromInvestments[k] == a;
        assert investmentRows[k] in investments;
      }
    }
  }

  // ---------------------------------------------------------------------
  // Sales analytics: clause selection
  // ---------------------------------------------------------------------

  datatype Period = ByDay | ByMonth | ByYear

  /** The group_by switch: month and year are recognised, anything else
      groups by day. */
  function GroupClause(groupBy: Option<string>): (p: Period)
    ensures p == ByMonth <==> groupBy == Some("month")
    ensures p == ByYear <==> groupBy == Some("year")
    ensures p == ByDay <==> groupBy != Some("month") && groupBy != Some("year")
  {
    if groupBy == Some("month") then ByMonth
    else if groupBy == Some("year") then ByYear
    else ByDay
  }

  datatype DateFilter = NoFilter | Between(start: string, end: string) | From(start: string) | Until(end: string)

  /** The WHERE clause chosen by which of start_date and end_date are given. */
  function DateClause(startDate: Option<string>, endDate: Option<string>): DateFilter {
    if Present(startDate) && Present(endDate) then Between(startDate.value, endDate.value)
    else if Present(startDate) then From(startDate.value)
    else if Present(endDate) then Until(endDate.value)
    else NoFilter
  }

  /** The bound parameters, in placeholder order. */
  function Params(f: DateFilter): seq<string> {
    match f
    case NoFilter => []
    case Between(s, e) => [s, e]
    case From(s) => [s]
    case Until(e) => [e]
  }

  /** Whether a sale on calendar day `day` passes the clause; `dayOf` reads a
      date parameter as a day. */
  predicate Admits(f: DateFilter, day: int, dayOf: string -> int) {
    match f
    case NoFilter => true
    case Between(s, e) => dayOf(s) <= day <= dayOf(e)
    case From(s) => dayOf(s) <= day
    case Until(e) => day <= dayOf(e)
  }

  /** The three-way clause is each given bound applied independently, and
      binds exactly the given bounds, start first. */
  lemma DateClauseIsBounds(startDate: Option<string>, endDate: Option<string>, day: int, dayOf: string -> int)
    ensures Admits(DateClause(startDate, endDate), day, dayOf) <==>
      (Present(startDate) ==> dayOf(startDate.value) <= day) && (Present(endDate) ==> day <= dayOf(endDate.value))
    ensures Params(DateClause(startDate, endDate)) ==
      (if Present(startDate) then [startDate.value] else []) + (if Present(endDate) then [endDate.value] else [])
  {
  }

  // ---------------------------------------------------------------------
  // Low-stock alerts
  // ---------------------------------------------------------------------

  /** `req.query.threshold || 5`. */
  function ThresholdOf(threshold: Option<int>): int {
    threshold.GetOr(5)
  }

  function Quantity(x: InventoryItem): int {
    x.quantity
  }

  /** WHERE quantity <= threshold ORDER BY quantity ASC. */
  function LowStockAlerts(items: seq<InventoryItem>, threshold: Option<int>): seq<InventoryItem> {
    var t := ThresholdOf(threshold);
    SortBy(Filter(items, (x: InventoryItem) => x.quantity <= t), Quantity)
  }

  /** The alerts are exactly the items at or under the threshold, each as
      often as in the inventory, in ascending quantity. */
  lemma LowStockAlertsSelect(items: seq<InventoryItem>, threshold: Option<int>)
    ensures forall x :: x in LowStockAlerts(items, threshold) <==> x in items && x.quantity <= ThresholdOf(threshold)
    ensures multiset(LowStockAlerts(items, threshold))
         == multiset(Filter(items, (x: InventoryItem) => x.quantity <= ThresholdOf(threshold)))
    ensures forall i, j :: 0 <= i < j < |LowStockAlerts(items, threshold)| ==>
      LowStockAlerts(items, threshold)[i].quantity <= LowStockAlerts(items, threshold)[j].quantity
  {
    var t := ThresholdOf(threshold);
    var p := (x: InventoryItem) => x.quantity <= t;
    var selected := Filter(items, p);
    FilterMembers(items, p);
    SortByPermutes(selected, Quantity);
    SortBySorted(selected, Quantity);
    forall x
      ensures x in LowStockAlerts(items, threshold) <==> x in selected
    {
      assert x in LowStockAlerts(items, threshold) <==> x in multiset(LowStockAlerts(items, threshold));
      assert x in selected <==> x in multiset(selected);
    }
  }
}
