/** The partner ledger page of frontend/src/pages/Investments.js: the
    invest and withdraw totals and the partner-name lookup. */
module InvestmentsPage {
  import opened Common

  /** A partner row; type is "investor" or "supplier". */
  datatype Partner = Partner(id: int, name: string, partnerType: string)

  /** An investments row: money a partner put in ("invest") or took out
      ("withdraw"). */
  datatype Investment = Investment(id: int, partnerId: int, recordType: string, amount: real, createdAt: int)

  datatype LedgerTotals = LedgerTotals(totalInvestments: real, totalWithdrawals: real, netAmount: real)

  /** records.filter(r => r.type === t).reduce((sum, r) => sum + r.amount, 0) */
  function TypeTotal(records: seq<Investment>, t: string): real {
    Sum(Filter(records, (r: Investment) => r.recordType == t), (r: Investment) => r.amount)
  }

  /** calculateTotals. */
  function CalculateTotals(records: seq<Investment>): (t: LedgerTotals)
    ensures t.totalInvestments == TypeTotal(records, "invest")
    ensures t.totalWithdrawals == TypeTotal(records, "withdraw")
  {
    var invested := TypeTotal(records, "invest");
    var withdrawn := TypeTotal(records, "withdraw");
    LedgerTotals(invested, withdrawn, invested - withdrawn)
  }

  /** What one record adds to the net: its amount when invested, minus its
      amount when withdrawn, nothing for any other type. */
  function Signed(r: Investment): real {
    if r.recordType == "invest" then r.amount else if r.recordType == "withdraw" then -r.amount else 0.0
  }

  /** Filtering then summing is summing with the rejected elements counted
      as zero (the shape of SQL's SUM(CASE WHEN ... THEN amount ELSE 0 END)). */
  lemma {:induction false} FilterSumIsCaseSum(records: seq<Investment>, t: string)
    ensures TypeTotal(records, t) == Sum(records, (r: Investment) => if r.recordType == t then r.amount else 0.0)
  {
    var p := (r: Investment) => r.recordType == t;
    var amount := (r: Investment) => r.amount;
    var caseAmount := (r: Investment) => if r.recordType == t then r.amount else 0.0;
    if records != [] {
      var x, rest := records[0], records[1..];
      assert records == [x] + rest;
      FilterSumIsCaseSum(rest, t);
      SumCons(x, rest, caseAmount);
      if p(x) {
        assert Filter(records, p) == [x] + Filter(rest, p);
        SumCons(x, Filter(rest, p), amount);
      } else {
        assert Filter(records, p) == Filter(rest, p);
      }
    }
  }

  /** The net amount is the sum of the signed amounts. */
  lemma NetIsSignedSum(records: seq<Investment>)
    ensures CalculateTotals(records).netAmount == Sum(records, Signed)
  {
    FilterSumIsCaseSum(records, "invest");
    FilterSumIsCaseSum(records, "withdraw");
    SumDifference(records, (r: Investment) => if r.recordType == "invest" then r.amount else 0.0,
                  (r: Investment) => if r.recordType == "withdraw" then r.amount else 0.0, Signed);
  }

  lemma {:induction false} SumDifference<T>(s: seq<T>, f: T -> real, g: T -> real, h: T -> real)
    requires forall x :: h(x) == f(x) - g(x)
    ensures Sum(s, h) == Sum(s, f) - Sum(s, g)
  {
    if s != [] {
      SumDifference(s[..|s| - 1], f, g, h);
    }
  }

  /** A record of any other type changes neither total; an empty ledger
      totals zero. */
  lemma OtherTypesIgnored(records: seq<Investment>, r: Investment)
    requires r.recordType != "invest" && r.recordType != "withdraw"
    ensures CalculateTotals(records + [r]) == CalculateTotals(records)
    ensures CalculateTotals([]) == LedgerTotals(0.0, 0.0, 0.0)
  {
    FilterAppend(records, [r], (x: Investment) => x.recordType == "invest");
    FilterAppend(records, [r], (x: Investment) => x.recordType == "withdraw");
    assert Filter([r], (x: Investment) => x.recordType == "invest") == [];
    assert Filter([r], (x: Investment) => x.recordType == "withdraw") == [];
    assert Filter(records, (x: Investment) => x.recordType == "invest") + [] == Filter(records, (x: Investment) => x.recordType == "invest");
    assert Filter(records, (x: Investment) => x.recordType == "withdraw") + [] == Filter(records, (x: Investment) => x.recordType == "withdraw");
  }

  /** getPartnerName: the name of the first partner with the id, or
      "Unknown Partner". */
  function PartnerName(partners: seq<Partner>, partnerId: int): (name: string)
    ensures (forall k :: 0 <= k < |partners| ==> partners[k].id != partnerId) ==> name == "Unknown Partner"
    ensures forall k ::
      (0 <= k < |partners| && partners[k].id == partnerId && forall j :: 0 <= j < k ==> partners[j].id != partnerId)
      ==> name == partners[k].name
  {
    if partners == [] then "Unknown Partner"
    else if partners[0].id == partnerId then partners[0].name
    else PartnerName(partners[1..], partnerId)
  }
}
