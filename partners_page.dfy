/** The partner list of frontend/src/pages/Partners.js: each partner's net
    investment, from the same ledger rows the investments page totals. */
module PartnersPage {
  import opened Common
  import opened InvestmentsPage

  /** calculatePartnerTotalInvestment: the invest total minus the withdraw
      total over the partner's own records. */
  function PartnerNet(records: seq<Investment>, partnerId: int): real {
    var own := Filter(records, (r: Investment) => r.partnerId == partnerId);
    TypeTotal(own, "invest") - TypeTotal(own, "withdraw")
  }

  /** What one record adds to a partner's net. */
  function Share(r: Investment, partnerId: int): real {
    if r.partnerId == partnerId then Signed(r) else 0.0
  }

  /** A partner's net is the sum of the signed amounts of its records. */
  lemma PartnerNetIsShareSum(records: seq<Investment>, partnerId: int)
    ensures PartnerNet(records, partnerId) == Sum(records, (r: Investment) => Share(r, partnerId))
  {
    var own := Filter(records, (r: Investment) => r.partnerId == partnerId);
    NetIsSignedSum(own);
    FilteredSignedSum(records, partnerId);
  }

  lemma {:induction false} FilteredSignedSum(records: seq<Investment>, partnerId: int)
    ensures Sum(Filter(records, (r: Investment) => r.partnerId == partnerId), Signed)
         == Sum(records, (r: Investment) => Share(r, partnerId))
  {
    var p := (r: Investment) => r.partnerId == partnerId;
    var share := (r: Investment) => Share(r, partnerId);
    if records != [] {
      var x, rest := records[0], records[1..];
      assert records == [x] + rest;
      FilteredSignedSum(rest, partnerId);
      SumCons(x, rest, share);
      if p(x) {
        assert Filter(records, p) == [x] + Filter(rest, p);
        SumCons(x, Filter(rest, p), Signed);
      } else {
        assert Filter(records, p) == Filter(rest, p);
      }
    }
  }

  /** A partner without records has a net of 0; a record of another
      partner, or of a type other than invest and withdraw, changes
      nothing. */
  lemma UnrelatedRecordIgnored(records: seq<Investment>, r: Investment, partnerId: int)
    requires r.partnerId != partnerId || (r.recordType != "invest" && r.recordType != "withdraw")
    ensures PartnerNet(records + [r], partnerId) == PartnerNet(records, partnerId)
    ensures (forall k :: 0 <= k < |records| ==> records[k].partnerId != partnerId) ==> PartnerNet(records, partnerId) == 0.0
  {
    PartnerNetIsShareSum(records + [r], partnerId);
    PartnerNetIsShareSum(records, partnerId);
    var share := (x: Investment) => Share(x, partnerId);
    assert (records + [r])[..|records|] == records;
    assert Sum(records + [r], share) == Sum(records, share) + share(r);
    if forall k :: 0 <= k < |records| ==> records[k].partnerId != partnerId {
      NoSharesSumZero(records, partnerId);
    }
  }

  lemma {:induction false} NoSharesSumZero(records: seq<Investment>, partnerId: int)
    requires forall k :: 0 <= k < |records| ==> records[k].partnerId != partnerId
    ensures Sum(records, (r: Investment) => Share(r, partnerId)) == 0.0
  {
    if records != [] {
      NoSharesSumZero(records[..|records| - 1], partnerId);
    }
  }

  /** The partners' nets over a list of partner ids. */
  function NetOverPartners(records: seq<Investment>, ids: seq<int>): real {
    Sum(ids, (id: int) => PartnerNet(records, id))
  }

  /** When every record belongs to one of the listed partners, the partners'
      nets add up to the ledger's net amount. */
  lemma {:induction false} PartnersAddUpToLedger(records: seq<Investment>, ids: seq<int>)
    requires NoDuplicates(ids)
    requires forall k :: 0 <= k < |records| ==> records[k].partnerId in ids
    ensures NetOverPartners(records, ids) == CalculateTotals(records).netAmount
  {
    NetIsSignedSum(records);
    SharesOverPartners(records, ids);
  }

  lemma {:induction false} SharesOverPartners(records: seq<Investment>, ids: seq<int>)
    requires NoDuplicates(ids)
    requires forall k :: 0 <= k < |records| ==> records[k].partnerId in ids
    ensures NetOverPartners(records, ids) == Sum(records, Signed)
  {
    if records == [] {
      ZeroOverPartners(ids);
    } else {
      var n := |records| - 1;
      var pre, r := records[..n], records[n];
      assert records == pre + [r];
      SharesOverPartners(pre, ids);
      forall k | 0 <= k < |ids|
        ensures PartnerNet(records, ids[k]) == PartnerNet(pre, ids[k]) + Share(r, ids[k])
      {
        PartnerNetIsShareSum(records, ids[k]);
        PartnerNetIsShareSum(pre, ids[k]);
      }
      SumOfSums(ids, (id: int) => PartnerNet(records, id), (id: int) => PartnerNet(pre, id), (id: int) => Share(r, id));
      OneShareMatches(ids, r);
    }
  }

  lemma {:induction false} ZeroOverPartners(ids: seq<int>)
    ensures NetOverPartners([], ids) == 0.0
  {
    if ids != [] {
      ZeroOverPartners(ids[..|ids| - 1]);
    }
  }

  lemma {:induction false} SumOfSums(ids: seq<int>, f: int -> real, g: int -> real, h: int -> real)
    requires forall k :: 0 <= k < |ids| ==> f(ids[k]) == g(ids[k]) + h(ids[k])
    ensures Sum(ids, f) == Sum(ids, g) + Sum(ids, h)
  {
    if ids != [] {
      var n := |ids| - 1;
      assert forall k :: 0 <= k < n ==> ids[..n][k] == ids[k];
      SumOfSums(ids[..n], f, g, h);
    }
  }

  /** Exactly one listed partner owns the record, so its share is counted
      once. */
  lemma {:induction false} OneShareMatches(ids: seq<int>, r: Investment)
    requires NoDuplicates(ids)
    ensures r.partnerId in ids ==> Sum(ids, (id: int) => Share(r, id)) == Signed(r)
    ensures r.partnerId !in ids ==> Sum(ids, (id: int) => Share(r, id)) == 0.0
  {
    if ids != [] {
      var n := |ids| - 1;
      assert ids == ids[..n] + [ids[n]];
      assert NoDuplicates(ids[..n]);
      OneShareMatches(ids[..n], r);
      if ids[n] == r.partnerId {
        assert r.partnerId !in ids[..n];
      }
    }
  }
}
