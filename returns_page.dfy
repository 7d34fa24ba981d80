/** The returns page of frontend/src/pages/Returns.js: which sales can still
    be returned, the create-return guard and the search filter. */
module ReturnsPage {
  import opened Common

  /** The part of a sales row the page uses. */
  datatype SaleRow = SaleRow(id: int, invoice: string)

  /** A returns row as listed, joined with its sale's invoice and customer. */
  datatype ReturnRow = ReturnRow(
    id: int,
    saleId: int,
    reason: Option<string>,
    invoice: Option<string>,
    customerName: Option<string>)

  /** The create-return form; the select and the text field hold strings. */
  datatype ReturnForm = ReturnForm(saleId: string, reason: string, refundAmount: real)

  function ReturnedSaleIds(listed: seq<ReturnRow>): (ids: seq<int>)
    ensures |ids| == |listed|
    ensures forall k :: 0 <= k < |listed| ==> ids[k] == listed[k].saleId
  {
    seq(|listed|, k requires 0 <= k < |listed| => listed[k].saleId)
  }

  /** getAvailableSales: the sales that no return refers to. */
  function AvailableSales(sales: seq<SaleRow>, listed: seq<ReturnRow>): seq<SaleRow> {
    var returned := ReturnedSaleIds(listed);
    Filter(sales, (s: SaleRow) => s.id !in returned)
  }

  /** The available sales keep the order of the sales list, and a sale is
      offered exactly when it has no return. */
  lemma AvailableSalesMembers(sales: seq<SaleRow>, listed: seq<ReturnRow>)
    ensures IsSubsequence(AvailableSales(sales, listed), sales)
    ensures forall s :: s in AvailableSales(sales, listed) <==>
      (s in sales && forall k :: 0 <= k < |listed| ==> listed[k].saleId != s.id)
  {
    var returned := ReturnedSaleIds(listed);
    var p := (s: SaleRow) => s.id !in returned;
    FilterIsSubsequence(sales, p);
    FilterMembers(sales, p);
    forall s: SaleRow
      ensures s.id !in returned <==> forall k :: 0 <= k < |listed| ==> listed[k].saleId != s.id
    {
      if s.id in returned {
        var k :| 0 <= k < |returned| && returned[k] == s.id;
        assert listed[k].saleId == s.id;
      }
    }
  }

  /** handleCreateReturn: the form is sent only when a sale and a reason
      are chosen. */
  function ReturnRequest(form: ReturnForm): (r: Option<ReturnForm>)
    ensures r.None? <==> (form.saleId == "" || form.reason == "")
    ensures r.Some? ==> r.value == form
  {
    if form.saleId == "" || form.reason == "" then None else Some(form)
  }

  predicate ReturnMatches(r: ReturnRow, term: string) {
    FieldMatches(r.invoice, term) || FieldMatches(r.reason, term) || FieldMatches(r.customerName, term)
  }

  /** filteredReturns over `returns || []`. */
  function FilteredReturns(listed: Option<seq<ReturnRow>>, term: string): seq<ReturnRow> {
    Filter(listed.GetOr([]), (r: ReturnRow) => ReturnMatches(r, term))
  }

  /** A return is listed iff one of its present fields contains the search
      term, ignoring case; with no list there is nothing to show; with an
      empty term every return that has some non-empty field is listed. */
  lemma FilteredReturnsMembers(listed: seq<ReturnRow>, term: string)
    ensures IsSubsequence(FilteredReturns(Some(listed), term), listed)
    ensures forall r :: r in FilteredReturns(Some(listed), term) <==>
      (r in listed &&
       (FieldMatches(r.invoice, term) || FieldMatches(r.reason, term) || FieldMatches(r.customerName, term)))
    ensures FilteredReturns(None, term) == []
    ensures forall r :: r in FilteredReturns(Some(listed), "") <==>
      (r in listed && (Present(r.invoice) || Present(r.reason) || Present(r.customerName)))
  {
    var p := (r: ReturnRow) => ReturnMatches(r, term);
    FilterIsSubsequence(listed, p);
    FilterMembers(listed, p);
    var q := (r: ReturnRow) => ReturnMatches(r, "");
    FilterMembers(listed, q);
    forall f: Option<string> | Present(f)
      ensures FieldMatches(f, "")
    {
      assert Lower("") == "";
      IncludesEmpty(Lower(f.value));
    }
  }
}
