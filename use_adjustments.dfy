/**
 * The adjustments hook: the listing URL with its optional filters, the
 * listing fallback, and how a create settles.
 */
module UseAdjustments {
  import opened Js
  import opened Fetch
  import opened Client

  const Base := "/api/adjustments"

  /** Lines 23-26: the candidates, in the order they are appended. */
  function QueryPairs(kind: Option<string>, startDate: Option<string>, endDate: Option<string>): seq<(string, string)> {
    Kept([("type", kind), ("startDate", startDate), ("endDate", endDate)])
  }

  /** Line 28. */
  function ListingUrl(kind: Option<string>, startDate: Option<string>, endDate: Option<string>): string {
    Url(Base, Serialize(QueryPairs(kind, startDate, endDate)))
  }

  /** type, startDate and endDate are appended in that order, each exactly when it is non-empty. */
  lemma QueryOrder(kind: Option<string>, startDate: Option<string>, endDate: Option<string>)
    ensures QueryPairs(kind, startDate, endDate) ==
            (if TruthyText(kind) then [("type", kind.value)] else []) +
            (if TruthyText(startDate) then [("startDate", startDate.value)] else []) +
            (if TruthyText(endDate) then [("endDate", endDate.value)] else [])
  {
    KeptThree(("type", kind), ("startDate", startDate), ("endDate", endDate));
  }

  /** Lines 23-28 step by step. */
  method BuildUrl(kind: Option<string>, startDate: Option<string>, endDate: Option<string>) returns (url: string)
    ensures url == ListingUrl(kind, startDate, endDate)
  {
    var params := new SearchParams();
    if TruthyText(kind) {
      params.Append("type", kind.value);
    }
    ghost var p1 := params.pairs;
    assert p1 == if TruthyText(kind) then [("type", kind.value)] else [];
    if TruthyText(startDate) {
      params.Append("startDate", startDate.value);
    }
    ghost var p2 := params.pairs;
    assert p2 == p1 + if TruthyText(startDate) then [("startDate", startDate.value)] else [];
    if TruthyText(endDate) {
      params.Append("endDate", endDate.value);
    }
    assert params.pairs == p2 + if TruthyText(endDate) then [("endDate", endDate.value)] else [];
    QueryOrder(kind, startDate, endDate);
    var query := params.ToString();
    url := if query != "" then Base + "?" + query else Base;
  }

  /** The URL is the bare path exactly when no filter is given. */
  lemma BareUrl(kind: Option<string>, startDate: Option<string>, endDate: Option<string>)
    ensures ListingUrl(kind, startDate, endDate) == Base <==> !TruthyText(kind) && !TruthyText(startDate) && !TruthyText(endDate)
  {
    QueryOrder(kind, startDate, endDate);
    var q := Serialize(QueryPairs(kind, startDate, endDate));
    if q != "" {
      assert |Url(Base, q)| > |Base|;
    }
  }

  /** A type filter alone gives `?type=…`, and the endpoint reads it back. */
  lemma TypeAlone(t: string)
    requires t != ""
    ensures ListingUrl(Some(t), None, None) == "/api/adjustments?type=" + t
    ensures Lookup(QueryPairs(Some(t), None, None), "type") == Some(t)
  {
    QueryOrder(Some(t), None, None);
    assert QueryPairs(Some(t), None, None) == [("type", t)];
  }

  /** Line 51: empty until data arrives, then the fetched array. */
  function Adjustments(data: Option<seq<Adjustment>>): (r: seq<Adjustment>)
    ensures data.None? ==> r == []
    ensures data.Some? ==> r == data.value
  {
    OrEmpty(data)
  }

  /** Lines 32-48. */
  function CreateAdjustment<T>(ok: bool, body: T): (r: Settled<T>)
    ensures r.revalidated <==> ok
    ensures ok ==> r.outcome == Resolved(body)
    ensures !ok ==> r.outcome == Rejected("Failed to create adjustment")
  {
    Settle(ok, body, "Failed to create adjustment")
  }
}
