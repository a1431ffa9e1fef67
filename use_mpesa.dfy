/**
 * The M-Pesa hook: the listing URL with its optional date filters, the
 * listing fallback, and how a create settles.
 */
module UseMpesa {
  import opened Js
  import opened Fetch
  import opened Client
  import Requests

  const Base := "/api/mpesa"

  /** Lines 20-22: the candidates, in the order they are appended. */
  function QueryPairs(startDate: Option<string>, endDate: Option<string>): seq<(string, string)> {
    Kept([("startDate", startDate), ("endDate", endDate)])
  }

  /** Line 24. */
  function ListingUrl(startDate: Option<string>, endDate: Option<string>): string {
    Url(Base, Serialize(QueryPairs(startDate, endDate)))
  }

  /** startDate then endDate are appended, each exactly when it is non-empty. */
  lemma QueryOrder(startDate: Option<string>, endDate: Option<string>)
    ensures QueryPairs(startDate, endDate) ==
            (if TruthyText(startDate) then [("startDate", startDate.value)] else []) +
            (if TruthyText(endDate) then [("endDate", endDate.value)] else [])
  {
    KeptTwo(("startDate", startDate), ("endDate", endDate));
  }

  /** Lines 20-24 step by step. */
  method BuildUrl(startDate: Option<string>, endDate: Option<string>) returns (url: string)
    ensures url == ListingUrl(startDate, endDate)
  {
    var params := new SearchParams();
    if TruthyText(startDate) {
      params.Append("startDate", startDate.value);
    }
    ghost var p1 := params.pairs;
    assert p1 == if TruthyText(startDate) then [("startDate", startDate.value)] else [];
    if TruthyText(endDate) {
      params.Append("endDate", endDate.value);
    }
    assert params.pairs == p1 + if TruthyText(endDate) then [("endDate", endDate.value)] else [];
    QueryOrder(startDate, endDate);
    var query := params.ToString();
    url := if query != "" then Base + "?" + query else Base;
  }

  /** The URL is the bare path exactly when neither date is given. */
  lemma BareUrl(startDate: Option<string>, endDate: Option<string>)
    ensures ListingUrl(startDate, endDate) == Base <==> !TruthyText(startDate) && !TruthyText(endDate)
  {
    QueryOrder(startDate, endDate);
    var q := Serialize(QueryPairs(startDate, endDate));
    if q != "" {
      assert |Url(Base, q)| > |Base|;
    }
  }

  /** Both dates reach the endpoint, which then applies the range between them. */
  lemma BothDatesFilter(s: string, e: string)
    requires s != "" && e != ""
    ensures ListingUrl(Some(s), Some(e)) == "/api/mpesa?startDate=" + s + "&endDate=" + e
    ensures Requests.RangeOf(Lookup(QueryPairs(Some(s), Some(e)), "startDate"), Lookup(QueryPairs(Some(s), Some(e)), "endDate")) ==
            Some(Requests.DateRange(s, e))
  {
    BothDatesPairs(s, e);
    BothDatesUrl(s, e);
  }

  /** Both dates are appended, start first. */
  lemma BothDatesPairs(s: string, e: string)
    requires s != "" && e != ""
    ensures QueryPairs(Some(s), Some(e)) == [("startDate", s), ("endDate", e)]
  {
    QueryOrder(Some(s), Some(e));
  }

  /** The URL for two given dates. */
  lemma BothDatesUrl(s: string, e: string)
    requires QueryPairs(Some(s), Some(e)) == [("startDate", s), ("endDate", e)]
    ensures ListingUrl(Some(s), Some(e)) == "/api/mpesa?startDate=" + s + "&endDate=" + e
  {
    var ps := QueryPairs(Some(s), Some(e));
    assert ps[1..] == [("endDate", e)];
    assert Serialize(ps) == ("startDate" + "=" + s) + "&" + ("endDate" + "=" + e);
    assert "startDate" + "=" == "startDate=" && "endDate" + "=" == "endDate=";
    Regroup(Base + "?", "startDate=", s, "&", "endDate=", e);
    assert Base + "?" + "startDate=" == "/api/mpesa?startDate=" && "&" + "endDate=" == "&endDate=";
  }

  /** `a + (b + x + c + (d + y))` regrouped as `a + b + x + (c + d) + y`. */
  lemma Regroup(a: string, b: string, x: string, c: string, d: string, y: string)
    ensures a + ((b + x) + c + (d + y)) == (a + b) + x + (c + d) + y
  {
  }

  /** Line 48: empty until data arrives, then the fetched array. */
  function Entries(data: Option<seq<MpesaEntry>>): (r: seq<MpesaEntry>)
    ensures data.None? ==> r == []
    ensures data.Some? ==> r == data.value
  {
    OrEmpty(data)
  }

  /** Lines 28-44. */
  function CreateEntry<T>(ok: bool, body: T): (r: Settled<T>)
    ensures r.revalidated <==> ok
    ensures ok ==> r.outcome == Resolved(body)
    ensures !ok ==> r.outcome == Rejected("Failed to create M-Pesa entry")
  {
    Settle(ok, body, "Failed to create M-Pesa entry")
  }
}
