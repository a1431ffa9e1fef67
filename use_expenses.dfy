/**
 * The expenses hook: the listing URL with its optional filters, the listing
 * fallback, and how create, update and delete settle.
 */
module UseExpenses {
  import opened Js
  import opened Fetch
  import opened Client
  import Requests

  const Base := "/api/expenses"

  /** Lines 16-19: the candidates, in the order they are appended. */
  function QueryPairs(startDate: Option<string>, endDate: Option<string>, category: Option<string>): seq<(string, string)> {
    Kept([("startDate", startDate), ("endDate", endDate), ("category", category)])
  }

  /** Line 21. */
  function ListingUrl(startDate: Option<string>, endDate: Option<string>, category: Option<string>): string {
    Url(Base, Serialize(QueryPairs(startDate, endDate, category)))
  }

  /** startDate, endDate and category are appended in that order, each exactly when it is non-empty. */
  lemma QueryOrder(startDate: Option<string>, endDate: Option<string>, category: Option<string>)
    ensures QueryPairs(startDate, endDate, category) ==
            (if TruthyText(startDate) then [("startDate", startDate.value)] else []) +
            (if TruthyText(endDate) then [("endDate", endDate.value)] else []) +
            (if TruthyText(category) then [("category", category.value)] else [])
  {
    KeptThree(("startDate", startDate), ("endDate", endDate), ("category", category));
  }

  /** Lines 16-21 step by step. */
  method BuildUrl(startDate: Option<string>, endDate: Option<string>, category: Option<string>) returns (url: string)
    ensures url == ListingUrl(startDate, endDate, category)
  {
    var params := new SearchParams();
    if TruthyText(startDate) {
      params.Append("startDate", startDate.value);
    }
    ghost var p1 := params.pairs;
    assert p1 == if TruthyText(startDate) then [("startDate", startDate.value)] else [];
    if TruthyText(endDate) {
      params.Append("endDate", endDate.value);
    }
    ghost var p2 := params.pairs;
    assert p2 == p1 + if TruthyText(endDate) then [("endDate", endDate.value)] else [];
    if TruthyText(category) {
      params.Append("category", category.value);
    }
    assert params.pairs == p2 + if TruthyText(category) then [("category", category.value)] else [];
    QueryOrder(startDate, endDate, category);
    var query := params.ToString();
    url := if query != "" then Base + "?" + query else Base;
  }

  /** The URL is the bare path exactly when no filter is given. */
  lemma BareUrl(startDate: Option<string>, endDate: Option<string>, category: Option<string>)
    ensures ListingUrl(startDate, endDate, category) == Base <==> !TruthyText(startDate) && !TruthyText(endDate) && !TruthyText(category)
  {
    QueryOrder(startDate, endDate, category);
    var q := Serialize(QueryPairs(startDate, endDate, category));
    if q != "" {
      assert |Url(Base, q)| > |Base|;
    }
  }

  /**
   * A start date without an end date is sent on its own, and the endpoint
   * reads it but applies no date range.
   */
  lemma LoneStartDate(s: string)
    requires s != ""
    ensures ListingUrl(Some(s), None, None) == "/api/expenses?startDate=" + s
    ensures Requests.RangeOf(Lookup(QueryPairs(Some(s), None, None), "startDate"), Lookup(QueryPairs(Some(s), None, None), "endDate")) == None
  {
    QueryOrder(Some(s), None, None);
    assert QueryPairs(Some(s), None, None) == [("startDate", s)];
  }

  /** Lines 73-74: empty until data arrives, then the fetched array. */
  function Expenses(data: Option<seq<Expense>>): (r: seq<Expense>)
    ensures data.None? ==> r == []
    ensures data.Some? ==> r == data.value
  {
    OrEmpty(data)
  }

  /** Lines 25-41: POST to the listing path. */
  function CreateExpense<T>(ok: bool, body: T): (r: Settled<T>)
    ensures r.revalidated <==> ok
    ensures ok ==> r.outcome == Resolved(body)
    ensures !ok ==> r.outcome == Rejected("Failed to create expense")
  {
    Settle(ok, body, "Failed to create expense")
  }

  /** Lines 43-59: PUT to the expense's own path. */
  function UpdateExpense<T>(id: string, ok: bool, body: T): (r: (string, Settled<T>))
    ensures r.0 == Base + "/" + id
    ensures r.1.revalidated <==> ok
    ensures ok ==> r.1.outcome == Resolved(body)
    ensures !ok ==> r.1.outcome == Rejected("Failed to update expense")
  {
    (Base + "/" + id, Settle(ok, body, "Failed to update expense"))
  }

  /** Lines 61-71: DELETE on the expense's own path; nothing is returned. */
  function DeleteExpense(id: string, ok: bool): (r: (string, Settled<()>))
    ensures r.0 == Base + "/" + id
    ensures r.1.revalidated <==> ok
    ensures ok ==> r.1.outcome == Resolved(())
    ensures !ok ==> r.1.outcome == Rejected("Failed to delete expense")
  {
    (Base + "/" + id, Settle(ok, (), "Failed to delete expense"))
  }
}
