/**
 * The M-Pesa entries endpoint: GET lists entries, optionally within a date
 * range, newest first, with a recomputed net change; POST validates and
 * normalises a new entry.
 */
module MpesaRoute {
  import opened Js
  import opened Folds
  import opened Ordering
  import opened Records
  import opened Http
  import opened Requests
  import Dashboard

  // ---------------------------------------------------------------------------
  // GET

  /** The where-clause of the listing. */
  datatype Where = Where(date: Option<DateRange>)

  /** Lines 19-26: the date filter is set only when both query parameters are non-empty. */
  method BuildWhere(startDate: Option<string>, endDate: Option<string>) returns (w: Where)
    ensures w.date.Some? <==> TruthyText(startDate) && TruthyText(endDate)
    ensures w.date == RangeOf(startDate, endDate)
  {
    w := Where(None);
    if TruthyText(startDate) && TruthyText(endDate) {
      w := w.(date := Some(DateRange(startDate.value, endDate.value)));
    }
  }

  function EntryDate(e: MpesaEntry): int { e.date }

  function Matching(w: Where, dateOf: string -> int): MpesaEntry -> bool {
    (e: MpesaEntry) => InRange(w.date, dateOf, e.date)
  }

  /**
   * Lines 35-38: the net change the listing reports, deposits − withdrawals −
   * fees for an end_of_day entry with all three truthy, and 0 for every other entry.
   */
  function ListedNetChange(e: MpesaEntry): (r: real)
    ensures e.kind == EndOfDay && TruthyNumber(e.deposits) && TruthyNumber(e.withdrawals) && TruthyNumber(e.fees) ==>
              r + e.withdrawals.value + e.fees.value == e.deposits.value
    ensures !(e.kind == EndOfDay && TruthyNumber(e.deposits) && TruthyNumber(e.withdrawals) && TruthyNumber(e.fees)) ==> r == 0.0
  {
    if e.kind == EndOfDay && TruthyNumber(e.deposits) && TruthyNumber(e.withdrawals) && TruthyNumber(e.fees)
    then e.deposits.value - e.withdrawals.value - e.fees.value
    else 0.0
  }

  /** `{ ...entry, netChange }`: the stored net change is replaced, everything else kept. */
  function WithNetChange(e: MpesaEntry): (r: MpesaEntry)
    ensures r.(netChange := e.netChange) == e
    ensures r.netChange == Some(ListedNetChange(e))
  {
    e.(netChange := Some(ListedNetChange(e)))
  }

  /** The entries the query returns, before the net change is recomputed. */
  function Rows(db: Database, w: Where, dateOf: string -> int): seq<MpesaEntry> {
    Query(db.mpesaEntries, Matching(w, dateOf), NewestFirst(EntryDate))
  }

  /** The response body of lines 28-45. */
  function Listing(db: Database, w: Where, dateOf: string -> int): seq<MpesaEntry> {
    var rows := Rows(db, w, dateOf);
    seq(|rows|, i requires 0 <= i < |rows| => WithNetChange(rows[i]))
  }

  /** GET: 401 without a session, 500 when the read throws, else 200 with the listing. */
  method Get(signedIn: bool, readSucceeds: bool, db: Database, startDate: Option<string>, endDate: Option<string>, dateOf: string -> int)
    returns (reply: Reply<seq<MpesaEntry>>)
    ensures !signedIn ==> reply == Unauthorized()
    ensures signedIn && !readSucceeds ==> reply == InternalError()
    ensures signedIn && readSucceeds ==> reply == Success(200, Listing(db, Where(RangeOf(startDate, endDate)), dateOf))
  {
    if !signedIn {
      return Unauthorized();
    }
    var w := BuildWhere(startDate, endDate);
    if !readSucceeds {
      return InternalError();
    }
    reply := Success(200, Listing(db, w, dateOf));
  }

  /**
   * The listing holds one row per matching entry, newest first: row i is the
   * i-th queried entry with its net change recomputed, the queried entries
   * are the matching entries each as often as stored, and each matching entry
   * appears.
   */
  lemma ListingContents(db: Database, w: Where, dateOf: string -> int)
    ensures |Listing(db, w, dateOf)| == |Filter(db.mpesaEntries, Matching(w, dateOf))|
    ensures multiset(Rows(db, w, dateOf)) == multiset(Filter(db.mpesaEntries, Matching(w, dateOf)))
    ensures forall i :: 0 <= i < |Listing(db, w, dateOf)| ==> Listing(db, w, dateOf)[i] == WithNetChange(Rows(db, w, dateOf)[i])
    ensures forall i, j :: 0 <= i < j < |Listing(db, w, dateOf)| ==> Listing(db, w, dateOf)[i].date >= Listing(db, w, dateOf)[j].date
    ensures forall i :: 0 <= i < |Listing(db, w, dateOf)| ==>
              exists e :: e in db.mpesaEntries && InRange(w.date, dateOf, e.date) && Listing(db, w, dateOf)[i] == WithNetChange(e)
    ensures forall e :: e in db.mpesaEntries && InRange(w.date, dateOf, e.date) ==> WithNetChange(e) in Listing(db, w, dateOf)
  {
    var rows := Rows(db, w, dateOf);
    var l := Listing(db, w, dateOf);
    FilterMembers(db.mpesaEntries, Matching(w, dateOf));
    NewestFirstIsOrder(EntryDate);
    QueryContents(db.mpesaEntries, Matching(w, dateOf), NewestFirst(EntryDate));
    assert |l| == |rows|;
    forall i | 0 <= i < |l| ensures l[i] == WithNetChange(rows[i]) {
    }
    forall i, j | 0 <= i < j < |l| ensures l[i].date >= l[j].date {
      assert l[i] == WithNetChange(rows[i]) && l[j] == WithNetChange(rows[j]);
      assert NewestFirst(EntryDate)(rows[i], rows[j]);
      assert EntryDate(rows[i]) >= EntryDate(rows[j]);
    }
    forall i | 0 <= i < |l|
      ensures exists e :: e in db.mpesaEntries && InRange(w.date, dateOf, e.date) && l[i] == WithNetChange(e)
    {
      var e := rows[i];
      assert e in rows && Matching(w, dateOf)(e);
      assert e in db.mpesaEntries && InRange(w.date, dateOf, e.date) && l[i] == WithNetChange(e);
    }
    forall e | e in db.mpesaEntries && InRange(w.date, dateOf, e.date) ensures WithNetChange(e) in l {
      assert Matching(w, dateOf)(e);
      var i :| 0 <= i < |rows| && rows[i] == e;
      assert l[i] == WithNetChange(e);
    }
  }

  /** A start date without an end date filters nothing: every entry is listed. */
  lemma OneDateIgnored(db: Database, startDate: string, dateOf: string -> int)
    ensures |Listing(db, Where(RangeOf(Some(startDate), None)), dateOf)| == |db.mpesaEntries|
  {
    var w := Where(RangeOf(Some(startDate), None));
    FilterAll(db.mpesaEntries, Matching(w, dateOf));
    NewestFirstIsOrder(EntryDate);
    QueryContents(db.mpesaEntries, Matching(w, dateOf), NewestFirst(EntryDate));
  }

  // ---------------------------------------------------------------------------
  // POST

  /** The data handed to `create`: `date` is the value `new Date(date)` is built from. */
  datatype MpesaDraft = MpesaDraft(
    date: Value,
    kind: Value,
    startingFloat: Value,
    deposits: Value,
    withdrawals: Value,
    fees: Value,
    endingFloat: Value,
    netChange: Value)

  /**
   * Lines 73-76: the net change is computed for an end_of_day entry whose
   * three amounts are all present (0 included), and is null otherwise.
   */
  function PostedNetChange(kind: Value, deposits: Value, withdrawals: Value, fees: Value): (r: Value)
    ensures !r.Null? <==> kind == Str(EndOfDay) && !deposits.Undefined? && !withdrawals.Undefined? && !fees.Undefined?
    ensures !r.Null? ==> r == Sub(Sub(deposits, withdrawals), fees)
  {
    if kind == Str(EndOfDay) && !deposits.Undefined? && !withdrawals.Undefined? && !fees.Undefined?
    then Sub(Sub(deposits, withdrawals), fees)
    else Null
  }

  /** Lines 78-89: the record built from a destructured body. */
  function DraftOf(body: Value): MpesaDraft {
    var kind := Field(body, "type");
    var deposits := Field(body, "deposits");
    var withdrawals := Field(body, "withdrawals");
    var fees := Field(body, "fees");
    MpesaDraft(
      Field(body, "date"), kind,
      FloatOrNull(Field(body, "startingFloat")), FloatOrNull(deposits), FloatOrNull(withdrawals),
      FloatOrNull(fees), FloatOrNull(Field(body, "endingFloat")),
      PostedNetChange(kind, deposits, withdrawals, fees))
  }

  /**
   * POST: 401 without a session; 500 when the body cannot be read or
   * destructured or `create` throws; 400 without a truthy date and type;
   * else 201 with the created record.
   */
  function Post(signedIn: bool, body: Option<Value>, createSucceeds: bool): (r: Reply<MpesaDraft>)
    ensures !signedIn ==> r == Unauthorized()
    ensures signedIn && !Destructurable(body) ==> r == InternalError()
    ensures r == BadRequest("Date and type are required") <==>
              signedIn && Destructurable(body) && !(Truthy(Field(body.value, "date")) && Truthy(Field(body.value, "type")))
    ensures r.Success? <==> signedIn && Destructurable(body) && Truthy(Field(body.value, "date")) && Truthy(Field(body.value, "type")) && createSucceeds
    ensures r.Success? ==> r == Success(201, DraftOf(body.value))
  {
    if !signedIn then Unauthorized()
    else if !Destructurable(body) then InternalError()
    else if !Truthy(Field(body.value, "date")) || !Truthy(Field(body.value, "type")) then BadRequest("Date and type are required")
    else if !createSucceeds then InternalError()
    else Success(201, DraftOf(body.value))
  }

  /** The entry a draft becomes once stored, under the given id and timestamp. */
  function Stored(d: MpesaDraft, id: string, date: int): MpesaEntry
    requires d.kind.Str?
  {
    MpesaEntry(id, date, d.kind.s, Column(d.startingFloat), Column(d.deposits), Column(d.withdrawals),
               Column(d.fees), Column(d.endingFloat), Column(d.netChange))
  }

  /**
   * An end_of_day entry posted with fees 0 stores a net change of 300 but a
   * null fee, so the listing reports 0 for it and the dashboard's net flow
   * leaves it out.
   */
  lemma ZeroFeeEntry(id: string, date: int)
    ensures var body := Obj(map["date" := Str("2025-01-15"), "type" := Str(EndOfDay),
                                "deposits" := Num(500.0), "withdrawals" := Num(200.0), "fees" := Num(0.0)]);
            var d := DraftOf(body);
            d.kind.Str? &&
            d.netChange == Num(300.0) && d.fees == Null &&
            Stored(d, id, date).netChange == Some(300.0) &&
            ListedNetChange(Stored(d, id, date)) == 0.0 &&
            Dashboard.NetFlowTerm(Stored(d, id, date)) == 0.0
  {
  }

  /** A start_of_day entry gets no net change, whatever amounts it carries. */
  lemma StartOfDayNoNetChange(body: Value)
    requires Field(body, "type") == Str(StartOfDay)
    ensures DraftOf(body).netChange == Null
  {
  }
}
