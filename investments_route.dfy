/**
 * The investments endpoint: GET lists investments by start date, newest
 * first; POST requires all four fields and builds the record.
 */
module InvestmentsRoute {
  import opened Js
  import opened Folds
  import opened Ordering
  import opened Records
  import opened Http
  import opened Requests

  function StartDate(inv: Investment): int { inv.startDate }

  function Everything(inv: Investment): bool { true }

  /** Lines 13-15: every investment, latest start date first. */
  function Listing(db: Database): seq<Investment> {
    Query(db.investments, Everything, NewestFirst(StartDate))
  }

  method Get(signedIn: bool, readSucceeds: bool, db: Database) returns (reply: Reply<seq<Investment>>)
    ensures !signedIn ==> reply == Unauthorized()
    ensures signedIn && !readSucceeds ==> reply == InternalError()
    ensures signedIn && readSucceeds ==> reply == Success(200, Listing(db))
  {
    if !signedIn {
      return Unauthorized();
    }
    if !readSucceeds {
      return InternalError();
    }
    reply := Success(200, Listing(db));
  }

  /** The listing holds every investment exactly as often as stored, latest start first. */
  lemma ListingContents(db: Database)
    ensures multiset(Listing(db)) == multiset(db.investments)
    ensures forall i, j :: 0 <= i < j < |Listing(db)| ==> Listing(db)[i].startDate >= Listing(db)[j].startDate
  {
    NewestFirstIsOrder(StartDate);
    QueryContents(db.investments, Everything, NewestFirst(StartDate));
    FilterAll(db.investments, Everything);
    var l := Listing(db);
    forall i, j | 0 <= i < j < |l| ensures l[i].startDate >= l[j].startDate {
      assert NewestFirst(StartDate)(l[i], l[j]);
      assert StartDate(l[i]) >= StartDate(l[j]);
    }
  }

  /**
   * The data handed to `create`: `startDate` is the value `new Date(startDate)`
   * is built from; currentProfit and isActive are left to the table's defaults.
   */
  datatype InvestmentDraft = InvestmentDraft(investorName: Value, startDate: Value, capital: Value, profitShare: Value)

  function DraftOf(body: Value): InvestmentDraft {
    InvestmentDraft(Field(body, "investorName"), Field(body, "startDate"),
                    ParseFloat(Field(body, "capital")), ParseFloat(Field(body, "profitShare")))
  }

  /** investorName, startDate, capital and profitShare are all truthy. */
  predicate AllFields(body: Value) {
    Truthy(Field(body, "investorName")) && Truthy(Field(body, "startDate")) &&
    Truthy(Field(body, "capital")) && Truthy(Field(body, "profitShare"))
  }

  /**
   * POST: 401 without a session; 500 when the body cannot be destructured or
   * `create` throws; 400 "All fields are required" when any field is falsy;
   * else 201.
   */
  function Post(signedIn: bool, body: Option<Value>, createSucceeds: bool): (r: Reply<InvestmentDraft>)
    ensures !signedIn ==> r == Unauthorized()
    ensures signedIn && !Destructurable(body) ==> r == InternalError()
    ensures r == BadRequest("All fields are required") <==> signedIn && Destructurable(body) && !AllFields(body.value)
    ensures r.Success? <==> signedIn && Destructurable(body) && AllFields(body.value) && createSucceeds
    ensures r.Success? ==> r == Success(201, DraftOf(body.value))
  {
    if !signedIn then Unauthorized()
    else if !Destructurable(body) then InternalError()
    else if !AllFields(body.value) then BadRequest("All fields are required")
    else if !createSucceeds then InternalError()
    else Success(201, DraftOf(body.value))
  }

  /** A capital of 0 is rejected as missing. */
  lemma ZeroCapitalRejected()
    ensures var body := Obj(map["investorName" := Str("Ann"), "startDate" := Str("2025-01-01"),
                                "capital" := Num(0.0), "profitShare" := Num(0.3)]);
            Post(true, Some(body), true) == BadRequest("All fields are required")
  {
    var body := Obj(map["investorName" := Str("Ann"), "startDate" := Str("2025-01-01"), "capital" := Num(0.0), "profitShare" := Num(0.3)]);
    assert "capital" in body.props && body.props["capital"] == Num(0.0);
    assert !AllFields(body);
  }

  /** The text "0" is truthy, so it passes the check and is stored as a capital of 0. */
  lemma TextZeroCapitalAccepted()
    ensures var body := Obj(map["investorName" := Str("Ann"), "startDate" := Str("2025-01-01"),
                                "capital" := Str("0"), "profitShare" := Num(0.3)]);
            Post(true, Some(body), true) == Success(201, InvestmentDraft(Str("Ann"), Str("2025-01-01"), Num(0.0), Num(0.3)))
  {
    var body := Obj(map["investorName" := Str("Ann"), "startDate" := Str("2025-01-01"), "capital" := Str("0"), "profitShare" := Num(0.3)]);
    assert Field(body, "investorName") == Str("Ann");
    assert Field(body, "startDate") == Str("2025-01-01");
    assert Field(body, "capital") == Str("0");
    assert Field(body, "profitShare") == Num(0.3);
    ParseFloatDigits("0");
    assert ParseFloat(Str("0")) == Num(0.0) && ParseFloat(Num(0.3)) == Num(0.3);
    assert DraftOf(body) == InvestmentDraft(Str("Ann"), Str("2025-01-01"), Num(0.0), Num(0.3));
    assert AllFields(body);
  }
}
