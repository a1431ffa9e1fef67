/**
 * The expenses endpoint: GET lists expenses filtered by an optional date
 * range and category, newest first; POST checks presence and positivity and
 * normalises the description.
 */
module ExpensesRoute {
  import opened Js
  import opened Folds
  import opened Ordering
  import opened Records
  import opened Http
  import opened Requests

  // ---------------------------------------------------------------------------
  // GET

  datatype Where = Where(date: Option<DateRange>, category: Option<string>)

  /** Lines 20-31: a date range when both dates are given, a category whenever one is given. */
  method BuildWhere(startDate: Option<string>, endDate: Option<string>, category: Option<string>) returns (w: Where)
    ensures w.date.Some? <==> TruthyText(startDate) && TruthyText(endDate)
    ensures w.date == RangeOf(startDate, endDate)
    ensures w.category.Some? <==> TruthyText(category)
    ensures w.category.Some? ==> w.category == category
  {
    w := Where(None, None);
    if TruthyText(startDate) && TruthyText(endDate) {
      w := w.(date := Some(DateRange(startDate.value, endDate.value)));
    }
    if TruthyText(category) {
      w := w.(category := category);
    }
  }

  /** The filter the where-clause denotes: the date range, and equality with the category. */
  function Matching(w: Where, dateOf: string -> int): Expense -> bool {
    (e: Expense) => InRange(w.date, dateOf, e.date) && (w.category.None? || e.category == w.category.value)
  }

  function ExpenseDate(e: Expense): int { e.date }

  function Listing(db: Database, w: Where, dateOf: string -> int): seq<Expense> {
    Query(db.expenses, Matching(w, dateOf), NewestFirst(ExpenseDate))
  }

  /** GET: 401 without a session, 500 when the read throws, else 200 with the matching expenses newest first. */
  method Get(signedIn: bool, readSucceeds: bool, db: Database, startDate: Option<string>, endDate: Option<string>,
             category: Option<string>, dateOf: string -> int)
    returns (reply: Reply<seq<Expense>>)
    ensures !signedIn ==> reply == Unauthorized()
    ensures signedIn && !readSucceeds ==> reply == InternalError()
    ensures signedIn && readSucceeds ==>
              reply == Success(200, Listing(db, Where(RangeOf(startDate, endDate), if TruthyText(category) then category else None), dateOf))
  {
    if !signedIn {
      return Unauthorized();
    }
    var w := BuildWhere(startDate, endDate, category);
    if !readSucceeds {
      return InternalError();
    }
    reply := Success(200, Listing(db, w, dateOf));
  }

  /** The listing is the expenses that match, each as often as stored, newest first. */
  lemma ListingContents(db: Database, w: Where, dateOf: string -> int)
    ensures forall i, j :: 0 <= i < j < |Listing(db, w, dateOf)| ==> Listing(db, w, dateOf)[i].date >= Listing(db, w, dateOf)[j].date
    ensures multiset(Listing(db, w, dateOf)) == multiset(Filter(db.expenses, Matching(w, dateOf)))
    ensures forall e :: e in Listing(db, w, dateOf) <==>
              e in db.expenses && InRange(w.date, dateOf, e.date) && (w.category.None? || e.category == w.category.value)
  {
    NewestFirstIsOrder(ExpenseDate);
    QueryContents(db.expenses, Matching(w, dateOf), NewestFirst(ExpenseDate));
    var l := Listing(db, w, dateOf);
    forall i, j | 0 <= i < j < |l| ensures l[i].date >= l[j].date {
      assert NewestFirst(ExpenseDate)(l[i], l[j]);
      assert ExpenseDate(l[i]) >= ExpenseDate(l[j]);
    }
  }

  // ---------------------------------------------------------------------------
  // POST

  /** The data handed to `create`: `date` is the value `new Date(date)` is built from. */
  datatype ExpenseDraft = ExpenseDraft(date: Value, category: Value, description: Value, amount: Value)

  /**
   * Line 75, `description?.trim() || null`: the trimmed text, or null when the
   * description is absent or blank; `None` when it is a value without `trim`,
   * which throws.
   */
  function StoredDescription(description: Value): (r: Option<Value>)
    ensures r.None? <==> !Nullish(description) && !description.Str?
    ensures Nullish(description) ==> r == Some(Null)
    ensures description.Str? ==> r == Some(if Trim(description.s) == "" then Null else Str(Trim(description.s)))
  {
    match description
    case Undefined => Some(Null)
    case Null => Some(Null)
    case Str(s) => Some(if Trim(s) != "" then Str(Trim(s)) else Null)
    case _ => None
  }

  /** A blank description is stored as null, any other text trimmed. */
  lemma BlankDescription(s: string)
    ensures StoredDescription(Str(s)) == Some(Null) <==> forall i :: 0 <= i < |s| ==> IsWhitespace(s[i])
  {
    TrimBlank(s);
  }

  /**
   * POST: 401 without a session; 500 when the body cannot be destructured;
   * 400 when date, category or amount is falsy; then 400 when the parsed
   * amount is at most 0; 500 when the description has no `trim` or `create`
   * throws; else 201 with the created record.
   */
  function Post(signedIn: bool, body: Option<Value>, createSucceeds: bool): (r: Reply<ExpenseDraft>)
    ensures !signedIn ==> r == Unauthorized()
    ensures signedIn && !Destructurable(body) ==> r == InternalError()
    ensures r == BadRequest("Date, category, and amount are required") <==>
              signedIn && Destructurable(body) &&
              !(Truthy(Field(body.value, "date")) && Truthy(Field(body.value, "category")) && Truthy(Field(body.value, "amount")))
    ensures r == BadRequest("Amount must be greater than 0") <==>
              signedIn && Destructurable(body) &&
              Truthy(Field(body.value, "date")) && Truthy(Field(body.value, "category")) && Truthy(Field(body.value, "amount")) &&
              AtMost(ParseFloat(Field(body.value, "amount")), 0.0)
    ensures r.Success? ==>
              r.status == 201 && StoredDescription(Field(body.value, "description")) == Some(r.body.description) &&
              r.body == ExpenseDraft(Field(body.value, "date"), Field(body.value, "category"), r.body.description,
                                     ParseFloat(Field(body.value, "amount"))) &&
              !AtMost(r.body.amount, 0.0)
    ensures r.Success? <==>
              signedIn && Destructurable(body) &&
              Truthy(Field(body.value, "date")) && Truthy(Field(body.value, "category")) && Truthy(Field(body.value, "amount")) &&
              !AtMost(ParseFloat(Field(body.value, "amount")), 0.0) &&
              StoredDescription(Field(body.value, "description")).Some? && createSucceeds
  {
    if !signedIn then Unauthorized()
    else if !Destructurable(body) then InternalError()
    else
      var b := body.value;
      if !Truthy(Field(b, "date")) || !Truthy(Field(b, "category")) || !Truthy(Field(b, "amount")) then
        BadRequest("Date, category, and amount are required")
      else if AtMost(ParseFloat(Field(b, "amount")), 0.0) then BadRequest("Amount must be greater than 0")
      else
        var description := StoredDescription(Field(b, "description"));
        if description.None? || !createSucceeds then InternalError()
        else Success(201, ExpenseDraft(Field(b, "date"), Field(b, "category"), description.value, ParseFloat(Field(b, "amount"))))
  }

  /** A body whose three fields are truthy, whose amount is positive and whose description has `trim` is stored. */
  lemma Accepted(b: Value, amount: real)
    requires b.Obj? && Truthy(Field(b, "date")) && Truthy(Field(b, "category"))
    requires Truthy(Field(b, "amount")) && ParseFloat(Field(b, "amount")) == Num(amount) && amount > 0.0
    requires StoredDescription(Field(b, "description")).Some?
    ensures Post(true, Some(b), true) ==
            Success(201, ExpenseDraft(Field(b, "date"), Field(b, "category"), StoredDescription(Field(b, "description")).value, Num(amount)))
  {
  }

  /** A body whose amount is falsy is refused before anything else is looked at. */
  lemma AmountMissing(b: Value)
    requires b.Obj? && !Truthy(Field(b, "amount"))
    ensures Post(true, Some(b), true) == BadRequest("Date, category, and amount are required")
  {
  }

  /** An amount that is not a number passes both checks: `NaN <= 0` is false. */
  lemma NonNumericAmountAccepted()
    ensures var body := Obj(map["date" := Str("2025-01-15"), "category" := Str("Rent"), "amount" := Str("abc")]);
            Post(true, Some(body), true) == Success(201, ExpenseDraft(Str("2025-01-15"), Str("Rent"), Null, NaN))
  {
    var body := Obj(map["date" := Str("2025-01-15"), "category" := Str("Rent"), "amount" := Str("abc")]);
    assert "description" !in body.props;
    assert Field(body, "description") == Undefined;
    assert Field(body, "date") == Str("2025-01-15") && Field(body, "category") == Str("Rent");
    assert Field(body, "amount") == Str("abc");
    ParseFloatLetter("abc");
    assert ParseFloat(Str("abc")) == NaN;
  }
}
