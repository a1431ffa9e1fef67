/**
 * The expenses page: the search filter, the totals for all loaded expenses,
 * this month and last month, the month-on-month change, the per-category
 * breakdown, the form validator and the submit flow.
 */
module ExpensesPage {
  import opened Js
  import opened Calendar
  import opened Folds
  import opened Client
  import ExpensesRoute
  import Http

  // ---------------------------------------------------------------------------
  // Search and totals

  /** The description (when there is one) or the category contains the term, ignoring ASCII case. */
  function SearchFor(term: string): Expense -> bool {
    (e: Expense) =>
      (e.description.Some? && Includes(ToLower(e.description.value), ToLower(term))) ||
      Includes(ToLower(e.category), ToLower(term))
  }

  function FilteredExpenses(expenses: seq<Expense>, term: string): (r: seq<Expense>)
    ensures forall e :: e in r <==> e in expenses && SearchFor(term)(e)
  {
    FilterMembers(expenses, SearchFor(term));
    Filter(expenses, SearchFor(term))
  }

  /** The empty search term keeps every expense, in order. */
  lemma EmptySearchKeepsAll(expenses: seq<Expense>)
    ensures FilteredExpenses(expenses, "") == expenses
  {
    forall i | 0 <= i < |expenses| ensures SearchFor("")(expenses[i]) {
      IncludesEmpty(ToLower(expenses[i].category));
    }
    FilterAll(expenses, SearchFor(""));
  }

  function Amount(e: Expense): real { e.amount }

  function TotalExpenses(expenses: seq<Expense>): real {
    Sum(expenses, Amount)
  }

  // ---------------------------------------------------------------------------
  // Month windows (`new Date()` is `now`; `new Date(expense.date)` is `dateOf`)

  /** Expenses dated at or after `lo`. */
  function DatedFrom(lo: int, dateOf: string -> int): Expense -> bool {
    (e: Expense) => dateOf(e.date) >= lo
  }

  /** Expenses dated in [lo, hi]. */
  function DatedIn(lo: int, hi: int, dateOf: string -> int): Expense -> bool {
    (e: Expense) => lo <= dateOf(e.date) <= hi
  }

  /** Lines 62-63, as written: `setDate(1)` on the current time keeps the clock time. */
  function ThisMonthStartAsWritten(now: Now): (t: int)
    requires now.Valid()
    ensures t == MonthStart(now.MonthNumber()) + now.msOfDay
  {
    DateOf(now.year, now.month, 1) + now.msOfDay
  }

  /** Midnight of the 1st of the current month, where the window is meant to start. */
  function ThisMonthStart(now: Now): (t: int)
    requires now.Valid()
    ensures t == MonthStart(now.MonthNumber())
    ensures t <= now.Midnight() <= now.Time()
  {
    NowWithin(now);
    DateOf(now.year, now.month, 1)
  }

  function ThisMonthExpenses(expenses: seq<Expense>, dateOf: string -> int, lo: int): real {
    Sum(Filter(expenses, DatedFrom(lo, dateOf)), Amount)
  }

  /**
   * As written, an expense dated at midnight of the 1st (the time a date-only
   * string gives) drops out of this month's total, unless the page is read at
   * exactly 00:00:00.000; from midnight it counts.
   */
  lemma FirstOfMonthMissed(now: Now, e: Expense, dateOf: string -> int)
    requires now.Valid() && now.msOfDay > 0
    requires dateOf(e.date) == MonthStart(now.MonthNumber())
    ensures !DatedFrom(ThisMonthStartAsWritten(now), dateOf)(e)
    ensures DatedFrom(ThisMonthStart(now), dateOf)(e)
  {
  }

  /** This month's total has no upper bound: an expense dated in the future counts. */
  lemma ThisMonthUnbounded(now: Now, e: Expense, dateOf: string -> int)
    requires now.Valid() && dateOf(e.date) > now.Time()
    ensures DatedFrom(ThisMonthStart(now), dateOf)(e)
  {
    NowWithin(now);
  }

  /** A window of time stamps, both ends included. */
  datatype Window = Window(lo: int, hi: int)

  /**
   * The month `setMonth(getMonth() - 1)` lands in: the day is kept, so a day
   * the previous month does not have rolls over into the current month.
   */
  function ShiftedMonth(now: Now): (k: int)
    requires now.Valid()
    ensures k == now.MonthNumber() - 1 <==> now.day <= DaysInMonth(now.MonthNumber() - 1)
    ensures k == now.MonthNumber() <==> now.day > DaysInMonth(now.MonthNumber() - 1)
  {
    if now.day <= DaysInMonth(now.MonthNumber() - 1) then now.MonthNumber() - 1 else now.MonthNumber()
  }

  /** `setMonth(m - 1)` gives the same day of month m - 1, which lies in month ShiftedMonth. */
  lemma SetMonthLands(now: Now)
    requires now.Valid()
    ensures MonthStart(ShiftedMonth(now)) <= DateOf(now.year, now.month - 1, now.day) < MonthStart(ShiftedMonth(now) + 1)
  {
    var n := now.MonthNumber();
    MonthStartStep(n - 1);
    MonthStartStep(n);
    assert 12 * now.year + (now.month - 1) == n - 1;
  }

  /**
   * Lines 70-73, as written: the 1st of the month `setMonth` landed in, at the
   * current clock time, up to midnight of that month's last day.
   */
  function LastMonthWindowAsWritten(now: Now): (w: Window)
    requires now.Valid()
    ensures w.lo == MonthStart(ShiftedMonth(now)) + now.msOfDay
    ensures w.hi == MonthLastMidnight(ShiftedMonth(now))
  {
    var k := ShiftedMonth(now);
    Window(MonthStart(k) + now.msOfDay, MonthLastMidnight(k))
  }

  /** Last calendar month from midnight of its 1st up to midnight of its last day. */
  function LastMonthWindow(now: Now): (w: Window)
    requires now.Valid()
    ensures w.lo == MonthStart(now.MonthNumber() - 1)
    ensures w.hi + DayMs == MonthStart(now.MonthNumber())
  {
    var n := now.MonthNumber();
    Window(MonthStart(n - 1), MonthLastMidnight(n - 1))
  }

  function LastMonthExpenses(expenses: seq<Expense>, dateOf: string -> int, w: Window): real {
    Sum(Filter(expenses, DatedIn(w.lo, w.hi, dateOf)), Amount)
  }

  /** On a day the previous month also has, the written window is last month's, shifted to the clock time. */
  lemma LastMonthAgreesEarlyInMonth(now: Now)
    requires now.Valid() && now.day <= DaysInMonth(now.MonthNumber() - 1)
    ensures LastMonthWindowAsWritten(now) == LastMonthWindow(now).(lo := LastMonthWindow(now).lo + now.msOfDay)
  {
  }

  /**
   * On the 29th to the 31st of a month following a shorter one, the written
   * "last month" is the current month: an expense dated between its 1st and
   * the last midnight counts both in this month's and in last month's total.
   */
  lemma LastMonthOverflow(now: Now, e: Expense, dateOf: string -> int)
    requires now.Valid() && now.day > DaysInMonth(now.MonthNumber() - 1)
    requires LastMonthWindowAsWritten(now).lo <= dateOf(e.date) <= LastMonthWindowAsWritten(now).hi
    ensures DatedFrom(ThisMonthStartAsWritten(now), dateOf)(e)
    ensures DatedIn(LastMonthWindowAsWritten(now).lo, LastMonthWindowAsWritten(now).hi, dateOf)(e)
    ensures !DatedIn(LastMonthWindow(now).lo, LastMonthWindow(now).hi, dateOf)(e)
  {
    MonthStartStep(now.MonthNumber() - 1);
  }

  /** 2025-03-31 is such a day: February 2025 has 28 days. */
  lemma MarchThirtyFirst()
    ensures ShiftedMonth(Now(2025, 2, 31, 0)) == 12 * 2025 + 2
  {
    assert DaysInMonth(12 * 2025 + 1) == 28;
  }

  /** Lines 83-86: 0 without last month's total, else the change relative to it, without an absolute value. */
  function MonthlyChange(thisMonth: real, lastMonth: real): (r: real)
    ensures lastMonth == 0.0 ==> r == 0.0
    ensures lastMonth != 0.0 ==> lastMonth + lastMonth * r / 100.0 == thisMonth
  {
    if lastMonth == 0.0 then 0.0 else (thisMonth - lastMonth) / lastMonth * 100.0
  }

  /** The three month cards (this month, last month, change) with the intended windows. */
  function MonthCards(expenses: seq<Expense>, dateOf: string -> int, now: Now): (real, real, real)
    requires now.Valid()
  {
    var thisMonth := ThisMonthExpenses(expenses, dateOf, ThisMonthStart(now));
    var lastMonth := LastMonthExpenses(expenses, dateOf, LastMonthWindow(now));
    (thisMonth, lastMonth, MonthlyChange(thisMonth, lastMonth))
  }

  /**
   * With the intended windows one more expense adds to exactly one month
   * card: to this month's from its 1st on, to last month's inside last month,
   * and to neither before that.
   */
  lemma MonthCardsAddExpense(expenses: seq<Expense>, e: Expense, dateOf: string -> int, now: Now)
    requires now.Valid()
    ensures var before := MonthCards(expenses, dateOf, now);
            var after := MonthCards(expenses + [e], dateOf, now);
            (dateOf(e.date) >= ThisMonthStart(now) ==> after.0 == before.0 + e.amount && after.1 == before.1) &&
            (LastMonthWindow(now).lo <= dateOf(e.date) <= LastMonthWindow(now).hi ==>
               after.0 == before.0 && after.1 == before.1 + e.amount) &&
            (dateOf(e.date) < LastMonthWindow(now).lo ==> after.0 == before.0 && after.1 == before.1)
  {
    var lo := ThisMonthStart(now);
    var w := LastMonthWindow(now);
    assert [e][1..] == [];
    FilterAppend(expenses, [e], DatedFrom(lo, dateOf));
    FilterAppend(expenses, [e], DatedIn(w.lo, w.hi, dateOf));
    var t1 := Filter([e], DatedFrom(lo, dateOf));
    var t2 := Filter([e], DatedIn(w.lo, w.hi, dateOf));
    assert t1 == if dateOf(e.date) >= lo then [e] else [];
    assert t2 == if w.lo <= dateOf(e.date) <= w.hi then [e] else [];
    SumAppend(Filter(expenses, DatedFrom(lo, dateOf)), t1, Amount);
    SumAppend(Filter(expenses, DatedIn(w.lo, w.hi, dateOf)), t2, Amount);
  }

  // ---------------------------------------------------------------------------
  // Category breakdown

  function InCategory(c: string): Expense -> bool {
    (e: Expense) => e.category == c
  }

  /** The sum of the amounts of one category. */
  function CategoryTotal(expenses: seq<Expense>, c: string): real {
    Sum(Filter(expenses, InCategory(c)), Amount)
  }

  /** The breakdown one more expense gives. */
  lemma CategoryTotalSnoc(expenses: seq<Expense>, e: Expense, c: string)
    ensures CategoryTotal(expenses + [e], c) == CategoryTotal(expenses, c) + (if e.category == c then e.amount else 0.0)
  {
    FilterAppend(expenses, [e], InCategory(c));
    SumAppend(Filter(expenses, InCategory(c)), Filter([e], InCategory(c)), Amount);
  }

  lemma CategoryTotalCons(e: Expense, rest: seq<Expense>, c: string)
    ensures CategoryTotal([e] + rest, c) == (if e.category == c then e.amount else 0.0) + CategoryTotal(rest, c)
  {
    FilterAppend([e], rest, InCategory(c));
    SumAppend(Filter([e], InCategory(c)), Filter(rest, InCategory(c)), Amount);
  }

  /** Some expense has category `c`. */
  predicate HasCategory(expenses: seq<Expense>, c: string) {
    exists i :: 0 <= i < |expenses| && expenses[i].category == c
  }

  lemma HasCategorySnoc(expenses: seq<Expense>, e: Expense, c: string)
    ensures HasCategory(expenses + [e], c) <==> HasCategory(expenses, c) || e.category == c
  {
    var t := expenses + [e];
    if HasCategory(t, c) {
      var i :| 0 <= i < |t| && t[i].category == c;
      if i < |expenses| {
        assert expenses[i] == t[i];
      }
    }
    if HasCategory(expenses, c) {
      var i :| 0 <= i < |expenses| && expenses[i].category == c;
      assert t[i] == expenses[i];
    }
    if e.category == c {
      assert t[|expenses|] == e;
    }
  }

  lemma HasCategoryCons(e: Expense, rest: seq<Expense>, c: string)
    ensures HasCategory([e] + rest, c) <==> e.category == c || HasCategory(rest, c)
  {
    var t := [e] + rest;
    if HasCategory(t, c) {
      var i :| 0 <= i < |t| && t[i].category == c;
      if i > 0 {
        assert rest[i - 1] == t[i];
      }
    }
    if HasCategory(rest, c) {
      var i :| 0 <= i < |rest| && rest[i].category == c;
      assert t[i + 1] == rest[i];
    }
    assert t[0] == e;
  }

  /** Lines 88-94: one total per occurring category, accumulated in one pass. */
  method CategoryBreakdown(expenses: seq<Expense>) returns (breakdown: map<string, real>)
    ensures BreakdownOf(expenses, breakdown)
  {
    breakdown := map[];
    for i := 0 to |expenses|
      invariant BreakdownOf(expenses[..i], breakdown)
    {
      var e := expenses[i];
      var b := breakdown;
      breakdown := breakdown[e.category := (if e.category in breakdown then breakdown[e.category] else 0.0) + e.amount];
      Step(expenses[..i], e, b);
      assert expenses[..i + 1] == expenses[..i] + [e];
      assert BreakdownOf(expenses[..i + 1], breakdown);
    }
    assert expenses[..|expenses|] == expenses;
  }

  /** The keys are exactly the categories of `done`, each mapped to its total. */
  ghost predicate BreakdownOf(done: seq<Expense>, b: map<string, real>) {
    (forall c :: c in b <==> HasCategory(done, c)) &&
    (forall c :: c in b ==> b[c] == CategoryTotal(done, c))
  }

  /** One turn of the breakdown loop keeps its invariant. */
  lemma Step(done: seq<Expense>, e: Expense, b: map<string, real>)
    requires BreakdownOf(done, b)
    ensures BreakdownOf(done + [e], b[e.category := (if e.category in b then b[e.category] else 0.0) + e.amount])
  {
    var b' := b[e.category := (if e.category in b then b[e.category] else 0.0) + e.amount];
    if e.category !in b {
      forall i | 0 <= i < |done| ensures !InCategory(e.category)(done[i]) {
        assert !HasCategory(done, e.category);
      }
      FilterNone(done, InCategory(e.category));
    }
    forall c ensures c in b' <==> HasCategory(done + [e], c) {
      HasCategorySnoc(done, e, c);
    }
    forall c | c in b' ensures b'[c] == CategoryTotal(done + [e], c) {
      CategoryTotalSnoc(done, e, c);
    }
  }

  predicate Distinct(cats: seq<string>) {
    forall i, j :: 0 <= i < j < |cats| ==> cats[i] != cats[j]
  }

  /** The occurring categories, each once. */
  function CategoryList(expenses: seq<Expense>): (r: seq<string>)
    ensures Distinct(r)
    ensures forall c :: c in r <==> HasCategory(expenses, c)
  {
    if expenses == [] then []
    else
      var rest := CategoryList(expenses[1..]);
      assert expenses == [expenses[0]] + expenses[1..];
      assert forall c :: HasCategory(expenses, c) <==> c == expenses[0].category || HasCategory(expenses[1..], c) by {
        forall c ensures HasCategory(expenses, c) <==> c == expenses[0].category || HasCategory(expenses[1..], c) {
          HasCategoryCons(expenses[0], expenses[1..], c);
        }
      }
      if expenses[0].category in rest then rest else [expenses[0].category] + rest
  }

  /** The category totals over a list of categories. */
  function TotalsOver(expenses: seq<Expense>, cats: seq<string>): real {
    if cats == [] then 0.0 else CategoryTotal(expenses, cats[0]) + TotalsOver(expenses, cats[1..])
  }

  /** The amount of `e`, once for each listed category it belongs to. */
  function Hits(e: Expense, cats: seq<string>): real {
    if cats == [] then 0.0 else (if cats[0] == e.category then e.amount else 0.0) + Hits(e, cats[1..])
  }

  lemma {:induction false} HitsDistinct(e: Expense, cats: seq<string>)
    requires Distinct(cats)
    ensures Hits(e, cats) == if e.category in cats then e.amount else 0.0
  {
    if cats != [] {
      HitsDistinct(e, cats[1..]);
      if cats[0] == e.category {
        assert e.category !in cats[1..] by {
          forall j | 0 <= j < |cats[1..]| ensures cats[1..][j] != e.category {
            assert cats[1..][j] == cats[j + 1];
          }
        }
      }
    }
  }

  lemma {:induction false} TotalsOverCons(e: Expense, rest: seq<Expense>, cats: seq<string>)
    ensures TotalsOver([e] + rest, cats) == Hits(e, cats) + TotalsOver(rest, cats)
  {
    if cats != [] {
      TotalsOverCons(e, rest, cats[1..]);
      CategoryTotalCons(e, rest, cats[0]);
    }
  }

  lemma {:induction false} TotalsOverEmpty(cats: seq<string>)
    ensures TotalsOver([], cats) == 0.0
  {
    if cats != [] {
      TotalsOverEmpty(cats[1..]);
    }
  }

  /** Totals over a list that holds every occurring category once add up to the sum of all amounts. */
  lemma {:induction false} TotalsOverAll(expenses: seq<Expense>, cats: seq<string>)
    requires Distinct(cats)
    requires forall i :: 0 <= i < |expenses| ==> expenses[i].category in cats
    ensures TotalsOver(expenses, cats) == TotalExpenses(expenses)
    decreases |expenses|
  {
    if expenses == [] {
      TotalsOverEmpty(cats);
    } else {
      var e, rest := expenses[0], expenses[1..];
      assert expenses == [e] + rest;
      TotalsOverCons(e, rest, cats);
      HitsDistinct(e, cats);
      forall i | 0 <= i < |rest| ensures rest[i].category in cats {
        assert rest[i] == expenses[i + 1];
      }
      TotalsOverAll(rest, cats);
    }
  }

  /** The breakdown's values add up to the total of all expenses. */
  lemma BreakdownAddsUp(expenses: seq<Expense>)
    ensures TotalsOver(expenses, CategoryList(expenses)) == TotalExpenses(expenses)
  {
    var cats := CategoryList(expenses);
    forall i | 0 <= i < |expenses| ensures expenses[i].category in cats {
      assert HasCategory(expenses, expenses[i].category);
    }
    TotalsOverAll(expenses, cats);
  }

  // ---------------------------------------------------------------------------
  // The form

  datatype ExpenseFormData = ExpenseFormData(date: string, category: string, description: string, amount: string)

  /** Lines 103-124: one message per failed field, in the object `validateForm` builds. */
  function FormErrors(form: ExpenseFormData): Errors {
    var e1 := Flag(map[], form.date == "", "date", "Date is required");
    var e2 := Flag(e1, form.category == "", "category", "Category is required");
    var e3 := Flag(e2, AmountRefused(form.amount), "amount", "Amount must be greater than 0");
    Flag(e3, Trim(form.description) == "", "description", "Description is required")
  }

  predicate FormValid(form: ExpenseFormData) {
    form.date != "" && form.category != "" && !AmountRefused(form.amount) && Trim(form.description) != ""
  }

  /** A message is recorded exactly for each failed field, and none for a valid form. */
  lemma FormErrorsContents(form: ExpenseFormData)
    ensures "date" in FormErrors(form) <==> form.date == ""
    ensures "category" in FormErrors(form) <==> form.category == ""
    ensures "amount" in FormErrors(form) <==> AmountRefused(form.amount)
    ensures "description" in FormErrors(form) <==> Trim(form.description) == ""
    ensures FormErrors(form).Keys <= {"date", "category", "amount", "description"}
    ensures "date" in FormErrors(form) ==> FormErrors(form)["date"] == "Date is required"
    ensures "category" in FormErrors(form) ==> FormErrors(form)["category"] == "Category is required"
    ensures "amount" in FormErrors(form) ==> FormErrors(form)["amount"] == "Amount must be greater than 0"
    ensures "description" in FormErrors(form) ==> FormErrors(form)["description"] == "Description is required"
    ensures FormErrors(form) == map[] <==> FormValid(form)
  {
    var e := FormErrors(form);
    if !FormValid(form) {
      assert "date" in e || "category" in e || "amount" in e || "description" in e;
    }
  }

  /** The error map is empty exactly when the form is valid. */
  lemma NoErrorsWhenValid(form: ExpenseFormData)
    ensures |FormErrors(form)| == 0 <==> FormValid(form)
  {
    FormErrorsContents(form);
    if |FormErrors(form)| == 0 {
      assert FormErrors(form) == map[];
    }
  }

  /** Lines 134-146: the data sent: trimmed description and parsed amount. */
  datatype Payload = Payload(date: string, category: string, description: string, amount: Value)

  function PayloadOf(form: ExpenseFormData): Payload {
    Payload(form.date, form.category, Trim(form.description), ParseFloat(Str(form.amount)))
  }

  /** The request body the server receives. */
  function BodyOf(p: Payload): Value {
    Obj(map["date" := Str(p.date), "category" := Str(p.category), "description" := Str(p.description),
            "amount" := JsonNumber(p.amount)])
  }

  /** The request a submit sends: the payload is `PayloadOf(form)`. */
  datatype Request = Create(form: ExpenseFormData) | Update(id: string, form: ExpenseFormData)

  /** The general error shown when the request fails. */
  function FailureMessage(editing: Option<Expense>): string {
    if editing.Some? then "Failed to update expense" else "Failed to create expense"
  }

  /** The four inputs of the form. */
  datatype Input = DateField | CategoryField | DescriptionField | AmountField

  function FieldName(f: Input): string {
    match f
    case DateField => "date"
    case CategoryField => "category"
    case DescriptionField => "description"
    case AmountField => "amount"
  }

  /** A trimmed string trims to itself. */
  lemma TrimIdempotent(s: string)
    ensures Trim(Trim(s)) == Trim(s)
  {
    var t := TrimStart(s);
    var r := TrimEnd(t);
    TrimStartShape(s);
    TrimEndShape(t);
    if r != [] {
      assert r[0] == t[0];
    }
    TrimUnchanged(r);
  }

  lemma BodyFields(p: Payload)
    ensures Field(BodyOf(p), "date") == Str(p.date)
    ensures Field(BodyOf(p), "category") == Str(p.category)
    ensures Field(BodyOf(p), "description") == Str(p.description)
    ensures Field(BodyOf(p), "amount") == JsonNumber(p.amount)
  {
    var m := BodyOf(p).props;
    assert "date" in m && "category" in m && "description" in m && "amount" in m;
  }

  /** A form valid here whose amount parses is accepted by the server with the same fields. */
  lemma ValidFormAccepted(form: ExpenseFormData, amount: real)
    requires FormValid(form) && ParseFloat(Str(form.amount)) == Num(amount)
    ensures ExpensesRoute.Post(true, Some(BodyOf(PayloadOf(form))), true) ==
            Http.Success(201, ExpensesRoute.ExpenseDraft(Str(form.date), Str(form.category), Str(Trim(form.description)), Num(amount)))
  {
    var body := BodyOf(PayloadOf(form));
    BodyFields(PayloadOf(form));
    assert amount > 0.0;
    assert ParseFloat(Field(body, "amount")) == Num(amount);
    TrimIdempotent(form.description);
    assert ExpensesRoute.StoredDescription(Field(body, "description")) == Some(Str(Trim(form.description)));
    ExpensesRoute.Accepted(body, amount);
  }

  /**
   * An amount text that is not a number passes this validator (NaN <= 0 is
   * false) but reaches the server as null, which answers 400.
   */
  lemma NonNumericAmountRefusedByServer(form: ExpenseFormData)
    requires form.date != "" && form.category != "" && Trim(form.description) != "" && form.amount == "abc"
    ensures FormValid(form)
    ensures ExpensesRoute.Post(true, Some(BodyOf(PayloadOf(form))), true) ==
            Http.BadRequest("Date, category, and amount are required")
  {
    ParseFloatLetter("abc");
    assert ParseFloat(Str("abc")) == NaN;
    var p := PayloadOf(form);
    assert p.amount == NaN;
    BodyFields(p);
    var body := BodyOf(p);
    assert Field(body, "amount") == Null;
    ExpensesRoute.AmountMissing(body);
  }

  /** The page state the submit flow reads and sets. */
  class SubmitState {
    var form: ExpenseFormData
    var errors: Errors
    var editing: Option<Expense>
    var showForm: bool
    var isSubmitting: bool

    constructor(today: string)
      ensures form == ExpenseFormData(today, "", "", "") && errors == map[] && editing == None
      ensures !showForm && !isSubmitting
    {
      form := ExpenseFormData(today, "", "", "");
      errors := map[];
      editing := None;
      showForm := false;
      isSubmitting := false;
    }

    /** Lines 96-101: the field takes the typed text; a message shown for it is blanked, its key kept. */
    method HandleInputChange(field: Input, value: string)
      modifies this
      ensures form == old(form).(date := if field == DateField then value else old(form).date,
                                 category := if field == CategoryField then value else old(form).category,
                                 description := if field == DescriptionField then value else old(form).description,
                                 amount := if field == AmountField then value else old(form).amount)
      ensures errors == if FieldName(field) in old(errors) && old(errors)[FieldName(field)] != "" then old(errors)[FieldName(field) := ""] else old(errors)
      ensures editing == old(editing) && showForm == old(showForm) && isSubmitting == old(isSubmitting)
    {
      match field {
        case DateField => form := form.(date := value);
        case CategoryField => form := form.(category := value);
        case DescriptionField => form := form.(description := value);
        case AmountField => form := form.(amount := value);
      }
      var key := FieldName(field);
      if key in errors && errors[key] != "" {
        errors := errors[key := ""];
      }
    }

    /** Lines 103-124: the messages replace the shown ones; the form is valid when there are none. */
    method ValidateForm() returns (valid: bool)
      modifies this
      ensures errors == FormErrors(form)
      ensures valid <==> FormValid(form)
      ensures form == old(form) && editing == old(editing) && showForm == old(showForm) && isSubmitting == old(isSubmitting)
    {
      var f := form;
      var newErrors: Errors := map[];
      if f.date == "" {
        newErrors := newErrors["date" := "Date is required"];
      }
      ghost var e1 := newErrors;
      assert e1 == Flag(map[], f.date == "", "date", "Date is required");
      if f.category == "" {
        newErrors := newErrors["category" := "Category is required"];
      }
      ghost var e2 := newErrors;
      assert e2 == Flag(e1, f.category == "", "category", "Category is required");
      if AmountRefused(f.amount) {
        newErrors := newErrors["amount" := "Amount must be greater than 0"];
      }
      ghost var e3 := newErrors;
      assert e3 == Flag(e2, AmountRefused(f.amount), "amount", "Amount must be greater than 0");
      if Trim(f.description) == "" {
        newErrors := newErrors["description" := "Description is required"];
      }
      assert newErrors == Flag(e3, Trim(f.description) == "", "description", "Description is required");
      errors := newErrors;
      NoErrorsWhenValid(f);
      valid := |newErrors| == 0;
    }

    /**
     * Lines 126-162: nothing is sent for a form with errors; otherwise an
     * update of the expense being edited or a create, after which the form
     * closes and resets, or on failure a general error is shown; the
     * submitting flag ends cleared either way.
     */
    method HandleSubmit(today: string, requestSucceeds: bool) returns (sent: Option<Request>)
      modifies this
      ensures !FormValid(old(form)) ==>
                sent == None && errors == FormErrors(old(form)) &&
                form == old(form) && editing == old(editing) && showForm == old(showForm) && isSubmitting == old(isSubmitting)
      ensures FormValid(old(form)) && old(editing).Some? ==> sent == Some(Update(old(editing).value.id, old(form)))
      ensures FormValid(old(form)) && old(editing).None? ==> sent == Some(Create(old(form)))
      ensures FormValid(old(form)) && requestSucceeds ==>
                !showForm && editing == None && form == ExpenseFormData(today, "", "", "") && errors == map[] && !isSubmitting
      ensures FormValid(old(form)) && !requestSucceeds ==>
                form == old(form) && editing == old(editing) && showForm == old(showForm) && !isSubmitting &&
                errors == map["general" := FailureMessage(old(editing))]
    {
      var valid := ValidateForm();
      if !valid {
        return None;
      }
      isSubmitting := true;
      sent := if editing.Some? then Some(Update(editing.value.id, form)) else Some(Create(form));
      if requestSucceeds {
        showForm := false;
        editing := None;
        form := ExpenseFormData(today, "", "", "");
      } else {
        errors := map["general" := FailureMessage(editing)];
      }
      isSubmitting := false;
    }
  }
}
