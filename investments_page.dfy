/**
 * The investments page: capital, current profit and investor count over the
 * active investments, the average ROI card, and the new-investment form with
 * its validator and submit flow.
 */
module InvestmentsPage {
  import opened Js
  import opened Folds
  import opened Client
  import InvestmentsRoute
  import Http

  // ---------------------------------------------------------------------------
  // Metrics

  predicate IsActive(inv: Investment) { inv.isActive }

  function Capital(inv: Investment): real { inv.capital }

  function CurrentProfit(inv: Investment): real { inv.currentProfit }

  /** Lines 30-34. */
  function TotalCapital(investments: seq<Investment>): real {
    Sum(Filter(investments, IsActive), Capital)
  }

  /** Lines 36-40. */
  function TotalCurrentProfit(investments: seq<Investment>): real {
    Sum(Filter(investments, IsActive), CurrentProfit)
  }

  /** Lines 42-44. */
  function ActiveInvestors(investments: seq<Investment>): nat {
    Count(investments, IsActive)
  }

  /**
   * Line 190: profit / capital × 100 when the active capital is positive;
   * `None` stands for the "0%" shown otherwise.
   */
  function AverageRoi(investments: seq<Investment>): (r: Option<real>)
    ensures r.Some? <==> TotalCapital(investments) > 0.0
    ensures r.Some? ==> r.value * TotalCapital(investments) == TotalCurrentProfit(investments) * 100.0
  {
    var capital := TotalCapital(investments);
    if capital > 0.0 then
      var roi := TotalCurrentProfit(investments) / capital * 100.0;
      assert roi * capital == TotalCurrentProfit(investments) * 100.0;
      Some(roi)
    else None
  }

  /** One more investment counts in all three metrics when it is active, and in none when it is not. */
  lemma AddInvestment(investments: seq<Investment>, inv: Investment)
    ensures inv.isActive ==>
              TotalCapital(investments + [inv]) == TotalCapital(investments) + inv.capital &&
              TotalCurrentProfit(investments + [inv]) == TotalCurrentProfit(investments) + inv.currentProfit &&
              ActiveInvestors(investments + [inv]) == ActiveInvestors(investments) + 1
    ensures !inv.isActive ==>
              TotalCapital(investments + [inv]) == TotalCapital(investments) &&
              TotalCurrentProfit(investments + [inv]) == TotalCurrentProfit(investments) &&
              ActiveInvestors(investments + [inv]) == ActiveInvestors(investments)
  {
    FilterAppend(investments, [inv], IsActive);
    var active := Filter(investments, IsActive);
    var last := Filter([inv], IsActive);
    assert [inv][1..] == [];
    assert last == if inv.isActive then [inv] else [];
    SumAppend(active, last, Capital);
    SumAppend(active, last, CurrentProfit);
  }

  /** The metrics do not depend on the order the investments are listed in. */
  lemma MetricsOrder(a: seq<Investment>, b: seq<Investment>)
    requires multiset(a) == multiset(b)
    ensures TotalCapital(a) == TotalCapital(b) && TotalCurrentProfit(a) == TotalCurrentProfit(b)
    ensures ActiveInvestors(a) == ActiveInvestors(b) && AverageRoi(a) == AverageRoi(b)
  {
    FilterSumPermutation(a, b, IsActive, Capital);
    FilterSumPermutation(a, b, IsActive, CurrentProfit);
    CountPermutation(a, b, IsActive);
  }

  /** Without an active investor every card shows zero. */
  lemma NoActiveInvestors(investments: seq<Investment>)
    requires ActiveInvestors(investments) == 0
    ensures TotalCapital(investments) == 0.0 && TotalCurrentProfit(investments) == 0.0
    ensures AverageRoi(investments) == None
  {
    assert Filter(investments, IsActive) == [];
  }

  // ---------------------------------------------------------------------------
  // The form

  datatype InvestmentFormData = InvestmentFormData(investorName: string, startDate: string, capital: string, profitShare: string)

  /** `!text || parseFloat(text) <= 0 || parseFloat(text) > 1` (text that is not a number passes). */
  predicate ShareRefused(text: string) {
    text == "" || AtMost(ParseFloat(Str(text)), 0.0) || Above(ParseFloat(Str(text)), 1.0)
  }

  /** Lines 53-66: a message for a blank name, a refused capital and a refused profit share. */
  function FormErrors(form: InvestmentFormData): Errors {
    var e1 := Flag(map[], Trim(form.investorName) == "", "investorName", "Investor name is required");
    var e2 := Flag(e1, AmountRefused(form.capital), "capital", "Capital must be greater than 0");
    Flag(e2, ShareRefused(form.profitShare), "profitShare", "Profit share must be between 0 and 1 (e.g., 0.3 for 30%)")
  }

  predicate FormValid(form: InvestmentFormData) {
    Trim(form.investorName) != "" && !AmountRefused(form.capital) && !ShareRefused(form.profitShare)
  }

  /** A message is recorded exactly for each failed field, and none for a valid form. */
  lemma FormErrorsContents(form: InvestmentFormData)
    ensures "investorName" in FormErrors(form) <==> Trim(form.investorName) == ""
    ensures "capital" in FormErrors(form) <==> AmountRefused(form.capital)
    ensures "profitShare" in FormErrors(form) <==> ShareRefused(form.profitShare)
    ensures FormErrors(form).Keys <= {"investorName", "capital", "profitShare"}
    ensures "investorName" in FormErrors(form) ==> FormErrors(form)["investorName"] == "Investor name is required"
    ensures "capital" in FormErrors(form) ==> FormErrors(form)["capital"] == "Capital must be greater than 0"
    ensures "profitShare" in FormErrors(form) ==>
              FormErrors(form)["profitShare"] == "Profit share must be between 0 and 1 (e.g., 0.3 for 30%)"
    ensures FormErrors(form) == map[] <==> FormValid(form)
  {
    var e := FormErrors(form);
    if !FormValid(form) {
      assert "investorName" in e || "capital" in e || "profitShare" in e;
    }
  }

  /** The error map is empty exactly when the form is valid. */
  lemma NoErrorsWhenValid(form: InvestmentFormData)
    ensures |FormErrors(form)| == 0 <==> FormValid(form)
  {
    FormErrorsContents(form);
    if |FormErrors(form)| == 0 {
      assert FormErrors(form) == map[];
    }
  }

  /** A numeric profit share that passes lies in (0, 1]. */
  lemma ShareBounds(text: string, share: real)
    requires !ShareRefused(text) && ParseFloat(Str(text)) == Num(share)
    ensures 0.0 < share <= 1.0
  {
  }

  /** The data sent by `createInvestment` (lines 79-84). */
  datatype Payload = Payload(investorName: string, startDate: string, capital: Value, profitShare: Value)

  function PayloadOf(form: InvestmentFormData): Payload {
    Payload(Trim(form.investorName), form.startDate, ParseFloat(Str(form.capital)), ParseFloat(Str(form.profitShare)))
  }

  /** The JSON body the server receives. */
  function BodyOf(p: Payload): Value {
    Obj(map["investorName" := Str(p.investorName), "startDate" := Str(p.startDate),
            "capital" := JsonNumber(p.capital), "profitShare" := JsonNumber(p.profitShare)])
  }

  lemma BodyFields(p: Payload)
    ensures Field(BodyOf(p), "investorName") == Str(p.investorName)
    ensures Field(BodyOf(p), "startDate") == Str(p.startDate)
    ensures Field(BodyOf(p), "capital") == JsonNumber(p.capital)
    ensures Field(BodyOf(p), "profitShare") == JsonNumber(p.profitShare)
  {
    var m := BodyOf(p).props;
    assert "investorName" in m && "startDate" in m && "capital" in m && "profitShare" in m;
  }

  /** A valid form with a start date and numeric amounts is created with the trimmed name and the two numbers. */
  lemma ValidFormStored(form: InvestmentFormData, capital: real, share: real)
    requires FormValid(form) && form.startDate != ""
    requires ParseFloat(Str(form.capital)) == Num(capital) && ParseFloat(Str(form.profitShare)) == Num(share)
    ensures InvestmentsRoute.Post(true, Some(BodyOf(PayloadOf(form))), true) ==
            Http.Success(201, InvestmentsRoute.InvestmentDraft(Str(Trim(form.investorName)), Str(form.startDate), Num(capital), Num(share)))
  {
    var p := PayloadOf(form);
    BodyFields(p);
    assert capital > 0.0 && share > 0.0;
    assert InvestmentsRoute.AllFields(BodyOf(p));
  }

  /**
   * A capital that is not a number passes the page's check (NaN <= 0 is
   * false) but reaches the server as null, which answers 400.
   */
  lemma NonNumericCapitalRefused(form: InvestmentFormData)
    requires Trim(form.investorName) != "" && !ShareRefused(form.profitShare) && form.capital == "abc"
    ensures FormValid(form)
    ensures InvestmentsRoute.Post(true, Some(BodyOf(PayloadOf(form))), true) == Http.BadRequest("All fields are required")
  {
    ParseFloatLetter("abc");
    assert ParseFloat(Str("abc")) == NaN;
    var p := PayloadOf(form);
    assert p.capital == NaN;
    BodyFields(p);
    assert !InvestmentsRoute.AllFields(BodyOf(p));
  }

  /** The four inputs of the form. */
  datatype Input = InvestorNameField | StartDateField | CapitalField | ProfitShareField

  function FieldName(f: Input): string {
    match f
    case InvestorNameField => "investorName"
    case StartDateField => "startDate"
    case CapitalField => "capital"
    case ProfitShareField => "profitShare"
  }

  // ---------------------------------------------------------------------------
  // Page state

  class PageState {
    var form: InvestmentFormData
    var errors: Errors
    var showForm: bool
    var isSubmitting: bool

    /** Lines 17-27. */
    constructor(today: string)
      ensures form == InvestmentFormData("", today, "", "") && errors == map[] && !showForm && !isSubmitting
    {
      form := InvestmentFormData("", today, "", "");
      errors := map[];
      showForm := false;
      isSubmitting := false;
    }

    /** Lines 46-51: the field takes the typed text; a message shown for it is blanked, its key kept. */
    method HandleInputChange(field: Input, value: string)
      modifies this
      ensures form == old(form).(investorName := if field == InvestorNameField then value else old(form).investorName,
                                 startDate := if field == StartDateField then value else old(form).startDate,
                                 capital := if field == CapitalField then value else old(form).capital,
                                 profitShare := if field == ProfitShareField then value else old(form).profitShare)
      ensures errors == if FieldName(field) in old(errors) && old(errors)[FieldName(field)] != "" then old(errors)[FieldName(field) := ""] else old(errors)
      ensures showForm == old(showForm) && isSubmitting == old(isSubmitting)
    {
      match field {
        case InvestorNameField => form := form.(investorName := value);
        case StartDateField => form := form.(startDate := value);
        case CapitalField => form := form.(capital := value);
        case ProfitShareField => form := form.(profitShare := value);
      }
      var key := FieldName(field);
      if key in errors && errors[key] != "" {
        errors := errors[key := ""];
      }
    }

    /** Lines 53-70: the messages replace the shown ones; the form is valid when there are none. */
    method ValidateForm() returns (valid: bool)
      modifies this
      ensures errors == FormErrors(form)
      ensures valid <==> FormValid(form)
      ensures form == old(form) && showForm == old(showForm) && isSubmitting == old(isSubmitting)
    {
      var f := form;
      var newErrors: Errors := map[];
      if Trim(f.investorName) == "" {
        newErrors := newErrors["investorName" := "Investor name is required"];
      }
      ghost var e1 := newErrors;
      assert e1 == Flag(map[], Trim(f.investorName) == "", "investorName", "Investor name is required");
      if AmountRefused(f.capital) {
        newErrors := newErrors["capital" := "Capital must be greater than 0"];
      }
      ghost var e2 := newErrors;
      assert e2 == Flag(e1, AmountRefused(f.capital), "capital", "Capital must be greater than 0");
      if ShareRefused(f.profitShare) {
        newErrors := newErrors["profitShare" := "Profit share must be between 0 and 1 (e.g., 0.3 for 30%)"];
      }
      assert newErrors == Flag(e2, ShareRefused(f.profitShare), "profitShare", "Profit share must be between 0 and 1 (e.g., 0.3 for 30%)");
      errors := newErrors;
      NoErrorsWhenValid(f);
      valid := |newErrors| == 0;
    }

    /**
     * Lines 72-98: nothing is sent for a form with errors; otherwise the
     * investment is sent, and then the form closes and resets, or on failure
     * a general error is shown; the submitting flag ends cleared.
     */
    method HandleSubmit(today: string, requestSucceeds: bool) returns (sent: Option<Payload>)
      modifies this
      ensures !FormValid(old(form)) ==>
                sent == None && errors == FormErrors(old(form)) && form == old(form) &&
                showForm == old(showForm) && isSubmitting == old(isSubmitting)
      ensures FormValid(old(form)) ==> sent == Some(PayloadOf(old(form))) && !isSubmitting
      ensures FormValid(old(form)) && requestSucceeds ==>
                !showForm && form == InvestmentFormData("", today, "", "") && errors == map[]
      ensures FormValid(old(form)) && !requestSucceeds ==>
                form == old(form) && showForm == old(showForm) && errors == map["general" := "Failed to create investment"]
    {
      var valid := ValidateForm();
      if !valid {
        return None;
      }
      isSubmitting := true;
      sent := Some(PayloadOf(form));
      if requestSucceeds {
        showForm := false;
        form := InvestmentFormData("", today, "", "");
      } else {
        errors := map["general" := "Failed to create investment"];
      }
      isSubmitting := false;
    }
  }
}
