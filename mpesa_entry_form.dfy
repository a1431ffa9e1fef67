/**
 * The M-Pesa entry form: the start-of-day form asks for the starting float,
 * the end-of-day form for deposits, withdrawals, fees and the ending float.
 * Number inputs are stored as `parseFloat(text) || 0`.
 */
module MpesaEntryForm {
  import opened Js
  import opened Client
  import Records
  import MpesaRoute
  import Http

  /** The `type` the form is rendered with. */
  datatype Kind = StartOfDayKind | EndOfDayKind

  function KindText(k: Kind): string {
    match k
    case StartOfDayKind => Records.StartOfDay
    case EndOfDayKind => Records.EndOfDay
  }

  /** The `Partial<MpesaEntry>` the form keeps; an unset field is `None`. */
  datatype EntryFormData = EntryFormData(
    date: Option<string>,
    kind: string,
    startingFloat: Option<real>,
    deposits: Option<real>,
    withdrawals: Option<real>,
    fees: Option<real>,
    endingFloat: Option<real>)

  /** Lines 34-38: today's date and the form's type, every amount unset. */
  function InitialData(kind: Kind, today: string): EntryFormData {
    EntryFormData(Some(today), KindText(kind), None, None, None, None, None)
  }

  /** Lines 124-165: `parseFloat(text) || 0`. */
  function Coerce(text: string): (r: real)
    ensures ParseFloatText(text).None? ==> r == 0.0
    ensures ParseFloatText(text).Some? ==> r == ParseFloatText(text).value
  {
    var p := ParseFloat(Str(text));
    if Truthy(p) then p.n else 0.0
  }

  /** Blank and non-numeric text are stored as 0. */
  lemma CoerceFallback(text: string)
    requires (forall i :: 0 <= i < |text| ==> IsWhitespace(text[i])) || (text != [] && 'a' <= text[0] <= 'z')
    ensures Coerce(text) == 0.0
  {
    if forall i :: 0 <= i < |text| ==> IsWhitespace(text[i]) {
      ParseBlank(text);
    } else {
      ParseFloatLetter(text);
    }
  }

  /** `!x || x <= 0`: unset, 0, or below 0. */
  predicate NotPositive(x: Option<real>) {
    !TruthyNumber(x) || x.value <= 0.0
  }

  /** `!x || x < 0`: unset, 0 (falsy), or below 0. */
  predicate FalsyOrNegative(x: Option<real>) {
    !TruthyNumber(x) || x.value < 0.0
  }

  /** Lines 49-77: the date is always checked, then the amounts of the form's own type. */
  function FormErrors(kind: Kind, d: EntryFormData): Errors {
    var e1 := Flag(map[], !TruthyText(d.date), "date", "Date is required");
    if kind == StartOfDayKind then
      Flag(e1, NotPositive(d.startingFloat), "startingFloat", "Starting float must be greater than 0")
    else
      var e2 := Flag(e1, FalsyOrNegative(d.deposits), "deposits", "Deposits must be 0 or greater");
      var e3 := Flag(e2, FalsyOrNegative(d.withdrawals), "withdrawals", "Withdrawals must be 0 or greater");
      var e4 := Flag(e3, FalsyOrNegative(d.fees), "fees", "Fees must be 0 or greater");
      Flag(e4, FalsyOrNegative(d.endingFloat), "endingFloat", "Ending float must be 0 or greater")
  }

  predicate FormValid(kind: Kind, d: EntryFormData) {
    TruthyText(d.date) &&
    if kind == StartOfDayKind then !NotPositive(d.startingFloat)
    else !FalsyOrNegative(d.deposits) && !FalsyOrNegative(d.withdrawals) && !FalsyOrNegative(d.fees) && !FalsyOrNegative(d.endingFloat)
  }

  /**
   * A message is recorded exactly for each failed check, the start-of-day
   * form never checks the end-of-day amounts and the other way round, and
   * there is none for a valid form.
   */
  lemma FormErrorsContents(kind: Kind, d: EntryFormData)
    ensures "date" in FormErrors(kind, d) <==> !TruthyText(d.date)
    ensures "date" in FormErrors(kind, d) ==> FormErrors(kind, d)["date"] == "Date is required"
    ensures kind == StartOfDayKind ==> FormErrors(kind, d).Keys <= {"date", "startingFloat"}
    ensures kind == StartOfDayKind ==> ("startingFloat" in FormErrors(kind, d) <==> NotPositive(d.startingFloat))
    ensures kind == StartOfDayKind && "startingFloat" in FormErrors(kind, d) ==>
              FormErrors(kind, d)["startingFloat"] == "Starting float must be greater than 0"
    ensures kind == EndOfDayKind ==> FormErrors(kind, d).Keys <= {"date", "deposits", "withdrawals", "fees", "endingFloat"}
    ensures kind == EndOfDayKind ==> ("deposits" in FormErrors(kind, d) <==> FalsyOrNegative(d.deposits))
    ensures kind == EndOfDayKind ==> ("withdrawals" in FormErrors(kind, d) <==> FalsyOrNegative(d.withdrawals))
    ensures kind == EndOfDayKind ==> ("fees" in FormErrors(kind, d) <==> FalsyOrNegative(d.fees))
    ensures kind == EndOfDayKind ==> ("endingFloat" in FormErrors(kind, d) <==> FalsyOrNegative(d.endingFloat))
    ensures kind == EndOfDayKind && "deposits" in FormErrors(kind, d) ==> FormErrors(kind, d)["deposits"] == "Deposits must be 0 or greater"
    ensures kind == EndOfDayKind && "withdrawals" in FormErrors(kind, d) ==>
              FormErrors(kind, d)["withdrawals"] == "Withdrawals must be 0 or greater"
    ensures kind == EndOfDayKind && "fees" in FormErrors(kind, d) ==> FormErrors(kind, d)["fees"] == "Fees must be 0 or greater"
    ensures kind == EndOfDayKind && "endingFloat" in FormErrors(kind, d) ==>
              FormErrors(kind, d)["endingFloat"] == "Ending float must be 0 or greater"
    ensures FormErrors(kind, d) == map[] <==> FormValid(kind, d)
  {
    var e := FormErrors(kind, d);
    if !FormValid(kind, d) {
      assert "date" in e || "startingFloat" in e || "deposits" in e || "withdrawals" in e || "fees" in e || "endingFloat" in e;
    }
  }

  /** The error map is empty exactly when the form is valid. */
  lemma NoErrorsWhenValid(kind: Kind, d: EntryFormData)
    ensures |FormErrors(kind, d)| == 0 <==> FormValid(kind, d)
  {
    FormErrorsContents(kind, d);
    if |FormErrors(kind, d)| == 0 {
      assert FormErrors(kind, d) == map[];
    }
  }

  /** Fees of exactly 0, typed or left blank, are refused, although the message asks for "0 or greater". */
  lemma ZeroFeesRefused(d: EntryFormData, text: string)
    requires d.fees == Some(Coerce(text))
    requires (forall i :: 0 <= i < |text| ==> IsWhitespace(text[i])) || text == "0"
    ensures "fees" in FormErrors(EndOfDayKind, d) && FormErrors(EndOfDayKind, d)["fees"] == "Fees must be 0 or greater"
  {
    if text == "0" {
      ParseFloatDigits("0");
    } else {
      CoerceFallback(text);
    }
    FormErrorsContents(EndOfDayKind, d);
  }

  /** The `JSON.stringify` of the data: unset fields are left out. */
  function BodyOf(d: EntryFormData): Value {
    var m0: map<string, Value> := map["type" := Str(d.kind)];
    var m1 := if d.date.Some? then m0["date" := Str(d.date.value)] else m0;
    var m2 := if d.startingFloat.Some? then m1["startingFloat" := Num(d.startingFloat.value)] else m1;
    var m3 := if d.deposits.Some? then m2["deposits" := Num(d.deposits.value)] else m2;
    var m4 := if d.withdrawals.Some? then m3["withdrawals" := Num(d.withdrawals.value)] else m3;
    var m5 := if d.fees.Some? then m4["fees" := Num(d.fees.value)] else m4;
    Obj(if d.endingFloat.Some? then m5["endingFloat" := Num(d.endingFloat.value)] else m5)
  }

  function NumberField(x: Option<real>): Value {
    if x.Some? then Num(x.value) else Undefined
  }

  lemma BodyFields(d: EntryFormData)
    ensures Field(BodyOf(d), "type") == Str(d.kind)
    ensures Field(BodyOf(d), "date") == if d.date.Some? then Str(d.date.value) else Undefined
    ensures Field(BodyOf(d), "startingFloat") == NumberField(d.startingFloat)
    ensures Field(BodyOf(d), "deposits") == NumberField(d.deposits)
    ensures Field(BodyOf(d), "withdrawals") == NumberField(d.withdrawals)
    ensures Field(BodyOf(d), "fees") == NumberField(d.fees)
    ensures Field(BodyOf(d), "endingFloat") == NumberField(d.endingFloat)
  {
    LeadingFields(d);
    FlowFields(d);
    ClosingFields(d);
  }

  lemma LeadingFields(d: EntryFormData)
    ensures Field(BodyOf(d), "type") == Str(d.kind)
    ensures Field(BodyOf(d), "date") == if d.date.Some? then Str(d.date.value) else Undefined
    ensures Field(BodyOf(d), "startingFloat") == NumberField(d.startingFloat)
  {
  }

  lemma FlowFields(d: EntryFormData)
    ensures Field(BodyOf(d), "deposits") == NumberField(d.deposits)
    ensures Field(BodyOf(d), "withdrawals") == NumberField(d.withdrawals)
  {
  }

  lemma ClosingFields(d: EntryFormData)
    ensures Field(BodyOf(d), "fees") == NumberField(d.fees)
    ensures Field(BodyOf(d), "endingFloat") == NumberField(d.endingFloat)
  {
  }

  /**
   * A valid end-of-day form is stored by the endpoint with its amounts and
   * a net change of deposits − withdrawals − fees.
   */
  lemma EndOfDayStored(d: EntryFormData)
    requires d.kind == Records.EndOfDay && FormValid(EndOfDayKind, d)
    ensures MpesaRoute.Post(true, Some(BodyOf(d)), true).Success?
    ensures MpesaRoute.Post(true, Some(BodyOf(d)), true).body.netChange ==
            Num(d.deposits.value - d.withdrawals.value - d.fees.value)
    ensures MpesaRoute.Post(true, Some(BodyOf(d)), true).body.fees == Num(d.fees.value)
  {
    BodyFields(d);
  }

  /** A valid start-of-day form is stored with its starting float and no net change. */
  lemma StartOfDayStored(d: EntryFormData)
    requires d.kind == Records.StartOfDay && d.deposits.None? && FormValid(StartOfDayKind, d)
    ensures MpesaRoute.Post(true, Some(BodyOf(d)), true).Success?
    ensures MpesaRoute.Post(true, Some(BodyOf(d)), true).body.startingFloat == Num(d.startingFloat.value)
    ensures MpesaRoute.Post(true, Some(BodyOf(d)), true).body.netChange == Null
  {
    BodyFields(d);
  }

  /** The inputs of the form. */
  datatype Input = DateField | StartingFloatField | DepositsField | WithdrawalsField | FeesField | EndingFloatField

  function FieldName(f: Input): string {
    match f
    case DateField => "date"
    case StartingFloatField => "startingFloat"
    case DepositsField => "deposits"
    case WithdrawalsField => "withdrawals"
    case FeesField => "fees"
    case EndingFloatField => "endingFloat"
  }

  class EntryForm {
    const kind: Kind
    var data: EntryFormData
    var errors: Errors

    constructor(kind: Kind, today: string)
      ensures this.kind == kind && data == InitialData(kind, today) && errors == map[]
    {
      this.kind := kind;
      data := EntryFormData(Some(today), KindText(kind), None, None, None, None, None);
      errors := map[];
    }

    /**
     * Lines 42-47 with the inputs of lines 113-165: the date takes the text,
     * an amount `Coerce(text)`; a message shown for the field is blanked, the
     * other messages kept.
     */
    method HandleInputChange(field: Input, text: string)
      modifies this
      ensures data == old(data).(date := if field == DateField then Some(text) else old(data).date,
                                 startingFloat := if field == StartingFloatField then Some(Coerce(text)) else old(data).startingFloat,
                                 deposits := if field == DepositsField then Some(Coerce(text)) else old(data).deposits,
                                 withdrawals := if field == WithdrawalsField then Some(Coerce(text)) else old(data).withdrawals,
                                 fees := if field == FeesField then Some(Coerce(text)) else old(data).fees,
                                 endingFloat := if field == EndingFloatField then Some(Coerce(text)) else old(data).endingFloat)
      ensures errors == if FieldName(field) in old(errors) && old(errors)[FieldName(field)] != "" then old(errors)[FieldName(field) := ""] else old(errors)
    {
      match field {
        case DateField => data := data.(date := Some(text));
        case StartingFloatField => data := data.(startingFloat := Some(Coerce(text)));
        case DepositsField => data := data.(deposits := Some(Coerce(text)));
        case WithdrawalsField => data := data.(withdrawals := Some(Coerce(text)));
        case FeesField => data := data.(fees := Some(Coerce(text)));
        case EndingFloatField => data := data.(endingFloat := Some(Coerce(text)));
      }
      var key := FieldName(field);
      if key in errors && errors[key] != "" {
        errors := errors[key := ""];
      }
    }

    /** Lines 49-77: the messages replace the shown ones; the form is valid when there are none. */
    method ValidateForm() returns (valid: bool)
      modifies this
      ensures errors == FormErrors(kind, data)
      ensures valid <==> FormValid(kind, data)
      ensures data == old(data)
    {
      var d := data;
      var newErrors: Errors := map[];
      if !TruthyText(d.date) {
        newErrors := newErrors["date" := "Date is required"];
      }
      ghost var e1 := newErrors;
      assert e1 == Flag(map[], !TruthyText(d.date), "date", "Date is required");
      if kind == StartOfDayKind {
        if NotPositive(d.startingFloat) {
          newErrors := newErrors["startingFloat" := "Starting float must be greater than 0"];
        }
        assert newErrors == Flag(e1, NotPositive(d.startingFloat), "startingFloat", "Starting float must be greater than 0");
      } else {
        if FalsyOrNegative(d.deposits) {
          newErrors := newErrors["deposits" := "Deposits must be 0 or greater"];
        }
        ghost var e2 := newErrors;
        assert e2 == Flag(e1, FalsyOrNegative(d.deposits), "deposits", "Deposits must be 0 or greater");
        if FalsyOrNegative(d.withdrawals) {
          newErrors := newErrors["withdrawals" := "Withdrawals must be 0 or greater"];
        }
        ghost var e3 := newErrors;
        assert e3 == Flag(e2, FalsyOrNegative(d.withdrawals), "withdrawals", "Withdrawals must be 0 or greater");
        if FalsyOrNegative(d.fees) {
          newErrors := newErrors["fees" := "Fees must be 0 or greater"];
        }
        ghost var e4 := newErrors;
        assert e4 == Flag(e3, FalsyOrNegative(d.fees), "fees", "Fees must be 0 or greater");
        if FalsyOrNegative(d.endingFloat) {
          newErrors := newErrors["endingFloat" := "Ending float must be 0 or greater"];
        }
        assert newErrors == Flag(e4, FalsyOrNegative(d.endingFloat), "endingFloat", "Ending float must be 0 or greater");
      }
      errors := newErrors;
      NoErrorsWhenValid(kind, d);
      valid := |newErrors| == 0;
    }

    /** Lines 79-84: the data is handed to `onSubmit` exactly when it is valid. */
    method HandleSubmit() returns (sent: Option<EntryFormData>)
      modifies this
      ensures sent.Some? <==> FormValid(kind, old(data))
      ensures sent.Some? ==> sent.value == old(data)
      ensures data == old(data) && errors == FormErrors(kind, old(data))
    {
      var valid := ValidateForm();
      sent := if valid then Some(data) else None;
    }
  }
}
