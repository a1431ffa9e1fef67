/**
 * The inventory item modal: the form it fills from the item being edited
 * when it opens, the field setter, the validator, the payload it submits
 * and what the modal shows.
 */
module InventoryModal {
  import opened Js
  import opened Client
  import InventoryRoute
  import Http

  /** The four text inputs. */
  datatype ItemFormData = ItemFormData(name: string, unitCost: string, currentStock: string, reorderThreshold: string)

  datatype Mode = CreateMode | EditMode

  /** Lines 24-29: the fields before the modal is first opened. */
  const BlankForm := ItemFormData("", "", "", "10")

  /** `x || fallback` for a text. */
  function OrText(x: string, fallback: string): string {
    if x == "" then fallback else x
  }

  /**
   * Lines 32-42: the fields the modal opens with. Each number of the item
   * is written with `toText` (Number.prototype.toString); without an item
   * every field is empty except the threshold, which is "10".
   */
  function OpenedForm(initial: Option<InventoryItem>, toText: real -> string): (r: ItemFormData)
    ensures initial.None? ==> r == BlankForm
    ensures initial.Some? ==> r.name == initial.value.name
    ensures initial.Some? ==> r.unitCost == OrText(toText(initial.value.unitCost), "")
    ensures initial.Some? ==> r.currentStock == OrText(toText(initial.value.currentStock as real), "")
    ensures initial.Some? ==> r.reorderThreshold == OrText(toText(initial.value.reorderThreshold as real), "10")
  {
    match initial
    case None => ItemFormData(OrText("", ""), "", "", "10")
    case Some(item) =>
      ItemFormData(OrText(item.name, ""), OrText(toText(item.unitCost), ""), OrText(toText(item.currentStock as real), ""),
                   OrText(toText(item.reorderThreshold as real), "10"))
  }

  /** `!text || parseInt(text) < 0`: empty, or an integer below 0 (text that is not a number passes). */
  predicate CountNegative(text: string) {
    text == "" || Below(ParseInt(Str(text)), 0.0)
  }

  /** Lines 51-72: one message per failed field. */
  function FormErrors(form: ItemFormData): Errors {
    var e1 := Flag(map[], Trim(form.name) == "", "name", "Item name is required");
    var e2 := Flag(e1, AmountRefused(form.unitCost), "unitCost", "Unit cost must be greater than 0");
    var e3 := Flag(e2, CountNegative(form.currentStock), "currentStock", "Current stock must be 0 or greater");
    Flag(e3, CountNegative(form.reorderThreshold), "reorderThreshold", "Reorder threshold must be 0 or greater")
  }

  predicate FormValid(form: ItemFormData) {
    Trim(form.name) != "" && !AmountRefused(form.unitCost) && !CountNegative(form.currentStock) && !CountNegative(form.reorderThreshold)
  }

  /** A message is recorded exactly for each failed field, and none for a valid form. */
  lemma FormErrorsContents(form: ItemFormData)
    ensures "name" in FormErrors(form) <==> Trim(form.name) == ""
    ensures "unitCost" in FormErrors(form) <==> AmountRefused(form.unitCost)
    ensures "currentStock" in FormErrors(form) <==> CountNegative(form.currentStock)
    ensures "reorderThreshold" in FormErrors(form) <==> CountNegative(form.reorderThreshold)
    ensures FormErrors(form).Keys <= {"name", "unitCost", "currentStock", "reorderThreshold"}
    ensures "name" in FormErrors(form) ==> FormErrors(form)["name"] == "Item name is required"
    ensures "unitCost" in FormErrors(form) ==> FormErrors(form)["unitCost"] == "Unit cost must be greater than 0"
    ensures "currentStock" in FormErrors(form) ==> FormErrors(form)["currentStock"] == "Current stock must be 0 or greater"
    ensures "reorderThreshold" in FormErrors(form) ==> FormErrors(form)["reorderThreshold"] == "Reorder threshold must be 0 or greater"
    ensures FormErrors(form) == map[] <==> FormValid(form)
  {
    var e := FormErrors(form);
    if !FormValid(form) {
      assert "name" in e || "unitCost" in e || "currentStock" in e || "reorderThreshold" in e;
    }
  }

  /** The error map is empty exactly when the form is valid. */
  lemma NoErrorsWhenValid(form: ItemFormData)
    ensures |FormErrors(form)| == 0 <==> FormValid(form)
  {
    FormErrorsContents(form);
    if |FormErrors(form)| == 0 {
      assert FormErrors(form) == map[];
    }
  }

  /** Lines 80-85: the data handed to `onSubmit`. */
  datatype ItemPayload = ItemPayload(name: string, unitCost: Value, currentStock: Value, reorderThreshold: Value)

  function PayloadOf(form: ItemFormData): ItemPayload {
    ItemPayload(Trim(form.name), ParseFloat(Str(form.unitCost)), ParseInt(Str(form.currentStock)), ParseInt(Str(form.reorderThreshold)))
  }

  /** The request body the inventory endpoint receives. */
  function BodyOf(p: ItemPayload): Value {
    Obj(map["name" := Str(p.name), "unitCost" := JsonNumber(p.unitCost), "currentStock" := JsonNumber(p.currentStock),
            "reorderThreshold" := JsonNumber(p.reorderThreshold)])
  }

  lemma BodyFields(p: ItemPayload)
    ensures Field(BodyOf(p), "name") == Str(p.name)
    ensures Field(BodyOf(p), "unitCost") == JsonNumber(p.unitCost)
    ensures Field(BodyOf(p), "currentStock") == JsonNumber(p.currentStock)
    ensures Field(BodyOf(p), "reorderThreshold") == JsonNumber(p.reorderThreshold)
  {
    var m := BodyOf(p).props;
    assert "name" in m && "unitCost" in m && "currentStock" in m && "reorderThreshold" in m;
  }

  /**
   * A valid form whose numbers parse, with a non-zero threshold, is stored
   * by the endpoint with exactly the submitted values.
   */
  lemma ValidFormStored(form: ItemFormData, cost: real, stock: int, threshold: int)
    requires FormValid(form)
    requires ParseFloat(Str(form.unitCost)) == Num(cost)
    requires ParseInt(Str(form.currentStock)) == Num(stock as real)
    requires ParseInt(Str(form.reorderThreshold)) == Num(threshold as real) && threshold != 0
    ensures InventoryRoute.Post(true, Some(BodyOf(PayloadOf(form))), true) ==
            Http.Success(201, InventoryRoute.ItemDraft(Str(Trim(form.name)), Num(cost), Num(stock as real), Num(threshold as real)))
  {
    var p := PayloadOf(form);
    BodyFields(p);
    var body := BodyOf(p);
    assert Field(body, "name") == Str(Trim(form.name));
    assert ParseInt(Field(body, "currentStock")) == Num(stock as real);
    assert ParseInt(Field(body, "reorderThreshold")) == Num(threshold as real);
  }

  /** A threshold of "0" passes the modal, and the endpoint stores 10 instead. */
  lemma ZeroThresholdStoredAsTen(form: ItemFormData)
    requires form.reorderThreshold == "0"
    ensures !CountNegative(form.reorderThreshold)
    ensures InventoryRoute.DraftOf(BodyOf(PayloadOf(form))).reorderThreshold == Num(10.0)
  {
    assert !IsWhitespace('0');
    assert TrimStart("0") == "0";
    assert SignOf("0") == (1, 0);
    assert "0"[0..] == "0";
    assert LeadingDigits("0", 10) == 1;
    assert "0"[..1] == "0";
    assert ParseIntText("0") == Some(0);
    var p := PayloadOf(form);
    BodyFields(p);
    assert p.reorderThreshold == Num(0.0);
  }

  /** The four inputs. */
  datatype Input = NameField | UnitCostField | CurrentStockField | ReorderThresholdField

  function FieldName(f: Input): string {
    match f
    case NameField => "name"
    case UnitCostField => "unitCost"
    case CurrentStockField => "currentStock"
    case ReorderThresholdField => "reorderThreshold"
  }

  /** What the open modal shows. */
  datatype ModalView = ModalView(title: string, submitLabel: string, submitDisabled: bool, generalError: Option<string>)

  /** Lines 92-128: nothing when closed; otherwise the title and submit label follow the mode and the loading flag. */
  function Render(isOpen: bool, mode: Mode, isLoading: bool, errors: Errors): (r: Option<ModalView>)
    ensures r.None? <==> !isOpen
    ensures r.Some? ==> r.value.title == (if mode == CreateMode then "Add New Item" else "Edit Item")
    ensures r.Some? ==> r.value.submitDisabled == isLoading
    ensures r.Some? && isLoading ==> r.value.submitLabel == "Saving..."
    ensures r.Some? && !isLoading ==> r.value.submitLabel == (if mode == CreateMode then "Add Item" else "Update Item")
    ensures r.Some? ==> (r.value.generalError.Some? <==> "general" in errors && errors["general"] != "")
    ensures r.Some? && r.value.generalError.Some? ==> r.value.generalError.value == errors["general"]
  {
    if !isOpen then None
    else
      Some(ModalView(
        if mode == CreateMode then "Add New Item" else "Edit Item",
        if isLoading then "Saving..." else if mode == CreateMode then "Add Item" else "Update Item",
        isLoading,
        if "general" in errors && errors["general"] != "" then Some(errors["general"]) else None))
  }

  /** The modal's own state: the four texts and the messages shown. */
  class ModalState {
    var form: ItemFormData
    var errors: Errors

    constructor()
      ensures form == BlankForm && errors == map[]
    {
      form := BlankForm;
      errors := map[];
    }

    /** Lines 32-42: opening refills the fields from the item and clears every message. */
    method Open(initial: Option<InventoryItem>, toText: real -> string)
      modifies this
      ensures form == OpenedForm(initial, toText) && errors == map[]
    {
      match initial {
        case None => form := BlankForm;
        case Some(item) =>
          form := ItemFormData(OrText(item.name, ""), OrText(toText(item.unitCost), ""), OrText(toText(item.currentStock as real), ""),
                               OrText(toText(item.reorderThreshold as real), "10"));
      }
      errors := map[];
    }

    /** Lines 44-49: the field takes the typed text; a message shown for it is blanked, the other messages kept. */
    method HandleInputChange(field: Input, value: string)
      modifies this
      ensures form == old(form).(name := if field == NameField then value else old(form).name,
                                 unitCost := if field == UnitCostField then value else old(form).unitCost,
                                 currentStock := if field == CurrentStockField then value else old(form).currentStock,
                                 reorderThreshold := if field == ReorderThresholdField then value else old(form).reorderThreshold)
      ensures errors == if FieldName(field) in old(errors) && old(errors)[FieldName(field)] != "" then old(errors)[FieldName(field) := ""] else old(errors)
    {
      match field {
        case NameField => form := form.(name := value);
        case UnitCostField => form := form.(unitCost := value);
        case CurrentStockField => form := form.(currentStock := value);
        case ReorderThresholdField => form := form.(reorderThreshold := value);
      }
      var key := FieldName(field);
      if key in errors && errors[key] != "" {
        errors := errors[key := ""];
      }
    }

    /** Lines 51-72: the messages replace the shown ones; the form is valid when there are none. */
    method ValidateForm() returns (valid: bool)
      modifies this
      ensures errors == FormErrors(form)
      ensures valid <==> FormValid(form)
      ensures form == old(form)
    {
      var f := form;
      var newErrors: Errors := map[];
      if Trim(f.name) == "" {
        newErrors := newErrors["name" := "Item name is required"];
      }
      ghost var e1 := newErrors;
      assert e1 == Flag(map[], Trim(f.name) == "", "name", "Item name is required");
      if AmountRefused(f.unitCost) {
        newErrors := newErrors["unitCost" := "Unit cost must be greater than 0"];
      }
      ghost var e2 := newErrors;
      assert e2 == Flag(e1, AmountRefused(f.unitCost), "unitCost", "Unit cost must be greater than 0");
      if CountNegative(f.currentStock) {
        newErrors := newErrors["currentStock" := "Current stock must be 0 or greater"];
      }
      ghost var e3 := newErrors;
      assert e3 == Flag(e2, CountNegative(f.currentStock), "currentStock", "Current stock must be 0 or greater");
      if CountNegative(f.reorderThreshold) {
        newErrors := newErrors["reorderThreshold" := "Reorder threshold must be 0 or greater"];
      }
      assert newErrors == Flag(e3, CountNegative(f.reorderThreshold), "reorderThreshold", "Reorder threshold must be 0 or greater");
      errors := newErrors;
      NoErrorsWhenValid(f);
      valid := |newErrors| == 0;
    }

    /**
     * Lines 74-90: nothing is submitted for a form with errors; otherwise the
     * payload is handed to `onSubmit`, and the modal asks to close only when
     * that resolves; a rejection shows a general error instead.
     */
    method HandleSubmit(submitSucceeds: bool) returns (sent: Option<ItemPayload>, close: bool)
      modifies this
      ensures form == old(form)
      ensures !FormValid(old(form)) ==> sent == None && !close && errors == FormErrors(old(form))
      ensures FormValid(old(form)) ==> sent == Some(PayloadOf(old(form)))
      ensures FormValid(old(form)) && submitSucceeds ==> close && errors == map[]
      ensures FormValid(old(form)) && !submitSucceeds ==> !close && errors == map["general" := "Failed to save item. Please try again."]
    {
      var valid := ValidateForm();
      if !valid {
        return None, false;
      }
      FormErrorsContents(form);
      sent := Some(PayloadOf(form));
      if submitSucceeds {
        close := true;
      } else {
        close := false;
        errors := map["general" := "Failed to save item. Please try again."];
      }
    }
  }
}
