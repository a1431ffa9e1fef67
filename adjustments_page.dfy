/**
 * The adjustments page: the value of the items picked by investors, the
 * expense total and the profit adjustment they add up to, and the two forms,
 * "item picked" and "expense", with their validation and the requests they send.
 */
module AdjustmentsPage {
  import opened Js
  import opened Folds
  import opened Client
  import ExpensesPage
  import ExpensesRoute
  import AdjustmentsRoute
  import Http
  import Records

  // ---------------------------------------------------------------------------
  // Metrics

  const ItemPicked := "item_picked"

  /** `adj.type === "item_picked"`, the filter of the metric and of the table. */
  predicate IsItemPicked(a: Adjustment) {
    a.kind == ItemPicked
  }

  /** Lines 49-52: quantity × unit cost when the quantity is truthy and an item is linked, else nothing. */
  function PickedValue(a: Adjustment): real {
    if TruthyNumber(a.quantity) && a.inventoryItem.Some? then a.quantity.value * a.inventoryItem.value.unitCost else 0.0
  }

  /** Lines 45-54. */
  function TotalItemsPickedValue(adjustments: seq<Adjustment>): real {
    Sum(Filter(adjustments, IsItemPicked), PickedValue)
  }

  /** Line 60: the items picked plus every loaded expense. */
  function MonthlyProfitAdjustment(adjustments: seq<Adjustment>, expenses: seq<Expense>): real {
    TotalItemsPickedValue(adjustments) + ExpensesPage.TotalExpenses(expenses)
  }

  /** The rows of the items-picked table (line 254). */
  function ItemPickedRows(adjustments: seq<Adjustment>): (r: seq<Adjustment>)
    ensures forall a :: a in r <==> a in adjustments && a.kind == ItemPicked
  {
    FilterMembers(adjustments, IsItemPicked);
    Filter(adjustments, IsItemPicked)
  }

  /** The value splits over two lists of adjustments. */
  lemma ItemsPickedAppend(a: seq<Adjustment>, b: seq<Adjustment>)
    ensures TotalItemsPickedValue(a + b) == TotalItemsPickedValue(a) + TotalItemsPickedValue(b)
  {
    FilterAppend(a, b, IsItemPicked);
    SumAppend(Filter(a, IsItemPicked), Filter(b, IsItemPicked), PickedValue);
  }

  /**
   * One more adjustment adds quantity × unit cost when it is an item picked
   * with a truthy quantity and a linked item, and nothing otherwise.
   */
  lemma ItemsPickedAddOne(adjustments: seq<Adjustment>, a: Adjustment)
    ensures a.kind == ItemPicked && TruthyNumber(a.quantity) && a.inventoryItem.Some? ==>
              TotalItemsPickedValue(adjustments + [a]) ==
              TotalItemsPickedValue(adjustments) + a.quantity.value * a.inventoryItem.value.unitCost
    ensures !(a.kind == ItemPicked && TruthyNumber(a.quantity) && a.inventoryItem.Some?) ==>
              TotalItemsPickedValue(adjustments + [a]) == TotalItemsPickedValue(adjustments)
  {
    ItemsPickedAppend(adjustments, [a]);
    assert [a][1..] == [];
    assert Filter([a], IsItemPicked) == if IsItemPicked(a) then [a] else [];
    assert Sum([a], PickedValue) == PickedValue(a);
  }

  /** The value does not depend on the order the adjustments are listed in. */
  lemma ItemsPickedOrder(a: seq<Adjustment>, b: seq<Adjustment>)
    requires multiset(a) == multiset(b)
    ensures TotalItemsPickedValue(a) == TotalItemsPickedValue(b)
  {
    FilterSumPermutation(a, b, IsItemPicked, PickedValue);
  }

  /** With non-negative quantities and unit costs the value is not negative. */
  lemma ItemsPickedNonNegative(adjustments: seq<Adjustment>)
    requires forall i :: 0 <= i < |adjustments| ==> adjustments[i].quantity.Some? ==> adjustments[i].quantity.value >= 0.0
    requires forall i :: 0 <= i < |adjustments| ==> adjustments[i].inventoryItem.Some? ==> adjustments[i].inventoryItem.value.unitCost >= 0.0
    ensures TotalItemsPickedValue(adjustments) >= 0.0
  {
    var picked := Filter(adjustments, IsItemPicked);
    FilterMembers(adjustments, IsItemPicked);
    forall i | 0 <= i < |picked| ensures PickedValue(picked[i]) >= 0.0 {
      assert picked[i] in adjustments;
      var k :| 0 <= k < |adjustments| && adjustments[k] == picked[i];
    }
    SumNonNegative(picked, PickedValue);
  }

  /** One more expense raises the profit adjustment by its amount. */
  lemma ProfitAdjustmentAddExpense(adjustments: seq<Adjustment>, expenses: seq<Expense>, e: Expense)
    ensures MonthlyProfitAdjustment(adjustments, expenses + [e]) == MonthlyProfitAdjustment(adjustments, expenses) + e.amount
  {
    SumAppend(expenses, [e], ExpensesPage.Amount);
    assert [e][1..] == [];
  }

  // ---------------------------------------------------------------------------
  // The item-picked form

  datatype ItemPickedData = ItemPickedData(inventoryItemId: string, quantity: string, date: string, description: string)

  /** Lines 65-69: a message for a missing item and for a refused quantity. */
  function ItemPickedErrors(d: ItemPickedData): Errors {
    var e1 := Flag(map[], d.inventoryItemId == "", "inventoryItemId", "Please select an item");
    Flag(e1, CountRefused(d.quantity), "quantity", "Quantity must be greater than 0")
  }

  predicate ItemPickedValid(d: ItemPickedData) {
    d.inventoryItemId != "" && !CountRefused(d.quantity)
  }

  /** A message is recorded exactly for each failed check, and none for a valid form. */
  lemma ItemPickedErrorsContents(d: ItemPickedData)
    ensures "inventoryItemId" in ItemPickedErrors(d) <==> d.inventoryItemId == ""
    ensures "quantity" in ItemPickedErrors(d) <==> CountRefused(d.quantity)
    ensures ItemPickedErrors(d).Keys <= {"inventoryItemId", "quantity"}
    ensures "inventoryItemId" in ItemPickedErrors(d) ==> ItemPickedErrors(d)["inventoryItemId"] == "Please select an item"
    ensures "quantity" in ItemPickedErrors(d) ==> ItemPickedErrors(d)["quantity"] == "Quantity must be greater than 0"
    ensures ItemPickedErrors(d) == map[] <==> ItemPickedValid(d)
  {
    var e := ItemPickedErrors(d);
    if !ItemPickedValid(d) {
      assert "inventoryItemId" in e || "quantity" in e;
    }
  }

  /** `items.find(item => item.id === id)`. */
  function FindItem(items: seq<InventoryItem>, id: string): (r: Option<InventoryItem>)
    ensures r.Some? ==> r.value in items && r.value.id == id
    ensures r.None? <==> forall i :: 0 <= i < |items| ==> items[i].id != id
  {
    if items == [] then None
    else if items[0].id == id then Some(items[0])
    else
      var r := FindItem(items[1..], id);
      assert r.None? ==> forall i :: 1 <= i < |items| ==> items[i] == items[1..][i - 1];
      r
  }

  /** The item found is the first one with the id. */
  lemma {:induction false} FindItemFirst(items: seq<InventoryItem>, id: string, k: int)
    requires 0 <= k < |items| && items[k].id == id
    requires forall j :: 0 <= j < k ==> items[j].id != id
    ensures FindItem(items, id) == Some(items[k])
  {
    if k > 0 {
      FindItemFirst(items[1..], id, k - 1);
    }
  }

  /** The data sent by `createAdjustment` (lines 79-86). */
  datatype ItemPickedPayload = ItemPickedPayload(
    kind: string, date: string, description: string, quantity: Value, amount: Value, inventoryItemId: string)

  /** Line 82: the typed description, or a default naming the quantity as typed. */
  function PickedDescription(d: ItemPickedData): (r: string)
    ensures d.description != "" ==> r == d.description
    ensures d.description == "" ==> r == d.quantity + " units picked by investor"
  {
    if d.description != "" then d.description else d.quantity + " units picked by investor"
  }

  /** Lines 76-77: parsed quantity × the selected item's unit cost, or 0 when no item has the id. */
  function CalculatedAmount(d: ItemPickedData, items: seq<InventoryItem>): (r: Value)
    ensures FindItem(items, d.inventoryItemId).None? ==> r == Num(0.0)
    ensures FindItem(items, d.inventoryItemId).Some? && ParseInt(Str(d.quantity)).Num? ==>
              r == Num(Cost(ParseInt(Str(d.quantity)).n, FindItem(items, d.inventoryItemId).value.unitCost))
    ensures FindItem(items, d.inventoryItemId).Some? && ParseInt(Str(d.quantity)).NaN? ==> r == NaN
  {
    match FindItem(items, d.inventoryItemId)
    case None => Num(0.0)
    case Some(item) => TimesCost(ParseInt(Str(d.quantity)), item.unitCost)
  }

  /** `quantity * unitCost` for a parsed quantity. */
  function TimesCost(quantity: Value, unitCost: real): (r: Value)
    requires quantity.Num? || quantity.NaN?
    ensures quantity.Num? ==> r == Num(Cost(quantity.n, unitCost))
    ensures quantity.NaN? ==> r == NaN
  {
    Mul(quantity, Num(unitCost))
  }

  /** The cost of a quantity at a unit cost. */
  function Cost(quantity: real, unitCost: real): real {
    quantity * unitCost
  }

  function ItemPickedPayloadOf(d: ItemPickedData, items: seq<InventoryItem>): ItemPickedPayload {
    ItemPickedPayload(ItemPicked, d.date, PickedDescription(d), ParseInt(Str(d.quantity)), CalculatedAmount(d, items), d.inventoryItemId)
  }

  /** The JSON body the server receives. */
  function ItemPickedBody(p: ItemPickedPayload): Value {
    Obj(map["type" := Str(p.kind), "date" := Str(p.date), "description" := Str(p.description),
            "quantity" := JsonNumber(p.quantity), "amount" := JsonNumber(p.amount), "inventoryItemId" := Str(p.inventoryItemId)])
  }

  lemma ItemPickedBodyFields(p: ItemPickedPayload)
    ensures Field(ItemPickedBody(p), "type") == Str(p.kind)
    ensures Field(ItemPickedBody(p), "date") == Str(p.date)
    ensures Field(ItemPickedBody(p), "description") == Str(p.description)
    ensures Field(ItemPickedBody(p), "quantity") == JsonNumber(p.quantity)
    ensures Field(ItemPickedBody(p), "amount") == JsonNumber(p.amount)
    ensures Field(ItemPickedBody(p), "inventoryItemId") == Str(p.inventoryItemId)
  {
    var m := ItemPickedBody(p).props;
    assert "type" in m && "date" in m && "description" in m && "quantity" in m && "amount" in m && "inventoryItemId" in m;
  }

  /**
   * The form does not check the date: a valid form with an empty date is
   * refused by the server with 400.
   */
  lemma UndatedItemPickedRefused(d: ItemPickedData, items: seq<InventoryItem>, stored: seq<Records.InventoryItem>)
    requires ItemPickedValid(d) && d.date == ""
    ensures AdjustmentsRoute.Post(true, Some(ItemPickedBody(ItemPickedPayloadOf(d, items))), stored, true) ==
            Http.BadRequest("Type and date are required")
  {
    ItemPickedBodyFields(ItemPickedPayloadOf(d, items));
  }

  /** A valid form with a date is stored as an item_picked adjustment for the chosen item, with its description. */
  lemma DatedItemPickedStored(d: ItemPickedData, items: seq<InventoryItem>, stored: seq<Records.InventoryItem>)
    requires ItemPickedValid(d) && d.date != ""
    ensures var r := AdjustmentsRoute.Post(true, Some(ItemPickedBody(ItemPickedPayloadOf(d, items))), stored, true);
            r.Success? && r.body.adjustment.kind == Str(ItemPicked) && r.body.adjustment.date == Str(d.date) &&
            r.body.adjustment.description == Str(PickedDescription(d)) && r.body.adjustment.inventoryItemId == Str(d.inventoryItemId) &&
            r.body.inventoryItem == AdjustmentsRoute.LinkedItem(stored, Some(d.inventoryItemId))
  {
    ItemPickedBodyFields(ItemPickedPayloadOf(d, items));
  }

  /**
   * A quantity that is not a number passes the page's check (NaN <= 0 is
   * false); it reaches the server as null, so the stored quantity and amount
   * are null and the adjustment adds nothing to the items-picked value.
   */
  lemma NonNumericQuantityStoresNull(d: ItemPickedData, items: seq<InventoryItem>, stored: seq<Records.InventoryItem>)
    requires d.inventoryItemId != "" && d.date != "" && d.quantity == "abc"
    ensures ItemPickedValid(d)
    ensures var r := AdjustmentsRoute.Post(true, Some(ItemPickedBody(ItemPickedPayloadOf(d, items))), stored, true);
            r.Success? && r.body.adjustment.quantity == Null && r.body.adjustment.amount == Null
  {
    ParseFloatLetter("abc");
    assert ParseInt(Str("abc")) == NaN;
    var p := ItemPickedPayloadOf(d, items);
    assert p.quantity == NaN && (p.amount == NaN || p.amount == Num(0.0));
    ItemPickedBodyFields(p);
    var body := ItemPickedBody(p);
    assert Field(body, "quantity") == Null;
    assert !Truthy(Field(body, "amount"));
    assert Truthy(Field(body, "type")) && Truthy(Field(body, "date"));
    assert AdjustmentsRoute.DraftOf(body).quantity == Null && AdjustmentsRoute.DraftOf(body).amount == Null;
  }

  // ---------------------------------------------------------------------------
  // The expense form

  datatype ExpenseData = ExpenseData(category: string, amount: string, date: string, description: string)

  /** Lines 105-109: a message for a blank category and for a refused amount. */
  function ExpenseErrors(d: ExpenseData): Errors {
    var e1 := Flag(map[], Trim(d.category) == "", "category", "Category is required");
    Flag(e1, AmountRefused(d.amount), "amount", "Amount must be greater than 0")
  }

  predicate ExpenseValid(d: ExpenseData) {
    Trim(d.category) != "" && !AmountRefused(d.amount)
  }

  /** A message is recorded exactly for each failed check, and none for a valid form. */
  lemma ExpenseErrorsContents(d: ExpenseData)
    ensures "category" in ExpenseErrors(d) <==> Trim(d.category) == ""
    ensures "amount" in ExpenseErrors(d) <==> AmountRefused(d.amount)
    ensures ExpenseErrors(d).Keys <= {"category", "amount"}
    ensures "category" in ExpenseErrors(d) ==> ExpenseErrors(d)["category"] == "Category is required"
    ensures "amount" in ExpenseErrors(d) ==> ExpenseErrors(d)["amount"] == "Amount must be greater than 0"
    ensures ExpenseErrors(d) == map[] <==> ExpenseValid(d)
  {
    var e := ExpenseErrors(d);
    if !ExpenseValid(d) {
      assert "category" in e || "amount" in e;
    }
  }

  /** The data sent by `createExpense` (lines 116-121): `description || undefined` drops an empty description. */
  datatype ExpensePayload = ExpensePayload(category: string, amount: Value, date: string, description: Option<string>)

  function ExpensePayloadOf(d: ExpenseData): ExpensePayload {
    ExpensePayload(Trim(d.category), ParseFloat(Str(d.amount)), d.date, if d.description != "" then Some(d.description) else None)
  }

  /** The JSON body: an undefined description is left out. */
  function ExpenseBody(p: ExpensePayload): Value {
    var m := map["category" := Str(p.category), "amount" := JsonNumber(p.amount), "date" := Str(p.date)];
    Obj(if p.description.Some? then m["description" := Str(p.description.value)] else m)
  }

  lemma ExpenseBodyFields(p: ExpensePayload)
    ensures Field(ExpenseBody(p), "category") == Str(p.category)
    ensures Field(ExpenseBody(p), "amount") == JsonNumber(p.amount)
    ensures Field(ExpenseBody(p), "date") == Str(p.date)
    ensures Field(ExpenseBody(p), "description") == if p.description.Some? then Str(p.description.value) else Undefined
  {
    var m := ExpenseBody(p).props;
    assert "category" in m && "amount" in m && "date" in m;
    assert "description" in m <==> p.description.Some?;
  }

  /**
   * A valid expense with a date and a numeric amount is stored with the
   * trimmed category and the amount; an empty description is stored as null.
   */
  lemma ExpenseStored(d: ExpenseData, amount: real)
    requires ExpenseValid(d) && d.date != "" && ParseFloat(Str(d.amount)) == Num(amount)
    ensures var r := ExpensesRoute.Post(true, Some(ExpenseBody(ExpensePayloadOf(d))), true);
            r.Success? && r.body.category == Str(Trim(d.category)) && r.body.amount == Num(amount) &&
            r.body.date == Str(d.date) && (d.description == "" ==> r.body.description == Null)
  {
    var p := ExpensePayloadOf(d);
    ExpenseBodyFields(p);
    var body := ExpenseBody(p);
    assert amount > 0.0;
    assert ParseFloat(Field(body, "amount")) == Num(amount);
    ExpensesRoute.Accepted(body, amount);
  }

  /** The page does not check the date either: an empty date is refused by the server. */
  lemma UndatedExpenseRefused(d: ExpenseData)
    requires ExpenseValid(d) && d.date == ""
    ensures ExpensesRoute.Post(true, Some(ExpenseBody(ExpensePayloadOf(d))), true) ==
            Http.BadRequest("Date, category, and amount are required")
  {
    ExpenseBodyFields(ExpensePayloadOf(d));
  }

  // ---------------------------------------------------------------------------
  // Page state

  /** The state the two submit handlers read and set. */
  class PageState {
    var itemPicked: ItemPickedData
    var expense: ExpenseData
    var errors: Errors
    var showItemPickedForm: bool
    var showExpenseForm: bool
    var isSubmitting: bool

    /** Lines 22-42: both forms closed and empty, dated today. */
    constructor(today: string)
      ensures itemPicked == ItemPickedData("", "", today, "") && expense == ExpenseData("", "", today, "")
      ensures errors == map[] && !showItemPickedForm && !showExpenseForm && !isSubmitting
    {
      itemPicked := ItemPickedData("", "", today, "");
      expense := ExpenseData("", "", today, "");
      errors := map[];
      showItemPickedForm := false;
      showExpenseForm := false;
      isSubmitting := false;
    }

    /**
     * Lines 62-100: the messages replace the shown ones and nothing is sent
     * when there are any; otherwise the adjustment is sent, and then the form
     * closes and resets, or on failure a general error is shown. The expense
     * form is not touched.
     */
    method HandleItemPickedSubmit(today: string, items: seq<InventoryItem>, requestSucceeds: bool)
      returns (sent: Option<ItemPickedPayload>)
      modifies this
      ensures expense == old(expense) && showExpenseForm == old(showExpenseForm)
      ensures !ItemPickedValid(old(itemPicked)) ==>
                sent == None && errors == ItemPickedErrors(old(itemPicked)) && itemPicked == old(itemPicked) &&
                showItemPickedForm == old(showItemPickedForm) && isSubmitting == old(isSubmitting)
      ensures ItemPickedValid(old(itemPicked)) ==> sent == Some(ItemPickedPayloadOf(old(itemPicked), items)) && !isSubmitting
      ensures ItemPickedValid(old(itemPicked)) && requestSucceeds ==>
                !showItemPickedForm && itemPicked == ItemPickedData("", "", today, "") && errors == map[]
      ensures ItemPickedValid(old(itemPicked)) && !requestSucceeds ==>
                itemPicked == old(itemPicked) && showItemPickedForm == old(showItemPickedForm) &&
                errors == map["general" := "Failed to record item picked"]
    {
      var d := itemPicked;
      var newErrors: Errors := map[];
      if d.inventoryItemId == "" {
        newErrors := newErrors["inventoryItemId" := "Please select an item"];
      }
      ghost var e1 := newErrors;
      assert e1 == Flag(map[], d.inventoryItemId == "", "inventoryItemId", "Please select an item");
      if CountRefused(d.quantity) {
        newErrors := newErrors["quantity" := "Quantity must be greater than 0"];
      }
      assert newErrors == Flag(e1, CountRefused(d.quantity), "quantity", "Quantity must be greater than 0");
      errors := newErrors;
      ItemPickedErrorsContents(d);
      if |newErrors| > 0 {
        assert newErrors != map[];
        return None;
      }
      isSubmitting := true;
      sent := Some(ItemPickedPayloadOf(d, items));
      if requestSucceeds {
        showItemPickedForm := false;
        itemPicked := ItemPickedData("", "", today, "");
      } else {
        errors := map["general" := "Failed to record item picked"];
      }
      isSubmitting := false;
    }

    /**
     * Lines 102-135: the same flow for the expense form; the item-picked
     * form is not touched.
     */
    method HandleExpenseSubmit(today: string, requestSucceeds: bool) returns (sent: Option<ExpensePayload>)
      modifies this
      ensures itemPicked == old(itemPicked) && showItemPickedForm == old(showItemPickedForm)
      ensures !ExpenseValid(old(expense)) ==>
                sent == None && errors == ExpenseErrors(old(expense)) && expense == old(expense) &&
                showExpenseForm == old(showExpenseForm) && isSubmitting == old(isSubmitting)
      ensures ExpenseValid(old(expense)) ==> sent == Some(ExpensePayloadOf(old(expense))) && !isSubmitting
      ensures ExpenseValid(old(expense)) && requestSucceeds ==>
                !showExpenseForm && expense == ExpenseData("", "", today, "") && errors == map[]
      ensures ExpenseValid(old(expense)) && !requestSucceeds ==>
                expense == old(expense) && showExpenseForm == old(showExpenseForm) &&
                errors == map["general" := "Failed to record expense"]
    {
      var d := expense;
      var newErrors: Errors := map[];
      if Trim(d.category) == "" {
        newErrors := newErrors["category" := "Category is required"];
      }
      ghost var e1 := newErrors;
      assert e1 == Flag(map[], Trim(d.category) == "", "category", "Category is required");
      if AmountRefused(d.amount) {
        newErrors := newErrors["amount" := "Amount must be greater than 0"];
      }
      assert newErrors == Flag(e1, AmountRefused(d.amount), "amount", "Amount must be greater than 0");
      errors := newErrors;
      ExpenseErrorsContents(d);
      if |newErrors| > 0 {
        assert newErrors != map[];
        return None;
      }
      isSubmitting := true;
      sent := Some(ExpensePayloadOf(d));
      if requestSucceeds {
        showExpenseForm := false;
        expense := ExpenseData("", "", today, "");
      } else {
        errors := map["general" := "Failed to record expense"];
      }
      isSubmitting := false;
    }
  }
}
