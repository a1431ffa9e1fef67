/**
 * The adjustments endpoint: GET lists adjustments filtered by type and an
 * optional date range, newest first, each with its inventory item; POST
 * checks presence and normalises amount, quantity and item.
 */
module AdjustmentsRoute {
  import opened Js
  import opened Folds
  import opened Ordering
  import opened Records
  import opened Http
  import opened Requests

  // ---------------------------------------------------------------------------
  // GET

  datatype Where = Where(kind: Option<string>, date: Option<DateRange>)

  /** Lines 20-31: a type filter whenever a type is given, a date range only when both dates are. */
  method BuildWhere(kind: Option<string>, startDate: Option<string>, endDate: Option<string>) returns (w: Where)
    ensures w.kind.Some? <==> TruthyText(kind)
    ensures w.kind.Some? ==> w.kind == kind
    ensures w.date.Some? <==> TruthyText(startDate) && TruthyText(endDate)
    ensures w.date == RangeOf(startDate, endDate)
  {
    w := Where(None, None);
    if TruthyText(kind) {
      w := w.(kind := kind);
    }
    if TruthyText(startDate) && TruthyText(endDate) {
      w := w.(date := Some(DateRange(startDate.value, endDate.value)));
    }
  }

  function Matching(w: Where, dateOf: string -> int): Adjustment -> bool {
    (a: Adjustment) => (w.kind.None? || a.kind == w.kind.value) && InRange(w.date, dateOf, a.date)
  }

  function AdjustmentDate(a: Adjustment): int { a.date }

  /** An adjustment with `include: { inventoryItem: true }`. */
  datatype ListedAdjustment = ListedAdjustment(adjustment: Adjustment, inventoryItem: Option<InventoryItem>)

  /** The inventory item with the given id, if the adjustment names one that exists. */
  function LinkedItem(items: seq<InventoryItem>, id: Option<string>): (r: Option<InventoryItem>)
    ensures r.Some? ==> r.value in items && Some(r.value.id) == id
    ensures r.None? ==> id.None? || forall i :: 0 <= i < |items| ==> items[i].id != id.value
  {
    if id.None? || items == [] then None
    else if items[0].id == id.value then Some(items[0])
    else LinkedItem(items[1..], id)
  }

  /** The adjustments the query returns, before their items are included. */
  function Rows(db: Database, w: Where, dateOf: string -> int): seq<Adjustment> {
    Query(db.adjustments, Matching(w, dateOf), NewestFirst(AdjustmentDate))
  }

  function Listing(db: Database, w: Where, dateOf: string -> int): seq<ListedAdjustment> {
    var rows := Rows(db, w, dateOf);
    seq(|rows|, i requires 0 <= i < |rows| => ListedAdjustment(rows[i], LinkedItem(db.inventoryItems, rows[i].inventoryItemId)))
  }

  /** GET: 401 without a session, 500 when the read throws, else 200 with the listing. */
  method Get(signedIn: bool, readSucceeds: bool, db: Database, kind: Option<string>, startDate: Option<string>,
             endDate: Option<string>, dateOf: string -> int)
    returns (reply: Reply<seq<ListedAdjustment>>)
    ensures !signedIn ==> reply == Unauthorized()
    ensures signedIn && !readSucceeds ==> reply == InternalError()
    ensures signedIn && readSucceeds ==>
              reply == Success(200, Listing(db, Where(if TruthyText(kind) then kind else None, RangeOf(startDate, endDate)), dateOf))
  {
    if !signedIn {
      return Unauthorized();
    }
    var w := BuildWhere(kind, startDate, endDate);
    if !readSucceeds {
      return InternalError();
    }
    reply := Success(200, Listing(db, w, dateOf));
  }

  /**
   * The listing is the matching adjustments, each as often as stored, newest
   * first, each with the item it names.
   */
  lemma ListingContents(db: Database, w: Where, dateOf: string -> int)
    ensures |Listing(db, w, dateOf)| == |Filter(db.adjustments, Matching(w, dateOf))|
    ensures multiset(Rows(db, w, dateOf)) == multiset(Filter(db.adjustments, Matching(w, dateOf)))
    ensures forall i :: 0 <= i < |Listing(db, w, dateOf)| ==> Listing(db, w, dateOf)[i].adjustment == Rows(db, w, dateOf)[i]
    ensures forall i, j :: 0 <= i < j < |Listing(db, w, dateOf)| ==>
              Listing(db, w, dateOf)[i].adjustment.date >= Listing(db, w, dateOf)[j].adjustment.date
    ensures forall i :: 0 <= i < |Listing(db, w, dateOf)| ==>
              var a := Listing(db, w, dateOf)[i];
              a.adjustment in db.adjustments && Matching(w, dateOf)(a.adjustment) &&
              a.inventoryItem == LinkedItem(db.inventoryItems, a.adjustment.inventoryItemId)
    ensures forall a :: a in db.adjustments && Matching(w, dateOf)(a) ==>
              ListedAdjustment(a, LinkedItem(db.inventoryItems, a.inventoryItemId)) in Listing(db, w, dateOf)
  {
    var rows := Rows(db, w, dateOf);
    var l := Listing(db, w, dateOf);
    NewestFirstIsOrder(AdjustmentDate);
    QueryContents(db.adjustments, Matching(w, dateOf), NewestFirst(AdjustmentDate));
    forall i, j | 0 <= i < j < |l| ensures l[i].adjustment.date >= l[j].adjustment.date {
      assert l[i].adjustment == rows[i] && l[j].adjustment == rows[j];
      assert NewestFirst(AdjustmentDate)(rows[i], rows[j]);
      assert AdjustmentDate(rows[i]) >= AdjustmentDate(rows[j]);
    }
    forall i | 0 <= i < |l|
      ensures l[i].adjustment in db.adjustments && Matching(w, dateOf)(l[i].adjustment)
    {
      assert l[i].adjustment == rows[i] && rows[i] in rows;
    }
    forall a | a in db.adjustments && Matching(w, dateOf)(a)
      ensures ListedAdjustment(a, LinkedItem(db.inventoryItems, a.inventoryItemId)) in l
    {
      var i :| 0 <= i < |rows| && rows[i] == a;
      assert l[i] == ListedAdjustment(a, LinkedItem(db.inventoryItems, a.inventoryItemId));
    }
  }

  // ---------------------------------------------------------------------------
  // POST

  /** The data handed to `create`: `date` is the value `new Date(date)` is built from. */
  datatype AdjustmentDraft = AdjustmentDraft(
    kind: Value,
    date: Value,
    description: Value,
    amount: Value,
    quantity: Value,
    inventoryItemId: Value)

  /** `inventoryItemId || null`. */
  function ItemOrNull(x: Value): (r: Value)
    ensures Truthy(x) ==> r == x
    ensures !Truthy(x) ==> r == Null
  {
    if Truthy(x) then x else Null
  }

  /** Lines 68-80: the record built from a destructured body; the description is passed through unchanged. */
  function DraftOf(body: Value): AdjustmentDraft {
    AdjustmentDraft(
      Field(body, "type"), Field(body, "date"), Field(body, "description"),
      FloatOrNull(Field(body, "amount")), IntOrNull(Field(body, "quantity")), ItemOrNull(Field(body, "inventoryItemId")))
  }

  /** The created adjustment with `include: { inventoryItem: true }`. */
  datatype CreatedAdjustment = CreatedAdjustment(adjustment: AdjustmentDraft, inventoryItem: Option<InventoryItem>)

  /** The stored item id as the relation reads it: text names an item, anything else names none. */
  function ItemId(v: Value): (r: Option<string>)
    ensures r.Some? <==> v.Str?
    ensures v.Str? ==> r == Some(v.s)
  {
    if v.Str? then Some(v.s) else None
  }

  /**
   * POST: 401 without a session; 500 when the body cannot be destructured or
   * `create` throws; 400 without a truthy type and date; else 201 with the
   * created record and the inventory item its id names, read from `items`.
   */
  function Post(signedIn: bool, body: Option<Value>, items: seq<InventoryItem>, createSucceeds: bool): (r: Reply<CreatedAdjustment>)
    ensures !signedIn ==> r == Unauthorized()
    ensures signedIn && !Destructurable(body) ==> r == InternalError()
    ensures r == BadRequest("Type and date are required") <==>
              signedIn && Destructurable(body) && !(Truthy(Field(body.value, "type")) && Truthy(Field(body.value, "date")))
    ensures r.Success? <==>
              signedIn && Destructurable(body) && Truthy(Field(body.value, "type")) && Truthy(Field(body.value, "date")) && createSucceeds
    ensures r.Success? ==> r.status == 201 && r.body.adjustment == DraftOf(body.value)
    ensures r.Success? && r.body.inventoryItem.Some? ==>
              r.body.inventoryItem.value in items && r.body.adjustment.inventoryItemId == Str(r.body.inventoryItem.value.id)
    ensures r.Success? && r.body.inventoryItem.None? ==>
              r.body.adjustment.inventoryItemId == Null || forall i :: 0 <= i < |items| ==> Str(items[i].id) != r.body.adjustment.inventoryItemId
  {
    if !signedIn then Unauthorized()
    else if !Destructurable(body) then InternalError()
    else if !Truthy(Field(body.value, "type")) || !Truthy(Field(body.value, "date")) then BadRequest("Type and date are required")
    else if !createSucceeds then InternalError()
    else
      var draft := DraftOf(body.value);
      Success(201, CreatedAdjustment(draft, LinkedItem(items, ItemId(draft.inventoryItemId))))
  }

  /** What a created adjustment stores: parsed amount and quantity or null (0 becoming null), and the item or null. */
  lemma DraftNormalisation(body: Value)
    ensures !Truthy(Field(body, "amount")) <==> DraftOf(body).amount == Null
    ensures Truthy(Field(body, "amount")) ==> DraftOf(body).amount == ParseFloat(Field(body, "amount"))
    ensures !Truthy(Field(body, "quantity")) <==> DraftOf(body).quantity == Null
    ensures Truthy(Field(body, "quantity")) ==> DraftOf(body).quantity == ParseInt(Field(body, "quantity"))
    ensures Field(body, "inventoryItemId") == Str("") ==> DraftOf(body).inventoryItemId == Null
    ensures Field(body, "quantity") == Num(0.0) ==> DraftOf(body).quantity == Null
  {
  }
}
