/**
 * The inventory endpoint: GET lists items by name; POST checks the required
 * fields and defaults the reorder threshold.
 */
module InventoryRoute {
  import opened Js
  import opened Folds
  import opened Ordering
  import opened Records
  import opened Http
  import opened Requests

  function ItemName(item: InventoryItem): string { item.name }

  function Everything(item: InventoryItem): bool { true }

  /** Lines 15-17: every item, in ascending order of name. */
  function Listing(db: Database): seq<InventoryItem> {
    Query(db.inventoryItems, Everything, AlphabeticalBy(ItemName))
  }

  method Get(signedIn: bool, readSucceeds: bool, db: Database) returns (reply: Reply<seq<InventoryItem>>)
    ensures !signedIn ==> reply == Unauthorized()
    ensures signedIn && !readSucceeds ==> reply == InternalError()
    ensures signedIn && readSucceeds ==> reply == Success(200, Listing(db))
  {
    if !signedIn {
      return Unauthorized();
    }
    if !readSucceeds {
      return InternalError();
    }
    reply := Success(200, Listing(db));
  }

  /** The listing holds every item exactly as often as stored, sorted by name. */
  lemma ListingContents(db: Database)
    ensures multiset(Listing(db)) == multiset(db.inventoryItems)
    ensures forall i, j :: 0 <= i < j < |Listing(db)| ==> LexLe(Listing(db)[i].name, Listing(db)[j].name)
  {
    AlphabeticalIsOrder(ItemName);
    QueryContents(db.inventoryItems, Everything, AlphabeticalBy(ItemName));
    FilterAll(db.inventoryItems, Everything);
    ByName(Listing(db));
  }

  lemma ByName(l: seq<InventoryItem>)
    requires SortedBy(l, AlphabeticalBy(ItemName))
    ensures forall i, j :: 0 <= i < j < |l| ==> LexLe(l[i].name, l[j].name)
  {
    forall i, j | 0 <= i < j < |l| ensures LexLe(l[i].name, l[j].name) {
      assert AlphabeticalBy(ItemName)(l[i], l[j]);
      assert ItemName(l[i]) == l[i].name && ItemName(l[j]) == l[j].name;
    }
  }

  /** The data handed to `create`. */
  datatype ItemDraft = ItemDraft(name: Value, unitCost: Value, currentStock: Value, reorderThreshold: Value)

  /** Line 50, `parseInt(reorderThreshold) || 10`. */
  function ThresholdOrDefault(x: Value): (r: Value)
    ensures Truthy(ParseInt(x)) ==> r == ParseInt(x)
    ensures !Truthy(ParseInt(x)) ==> r == Num(10.0)
  {
    var p := ParseInt(x);
    if Truthy(p) then p else Num(10.0)
  }

  /** A missing, non-numeric or zero threshold becomes 10; a negative one is kept. */
  lemma ThresholdDefaults()
    ensures ThresholdOrDefault(Undefined) == Num(10.0)
    ensures ThresholdOrDefault(Str("")) == Num(10.0)
    ensures ThresholdOrDefault(Num(0.0)) == Num(10.0)
    ensures ThresholdOrDefault(Str("abc")) == Num(10.0)
    ensures ThresholdOrDefault(Num(-3.0)) == Num(-3.0)
  {
    assert TrimStart("") == "";
    assert !IsWhitespace('a') && !IsDigitIn('a', 10);
    assert TrimStart("abc") == "abc";
    assert "abc"[0..] == "abc";
  }

  function DraftOf(body: Value): ItemDraft {
    ItemDraft(
      Field(body, "name"), ParseFloat(Field(body, "unitCost")), ParseInt(Field(body, "currentStock")),
      ThresholdOrDefault(Field(body, "reorderThreshold")))
  }

  /**
   * POST: 401 without a session; 500 when the body cannot be destructured or
   * `create` throws; 400 "Missing required fields" for a falsy name or an
   * undefined unit cost or stock; else 201.
   */
  function Post(signedIn: bool, body: Option<Value>, createSucceeds: bool): (r: Reply<ItemDraft>)
    ensures !signedIn ==> r == Unauthorized()
    ensures signedIn && !Destructurable(body) ==> r == InternalError()
    ensures r == BadRequest("Missing required fields") <==>
              signedIn && Destructurable(body) &&
              (!Truthy(Field(body.value, "name")) || Field(body.value, "unitCost").Undefined? || Field(body.value, "currentStock").Undefined?)
    ensures r.Success? <==>
              signedIn && Destructurable(body) && Truthy(Field(body.value, "name")) &&
              !Field(body.value, "unitCost").Undefined? && !Field(body.value, "currentStock").Undefined? && createSucceeds
    ensures r.Success? ==> r == Success(201, DraftOf(body.value)) && r.body.name == Field(body.value, "name")
  {
    if !signedIn then Unauthorized()
    else if !Destructurable(body) then InternalError()
    else if !Truthy(Field(body.value, "name")) || Field(body.value, "unitCost").Undefined? || Field(body.value, "currentStock").Undefined? then
      BadRequest("Missing required fields")
    else if !createSucceeds then InternalError()
    else Success(201, DraftOf(body.value))
  }

  /** Zero unit cost and zero stock pass the required-field check. */
  lemma ZeroNumbersAccepted()
    ensures var body := Obj(map["name" := Str("Soap"), "unitCost" := Num(0.0), "currentStock" := Num(0.0)]);
            Post(true, Some(body), true) == Success(201, ItemDraft(Str("Soap"), Num(0.0), Num(0.0), Num(10.0)))
  {
    var body := Obj(map["name" := Str("Soap"), "unitCost" := Num(0.0), "currentStock" := Num(0.0)]);
    assert "reorderThreshold" !in body.props;
    assert Field(body, "name") == Str("Soap");
    assert Field(body, "unitCost") == Num(0.0) && Field(body, "currentStock") == Num(0.0);
    assert Field(body, "reorderThreshold") == Undefined;
  }
}
