/**
 * The inventory page: the name search, the low-stock list that drives the
 * banner and the row warnings, the message of an empty table, and the
 * handlers that open the modal, delete an item and save the modal's data.
 */
module InventoryPage {
  import opened Js
  import opened Folds
  import opened Client
  import InventoryModal

  // ---------------------------------------------------------------------------
  // Search

  /** The lower-cased name contains the lower-cased term. */
  function NameMatches(term: string): InventoryItem -> bool {
    (item: InventoryItem) => Includes(ToLower(item.name), ToLower(term))
  }

  /** Lines 22-26. */
  function FilteredItems(items: seq<InventoryItem>, term: string): (r: seq<InventoryItem>)
    ensures forall x :: x in r <==> x in items && Includes(ToLower(x.name), ToLower(term))
  {
    FilterMembers(items, NameMatches(term));
    Filter(items, NameMatches(term))
  }

  /** The empty term keeps every item, in order. */
  lemma EmptySearchKeepsAll(items: seq<InventoryItem>)
    ensures FilteredItems(items, "") == items
  {
    forall i | 0 <= i < |items| ensures NameMatches("")(items[i]) {
      IncludesEmpty(ToLower(items[i].name));
    }
    FilterAll(items, NameMatches(""));
  }

  lemma {:induction false} LowerTwice(s: string)
    ensures ToLower(ToLower(s)) == ToLower(s)
  {
    assert forall i :: 0 <= i < |s| ==> LowerChar(LowerChar(s[i])) == LowerChar(s[i]);
  }

  /** The search ignores the case of the term: a lower-cased term finds the same items. */
  lemma SearchIgnoresCase(items: seq<InventoryItem>, term: string)
    ensures FilteredItems(items, ToLower(term)) == FilteredItems(items, term)
  {
    LowerTwice(term);
    FilterSame(items, NameMatches(ToLower(term)), NameMatches(term));
  }

  // ---------------------------------------------------------------------------
  // Low stock

  /** Line 29 (and lines 76 and 91 for a row): the stock is at or below the reorder threshold. */
  function IsLow(item: InventoryItem): bool {
    item.currentStock <= item.reorderThreshold
  }

  /** Lines 28-30: over all the items, whatever the search. */
  function LowStockItems(items: seq<InventoryItem>): (r: seq<InventoryItem>)
    ensures forall x :: x in r <==> x in items && x.currentStock <= x.reorderThreshold
  {
    FilterMembers(items, IsLow);
    Filter(items, IsLow)
  }

  /** The banner's count and the words after it. */
  datatype Banner = Banner(count: nat, words: string)

  /** Lines 147-157. */
  function LowStockBanner(items: seq<InventoryItem>): (r: Option<Banner>)
    ensures r.Some? <==> exists x :: x in items && x.currentStock <= x.reorderThreshold
    ensures r.Some? ==> r.value.count == |LowStockItems(items)| >= 1
    ensures r.Some? && r.value.count == 1 ==> r.value.words == "item is below reorder threshold"
    ensures r.Some? && r.value.count > 1 ==> r.value.words == "items are below reorder threshold"
  {
    var low := LowStockItems(items);
    if |low| > 0 then
      assert low[0] in low;
      Some(Banner(|low|, if |low| > 1 then "items are below reorder threshold" else "item is below reorder threshold"))
    else
      None
  }

  /** The warnings of one table row. */
  datatype RowFlags = RowFlags(warningIcon: bool, redStock: bool)

  /** Lines 76-78 and 91. */
  function RowFlagsOf(row: InventoryItem): RowFlags {
    RowFlags(IsLow(row), IsLow(row))
  }

  /**
   * A listed row shows the warning icon and the red stock text exactly when
   * it is one of the items the banner counts.
   */
  lemma RowFlagsAgreeWithBanner(items: seq<InventoryItem>, row: InventoryItem)
    requires row in items
    ensures RowFlagsOf(row).warningIcon <==> row in LowStockItems(items)
    ensures RowFlagsOf(row).redStock <==> row in LowStockItems(items)
  {
  }

  /** The banner shows exactly when some row of the unfiltered table shows the warning icon. */
  lemma BannerIffSomeRowWarns(items: seq<InventoryItem>)
    ensures LowStockBanner(items).Some? <==> exists i :: 0 <= i < |items| && RowFlagsOf(items[i]).warningIcon
  {
    if LowStockBanner(items).Some? {
      var x :| x in items && IsLow(x);
      var i :| 0 <= i < |items| && items[i] == x;
      assert RowFlagsOf(items[i]).warningIcon;
    }
  }

  /** An item the search hides still counts in the banner. */
  lemma BannerIgnoresSearch()
    ensures var items := [InventoryItem("1", "Soap", 50.0, 2, 5)];
            FilteredItems(items, "milk") == [] && LowStockBanner(items) == Some(Banner(1, "item is below reorder threshold"))
  {
    var items := [InventoryItem("1", "Soap", 50.0, 2, 5)];
    assert ToLower("Soap") == "soap";
    assert ToLower("milk") == "milk";
    assert "soap"[0..4][0] == 's';
    assert !OccursAt("soap", "milk", 0);
    assert !Includes("soap", "milk");
    assert items[1..] == [];
    assert FilteredItems(items, "milk") == [];
    assert LowStockItems(items) == [items[0]];
  }

  /** Lines 181-187: the message of an empty table. */
  function EmptyMessage(isLoading: bool, searchTerm: string): (r: string)
    ensures isLoading ==> r == "Loading inventory..."
    ensures !isLoading && searchTerm != "" ==> r == "No items match your search"
    ensures !isLoading && searchTerm == "" ==> r == "No inventory items found. Add your first item to get started."
  {
    if isLoading then "Loading inventory..."
    else if searchTerm != "" then "No items match your search"
    else "No inventory items found. Add your first item to get started."
  }

  // ---------------------------------------------------------------------------
  // Handlers

  /** The call the modal's data is saved with. */
  datatype Save = CreateItem(data: InventoryModal.ItemPayload) | UpdateItem(id: string, data: InventoryModal.ItemPayload)

  class PageState {
    var modalOpen: bool
    var modalMode: InventoryModal.Mode
    var selectedItem: Option<InventoryItem>
    var isSubmitting: bool

    /** Lines 16-20. */
    constructor()
      ensures !modalOpen && modalMode == InventoryModal.CreateMode && selectedItem == None && !isSubmitting
    {
      modalOpen := false;
      modalMode := InventoryModal.CreateMode;
      selectedItem := None;
      isSubmitting := false;
    }

    /** Lines 32-36: the modal opens empty, in create mode. */
    method HandleCreateItem()
      modifies this
      ensures modalOpen && modalMode == InventoryModal.CreateMode && selectedItem == None && isSubmitting == old(isSubmitting)
    {
      modalMode := InventoryModal.CreateMode;
      selectedItem := None;
      modalOpen := true;
    }

    /** Lines 38-42: the modal opens on the row's item, in edit mode. */
    method HandleEditItem(item: InventoryItem)
      modifies this
      ensures modalOpen && modalMode == InventoryModal.EditMode && selectedItem == Some(item) && isSubmitting == old(isSubmitting)
    {
      modalMode := InventoryModal.EditMode;
      selectedItem := Some(item);
      modalOpen := true;
    }

    /** The modal's close callback (line 193). */
    method CloseModal()
      modifies this
      ensures !modalOpen && modalMode == old(modalMode) && selectedItem == old(selectedItem) && isSubmitting == old(isSubmitting)
    {
      modalOpen := false;
    }

    /**
     * Lines 54-65: in create mode the data is created; in edit mode the
     * selected item is updated, and without one nothing is sent; the call
     * fails exactly when a sent request fails, and the submitting flag ends
     * cleared either way.
     */
    method HandleModalSubmit(data: InventoryModal.ItemPayload, requestSucceeds: bool) returns (sent: Option<Save>, succeeded: bool)
      modifies this
      ensures old(modalMode) == InventoryModal.CreateMode ==> sent == Some(CreateItem(data))
      ensures old(modalMode) == InventoryModal.EditMode && old(selectedItem).Some? ==> sent == Some(UpdateItem(old(selectedItem).value.id, data))
      ensures old(modalMode) == InventoryModal.EditMode && old(selectedItem).None? ==> sent == None
      ensures succeeded <==> sent.None? || requestSucceeds
      ensures !isSubmitting
      ensures modalOpen == old(modalOpen) && modalMode == old(modalMode) && selectedItem == old(selectedItem)
    {
      isSubmitting := true;
      if modalMode == InventoryModal.CreateMode {
        sent := Some(CreateItem(data));
      } else if selectedItem.Some? {
        sent := Some(UpdateItem(selectedItem.value.id, data));
      } else {
        sent := None;
      }
      succeeded := sent.None? || requestSucceeds;
      isSubmitting := false;
    }
  }

  /**
   * Lines 44-52: a confirmed deletion sends the item's id, and a failed one
   * raises an alert; an unconfirmed one sends nothing.
   */
  function HandleDeleteItem(item: InventoryItem, confirmed: bool, requestSucceeds: bool): (r: (Option<string>, Option<string>))
    ensures r.0.Some? <==> confirmed
    ensures confirmed ==> r.0 == Some(item.id)
    ensures r.1.Some? <==> confirmed && !requestSucceeds
    ensures r.1.Some? ==> r.1 == Some("Failed to delete item")
  {
    if !confirmed then (None, None)
    else (Some(item.id), if requestSucceeds then None else Some("Failed to delete item"))
  }
}
