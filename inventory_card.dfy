/**
 * The inventory card: the low-stock test, the stock bar's percentage and
 * which parts of the card are shown.
 */
module InventoryCard {
  import opened Js
  import opened Client

  /** Line 26. */
  predicate IsLowStock(item: InventoryItem) {
    item.currentStock <= item.reorderThreshold
  }

  /**
   * Line 27: `min(currentStock / (2 × reorderThreshold) × 100, 100)`. The
   * threshold must be non-zero for the quotient to be a finite number; a
   * negative threshold flips the side on which the cap applies.
   */
  function StockPercentage(item: InventoryItem): (r: real)
    requires item.reorderThreshold != 0
    ensures r <= 100.0
    ensures item.reorderThreshold > 0 && item.currentStock >= 2 * item.reorderThreshold ==> r == 100.0
    ensures item.reorderThreshold > 0 && item.currentStock < 2 * item.reorderThreshold ==>
              r * (2 * item.reorderThreshold) as real == 100.0 * item.currentStock as real
    ensures item.reorderThreshold < 0 && item.currentStock <= 2 * item.reorderThreshold ==> r == 100.0
    ensures item.reorderThreshold < 0 && item.currentStock > 2 * item.reorderThreshold ==>
              r * (2 * item.reorderThreshold) as real == 100.0 * item.currentStock as real
    ensures item.reorderThreshold < 0 && item.currentStock >= 0 ==> r <= 0.0
  {
    var x, d := item.currentStock as real, (item.reorderThreshold * 2) as real;
    QuotientFacts(x, d);
    var p := x / d * 100.0;
    if p < 100.0 then p else 100.0
  }

  /** What the sign of a quotient and its size against 1 say about the operands. */
  lemma QuotientFacts(x: real, d: real)
    requires d != 0.0
    ensures x / d * d == x
    ensures d > 0.0 ==> (x >= d <==> x / d >= 1.0)
    ensures d < 0.0 ==> (x <= d <==> x / d >= 1.0)
    ensures d < 0.0 && x >= 0.0 ==> x / d <= 0.0
    ensures d > 0.0 && x >= 0.0 ==> x / d >= 0.0
  {
  }

  /** A low-stock item's bar is at most half full, and an empty stock gives an empty bar. */
  lemma LowStockBar(item: InventoryItem)
    requires item.reorderThreshold > 0
    ensures IsLowStock(item) ==> StockPercentage(item) <= 50.0
    ensures item.currentStock == 0 ==> StockPercentage(item) == 0.0
    ensures item.currentStock >= 0 ==> StockPercentage(item) >= 0.0
  {
    var x, d := item.currentStock as real, (2 * item.reorderThreshold) as real;
    QuotientFacts(x, d);
    if IsLowStock(item) {
      var half := item.(currentStock := item.reorderThreshold);
      StockPercentageMonotone(item, half);
      HalfStockHalfBar(half);
    }
  }

  /** Stock equal to the threshold fills half the bar. */
  lemma HalfStockHalfBar(item: InventoryItem)
    requires item.reorderThreshold > 0 && item.currentStock == item.reorderThreshold
    ensures StockPercentage(item) == 50.0
  {
    var x := item.currentStock as real;
    QuotientFacts(x, 2.0 * x);
    assert x / (2.0 * x) == 0.5;
  }

  /** More stock never gives a lower bar. */
  lemma StockPercentageMonotone(a: InventoryItem, b: InventoryItem)
    requires a.reorderThreshold == b.reorderThreshold > 0 && a.currentStock <= b.currentStock
    ensures StockPercentage(a) <= StockPercentage(b)
  {
    var d := (2 * a.reorderThreshold) as real;
    QuotientFacts(b.currentStock as real - a.currentStock as real, d);
    assert b.currentStock as real / d - a.currentStock as real / d == (b.currentStock as real - a.currentStock as real) / d;
  }

  /** The callbacks the card was given. */
  datatype Callbacks = Callbacks(onEdit: bool, onDelete: bool, onAdjustStock: bool)

  /** The parts of the card that change with the item and the callbacks. */
  datatype CardView = CardView(
    dangerIcon: bool,
    redStockText: bool,
    redBar: bool,
    alertBlock: bool,
    editButton: bool,
    deleteButton: bool,
    adjustButton: bool,
    barWidth: Option<real>)

  /**
   * The width the bar is drawn with, `None` where it is not a finite number.
   * With a zero threshold the quotient is Infinity for positive stock, which
   * the cap turns into 100, and NaN or -Infinity otherwise.
   */
  function BarWidth(item: InventoryItem): (r: Option<real>)
    ensures r.None? <==> item.reorderThreshold == 0 && item.currentStock <= 0
    ensures r.Some? ==> r.value <= 100.0
    ensures item.reorderThreshold != 0 ==> r == Some(StockPercentage(item))
    ensures item.reorderThreshold == 0 && item.currentStock > 0 ==> r == Some(100.0)
  {
    if item.reorderThreshold != 0 then Some(StockPercentage(item))
    else if item.currentStock > 0 then Some(100.0)
    else None
  }

  /** Lines 39-46, 59-78 and 88-133. */
  function Render(item: InventoryItem, callbacks: Callbacks): (r: CardView)
    ensures r.dangerIcon == r.redStockText == r.redBar == r.alertBlock == IsLowStock(item)
    ensures r.editButton == callbacks.onEdit && r.deleteButton == callbacks.onDelete && r.adjustButton == callbacks.onAdjustStock
    ensures r.barWidth == BarWidth(item)
    ensures item.reorderThreshold != 0 ==> r.barWidth == Some(StockPercentage(item))
    ensures r.barWidth.Some? ==> r.barWidth.value <= 100.0
  {
    var low := IsLowStock(item);
    CardView(low, low, low, low, callbacks.onEdit, callbacks.onDelete, callbacks.onAdjustStock, BarWidth(item))
  }
}
