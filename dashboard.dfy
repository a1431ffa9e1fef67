/**
 * The dashboard endpoint: four metrics with their period-over-period changes,
 * a six-month earnings/expenses series and a seven-day M-Pesa series, all
 * computed from one snapshot of the tables and one clock reading `now`.
 */
module Dashboard {
  import opened Js
  import opened Calendar
  import opened Folds
  import opened Records
  import opened Http

  datatype Metrics = Metrics(
    totalInvestments: real,
    totalInvestmentsChange: real,
    lowStockItems: nat,
    lowStockItemsChange: real,
    todayMpesaNetFlow: real,
    todayMpesaNetFlowChange: real,
    monthlyProfitShare: real,
    monthlyProfitShareChange: real)

  datatype EarningsPoint = EarningsPoint(month: string, earnings: real, expenses: real)

  datatype MpesaPoint = MpesaPoint(day: string, deposits: real, withdrawals: real)

  datatype Charts = Charts(earningsData: seq<EarningsPoint>, mpesaData: seq<MpesaPoint>)

  datatype DashboardData = DashboardData(metrics: Metrics, charts: Charts)

  const MonthNames: seq<string> := ["Jan", "Feb", "Mar", "Apr", "May", "Jun", "Jul", "Aug", "Sep", "Oct", "Nov", "Dec"]

  const DayNames: seq<string> := ["Mon", "Tue", "Wed", "Thu", "Fri", "Sat", "Sun"]

  // ---------------------------------------------------------------------------
  // Comparison dates

  /** The comparison dates derived from `now`: midnights of today and yesterday, the 1st of this and last month, and `new Date(y, m, 0)`. */
  datatype Windows = Windows(today: int, yesterday: int, thisMonth: int, lastMonth: int, lastMonthEnd: int)

  function WindowsOf(now: Now): (w: Windows)
    ensures w.yesterday == w.today - DayMs
    ensures w.lastMonthEnd == w.thisMonth - DayMs
    ensures w.thisMonth == MonthStart(now.MonthNumber()) && w.lastMonth == MonthStart(now.MonthNumber() - 1)
  {
    Windows(
      DateOf(now.year, now.month, now.day),
      DateOf(now.year, now.month, now.day - 1),
      DateOf(now.year, now.month, 1),
      DateOf(now.year, now.month - 1, 1),
      DateOf(now.year, now.month, 0))
  }

  // ---------------------------------------------------------------------------
  // Record conditions and terms (the where-clauses and the reduce bodies)

  function Capital(inv: Investment): real { inv.capital }

  function CurrentProfit(inv: Investment): real { inv.currentProfit }

  /** The profit share paid out of an investment: currentProfit × profitShare. */
  function ProfitShareOf(inv: Investment): real { inv.currentProfit * inv.profitShare }

  function Amount(e: Expense): real { e.amount }

  function IsActive(inv: Investment): bool { inv.isActive }

  function IsLow(item: InventoryItem): bool { item.IsLowStock() }

  /** `{ isActive: true, createdAt: { gte: lo, lte: hi } }`. */
  function CreatedIn(lo: int, hi: int): Investment -> bool {
    (inv: Investment) => inv.isActive && lo <= inv.createdAt <= hi
  }

  /** `{ isActive: true, createdAt: { gte: lo } }`. */
  function CreatedFrom(lo: int): Investment -> bool {
    (inv: Investment) => inv.isActive && lo <= inv.createdAt
  }

  /** `{ date: { gte: lo, lte: hi } }` on expenses. */
  function DatedIn(lo: int, hi: int): Expense -> bool {
    (e: Expense) => lo <= e.date <= hi
  }

  /** `{ date: { gte: lo, lt: hi }, type: "end_of_day" }`. */
  function EndOfDayIn(lo: int, hi: int): MpesaEntry -> bool {
    (e: MpesaEntry) => e.kind == EndOfDay && lo <= e.date < hi
  }

  /**
   * One entry's share of the net flow: deposits − withdrawals − fees when all
   * three are truthy, so that a null or a 0 in any of them drops the entry.
   */
  function NetFlowTerm(e: MpesaEntry): (r: real)
    ensures !TruthyNumber(e.deposits) || !TruthyNumber(e.withdrawals) || !TruthyNumber(e.fees) ==> r == 0.0
    ensures TruthyNumber(e.deposits) && TruthyNumber(e.withdrawals) && TruthyNumber(e.fees) ==>
              r + e.withdrawals.value + e.fees.value == e.deposits.value
  {
    if TruthyNumber(e.deposits) && TruthyNumber(e.withdrawals) && TruthyNumber(e.fees)
    then e.deposits.value - e.withdrawals.value - e.fees.value
    else 0.0
  }

  /** `entry.deposits || 0`. */
  function DepositsOrZero(e: MpesaEntry): real { OrZero(e.deposits) }

  /** `entry.withdrawals || 0`. */
  function WithdrawalsOrZero(e: MpesaEntry): real { OrZero(e.withdrawals) }

  /** `aggregate({ _sum })`: the sum of a column, null when no row matches. */
  function AggregateSum<T>(rows: seq<T>, f: T -> real): (r: Option<real>)
    ensures r.None? <==> rows == []
    ensures OrZero(r) == Sum(rows, f)
  {
    if rows == [] then None else Some(Sum(rows, f))
  }

  function Abs(x: real): (r: real)
    ensures r >= 0.0 && (r == x || r == -x)
  {
    if x < 0.0 then -x else x
  }

  // ---------------------------------------------------------------------------
  // Percentage changes

  /** Lines 42-44: a baseline counts only when positive, and is used without its absolute value. */
  function PositiveBaselineChange(current: real, previous: real): (r: real)
    ensures previous <= 0.0 ==> r == 0.0
    ensures previous > 0.0 ==> previous + previous * r / 100.0 == current
  {
    if previous > 0.0 then (current - previous) / previous * 100.0 else 0.0
  }

  /** Lines 104-106 and 135-137: any non-zero baseline counts, by its absolute value. */
  function NonZeroBaselineChange(current: real, previous: real): (r: real)
    ensures previous == 0.0 ==> r == 0.0
    ensures previous != 0.0 ==> previous + Abs(previous) * r / 100.0 == current
  {
    if previous != 0.0 then (current - previous) / Abs(previous) * 100.0 else 0.0
  }

  /** With a non-zero baseline the change is positive exactly when the value grew. */
  lemma NonZeroBaselineSign(current: real, previous: real)
    requires previous != 0.0
    ensures NonZeroBaselineChange(current, previous) > 0.0 <==> current > previous
    ensures NonZeroBaselineChange(current, previous) == 0.0 <==> current == previous
  {
    var r := NonZeroBaselineChange(current, previous);
    assert Abs(previous) * r / 100.0 == current - previous;
    assert Abs(previous) > 0.0;
    if r > 0.0 {
      assert Abs(previous) * r > 0.0;
    } else if r < 0.0 {
      assert Abs(previous) * (-r) > 0.0;
    }
  }

  /** The two guards agree on a positive baseline ... */
  lemma BaselineGuardsAgree(current: real, previous: real)
    requires previous > 0.0
    ensures PositiveBaselineChange(current, previous) == NonZeroBaselineChange(current, previous)
  {
  }

  /** ... and differ on a negative one: from −100 to 0 the abs rule reports +100 % and the positive rule 0. */
  lemma BaselineGuardsDiffer()
    ensures PositiveBaselineChange(0.0, -100.0) == 0.0
    ensures NonZeroBaselineChange(0.0, -100.0) == 100.0
  {
  }

  // ---------------------------------------------------------------------------
  // Metrics

  /** The net flow of a set of entries: the sum of their terms. */
  function NetFlow(entries: seq<MpesaEntry>): real {
    Sum(entries, NetFlowTerm)
  }

  /** The metric block, computed as lines 14-137 compute it from the snapshot. */
  function MetricsOf(db: Database, now: Now): Metrics {
    var w := WindowsOf(now);
    var total := OrZero(AggregateSum(Filter(db.investments, IsActive), Capital));
    var previousTotal := Sum(Filter(db.investments, CreatedIn(w.lastMonth, w.lastMonthEnd)), Capital);
    var todayFlow := NetFlow(Filter(db.mpesaEntries, EndOfDayIn(w.today, w.today + DayMs)));
    var yesterdayFlow := NetFlow(Filter(db.mpesaEntries, EndOfDayIn(w.yesterday, w.today)));
    var share := Sum(Filter(db.investments, CreatedFrom(w.thisMonth)), ProfitShareOf);
    var previousShare := Sum(Filter(db.investments, CreatedIn(w.lastMonth, w.lastMonthEnd)), ProfitShareOf);
    MetricsFrom(total, previousTotal, Count(db.inventoryItems, IsLow), todayFlow, yesterdayFlow, share, previousShare)
  }

  /** The metric block from its seven aggregates, each change against its baseline. */
  function MetricsFrom(total: real, previousTotal: real, low: nat, todayFlow: real, yesterdayFlow: real, share: real, previousShare: real): Metrics {
    Metrics(
      total, PositiveBaselineChange(total, previousTotal),
      low, 0.0,
      todayFlow, NonZeroBaselineChange(todayFlow, yesterdayFlow),
      share, NonZeroBaselineChange(share, previousShare))
  }

  /** totalInvestments is the capital of the active investments, inactive ones adding nothing, and 0 when none is active. */
  lemma TotalInvestmentsIsActiveCapital(db: Database, now: Now)
    ensures MetricsOf(db, now).totalInvestments == Sum(db.investments, (inv: Investment) => if inv.isActive then inv.capital else 0.0)
    ensures (forall i :: 0 <= i < |db.investments| ==> !db.investments[i].isActive) ==> MetricsOf(db, now).totalInvestments == 0.0
  {
    SumFilter(db.investments, IsActive, Capital, (inv: Investment) => if inv.isActive then inv.capital else 0.0);
    if forall i :: 0 <= i < |db.investments| ==> !db.investments[i].isActive {
      FilterNone(db.investments, IsActive);
    }
  }

  /** lowStockItems counts the low items: 0 iff none is low, all of them iff all are; its change is always 0. */
  lemma LowStockCount(db: Database, now: Now)
    ensures MetricsOf(db, now).lowStockItems <= |db.inventoryItems|
    ensures MetricsOf(db, now).lowStockItems == 0 <==> forall i :: 0 <= i < |db.inventoryItems| ==> !db.inventoryItems[i].IsLowStock()
    ensures MetricsOf(db, now).lowStockItems == |db.inventoryItems| <==> forall i :: 0 <= i < |db.inventoryItems| ==> db.inventoryItems[i].IsLowStock()
    ensures MetricsOf(db, now).lowStockItemsChange == 0.0
  {
    CountBounds(db.inventoryItems, IsLow);
  }

  /** A filter keeps nothing iff no element qualifies, and everything iff every element does. */
  lemma {:induction false} CountBounds<T>(s: seq<T>, p: T -> bool)
    ensures |Filter(s, p)| == 0 <==> forall i :: 0 <= i < |s| ==> !p(s[i])
    ensures |Filter(s, p)| == |s| <==> forall i :: 0 <= i < |s| ==> p(s[i])
  {
    if s != [] {
      CountBounds(s[1..], p);
      assert forall i :: 1 <= i < |s| ==> s[i] == s[1..][i - 1];
      if forall i :: 0 <= i < |s| ==> p(s[i]) {
        assert forall i :: 0 <= i < |s[1..]| ==> p(s[1..][i]) by {
          forall i | 0 <= i < |s[1..]| ensures p(s[1..][i]) {
            assert s[1..][i] == s[i + 1];
          }
        }
      }
      if forall i :: 0 <= i < |s| ==> !p(s[i]) {
        assert forall i :: 0 <= i < |s[1..]| ==> !p(s[1..][i]) by {
          forall i | 0 <= i < |s[1..]| ensures !p(s[1..][i]) {
            assert s[1..][i] == s[i + 1];
          }
        }
      }
    }
  }

  /**
   * Recording one more entry changes today's net flow by that entry's term when
   * it is an end_of_day entry dated today, and not at all otherwise.
   */
  lemma NetFlowOneMore(db: Database, now: Now, e: MpesaEntry)
    ensures var w := WindowsOf(now);
            MetricsOf(db.(mpesaEntries := db.mpesaEntries + [e]), now).todayMpesaNetFlow ==
            MetricsOf(db, now).todayMpesaNetFlow +
            (if e.kind == EndOfDay && w.today <= e.date < w.today + DayMs then NetFlowTerm(e) else 0.0)
  {
    var w := WindowsOf(now);
    var p := EndOfDayIn(w.today, w.today + DayMs);
    FilterAppend(db.mpesaEntries, [e], p);
    assert Filter([e], p) == (if p(e) then [e] else []) + Filter([], p);
    SumAppend(Filter(db.mpesaEntries, p), Filter([e], p), NetFlowTerm);
  }

  /** An end_of_day entry whose fee is 0 adds nothing to the net flow, though its deposits exceed its withdrawals. */
  lemma ZeroFeeDropped(date: int)
    ensures NetFlowTerm(MpesaEntry("e", date, EndOfDay, None, Some(500.0), Some(200.0), Some(0.0), Some(1300.0), Some(300.0))) == 0.0
  {
  }

  /** An investment created after 00:00 on the last day of last month counts neither as last month's nor as this month's. */
  lemma PriorWindowGap(db: Database, now: Now, inv: Investment)
    requires WindowsOf(now).lastMonthEnd < inv.createdAt < WindowsOf(now).thisMonth
    ensures var db' := db.(investments := db.investments + [inv]);
            MetricsOf(db', now).monthlyProfitShare == MetricsOf(db, now).monthlyProfitShare &&
            MetricsOf(db', now).monthlyProfitShareChange == MetricsOf(db, now).monthlyProfitShareChange &&
            MetricsOf(db', now).totalInvestmentsChange == PositiveBaselineChange(MetricsOf(db', now).totalInvestments, Sum(Filter(db.investments, CreatedIn(WindowsOf(now).lastMonth, WindowsOf(now).lastMonthEnd)), Capital))
  {
    var w := WindowsOf(now);
    var prior := CreatedIn(w.lastMonth, w.lastMonthEnd);
    var current := CreatedFrom(w.thisMonth);
    FilterAppend(db.investments, [inv], prior);
    FilterAppend(db.investments, [inv], current);
    assert Filter([inv], prior) == [] + Filter([], prior);
    assert Filter([inv], current) == [] + Filter([], current);
    assert Filter(db.investments, prior) + [] == Filter(db.investments, prior);
    assert Filter(db.investments, current) + [] == Filter(db.investments, current);
  }

  /** The metrics depend on the rows of each table, not on the order the database returns them in. */
  lemma MetricsIgnoreOrder(db: Database, db': Database, now: Now)
    requires multiset(db.investments) == multiset(db'.investments)
    requires multiset(db.inventoryItems) == multiset(db'.inventoryItems)
    requires multiset(db.mpesaEntries) == multiset(db'.mpesaEntries)
    ensures MetricsOf(db, now) == MetricsOf(db', now)
  {
    var db1 := db.(investments := db'.investments);
    var db2 := db1.(inventoryItems := db'.inventoryItems);
    InvestmentsIgnoreOrder(db, db'.investments, now);
    ItemsIgnoreOrder(db1, db'.inventoryItems, now);
    MpesaIgnoreOrder(db2, db'.mpesaEntries, now);
    assert db2.(mpesaEntries := db'.mpesaEntries) == db'.(expenses := db.expenses, adjustments := db.adjustments);
    OtherTablesUnused(db', db.expenses, db.adjustments, now);
  }

  /** Reordering the investments leaves the metrics as they are. */
  lemma InvestmentsIgnoreOrder(db: Database, t: seq<Investment>, now: Now)
    requires multiset(db.investments) == multiset(t)
    ensures MetricsOf(db.(investments := t), now) == MetricsOf(db, now)
  {
    var w := WindowsOf(now);
    FilterSumPermutation(db.investments, t, IsActive, Capital);
    FilterSumPermutation(db.investments, t, CreatedIn(w.lastMonth, w.lastMonthEnd), Capital);
    FilterSumPermutation(db.investments, t, CreatedIn(w.lastMonth, w.lastMonthEnd), ProfitShareOf);
    FilterSumPermutation(db.investments, t, CreatedFrom(w.thisMonth), ProfitShareOf);
  }

  /** Reordering the inventory items leaves the metrics as they are. */
  lemma ItemsIgnoreOrder(db: Database, t: seq<InventoryItem>, now: Now)
    requires multiset(db.inventoryItems) == multiset(t)
    ensures MetricsOf(db.(inventoryItems := t), now) == MetricsOf(db, now)
  {
    CountPermutation(db.inventoryItems, t, IsLow);
  }

  /** Reordering the M-Pesa entries leaves the metrics as they are. */
  lemma MpesaIgnoreOrder(db: Database, t: seq<MpesaEntry>, now: Now)
    requires multiset(db.mpesaEntries) == multiset(t)
    ensures MetricsOf(db.(mpesaEntries := t), now) == MetricsOf(db, now)
  {
    FlowsIgnoreOrder(db.mpesaEntries, t, WindowsOf(now));
    SameFlowsSameMetrics(db, t, now);
  }

  /** Today's and yesterday's net flows do not depend on the order of the entries. */
  lemma FlowsIgnoreOrder(s: seq<MpesaEntry>, t: seq<MpesaEntry>, w: Windows)
    requires multiset(s) == multiset(t)
    ensures Sum(Filter(s, EndOfDayIn(w.today, w.today + DayMs)), NetFlowTerm) == Sum(Filter(t, EndOfDayIn(w.today, w.today + DayMs)), NetFlowTerm)
    ensures Sum(Filter(s, EndOfDayIn(w.yesterday, w.today)), NetFlowTerm) == Sum(Filter(t, EndOfDayIn(w.yesterday, w.today)), NetFlowTerm)
  {
    FilterSumPermutation(s, t, EndOfDayIn(w.today, w.today + DayMs), NetFlowTerm);
    FilterSumPermutation(s, t, EndOfDayIn(w.yesterday, w.today), NetFlowTerm);
  }

  /** Entries with the same net flows today and yesterday give the same metrics. */
  lemma SameFlowsSameMetrics(db: Database, t: seq<MpesaEntry>, now: Now)
    requires var w := WindowsOf(now);
             Sum(Filter(db.mpesaEntries, EndOfDayIn(w.today, w.today + DayMs)), NetFlowTerm) == Sum(Filter(t, EndOfDayIn(w.today, w.today + DayMs)), NetFlowTerm) &&
             Sum(Filter(db.mpesaEntries, EndOfDayIn(w.yesterday, w.today)), NetFlowTerm) == Sum(Filter(t, EndOfDayIn(w.yesterday, w.today)), NetFlowTerm)
    ensures MetricsOf(db.(mpesaEntries := t), now) == MetricsOf(db, now)
  {
  }

  /** The metric block reads neither the expenses nor the adjustments. */
  lemma OtherTablesUnused(db: Database, expenses: seq<Expense>, adjustments: seq<Adjustment>, now: Now)
    ensures MetricsOf(db.(expenses := expenses, adjustments := adjustments), now) == MetricsOf(db, now)
  {
  }

  /** Two end_of_day entries today, (1000, 400, 50) and (500, 100, 10), give a net flow of 940. */
  lemma TwoEntriesToday(now: Now)
    ensures var today := WindowsOf(now).today;
            var db := Database([], [], [MpesaEntry("a", today, EndOfDay, None, Some(1000.0), Some(400.0), Some(50.0), None, None),
                                        MpesaEntry("b", today, EndOfDay, None, Some(500.0), Some(100.0), Some(10.0), None, None)], [], []);
            MetricsOf(db, now).todayMpesaNetFlow == 940.0
  {
    var today := WindowsOf(now).today;
    var a := MpesaEntry("a", today, EndOfDay, None, Some(1000.0), Some(400.0), Some(50.0), None, None);
    var b := MpesaEntry("b", today, EndOfDay, None, Some(500.0), Some(100.0), Some(10.0), None, None);
    var empty := Database([], [], [], [], []);
    assert MetricsOf(empty, now).todayMpesaNetFlow == 0.0;
    NetFlowOneMore(empty, now, a);
    assert empty.(mpesaEntries := [] + [a]) == empty.(mpesaEntries := [a]);
    NetFlowOneMore(empty.(mpesaEntries := [a]), now, b);
    assert empty.(mpesaEntries := [a] + [b]) == empty.(mpesaEntries := [a, b]);
    assert NetFlowTerm(a) == 550.0 && NetFlowTerm(b) == 390.0;
  }

  /** One active investment of 200000 with profit 45000 at share 0.3, created now: total 200000, profit share 13500, both changes 0. */
  lemma OneInvestmentThisMonth(now: Now)
    requires now.Valid()
    ensures var db := Database([Investment("i", "Investor", now.Time(), 200000.0, 45000.0, 0.3, true, now.Time())], [], [], [], []);
            var m := MetricsOf(db, now);
            m.totalInvestments == 200000.0 && m.totalInvestmentsChange == 0.0 &&
            m.monthlyProfitShare == 13500.0 && m.monthlyProfitShareChange == 0.0
  {
    NowWithin(now);
    var w := WindowsOf(now);
    var inv := Investment("i", "Investor", now.Time(), 200000.0, 45000.0, 0.3, true, now.Time());
    assert Filter([inv], CreatedIn(w.lastMonth, w.lastMonthEnd)) == [] + Filter([], CreatedIn(w.lastMonth, w.lastMonthEnd));
    assert Filter([inv], CreatedFrom(w.thisMonth)) == [inv] + Filter([], CreatedFrom(w.thisMonth));
    assert Filter([inv], IsActive) == [inv] + Filter([], IsActive);
  }

  /** Empty tables give an all-zero dashboard: every metric is 0 and every chart point is 0. */
  lemma EmptyAllZero(now: Now)
    ensures MetricsOf(Database([], [], [], [], []), now) == Metrics(0.0, 0.0, 0, 0.0, 0.0, 0.0, 0.0, 0.0)
    ensures var e := EarningsSeries(Database([], [], [], [], []), now);
            |e| == 6 && forall i :: 0 <= i < 6 ==> e[i].earnings == 0.0 && e[i].expenses == 0.0
    ensures var m := MpesaSeries(Database([], [], [], [], []), now);
            |m| == 7 && forall k :: 0 <= k < 7 ==> m[k].deposits == 0.0 && m[k].withdrawals == 0.0
  {
  }

  /** An item with stock 2 and threshold 5 is low; one with stock 10 and threshold 5 is not. */
  lemma LowStockScenario(now: Now)
    ensures MetricsOf(Database([], [InventoryItem("a", "Soap", 1.0, 2, 5), InventoryItem("b", "Salt", 1.0, 10, 5)], [], [], []), now).lowStockItems == 1
  {
    var a := InventoryItem("a", "Soap", 1.0, 2, 5);
    var b := InventoryItem("b", "Salt", 1.0, 10, 5);
    assert [a, b][1..] == [b];
    assert Filter([a, b], IsLow) == [a] + Filter([b], IsLow);
    assert Filter([b], IsLow) == [] + Filter([], IsLow);
  }

  // ---------------------------------------------------------------------------
  // Six-month earnings series

  /** Line 178 as written: `months[monthIndex]`, undefined when the index is outside 0..11. */
  function MonthLabelAsWritten(monthIndex: int): (r: Option<string>)
    ensures r.Some? <==> 0 <= monthIndex < 12
  {
    if 0 <= monthIndex < 12 then Some(MonthNames[monthIndex]) else None
  }

  /** The intended label: the name of the calendar month whose window the point covers. */
  function MonthLabel(monthIndex: int): (r: string)
    ensures 0 <= monthIndex < 12 ==> MonthLabelAsWritten(monthIndex) == Some(r)
    ensures r == MonthNames[(monthIndex + 12) % 12]
  {
    MonthNames[monthIndex % 12]
  }

  /** In January the oldest point (August of last year) has no label as written. */
  lemma MonthLabelMissingInJanuary(now: Now)
    requires now.month == 0
    ensures MonthLabelAsWritten(now.month - 5 + 0) == None
    ensures MonthLabel(now.month - 5 + 0) == "Aug"
  {
  }

  /** Every point has a label as written exactly from June on. */
  lemma MonthLabelsAsWritten(now: Now)
    requires now.Valid()
    ensures (forall monthIndex :: now.month - 5 <= monthIndex <= now.month ==> MonthLabelAsWritten(monthIndex).Some?) <==> now.month >= 5
  {
    if now.month < 5 {
      assert MonthLabelAsWritten(now.month - 5).None?;
    }
  }

  /** Point `i` (0 oldest, 5 current) covers month number current − 5 + i, from its 1st up to 00:00 of its last day. */
  function EarningsPointAt(db: Database, now: Now, i: int): EarningsPoint {
    var n := now.MonthNumber() - 5 + i;
    var lo := MonthStart(n);
    var hi := MonthLastMidnight(n);
    EarningsPoint(
      MonthNames[n % 12],
      Sum(Filter(db.investments, CreatedIn(lo, hi)), CurrentProfit),
      Sum(Filter(db.expenses, DatedIn(lo, hi)), Amount))
  }

  function EarningsSeries(db: Database, now: Now): seq<EarningsPoint> {
    seq(6, i requires 0 <= i < 6 => EarningsPointAt(db, now, i))
  }

  /** One turn of the loop of lines 176-212 computes point `i`. */
  lemma EarningsStep(db: Database, now: Now, i: int, point: EarningsPoint)
    requires var monthIndex := now.month - 5 + i;
             var monthStart := DateOf(now.year, monthIndex, 1);
             var monthEnd := DateOf(now.year, monthIndex + 1, 0);
             point == EarningsPoint(
               MonthLabel(monthIndex),
               Sum(Filter(db.investments, CreatedIn(monthStart, monthEnd)), CurrentProfit),
               OrZero(AggregateSum(Filter(db.expenses, DatedIn(monthStart, monthEnd)), Amount)))
    ensures point == EarningsPointAt(db, now, i)
  {
    var monthIndex := now.month - 5 + i;
    var n := now.MonthNumber() - 5 + i;
    assert n == 12 * now.year + monthIndex;
    LoopWindow(now.year, monthIndex);
    var monthStart, lo := DateOf(now.year, monthIndex, 1), MonthStart(n);
    var monthEnd, hi := DateOf(now.year, monthIndex + 1, 0), MonthLastMidnight(n);
    assert monthStart == lo && monthEnd == hi;
  }

  /** The loop's `new Date` bounds and label for a month index that may be outside 0..11 name month number 12 * year + monthIndex. */
  lemma LoopWindow(year: int, monthIndex: int)
    ensures DateOf(year, monthIndex, 1) == MonthStart(12 * year + monthIndex)
    ensures DateOf(year, monthIndex + 1, 0) == MonthLastMidnight(12 * year + monthIndex)
    ensures MonthLabel(monthIndex) == MonthNames[(12 * year + monthIndex) % 12]
  {
    TwelveMonthShift(year, monthIndex);
  }

  /** Whole years do not change the month of the year. */
  lemma TwelveMonthShift(year: int, monthIndex: int)
    ensures (12 * year + monthIndex) % 12 == monthIndex % 12
  {
  }

  /** Lines 176-212: one point per month, oldest first, each from two reads bounded by `new Date(y, m, 1)` and `new Date(y, m + 1, 0)`. */
  method GenerateEarningsChartData(db: Database, now: Now) returns (earningsData: seq<EarningsPoint>)
    ensures |earningsData| == 6
    ensures earningsData == EarningsSeries(db, now)
  {
    earningsData := [];
    for i := 0 to 6
      invariant |earningsData| == i
      invariant forall k :: 0 <= k < i ==> earningsData[k] == EarningsPointAt(db, now, k)
    {
      var monthIndex := now.month - 5 + i;
      var month := MonthLabel(monthIndex);
      var monthStart := DateOf(now.year, monthIndex, 1);
      var monthEnd := DateOf(now.year, monthIndex + 1, 0);
      var investments := Filter(db.investments, CreatedIn(monthStart, monthEnd));
      var earnings := Sum(investments, CurrentProfit);
      var expenses := AggregateSum(Filter(db.expenses, DatedIn(monthStart, monthEnd)), Amount);
      var point := EarningsPoint(month, earnings, OrZero(expenses));
      EarningsStep(db, now, i, point);
      EarningsPointsExtend(db, now, earningsData, point);
      earningsData := earningsData + [point];
    }
    EarningsSeriesIs(db, now, earningsData);
  }

  /** Appending the next point keeps every point `k` in place. */
  lemma EarningsPointsExtend(db: Database, now: Now, points: seq<EarningsPoint>, point: EarningsPoint)
    requires forall k :: 0 <= k < |points| ==> points[k] == EarningsPointAt(db, now, k)
    requires point == EarningsPointAt(db, now, |points|)
    ensures forall k :: 0 <= k < |points| + 1 ==> (points + [point])[k] == EarningsPointAt(db, now, k)
  {
  }

  /** Six points that are each point `k` make the series. */
  lemma EarningsSeriesIs(db: Database, now: Now, points: seq<EarningsPoint>)
    requires |points| == 6 && forall k :: 0 <= k < 6 ==> points[k] == EarningsPointAt(db, now, k)
    ensures points == EarningsSeries(db, now)
  {
  }

  /** The series runs month after month: each window starts the day after the previous one's last day. */
  lemma EarningsWindowsConsecutive(now: Now, i: int)
    requires 0 <= i < 5
    ensures MonthLastMidnight(now.MonthNumber() - 5 + i) + DayMs == MonthStart(now.MonthNumber() - 5 + i + 1)
  {
  }

  /** The last point is the current month, and the one before it uses the same window as the metrics' previous month. */
  lemma EarningsLastPoints(db: Database, now: Now)
    ensures EarningsSeries(db, now)[5].month == MonthNames[now.month % 12]
    ensures MonthStart(now.MonthNumber() - 5 + 5) == WindowsOf(now).thisMonth
    ensures MonthStart(now.MonthNumber() - 5 + 4) == WindowsOf(now).lastMonth
    ensures MonthLastMidnight(now.MonthNumber() - 5 + 4) == WindowsOf(now).lastMonthEnd
  {
    assert now.MonthNumber() % 12 == now.month % 12;
  }

  /** Month starts grow with the month number. */
  lemma {:induction false} MonthStartMonotone(a: int, b: int)
    requires a <= b
    ensures MonthStart(a) <= MonthStart(b)
    decreases b - a
  {
    if a < b {
      MonthStartStep(a);
      MonthStartMonotone(a + 1, b);
    }
  }

  /** A record stamped after 00:00 on the last day of a month falls into no point of the series. */
  lemma EarningsGap(now: Now, n: int, t: int, j: int)
    requires MonthLastMidnight(n) < t < MonthStart(n + 1)
    ensures !(MonthStart(now.MonthNumber() - 5 + j) <= t <= MonthLastMidnight(now.MonthNumber() - 5 + j))
  {
    var m := now.MonthNumber() - 5 + j;
    if m <= n {
      MonthStartMonotone(m + 1, n + 1);
    } else {
      MonthStartMonotone(n + 1, m);
    }
  }

  // ---------------------------------------------------------------------------
  // Seven-day M-Pesa series

  /** Line 242: `days[getDay() === 0 ? 6 : getDay() - 1]`, the week starting on Monday. */
  function DayLabel(weekDay: int): (r: string)
    requires 0 <= weekDay < 7
    ensures r == DayNames[(weekDay + 6) % 7]
  {
    DayNames[if weekDay == 0 then 6 else weekDay - 1]
  }

  /** Days from 1970-01-01 to today. */
  function TodayNumber(now: Now): int {
    MonthStartDay(now.MonthNumber()) + now.day - 1
  }

  /** Point `k` (0 oldest, 6 today) covers the whole local day today − 6 + k. */
  function MpesaPointAt(db: Database, now: Now, k: int): MpesaPoint {
    var d := TodayNumber(now) - 6 + k;
    MpesaPoint(DayLabel((d + 4) % 7), DayDeposits(db.mpesaEntries, d), DayWithdrawals(db.mpesaEntries, d))
  }

  /** The deposits of the end_of_day entries of day number `d`, null counting as 0. */
  function DayDeposits(entries: seq<MpesaEntry>, d: int): real {
    Sum(Filter(entries, EndOfDayIn(d * DayMs, (d + 1) * DayMs)), DepositsOrZero)
  }

  /** The withdrawals of the end_of_day entries of day number `d`, null counting as 0. */
  function DayWithdrawals(entries: seq<MpesaEntry>, d: int): real {
    Sum(Filter(entries, EndOfDayIn(d * DayMs, (d + 1) * DayMs)), WithdrawalsOrZero)
  }

  function MpesaSeries(db: Database, now: Now): seq<MpesaPoint> {
    seq(7, k requires 0 <= k < 7 => MpesaPointAt(db, now, k))
  }

  lemma MpesaSeriesAt(db: Database, now: Now, k: int)
    requires 0 <= k < 7
    ensures |MpesaSeries(db, now)| == 7 && MpesaSeries(db, now)[k] == MpesaPointAt(db, now, k)
  {
  }

  /** Shifting a time by whole days shifts its day number by as many. */
  lemma DayShift(t: int, i: int)
    ensures (t - i * DayMs) / DayMs == t / DayMs - i
  {
  }

  /** Lines 222-246: for i = 6 down to 0, the day i days before now, from its midnight for 24 hours. */
  method GenerateMpesaChartData(db: Database, now: Now) returns (mpesaData: seq<MpesaPoint>)
    requires now.Valid()
    ensures |mpesaData| == 7
    ensures mpesaData == MpesaSeries(db, now)
  {
    NowWithin(now);
    mpesaData := [];
    var i := 6;
    while i >= 0
      invariant -1 <= i <= 6
      invariant |mpesaData| == 6 - i
      invariant forall k :: 0 <= k < 6 - i ==> mpesaData[k] == MpesaPointAt(db, now, k)
    {
      var date := now.Time() - i * DayMs;
      var dayStart := DayStart(date);
      var dayEnd := dayStart + DayMs;
      var entries := Filter(db.mpesaEntries, EndOfDayIn(dayStart, dayEnd));
      var deposits := Sum(entries, DepositsOrZero);
      var withdrawals := Sum(entries, WithdrawalsOrZero);
      var point := MpesaPoint(DayLabel(WeekDay(date)), deposits, withdrawals);
      MpesaStep(db, now, i, date, entries, point);
      MpesaPointsExtend(db, now, mpesaData, point);
      mpesaData := mpesaData + [point];
      i := i - 1;
    }
    MpesaSeriesIs(db, now, mpesaData);
  }

  /** Appending the next point keeps every point `k` in place. */
  lemma MpesaPointsExtend(db: Database, now: Now, points: seq<MpesaPoint>, point: MpesaPoint)
    requires forall k :: 0 <= k < |points| ==> points[k] == MpesaPointAt(db, now, k)
    requires point == MpesaPointAt(db, now, |points|)
    ensures forall k :: 0 <= k < |points| + 1 ==> (points + [point])[k] == MpesaPointAt(db, now, k)
  {
  }

  /** Seven points that are each point `k` make the series. */
  lemma MpesaSeriesIs(db: Database, now: Now, points: seq<MpesaPoint>)
    requires |points| == 7 && forall k :: 0 <= k < 7 ==> points[k] == MpesaPointAt(db, now, k)
    ensures points == MpesaSeries(db, now)
  {
  }

  /** One turn of the loop of lines 222-246 computes point 6 − i. */
  lemma MpesaStep(db: Database, now: Now, i: int, date: int, entries: seq<MpesaEntry>, point: MpesaPoint)
    requires now.Valid()
    requires date == now.Time() - i * DayMs
    requires entries == Filter(db.mpesaEntries, EndOfDayIn(DayStart(date), DayStart(date) + DayMs))
    requires point == MpesaPoint(DayLabel(WeekDay(date)), Sum(entries, DepositsOrZero), Sum(entries, WithdrawalsOrZero))
    ensures point == MpesaPointAt(db, now, 6 - i)
  {
    DaysBefore(now, i);
    MpesaPointBefore(db, now, i);
  }

  /** Point 6 − i is the point of day number today − i. */
  lemma MpesaPointBefore(db: Database, now: Now, i: int)
    ensures var d := TodayNumber(now) - i;
            MpesaPointAt(db, now, 6 - i) == MpesaPoint(DayLabel((d + 4) % 7), DayDeposits(db.mpesaEntries, d), DayWithdrawals(db.mpesaEntries, d))
  {
    assert TodayNumber(now) - 6 + (6 - i) == TodayNumber(now) - i;
  }

  /** `i` days before now lies in day number today − i, which starts at its midnight. */
  lemma DaysBefore(now: Now, i: int)
    requires now.Valid()
    ensures (now.Time() - i * DayMs) / DayMs == TodayNumber(now) - i
    ensures DayStart(now.Time() - i * DayMs) == (TodayNumber(now) - i) * DayMs
    ensures DayStart(now.Time() - i * DayMs) + DayMs == (TodayNumber(now) - i + 1) * DayMs
  {
    NowWithin(now);
    DayShift(now.Time(), i);
    assert now.Midnight() == TodayNumber(now) * DayMs;
    assert now.Time() / DayMs == TodayNumber(now);
  }

  /** The last two points cover exactly the windows of today's and yesterday's net flow. */
  lemma MpesaLastDays(now: Now)
    requires now.Valid()
    ensures TodayNumber(now) * DayMs == WindowsOf(now).today
    ensures (TodayNumber(now) - 1) * DayMs == WindowsOf(now).yesterday
  {
  }

  /** Different weekdays get different labels. */
  lemma DayLabelInjective(a: int, b: int)
    requires 0 <= a < 7 && 0 <= b < 7 && a != b
    ensures DayLabel(a) != DayLabel(b)
  {
  }

  /** Fewer than seven days apart means a different weekday. */
  lemma WeekDaysDiffer(x: int, j: int, k: int)
    requires 0 <= j < k < 7
    ensures (x + j) % 7 != (x + k) % 7
  {
    var a := (x + j) / 7;
    var b := (x + k) / 7;
    assert x + j == 7 * a + (x + j) % 7;
    assert x + k == 7 * b + (x + k) % 7;
  }

  /** The seven labels are seven different weekdays, and the last one is today's. */
  lemma MpesaLabelsDistinct(db: Database, now: Now)
    ensures forall j, k :: 0 <= j < k < 7 ==> MpesaSeries(db, now)[j].day != MpesaSeries(db, now)[k].day
    ensures MpesaSeries(db, now)[6].day == DayLabel(WeekDay(WindowsOf(now).today))
  {
    forall j, k | 0 <= j < k < 7 ensures MpesaSeries(db, now)[j].day != MpesaSeries(db, now)[k].day {
      MpesaDaysDiffer(db, now, j, k);
    }
    MpesaLastLabel(db, now);
  }

  /** Two points of the week carry different labels. */
  lemma MpesaDaysDiffer(db: Database, now: Now, j: int, k: int)
    requires 0 <= j < k < 7
    ensures MpesaSeries(db, now)[j].day != MpesaSeries(db, now)[k].day
  {
    MpesaSeriesAt(db, now, j);
    MpesaSeriesAt(db, now, k);
    var x := TodayNumber(now) - 6 + 4;
    assert TodayNumber(now) - 6 + j + 4 == x + j && TodayNumber(now) - 6 + k + 4 == x + k;
    WeekDaysDiffer(x, j, k);
    DayLabelInjective((x + j) % 7, (x + k) % 7);
  }

  /** The last point is labelled with today's weekday. */
  lemma MpesaLastLabel(db: Database, now: Now)
    ensures MpesaSeries(db, now)[6].day == DayLabel(WeekDay(WindowsOf(now).today))
  {
    MpesaSeriesAt(db, now, 6);
    var today := TodayNumber(now);
    assert WindowsOf(now).today == today * DayMs;
    assert WindowsOf(now).today / DayMs == today;
    assert today - 6 + 6 == today;
  }

  /** End_of_day sums over adjacent windows add up. */
  lemma WindowSplit(entries: seq<MpesaEntry>, lo: int, mid: int, hi: int, f: MpesaEntry -> real)
    requires lo <= mid <= hi
    ensures Sum(Filter(entries, EndOfDayIn(lo, hi)), f) ==
            Sum(Filter(entries, EndOfDayIn(lo, mid)), f) + Sum(Filter(entries, EndOfDayIn(mid, hi)), f)
  {
    SumDisjoint(entries, EndOfDayIn(lo, mid), EndOfDayIn(mid, hi), EndOfDayIn(lo, hi), f);
  }

  /** Whole days scale to milliseconds monotonically. */
  lemma DaysToMs(a: int, b: int)
    requires a <= b
    ensures a * DayMs <= b * DayMs
  {
  }

  /** The per-day deposits of `count` days from day `d0`, added up. */
  function DepositsOver(entries: seq<MpesaEntry>, d0: int, count: nat): real {
    if count == 0 then 0.0 else DepositsOver(entries, d0, count - 1) + DayDeposits(entries, d0 + count - 1)
  }

  /** Adding up the days gives the deposits of the whole span. */
  lemma {:induction false} DepositsOverSpan(entries: seq<MpesaEntry>, d0: int, count: nat)
    ensures DepositsOver(entries, d0, count) == Sum(Filter(entries, EndOfDayIn(d0 * DayMs, (d0 + count) * DayMs)), DepositsOrZero)
  {
    if count == 0 {
      FilterNone(entries, EndOfDayIn(d0 * DayMs, d0 * DayMs));
    } else {
      DepositsOverSpan(entries, d0, count - 1);
      DaysToMs(d0, d0 + count - 1);
      DaysToMs(d0 + count - 1, d0 + count);
      assert d0 + count - 1 + 1 == d0 + count;
      WindowSplit(entries, d0 * DayMs, (d0 + count - 1) * DayMs, (d0 + count) * DayMs, DepositsOrZero);
    }
  }

  /** The deposits shown across the points of a chart. */
  function PointDeposits(points: seq<MpesaPoint>): real {
    if points == [] then 0.0 else PointDeposits(points[..|points| - 1]) + points[|points| - 1].deposits
  }

  /** Points that each show one day's deposits, from day `d0` on, add up to those days' deposits. */
  lemma {:induction false} PointDepositsDays(points: seq<MpesaPoint>, entries: seq<MpesaEntry>, d0: int)
    requires forall k :: 0 <= k < |points| ==> points[k].deposits == DayDeposits(entries, d0 + k)
    ensures PointDeposits(points) == DepositsOver(entries, d0, |points|)
  {
    if points != [] {
      var init := points[..|points| - 1];
      forall k | 0 <= k < |init| ensures init[k].deposits == DayDeposits(entries, d0 + k) {
        assert init[k] == points[k];
      }
      PointDepositsDays(init, entries, d0);
    }
  }

  /** The chart's week of deposits is the deposits of all end_of_day entries in the seven days, null counting as 0. */
  lemma MpesaWeekDeposits(db: Database, now: Now)
    ensures PointDeposits(MpesaSeries(db, now)) ==
            Sum(Filter(db.mpesaEntries, EndOfDayIn((TodayNumber(now) - 6) * DayMs, (TodayNumber(now) + 1) * DayMs)), DepositsOrZero)
  {
    var s := MpesaSeries(db, now);
    var d0 := TodayNumber(now) - 6;
    forall k | 0 <= k < |s| ensures s[k].deposits == DayDeposits(db.mpesaEntries, d0 + k) {
      MpesaSeriesAt(db, now, k);
    }
    PointDepositsDays(s, db.mpesaEntries, d0);
    DepositsOverSpan(db.mpesaEntries, d0, 7);
    assert d0 + 7 == TodayNumber(now) + 1;
  }

  /** A zero-fee entry still shows in the chart: its deposits count there although its net flow term is 0. */
  lemma ZeroFeeShownInChart(now: Now)
    ensures var today := TodayNumber(now) * DayMs;
            var e := MpesaEntry("e", today, EndOfDay, None, Some(500.0), Some(200.0), Some(0.0), None, None);
            var db := Database([], [], [e], [], []);
            MpesaSeries(db, now)[6].deposits == 500.0 && NetFlowTerm(e) == 0.0
  {
    var today := TodayNumber(now) * DayMs;
    var e := MpesaEntry("e", today, EndOfDay, None, Some(500.0), Some(200.0), Some(0.0), None, None);
    var d := TodayNumber(now) - 6 + 6;
    assert d * DayMs == today && (d + 1) * DayMs == today + DayMs;
    assert Filter([e], EndOfDayIn(today, today + DayMs)) == [e] + Filter([], EndOfDayIn(today, today + DayMs));
    assert Sum([e], DepositsOrZero) == 500.0;
  }

  // ---------------------------------------------------------------------------
  // The handler

  function DashboardOf(db: Database, now: Now): DashboardData {
    DashboardData(MetricsOf(db, now), Charts(EarningsSeries(db, now), MpesaSeries(db, now)))
  }

  /**
   * GET: 401 without a session; 500 "Internal server error" when a read
   * throws; otherwise 200 with the metrics and both series.
   */
  method Get(signedIn: bool, readsSucceed: bool, db: Database, now: Now) returns (reply: Reply<DashboardData>)
    requires now.Valid()
    ensures !signedIn ==> reply == Unauthorized()
    ensures signedIn && !readsSucceed ==> reply == InternalError()
    ensures signedIn && readsSucceed ==> reply == Success(200, DashboardOf(db, now))
    ensures reply.Success? ==> |reply.body.charts.earningsData| == 6 && |reply.body.charts.mpesaData| == 7
  {
    if !signedIn {
      return Unauthorized();
    }
    if !readsSucceed {
      return InternalError();
    }
    var metrics := MetricsOf(db, now);
    var earningsData := GenerateEarningsChartData(db, now);
    var mpesaData := GenerateMpesaChartData(db, now);
    reply := Success(200, DashboardData(metrics, Charts(earningsData, mpesaData)));
  }
}
