/**
 * The dashboard hook: the data it hands to the page is the fetched object,
 * or an all-zero fallback with empty series while nothing has arrived.
 */
module UseDashboard {
  import opened Js
  import opened Dashboard
  import Records
  import opened Calendar

  /** Lines 44-59. */
  const Fallback := DashboardData(Metrics(0.0, 0.0, 0, 0.0, 0.0, 0.0, 0.0, 0.0), Charts([], []))

  /** `data || { …zeros… }`. */
  function DataOf(data: Option<DashboardData>): (r: DashboardData)
    ensures data.Some? ==> r == data.value
    ensures data.None? ==> r.charts.earningsData == [] && r.charts.mpesaData == []
    ensures data.None? ==> r.metrics.totalInvestments == 0.0 && r.metrics.totalInvestmentsChange == 0.0
    ensures data.None? ==> r.metrics.lowStockItems == 0 && r.metrics.lowStockItemsChange == 0.0
    ensures data.None? ==> r.metrics.todayMpesaNetFlow == 0.0 && r.metrics.todayMpesaNetFlowChange == 0.0
    ensures data.None? ==> r.metrics.monthlyProfitShare == 0.0 && r.metrics.monthlyProfitShareChange == 0.0
  {
    if data.Some? then data.value else Fallback
  }

  /**
   * The fallback is told apart from any successful (200) server answer by its
   * series: the endpoint always sends six monthly and seven daily points.
   */
  lemma FallbackHasNoSeries(db: Records.Database, now: Now)
    ensures |DataOf(Some(DashboardOf(db, now))).charts.earningsData| == 6
    ensures |DataOf(Some(DashboardOf(db, now))).charts.mpesaData| == 7
    ensures DataOf(None) != DashboardOf(db, now)
  {
    MpesaSeriesAt(db, now, 0);
  }
}
