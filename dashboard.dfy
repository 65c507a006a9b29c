/**
  The dashboard slice (lib/features/dashboard/dashboardSlice.ts): the four
  headline metrics, the chart series, the top products, the revenue split by
  location, and the loading, error and last-updated fields. The clock read by
  the fulfilled phases is passed in as `now`.
*/
module DashboardSlice {
  import opened Common
  import opened ApiTypes

  /** A `Partial<DashboardMetrics>`: `None` is a key the payload leaves out. */
  datatype MetricsPatch = MetricsPatch(
    customers: Option<real>, orders: Option<real>, revenue: Option<real>, growth: Option<real>)

  function Pick(patch: Option<real>, old_: real): real {
    if patch.Some? then patch.value else old_
  }

  /** `{ ...metrics, ...patch }`: the keys the patch has win. */
  function Merged(m: Metrics, p: MetricsPatch): (r: Metrics)
    ensures p.customers.Some? ==> r.customers == p.customers.value
    ensures p.customers.None? ==> r.customers == m.customers
    ensures p.orders.Some? ==> r.orders == p.orders.value
    ensures p.orders.None? ==> r.orders == m.orders
    ensures p.revenue.Some? ==> r.revenue == p.revenue.value
    ensures p.revenue.None? ==> r.revenue == m.revenue
    ensures p.growth.Some? ==> r.growth == p.growth.value
    ensures p.growth.None? ==> r.growth == m.growth
  {
    Metrics(Pick(p.customers, m.customers), Pick(p.orders, m.orders),
            Pick(p.revenue, m.revenue), Pick(p.growth, m.growth))
  }

  /** Two patches applied one after the other, as one patch: the later one's keys win. */
  function Then(p: MetricsPatch, q: MetricsPatch): MetricsPatch {
    MetricsPatch(
      if q.customers.Some? then q.customers else p.customers,
      if q.orders.Some? then q.orders else p.orders,
      if q.revenue.Some? then q.revenue else p.revenue,
      if q.growth.Some? then q.growth else p.growth)
  }

  /** An empty patch changes nothing, a patch holding every key replaces the
      metrics, applying a patch twice is applying it once, and two patches in
      a row act as their combination. */
  lemma MergedLaws(m: Metrics, n: Metrics, p: MetricsPatch, q: MetricsPatch)
    ensures Merged(m, MetricsPatch(None, None, None, None)) == m
    ensures Merged(m, MetricsPatch(Some(n.customers), Some(n.orders), Some(n.revenue), Some(n.growth))) == n
    ensures Merged(Merged(m, p), p) == Merged(m, p)
    ensures Merged(Merged(m, p), q) == Merged(m, Then(p, q))
  {
  }

  /** The data the store starts with: six months of chart data, five top
      products, none of which has a price, and four locations. */
  function InitialData(): (r: DashboardData)
    ensures |r.chartData| == 6 && |r.topProducts| == 5 && |r.revenueByLocation| == 4
    ensures forall p :: p in r.topProducts ==> p.price.None?
  {
    DashboardData(
      Metrics(3781.0, 1219.0, 695.0, 30.1),
      [ ChartPoint("Jan", 400.0, 380.0), ChartPoint("Feb", 450.0, 420.0),
        ChartPoint("Mar", 500.0, 480.0), ChartPoint("Apr", 550.0, 520.0),
        ChartPoint("May", 600.0, 580.0), ChartPoint("Jun", 650.0, 620.0) ],
      [ ProductSales("1", "ASUS Rolex-high Wrist", 82.0, 3158.18, None),
        ProductSales("2", "Marco Lightweight Shirt", 37.0, 2745.95, None),
        ProductSales("3", "Half Sleeve Shirt", 64.0, 2155.48, None),
        ProductSales("4", "Lightweight Jacket", 184.0, 1480.0, None),
        ProductSales("5", "Marco Shoes", 64.0, 1768.57, None) ],
      [ LocationRevenue("New York", 40.0), LocationRevenue("San Francisco", 30.0),
        LocationRevenue("Sydney", 20.0), LocationRevenue("Singapore", 10.0) ])
  }

  class State {
    var metrics: Metrics
    var chartData: seq<ChartPoint>
    var topProducts: seq<ProductSales>
    var revenueByLocation: seq<LocationRevenue>
    var isLoading: bool
    var error: Option<string>
    var lastUpdated: Option<string>

    constructor()
      ensures metrics == InitialData().metrics
      ensures chartData == InitialData().chartData
      ensures topProducts == InitialData().topProducts
      ensures revenueByLocation == InitialData().revenueByLocation
      ensures !isLoading && error == None && lastUpdated == None
    {
      var d := InitialData();
      metrics := d.metrics;
      chartData := d.chartData;
      topProducts := d.topProducts;
      revenueByLocation := d.revenueByLocation;
      isLoading := false;
      error := None;
      lastUpdated := None;
    }

    method SetLoading(loading: bool)
      modifies this`isLoading
      ensures isLoading == loading
    {
      isLoading := loading;
    }

    /** `updateMetrics`: the payload's keys overwrite, the others stay. */
    method UpdateMetrics(p: MetricsPatch)
      modifies this`metrics
      ensures metrics == Merged(old(metrics), p)
    {
      metrics := Merged(metrics, p);
    }

    method ClearError()
      modifies this`error
      ensures error == None
    {
      error := None;
    }

    /** `fetchDashboardData`, `fetchMetrics` and `refreshMetrics` pending:
        loading starts and the error is cleared; no data field changes. */
    method Pending()
      modifies this`isLoading, this`error
      ensures isLoading && error == None
    {
      isLoading := true;
      error := None;
    }

    /** `fetchDashboardData` fulfilled: the four data fields are replaced and
        the update time recorded. */
    method DataFulfilled(d: DashboardData, now: string)
      modifies this`isLoading, this`metrics, this`chartData, this`topProducts,
        this`revenueByLocation, this`lastUpdated
      ensures !isLoading
      ensures metrics == d.metrics && chartData == d.chartData
      ensures topProducts == d.topProducts && revenueByLocation == d.revenueByLocation
      ensures lastUpdated == Some(now)
    {
      isLoading := false;
      metrics := d.metrics;
      chartData := d.chartData;
      topProducts := d.topProducts;
      revenueByLocation := d.revenueByLocation;
      lastUpdated := Some(now);
    }

    /** `fetchMetrics` and `refreshMetrics` fulfilled: only the metrics and the
        update time change; the chart, products and locations stay. */
    method MetricsFulfilled(m: Metrics, now: string)
      modifies this`isLoading, this`metrics, this`lastUpdated
      ensures !isLoading && metrics == m && lastUpdated == Some(now)
    {
      isLoading := false;
      metrics := m;
      lastUpdated := Some(now);
    }

    /** Every rejected phase: loading stops and the error is recorded; the
        data and `lastUpdated` are kept. */
    method Rejected(message: string)
      modifies this`isLoading, this`error
      ensures !isLoading && error == Some(message)
    {
      isLoading := false;
      error := Some(message);
    }
  }
}
