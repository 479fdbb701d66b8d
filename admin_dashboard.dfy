/**
 * What the admin dashboard derives from its three queries (clients,
 * products, shipments): the loading state, the three stat cards, the
 * per-status bar chart and the recent-shipments table.
 */
module AdminDashboard {
  import opened Common
  import opened Schema
  import Sequences

  /** A fetched list: whether the query is still loading, and its data once some has arrived. */
  datatype Query<T> = Query(isLoading: bool, data: Option<seq<T>>)

  datatype Stats = Stats(totalClients: nat, activeShipments: nat, products: nat)

  /** The bar chart's three values, for the labels Open, In Progress and Completed. */
  datatype ChartData = ChartData(open: nat, inProgress: nat, completed: nat)

  datatype RecentShipments = NoShipmentsFound | RecentTable(rows: seq<Shipment>)

  datatype Page = Spinner | Dashboard(stats: Stats, chart: ChartData, recent: RecentShipments)

  /** At most this many shipments are listed. */
  const RecentLimit := 5

  // ---- An independent count of shipments by status -------------------------

  /** The statuses of the shipments, one per shipment, in order. */
  function Statuses(shipments: seq<Shipment>): seq<ShipmentStatus> {
    seq(|shipments|, i requires 0 <= i < |shipments| => shipments[i].status)
  }

  /** How many of the shipments have status `st`. */
  function StatusCount(shipments: seq<Shipment>, st: ShipmentStatus): nat {
    multiset(Statuses(shipments))[st]
  }

  // ---- The filters the page applies ----------------------------------------

  /** `shipments.filter(s => s.status === st)` */
  function WithStatus(shipments: seq<Shipment>, st: ShipmentStatus): seq<Shipment> {
    Sequences.Filter(shipments, (s: Shipment) => s.status == st)
  }

  /** `shipments.filter(s => s.status !== "COMPLETED")` */
  function NotCompleted(shipments: seq<Shipment>): seq<Shipment> {
    Sequences.Filter(shipments, (s: Shipment) => s.status != COMPLETED)
  }

  /** `xs?.length || 0`: the length, or 0 when the data is absent. */
  function LengthOrZero<T>(xs: Option<seq<T>>): nat {
    if xs.None? then 0 else |xs.value|
  }

  lemma StatusesCons(shipments: seq<Shipment>)
    requires |shipments| > 0
    ensures Statuses(shipments) == [shipments[0].status] + Statuses(shipments[1..])
  {
  }

  /** The filter for one status keeps exactly as many shipments as have that status. */
  lemma {:induction false} WithStatusCounts(shipments: seq<Shipment>, st: ShipmentStatus)
    ensures |WithStatus(shipments, st)| == StatusCount(shipments, st)
  {
    if |shipments| > 0 {
      WithStatusCounts(shipments[1..], st);
      StatusesCons(shipments);
      Sequences.FilterCons(shipments[0], shipments[1..], (s: Shipment) => s.status == st);
      assert [shipments[0]] + shipments[1..] == shipments;
    }
  }

  /** Every shipment has exactly one of the three statuses. */
  lemma {:induction false} StatusFiltersPartition(shipments: seq<Shipment>)
    ensures |WithStatus(shipments, OPEN)| + |WithStatus(shipments, IN_PROGRESS)| + |WithStatus(shipments, COMPLETED)|
         == |shipments|
  {
    if |shipments| > 0 {
      var x, rest := shipments[0], shipments[1..];
      StatusFiltersPartition(rest);
      assert [x] + rest == shipments;
      Sequences.FilterCons(x, rest, (s: Shipment) => s.status == OPEN);
      Sequences.FilterCons(x, rest, (s: Shipment) => s.status == IN_PROGRESS);
      Sequences.FilterCons(x, rest, (s: Shipment) => s.status == COMPLETED);
    }
  }

  /** Not completed means open or in progress. */
  lemma {:induction false} NotCompletedIsOpenOrInProgress(shipments: seq<Shipment>)
    ensures |NotCompleted(shipments)| == |WithStatus(shipments, OPEN)| + |WithStatus(shipments, IN_PROGRESS)|
  {
    if |shipments| > 0 {
      var x, rest := shipments[0], shipments[1..];
      NotCompletedIsOpenOrInProgress(rest);
      assert [x] + rest == shipments;
      Sequences.FilterCons(x, rest, (s: Shipment) => s.status != COMPLETED);
      Sequences.FilterCons(x, rest, (s: Shipment) => s.status == OPEN);
      Sequences.FilterCons(x, rest, (s: Shipment) => s.status == IN_PROGRESS);
    }
  }

  // ---- The page -------------------------------------------------------------

  /** The `stats` cards. */
  function StatsOf(clients: Option<seq<Client>>, shipments: Option<seq<Shipment>>, products: Option<seq<Product>>): (r: Stats)
    ensures r.totalClients == LengthOrZero(clients) && r.products == LengthOrZero(products)
    ensures shipments.None? ==> r.activeShipments == 0
    ensures shipments.Some? ==>
      && r.activeShipments == StatusCount(shipments.value, OPEN) + StatusCount(shipments.value, IN_PROGRESS)
      && r.activeShipments == |shipments.value| - StatusCount(shipments.value, COMPLETED)
  {
    var active := if shipments.None? then 0 else |NotCompleted(shipments.value)|;
    if shipments.Some? then
      var s := shipments.value;
      NotCompletedIsOpenOrInProgress(s);
      StatusFiltersPartition(s);
      WithStatusCounts(s, OPEN);
      WithStatusCounts(s, IN_PROGRESS);
      WithStatusCounts(s, COMPLETED);
      Stats(LengthOrZero(clients), active, LengthOrZero(products))
    else
      Stats(LengthOrZero(clients), active, LengthOrZero(products))
  }

  /** The `chartData` values. */
  function ChartOf(shipments: Option<seq<Shipment>>): (r: ChartData)
    ensures shipments.None? ==> r == ChartData(0, 0, 0)
    ensures shipments.Some? ==>
      && r.open == StatusCount(shipments.value, OPEN)
      && r.inProgress == StatusCount(shipments.value, IN_PROGRESS)
      && r.completed == StatusCount(shipments.value, COMPLETED)
      && r.open + r.inProgress + r.completed == |shipments.value|
  {
    if shipments.None? then ChartData(0, 0, 0)
    else
      var s := shipments.value;
      StatusFiltersPartition(s);
      WithStatusCounts(s, OPEN);
      WithStatusCounts(s, IN_PROGRESS);
      WithStatusCounts(s, COMPLETED);
      ChartData(|WithStatus(s, OPEN)|, |WithStatus(s, IN_PROGRESS)|, |WithStatus(s, COMPLETED)|)
  }

  /** The recent-shipments card: the first five shipments in order, or the "No shipments found" text. */
  function RecentOf(shipments: Option<seq<Shipment>>): (r: RecentShipments)
    ensures r.NoShipmentsFound? <==> shipments.None? || |shipments.value| == 0
    ensures r.RecentTable? ==>
      && |r.rows| == (if |shipments.value| < RecentLimit then |shipments.value| else RecentLimit)
      && forall i :: 0 <= i < |r.rows| ==> r.rows[i] == shipments.value[i]
  {
    if shipments.Some? && |shipments.value| > 0 then RecentTable(Sequences.Prefix(shipments.value, RecentLimit))
    else NoShipmentsFound
  }

  /** The whole page: a spinner while any query loads, otherwise the cards, the chart and the table. */
  function PageOf(clients: Query<Client>, products: Query<Product>, shipments: Query<Shipment>): (p: Page)
    ensures p.Spinner? <==> clients.isLoading || products.isLoading || shipments.isLoading
    ensures p.Dashboard? ==>
      && p.stats == StatsOf(clients.data, shipments.data, products.data)
      && p.chart == ChartOf(shipments.data)
      && p.recent == RecentOf(shipments.data)
  {
    var isLoading := clients.isLoading || products.isLoading || shipments.isLoading;
    if isLoading then Spinner
    else Dashboard(StatsOf(clients.data, shipments.data, products.data), ChartOf(shipments.data), RecentOf(shipments.data))
  }

  /** The active-shipments card and the first two bars of the chart agree. */
  lemma ActiveIsOpenPlusInProgress(shipments: Option<seq<Shipment>>, clients: Option<seq<Client>>, products: Option<seq<Product>>)
    ensures StatsOf(clients, shipments, products).activeShipments == ChartOf(shipments).open + ChartOf(shipments).inProgress
  {
  }
}
