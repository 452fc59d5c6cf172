/** The KPI dashboard: headline figures counted from the backend with fixed
    fallbacks, and the four chart series built from random draws. */
module KpisDashboard {
  import opened Common
  import opened Seqs
  import opened Text

  /** The headline figures; amounts in integer units, the fixed ratios as exact reals. */
  datatype Kpis = Kpis(
    totalClients: int,
    activeProjects: int,
    documentsProcessed: int,
    monthlyRevenue: int,
    aiAccuracy: real,
    costSavings: int,
    processingTime: real,
    customerSatisfaction: real)

  const DefaultClients: int := 42
  const DefaultProjects: int := 18
  const DefaultDocuments: int := 3247
  const DefaultRevenue: int := 145680

  /** The figures shown when nothing could be counted. */
  function DefaultKpis(): (k: Kpis)
    ensures k.totalClients == 42 && k.activeProjects == 18 && k.documentsProcessed == 3247
    ensures k.monthlyRevenue == 145680 && k.costSavings == 89250
    ensures k.aiAccuracy == 98.7 && k.processingTime == 2.3 && k.customerSatisfaction == 96.2
  {
    Kpis(DefaultClients, DefaultProjects, DefaultDocuments, DefaultRevenue, 98.7, 89250, 2.3, 96.2)
  }

  /** The first figures on screen, before anything is loaded. */
  function ZeroKpis(): Kpis {
    Kpis(0, 0, 0, 0, 0.0, 0, 0.0, 0.0)
  }

  /** A row of `financial_records` as read for the revenue; the amount may be null. */
  datatype AmountRow = AmountRow(amount: Option<int>)

  /** `n || fallback` for a number: zero is falsy, so it is replaced. */
  function OrDefault(n: int, fallback: int): (r: int)
    ensures n != 0 ==> r == n
    ensures n == 0 ==> r == fallback
  {
    if n != 0 then n else fallback
  }

  /** `data?.length || fallback`: the row count, or the fallback when `data` is null
      or holds no rows. */
  function CountOr<T>(data: Option<seq<T>>, fallback: int): (r: int)
    ensures data.Some? && data.value != [] ==> r == |data.value|
    ensures data.None? || data.value == [] ==> r == fallback
  {
    match data
    case None => fallback
    case Some(rows) => OrDefault(|rows|, fallback)
  }

  /** `record.amount || 0`. */
  function AmountOf(row: AmountRow): int {
    row.amount.GetOr(0)
  }

  /** `data?.reduce((sum, r) => sum + (r.amount || 0), 0) || 0`: a null amount counts as
      zero, and null data gives zero. */
  function TotalRevenue(data: Option<seq<AmountRow>>): (total: int)
    ensures data.None? ==> total == 0
    ensures data.Some? ==> total == SumBy(data.value, AmountOf)
  {
    match data
    case None => 0
    case Some(rows) => OrDefault(SumBy(rows, AmountOf), 0)
  }

  /** The figures `loadKPIs` sets from the four reads (their errors are ignored, so a
      failed read is null data). */
  function ComputeKpis<C, P, D>(clients: Reply<C>, projects: Reply<P>, documents: Reply<D>,
                                records: Reply<AmountRow>): (k: Kpis)
    ensures k.totalClients == CountOr(DataOf(clients), DefaultClients)
    ensures k.activeProjects == CountOr(DataOf(projects), DefaultProjects)
    ensures k.documentsProcessed == CountOr(DataOf(documents), DefaultDocuments)
    ensures k.monthlyRevenue == OrDefault(TotalRevenue(DataOf(records)), DefaultRevenue)
    ensures k.(totalClients := 42, activeProjects := 18, documentsProcessed := 3247,
               monthlyRevenue := 145680) == DefaultKpis()
  {
    Kpis(
      CountOr(DataOf(clients), DefaultClients),
      CountOr(DataOf(projects), DefaultProjects),
      CountOr(DataOf(documents), DefaultDocuments),
      OrDefault(TotalRevenue(DataOf(records)), DefaultRevenue),
      98.7, 89250, 2.3, 96.2)
  }

  /** Reads that bring back no rows (empty, null or failed) give exactly the figures
      of the exception path. */
  lemma EmptyReadsGiveDefaults<C, P, D>(clients: Reply<C>, projects: Reply<P>, documents: Reply<D>,
                                        records: Reply<AmountRow>)
    requires RowsOr(clients) == [] && RowsOr(projects) == [] && RowsOr(documents) == []
    requires RowsOr(records) == []
    ensures ComputeKpis(clients, projects, documents, records) == DefaultKpis()
  {
  }

  /** A genuine zero is indistinguishable from a missing figure: revenue rows that sum
      to zero show the default revenue. */
  lemma ZeroRevenueShowsDefault<C, P, D>(clients: Reply<C>, projects: Reply<P>, documents: Reply<D>,
                                         rows: seq<AmountRow>)
    requires forall r :: r in rows ==> r.amount == None || r.amount == Some(0)
    ensures ComputeKpis(clients, projects, documents, Rows(rows)).monthlyRevenue == DefaultRevenue
  {
    SumByZero(rows);
  }

  lemma {:induction false} SumByZero(rows: seq<AmountRow>)
    requires forall r :: r in rows ==> r.amount == None || r.amount == Some(0)
    ensures SumBy(rows, AmountOf) == 0
  {
    if rows != [] {
      assert forall r :: r in rows[1..] ==> r in rows;
      SumByZero(rows[1..]);
    }
  }

  // ---------------------------------------------------------------- chart series

  /** Every draw lies in [0, 1), as `Math.random()` guarantees. */
  predicate Draws(us: seq<real>) {
    forall k :: 0 <= k < |us| ==> 0.0 <= us[k] < 1.0
  }

  /** A month of the revenue chart. */
  datatype RevenuePoint = RevenuePoint(month: string, revenue: int, target: int)

  /** A day of the documents chart. */
  datatype DocumentsPoint = DocumentsPoint(day: nat, processed: int, errors: int)

  /** A month of the clients chart; the fractional `activos` line is not modelled. */
  datatype ClientsPoint = ClientsPoint(month: string, clients: int)

  /** An hour of the AI performance chart; only the integer load is modelled. */
  datatype PerformancePoint = PerformancePoint(hour: string, load: int)

  const RevenueTarget: int := 120000

  /** Entry `k` of the revenue series: `monthsBack[i]` labels the month `i` months ago,
      and entry `k` is the month `11 - k` months ago. */
  function RevenueAt(monthsBack: seq<string>, us: seq<real>, k: nat): (p: RevenuePoint)
    requires k < 12 && |monthsBack| == 12 && |us| == 12 && Draws(us)
    ensures p.month == monthsBack[11 - k]
    ensures 100000 <= p.revenue <= 149999 && p.target == RevenueTarget
  {
    RevenuePoint(monthsBack[11 - k], FloorRandom(us[k], 50000) + 100000, RevenueTarget)
  }

  /** The revenue loop, `i` from 11 down to 0. */
  method RevenueSeries(monthsBack: seq<string>, us: seq<real>) returns (series: seq<RevenuePoint>)
    requires |monthsBack| == 12 && |us| == 12 && Draws(us)
    ensures |series| == 12
    ensures forall k :: 0 <= k < 12 ==> series[k] == RevenueAt(monthsBack, us, k)
  {
    series := [];
    var i := 11;
    while i >= 0
      invariant -1 <= i <= 11 && |series| == 11 - i
      invariant forall k :: 0 <= k < |series| ==> series[k] == RevenueAt(monthsBack, us, k)
    {
      series := series + [RevenuePoint(monthsBack[i], FloorRandom(us[11 - i], 50000) + 100000, RevenueTarget)];
      i := i - 1;
    }
  }

  /** Entry `k` of the documents series: `daysBack[i]` is the day of the month `i`
      days ago; each entry takes two draws, processed then errors. */
  function DocumentsAt(daysBack: seq<nat>, us: seq<real>, k: nat): (p: DocumentsPoint)
    requires k < 30 && |daysBack| == 30 && |us| == 60 && Draws(us)
    ensures p.day == daysBack[29 - k]
    ensures 50 <= p.processed <= 249 && 1 <= p.errors <= 10
  {
    DocumentsPoint(daysBack[29 - k], FloorRandom(us[2 * k], 200) + 50, FloorRandom(us[2 * k + 1], 10) + 1)
  }

  /** The documents loop, `i` from 29 down to 0. */
  method DocumentsSeries(daysBack: seq<nat>, us: seq<real>) returns (series: seq<DocumentsPoint>)
    requires |daysBack| == 30 && |us| == 60 && Draws(us)
    ensures |series| == 30
    ensures forall k :: 0 <= k < 30 ==> series[k] == DocumentsAt(daysBack, us, k)
  {
    series := [];
    var i := 29;
    while i >= 0
      invariant -1 <= i <= 29 && |series| == 29 - i
      invariant forall k :: 0 <= k < |series| ==> series[k] == DocumentsAt(daysBack, us, k)
    {
      var n := 29 - i;
      series := series + [DocumentsPoint(daysBack[i], FloorRandom(us[2 * n], 200) + 50, FloorRandom(us[2 * n + 1], 10) + 1)];
      i := i - 1;
    }
  }

  /** Entry `k` of the clients series: a draw from 25..39 plus two per month elapsed;
      each entry takes two draws, the second for the unmodelled `activos`. */
  function ClientsAt(monthsBack: seq<string>, us: seq<real>, k: nat): (p: ClientsPoint)
    requires k < 12 && |monthsBack| == 12 && |us| == 24 && Draws(us)
    ensures p.month == monthsBack[11 - k]
    ensures 25 + 2 * k <= p.clients <= 39 + 2 * k
  {
    ClientsPoint(monthsBack[11 - k], FloorRandom(us[2 * k], 15) + 25 + k * 2)
  }

  /** The clients loop, `i` from 11 down to 0. */
  method ClientsSeries(monthsBack: seq<string>, us: seq<real>) returns (series: seq<ClientsPoint>)
    requires |monthsBack| == 12 && |us| == 24 && Draws(us)
    ensures |series| == 12
    ensures forall k :: 0 <= k < 12 ==> series[k] == ClientsAt(monthsBack, us, k)
  {
    series := [];
    var i := 11;
    while i >= 0
      invariant -1 <= i <= 11 && |series| == 11 - i
      invariant forall k :: 0 <= k < |series| ==> series[k] == ClientsAt(monthsBack, us, k)
    {
      var n := 11 - i;
      series := series + [ClientsPoint(monthsBack[i], FloorRandom(us[2 * n], 15) + 25 + (11 - i) * 2)];
      i := i - 1;
    }
  }

  /** The clients line never falls by more than 12 from one month to the next, and
      eight months on it is always higher than before. */
  lemma ClientsGrowth(monthsBack: seq<string>, us: seq<real>, k1: nat, k2: nat)
    requires |monthsBack| == 12 && |us| == 24 && Draws(us)
    requires k1 < k2 < 12
    ensures ClientsAt(monthsBack, us, k2).clients >= ClientsAt(monthsBack, us, k1).clients - 14 + 2 * (k2 - k1)
    ensures k2 >= k1 + 8 ==> ClientsAt(monthsBack, us, k2).clients > ClientsAt(monthsBack, us, k1).clients
  {
  }

  /** The hour a label names (what the chart's axis reads back). */
  function HourOf(hour: string): int {
    if |hour| >= 3 && forall j :: 0 <= j < |hour| - 3 ==> IsDigit(hour[j])
    then ParseNat(hour[..|hour| - 3])
    else -1
  }

  /** `${h}:00`, which reads back as the hour `h`. */
  function HourLabel(h: nat): (s: string)
    ensures s == NatToString(h) + ":00"
    ensures HourOf(s) == h
  {
    var s := NatToString(h) + ":00";
    assert s[..|s| - 3] == NatToString(h);
    NatToStringRoundTrip(h);
    s
  }

  /** Entry `k` of the performance series: hour `k`; each entry takes three draws,
      precision, speed and load, and only the third, the load, is modelled. */
  function PerformanceAt(us: seq<real>, k: nat): (p: PerformancePoint)
    requires k < 24 && |us| == 72 && Draws(us)
    ensures p.hour == HourLabel(k)
    ensures 60 <= p.load <= 99
  {
    PerformancePoint(HourLabel(k), FloorRandom(us[3 * k + 2], 40) + 60)
  }

  /** The performance loop, `i` from 23 down to 0, labelled `${23 - i}:00`. */
  method PerformanceSeries(us: seq<real>) returns (series: seq<PerformancePoint>)
    requires |us| == 72 && Draws(us)
    ensures |series| == 24
    ensures forall k :: 0 <= k < 24 ==> series[k] == PerformanceAt(us, k)
  {
    series := [];
    var i := 23;
    while i >= 0
      invariant -1 <= i <= 23 && |series| == 23 - i
      invariant forall k :: 0 <= k < |series| ==> series[k] == PerformanceAt(us, k)
    {
      var n := 23 - i;
      series := series + [PerformancePoint(NatToString(23 - i) + ":00", FloorRandom(us[3 * n + 2], 40) + 60)];
      i := i - 1;
    }
  }

  /** The performance chart's hours run 0:00 to 23:00 in ascending order. */
  lemma PerformanceHoursAscending(us: seq<real>, k1: nat, k2: nat)
    requires |us| == 72 && Draws(us)
    requires k1 < k2 < 24
    ensures HourOf(PerformanceAt(us, k1).hour) < HourOf(PerformanceAt(us, k2).hour)
    ensures HourOf(PerformanceAt(us, 0).hour) == 0 && HourOf(PerformanceAt(us, 23).hour) == 23
  {
  }

  /** The random draws `loadChartData` takes, loop by loop, and the date labels. */
  datatype ChartInputs = ChartInputs(
    monthsBack: seq<string>,
    daysBack: seq<nat>,
    revenueDraws: seq<real>,
    documentsDraws: seq<real>,
    clientsDraws: seq<real>,
    performanceDraws: seq<real>)

  predicate ValidChartInputs(c: ChartInputs) {
    && |c.monthsBack| == 12 && |c.daysBack| == 30
    && |c.revenueDraws| == 12 && Draws(c.revenueDraws)
    && |c.documentsDraws| == 60 && Draws(c.documentsDraws)
    && |c.clientsDraws| == 24 && Draws(c.clientsDraws)
    && |c.performanceDraws| == 72 && Draws(c.performanceDraws)
  }

  // ---------------------------------------------------------------- panel state

  /** The component's state. */
  class KpiPanel {
    var kpis: Kpis
    var loading: bool
    var revenueData: seq<RevenuePoint>
    var documentsData: seq<DocumentsPoint>
    var clientsGrowthData: seq<ClientsPoint>
    var performanceData: seq<PerformancePoint>

    constructor ()
      ensures kpis == ZeroKpis() && loading
      ensures revenueData == [] && documentsData == [] && clientsGrowthData == [] && performanceData == []
    {
      kpis := ZeroKpis();
      loading := true;
      revenueData := [];
      documentsData := [];
      clientsGrowthData := [];
      performanceData := [];
    }

    /** `loadKPIs`: the computed figures, or the defaults when a read raises;
        `loading` ends false on every path. */
    method LoadKPIs<C, P, D>(clients: Reply<C>, projects: Reply<P>, documents: Reply<D>, records: Reply<AmountRow>)
      modifies this
      ensures clients.Threw? || projects.Threw? || documents.Threw? || records.Threw? ==> kpis == DefaultKpis()
      ensures !(clients.Threw? || projects.Threw? || documents.Threw? || records.Threw?) ==>
        kpis == ComputeKpis(clients, projects, documents, records)
      ensures !loading
      ensures revenueData == old(revenueData) && documentsData == old(documentsData)
      ensures clientsGrowthData == old(clientsGrowthData) && performanceData == old(performanceData)
    {
      loading := true;
      if clients.Threw? || projects.Threw? || documents.Threw? || records.Threw? {
        kpis := DefaultKpis();
      } else {
        kpis := ComputeKpis(clients, projects, documents, records);
      }
      loading := false;
    }

    /** `loadChartData`: the four series, each stored once built. */
    method LoadChartData(c: ChartInputs)
      requires ValidChartInputs(c)
      modifies this
      ensures |revenueData| == 12 && forall k :: 0 <= k < 12 ==> revenueData[k] == RevenueAt(c.monthsBack, c.revenueDraws, k)
      ensures |documentsData| == 30 && forall k :: 0 <= k < 30 ==> documentsData[k] == DocumentsAt(c.daysBack, c.documentsDraws, k)
      ensures |clientsGrowthData| == 12 && forall k :: 0 <= k < 12 ==> clientsGrowthData[k] == ClientsAt(c.monthsBack, c.clientsDraws, k)
      ensures |performanceData| == 24 && forall k :: 0 <= k < 24 ==> performanceData[k] == PerformanceAt(c.performanceDraws, k)
      ensures kpis == old(kpis) && loading == old(loading)
    {
      revenueData := RevenueSeries(c.monthsBack, c.revenueDraws);
      documentsData := DocumentsSeries(c.daysBack, c.documentsDraws);
      clientsGrowthData := ClientsSeries(c.monthsBack, c.clientsDraws);
      performanceData := PerformanceSeries(c.performanceDraws);
    }
  }
}
