/** The AI integration panel: the AI services with their on/off status, their
    usage metrics, the totals shown on the overview, and the mock data used
    when the tables are empty or unreachable. */
module AIIntegration {
  import opened Common
  import opened Seqs
  import opened Text
  import opened Audit

  datatype ServiceKind = Llm | Image | Voice | Analysis

  datatype Status = Active | Inactive | Error

  /** A row of `ai_services`; money in exact reals. */
  datatype AIService = AIService(
    id: string,
    name: string,
    kind: ServiceKind,
    provider: string,
    status: Status,
    usageCount: nat,
    costPerRequest: real,
    totalCost: real,
    rateLimit: nat,
    dailyRequests: Option<nat>,
    successRate: Option<real>,
    avgResponseTime: Option<nat>)

  /** A row of `ai_usage_metrics`. */
  datatype UsageMetric = UsageMetric(
    id: string,
    serviceId: string,
    requestCount: int,
    successCount: int,
    errorCount: int,
    cost: real,
    date: string,
    responseTimeAvg: int)

  // ---------------------------------------------------------------- totals

  function RequestCount(m: UsageMetric): int { m.requestCount }

  function SuccessCount(m: UsageMetric): int { m.successCount }

  function ResponseTime(m: UsageMetric): int { m.responseTimeAvg }

  /** The sum of the metrics' costs. */
  function TotalCost(ms: seq<UsageMetric>): real {
    if ms == [] then 0.0 else ms[0].cost + TotalCost(ms[1..])
  }

  /** The overview figures. */
  datatype Totals = Totals(totalRequests: int, totalCost: real, avgResponseTime: real, successRate: real)

  /** `totalMetrics`: the summed requests and cost, the mean response time (0 with no
      metrics) and the success percentage (0 with no requests). */
  function TotalMetrics(ms: seq<UsageMetric>): (t: Totals)
    ensures t.totalRequests == SumBy(ms, RequestCount)
    ensures t.totalCost == TotalCost(ms)
    ensures |ms| == 0 ==> t.avgResponseTime == 0.0
    ensures |ms| > 0 ==> t.avgResponseTime * |ms| as real == SumBy(ms, ResponseTime) as real
    ensures t.totalRequests <= 0 ==> t.successRate == 0.0
    ensures t.totalRequests > 0 ==>
      t.successRate * t.totalRequests as real == 100.0 * SumBy(ms, SuccessCount) as real
  {
    var totalRequests := SumBy(ms, RequestCount);
    var totalSuccess := SumBy(ms, SuccessCount);
    var avg := if |ms| > 0 then SumBy(ms, ResponseTime) as real / |ms| as real else 0.0;
    var rate := if totalRequests > 0 then (totalSuccess as real / totalRequests as real) * 100.0 else 0.0;
    Totals(totalRequests, TotalCost(ms), avg, rate)
  }

  /** A metric whose counts are consistent: no negative count and no more
      successes than requests. */
  predicate Consistent(m: UsageMetric) {
    0 <= m.successCount <= m.requestCount
  }

  /** Over consistent metrics the success rate is a percentage. */
  lemma SuccessRateIsPercentage(ms: seq<UsageMetric>)
    requires forall m :: m in ms ==> Consistent(m)
    ensures 0.0 <= TotalMetrics(ms).successRate <= 100.0
  {
    SumByMonotone(ms, SuccessCount, RequestCount);
    SumByNonNegative(ms, SuccessCount);
    var t := TotalMetrics(ms);
    if t.totalRequests > 0 {
      var r := t.totalRequests as real;
      var s := SumBy(ms, SuccessCount) as real;
      assert t.successRate * r == 100.0 * s;
      assert 0.0 <= s <= r;
    }
  }

  // ---------------------------------------------------------------- toggle

  /** The status a toggle writes: an active service is switched off, an inactive
      or failing one is switched on. */
  function NextStatus(s: Status): (r: Status)
    ensures s == Active <==> r == Inactive
    ensures r != Error
  {
    if s == Active then Inactive else Active
  }

  /** Toggling twice restores an active or inactive service; a failing one ends inactive. */
  lemma ToggleTwice(s: Status)
    ensures s != Error ==> NextStatus(NextStatus(s)) == s
    ensures s == Error ==> NextStatus(NextStatus(s)) == Inactive
  {
  }

  /** `services.map(s => s.id === id ? { ...s, status } : s)`. */
  function WithStatus(services: seq<AIService>, id: string, status: Status): (r: seq<AIService>)
    ensures |r| == |services|
    ensures forall i :: 0 <= i < |r| && services[i].id == id ==> r[i] == services[i].(status := status)
    ensures forall i :: 0 <= i < |r| && services[i].id != id ==> r[i] == services[i]
  {
    seq(|services|, i requires 0 <= i < |services| =>
      if services[i].id == id then services[i].(status := status) else services[i])
  }

  /** Setting the same status again changes nothing. */
  lemma WithStatusIdempotent(services: seq<AIService>, id: string, status: Status)
    ensures WithStatus(WithStatus(services, id, status), id, status) == WithStatus(services, id, status)
  {
  }

  // ---------------------------------------------------------------- mocks

  /** The three mock services shown when `ai_services` has nothing to offer. */
  function MockServices(): (ss: seq<AIService>)
    ensures |ss| == 3
    ensures ss[0].id == "ai_001" && ss[1].id == "ai_002" && ss[2].id == "ai_003"
    ensures forall i :: 0 <= i < 3 ==> ss[i].status == Active && ss[i].kind == Llm
  {
    [
      AIService("ai_001", "OpenAI GPT-4", Llm, "OpenAI", Active, 15420, 0.03, 462.60, 500,
        Some(520), Some(94.2), Some(1240)),
      AIService("ai_002", "Google Gemini Pro", Llm, "Google", Active, 8934, 0.0005, 4.47, 1000,
        Some(298), Some(96.8), Some(890)),
      AIService("ai_003", "Claude 3 Opus", Llm, "Anthropic", Active, 3245, 0.015, 48.68, 200,
        Some(108), Some(97.5), Some(1560))
    ]
  }

  /** The service ids the mock metrics are generated for, in generation order. */
  const ServiceIds: seq<string> := ["ai_001", "ai_002", "ai_003"]

  /** The number of days of mock metrics, the current one first. */
  const MockDays: nat := 7

  /** The three `Math.random()` draws one mock metric takes, in evaluation order:
      request count, cost, response time. */
  datatype MetricDraw = MetricDraw(requests: real, cost: real, latency: real)

  predicate ValidDraw(d: MetricDraw) {
    0.0 <= d.requests < 1.0 && 0.0 <= d.cost < 1.0 && 0.0 <= d.latency < 1.0
  }

  /** `metric_<service>_<day>`. */
  function MetricId(serviceId: string, day: nat): (id: string)
    ensures id == "metric_" + serviceId + "_" + NatToString(day)
    ensures |id| == 8 + |serviceId| + |NatToString(day)|
  {
    "metric_" + serviceId + "_" + NatToString(day)
  }

  /** Two metric ids built from service ids of one length are equal only when both
      the service and the day are. */
  lemma MetricIdInjective(s1: string, d1: nat, s2: string, d2: nat)
    requires |s1| == |s2| && MetricId(s1, d1) == MetricId(s2, d2)
    ensures s1 == s2 && d1 == d2
  {
    var a := MetricId(s1, d1);
    var b := MetricId(s2, d2);
    assert a[7..7 + |s1|] == s1;
    assert b[7..7 + |s2|] == s2;
    assert a[8 + |s1|..] == NatToString(d1);
    assert b[8 + |s2|..] == NatToString(d2);
    NatToStringInjective(d1, d2);
  }

  /** One mock metric: requests drawn from 50..549, successes 90% of them rounded
      down, the rest errors, a response time drawn from 200..2199 ms. */
  function MockMetric(serviceId: string, day: nat, d: MetricDraw, date: string): (m: UsageMetric)
    requires ValidDraw(d)
    ensures m.id == MetricId(serviceId, day) && m.serviceId == serviceId && m.date == date
    ensures 50 <= m.requestCount <= 549
    ensures m.successCount == (9 * m.requestCount) / 10
    ensures m.successCount + m.errorCount == m.requestCount
    ensures Consistent(m)
    ensures 200 <= m.responseTimeAvg <= 2199
    ensures m.cost == m.requestCount as real * (0.001 + d.cost * 0.05)
  {
    var requestCount := FloorRandom(d.requests, 500) + 50;
    var successCount := (9 * requestCount) / 10;
    UsageMetric(
      MetricId(serviceId, day),
      serviceId,
      requestCount,
      successCount,
      requestCount - successCount,
      requestCount as real * (0.001 + d.cost * 0.05),
      date,
      FloorRandom(d.latency, 2000) + 200)
  }

  /** The metric generated at position `k`: day `k / 3`, service `k % 3`. */
  function MockAt(draws: seq<MetricDraw>, dates: seq<string>, k: nat): UsageMetric
    requires k < |draws| && k / 3 < |dates| && ValidDraw(draws[k])
  {
    MockMetric(ServiceIds[k % 3], k / 3, draws[k], dates[k / 3])
  }

  lemma PositionOf(i: nat, j: nat)
    requires j < 3
    ensures (3 * i + j) / 3 == i && (3 * i + j) % 3 == j
  {
  }

  /** `generateOptimizedMetrics`: for each of the 7 days (`dates[i]` is the day `i` days
      back), one metric per service id, pushed in order. `draws` are the random
      values the calls take, three per metric. */
  method GenerateOptimizedMetrics(draws: seq<MetricDraw>, dates: seq<string>) returns (metrics: seq<UsageMetric>)
    requires |draws| == MockDays * |ServiceIds| && |dates| == MockDays
    requires forall k :: 0 <= k < |draws| ==> ValidDraw(draws[k])
    ensures |metrics| == MockDays * |ServiceIds|
    ensures forall k :: 0 <= k < |metrics| ==> metrics[k] == MockAt(draws, dates, k)
  {
    metrics := [];
    for i := 0 to MockDays
      invariant |metrics| == 3 * i
      invariant forall k :: 0 <= k < |metrics| ==> metrics[k] == MockAt(draws, dates, k)
    {
      for j := 0 to |ServiceIds|
        invariant |metrics| == 3 * i + j
        invariant forall k :: 0 <= k < |metrics| ==> metrics[k] == MockAt(draws, dates, k)
      {
        PositionOf(i, j);
        metrics := metrics + [MockMetric(ServiceIds[j], i, draws[3 * i + j], dates[i])];
      }
    }
  }

  /** The generated ids are pairwise distinct. */
  lemma MockIdsDistinct(draws: seq<MetricDraw>, dates: seq<string>, k1: nat, k2: nat)
    requires |draws| == MockDays * |ServiceIds| && |dates| == MockDays
    requires forall k :: 0 <= k < |draws| ==> ValidDraw(draws[k])
    requires k1 < k2 < |draws|
    ensures MockAt(draws, dates, k1).id != MockAt(draws, dates, k2).id
  {
    if MockAt(draws, dates, k1).id == MockAt(draws, dates, k2).id {
      MetricIdInjective(ServiceIds[k1 % 3], k1 / 3, ServiceIds[k2 % 3], k2 / 3);
    }
  }

  /** The mock metrics are consistent, so the overview's success rate over them is
      a percentage. */
  lemma MockSuccessRate(metrics: seq<UsageMetric>, draws: seq<MetricDraw>, dates: seq<string>)
    requires |draws| == MockDays * |ServiceIds| && |dates| == MockDays
    requires forall k :: 0 <= k < |draws| ==> ValidDraw(draws[k])
    requires |metrics| == |draws| && forall k :: 0 <= k < |metrics| ==> metrics[k] == MockAt(draws, dates, k)
    ensures 0.0 <= TotalMetrics(metrics).successRate <= 100.0
  {
    forall m | m in metrics
      ensures Consistent(m)
    {
      var k :| 0 <= k < |metrics| && metrics[k] == m;
    }
    SuccessRateIsPercentage(metrics);
  }

  // ---------------------------------------------------------------- panel state

  /** The component's state. */
  class AIPanel {
    var services: seq<AIService>
    var metrics: seq<UsageMetric>
    var loading: bool

    constructor ()
      ensures services == [] && metrics == [] && loading
    {
      services := [];
      metrics := [];
      loading := true;
    }

    /** `loadAIServices`: the rows when there are some; the mock services when the
        reply is empty, null, an error or an exception. */
    method LoadAIServices(reply: Reply<AIService>)
      modifies this
      ensures reply.Rows? && reply.rows != [] ==> services == reply.rows
      ensures !(reply.Rows? && reply.rows != []) ==> services == MockServices()
      ensures metrics == old(metrics) && loading == old(loading)
    {
      if reply.Rows? && reply.rows != [] {
        services := reply.rows;
      } else {
        services := MockServices();
      }
    }

    /** `loadUsageMetrics`: the rows when there are some, generated metrics otherwise;
        `loading` ends false on every path. */
    method LoadUsageMetrics(reply: Reply<UsageMetric>, draws: seq<MetricDraw>, dates: seq<string>)
      requires |draws| == MockDays * |ServiceIds| && |dates| == MockDays
      requires forall k :: 0 <= k < |draws| ==> ValidDraw(draws[k])
      modifies this
      ensures reply.Rows? && reply.rows != [] ==> metrics == reply.rows
      ensures !(reply.Rows? && reply.rows != []) ==>
        |metrics| == |draws| && forall k :: 0 <= k < |metrics| ==> metrics[k] == MockAt(draws, dates, k)
      ensures !loading
      ensures services == old(services)
    {
      if reply.Rows? && reply.rows != [] {
        metrics := reply.rows;
      } else {
        metrics := GenerateOptimizedMetrics(draws, dates);
      }
      loading := false;
    }

    /** `handleToggleService`: writes the next status; only when the write does not
        fail is the service updated in the list and `toggle_ai_service` logged. */
    method HandleToggleService(service: AIService, write: Write) returns (audit: Option<AuditRequest>)
      modifies this
      ensures write == Written ==>
        services == WithStatus(old(services), service.id, NextStatus(service.status))
        && audit == Some(EventOn("toggle_ai_service", "ai_services", Some(service.id)))
      ensures write != Written ==> services == old(services) && audit == None
      ensures metrics == old(metrics) && loading == old(loading)
    {
      var newStatus := NextStatus(service.status);
      if write == Written {
        services := WithStatus(services, service.id, newStatus);
        audit := Some(EventOn("toggle_ai_service", "ai_services", Some(service.id)));
      } else {
        audit := None;
      }
    }
  }
}
