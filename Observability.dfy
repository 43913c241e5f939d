/** The two read endpoints of sentinel-backend/api/v1/observability.py:
    the metrics summary and the cost analytics, over the scanner's output. */
module Observability {
  import opened Base
  import opened Seqs
  import opened Text
  import opened Scanner
  import opened Reals

  const CriticalRisk := 80
  const HighRisk := 50
  const ElevatedRisk := 20
  /** Dollars per day saved by a container that is not running. */
  const SavingPerStopped := 250

  // ---------------------------------------------------------------- summary

  /** A scanned container together with its risk score. */
  datatype RatedContainer = RatedContainer(info: ContainerInfo, riskScore: int)

  datatype MetricsSummary = MetricsSummary(
    totalContainers: nat,
    shadowAiDetected: nat,
    criticalRisks: nat,
    systemHealth: string,
    threatLevel: string,
    moneySaved: int)

  /** `max(...)` over a non-empty list. */
  function MaxOf(xs: seq<int>): (m: int)
    requires |xs| > 0
    ensures m in xs
    ensures forall i :: 0 <= i < |xs| ==> xs[i] <= m
  {
    if |xs| == 1 then xs[0]
    else
      var rest := MaxOf(xs[1..]);
      if xs[0] >= rest then xs[0] else rest
  }

  function Risks(cs: seq<RatedContainer>): (r: seq<int>)
    ensures |r| == |cs| && forall i :: 0 <= i < |cs| ==> r[i] == cs[i].riskScore
  {
    seq(|cs|, i requires 0 <= i < |cs| => cs[i].riskScore)
  }

  /** `max_risk`: 0 for an empty scan, otherwise the largest risk score. */
  function MaxRisk(cs: seq<RatedContainer>): int {
    if |cs| == 0 then 0 else MaxOf(Risks(cs))
  }

  /** The threat level for a maximum risk. */
  function ThreatLevelFor(maxRisk: int): string {
    if maxRisk >= CriticalRisk then "Critical"
    else if maxRisk >= HighRisk then "High"
    else if maxRisk >= ElevatedRisk then "Elevated"
    else "Low"
  }

  /** The position of a threat level in Low < Elevated < High < Critical. */
  function ThreatRank(level: string): nat {
    if level == "Critical" then 3 else if level == "High" then 2 else if level == "Elevated" then 1 else 0
  }

  function HealthFor(criticalRisks: nat, shadowAi: nat): string {
    if criticalRisks > 0 then "Critical" else if shadowAi > 0 then "At Risk" else "Healthy"
  }

  predicate IsShadow(c: RatedContainer) { !c.info.isSanctioned }
  predicate IsCritical(c: RatedContainer) { c.riskScore >= CriticalRisk }
  predicate IsStopped(c: RatedContainer) { c.info.status != "running" }

  /** `get_metrics_summary()` over containers that carry a risk score. */
  function GetMetricsSummary(cs: seq<RatedContainer>): MetricsSummary {
    var shadow := Count(cs, IsShadow);
    var critical := Count(cs, IsCritical);
    MetricsSummary(
      |cs|,
      shadow,
      critical,
      HealthFor(critical, shadow),
      ThreatLevelFor(MaxRisk(cs)),
      Count(cs, IsStopped) * SavingPerStopped)
  }

  /** `get_metrics_summary()` as written: the scanner's `ContainerInfo` has no
      `risk_score` attribute, so any non-empty scan raises AttributeError. */
  function GetMetricsSummaryAsWritten(cs: seq<ContainerInfo>): Result<MetricsSummary, string> {
    if |cs| == 0 then Ok(GetMetricsSummary([]))
    else Err("AttributeError: 'ContainerInfo' object has no attribute 'risk_score'")
  }

  /** One running, unsanctioned container is enough to make the endpoint fail. */
  lemma AsWrittenFailsOnAnyContainer()
    ensures GetMetricsSummaryAsWritten([ContainerInfo("c0ffee", "shadow-llm", "ollama/ollama", "running", false, "High")]).Err?
    ensures GetMetricsSummaryAsWritten([]) == Ok(MetricsSummary(0, 0, 0, "Healthy", "Low", 0))
  {
    assert Count<RatedContainer>([], IsShadow) == 0;
  }

  /** The threat level follows the largest risk through the thresholds
      80, 50 and 20; an empty scan has maximum 0 and so level "Low". */
  lemma ThreatLevelThresholds(cs: seq<RatedContainer>)
    ensures |cs| == 0 ==> GetMetricsSummary(cs).threatLevel == "Low"
    ensures GetMetricsSummary(cs).threatLevel == "Critical" <==> exists i :: 0 <= i < |cs| && cs[i].riskScore >= 80
    ensures GetMetricsSummary(cs).threatLevel == "Low" <==> forall i :: 0 <= i < |cs| ==> cs[i].riskScore < 20
  {
    if |cs| > 0 {
      var m := MaxOf(Risks(cs));
      var k :| 0 <= k < |cs| && Risks(cs)[k] == m;
      assert cs[k].riskScore == m;
    }
  }

  /** Raising the maximum risk never lowers the threat level. */
  lemma ThreatLevelMonotone(a: int, b: int)
    requires a <= b
    ensures ThreatRank(ThreatLevelFor(a)) <= ThreatRank(ThreatLevelFor(b))
  {
  }

  /** The counts: `critical_risks` counts risks of at least 80,
      `shadow_ai_detected` counts unsanctioned containers, `money_saved` is
      250 per container that is not running; the threat level is "Critical"
      exactly when some container is critical, and so is the health. */
  lemma {:induction false} SummaryCounts(cs: seq<RatedContainer>)
    ensures var s := GetMetricsSummary(cs);
      && s.totalContainers == |cs|
      && s.criticalRisks <= |cs| && s.shadowAiDetected <= |cs|
      && (s.criticalRisks > 0 <==> exists i :: 0 <= i < |cs| && cs[i].riskScore >= 80)
      && (s.shadowAiDetected > 0 <==> exists i :: 0 <= i < |cs| && !cs[i].info.isSanctioned)
      && (s.threatLevel == "Critical" <==> s.criticalRisks > 0)
      && s.moneySaved == 250 * Count(cs, IsStopped)
  {
    ThreatLevelThresholds(cs);
    var crit := Filter(cs, IsCritical);
    if exists i :: 0 <= i < |cs| && cs[i].riskScore >= 80 {
      var i :| 0 <= i < |cs| && cs[i].riskScore >= 80;
      assert cs[i] in crit;
    }
    if |crit| > 0 {
      assert crit[0] in crit;
    }
    var shadow := Filter(cs, IsShadow);
    if exists i :: 0 <= i < |cs| && !cs[i].info.isSanctioned {
      var i :| 0 <= i < |cs| && !cs[i].info.isSanctioned;
      assert cs[i] in shadow;
    }
    if |shadow| > 0 {
      assert shadow[0] in shadow;
    }
  }

  /** Health is "Critical" if any container is critical, else "At Risk" if
      any is unsanctioned, else "Healthy". */
  lemma HealthRule(cs: seq<RatedContainer>)
    ensures var s := GetMetricsSummary(cs);
      && (s.systemHealth == "Critical" <==> s.criticalRisks > 0)
      && (s.systemHealth == "At Risk" <==> s.criticalRisks == 0 && s.shadowAiDetected > 0)
      && (s.systemHealth == "Healthy" <==> s.criticalRisks == 0 && s.shadowAiDetected == 0)
  {
  }

  // ------------------------------------------------------------------ costs

  const BaseDailyCost := 300
  const HourlyRate: real := 12.5

  datatype AgentCost = AgentCost(agentName: string, cost: int, trend: int)

  datatype CostAnalytics = CostAnalytics(
    totalSpend: real,
    totalSaved: int,
    savingsPercent: int,
    burnRate: int,
    projectedMonthly: int,
    agentCosts: seq<AgentCost>)

  predicate IsRunning(c: ContainerInfo) { c.status == "running" }
  predicate IsNotRunning(c: ContainerInfo) { c.status != "running" }

  /** The cost row for one running container: +50 when the lower-cased threat
      level contains "high", else +100 when it contains "critical". */
  function CostFor(c: ContainerInfo): AgentCost {
    var level := Lower(c.threatLevel);
    if Contains(level, "high") then AgentCost(c.name, BaseDailyCost + 50, 12)
    else if Contains(level, "critical") then AgentCost(c.name, BaseDailyCost + 100, 25)
    else AgentCost(c.name, BaseDailyCost, 0)
  }

  /** Each cost row is one of three shapes. */
  lemma CostShapes(c: ContainerInfo)
    ensures var r := CostFor(c);
      && r.agentName == c.name
      && ((r.cost == 300 && r.trend == 0) || (r.cost == 350 && r.trend == 12) || (r.cost == 400 && r.trend == 25))
      && (Contains(Lower(c.threatLevel), "high") ==> r.cost == 350)
  {
  }

  /** The scanner's two levels: "High" costs 350, "Low" costs 300. */
  lemma ScannerLevelsCost(c: ContainerInfo)
    ensures c.threatLevel == "High" ==> CostFor(c) == AgentCost(c.name, 350, 12)
    ensures c.threatLevel == "Low" ==> CostFor(c) == AgentCost(c.name, 300, 0)
  {
    if c.threatLevel == "High" {
      assert Lower("High") == "high";
      ContainsItself("high");
    }
    if c.threatLevel == "Low" {
      assert Lower("Low") == "low";
      assert !Contains("low", "high");
      assert !Contains("low", "critical");
    }
  }

  /** `int((stopped / (active + stopped + 0.001)) * 100)`: the 0.001 keeps
      the divisor positive, so the share is below 100 and 0 without stopped
      containers. */
  function SavingsPercent(active: nat, stopped: nat): (p: int)
    ensures 0 <= p <= 99
    ensures p == 0 <==> 100 * stopped <= active + stopped
  {
    var d := active as real + stopped as real + 0.001;
    var q := stopped as real / d;
    ShareBounds(stopped as real, d);
    (q * 100.0).Floor
  }

  /** For `0 <= s < d`: `0 <= s / d < 1`, and `100 * (s / d) < 1` exactly
      when `100 * s < d`. */
  lemma ShareBounds(s: real, d: real)
    requires 0.0 <= s < d
    ensures 0.0 <= s / d < 1.0
    ensures 100.0 * (s / d) < 1.0 <==> 100.0 * s < d
  {
    ScaledShare(1.0, s, d);
    ScaledShare(100.0, s, d);
  }

  /** `k * (s / d)` times `d` is `k * s`. */
  lemma ScaledShare(k: real, s: real, d: real)
    requires d > 0.0
    ensures k * (s / d) < 1.0 <==> k * s < d
    ensures 0.0 <= k * (s / d) <==> 0.0 <= k * s
  {
    var x := k * (s / d);
    assert x * d == k * s;
    BelowOne(x, d);
  }

  /** The unsorted cost rows: one per running container, in scan order. */
  function RunningCosts(cs: seq<ContainerInfo>): seq<AgentCost> {
    if cs == [] then []
    else (if IsRunning(cs[0]) then [CostFor(cs[0])] else []) + RunningCosts(cs[1..])
  }

  lemma {:induction false} RunningCostsLength(cs: seq<ContainerInfo>)
    ensures |RunningCosts(cs)| == Count(cs, IsRunning)
  {
    if cs != [] {
      RunningCostsLength(cs[1..]);
    }
  }

  lemma RunningCostsSnoc(cs: seq<ContainerInfo>, c: ContainerInfo)
    ensures RunningCosts(cs + [c]) == RunningCosts(cs) + (if IsRunning(c) then [CostFor(c)] else [])
    decreases |cs|
  {
    if cs != [] {
      assert (cs + [c])[1..] == cs[1..] + [c];
      RunningCostsSnoc(cs[1..], c);
    } else {
      assert RunningCosts([c]) == (if IsRunning(c) then [CostFor(c)] else []) + RunningCosts([]);
    }
  }

  // Python's list.sort(key=..., reverse=True) is stable; it is specified here
  // by a stable insertion sort on the cost key.

  /** Inserts `x` after every row whose cost is at least its own. */
  function InsertByCost(x: AgentCost, s: seq<AgentCost>): seq<AgentCost> {
    if s == [] then [x]
    else if s[0].cost >= x.cost then [s[0]] + InsertByCost(x, s[1..])
    else [x] + s
  }

  /** `sort(key=lambda x: x['cost'], reverse=True)`. */
  function SortByCostDesc(xs: seq<AgentCost>): seq<AgentCost> {
    if xs == [] then [] else InsertByCost(xs[|xs| - 1], SortByCostDesc(xs[..|xs| - 1]))
  }

  predicate NonIncreasing(s: seq<AgentCost>) {
    forall i, j :: 0 <= i < j < |s| ==> s[i].cost >= s[j].cost
  }

  /** The rows with cost `v`, in order. */
  function WithCost(s: seq<AgentCost>, v: int): seq<AgentCost> {
    if s == [] then [] else (if s[0].cost == v then [s[0]] else []) + WithCost(s[1..], v)
  }

  lemma {:induction false} InsertPermutes(x: AgentCost, s: seq<AgentCost>)
    ensures multiset(InsertByCost(x, s)) == multiset(s) + multiset{x}
  {
    if s != [] && s[0].cost >= x.cost {
      var r := InsertByCost(x, s[1..]);
      InsertPermutes(x, s[1..]);
      assert multiset([s[0]] + r) == multiset{s[0]} + multiset(r);
      assert multiset(s) == multiset{s[0]} + multiset(s[1..]) by {
        assert s == [s[0]] + s[1..];
      }
    }
  }

  lemma {:induction false} InsertKeepsOrder(x: AgentCost, s: seq<AgentCost>)
    requires NonIncreasing(s)
    ensures NonIncreasing(InsertByCost(x, s))
  {
    if s != [] && s[0].cost >= x.cost {
      InsertKeepsOrder(x, s[1..]);
      InsertPermutes(x, s[1..]);
      var r := InsertByCost(x, s[1..]);
      forall i | 0 <= i < |r| ensures r[i].cost <= s[0].cost {
        assert r[i] in multiset(r);
        if r[i] != x {
          assert r[i] in multiset(s[1..]);
          var j :| 0 <= j < |s[1..]| && s[1..][j] == r[i];
          assert s[j + 1] == r[i];
        }
      }
    }
  }

  lemma {:induction false} InsertKeepsTies(x: AgentCost, s: seq<AgentCost>, v: int)
    requires NonIncreasing(s)
    ensures WithCost(InsertByCost(x, s), v) == WithCost(s, v) + (if x.cost == v then [x] else [])
  {
    if s == [] {
      WithCostCons(x, [], v);
    } else if s[0].cost >= x.cost {
      InsertKeepsTies(x, s[1..], v);
      WithCostCons(s[0], InsertByCost(x, s[1..]), v);
      WithCostCons(s[0], s[1..], v);
      assert s == [s[0]] + s[1..];
    } else {
      WithCostCons(x, s, v);
      if x.cost == v {
        NoneWithHigherCost(s, x.cost);
      }
    }
  }

  /** The rows of cost `v` in a list with head `h`. */
  lemma WithCostCons(h: AgentCost, t: seq<AgentCost>, v: int)
    ensures WithCost([h] + t, v) == (if h.cost == v then [h] else []) + WithCost(t, v)
  {
    assert ([h] + t)[1..] == t;
  }

  /** A non-increasing list whose head is cheaper than `v` has no row of cost `v`. */
  lemma {:induction false} NoneWithHigherCost(s: seq<AgentCost>, v: int)
    requires NonIncreasing(s) && s != [] && s[0].cost < v
    ensures WithCost(s, v) == []
  {
    if |s| > 1 {
      NoneWithHigherCost(s[1..], v);
    }
  }

  /** The sort's promises: the result is ordered by non-increasing cost, is a
      permutation of its input, and keeps rows of equal cost in their
      original relative order (stability). */
  lemma {:induction false} SortByCostDescCorrect(xs: seq<AgentCost>)
    ensures NonIncreasing(SortByCostDesc(xs))
    ensures multiset(SortByCostDesc(xs)) == multiset(xs)
    ensures forall v :: WithCost(SortByCostDesc(xs), v) == WithCost(xs, v)
  {
    if xs != [] {
      var init, last := xs[..|xs| - 1], xs[|xs| - 1];
      SortByCostDescCorrect(init);
      InsertKeepsOrder(last, SortByCostDesc(init));
      InsertPermutes(last, SortByCostDesc(init));
      assert xs == init + [last];
      forall v ensures WithCost(SortByCostDesc(xs), v) == WithCost(xs, v) {
        InsertKeepsTies(last, SortByCostDesc(init), v);
        WithCostSnoc(init, last, v);
      }
    }
  }

  lemma {:induction false} WithCostSnoc(s: seq<AgentCost>, x: AgentCost, v: int)
    ensures WithCost(s + [x], v) == WithCost(s, v) + (if x.cost == v then [x] else [])
    decreases |s|
  {
    if s == [] {
      assert s + [x] == [x] + [];
      WithCostCons(x, [], v);
    } else {
      WithCostSnoc(s[1..], x, v);
      assert s + [x] == [s[0]] + (s[1..] + [x]);
      WithCostCons(s[0], s[1..] + [x], v);
      assert s == [s[0]] + s[1..];
      WithCostCons(s[0], s[1..], v);
    }
  }

  /** `get_cost_analytics()`: counts, the float burn figures (exact here), the
      per-container cost loop and the descending sort. */
  method GetCostAnalytics(containers: seq<ContainerInfo>) returns (r: CostAnalytics)
    ensures r.burnRate == 300 * Count(containers, IsRunning)
    ensures r.projectedMonthly == 9000 * Count(containers, IsRunning)
    ensures r.totalSpend == (9000 * Count(containers, IsRunning)) as real
    ensures r.totalSaved == 250 * Count(containers, IsNotRunning)
    ensures r.savingsPercent == SavingsPercent(Count(containers, IsRunning), Count(containers, IsNotRunning))
    ensures r.agentCosts == SortByCostDesc(RunningCosts(containers))
  {
    var activeCount := Count(containers, IsRunning);
    var stoppedCount := Count(containers, IsNotRunning);

    var burnRateHourly := activeCount as real * HourlyRate;
    var dailyBurn := burnRateHourly * 24.0;
    var totalSaved := stoppedCount * SavingPerStopped;
    var projectedMonthly := dailyBurn * 30.0;

    var agentCosts: seq<AgentCost> := [];
    var k := 0;
    while k < |containers|
      invariant 0 <= k <= |containers|
      invariant agentCosts == RunningCosts(containers[..k])
    {
      var c := containers[k];
      if c.status == "running" {
        var cost := BaseDailyCost;
        var trend := 0;
        if Contains(Lower(c.threatLevel), "high") {
          cost := cost + 50;
          trend := 12;
        } else if Contains(Lower(c.threatLevel), "critical") {
          cost := cost + 100;
          trend := 25;
        }
        agentCosts := agentCosts + [AgentCost(c.name, cost, trend)];
      }
      RunningCostsSnoc(containers[..k], c);
      assert containers[..k + 1] == containers[..k] + [c];
      k := k + 1;
    }
    assert containers[..k] == containers;

    agentCosts := SortByCostDesc(agentCosts);

    var savingsPercent := ((stoppedCount as real / (activeCount as real + stoppedCount as real + 0.001)) * 100.0).Floor;
    r := CostAnalytics(projectedMonthly, totalSaved, savingsPercent, dailyBurn.Floor, projectedMonthly.Floor, agentCosts);
  }

  /** The cost list has exactly one row per running container, ends ordered
      by non-increasing cost, and keeps equal-cost rows in scan order. */
  lemma AgentCostsFacts(containers: seq<ContainerInfo>)
    ensures var rows := SortByCostDesc(RunningCosts(containers));
      && |rows| == Count(containers, IsRunning)
      && NonIncreasing(rows)
      && multiset(rows) == multiset(RunningCosts(containers))
      && forall v :: WithCost(rows, v) == WithCost(RunningCosts(containers), v)
  {
    SortByCostDescCorrect(RunningCosts(containers));
    RunningCostsLength(containers);
    assert |multiset(SortByCostDesc(RunningCosts(containers)))| == |multiset(RunningCosts(containers))|;
  }
}
