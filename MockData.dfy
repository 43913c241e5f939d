/** The fixture data and the live log generator of
    sentinel-frontend/src/mocks/mockData.ts. `Math.random()` becomes the
    draws passed in, each a real in [0, 1); `new Date()` becomes the ISO
    time passed in. */
module MockData {
  import opened Text
  import opened Reals
  import opened ApiTypes

  const MockServers: seq<McpServer> := [
    McpServer("mcp-001", "VectorDB Gateway", "active", 12, "low", "2026-02-09T14:32:00Z", 8, 14, "us-east-1", "gRPC"),
    McpServer("mcp-002", "CodeGen Orchestrator", "active", 45, "medium", "2026-02-09T14:30:00Z", 12, 23, "eu-west-1", "REST"),
    McpServer("mcp-003", "DataPipeline Hub", "dormant", 67, "high", "2026-02-08T09:15:00Z", 3, 9, "us-west-2", "WebSocket"),
    McpServer("mcp-004", "Shadow Inference Node", "rogue", 92, "critical", "2026-02-09T14:28:00Z", 1, 41, "ap-south-1", "unknown"),
    McpServer("mcp-005", "Retrieval Mesh", "active", 23, "low", "2026-02-09T14:31:00Z", 6, 11, "us-east-1", "gRPC"),
    McpServer("mcp-006", "Compliance Scanner", "active", 34, "medium", "2026-02-09T14:29:00Z", 4, 7, "eu-central-1", "REST")
  ]

  const MockAgents: seq<AiAgent> := [
    AiAgent("agent-001", "ResearchBot-7", "GPT-4o", "active", 15, "low", "2026-02-09T14:32:00Z", 14823, 12.4, "mcp-001", ["search", "summarize", "vectorQuery"]),
    AiAgent("agent-002", "CodeAssist-3", "Claude-3.5", "active", 42, "medium", "2026-02-09T14:31:00Z", 28491, 34.2, "mcp-002", ["codeGen", "review", "deploy"]),
    AiAgent("agent-003", "DataCrawler-X", "GPT-4o", "rogue", 89, "critical", "2026-02-09T14:28:00Z", 92341, 156.8, "mcp-004", ["scrape", "ingest", "exfiltrate"]),
    AiAgent("agent-004", "SupportAgent-12", "Gemini-2", "active", 8, "low", "2026-02-09T14:30:00Z", 5621, 4.1, "mcp-005", ["chat", "ticketCreate"]),
    AiAgent("agent-005", "AnalyticsEngine-2", "Claude-3.5", "dormant", 55, "high", "2026-02-08T12:00:00Z", 34102, 0.0, "mcp-003", ["aggregate", "report", "forecast"]),
    AiAgent("agent-006", "ComplianceBot-1", "GPT-4o", "active", 19, "low", "2026-02-09T14:32:00Z", 7823, 8.9, "mcp-006", ["audit", "scan", "report"]),
    AiAgent("agent-007", "InferenceProxy-9", "Mistral-L", "active", 61, "high", "2026-02-09T14:29:00Z", 45210, 67.3, "mcp-002", ["proxy", "cache", "transform"])
  ]

  const MockAlerts: seq<SecurityAlert> := [
    SecurityAlert("alert-001", "critical", "agent-003", "DataCrawler-X", "Data Exfiltration Attempt",
      "Agent attempted to send 2.4GB of vectorDB embeddings to an external endpoint.", "2026-02-09T14:28:00Z", "active"),
    SecurityAlert("alert-002", "critical", "agent-003", "DataCrawler-X", "Unauthorized API Access",
      "Agent accessed production database credentials via MCP tool chain.", "2026-02-09T14:25:00Z", "investigating"),
    SecurityAlert("alert-003", "high", "agent-007", "InferenceProxy-9", "Rate Limit Violation",
      "Agent exceeded 10,000 requests/min threshold for 15 consecutive minutes.", "2026-02-09T14:20:00Z", "active"),
    SecurityAlert("alert-004", "high", "agent-002", "CodeAssist-3", "Privilege Escalation",
      "Agent attempted to modify its own capability configuration.", "2026-02-09T13:45:00Z", "resolved"),
    SecurityAlert("alert-005", "medium", "agent-005", "AnalyticsEngine-2", "Stale Token Usage",
      "Agent using expired OAuth token to access analytics pipeline.", "2026-02-09T12:30:00Z", "active"),
    SecurityAlert("alert-006", "medium", "agent-001", "ResearchBot-7", "PII Exposure Risk",
      "Agent response contained potential PII data in summarization output.", "2026-02-09T11:15:00Z", "investigating")
  ]

  /** The seeded audit log, newest first. */
  const MockAuditLog: seq<AuditEvent> := [
    AuditEvent("log-001", "2026-02-09T14:32:15Z", "agent-001", "ResearchBot-7", "QUERY", "vectorDB", "success", "Semantic search across 12k embeddings", 234),
    AuditEvent("log-002", "2026-02-09T14:32:08Z", "agent-002", "CodeAssist-3", "DEPLOY", "ci-pipeline", "success", "Deployed hotfix to staging", 4521),
    AuditEvent("log-003", "2026-02-09T14:31:55Z", "agent-003", "DataCrawler-X", "EXFIL", "external-api", "failed", "Blocked by governance policy GP-042", 12),
    AuditEvent("log-004", "2026-02-09T14:31:42Z", "agent-006", "ComplianceBot-1", "SCAN", "policy-engine", "success", "Full compliance scan completed — 3 findings", 8932),
    AuditEvent("log-005", "2026-02-09T14:31:30Z", "agent-004", "SupportAgent-12", "RESPOND", "ticket-system", "success", "Auto-resolved ticket #4891", 1203),
    AuditEvent("log-006", "2026-02-09T14:31:18Z", "agent-007", "InferenceProxy-9", "CACHE", "redis-cluster", "warning", "Cache miss ratio exceeded threshold (42%)", 89),
    AuditEvent("log-007", "2026-02-09T14:31:05Z", "agent-003", "DataCrawler-X", "ACCESS", "credentials-vault", "failed", "Unauthorized access attempt — credential scope violation", 5),
    AuditEvent("log-008", "2026-02-09T14:30:52Z", "agent-001", "ResearchBot-7", "SUMMARIZE", "llm-chain", "success", "Generated 3-page research brief from 47 sources", 3412),
    AuditEvent("log-009", "2026-02-09T14:30:40Z", "agent-005", "AnalyticsEngine-2", "AGGREGATE", "data-warehouse", "warning", "Query timeout — fell back to cached results", 30000),
    AuditEvent("log-010", "2026-02-09T14:30:28Z", "agent-002", "CodeAssist-3", "REVIEW", "code-analyzer", "success", "PR #312 — 0 critical issues, 2 suggestions", 2103)
  ]

  const MockExecutiveMetrics: ExecutiveMetrics := ExecutiveMetrics(
    7, 5, 6, "high", 442080, 96, 4, 142,
    [CostRiskPoint("Sep", 48000, 32), CostRiskPoint("Oct", 42000, 38), CostRiskPoint("Nov", 35000, 45),
     CostRiskPoint("Dec", 28000, 52), CostRiskPoint("Jan", 21000, 48), CostRiskPoint("Feb", 18420, 41)],
    [KpiDelta("Active Agents", "5", -2, "down"),
     KpiDelta("Cost/Day", "$283.70", -18, "down"),
     KpiDelta("Policies Enforced", "142", 12, "up"),
     KpiDelta("Threats Blocked", "847", 34, "up")])

  /** Every fixture value lies in its field's literal type, and the
      executive totals agree with the agent and server fixtures. */
  lemma FixturesWellTyped()
    ensures forall i :: 0 <= i < |MockServers| ==> WellTypedServer(MockServers[i])
    ensures forall i :: 0 <= i < |MockAgents| ==> WellTypedAgent(MockAgents[i])
    ensures forall i :: 0 <= i < |MockAlerts| ==> WellTypedAlert(MockAlerts[i])
    ensures forall i :: 0 <= i < |MockAuditLog| ==> WellTypedEvent(MockAuditLog[i])
    ensures ValidThreatLevel(MockExecutiveMetrics.threatLevel)
    ensures MockExecutiveMetrics.totalAgents == |MockAgents|
    ensures MockExecutiveMetrics.totalServers == |MockServers|
  {
  }

  // ------------------------------------------------------ live log generator

  const LiveActions: seq<string> := ["QUERY", "SCAN", "DEPLOY", "CACHE", "RESPOND", "ANALYZE", "MONITOR", "SYNC"]
  const LiveTools: seq<string> := ["vectorDB", "policy-engine", "ci-pipeline", "redis-cluster", "ticket-system", "llm-chain", "data-warehouse"]
  const LiveStatuses: seq<string> := ["success", "success", "success", "warning", "failed"]
  const LiveDetails := "Live activity stream entry"
  const InitialCounter := 100

  /** The `{ id, name }` pairs taken from the agent fixtures. */
  datatype AgentRef = AgentRef(id: string, name: string)

  function LiveAgents(): (r: seq<AgentRef>)
    ensures |r| == |MockAgents|
    ensures forall i :: 0 <= i < |r| ==> r[i] == AgentRef(MockAgents[i].id, MockAgents[i].name)
  {
    seq(|MockAgents|, i requires 0 <= i < |MockAgents| => AgentRef(MockAgents[i].id, MockAgents[i].name))
  }

  /** The five `Math.random()` values one entry consumes, in call order. */
  datatype LiveDraws = LiveDraws(agent: real, action: real, tool: real, status: real, duration: real)

  predicate IsDraw(r: real) { 0.0 <= r < 1.0 }

  predicate ValidDraws(d: LiveDraws) {
    IsDraw(d.agent) && IsDraw(d.action) && IsDraw(d.tool) && IsDraw(d.status) && IsDraw(d.duration)
  }

  /** `xs[Math.floor(r * xs.length)]`: always an element of `xs`. */
  function Pick<T>(xs: seq<T>, r: real): (x: T)
    requires |xs| > 0 && IsDraw(r)
    ensures x in xs
  {
    xs[ScaledFloor(r, |xs|)]
  }

  /** `Math.floor(r * 5000) + 10` */
  function LiveDuration(r: real): (d: int)
    requires IsDraw(r)
    ensures 10 <= d <= 5009
  {
    ScaledFloor(r, 5000) + 10
  }

  /** `` `log-${String(n).padStart(3, "0")}` `` */
  function LiveLogId(n: nat): string {
    "log-" + PadStart(NatToString(n), 3, '0')
  }

  /** The entry `generateLiveLogEntry` returns once the counter reads `n`. */
  function LiveEntry(n: nat, d: LiveDraws, now: string): AuditEvent
    requires ValidDraws(d)
  {
    var agent := Pick(LiveAgents(), d.agent);
    AuditEvent(
      LiveLogId(n),
      now,
      agent.id,
      agent.name,
      Pick(LiveActions, d.action),
      Pick(LiveTools, d.tool),
      Pick(LiveStatuses, d.status),
      LiveDetails,
      LiveDuration(d.duration))
  }

  /** What every live entry satisfies: its id renders the counter, its agent
      id and name belong to the same fixture agent, its status is a log
      status, its details are the fixed text and its duration lies in
      [10, 5009]. */
  lemma LiveEntryFacts(n: nat, d: LiveDraws, now: string)
    requires ValidDraws(d)
    ensures var e := LiveEntry(n, d, now);
      && e.id == LiveLogId(n) && e.timestamp == now
      && (exists i :: 0 <= i < |MockAgents| && MockAgents[i].id == e.agentId && MockAgents[i].name == e.agentName)
      && e.action in LiveActions && e.tool in LiveTools
      && WellTypedEvent(e)
      && e.details == "Live activity stream entry"
      && 10 <= e.duration <= 5009
  {
    var agent := Pick(LiveAgents(), d.agent);
    var i :| 0 <= i < |LiveAgents()| && LiveAgents()[i] == agent;
    assert MockAgents[i].id == agent.id && MockAgents[i].name == agent.name;
  }

  lemma LiveEntryId(n: nat, d: LiveDraws, now: string)
    requires ValidDraws(d)
    ensures LiveEntry(n, d, now).id == LiveLogId(n)
  {
  }

  /** For counters of 100 and above the number already has three digits, so
      no padding happens. */
  lemma LiveLogIdUnpadded(n: nat)
    requires n >= InitialCounter
    ensures LiveLogId(n) == "log-" + NatToString(n)
    ensures |LiveLogId(n)| >= 7 && LiveLogId(n)[4] != '0'
  {
    DigitCount(n);
    NoLeadingZero(n);
  }

  /** The first generated id is "log-101". */
  lemma FirstLiveId()
    ensures LiveLogId(InitialCounter + 1) == "log-101"
  {
    LiveLogIdUnpadded(101);
    assert NatToString(101) == NatToString(10) + [DigitChar(1)];
    assert NatToString(10) == NatToString(1) + [DigitChar(0)];
  }

  /** Counters from 100 on give pairwise distinct ids. */
  lemma LiveLogIdsDistinct(n: nat, m: nat)
    requires n >= InitialCounter && m >= InitialCounter && n != m
    ensures LiveLogId(n) != LiveLogId(m)
  {
    LiveLogIdUnpadded(n);
    LiveLogIdUnpadded(m);
    if LiveLogId(n) == LiveLogId(m) {
      assert LiveLogId(n)[4..] == NatToString(n);
      assert LiveLogId(m)[4..] == NatToString(m);
      NatToStringInjective(n, m);
    }
  }

  /** The shape of the seed ids "log-001" to "log-010": seven characters
      with a '0' right after "log-". */
  predicate SeedShaped(id: string) {
    |id| == 7 && id[4] == '0'
  }

  /** The ten seed ids run from "log-001" to "log-010"; every one has the
      seed shape, and they are pairwise distinct. */
  lemma SeedIdsShape()
    ensures |MockAuditLog| == 10 && MockAuditLog[0].id == "log-001" && MockAuditLog[9].id == "log-010"
    ensures forall i :: 0 <= i < |MockAuditLog| ==> SeedShaped(MockAuditLog[i].id)
    ensures forall i, j :: 0 <= i < j < |MockAuditLog| ==> MockAuditLog[i].id != MockAuditLog[j].id
  {
  }

  /** A live id never has the seed shape: its first digit is not '0'. */
  lemma LiveIdNotSeedShaped(n: nat)
    requires n >= InitialCounter
    ensures !SeedShaped(LiveLogId(n))
  {
    LiveLogIdUnpadded(n);
  }

  /** So a live id never equals an id of the seeded audit log. */
  lemma LiveIdNotSeed(n: nat)
    requires n >= InitialCounter
    ensures forall i :: 0 <= i < |MockAuditLog| ==> LiveLogId(n) != MockAuditLog[i].id
  {
    LiveIdNotSeedShaped(n);
    SeedIdsShape();
  }

  /** An id the log can hold once the generator's counter reads `counter`:
      a seed id, or a live id rendered from a counter value already issued. */
  predicate IssuedBy(id: string, counter: nat) {
    SeedShaped(id) || exists n: nat :: InitialCounter < n <= counter && id == LiveLogId(n)
  }

  /** Issued ids stay issued as the counter grows. */
  lemma IssuedByLater(id: string, counter: nat, later: nat)
    requires IssuedBy(id, counter) && counter <= later
    ensures IssuedBy(id, later)
  {
    if !SeedShaped(id) {
      var n: nat :| InitialCounter < n <= counter && id == LiveLogId(n);
      assert InitialCounter < n <= later;
    }
  }

  /** The id of a counter value above the initial one is issued from then on. */
  lemma LiveIdIssued(n: nat, counter: nat)
    requires InitialCounter < n <= counter
    ensures IssuedBy(LiveLogId(n), counter)
  {
  }

  /** The id of a counter value not yet reached differs from every issued id. */
  lemma FreshLiveId(m: nat, id: string, counter: nat)
    requires InitialCounter <= counter < m && IssuedBy(id, counter)
    ensures LiveLogId(m) != id
  {
    if SeedShaped(id) {
      LiveIdNotSeedShaped(m);
    } else {
      var n: nat :| InitialCounter < n <= counter && id == LiveLogId(n);
      LiveLogIdsDistinct(m, n);
    }
  }

  /** The module-level `logCounter` and the function that advances it. */
  class LiveLogGenerator {
    var logCounter: nat

    /** `let logCounter = 100` at module load. */
    constructor ()
      ensures logCounter == InitialCounter
    {
      logCounter := InitialCounter;
    }

    /** `generateLiveLogEntry()`: increments the counter by one and builds the
        entry from the new counter value. */
    method GenerateLiveLogEntry(d: LiveDraws, now: string) returns (e: AuditEvent)
      requires ValidDraws(d)
      modifies this
      ensures logCounter == old(logCounter) + 1
      ensures e == LiveEntry(logCounter, d, now)
    {
      logCounter := logCounter + 1;
      var agents := LiveAgents();
      var agent := agents[ScaledFloor(d.agent, |agents|)];
      e := AuditEvent(
        "log-" + PadStart(NatToString(logCounter), 3, '0'),
        now,
        agent.id,
        agent.name,
        LiveActions[ScaledFloor(d.action, |LiveActions|)],
        LiveTools[ScaledFloor(d.tool, |LiveTools|)],
        LiveStatuses[ScaledFloor(d.status, |LiveStatuses|)],
        LiveDetails,
        ScaledFloor(d.duration, 5000) + 10);
    }
  }
}
