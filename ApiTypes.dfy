/** The records of sentinel-frontend/src/services/serviceApi.ts. Fields typed
    as a union of string literals stay strings, as they are at run time; the
    predicates below state the literal types. */
module ApiTypes {

  predicate ValidStatus(s: string) { s == "active" || s == "dormant" || s == "rogue" }
  predicate ValidRiskLevel(s: string) { s == "low" || s == "medium" || s == "high" || s == "critical" }
  predicate ValidSeverity(s: string) { s == "critical" || s == "high" || s == "medium" }
  predicate ValidAlertStatus(s: string) { s == "active" || s == "investigating" || s == "resolved" }
  predicate ValidLogStatus(s: string) { s == "success" || s == "warning" || s == "failed" }
  predicate ValidThreatLevel(s: string) { s == "low" || s == "elevated" || s == "high" || s == "critical" }
  predicate ValidTrend(s: string) { s == "up" || s == "down" }

  /** `MCP_Server` */
  datatype McpServer = McpServer(
    id: string,
    name: string,
    status: string,
    riskScore: int,
    riskLevel: string,
    lastSeen: string,
    connectedAgents: int,
    toolsExposed: int,
    region: string,
    protocol: string)

  /** `AI_Agent` */
  datatype AiAgent = AiAgent(
    id: string,
    name: string,
    model: string,
    status: string,
    riskScore: int,
    riskLevel: string,
    lastSeen: string,
    totalCalls: int,
    costPerDay: real,
    mcpServerId: string,
    capabilities: seq<string>)

  /** `Security_Alert` */
  datatype SecurityAlert = SecurityAlert(
    id: string,
    severity: string,
    agentId: string,
    agentName: string,
    violationType: string,
    description: string,
    timestamp: string,
    status: string)

  /** `Audit_Log_Event` */
  datatype AuditEvent = AuditEvent(
    id: string,
    timestamp: string,
    agentId: string,
    agentName: string,
    action: string,
    tool: string,
    status: string,
    details: string,
    duration: int)

  datatype CostRiskPoint = CostRiskPoint(month: string, cost: int, risk: int)

  /** One KPI card; `caption` is the `label` field (a keyword in Dafny). */
  datatype KpiDelta = KpiDelta(caption: string, value: string, delta: int, trend: string)

  /** `ExecutiveMetrics` */
  datatype ExecutiveMetrics = ExecutiveMetrics(
    totalAgents: int,
    activeAgents: int,
    totalServers: int,
    threatLevel: string,
    moneySaved: int,
    costReduction: int,
    alertsActive: int,
    policiesEnforced: int,
    costVsRiskTrend: seq<CostRiskPoint>,
    kpiDeltas: seq<KpiDelta>)

  predicate WellTypedServer(s: McpServer) { ValidStatus(s.status) && ValidRiskLevel(s.riskLevel) }
  predicate WellTypedAgent(a: AiAgent) { ValidStatus(a.status) && ValidRiskLevel(a.riskLevel) }
  predicate WellTypedAlert(a: SecurityAlert) { ValidSeverity(a.severity) && ValidAlertStatus(a.status) }
  predicate WellTypedEvent(e: AuditEvent) { ValidLogStatus(e.status) }
}
