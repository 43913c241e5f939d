/** The alert endpoint of sentinel-backend/api/v1/security.py: one fixed
    alert per scanned container. */
module SecurityApi {
  import opened Text
  import opened Scanner

  /** The pydantic model `SecurityAlert` of the backend. */
  datatype SecurityAlert = SecurityAlert(id: string, severity: string, message: string, agentName: string, timestamp: string)

  const AlertSeverity := "medium"
  const AlertMessage := "Shadow AI Activity Detected"
  const AlertTimestamp := "2026-02-14T20:30:00"

  /** `f"alert_{i+1}"` for the container at index `i`. */
  function AlertId(i: nat): string {
    "alert_" + NatToString(i + 1)
  }

  /** Alert ids differ for different positions. */
  lemma AlertIdsDistinct(i: nat, j: nat)
    requires i != j
    ensures AlertId(i) != AlertId(j)
  {
    if AlertId(i) == AlertId(j) {
      assert AlertId(i)[6..] == NatToString(i + 1);
      assert AlertId(j)[6..] == NatToString(j + 1);
      NatToStringInjective(i + 1, j + 1);
    }
  }

  /** `get_alerts()`, over the containers the scanner reports: every
      container yields one alert, sanctioned or not, with the same severity,
      message and timestamp, in scan order and with pairwise distinct ids. */
  method GetAlerts(containers: seq<ContainerInfo>) returns (alerts: seq<SecurityAlert>)
    ensures |alerts| == |containers|
    ensures forall i :: 0 <= i < |alerts| ==>
      alerts[i] == SecurityAlert(AlertId(i), AlertSeverity, AlertMessage, containers[i].name, AlertTimestamp)
    ensures forall i, j :: 0 <= i < j < |alerts| ==> alerts[i].id != alerts[j].id
  {
    alerts := [];
    var i := 0;
    while i < |containers|
      invariant 0 <= i <= |containers|
      invariant |alerts| == i
      invariant forall k :: 0 <= k < i ==>
        alerts[k] == SecurityAlert(AlertId(k), AlertSeverity, AlertMessage, containers[k].name, AlertTimestamp)
    {
      var container := containers[i];
      var alert := SecurityAlert(
        "alert_" + NatToString(i + 1),
        AlertSeverity,
        AlertMessage,
        container.name,
        AlertTimestamp);
      alerts := alerts + [alert];
      i := i + 1;
    }
    forall i, j | 0 <= i < j < |alerts|
      ensures alerts[i].id != alerts[j].id
    {
      AlertIdsDistinct(i, j);
    }
  }
}
