/** The severity filter, the per-severity counts and the critical banner of
    sentinel-frontend/src/pages/SecurityDashboard.tsx. */
module SecurityDashboard {
  import opened Base
  import opened Seqs
  import opened ApiTypes
  import opened MockData
  import opened ServiceApi

  /** The filter buttons, in their display order. */
  const FilterButtons: seq<string> := ["all", "critical", "high", "medium"]

  /** The severities counted in the threat level bar. */
  const CountedSeverities: seq<string> := ["critical", "high", "medium"]

  function HasSeverity(sev: string): SecurityAlert -> bool {
    (a: SecurityAlert) => a.severity == sev
  }

  /** `filtered`: every alert for "all", otherwise those of that severity. */
  function FilterAlerts(alerts: seq<SecurityAlert>, filter: string): seq<SecurityAlert> {
    if filter == "all" then alerts else Filter(alerts, HasSeverity(filter))
  }

  /** The count shown above a severity in the threat level bar. */
  function SeverityCount(alerts: seq<SecurityAlert>, sev: string): nat {
    Count(alerts, HasSeverity(sev))
  }

  /** "all" leaves the list unchanged; any other filter keeps exactly the
      alerts of that severity, in their original order, and a severity's
      count is the length of its filter. */
  lemma FilterAlertsFacts(alerts: seq<SecurityAlert>, filter: string)
    ensures filter == "all" ==> FilterAlerts(alerts, filter) == alerts
    ensures filter != "all" ==> forall a :: a in FilterAlerts(alerts, filter) <==> a in alerts && a.severity == filter
    ensures IsSubsequence(FilterAlerts(alerts, filter), alerts)
    ensures filter != "all" ==> SeverityCount(alerts, filter) == |FilterAlerts(alerts, filter)|
  {
    if filter == "all" {
      SubsequenceReflexive(alerts);
    } else {
      FilterIsSubsequence(alerts, HasSeverity(filter));
    }
  }

  /** When every alert has one of the three severities, the three counts
      add up to the number of alerts. */
  lemma {:induction false} SeverityCountsSum(alerts: seq<SecurityAlert>)
    requires forall i :: 0 <= i < |alerts| ==> ValidSeverity(alerts[i].severity)
    ensures SeverityCount(alerts, "critical") + SeverityCount(alerts, "high") + SeverityCount(alerts, "medium") == |alerts|
  {
    if alerts != [] {
      SeverityCountsSum(alerts[1..]);
    }
  }

  /** Six alerts, two of each severity, in that order. */
  lemma {:induction false} TwoOfEach(a: seq<SecurityAlert>, sev: string)
    requires |a| == 6
    requires a[0].severity == a[1].severity == "critical"
    requires a[2].severity == a[3].severity == "high"
    requires a[4].severity == a[5].severity == "medium"
    requires sev in CountedSeverities
    ensures SeverityCount(a, sev) == 2
  {
    var p := HasSeverity(sev);
    CountStep(a, 0, p);
    CountStep(a, 1, p);
    CountStep(a, 2, p);
    CountStep(a, 3, p);
    CountStep(a, 4, p);
    CountStep(a, 5, p);
    assert a[0..] == a && a[6..] == [];
  }

  /** Over the fixtures the bar reads two critical, two high and two medium
      alerts. */
  lemma MockSeverityCounts()
    ensures SeverityCount(GetSecurityMetrics().alerts, "critical") == 2
    ensures SeverityCount(GetSecurityMetrics().alerts, "high") == 2
    ensures SeverityCount(GetSecurityMetrics().alerts, "medium") == 2
  {
    TwoOfEach(MockAlerts, "critical");
    TwoOfEach(MockAlerts, "high");
    TwoOfEach(MockAlerts, "medium");
  }

  /** The critical banner shows when the metrics have loaded and their
      threat level is exactly "critical". */
  predicate ShowsCriticalBanner(data: Option<SecurityMetrics>) {
    data.Some? && data.value.threatLevel == "critical"
  }

  /** The fixtures' threat level is "high", so the banner stays hidden. */
  lemma MockBannerHidden()
    ensures !ShowsCriticalBanner(Some(GetSecurityMetrics()))
    ensures !ShowsCriticalBanner(None)
  {
  }

  /** The page's `filter` state hook. */
  class SecurityView {
    var filter: string

    predicate Valid()
      reads this
    {
      filter in FilterButtons
    }

    /** `useState<string>("all")` */
    constructor ()
      ensures filter == "all" && Valid()
    {
      filter := "all";
    }

    /** The alert cards shown for the current filter. */
    function Shown(alerts: seq<SecurityAlert>): (r: seq<SecurityAlert>)
      reads this
      ensures IsSubsequence(r, alerts)
      ensures filter == "all" ==> r == alerts
      ensures filter != "all" ==> forall a :: a in r <==> a in alerts && a.severity == filter
    {
      FilterAlertsFacts(alerts, filter);
      FilterAlerts(alerts, filter)
    }

    /** The `i`-th filter button: the filter becomes that button's value. */
    method ClickFilter(i: nat)
      requires i < |FilterButtons|
      modifies this
      ensures filter == FilterButtons[i]
      ensures Valid()
    {
      filter := FilterButtons[i];
    }
  }
}
