/** The container risk score of sentinel-backend/core/risk_engine.py: an
    additive score over five container attributes, capped at 100. */
module RiskEngine {
  import opened Base

  /** The parts of Docker's container attribute dictionary the score reads. */
  datatype ContainerAttrs = ContainerAttrs(
    privileged: bool,        // HostConfig.Privileged, read for truthiness
    user: Option<string>,    // Config.User; None when the key is absent
    hasHealthcheck: bool,    // Config has a "Healthcheck" key
    portKeys: set<string>)   // the keys of NetworkSettings.Ports ("port/proto")

  const PrivilegedWeight := 40
  const RootWeight := 30
  const CriticalPortWeight := 20
  const NoHealthcheckWeight := 10
  const UntrustedImageWeight := 15
  const MaxScore := 100

  /** The ports looked up under NetworkSettings.Ports, in lookup order. */
  const CriticalPorts: seq<string> := ["22/tcp", "2375/tcp", "23/tcp"]

  /** A missing User counts as the empty string, which counts as root. */
  predicate RunsAsRoot(user: Option<string>) {
    var u := user.GetOr("");
    u == "" || u == "0" || u == "root"
  }

  predicate ExposesCriticalPort(portKeys: set<string>) {
    exists i :: 0 <= i < |CriticalPorts| && CriticalPorts[i] in portKeys
  }

  /** The text before the first "/" (`name.split("/")[0]`). */
  function FirstSegment(name: string): (r: string)
    ensures |r| <= |name| && r == name[..|r|]
    ensures '/' !in r
    ensures '/' !in name ==> r == name
    ensures |r| < |name| ==> name[|r|] == '/'
  {
    if name == [] || name[0] == '/' then [] else [name[0]] + FirstSegment(name[1..])
  }

  /** An image name with no registry host: no "/" at all, or no "." before the first "/". */
  predicate UntrustedImage(name: string) {
    '/' !in name || '.' !in FirstSegment(name)
  }

  function PrivilegedPoints(a: ContainerAttrs): nat {
    if a.privileged then PrivilegedWeight else 0
  }

  function RootPoints(a: ContainerAttrs): nat {
    if RunsAsRoot(a.user) then RootWeight else 0
  }

  function PortPoints(a: ContainerAttrs): nat {
    if ExposesCriticalPort(a.portKeys) then CriticalPortWeight else 0
  }

  function HealthcheckPoints(a: ContainerAttrs): nat {
    if a.hasHealthcheck then 0 else NoHealthcheckWeight
  }

  /** Only the first tag is examined; an empty tag list adds nothing. */
  function ImagePoints(imageTags: seq<string>): nat {
    if |imageTags| > 0 && UntrustedImage(imageTags[0]) then UntrustedImageWeight else 0
  }

  /** The sum of the five factors before the cap. */
  function RawScore(a: ContainerAttrs, imageTags: seq<string>): nat {
    PrivilegedPoints(a) + RootPoints(a) + PortPoints(a) + HealthcheckPoints(a) + ImagePoints(imageTags)
  }

  /** The score `calculate_risk_score` returns. */
  function RiskScore(a: ContainerAttrs, imageTags: seq<string>): (r: int)
    ensures 0 <= r <= MaxScore
    ensures r == MaxScore || r == RawScore(a, imageTags)
  {
    var raw := RawScore(a, imageTags);
    if raw < MaxScore then raw else MaxScore
  }

  /** `calculate_risk_score(container_attrs, image_tags)`: the accumulator,
      the critical-port loop that stops at the first hit, and the cap. */
  method CalculateRiskScore(attrs: ContainerAttrs, imageTags: seq<string>) returns (score: int)
    ensures score == RiskScore(attrs, imageTags)
  {
    score := 0;

    if attrs.privileged {
      score := score + PrivilegedWeight;
    }

    var user := attrs.user.GetOr("");
    if user == "" || user == "0" || user == "root" {
      score := score + RootWeight;
    }

    ghost var beforePorts := score;
    var i := 0;
    while i < |CriticalPorts|
      invariant 0 <= i <= |CriticalPorts|
      invariant score == beforePorts
      invariant forall k :: 0 <= k < i ==> CriticalPorts[k] !in attrs.portKeys
    {
      if CriticalPorts[i] in attrs.portKeys {
        score := score + CriticalPortWeight;
        break;
      }
      i := i + 1;
    }
    assert score == beforePorts + PortPoints(attrs);

    if !attrs.hasHealthcheck {
      score := score + NoHealthcheckWeight;
    }

    if |imageTags| > 0 {
      var imageName := imageTags[0];
      if '/' !in imageName || '.' !in FirstSegment(imageName) {
        score := score + UntrustedImageWeight;
      }
    }

    score := if score < MaxScore then score else MaxScore;
  }

  /** The factors can sum to 115, so the cap is reachable. */
  lemma CapReachable()
    ensures exists a: ContainerAttrs, t: seq<string> :: RawScore(a, t) == 115 && RiskScore(a, t) == MaxScore
  {
    var a := ContainerAttrs(true, None, false, {"22/tcp"});
    assert CriticalPorts[0] in a.portKeys;
    assert '/' !in "nginx";
    assert RawScore(a, ["nginx"]) == 115;
  }

  /** Without the privileged flag the other four factors stay under the cap,
      so privileged mode adds exactly 40 to the uncapped total and the capped
      score is the smaller of that total and 100. */
  lemma PrivilegedAddsForty(a: ContainerAttrs, t: seq<string>)
    ensures RawScore(a.(privileged := true), t) == RawScore(a.(privileged := false), t) + 40
    ensures RiskScore(a.(privileged := false), t) == RawScore(a.(privileged := false), t) <= 75
    ensures RiskScore(a.(privileged := true), t) == if RawScore(a.(privileged := false), t) + 40 < 100 then RawScore(a.(privileged := false), t) + 40 else 100
  {
  }

  /** "", "0" and "root" add 30, a missing User counts as "", and every
      other user adds nothing. */
  lemma RootUserAddsThirty(a: ContainerAttrs)
    ensures RootPoints(a.(user := None)) == 30
    ensures RootPoints(a.(user := Some(""))) == 30
    ensures RootPoints(a.(user := Some("0"))) == 30
    ensures RootPoints(a.(user := Some("root"))) == 30
    ensures RootPoints(a.(user := Some("1000"))) == 0
    ensures a.user.Some? && a.user.value != "" && a.user.value != "0" && a.user.value != "root" ==> RootPoints(a) == 0
    ensures RootPoints(a) == 30 || RootPoints(a) == 0
  {
    assert "1000" != "" && "1000" != "0" && "1000" != "root";
  }

  /** Critical ports add at most 20 in total, however many are exposed, and
      exactly 20 as soon as any one of them is. */
  lemma CriticalPortsAddAtMostTwenty(a: ContainerAttrs)
    ensures PortPoints(a) <= 20
    ensures PortPoints(a) == 20 <==> ("22/tcp" in a.portKeys || "2375/tcp" in a.portKeys || "23/tcp" in a.portKeys)
  {
    if "22/tcp" in a.portKeys {
      assert CriticalPorts[0] in a.portKeys;
    } else if "2375/tcp" in a.portKeys {
      assert CriticalPorts[1] in a.portKeys;
    } else if "23/tcp" in a.portKeys {
      assert CriticalPorts[2] in a.portKeys;
    }
  }

  /** Only the first image tag is examined. */
  lemma OnlyFirstTagCounts(first: string, rest: seq<string>)
    ensures ImagePoints([first] + rest) == ImagePoints([first])
    ensures ImagePoints([]) == 0
  {
  }

  /** Every factor that is switched on in `a` is switched on in `b`. */
  predicate AtLeastAsRisky(a: ContainerAttrs, ta: seq<string>, b: ContainerAttrs, tb: seq<string>) {
    && (a.privileged ==> b.privileged)
    && (RunsAsRoot(a.user) ==> RunsAsRoot(b.user))
    && (ExposesCriticalPort(a.portKeys) ==> ExposesCriticalPort(b.portKeys))
    && (!a.hasHealthcheck ==> !b.hasHealthcheck)
    && (ImagePoints(ta) > 0 ==> ImagePoints(tb) > 0)
  }

  /** Monotonicity: switching factors on never lowers the score. */
  lemma ScoreMonotone(a: ContainerAttrs, ta: seq<string>, b: ContainerAttrs, tb: seq<string>)
    requires AtLeastAsRisky(a, ta, b, tb)
    ensures RawScore(a, ta) <= RawScore(b, tb)
    ensures RiskScore(a, ta) <= RiskScore(b, tb)
  {
  }
}
