/** The mock service layer of sentinel-frontend/src/services/serviceApi.ts:
    the action and query functions over the fixtures, and the session kept
    under two keys of the browser's `localStorage`. Delays are left out. */
module ServiceApi {
  import opened Base
  import opened Seqs
  import opened Text
  import opened ApiTypes
  import opened MockData

  // ---------------------------------------------------------------- actions

  datatype ActionResult = ActionResult(success: bool, message: string)

  const KillPrefix := "Kill switch executed for "
  const KillSuffix := ". Agent terminated. All access tokens revoked."

  /** `executeAction(actionType, agentId)` */
  function ExecuteAction(actionType: string, agentId: string): ActionResult {
    if actionType == "kill" then ActionResult(true, KillPrefix + agentId + KillSuffix)
    else ActionResult(true, "Action \"" + actionType + "\" executed on " + agentId + ".")
  }

  /** Every action succeeds; the message names the target; a message starts
      with "Kill switch" exactly when the action is "kill", and otherwise
      quotes the action's name. */
  lemma ExecuteActionFacts(actionType: string, agentId: string)
    ensures ExecuteAction(actionType, agentId).success
    ensures Contains(ExecuteAction(actionType, agentId).message, agentId)
    ensures var m := ExecuteAction(actionType, agentId).message;
      (|m| >= 11 && m[..11] == "Kill switch") <==> actionType == "kill"
    ensures actionType != "kill" ==> Contains(ExecuteAction(actionType, agentId).message, "\"" + actionType + "\"")
  {
    if actionType == "kill" {
      KillMessageFacts(agentId);
    } else {
      ActionMessageFacts(actionType, agentId);
    }
  }

  lemma KillMessageFacts(agentId: string)
    ensures var m := KillPrefix + agentId + KillSuffix;
      Contains(m, agentId) && |m| >= 11 && m[..11] == "Kill switch"
  {
    var m := KillPrefix + agentId + KillSuffix;
    assert m[|KillPrefix|..|KillPrefix| + |agentId|] == agentId;
    assert OccursAt(m, agentId, |KillPrefix|);
    assert m[..11] == KillPrefix[..11];
  }

  lemma ActionMessageFacts(actionType: string, agentId: string)
    ensures var m := "Action \"" + actionType + "\" executed on " + agentId + ".";
      Contains(m, agentId) && Contains(m, "\"" + actionType + "\"") && m[0] == 'A'
  {
    var quoted := "\"" + actionType + "\"";
    var head := "Action " + quoted + " executed on ";
    var m := "Action \"" + actionType + "\" executed on " + agentId + ".";
    assert m == head + agentId + ".";
    assert m[|head|..|head| + |agentId|] == agentId;
    assert OccursAt(m, agentId, |head|);
    assert m[7..7 + |quoted|] == quoted;
    assert OccursAt(m, quoted, 7);
  }

  // ---------------------------------------------------------------- queries

  predicate IsActive(a: AiAgent) { a.status == "active" }

  /** `agents.filter((a) => a.status === "active")` */
  function ActiveAgents(agents: seq<AiAgent>): seq<AiAgent> {
    Filter(agents, IsActive)
  }

  /** `getActiveAgents()` */
  function GetActiveAgents(): seq<AiAgent> {
    ActiveAgents(MockAgents)
  }

  /** The filter keeps exactly the active agents, in their original order. */
  lemma ActiveAgentsFacts(agents: seq<AiAgent>)
    ensures forall a :: a in ActiveAgents(agents) <==> a in agents && a.status == "active"
    ensures IsSubsequence(ActiveAgents(agents), agents)
    ensures (forall i :: 0 <= i < |agents| ==> agents[i].status == "active") ==> ActiveAgents(agents) == agents
  {
    FilterIsSubsequence(agents, IsActive);
    if forall i :: 0 <= i < |agents| ==> agents[i].status == "active" {
      FilterAll(agents, IsActive);
    }
  }

  /** Seven agents of which the third and fifth are not active leave five. */
  lemma {:induction false} FiveOfSevenActive(a: seq<AiAgent>)
    requires |a| == 7
    requires a[0].status == "active" && a[1].status == "active" && a[2].status != "active"
    requires a[3].status == "active" && a[4].status != "active"
    requires a[5].status == "active" && a[6].status == "active"
    ensures |ActiveAgents(a)| == 5
  {
    CountStep(a, 0, IsActive);
    CountStep(a, 1, IsActive);
    CountStep(a, 2, IsActive);
    CountStep(a, 3, IsActive);
    CountStep(a, 4, IsActive);
    CountStep(a, 5, IsActive);
    CountStep(a, 6, IsActive);
    assert a[0..] == a && a[7..] == [];
  }

  /** Over the fixtures, the active agents are the five the executive
      metrics report. */
  lemma ActiveAgentsMatchExecutiveMetrics()
    ensures |GetActiveAgents()| == MockExecutiveMetrics.activeAgents == 5
  {
    FiveOfSevenActive(MockAgents);
  }

  datatype SecurityMetrics = SecurityMetrics(alerts: seq<SecurityAlert>, threatLevel: string)

  /** `getSecurityMetrics()`: the alert fixtures with the executive threat level. */
  function GetSecurityMetrics(): (r: SecurityMetrics)
    ensures r.threatLevel == MockExecutiveMetrics.threatLevel && ValidThreatLevel(r.threatLevel)
    ensures |r.alerts| == 6 && forall i :: 0 <= i < |r.alerts| ==> WellTypedAlert(r.alerts[i])
  {
    FixturesWellTyped();
    SecurityMetrics(MockAlerts, MockExecutiveMetrics.threatLevel)
  }

  /** The number of entries `getLatestLogs` asks for. */
  function LatestCount(countDraw: real): nat {
    if countDraw > 0.3 then 1 else 2
  }

  /** The entries `getLatestLogs` returns when the generator's counter reads
      `start`: one entry when the draw exceeds 0.3, else two, each built from
      the next counter value and its own clock reading. */
  function LatestBatch(start: nat, countDraw: real, first: LiveDraws, second: LiveDraws, now1: string, now2: string): seq<AuditEvent>
    requires ValidDraws(first) && ValidDraws(second)
  {
    if countDraw > 0.3 then [LiveEntry(start + 1, first, now1)]
    else [LiveEntry(start + 1, first, now1), LiveEntry(start + 2, second, now2)]
  }

  /** A batch of one or two entries whose ids render the counter values
      right after `start`, in order. */
  predicate IdsAfter(batch: seq<AuditEvent>, start: nat) {
    && (|batch| == 1 || |batch| == 2)
    && batch[0].id == LiveLogId(start + 1)
    && (|batch| == 2 ==> batch[1].id == LiveLogId(start + 2))
  }

  /** A batch holds one or two entries whose ids render the next counter
      values. */
  lemma LatestBatchIds(start: nat, countDraw: real, first: LiveDraws, second: LiveDraws, now1: string, now2: string)
    requires ValidDraws(first) && ValidDraws(second)
    ensures var b := LatestBatch(start, countDraw, first, second, now1, now2);
      |b| == LatestCount(countDraw) && IdsAfter(b, start)
  {
    LiveEntryId(start + 1, first, now1);
    LiveEntryId(start + 2, second, now2);
  }

  /** `getLatestLogs()`: calls the generator once or twice. */
  method GetLatestLogs(gen: LiveLogGenerator, countDraw: real, first: LiveDraws, second: LiveDraws, now1: string, now2: string)
    returns (entries: seq<AuditEvent>)
    requires ValidDraws(first) && ValidDraws(second)
    modifies gen
    ensures entries == LatestBatch(old(gen.logCounter), countDraw, first, second, now1, now2)
    ensures gen.logCounter == old(gen.logCounter) + |entries|
  {
    var e1 := gen.GenerateLiveLogEntry(first, now1);
    if countDraw > 0.3 {
      entries := [e1];
    } else {
      var e2 := gen.GenerateLiveLogEntry(second, now2);
      entries := [e1, e2];
    }
  }

  // ---------------------------------------------------------------- session

  const AuthTokenKey := "auth_token"
  const AuthUserKey := "auth_user"

  /** The browser's `localStorage`, a map from keys to strings. */
  class LocalStorage {
    var items: map<string, string>

    constructor (initial: map<string, string>)
      ensures items == initial
    {
      items := initial;
    }

    /** `getItem(key)`: null when the key is absent. */
    function GetItem(key: string): (r: Option<string>)
      reads this
      ensures r.Some? <==> key in items
      ensures r.Some? ==> r.value == items[key]
    {
      if key in items then Some(items[key]) else None
    }

    /** `isAuthenticated()`: `!!getItem("auth_token")` — present and non-empty. */
    function IsAuthenticated(): (b: bool)
      reads this
      ensures b <==> AuthTokenKey in items && items[AuthTokenKey] != ""
    {
      var token := GetItem(AuthTokenKey);
      token.Some? && token.value != ""
    }

    /** `getAuthUser()`: the stored user text when present and non-empty, else
        null (its JSON parsing is not modelled). */
    function GetAuthUser(): (r: Option<string>)
      reads this
      ensures r.Some? <==> AuthUserKey in items && items[AuthUserKey] != ""
      ensures r.Some? ==> r.value == items[AuthUserKey]
    {
      var raw := GetItem(AuthUserKey);
      if raw.Some? && raw.value != "" then raw else None
    }

    /** `logout()`: removes both keys and nothing else. */
    method Logout()
      modifies this
      ensures items == old(items) - {AuthTokenKey, AuthUserKey}
      ensures !IsAuthenticated() && GetAuthUser().None?
      ensures GetItem(AuthTokenKey).None? && GetItem(AuthUserKey).None?
      ensures forall k :: k != AuthTokenKey && k != AuthUserKey ==>
        (k in items <==> k in old(items)) && (k in items ==> items[k] == old(items)[k])
    {
      items := map k | k in items && k != AuthTokenKey :: items[k];
      items := map k | k in items && k != AuthUserKey :: items[k];
    }

    /** The two `setItem` calls of the login page after a successful sign-in. */
    method SaveSession(token: string, userJson: string)
      modifies this
      ensures items == old(items)[AuthTokenKey := token][AuthUserKey := userJson]
      ensures IsAuthenticated() <==> token != ""
      ensures GetAuthUser().Some? <==> userJson != ""
      ensures GetItem(AuthTokenKey) == Some(token) && GetItem(AuthUserKey) == Some(userJson)
    {
      items := items[AuthTokenKey := token];
      items := items[AuthUserKey := userJson];
    }

    /** Logging out after a login leaves every other key as it was before
        the login, and ends unauthenticated with no stored user. */
    method LoginThenLogout(token: string, userJson: string)
      modifies this
      ensures items == old(items) - {AuthTokenKey, AuthUserKey}
      ensures forall k :: k != AuthTokenKey && k != AuthUserKey ==> GetItem(k) == old(GetItem(k))
      ensures !IsAuthenticated() && GetAuthUser().None?
    {
      SaveSession(token, userJson);
      Logout();
    }
  }
}
