/** The search filters and the action wiring of
    sentinel-frontend/src/pages/DiscoveryDashboard.tsx. */
module DiscoveryDashboard {
  import opened Base
  import opened Seqs
  import opened Text
  import opened ApiTypes
  import opened ServiceApi
  import opened ConfirmDialogs

  /** The discovery response; either list may be missing. */
  datatype DiscoveryData = DiscoveryData(servers: Option<seq<McpServer>>, agents: Option<seq<AiAgent>>)

  /** The search rule shared by both tables: the lower-cased name contains
      the lower-cased search, or the id contains the search as typed. */
  predicate Matches(name: string, id: string, search: string) {
    Contains(Lower(name), Lower(search)) || Contains(id, search)
  }

  /** `(safeData.agents || [])`, where `safeData = data || { servers: [], agents: [] }`. */
  function AgentsOf(data: Option<DiscoveryData>): seq<AiAgent> {
    if data.Some? && data.value.agents.Some? then data.value.agents.value else []
  }

  function ServersOf(data: Option<DiscoveryData>): seq<McpServer> {
    if data.Some? && data.value.servers.Some? then data.value.servers.value else []
  }

  /** `filteredAgents` */
  function FilteredAgents(data: Option<DiscoveryData>, search: string): seq<AiAgent> {
    Filter(AgentsOf(data), (a: AiAgent) => Matches(a.name, a.id, search))
  }

  /** `filteredServers` */
  function FilteredServers(data: Option<DiscoveryData>, search: string): seq<McpServer> {
    Filter(ServersOf(data), (s: McpServer) => Matches(s.name, s.id, search))
  }

  /** The empty search matches everything, and every item matches its own id. */
  lemma MatchesFacts(name: string, id: string)
    ensures Matches(name, id, "")
    ensures Matches(name, id, id)
  {
    ContainsEmpty(Lower(name));
    ContainsItself(id);
  }

  /** The agent table: exactly the matching agents, in their original order;
      all of them for the empty search; none when the data is missing. */
  lemma FilteredAgentsFacts(data: Option<DiscoveryData>, search: string)
    ensures forall a :: a in FilteredAgents(data, search) <==> a in AgentsOf(data) && Matches(a.name, a.id, search)
    ensures IsSubsequence(FilteredAgents(data, search), AgentsOf(data))
    ensures search == "" ==> FilteredAgents(data, search) == AgentsOf(data)
    ensures data.None? ==> FilteredAgents(data, search) == []
  {
    var p := (a: AiAgent) => Matches(a.name, a.id, search);
    FilterIsSubsequence(AgentsOf(data), p);
    if search == "" {
      forall i | 0 <= i < |AgentsOf(data)|
        ensures p(AgentsOf(data)[i])
      {
        MatchesFacts(AgentsOf(data)[i].name, AgentsOf(data)[i].id);
      }
      FilterAll(AgentsOf(data), p);
    }
  }

  /** The server table follows the same rule. */
  lemma FilteredServersFacts(data: Option<DiscoveryData>, search: string)
    ensures forall s :: s in FilteredServers(data, search) <==> s in ServersOf(data) && Matches(s.name, s.id, search)
    ensures IsSubsequence(FilteredServers(data, search), ServersOf(data))
    ensures search == "" ==> FilteredServers(data, search) == ServersOf(data)
    ensures data.None? ==> FilteredServers(data, search) == []
  {
    var p := (s: McpServer) => Matches(s.name, s.id, search);
    FilterIsSubsequence(ServersOf(data), p);
    if search == "" {
      forall i | 0 <= i < |ServersOf(data)|
        ensures p(ServersOf(data)[i])
      {
        MatchesFacts(ServersOf(data)[i].name, ServersOf(data)[i].id);
      }
      FilterAll(ServersOf(data), p);
    }
  }

  /** Searching for an item's id keeps that item. */
  lemma SearchByIdFindsAgent(data: Option<DiscoveryData>, a: AiAgent)
    requires a in AgentsOf(data)
    ensures a in FilteredAgents(data, a.id)
  {
    MatchesFacts(a.name, a.id);
  }

  // ---------------------------------------------------------------- actions

  datatype ToastStyle = ErrorToast | WarningToast

  datatype Toast = Toast(style: ToastStyle, message: string, description: string)

  /** The request the agent kill dialog's `onConfirm` sends. */
  datatype ActionRequest = ActionRequest(actionType: string, id: string)

  /** `killMutation.mutate({ agentId: id })`: always the "kill" action. */
  function KillRequest(agentId: string): ActionRequest {
    ActionRequest("kill", agentId)
  }

  /** The server dialog's `onConfirm`: the action selected in the table. */
  function ServerRequest(action: ServerAction, serverId: string): ActionRequest {
    ActionRequest(action.Name(), serverId)
  }

  /** `vars.actionType === "kill" ? toast.error : toast.warning` */
  function ServerToastStyle(actionType: string): ToastStyle {
    if actionType == "kill" then ErrorToast else WarningToast
  }

  /** The server toast is an error exactly for the kill action; the agent
      kill always sends "kill", and the service reports it as a kill. */
  lemma ToastAndRequestFacts(action: ServerAction, id: string)
    ensures ServerToastStyle(ServerRequest(action, id).actionType) == ErrorToast <==> action == Kill
    ensures KillRequest(id).actionType == "kill" && KillRequest(id).id == id
    ensures ServerRequest(action, id).id == id
    ensures var r := ExecuteAction(KillRequest(id).actionType, KillRequest(id).id);
      r.success && Contains(r.message, id)
  {
    ExecuteActionFacts("kill", id);
  }

  /** The server dialog's target: the server and the selected action. */
  datatype ServerTarget = ServerTarget(server: McpServer, action: ServerAction)

  /** The page's state hooks that the dialogs depend on. */
  class DiscoveryState {
    var search: string
    var killTarget: Option<AiAgent>
    var serverActionTarget: Option<ServerTarget>

    constructor ()
      ensures search == "" && killTarget.None? && serverActionTarget.None?
      ensures !KillDialogOpen() && ServerDialogAction() == Quarantine
    {
      search := "";
      killTarget := None;
      serverActionTarget := None;
    }

    /** The kill dialog is open exactly when there is a kill target. */
    function KillDialogOpen(): (b: bool)
      reads this
      ensures b <==> killTarget.Some?
    {
      killTarget.Some?
    }

    /** `actionType={serverActionTarget?.action ?? "quarantine"}` */
    function ServerDialogAction(): (a: ServerAction)
      reads this
      ensures serverActionTarget.Some? ==> a == serverActionTarget.value.action
      ensures serverActionTarget.None? ==> a == Quarantine
    {
      if serverActionTarget.Some? then serverActionTarget.value.action else Quarantine
    }

    method SetSearch(text: string)
      modifies this
      ensures search == text
      ensures killTarget == old(killTarget) && serverActionTarget == old(serverActionTarget)
    {
      search := text;
    }

    /** The row's kill button. */
    method OpenKill(agent: AiAgent)
      modifies this
      ensures killTarget == Some(agent) && KillDialogOpen()
      ensures search == old(search) && serverActionTarget == old(serverActionTarget)
    {
      killTarget := Some(agent);
    }

    /** The row's quarantine and kill buttons. */
    method OpenServerAction(server: McpServer, action: ServerAction)
      modifies this
      ensures serverActionTarget == Some(ServerTarget(server, action))
      ensures ServerDialogAction() == action
      ensures search == old(search) && killTarget == old(killTarget)
    {
      serverActionTarget := Some(ServerTarget(server, action));
    }

    /** `onOpenChange={(v) => !v && setKillTarget(null)}` */
    method KillDialogOpenChange(open: bool)
      modifies this
      ensures !open ==> killTarget.None? && !KillDialogOpen()
      ensures open ==> killTarget == old(killTarget)
      ensures search == old(search) && serverActionTarget == old(serverActionTarget)
    {
      if !open {
        killTarget := None;
      }
    }

    /** `onOpenChange={(v) => !v && setServerActionTarget(null)}` */
    method ServerDialogOpenChange(open: bool)
      modifies this
      ensures !open ==> serverActionTarget.None? && ServerDialogAction() == Quarantine
      ensures open ==> serverActionTarget == old(serverActionTarget)
      ensures search == old(search) && killTarget == old(killTarget)
    {
      if !open {
        serverActionTarget := None;
      }
    }

    /** The id the kill dialog asks for; a null target renders nothing. */
    function KillTargetId(): (id: Option<string>)
      reads this
      ensures id.Some? <==> killTarget.Some?
      ensures id.Some? ==> id.value == killTarget.value.id
    {
      if killTarget.Some? then Some(killTarget.value.id) else None
    }

    /** The id the server dialog asks for. */
    function ServerTargetId(): (id: Option<string>)
      reads this
      ensures id.Some? <==> serverActionTarget.Some?
      ensures id.Some? ==> id.value == serverActionTarget.value.server.id
    {
      if serverActionTarget.Some? then Some(serverActionTarget.value.server.id) else None
    }

    /** The kill dialog's confirm button, a closing action of the alert
        dialog. When enabled it hands the agent's id to the kill mutation,
        clears the text, and then closes the dialog, which clears the kill
        target before the mutation settles. A disabled button does nothing. */
    method ConfirmKill(gate: ConfirmGate, isPending: bool) returns (request: Option<ActionRequest>)
      modifies this, gate
      ensures request.Some? <==> old(Enabled(gate.confirmText, KillTargetId(), isPending))
      ensures request.Some? ==>
        && request.value == KillRequest(old(killTarget).value.id)
        && killTarget.None? && !KillDialogOpen() && gate.confirmText == ""
      ensures request.None? ==> killTarget == old(killTarget) && gate.confirmText == old(gate.confirmText)
      ensures search == old(search) && serverActionTarget == old(serverActionTarget)
    {
      var dispatched := gate.Confirm(KillTargetId(), isPending);
      if dispatched.None? {
        request := None;
        return;
      }
      request := Some(KillRequest(dispatched.value));
      gate.OpenChange(false);
      KillDialogOpenChange(false);
    }

    /** The kill dialog's cancel button: clears the text and closes the
        dialog, clearing the kill target. */
    method CancelKill(gate: ConfirmGate)
      modifies this, gate
      ensures gate.confirmText == "" && killTarget.None? && !KillDialogOpen()
      ensures search == old(search) && serverActionTarget == old(serverActionTarget)
    {
      gate.Cancel();
      gate.OpenChange(false);
      KillDialogOpenChange(false);
    }

    /** The server dialog's confirm button: when enabled it sends the
        selected action for the server's id, read while the target is still
        set, clears the text and closes the dialog, clearing the target. */
    method ConfirmServerAction(gate: ConfirmGate, isPending: bool) returns (request: Option<ActionRequest>)
      modifies this, gate
      ensures request.Some? <==> old(Enabled(gate.confirmText, ServerTargetId(), isPending))
      ensures request.Some? ==>
        && request.value == ServerRequest(old(serverActionTarget).value.action, old(serverActionTarget).value.server.id)
        && serverActionTarget.None? && ServerDialogAction() == Quarantine && gate.confirmText == ""
      ensures request.None? ==> serverActionTarget == old(serverActionTarget) && gate.confirmText == old(gate.confirmText)
      ensures search == old(search) && killTarget == old(killTarget)
    {
      var dispatched := gate.Confirm(ServerTargetId(), isPending);
      if dispatched.None? {
        request := None;
        return;
      }
      request := Some(ServerRequest(serverActionTarget.value.action, dispatched.value));
      gate.OpenChange(false);
      ServerDialogOpenChange(false);
    }

    /** The server dialog's cancel button. */
    method CancelServerAction(gate: ConfirmGate)
      modifies this, gate
      ensures gate.confirmText == "" && serverActionTarget.None? && ServerDialogAction() == Quarantine
      ensures search == old(search) && killTarget == old(killTarget)
    {
      gate.Cancel();
      gate.OpenChange(false);
      ServerDialogOpenChange(false);
    }

    /** The kill mutation's `onSuccess`: an error toast with the service's
        message, and the kill target cleared. */
    method KillSucceeded(res: ActionResult) returns (toast: Toast)
      modifies this
      ensures toast == Toast(ErrorToast, res.message, "Kill switch executed")
      ensures killTarget.None? && !KillDialogOpen()
      ensures search == old(search) && serverActionTarget == old(serverActionTarget)
    {
      toast := Toast(ErrorToast, res.message, "Kill switch executed");
      killTarget := None;
    }

    /** The server mutation's `onSuccess`: an error toast for "kill", a
        warning otherwise, and the server target cleared. */
    method ServerActionSucceeded(res: ActionResult, request: ActionRequest) returns (toast: Toast)
      modifies this
      ensures toast.style == ServerToastStyle(request.actionType)
      ensures toast.message == res.message
      ensures toast.description == "Server " + request.actionType + " executed"
      ensures serverActionTarget.None? && ServerDialogAction() == Quarantine
      ensures search == old(search) && killTarget == old(killTarget)
    {
      var style := if request.actionType == "kill" then ErrorToast else WarningToast;
      toast := Toast(style, res.message, "Server " + request.actionType + " executed");
      serverActionTarget := None;
    }
  }
}
