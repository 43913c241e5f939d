/** The typed-confirmation gate shared by
    sentinel-frontend/src/components/discovery/KillSwitchDialog.tsx and
    ServerActionDialog.tsx: the confirm button is enabled only when the text
    typed equals the target's id exactly and no request is pending; the text
    is cleared on confirm, on cancel and when the dialog closes. */
module ConfirmDialogs {
  import opened Base

  /** Whether the confirm button is enabled: a target is shown (a null target
      renders nothing), the typed text equals its id exactly, and no request
      is pending (an absent `isPending` counts as false). */
  predicate Enabled(confirmText: string, targetId: Option<string>, isPending: bool) {
    targetId.Some? && confirmText == targetId.value && !isPending
  }

  /** The user's interactions with one dialog. */
  datatype GateEvent =
    | Typed(text: string)           // the input's onChange
    | Cancelled                     // the Cancel button
    | OpenChanged(open: bool)       // the dialog's onOpenChange
    | Clicked                       // the confirm button

  /** The text after one event, and the id handed to `onConfirm`, if any. */
  datatype StepResult = StepResult(confirmText: string, dispatched: Option<string>)

  function Step(confirmText: string, targetId: Option<string>, isPending: bool, ev: GateEvent): StepResult {
    match ev
    case Typed(t) => StepResult(t, None)
    case Cancelled => StepResult("", None)
    case OpenChanged(open) => StepResult(if open then confirmText else "", None)
    case Clicked =>
      if Enabled(confirmText, targetId, isPending) then StepResult("", Some(targetId.value))
      else StepResult(confirmText, None)
  }

  /** The ids dispatched by a run of events, and the final text. */
  datatype RunResult = RunResult(confirmText: string, dispatched: seq<string>)

  function Run(confirmText: string, targetId: Option<string>, isPending: bool, evs: seq<GateEvent>): RunResult
    decreases |evs|
  {
    if evs == [] then RunResult(confirmText, [])
    else
      var s := Step(confirmText, targetId, isPending, evs[0]);
      var rest := Run(s.confirmText, targetId, isPending, evs[1..]);
      RunResult(rest.confirmText, (if s.dispatched.Some? then [s.dispatched.value] else []) + rest.dispatched)
  }

  /** One event: a dispatch happens exactly when the button was enabled, it
      carries the target's id, and it leaves the text empty, as do cancel and
      close; typing never dispatches. */
  lemma StepFacts(confirmText: string, targetId: Option<string>, isPending: bool, ev: GateEvent)
    ensures var s := Step(confirmText, targetId, isPending, ev);
      && (s.dispatched.Some? <==> ev == Clicked && Enabled(confirmText, targetId, isPending))
      && (s.dispatched.Some? ==> targetId.Some? && s.dispatched.value == targetId.value && s.confirmText == "")
      && (ev == Cancelled || ev == OpenChanged(false) ==> s.confirmText == "")
      && (ev.Typed? ==> s.confirmText == ev.text)
  {
  }

  /** Over any run: every dispatched id is the target's id, nothing is
      dispatched while a request is pending or without a target, and
      starting from an empty text a non-empty id is only dispatched after the
      user typed that id exactly. */
  lemma {:induction false} RunFacts(confirmText: string, targetId: Option<string>, isPending: bool, evs: seq<GateEvent>)
    ensures var r := Run(confirmText, targetId, isPending, evs);
      && (forall d :: d in r.dispatched ==> targetId == Some(d))
      && (isPending || targetId.None? ==> r.dispatched == [])
      && (r.dispatched != [] ==>
            && targetId.Some?
            && (confirmText == targetId.value || targetId.value == "" || Typed(targetId.value) in evs))
    decreases |evs|
  {
    if evs != [] {
      var s := Step(confirmText, targetId, isPending, evs[0]);
      RunFacts(s.confirmText, targetId, isPending, evs[1..]);
      var rest := Run(s.confirmText, targetId, isPending, evs[1..]);
      if rest.dispatched != [] {
        assert s.confirmText == targetId.value || targetId.value == "" || Typed(targetId.value) in evs[1..];
        if Typed(targetId.value) in evs[1..] {
          var k :| 0 <= k < |evs[1..]| && evs[1..][k] == Typed(targetId.value);
          assert evs[k + 1] == Typed(targetId.value);
        } else if evs[0] != Clicked && !evs[0].Typed? {
          assert s.confirmText == confirmText || s.confirmText == "";
        }
      }
    }
  }

  /** After a reset, a dialog whose target has a non-empty id is disabled. */
  lemma ResetDisables(targetId: Option<string>, isPending: bool)
    requires targetId.Some? ==> targetId.value != ""
    ensures !Enabled("", targetId, isPending)
  {
  }

  /** The confirmation text a dialog keeps between renders. */
  class ConfirmGate {
    var confirmText: string

    /** `useState("")` */
    constructor ()
      ensures confirmText == ""
    {
      confirmText := "";
    }

    /** The input's `onChange`. */
    method Type(text: string)
      modifies this
      ensures confirmText == Step(old(confirmText), None, false, Typed(text)).confirmText
      ensures confirmText == text
    {
      confirmText := text;
    }

    /** The Cancel button. */
    method Cancel()
      modifies this
      ensures confirmText == Step(old(confirmText), None, false, Cancelled).confirmText
      ensures confirmText == ""
    {
      confirmText := "";
    }

    /** `onOpenChange(v)`: forwards `v` to the parent and clears the text when
        the dialog closes. */
    method OpenChange(open: bool)
      modifies this
      ensures confirmText == Step(old(confirmText), None, false, OpenChanged(open)).confirmText
      ensures !open ==> confirmText == ""
      ensures open ==> confirmText == old(confirmText)
    {
      if !open {
        confirmText := "";
      }
    }

    /** The confirm button: when enabled, hands the target's id to
        `onConfirm` and clears the text; a disabled button does nothing. */
    method Confirm(targetId: Option<string>, isPending: bool) returns (dispatched: Option<string>)
      modifies this
      ensures StepResult(confirmText, dispatched) == Step(old(confirmText), targetId, isPending, Clicked)
      ensures dispatched.Some? <==> old(Enabled(confirmText, targetId, isPending))
      ensures dispatched.Some? ==> dispatched == targetId && confirmText == ""
      ensures dispatched.None? ==> confirmText == old(confirmText)
    {
      if targetId.Some? && confirmText == targetId.value && !isPending {
        dispatched := Some(targetId.value);
        confirmText := "";
      } else {
        dispatched := None;
      }
    }
  }

  // ---------------------------------------------------------------- labels

  /** The kill switch button: "Executing..." while pending. */
  function KillSwitchLabel(isPending: bool): string {
    if isPending then "Executing..." else "Execute Kill Switch"
  }

  /** The server action chosen in the table. */
  datatype ServerAction = Quarantine | Kill {
    /** The `actionType` string of the action. */
    function Name(): string {
      match this
      case Quarantine => "quarantine"
      case Kill => "kill"
    }
  }

  /** The `config` entry of an action (icons, descriptions and colours left out). */
  datatype ActionConfig = ActionConfig(title: string, button: string, pendingButton: string)

  function ConfigFor(action: ServerAction): ActionConfig {
    match action
    case Quarantine => ActionConfig("Quarantine Server", "Execute Quarantine", "Quarantining...")
    case Kill => ActionConfig("Terminate Server", "Execute Kill Switch", "Executing...")
  }

  /** `isPending ? cfg.pendingButton : cfg.button` */
  function ServerActionLabel(action: ServerAction, isPending: bool): string {
    var cfg := ConfigFor(action);
    if isPending then cfg.pendingButton else cfg.button
  }

  /** The server kill button reads like the agent kill switch; the two
      server actions are labelled differently in both states, and the label
      always changes when a request starts. */
  lemma LabelFacts(action: ServerAction, isPending: bool)
    ensures ServerActionLabel(Kill, isPending) == KillSwitchLabel(isPending)
    ensures ServerActionLabel(Quarantine, isPending) != ServerActionLabel(Kill, isPending)
    ensures ServerActionLabel(action, true) != ServerActionLabel(action, false)
    ensures KillSwitchLabel(true) != KillSwitchLabel(false)
    ensures action.Name() == "kill" <==> action == Kill
  {
  }
}
