/** The events the reactor feeds the director and the actions it takes back. */
module Reactor {
  import opened Common

  /** Why a context fold was issued. */
  datatype Reason = Threshold | Operator | Overflow

  /** The extra text an inference carries, if any. */
  datatype Nudge = NoNudge | OpenTasks | DeclinedCall | MarkerEcho | WorkflowStep | CheckIn

  datatype Notice = TasksChanged | ToolsActivated | FoldNonConverged | ApprovalSettled

  /** `markerEcho` says that the text is nothing but the internal marker of a fold. */
  datatype Action =
    | Infer(nudge: Nudge)
    | ExecuteTools
    | Reply(text: string, markerEcho: bool)
    | Wait
    | Compact(reason: Reason)
    | ContinueAfterCompact
    | Checkpoint
    | Emit(notice: Notice)
    | OtherAction

  predicate Terminal(a: Action) {
    a.Reply? || a.Wait?
  }

  predicate HasInfer(actions: seq<Action>) {
    exists i :: 0 <= i < |actions| && actions[i].Infer?
  }

  predicate HasTerminal(actions: seq<Action>) {
    exists i :: 0 <= i < |actions| && Terminal(actions[i])
  }

  function WithoutInfer(actions: seq<Action>): seq<Action> {
    if actions == [] then []
    else (if actions[0].Infer? then [] else [actions[0]]) + WithoutInfer(actions[1..])
  }

  function WithoutTerminal(actions: seq<Action>): seq<Action> {
    if actions == [] then []
    else (if Terminal(actions[0]) then [] else [actions[0]]) + WithoutTerminal(actions[1..])
  }

  /** The other actions stay, in their order, whatever is taken out. */
  lemma {:induction false} FiltersKeepTheRest(actions: seq<Action>)
    ensures Picks(actions, WithoutInfer(actions), (a: Action) => !a.Infer?)
    ensures Picks(actions, WithoutTerminal(actions), (a: Action) => !a.Reply? && !a.Wait?)
  {
    var noInfer, noTerminal := (a: Action) => !a.Infer?, (a: Action) => !a.Reply? && !a.Wait?;
    if actions == [] {
      PicksNothing(noInfer);
      PicksNothing(noTerminal);
    } else {
      FiltersKeepTheRest(actions[1..]);
      PicksOneMore(actions[0], actions[1..], WithoutInfer(actions[1..]), noInfer);
      PicksOneMore(actions[0], actions[1..], WithoutTerminal(actions[1..]), noTerminal);
      assert [actions[0]] + actions[1..] == actions;
    }
  }
}
