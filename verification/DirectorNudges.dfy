/** The nudges of a run: when an unfinished workflow step is given up, that what is
    counted is what is sent, and when the echo of a marker goes out as a reply. */
module DirectorNudges {
  import opened Common
  import opened Reactor
  import C = Compaction
  import opened Tasks
  import opened Director
  import opened DirectorRuns
  import opened DirectorFlow
  import opened DirectorCycles

  // ----------------------------------------------------- workflow nudges

  /** A contentless beat of an active workflow: a turn without tool calls. */
  predicate Beat(step: Step) {
    TurnBoundary(step) && step.around.workflow.activeBefore.Yes? && !step.event.turn.HasToolCalls()
  }

  /** Steps that let the workflow count idle turns anew. */
  predicate Progress(step: Step) {
    || NonEmptyMessage(step)
    || (TurnBoundary(step) && step.event.turn.HasToolCalls())
    || (step.Event? && step.event.ToolDone? && step.around.workflow.advanced)
  }

  function StepNudgesOnBeats(d: Director, steps: seq<Step>): nat
    decreases |steps|
  {
    if steps == [] then 0
    else
      var (next, decision) := Next(d, steps[0]);
      (if Beat(steps[0]) && decision.Some? && decision.value.route == StepNudge then 1 else 0)
      + StepNudgesOnBeats(next, steps[1..])
  }

  lemma NoteEventIdle(d: Director, event: Inbound, around: Around)
    requires !event.Message?
    requires !(event.InferenceDone? && event.turn.HasToolCalls()) && !(event.ToolDone? && around.workflow.advanced)
    ensures var next := NoteEvent(d, event, around);
      && next.budgets.markerEcho == d.budgets.markerEcho
      && next.budgets.workflowIdle
         == if event.InferenceDone? && around.workflow.activeBefore.Yes?
               && !(event.turn.IsMarkerEcho() && d.budgets.markerEcho < MAX_MARKER_ECHO_NUDGES)
            then d.budgets.workflowIdle + 1 else d.budgets.workflowIdle
  {
    if event.InferenceDone? {
      NoteTurnKeeps(d, event.turn, around);
    }
  }

  /** A step nudge is sent on an idle count below the cap. */
  predicate Paced(b: Budgets, t: Budgets, step: Step, route: Route) {
    && t.workflowIdle >= b.workflowIdle
    && (Beat(step) && route == StepNudge ==> b.workflowIdle < t.workflowIdle < MAX_WORKFLOW_IDLE_TURNS)
  }

  lemma BeatCounts(d: Director, event: Inbound, around: Around)
    requires !Progress(Event(event, around))
    ensures var (next, decision) := DecideInner(d, event, around);
            Paced(d.budgets, next.budgets, Event(event, around), decision.route)
  {
    EarlyPays(d, event, around);
    var (early, decision) := EarlyPhase(d, event, around);
    if decision.None? {
      if event.Message? {
        EmptyIsAnsweredEarly(d, event, around);
      } else {
        NoteEventIdle(early, event, around);
        OwnPays(NoteEvent(early, event, around), event, around);
      }
    }
  }

  lemma StepBeatCounts(d: Director, step: Step)
    requires !Progress(step)
    ensures var (next, decision) := Next(d, step);
      && next.budgets.workflowIdle >= d.budgets.workflowIdle
      && (decision.Some? ==> Paced(d.budgets, next.budgets, step, decision.value.route))
  {
    if step.Event? {
      BeatCounts(d, step.event, step.around);
      var (next, decision) := DecideInner(d, step.event, step.around);
      FinishKeeps(next, decision, step.event, step.around);
    }
  }

  lemma {:induction false} RunBeats(d: Director, steps: seq<Step>)
    requires forall i :: 0 <= i < |steps| ==> !Progress(steps[i])
    ensures d.budgets.workflowIdle + StepNudgesOnBeats(d, steps) <= Run(d, steps).budgets.workflowIdle
    ensures StepNudgesOnBeats(d, steps) > 0 ==> d.budgets.workflowIdle + StepNudgesOnBeats(d, steps) < MAX_WORKFLOW_IDLE_TURNS
    decreases |steps|
  {
    if steps != [] {
      assert !Progress(steps[0]);
      StepBeatCounts(d, steps[0]);
      RunBeats(Next(d, steps[0]).0, steps[1..]);
    }
  }

  /** The director as it would be had its workflow been idle for `turns` turns. */
  function Idle(d: Director, turns: nat): Director {
    d.(budgets := d.budgets.(workflowIdle := turns))
  }

  /** A model that ends turn after turn without tools is asked for its workflow
      step at most twice. Once it has been, the next turn that would be asked
      again were the count fresh is told that the workflow is stuck. */
  lemma StepNudgesAreBounded(d: Director, steps: seq<Step>, last: Step)
    requires forall i :: 0 <= i < |steps| ==> !Progress(steps[i])
    ensures StepNudgesOnBeats(d, steps) <= 2
    ensures var before := Run(d, steps);
      StepNudgesOnBeats(d, steps) == 2 && Beat(last) && Decide(Idle(before, 0), last.event, last.around).1.route == StepNudge
      ==> Decide(before, last.event, last.around).1
          == Decision(WorkflowStuck, [StuckReply] + Emits(ToldBy(before, last.event, last.around)))
  {
    RunBeats(d, steps);
    var before := Run(d, steps);
    if StepNudgesOnBeats(d, steps) == 2 && Beat(last)
       && Decide(Idle(before, 0), last.event, last.around).1.route == StepNudge {
      StuckInsteadOfNudge(before, last.event, last.around);
    }
  }

  lemma StuckInsteadOfNudge(d: Director, event: Inbound, around: Around)
    requires Beat(Event(event, around)) && d.budgets.workflowIdle >= MAX_WORKFLOW_IDLE_TURNS - 1
    requires Decide(Idle(d, 0), event, around).1.route == StepNudge
    ensures Decide(d, event, around).1 == Decision(WorkflowStuck, [StuckReply] + Emits(ToldBy(d, event, around)))
  {
    NudgeIsInner(Idle(d, 0), event, around);
    InnerStuck(d, event, around);
    InnerTells(d, event, around);
    FinishStuck(DecideInner(d, event, around).0, event, around);
  }

  lemma NudgeIsInner(d: Director, event: Inbound, around: Around)
    requires event.InferenceDone? && Decide(d, event, around).1.route == StepNudge
    ensures DecideInner(d, event, around).1.route == StepNudge && !around.workflow.directiveThrows
  {
    var (next, decision) := DecideInner(d, event, around);
    FinishKeeps(next, decision, event, around);
  }

  lemma FinishStuck(d: Director, event: Inbound, around: Around)
    requires !around.workflow.directiveThrows
    ensures Finish(d, Decision(WorkflowStuck, [StuckReply]), event, around).1
            == Decision(WorkflowStuck, [StuckReply] + Emits(d.pending))
  {
    assert Settle([StuckReply]) == [StuckReply];
  }

  lemma StepPhaseStuck(d: Director, event: Inbound, base: seq<Action>, workflow: Workflow, turns: nat)
    requires turns >= MAX_WORKFLOW_IDLE_TURNS
    requires StepPhase(d, event, base, workflow).1.Some? && StepPhase(d, event, base, workflow).1.value.route == StepNudge
    ensures StepPhase(Idle(d, turns), event, base, workflow) == (Idle(d, turns), Some(Decision(WorkflowStuck, [StuckReply])))
  {
  }

  lemma NudgePhaseStuck(d: Director, event: Inbound, raw: seq<Action>, base: seq<Action>, around: Around, turns: nat)
    requires turns >= MAX_WORKFLOW_IDLE_TURNS
    requires NudgePhase(d, event, raw, base, around).1.route == StepNudge
    ensures NudgePhase(Idle(d, turns), event, raw, base, around).1 == Decision(WorkflowStuck, [StuckReply])
  {
    var (stepped, decision) := StepPhase(d, event, base, around.workflow);
    OpenTaskPhasePays(stepped, event, raw, base, around.workflow);
    StepPhaseStuck(d, event, base, around.workflow, turns);
  }

  lemma BaseStuck(d: Director, event: Inbound, around: Around, turns: nat)
    requires turns >= MAX_WORKFLOW_IDLE_TURNS && BasePhase(d, event, around).1.route == StepNudge
    ensures BasePhase(Idle(d, turns), event, around).1 == Decision(WorkflowStuck, [StuckReply])
  {
    var raw := around.base.value;
    var base := if EndsInMarkerEcho(event) then RepliesWait(raw) else raw;
    FoldBaseRoutes(d.governor, event, base, around);
    var (folded, decision) := FoldBase(d.governor, event, base, around);
    NudgePhaseStuck(d.(governor := folded), event, raw, base, around, turns);
    assert Idle(d, turns).(governor := folded) == Idle(d.(governor := folded), turns);
  }

  lemma OwnStuck(d: Director, event: Inbound, around: Around, turns: nat)
    requires event.InferenceDone? && turns >= MAX_WORKFLOW_IDLE_TURNS && OwnPhase(d, event, around).1.route == StepNudge
    ensures OwnPhase(Idle(d, turns), event, around).1 == Decision(WorkflowStuck, [StuckReply])
    ensures EndsInMarkerEcho(event) ==> d.budgets.markerEcho >= MAX_MARKER_ECHO_NUDGES
  {
    var measured := MeasurePhase(d, event, around);
    MeasureKeeps(d, event, around);
    assert MeasurePhase(Idle(d, turns), event, around) == Idle(measured, turns);
    BaseStuck(measured, event, around, turns);
  }

  lemma NoteBlockIgnoresBudgets(d: Director, block: Block, budgets: Budgets)
    ensures NoteBlock(d.(budgets := budgets), block) == NoteBlock(d, block).(budgets := budgets)
  {
    hide Apply;
    if block.ToolCall? && block.tool.ManageTasks? {
      NoteTasksIgnoresBudgets(d, block, budgets);
    }
  }

  lemma NoteTasksIgnoresBudgets(d: Director, block: Block, budgets: Budgets)
    requires block.ToolCall? && block.tool.ManageTasks?
    ensures NoteBlock(d.(budgets := budgets), block) == NoteBlock(d, block).(budgets := budgets)
  {
    hide Apply;
  }

  lemma {:induction false} NoteBlocksIgnoresBudgets(d: Director, blocks: seq<Block>, budgets: Budgets)
    ensures NoteBlocks(d.(budgets := budgets), blocks) == NoteBlocks(d, blocks).(budgets := budgets)
  {
    hide NoteBlock;
    if blocks != [] {
      NoteBlocksIgnoresBudgets(d, blocks[..|blocks| - 1], budgets);
      NoteBlockIgnoresBudgets(NoteBlocks(d, blocks[..|blocks| - 1]), blocks[|blocks| - 1], budgets);
    }
  }

  /** Noting a turn counts from whatever the count was. */
  lemma NoteTurnCounts(d: Director, turn: Turn, around: Around)
    requires !turn.HasToolCalls() && around.workflow.activeBefore.Yes?
    requires turn.IsMarkerEcho() ==> d.budgets.markerEcho >= MAX_MARKER_ECHO_NUDGES
    ensures NoteTurn(d, turn, around) == Idle(NoteTurn(Idle(d, 0), turn, around), d.budgets.workflowIdle + 1)
  {
    var noted := NoteContent(Idle(d, 0), turn, around);
    assert NoteContent(d, turn, around) == Idle(noted, d.budgets.workflowIdle + 1);
    NoteBlocksIgnoresBudgets(noted, turn.blocks, NoteContent(d, turn, around).budgets);
    NoteBlocksKeeps(noted, turn.blocks);
  }

  lemma InnerStuck(d: Director, event: Inbound, around: Around)
    requires Beat(Event(event, around)) && d.budgets.workflowIdle >= MAX_WORKFLOW_IDLE_TURNS - 1
    requires DecideInner(Idle(d, 0), event, around).1.route == StepNudge
    ensures DecideInner(d, event, around).1 == Decision(WorkflowStuck, [StuckReply])
  {
    InnerIsOwn(d, event, around);
    InnerIsOwn(Idle(d, 0), event, around);
    BeatIsCounted(d, event, around);
    NotedStuck(NoteEvent(Idle(d, 0), event, around), NoteEvent(d, event, around), event, around, d.budgets.workflowIdle + 1);
  }

  lemma NotedStuck(noted: Director, actual: Director, event: Inbound, around: Around, turns: nat)
    requires event.InferenceDone? && turns >= MAX_WORKFLOW_IDLE_TURNS && OwnPhase(noted, event, around).1.route == StepNudge
    requires (EndsInMarkerEcho(event) ==> noted.budgets.markerEcho >= MAX_MARKER_ECHO_NUDGES) ==> actual == Idle(noted, turns)
    ensures OwnPhase(actual, event, around).1 == Decision(WorkflowStuck, [StuckReply])
  {
    OwnStuck(noted, event, around, turns);
  }

  lemma BeatIsCounted(d: Director, event: Inbound, around: Around)
    requires Beat(Event(event, around))
    ensures var noted := NoteEvent(Idle(d, 0), event, around);
      && noted.budgets.markerEcho == d.budgets.markerEcho
      && ((EndsInMarkerEcho(event) ==> d.budgets.markerEcho >= MAX_MARKER_ECHO_NUDGES) ==>
            NoteEvent(d, event, around) == Idle(noted, d.budgets.workflowIdle + 1))
  {
    NoteEventBudgets(Idle(d, 0), event, around);
    if !(EndsInMarkerEcho(event) && d.budgets.markerEcho < MAX_MARKER_ECHO_NUDGES) {
      NoteTurnCounts(d, event.turn, around);
    }
  }

  // -------------------------------------------- counted nudges are real ones

  predicate Carries(actions: seq<Action>, nudge: Nudge) {
    Infer(nudge) in actions
  }

  /** The base director sends no nudges of its own. */
  predicate PlainBase(around: Around) {
    around.base.Some? ==> forall i :: 0 <= i < |around.base.value| && around.base.value[i].Infer?
                            ==> around.base.value[i].nudge == NoNudge
  }

  /** The nudge a route injects, if it does. */
  function NudgeOf(route: Route): Nudge {
    match route
    case OpenTaskNudge => OpenTasks
    case DeclinedNudge => DeclinedCall
    case EchoNudge => MarkerEcho
    case StepNudge => WorkflowStep
    case CheckInNudge => CheckIn
    case _ => NoNudge
  }

  predicate CarriesOnly(actions: seq<Action>, route: Route) {
    forall nudge :: nudge != NoNudge ==> (Carries(actions, nudge) <==> NudgeOf(route) == nudge)
  }

  predicate Plain(actions: seq<Action>) {
    forall nudge :: nudge != NoNudge ==> Infer(nudge) !in actions
  }

  lemma {:induction false} FilteredIsPlain(actions: seq<Action>)
    requires Plain(actions)
    ensures Plain(WithoutInfer(actions)) && Plain(WithoutTerminal(actions)) && Plain(RepliesWait(actions))
  {
    if actions != [] {
      assert actions == [actions[0]] + actions[1..];
      assert Plain(actions[1..]);
      FilteredIsPlain(actions[1..]);
    }
  }

  lemma {:induction false} NudgedCarriesCheckIn(actions: seq<Action>)
    requires Plain(actions) && HasInfer(actions)
    ensures CarriesOnly(NudgeFirstInfer(actions), CheckInNudge)
  {
    assert actions == [actions[0]] + actions[1..];
    assert Plain(actions[1..]);
    if actions[0].Infer? {
      assert NudgeFirstInfer(actions)[0] == Infer(CheckIn);
    } else {
      var i :| 0 <= i < |actions| && actions[i].Infer?;
      assert actions[1..][i - 1].Infer?;
      NudgedCarriesCheckIn(actions[1..]);
      var tail := NudgeFirstInfer(actions[1..]);
      forall nudge | nudge != NoNudge
        ensures Carries([actions[0]] + tail, nudge) <==> nudge == CheckIn
      {
        assert Carries(tail, nudge) <==> nudge == CheckIn;
      }
    }
  }

  lemma NudgedCarriesOnly(actions: seq<Action>)
    requires Plain(actions)
    ensures CarriesOnly(actions + [Infer(OpenTasks)], OpenTaskNudge)
    ensures CarriesOnly(actions + [Infer(WorkflowStep)], StepNudge)
  {
  }

  /** What the coordinator fails carries nothing. */
  lemma RethrowCarriesNothing()
    ensures CarriesOnly(Rethrow.actions, CoordinatorThrew)
  {
  }

  lemma StepPhaseCarries(d: Director, event: Inbound, base: seq<Action>, workflow: Workflow)
    requires Plain(base)
    ensures var decision := StepPhase(d, event, base, workflow).1;
      decision.Some? ==> CarriesOnly(decision.value.actions, decision.value.route)
  {
    FilteredIsPlain(base);
    NudgedCarriesOnly(WithoutTerminal(base));
    RethrowCarriesNothing();
  }

  lemma OpenTaskPhaseCarries(d: Director, event: Inbound, raw: seq<Action>, base: seq<Action>, workflow: Workflow)
    requires Plain(raw) && Plain(base)
    ensures var decision := OpenTaskPhase(d, event, raw, base, workflow).1; CarriesOnly(decision.actions, decision.route)
  {
    FilteredIsPlain(base);
    NudgedCarriesOnly(WithoutTerminal(base));
    RethrowCarriesNothing();
  }

  lemma NudgePhaseCarries(d: Director, event: Inbound, raw: seq<Action>, base: seq<Action>, around: Around)
    requires Plain(raw) && Plain(base)
    ensures var decision := NudgePhase(d, event, raw, base, around).1; CarriesOnly(decision.actions, decision.route)
  {
    if d.budgets.toolOnlyPending && HasInfer(base) {
      NudgedCarriesCheckIn(base);
    } else {
      StepPhaseCarries(d, event, base, around.workflow);
      OpenTaskPhaseCarries(StepPhase(d, event, base, around.workflow).0, event, raw, base, around.workflow);
    }
  }

  lemma FoldBaseCarries(governor: C.Governor, event: Inbound, base: seq<Action>, around: Around)
    requires Plain(base)
    ensures var decision := FoldBase(governor, event, base, around).1;
      decision.Some? ==> CarriesOnly(decision.value.actions, decision.value.route)
  {
    FilteredIsPlain(base);
  }

  lemma BaseCarries(d: Director, event: Inbound, around: Around)
    requires PlainBase(around)
    ensures var decision := BasePhase(d, event, around).1; CarriesOnly(decision.actions, decision.route)
  {
    if around.base.Some? {
      var raw := around.base.value;
      assert Plain(raw);
      FilteredIsPlain(raw);
      var base := if EndsInMarkerEcho(event) then RepliesWait(raw) else raw;
      FoldBaseCarries(d.governor, event, base, around);
      var (folded, decision) := FoldBase(d.governor, event, base, around);
      if decision.None? {
        NudgePhaseCarries(d.(governor := folded), event, raw, base, around);
      }
    }
  }

  lemma OwnCarries(d: Director, event: Inbound, around: Around)
    requires PlainBase(around)
    ensures var decision := OwnPhase(d, event, around).1; CarriesOnly(decision.actions, decision.route)
  {
    if DeclinedPhase(d.budgets, d.tasks, event).1.None? {
      BaseCarries(MeasurePhase(d, event, around), event, around);
    }
  }

  lemma FoldPhaseCarries(governor: C.Governor, event: Inbound, around: Around)
    ensures var decision := FoldPhase(governor, event, around).1;
      decision.Some? ==> CarriesOnly(decision.value.actions, decision.value.route)
  {
  }

  lemma EarlyCarries(d: Director, event: Inbound, around: Around)
    ensures var decision := EarlyPhase(d, event, around).1;
      decision.Some? ==> CarriesOnly(decision.value.actions, decision.value.route)
  {
    hide FoldPhase;
    FoldPhaseCarries(d.governor, event, around);
  }

  lemma SettleCarries(actions: seq<Action>, notices: seq<Notice>, nudge: Nudge)
    ensures Carries(Settle(actions) + Emits(notices), nudge) <==> Carries(actions, nudge)
  {
    SettledWaitContinues(actions);
    if EndsInWait(actions) && !Continues(actions) {
      assert actions == actions[..|actions| - 1] + [Wait];
    }
    assert Infer(nudge) !in Emits(notices);
  }

  /** What the budgets count is what is sent: a decision carries a nudge exactly
      when it went that way, over a base director that sends none. */
  lemma CountedNudgesAreSent(d: Director, event: Inbound, around: Around)
    requires PlainBase(around)
    ensures var decision := Decide(d, event, around).1; CarriesOnly(decision.actions, decision.route)
  {
    if !(event.ResumedToolResult? && event.dropped) {
      EarlyCarries(d, event, around);
      var (early, decided) := EarlyPhase(d, event, around);
      if decided.None? {
        OwnCarries(NoteEvent(early, event, around), event, around);
      }
      RethrowCarriesNothing();
      var (next, decision) := DecideInner(d, event, around);
      forall nudge | nudge != NoNudge
        ensures Carries(Settle(decision.actions) + Emits(next.pending), nudge) <==> NudgeOf(decision.route) == nudge
      {
        SettleCarries(decision.actions, next.pending, nudge);
      }
    }
  }

  // ----------------------------------------------- a spent marker echo

  predicate NoReply(actions: seq<Action>) {
    forall i :: 0 <= i < |actions| ==> !actions[i].Reply?
  }

  /** Some reply is nothing but the marker. */
  predicate Echoes(actions: seq<Action>) {
    exists i :: 0 <= i < |actions| && actions[i].Reply? && actions[i].markerEcho
  }

  lemma {:induction false} WithheldHasNoReply(actions: seq<Action>)
    ensures NoReply(RepliesWait(actions))
    ensures HasTerminal(RepliesWait(actions)) == HasTerminal(actions)
    ensures HasInfer(RepliesWait(actions)) == HasInfer(actions)
  {
    if actions != [] {
      var first, rest := if actions[0].Reply? then Wait else actions[0], actions[1..];
      WithheldHasNoReply(rest);
      HasEither(actions[0], rest);
      HasEither(first, RepliesWait(rest));
      assert actions == [actions[0]] + rest;
    }
  }

  lemma HasEither(first: Action, rest: seq<Action>)
    ensures HasTerminal([first] + rest) == (Terminal(first) || HasTerminal(rest))
    ensures HasInfer([first] + rest) == (first.Infer? || HasInfer(rest))
  {
    var all := [first] + rest;
    assert all[0] == first && forall i :: 0 <= i < |rest| ==> all[i + 1] == rest[i];
  }

  lemma {:induction false} FilteredHasNoReply(actions: seq<Action>)
    requires NoReply(actions)
    ensures NoReply(WithoutInfer(actions)) && NoReply(WithoutTerminal(actions)) && NoReply(NudgeFirstInfer(actions))
  {
    if actions != [] {
      assert NoReply(actions[1..]);
      FilteredHasNoReply(actions[1..]);
    }
  }

  /** Nothing folds around a turn that only echoes the marker. */
  lemma EchoIsNotFolded(governor: C.Governor, event: Inbound, base: seq<Action>, around: Around)
    requires EndsInMarkerEcho(event)
    ensures FoldBase(governor, event, base, around) == (governor, None)
  {
  }

  /** Nothing asks for the workflow step or for the open tasks first, and no
      question to the coordinator on the way throws. */
  predicate NudgesLetIdle(d: Director, workflow: Workflow) {
    && !workflow.active.Throws?
    && (workflow.active.Yes? ==>
          && !workflow.atGate.Throws? && workflow.atGateStill.No?
          && (workflow.atGate.No? ==> !d.operatorResponded && d.liveHelpers > 0))
  }

  /** The fleet idles over what the base director ends its turn with. */
  predicate FleetMayIdle(d: Director, around: Around) {
    && d.allowIdleWithFleet && HasActiveTasks(d.tasks)
    && around.base.Some? && HasTerminal(around.base.value)
    && NudgesLetIdle(d, around.workflow)
  }

  /** The guards on the way of an echoed marker to the outside. */
  predicate MarkerPasses(d: Director, around: Around) {
    && FleetMayIdle(d, around)
    && d.budgets.markerEcho >= MAX_MARKER_ECHO_NUDGES
    && !(d.nudgeAt == 0 && HasInfer(around.base.value))
    && !around.workflow.activeBefore.Throws? && !around.workflow.directiveThrows
  }

  /** A decision that passes nothing of the base director's replies on. */
  predicate Withholds(actions: seq<Action>) {
    NoReply(actions) || actions == [StuckReply]
  }

  lemma StepPhaseOnEcho(d: Director, event: Inbound, base: seq<Action>, workflow: Workflow)
    requires EndsInMarkerEcho(event) && NoReply(base) && HasTerminal(base)
    ensures var (stepped, decision) := StepPhase(d, event, base, workflow);
      && (decision.None? ==> stepped == d)
      && (decision.Some? ==> decision.value.route != FleetIdle && Withholds(decision.value.actions))
      && (decision.None? && !(workflow.active.Yes? && !workflow.atGateStill.No?) <==> NudgesLetIdle(d, workflow))
  {
    FilteredHasNoReply(base);
    EndsInOtherThanReply(WithoutTerminal(base), Infer(WorkflowStep));
  }

  lemma EndsInOtherThanReply(actions: seq<Action>, last: Action)
    requires NoReply(actions) && !last.Reply?
    ensures NoReply(actions + [last])
  {
  }

  lemma StepPhaseWithoutTerminal(d: Director, event: Inbound, base: seq<Action>, workflow: Workflow)
    requires !HasTerminal(base)
    ensures var (stepped, decision) := StepPhase(d, event, base, workflow);
      stepped == d && (decision == None || decision == Some(Rethrow))
  {
  }

  lemma OpenTaskPhaseOnEcho(d: Director, event: Inbound, raw: seq<Action>, base: seq<Action>, workflow: Workflow)
    requires EndsInMarkerEcho(event) && NoReply(base)
    ensures var decision := OpenTaskPhase(d, event, raw, base, workflow).1;
      && (decision.route == FleetIdle <==>
            d.allowIdleWithFleet && HasActiveTasks(d.tasks) && HasTerminal(base)
            && !(workflow.active.Yes? && !workflow.atGateStill.No?))
      && if decision.route == FleetIdle then decision.actions == raw else Withholds(decision.actions)
  {
    FilteredHasNoReply(base);
    EndsInOtherThanReply(WithoutTerminal(base), Infer(OpenTasks));
  }

  lemma NudgePhaseOnEcho(d: Director, event: Inbound, raw: seq<Action>, around: Around)
    requires EndsInMarkerEcho(event) && around.base == Some(raw)
    ensures var decision := NudgePhase(d, event, raw, RepliesWait(raw), around).1;
      && (decision.route == FleetIdle <==> FleetMayIdle(d, around) && !(d.budgets.toolOnlyPending && HasInfer(raw)))
      && if decision.route == FleetIdle then decision.actions == raw else Withholds(decision.actions)
  {
    var base := RepliesWait(raw);
    WithheldHasNoReply(raw);
    FilteredHasNoReply(base);
    OpenTaskPhaseOnEcho(d, event, raw, base, around.workflow);
    if HasTerminal(base) {
      StepPhaseOnEcho(d, event, base, around.workflow);
    } else {
      StepPhaseWithoutTerminal(d, event, base, around.workflow);
    }
  }

  lemma BaseOnEcho(d: Director, event: Inbound, around: Around)
    requires EndsInMarkerEcho(event)
    ensures var decision := BasePhase(d, event, around).1;
      && (decision.route == FleetIdle <==>
            FleetMayIdle(d, around) && !(d.budgets.toolOnlyPending && HasInfer(around.base.value)))
      && if decision.route == FleetIdle then around.base == Some(decision.actions) else Withholds(decision.actions)
  {
    if around.base.Some? {
      EchoIsNotFolded(d.governor, event, RepliesWait(around.base.value), around);
      NudgePhaseOnEcho(d, event, around.base.value, around);
    }
  }

  lemma OwnOnEcho(d: Director, event: Inbound, around: Around)
    requires EndsInMarkerEcho(event)
    ensures var decision := OwnPhase(d, event, around).1;
      && (decision.route == FleetIdle <==>
            && d.budgets.markerEcho >= MAX_MARKER_ECHO_NUDGES && FleetMayIdle(d, around)
            && !(d.budgets.toolOnlyPending && HasInfer(around.base.value)))
      && if decision.route == FleetIdle then around.base == Some(decision.actions) else Withholds(decision.actions)
  {
    var measured := MeasurePhase(d, event, around);
    OnlyMeasures(d, event, around);
    if d.budgets.markerEcho >= MAX_MARKER_ECHO_NUDGES {
      BaseOnEcho(measured, event, around);
    }
  }

  lemma OnlyMeasures(d: Director, event: Inbound, around: Around)
    ensures var measured := MeasurePhase(d, event, around);
            measured == d.(governor := measured.governor, pending := measured.pending)
  {
  }

  lemma {:induction false} NoCallsAreNotNoted(d: Director, blocks: seq<Block>)
    requires forall i :: 0 <= i < |blocks| ==> !blocks[i].ToolCall?
    ensures NoteBlocks(d, blocks) == d
  {
    if blocks != [] {
      NoCallsAreNotNoted(d, blocks[..|blocks| - 1]);
    }
  }

  /** A marker echo is noted as a turn without tools: the streak starts over. */
  lemma EchoIsNoted(d: Director, turn: Turn, around: Around)
    requires turn.IsMarkerEcho()
    ensures var noted := NoteTurn(d, turn, around);
      && noted == d.(budgets := noted.budgets, lastTurnHadContent := false)
      && noted.budgets.toolOnlyPending == (d.nudgeAt == 0)
      && noted.budgets.markerEcho == d.budgets.markerEcho
  {
    NoCallsAreNotNoted(NoteContent(d, turn, around), turn.blocks);
  }

  lemma InnerOnEcho(d: Director, event: Inbound, around: Around)
    requires EndsInMarkerEcho(event)
    ensures var decision := DecideInner(d, event, around).1;
      && (decision.route == FleetIdle && !around.workflow.directiveThrows <==> MarkerPasses(d, around))
      && if decision.route == FleetIdle then around.base == Some(decision.actions) else Withholds(decision.actions)
  {
    InnerIsOwn(d, event, around);
    EchoIsNoted(d, event.turn, around);
    if !around.workflow.activeBefore.Throws? {
      OwnOnEcho(NoteEvent(d, event, around), event, around);
    }
  }

  /** Replies of the director's own. */
  predicate OwnReplies(actions: seq<Action>) {
    forall i :: 0 <= i < |actions| && actions[i].Reply? ==> actions[i] == StuckReply || actions[i] == Reply("", false)
  }

  lemma SettledWithheld(actions: seq<Action>, notices: seq<Notice>)
    requires Withholds(actions)
    ensures OwnReplies(Settle(actions) + Emits(notices))
  {
    SettledWaitContinues(actions);
  }

  lemma OwnRepliesDoNotEcho(actions: seq<Action>)
    requires OwnReplies(actions)
    ensures !Echoes(actions)
  {
  }

  lemma SettledEchoes(actions: seq<Action>, notices: seq<Notice>)
    ensures Echoes(Settle(actions) + Emits(notices)) == Echoes(actions)
  {
    SettledWaitContinues(actions);
    var settled, all := Settle(actions), Settle(actions) + Emits(notices);
    if Echoes(actions) {
      var i :| 0 <= i < |actions| && actions[i].Reply? && actions[i].markerEcho;
      assert settled[i] == actions[i] && all[i] == settled[i];
    }
    if Echoes(all) {
      var i :| 0 <= i < |all| && all[i].Reply? && all[i].markerEcho;
      assert i < |settled| && settled[i] == all[i];
      assert actions[i] == settled[i];
    }
  }

  /** Once the echo budget is spent, a turn that only echoes the marker is passed
      on as it came exactly when a session that may idle with its fleet has open
      tasks and nothing else to say; otherwise no reply of the base director gets
      out, with the marker or without. */
  lemma MarkerEchoIsWithheldUnlessFleetIdles(d: Director, event: Inbound, around: Around)
    requires EndsInMarkerEcho(event)
    ensures var decision := Decide(d, event, around).1;
      && (decision.route == FleetIdle <==> MarkerPasses(d, around))
      && (Echoes(decision.actions) <==> MarkerPasses(d, around) && Echoes(around.base.value))
      && (MarkerPasses(d, around) || OwnReplies(decision.actions))
  {
    InnerOnEcho(d, event, around);
    var (next, inner) := DecideInner(d, event, around);
    var decision := Decide(d, event, around).1;
    if MarkerPasses(d, around) {
      SettledEchoes(inner.actions, next.pending);
    } else if decision.route.Threw() {
      assert OwnReplies(inner.actions) || decision.actions == [];
    } else {
      SettledWithheld(inner.actions, next.pending);
    }
    if OwnReplies(decision.actions) {
      OwnRepliesDoNotEcho(decision.actions);
    }
  }

  // One history in which the marker goes out.

  const EchoedMarker: seq<Action> := [Reply("[marker]", true)]

  /** A turn with nothing but the marker. */
  const EchoesMarker := Event(InferenceDone(Turn([TextBlock(false)], true), 0), Quietly(EchoedMarker))

  lemma EchoIsNudged(d: Director)
    requires d.budgets.markerEcho < MAX_MARKER_ECHO_NUDGES
    ensures var next := Next(d, EchoesMarker).0;
      && next.budgets.markerEcho == d.budgets.markerEcho + 1
      && next.tasks == d.tasks && next.allowIdleWithFleet == d.allowIdleWithFleet && next.nudgeAt == d.nudgeAt
  {
    hide BasePhase, MeasurePhase;
    var event, around := EchoesMarker.event, EchoesMarker.around;
    InnerIsOwn(d, event, around);
    EchoIsNoted(d, event.turn, around);
    OnlyMeasures(NoteEvent(d, event, around), event, around);
  }

  /** A session that may idle with its fleet opens a task and then echoes the
      marker three times: twice it is nudged, then the marker is its reply. */
  lemma MarkerGoesOut(overhead: nat, nudgeAt: nat)
    ensures var before := Run(FreshDirector(overhead, true, nudgeAt), [OpensTask, EchoesMarker, EchoesMarker]);
      var decision := Decide(before, EchoesMarker.event, EchoesMarker.around).1;
      && before.budgets.markerEcho == MAX_MARKER_ECHO_NUDGES
      && decision.route == FleetIdle && Echoes(decision.actions)
  {
    hide Decide;
    var d0 := FreshDirector(overhead, true, nudgeAt);
    var d1 := Next(d0, OpensTask).0;
    TaskOpens(d0);
    OpeningKeepsFleet(d0);
    var d2 := Next(d1, EchoesMarker).0;
    EchoIsNudged(d1);
    var d3 := Next(d2, EchoesMarker).0;
    EchoIsNudged(d2);
    RunThree(d0, OpensTask, EchoesMarker, EchoesMarker);
    assert EchoedMarker[0].Reply?;
    MarkerEchoIsWithheldUnlessFleetIdles(d3, EchoesMarker.event, EchoesMarker.around);
  }

  lemma OpeningKeepsFleet(d: Director)
    ensures Next(d, OpensTask).0.allowIdleWithFleet == d.allowIdleWithFleet
    ensures Next(d, OpensTask).0.budgets.markerEcho == d.budgets.markerEcho
  {
    var event, around := OpensTask.event, OpensTask.around;
    InnerIsOwn(d, event, around);
    NoteTurnKeepsFleet(d, event.turn, around);
    NoteEventBudgets(d, event, around);
    OwnOnTurn(NoteEvent(d, event, around), event, around);
  }

  lemma OwnOnTurn(d: Director, event: Inbound, around: Around)
    requires event.InferenceDone? && !EndsInMarkerEcho(event)
    ensures var next := OwnPhase(d, event, around).0;
            next.allowIdleWithFleet == d.allowIdleWithFleet && next.budgets.markerEcho == d.budgets.markerEcho
  {
    OnlyMeasures(d, event, around);
    BaseKeepsFleet(MeasurePhase(d, event, around), event, around);
  }

  lemma BaseKeepsFleet(d: Director, event: Inbound, around: Around)
    requires event.InferenceDone?
    ensures var next := BasePhase(d, event, around).0;
            next.allowIdleWithFleet == d.allowIdleWithFleet && next.budgets.markerEcho == d.budgets.markerEcho
  {
    hide AfterFold, FoldBase;
    if around.base.Some? {
      var base := if EndsInMarkerEcho(event) then RepliesWait(around.base.value) else around.base.value;
      FoldBaseRoutes(d.governor, event, base, around);
      var (folded, decision) := FoldBase(d.governor, event, base, around);
      AfterFoldPays(d.(governor := folded), decision, event, around.base.value, base, around);
    }
  }

  lemma {:induction false} NoteBlocksKeepsFleet(d: Director, blocks: seq<Block>)
    ensures NoteBlocks(d, blocks).allowIdleWithFleet == d.allowIdleWithFleet
  {
    if blocks != [] {
      NoteBlocksKeepsFleet(d, blocks[..|blocks| - 1]);
    }
  }

  lemma NoteTurnKeepsFleet(d: Director, turn: Turn, around: Around)
    ensures NoteTurn(d, turn, around).allowIdleWithFleet == d.allowIdleWithFleet
  {
    NoteBlocksKeepsFleet(NoteContent(d, turn, around), turn.blocks);
  }
}
