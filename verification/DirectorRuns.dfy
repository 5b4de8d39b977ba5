/** What the director guarantees over every run, whatever the base director, the
    coordinator and the context tables answer. */
module DirectorRuns {
  import opened Common
  import opened Reactor
  import C = Compaction
  import G = CompactionRuns
  import opened Tasks
  import opened Director

  /** What the host may ask of the governor between two decisions. */
  type HostCall = call: G.Call | call.Manual? || call.RestoreExtras? || call.Handoff? || call.Cancel? || call.KeptPrior? || call.Sync?
    witness G.KeptPrior

  datatype Step =
    | Event(event: Inbound, around: Around)
    | SetAllowIdleWithFleet(value: bool)
    | ArmRefresh(generation: int)
    | CancelRefresh(generation: int)
    | RestoreTasks(restored: seq<Task>)
    | Govern(call: HostCall)

  function Next(d: Director, step: Step): (Director, Option<Decision>) {
    match step
    case Event(event, around) => var (next, decision) := Decide(d, event, around); (next, Some(decision))
    case SetAllowIdleWithFleet(value) => (d.(allowIdleWithFleet := value, liveHelpers := if value then 1 else 0), None)
    case ArmRefresh(generation) => (d.(refreshGeneration := Some(generation)), None)
    case CancelRefresh(generation) =>
      (if d.refreshGeneration == Some(generation) then d.(refreshGeneration := None) else d, None)
    case RestoreTasks(restored) => (d.(tasks := restored), None)
    case Govern(call) => (d.(governor := G.Apply(d.governor, call).0), None)
  }

  function Run(d: Director, steps: seq<Step>): Director
    decreases |steps|
  {
    if steps == [] then d else Run(Next(d, steps[0]).0, steps[1..])
  }

  /** How many decisions of the run went one way. */
  function Count(d: Director, steps: seq<Step>, route: Route): nat
    decreases |steps|
  {
    if steps == [] then 0
    else
      var (next, decision) := Next(d, steps[0]);
      (if decision.Some? && decision.value.route == route then 1 else 0) + Count(next, steps[1..], route)
  }

  // ---------------------------------------------------------- nudge budgets

  function Took(decision: Option<Decision>, route: Route): nat {
    if decision.Some? && decision.value.route == route then 1 else 0
  }

  /** A decision pays for the nudge or the recovery it takes and for nothing else. */
  predicate Pays(b: Budgets, t: Budgets, decision: Option<Decision>) {
    && t.openTask == b.openTask + Took(decision, OpenTaskNudge)
    && t.declined == b.declined + Took(decision, DeclinedNudge)
    && t.recoveries == b.recoveries + Took(decision, Recovery)
    && t.markerEcho == b.markerEcho + Took(decision, EchoNudge)
    && t.workflowIdle == b.workflowIdle
    && (BudgetInv(b) ==> BudgetInv(t))
  }

  lemma FoldPhaseRoutes(governor: C.Governor, event: Inbound, around: Around)
    ensures var decision := FoldPhase(governor, event, around).1;
      && (decision.Some? ==> decision.value.route.IsReentry() || decision.value.route == OverflowFold)
      && (decision.Some? && event.Message? ==> decision.value.route != OverflowFold)
      && (decision.Some? ==> event.Message? || event.InferenceError?)
  {
  }

  /** A continuation that finds nobody owing an answer stops at the door. */
  lemma EmptyIsAnsweredEarly(d: Director, event: Inbound, around: Around)
    requires event.Message? && event.content == ""
    ensures EarlyPhase(d, event, around).1.Some?
  {
    var (governor, folded) := FoldPhase(d.governor, event, around);
    if folded.None? {
      assert !d.governor.debts.Outstanding();
      assert governor.debts == d.governor.debts;
    }
  }

  lemma MailPhaseKeeps(d: Director, event: Inbound)
    ensures var (next, decision) := MailPhase(d, event);
      && next == d.(refreshGeneration := next.refreshGeneration)
      && (decision.Some? ==> event.Message?)
      && (decision.Some? ==> decision.value.route.RefreshArmed? || decision.value.route.RefreshStale? || decision.value.route.Unsolicited?)
  {
  }

  lemma ErrorPhasePays(b: Budgets, event: Inbound)
    ensures var (next, decision) := ErrorPhase(b, event);
      && Pays(b, next, decision)
      && (decision.Some? ==> event.InferenceError?)
      && (decision.Some? ==> decision.value.route.Recovery? || decision.value.route.RecoveryExhausted? || decision.value.route.TimeoutReply?)
  {
  }

  lemma EarlyPays(d: Director, event: Inbound, around: Around)
    ensures var (early, decision) := EarlyPhase(d, event, around);
      && Pays(d.budgets, early.budgets, decision)
      && early.tasks == d.tasks && early.pending == d.pending
      && (decision.Some? ==> event.Message? || event.InferenceError?)
      && (decision.Some? ==> !decision.value.route.Threw() && decision.value.route != DroppedApproval)
      && (decision.Some? ==> decision.value.route != StepNudge)
  {
    hide FoldPhase, MailPhase, ErrorPhase;
    FoldPhaseRoutes(d.governor, event, around);
    var folded := d.(governor := FoldPhase(d.governor, event, around).0);
    MailPhaseKeeps(folded, event);
    ErrorPhasePays(d.budgets, event);
  }

  lemma NoteBlockKeeps(d: Director, block: Block)
    ensures var next := NoteBlock(d, block);
      && next.budgets == d.budgets && next.governor == d.governor && next.refreshGeneration == d.refreshGeneration
      && (if block.ToolCall? && block.tool.ManageTasks? && block.tool.args.Some?
          then next.tasks == Apply(d.tasks, block.tool.args.value) && next.pending == d.pending + [TasksChanged]
          else next.tasks == d.tasks && next.pending == d.pending)
  {
  }

  lemma {:induction false} NoteBlocksKeeps(d: Director, blocks: seq<Block>)
    ensures var next := NoteBlocks(d, blocks);
      && next.budgets == d.budgets && next.governor == d.governor
      && next.tasks == TasksAfter(d.tasks, blocks)
      && next.refreshGeneration == d.refreshGeneration
      && next.pending == d.pending + TaskNotices(blocks)
  {
    if blocks != [] {
      NoteBlocksKeeps(d, blocks[..|blocks| - 1]);
      NoteBlockKeeps(NoteBlocks(d, blocks[..|blocks| - 1]), blocks[|blocks| - 1]);
    }
  }

  /** One notice for each valid `manage_tasks` call of a turn. */
  function TaskNotices(blocks: seq<Block>): seq<Notice> {
    if blocks == [] then []
    else
      var last := blocks[|blocks| - 1];
      TaskNotices(blocks[..|blocks| - 1])
      + if last.ToolCall? && last.tool.ManageTasks? && last.tool.args.Some? then [TasksChanged] else []
  }

  lemma NoteTurnKeeps(d: Director, turn: Turn, around: Around)
    ensures var next, noted, threw := NoteTurn(d, turn, around), NoteContent(d, turn, around), around.workflow.activeBefore.Throws?;
      && next.budgets == noted.budgets && next.governor == d.governor && next.refreshGeneration == d.refreshGeneration
      && next.tasks == (if threw then d.tasks else TasksAfter(d.tasks, turn.blocks))
      && next.pending == (if threw then d.pending else d.pending + TaskNotices(turn.blocks))
  {
    NoteBlocksKeeps(NoteContent(d, turn, around), turn.blocks);
  }

  lemma NoteEventBudgets(d: Director, event: Inbound, around: Around)
    ensures var b, t := d.budgets, NoteEvent(d, event, around).budgets;
      && (event.Message? ==> t == FreshBudgets)
      && (!event.Message? ==>
            && t.openTask == b.openTask && t.declined == b.declined && t.markerEcho == b.markerEcho
            && t.recoveries == if event.InferenceDone? then 0 else b.recoveries)
  {
    if event.InferenceDone? {
      NoteTurnKeeps(d, event.turn, around);
    }
  }

  /** A failure takes a coordinator that throws, at a turn boundary. */
  predicate Fails(decision: Decision, event: Inbound, workflow: Workflow) {
    decision == Rethrow && event.InferenceDone? && Throwing(workflow)
  }

  predicate Throwing(workflow: Workflow) {
    || workflow.activeBefore.Throws? || workflow.active.Throws? || workflow.atGate.Throws? || workflow.stepIdThrows
    || workflow.atGateStill.Throws? || workflow.directiveThrows
  }

  lemma OpenTaskPhasePays(d: Director, event: Inbound, raw: seq<Action>, base: seq<Action>, workflow: Workflow)
    ensures var (next, decision) := OpenTaskPhase(d, event, raw, base, workflow);
      && Pays(d.budgets, next.budgets, Some(decision))
      && next == d.(budgets := next.budgets)
      && (decision.route.FleetIdle? || decision.route.OpenTaskNudge? || decision.route.BaseDecision?
          || Fails(decision, event, workflow))
  {
  }

  /** After the base director has spoken, or a coordinator consulted then threw. */
  predicate Follows(decision: Decision, event: Inbound, workflow: Workflow) {
    decision.route.FollowsBase() || Fails(decision, event, workflow)
  }

  lemma StepPhasePays(d: Director, event: Inbound, base: seq<Action>, workflow: Workflow)
    ensures var (next, decision) := StepPhase(d, event, base, workflow);
      && next == d.(operatorResponded := next.operatorResponded)
      && (decision.Some? ==>
            && Pays(d.budgets, next.budgets, decision)
            && Follows(decision.value, event, workflow)
            && (decision.value.route == StepNudge ==> d.budgets.workflowIdle < MAX_WORKFLOW_IDLE_TURNS))
  {
  }

  lemma NudgePhasePays(d: Director, event: Inbound, raw: seq<Action>, base: seq<Action>, around: Around)
    ensures var (next, decision) := NudgePhase(d, event, raw, base, around);
      && Pays(d.budgets, next.budgets, Some(decision))
      && next == d.(budgets := next.budgets, operatorResponded := next.operatorResponded)
      && Follows(decision, event, around.workflow)
      && (decision.route == StepNudge ==> d.budgets.workflowIdle < MAX_WORKFLOW_IDLE_TURNS)
  {
    hide StepPhase, OpenTaskPhase;
    StepPhasePays(d, event, base, around.workflow);
    OpenTaskPhasePays(StepPhase(d, event, base, around.workflow).0, event, raw, base, around.workflow);
  }

  lemma FoldBaseRoutes(governor: C.Governor, event: Inbound, base: seq<Action>, around: Around)
    ensures var decision := FoldBase(governor, event, base, around).1;
            decision.Some? ==> decision.value.route.PausedFold? || decision.value.route.IdleArmed?
  {
  }

  lemma AfterFoldPays(d: Director, folded: Option<Decision>, event: Inbound, raw: seq<Action>, base: seq<Action>, around: Around)
    requires folded.Some? ==> folded.value.route.PausedFold? || folded.value.route.IdleArmed?
    ensures var (next, decision) := AfterFold(d, folded, event, raw, base, around);
      && Pays(d.budgets, next.budgets, Some(decision))
      && next == d.(budgets := next.budgets, operatorResponded := next.operatorResponded)
      && (Follows(decision, event, around.workflow) || decision.route.PausedFold? || decision.route.IdleArmed?)
      && (decision.route == StepNudge ==> d.budgets.workflowIdle < MAX_WORKFLOW_IDLE_TURNS)
  {
    NudgePhasePays(d, event, raw, base, around);
  }

  lemma BasePhasePays(d: Director, event: Inbound, around: Around)
    ensures var (next, decision) := BasePhase(d, event, around);
      && Pays(d.budgets, next.budgets, Some(decision))
      && next.tasks == d.tasks && next.pending == d.pending && next.refreshGeneration == d.refreshGeneration
      && (decision.route == BaseThrew ==> around.base.None?)
      && (Follows(decision, event, around.workflow) || decision.route.BaseThrew? || decision.route.PausedFold? || decision.route.IdleArmed?)
      && (decision.route == StepNudge ==> d.budgets.workflowIdle < MAX_WORKFLOW_IDLE_TURNS)
  {
    hide AfterFold, FoldBase;
    if around.base.Some? {
      var base := if EndsInMarkerEcho(event) then RepliesWait(around.base.value) else around.base.value;
      FoldBaseRoutes(d.governor, event, base, around);
      var (folded, decision) := FoldBase(d.governor, event, base, around);
      AfterFoldPays(d.(governor := folded), decision, event, around.base.value, base, around);
    }
  }

  lemma MeasureKeeps(d: Director, event: Inbound, around: Around)
    ensures var next := MeasurePhase(d, event, around);
      && next.budgets == d.budgets && next.tasks == d.tasks && next.refreshGeneration == d.refreshGeneration
      && next.governor.debts == d.governor.debts
      && next.pending == d.pending + (if next.governor.rails.nonConverged && !d.governor.rails.nonConverged
                                      then [FoldNonConverged] else [])
  {
  }

  lemma MeasuredPays(d: Director, event: Inbound, around: Around)
    ensures var (next, decision) := MeasuredPhase(d, event, around);
      && Pays(d.budgets, next.budgets, Some(decision))
      && next.tasks == d.tasks && next.pending == d.pending && next.refreshGeneration == d.refreshGeneration
      && (decision.route == BaseThrew ==> around.base.None?)
      && (Follows(decision, event, around.workflow) || decision.route.BaseThrew? || decision.route.PausedFold?
          || decision.route.IdleArmed? || decision.route.EchoNudge?)
      && (decision.route == StepNudge ==> d.budgets.workflowIdle < MAX_WORKFLOW_IDLE_TURNS)
      && (decision.route == StepNudge && EndsInMarkerEcho(event) ==> d.budgets.markerEcho >= MAX_MARKER_ECHO_NUDGES)
  {
    hide BasePhase;
    BasePhasePays(d, event, around);
  }

  lemma DeclinedPhasePays(b: Budgets, tasks: seq<Task>, event: Inbound)
    ensures var (next, decision) := DeclinedPhase(b, tasks, event);
      && Pays(b, next, decision)
      && (decision.Some? ==> decision.value.route.DeclinedNudge? || decision.value.route.DeclinedReply?)
  {
  }

  lemma OwnPays(d: Director, event: Inbound, around: Around)
    ensures var (next, decision) := OwnPhase(d, event, around);
      && Pays(d.budgets, next.budgets, Some(decision))
      && next.tasks == d.tasks && next.refreshGeneration == d.refreshGeneration
      && decision.route != DroppedApproval && !decision.route.IsReentry() && decision.route != OverflowFold
      && (decision.route == CoordinatorThrew ==> Fails(decision, event, around.workflow))
      && (decision.route == BaseThrew ==> around.base.None?)
      && (decision.route == StepNudge ==> d.budgets.workflowIdle < MAX_WORKFLOW_IDLE_TURNS)
      && (decision.route == StepNudge && EndsInMarkerEcho(event) ==> d.budgets.markerEcho >= MAX_MARKER_ECHO_NUDGES)
  {
    hide MeasuredPhase, MeasurePhase, DeclinedPhase;
    DeclinedPhasePays(d.budgets, d.tasks, event);
    if DeclinedPhase(d.budgets, d.tasks, event).1.None? {
      MeasureKeeps(d, event, around);
      MeasuredPays(MeasurePhase(d, event, around), event, around);
    }
  }

  predicate NonEmptyMessage(step: Step) {
    step.Event? && step.event.Message? && step.event.content != ""
  }

  predicate TurnBoundary(step: Step) {
    step.Event? && step.event.InferenceDone?
  }

  /** What one event costs, short of a non-empty message. A nudge whose decision
      the coordinator then fails is paid for all the same. */
  predicate Costs(b: Budgets, t: Budgets, event: Inbound, route: Route) {
    && (BudgetInv(b) ==> BudgetInv(t))
    && (!(event.Message? && event.content != "") ==>
          && Counted(b.openTask, t.openTask, route, OpenTaskNudge)
          && Counted(b.declined, t.declined, route, DeclinedNudge)
          && Counted(b.markerEcho, t.markerEcho, route, EchoNudge)
          && (!event.InferenceDone? ==> Counted(b.recoveries, t.recoveries, route, Recovery)))
  }

  predicate Counted(before: nat, after: nat, route: Route, nudge: Route) {
    if route == CoordinatorThrew then before <= after <= before + 1
    else after == before + if route == nudge then 1 else 0
  }

  lemma LateCosts(d: Director, event: Inbound, around: Around)
    requires event.Message? ==> event.content != ""
    ensures var (next, decision) := OwnPhase(NoteEvent(d, event, around), event, around);
            Costs(d.budgets, next.budgets, event, decision.route)
  {
    NoteEventBudgets(d, event, around);
    OwnPays(NoteEvent(d, event, around), event, around);
  }

  lemma InnerCosts(d: Director, event: Inbound, around: Around)
    ensures var (next, decision) := DecideInner(d, event, around);
      && Costs(d.budgets, next.budgets, event, decision.route)
      && (decision.route == CoordinatorThrew ==> Fails(decision, event, around.workflow))
      && (decision.route == BaseThrew ==> around.base.None?)
  {
    hide OwnPhase, EarlyPhase, NoteEvent;
    EarlyPays(d, event, around);
    var (early, decision) := EarlyPhase(d, event, around);
    if decision.None? {
      if event.Message? && event.content == "" {
        EmptyIsAnsweredEarly(d, event, around);
        assert false;
      }
      NoteEventBudgets(early, event, around);
      OwnPays(NoteEvent(early, event, around), event, around);
      LateCosts(early, event, around);
    }
  }

  lemma FinishKeeps(d: Director, decision: Decision, event: Inbound, around: Around)
    ensures var (next, finished) := Finish(d, decision, event, around);
      && next == d.(pending := next.pending)
      && (finished.route == decision.route || Fails(finished, event, around.workflow))
  {
  }

  /** A decision pays for the nudge or the recovery it takes. */
  lemma DecideCosts(d: Director, event: Inbound, around: Around)
    ensures var (next, decision) := Decide(d, event, around); Costs(d.budgets, next.budgets, event, decision.route)
  {
    InnerCosts(d, event, around);
    var (next, decision) := DecideInner(d, event, around);
    FinishKeeps(next, decision, event, around);
  }

  predicate Spends(b: Budgets, t: Budgets, decision: Option<Decision>) {
    && b.openTask + Took(decision, OpenTaskNudge) <= t.openTask
    && b.declined + Took(decision, DeclinedNudge) <= t.declined
    && b.markerEcho + Took(decision, EchoNudge) <= t.markerEcho
  }

  lemma StepSpends(d: Director, step: Step)
    ensures var (next, decision) := Next(d, step);
      && (BudgetInv(d.budgets) ==> BudgetInv(next.budgets))
      && (!NonEmptyMessage(step) ==> Spends(d.budgets, next.budgets, decision))
      && (!NonEmptyMessage(step) && !TurnBoundary(step) ==>
            d.budgets.recoveries + Took(decision, Recovery) <= next.budgets.recoveries)
  {
    if step.Event? {
      DecideCosts(d, step.event, step.around);
    }
  }

  lemma {:induction false} RunKeepsBudgetInv(d: Director, steps: seq<Step>)
    requires BudgetInv(d.budgets)
    ensures BudgetInv(Run(d, steps).budgets)
    decreases |steps|
  {
    if steps != [] {
      StepSpends(d, steps[0]);
      RunKeepsBudgetInv(Next(d, steps[0]).0, steps[1..]);
    }
  }

  lemma {:induction false} RunSpendsNudges(d: Director, steps: seq<Step>)
    requires BudgetInv(d.budgets)
    requires forall i :: 0 <= i < |steps| ==> !NonEmptyMessage(steps[i])
    ensures d.budgets.openTask + Count(d, steps, OpenTaskNudge) <= MAX_OPEN_TASK_NUDGES
    ensures d.budgets.declined + Count(d, steps, DeclinedNudge) <= MAX_DECLINED_OPEN_TASK_NUDGES
    ensures d.budgets.markerEcho + Count(d, steps, EchoNudge) <= MAX_MARKER_ECHO_NUDGES
    decreases |steps|
  {
    if steps != [] {
      assert !NonEmptyMessage(steps[0]);
      StepSpends(d, steps[0]);
      RunSpendsNudges(Next(d, steps[0]).0, steps[1..]);
    }
  }

  lemma {:induction false} RunSpendsRecoveries(d: Director, steps: seq<Step>)
    requires BudgetInv(d.budgets)
    requires forall i :: 0 <= i < |steps| ==> !NonEmptyMessage(steps[i]) && !TurnBoundary(steps[i])
    ensures d.budgets.recoveries + Count(d, steps, Recovery) <= MAX_INFERENCE_RECOVERIES
    decreases |steps|
  {
    if steps != [] {
      assert !NonEmptyMessage(steps[0]) && !TurnBoundary(steps[0]);
      StepSpends(d, steps[0]);
      RunSpendsRecoveries(Next(d, steps[0]).0, steps[1..]);
    }
  }

  /** After any history, between two non-empty inbound messages the director
      injects at most three open-task nudges, two declined-call nudges and two
      marker-echo nudges, and between turn boundaries at most two recoveries of
      an aborted inference. No continuation gives a budget back. */
  lemma BudgetsHold(overhead: nat, fleet: bool, nudgeAt: nat, history: seq<Step>, steps: seq<Step>)
    requires forall i :: 0 <= i < |steps| ==> !NonEmptyMessage(steps[i])
    ensures var d := Run(FreshDirector(overhead, fleet, nudgeAt), history);
      && Count(d, steps, OpenTaskNudge) <= 3
      && Count(d, steps, DeclinedNudge) <= 2
      && Count(d, steps, EchoNudge) <= 2
      && ((forall i :: 0 <= i < |steps| ==> !TurnBoundary(steps[i])) ==> Count(d, steps, Recovery) <= 2)
  {
    var d := Run(FreshDirector(overhead, fleet, nudgeAt), history);
    RunKeepsBudgetInv(FreshDirector(overhead, fleet, nudgeAt), history);
    RunSpendsNudges(d, steps);
    if forall i :: 0 <= i < |steps| ==> !TurnBoundary(steps[i]) {
      RunSpendsRecoveries(d, steps);
    }
  }
}
