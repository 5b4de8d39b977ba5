/** What reaches whom: empty messages, messages folded away on old budgets, the
    task list and the notices of one decision. */
module DirectorFlow {
  import opened Common
  import opened Reactor
  import C = Compaction
  import G = CompactionRuns
  import opened Tasks
  import opened Director
  import opened DirectorRuns

  // --------------------------------------------------------- empty messages

  /** An empty message never reaches the base director, so what that one would do
      makes no difference, and it starts an inference only as the answer to a
      fold or as the armed credential refresh. */
  lemma EmptyMessagesInferOnlyWhenOwed(d: Director, event: Inbound, around: Around, other: Option<seq<Action>>)
    requires event.Message? && event.content == ""
    ensures var (next, decision) := Decide(d, event, around);
      && Decide(d, event, around.(base := other)) == (next, decision)
      && next.budgets == d.budgets
      && (HasInfer(decision.actions) ==>
            || (decision.route == InferResume && d.governor.debts.infer && !next.governor.debts.infer)
            || (decision.route == RefreshArmed && event.mail.Refresh? && event.mail.generation.Some?
                && event.mail.generation == d.refreshGeneration && next.refreshGeneration == None))
  {
    EmptyIsAnsweredEarly(d, event, around);
    assert EarlyPhase(d, event, around) == EarlyPhase(d, event, around.(base := other));
    EmptyRoutes(d, event, around);
    var (early, decision) := EarlyPhase(d, event, around);
    SettledInfers(decision.value.actions, early.pending);
  }

  lemma EmptyRoutes(d: Director, event: Inbound, around: Around)
    requires event.Message? && event.content == ""
    ensures var (early, decision) := EarlyPhase(d, event, around);
      && early.budgets == d.budgets && early.pending == d.pending
      && decision.Some?
      && (decision.value.route.IsReentry() || decision.value.route.RefreshArmed? || decision.value.route.RefreshStale? || decision.value.route.Unsolicited?)
      && (HasInfer(decision.value.actions) <==> decision.value.route.InferResume? || decision.value.route.RefreshArmed?)
      && (decision.value.route == InferResume ==> d.governor.debts.infer && !early.governor.debts.infer)
      && (decision.value.route == RefreshArmed ==>
            event.mail.Refresh? && event.mail.generation.Some?
            && event.mail.generation == d.refreshGeneration && early.refreshGeneration == None)
  {
    EmptyIsAnsweredEarly(d, event, around);
    FoldPhaseRoutes(d.governor, event, around);
    FoldPhaseInfers(d.governor, event, around);
    LoneActions();
  }

  lemma FoldPhaseInfers(governor: C.Governor, event: Inbound, around: Around)
    ensures var (next, decision) := FoldPhase(governor, event, around);
      decision.Some? ==>
        && (HasInfer(decision.value.actions) <==> decision.value.route == InferResume)
        && (decision.value.route == InferResume ==> governor.debts.infer && !next.debts.infer)
  {
    LoneActions();
    BareFoldsDoNotInfer(governor);
    BareFoldsDoNotInfer(governor.ResumeAfterCompact(Seen(event)).0.NotePostCompact(around.turns));
    BareFoldsDoNotInfer(governor.InterceptIdleContinuation(Seen(event)).0);
  }

  lemma LoneActions()
    ensures HasInfer([Infer(NoNudge)]) && !HasInfer([Wait])
  {
    assert [Infer(NoNudge)][0].Infer?;
  }

  lemma BareFoldsDoNotInfer(governor: C.Governor)
    ensures forall reason :: !HasInfer(governor.FoldActions(C.Fold([], reason)))
  {
  }

  lemma SettledInfers(actions: seq<Action>, notices: seq<Notice>)
    ensures HasInfer(Settle(actions) + Emits(notices)) <==> HasInfer(actions)
  {
    var all := Settle(actions) + Emits(notices);
    if HasInfer(actions) {
      var i :| 0 <= i < |actions| && actions[i].Infer?;
      assert Settle(actions) == actions;
      assert all[i].Infer?;
    }
    if HasInfer(all) {
      var i :| 0 <= i < |all| && all[i].Infer?;
      assert i < |Settle(actions)|;
      assert actions[i].Infer?;
    }
  }

  // ---------------------------------------- what an answered message resets

  /** A compaction armed for the idle moment, and free to fold. */
  predicate IdleFoldReady(g: C.Governor) {
    g.arms.idle && (g.arms.manual || !g.rails.AtCap())
  }

  /** A non-empty message gives the budgets back exactly when no idle fold is
      ready for it and it is no credential refresh: one that races a ready fold is
      folded away on the old budgets, and answered after the fold without a reset;
      a refresh is answered on the old budgets too. */
  lemma MessageResetsUnlessFolded(d: Director, event: Inbound, around: Around)
    requires event.Message? && event.content != ""
    ensures var (next, decision) := Decide(d, event, around);
      && (decision.route == IdleFold <==> IdleFoldReady(d.governor))
      && (IdleFoldReady(d.governor) ==> next.governor.debts.infer)
      && if IdleFoldReady(d.governor) || event.mail.Refresh? then next.budgets == d.budgets
         else Pays(FreshBudgets, next.budgets, Some(decision))
  {
    FoldOrReset(d, event, around);
    var (next, decision) := DecideInner(d, event, around);
    FinishKeeps(next, decision, event, around);
  }

  lemma FoldOrReset(d: Director, event: Inbound, around: Around)
    requires event.Message? && event.content != ""
    ensures var (next, decision) := DecideInner(d, event, around);
      && (decision.route == IdleFold <==> IdleFoldReady(d.governor))
      && (IdleFoldReady(d.governor) ==> next.governor.debts.infer)
      && if IdleFoldReady(d.governor) || event.mail.Refresh? then next.budgets == d.budgets
         else Pays(FreshBudgets, next.budgets, Some(decision))
  {
    EarlyOnContent(d, event, around);
    var (early, decision) := EarlyPhase(d, event, around);
    if decision.None? {
      OwnPays(NoteEvent(early, event, around), event, around);
    }
  }

  lemma EarlyOnContent(d: Director, event: Inbound, around: Around)
    requires event.Message? && event.content != ""
    ensures var (early, decision) := EarlyPhase(d, event, around);
      && (decision.Some? <==> IdleFoldReady(d.governor) || event.mail.Refresh?)
      && (decision.Some? ==> early.budgets == d.budgets)
      && (decision.Some? && decision.value.route == IdleFold <==> IdleFoldReady(d.governor))
      && (IdleFoldReady(d.governor) ==> early.governor.debts.infer)
  {
  }

  // One history in which a message is folded away on a spent budget.

  const QuietWorkflow := Workflow(No, false, No, No, false, No, false)

  function Quietly(base: seq<Action>): Around {
    Around(C.Turns(2, 0), C.Limits(100, 10, 1000, 0), Some(base), QuietWorkflow)
  }

  const CreatesTask := Turn([ToolCall("a", ManageTasks(Some(Create([NewTask("t", "Title", None)]))))], false)

  /** A turn opens a task, its tool call is rejected, and the operator asks for a
      fold while the session is idle; then the operator's next message comes in. */
  const OpensTask := Event(InferenceDone(CreatesTask, 0), Quietly([ExecuteTools]))
  const Rejects := Event(ToolDone("a", true, true), Quietly([Infer(NoNudge)]))
  const AsksForFold := Govern(G.Manual("", false, None))
  const RacingMessage := Event(Message("go on", Ordinary), Quietly([Infer(NoNudge)]))

  /** It happens from a fresh session: the nudge spent on the rejection is still
      counted after the message that should have given it back. */
  lemma RacedMessageKeepsSpentBudget(overhead: nat, fleet: bool, nudgeAt: nat)
    ensures var before := Run(FreshDirector(overhead, fleet, nudgeAt), [OpensTask, Rejects, AsksForFold]);
      var (next, decision) := Next(before, RacingMessage);
      && NonEmptyMessage(RacingMessage)
      && decision.Some? && decision.value.route == IdleFold
      && before.budgets.declined == 1 && next.budgets.declined == 1
  {
    var d0 := FreshDirector(overhead, fleet, nudgeAt);
    TaskOpens(d0);
    var d1 := Next(d0, OpensTask).0;
    RejectionNudges(d1);
    var d2 := Next(d1, Rejects).0;
    FoldGetsReady(d2);
    RunThree(d0, OpensTask, Rejects, AsksForFold);
    var d3 := Next(d2, AsksForFold).0;
    MessageResetsUnlessFolded(d3, RacingMessage.event, RacingMessage.around);
  }

  lemma RunThree(d: Director, first: Step, second: Step, third: Step)
    ensures Run(d, [first, second, third]) == Next(Next(Next(d, first).0, second).0, third).0
  {
    assert [first, second, third][1..] == [second, third];
    assert [second, third][1..] == [third];
    assert [third][1..] == [];
    assert Run(Next(d, first).0, [second, third]) == Run(Next(Next(d, first).0, second).0, [third]);
  }

  /** A turn that goes on only measures. */
  lemma BusyTurnMeasures(d: Director, event: Inbound, around: Around)
    requires NotesCalls(event, around) && around.base.Some? && !HasTerminal(around.base.value)
    ensures Decide(d, event, around).0.governor == MeasurePhase(d, event, around).governor
  {
    EarlyIsOut(d, event, around);
    var noted := NoteEvent(d, event, around);
    NoteTurnKeeps(d, event.turn, around);
    BusyOwnMeasures(noted, event, around);
    SameMeasure(noted, d, event, around);
    var (next, decision) := DecideInner(d, event, around);
    FinishKeeps(next, decision, event, around);
  }

  lemma BusyOwnMeasures(d: Director, event: Inbound, around: Around)
    requires event.InferenceDone? && around.base.Some? && !HasTerminal(around.base.value)
    ensures OwnPhase(d, event, around).0.governor == MeasurePhase(d, event, around).governor
  {
    BusyBaseKeepsGovernor(MeasurePhase(d, event, around), event, around);
  }

  lemma SameMeasure(d: Director, other: Director, event: Inbound, around: Around)
    requires d.governor == other.governor
    ensures MeasurePhase(d, event, around).governor == MeasurePhase(other, event, around).governor
  {
  }

  lemma BusyBaseKeepsGovernor(d: Director, event: Inbound, around: Around)
    requires event.InferenceDone? && around.base.Some? && !HasTerminal(around.base.value)
    ensures BasePhase(d, event, around).0.governor == d.governor
  {
    var base := if EndsInMarkerEcho(event) then RepliesWait(around.base.value) else around.base.value;
    BusyIsWithheldAsItIs(around.base.value);
    BusyIsNoFold(d.governor, event, base, around);
    AfterFoldPays(d, None, event, around.base.value, base, around);
  }

  lemma BusyIsNoFold(governor: C.Governor, event: Inbound, base: seq<Action>, around: Around)
    requires event.InferenceDone? && !HasTerminal(base)
    ensures FoldBase(governor, event, base, around) == (governor, None)
  {
  }

  lemma {:induction false} BusyIsWithheldAsItIs(actions: seq<Action>)
    requires !HasTerminal(actions)
    ensures RepliesWait(actions) == actions
  {
    if actions != [] {
      assert !Terminal(actions[0]);
      assert forall i :: 0 <= i < |actions[1..]| ==> actions[1..][i] == actions[i + 1];
      BusyIsWithheldAsItIs(actions[1..]);
    }
  }

  lemma TaskOpens(d: Director)
    requires d.budgets.declined == 0 && !d.governor.arms.idle && !d.governor.debts.Outstanding()
    ensures var next := Next(d, OpensTask).0;
      && next.budgets.declined == 0 && HasActiveTasks(next.tasks)
      && next.governor.gauge.turnCount == 2 && !next.governor.arms.idle && !next.governor.debts.Outstanding()
  {
    var event, around := OpensTask.event, OpensTask.around;
    QuietTurnIsBusy();
    BusyTurnMeasures(d, event, around);
    DecideTells(d, event, around);
    OpenedTaskIsActive(d.tasks);
    DeclinesOnlyRejections(d, event, around);
    MeasureIsQuiet(d, event, around);
  }

  lemma QuietTurnIsBusy()
    ensures !HasTerminal([ExecuteTools]) && NotesCalls(OpensTask.event, OpensTask.around)
  {
  }

  lemma MeasureIsQuiet(d: Director, event: Inbound, around: Around)
    requires event.InferenceDone?
    ensures var measured := MeasurePhase(d, event, around).governor;
      && measured.gauge.turnCount == around.turns.count
      && measured.arms.idle == d.governor.arms.idle && measured.debts == d.governor.debts
  {
  }

  lemma DeclinesOnlyRejections(d: Director, event: Inbound, around: Around)
    requires event.InferenceDone? && !Throwing(around.workflow)
    ensures Decide(d, event, around).0.budgets.declined == d.budgets.declined
  {
    EarlyIsOut(d, event, around);
    NoteEventBudgets(d, event, around);
    OwnDeclinesOnlyRejections(NoteEvent(d, event, around), event, around);
    var (next, decision) := DecideInner(d, event, around);
    FinishKeeps(next, decision, event, around);
  }

  lemma OwnDeclinesOnlyRejections(d: Director, event: Inbound, around: Around)
    requires event.InferenceDone?
    ensures OwnPhase(d, event, around).0.budgets.declined == d.budgets.declined
  {
    hide MeasuredPhase, MeasurePhase;
    MeasureKeeps(d, event, around);
    MeasuredPays(MeasurePhase(d, event, around), event, around);
  }

  lemma OpenedTaskIsActive(tasks: seq<Task>)
    ensures HasActiveTasks(TasksAfter(tasks, CreatesTask.blocks))
  {
    var blocks := CreatesTask.blocks;
    assert blocks[..0] == [];
    assert TasksAfter(tasks, blocks) == Apply(tasks, blocks[0].tool.args.value);
    assert TasksAfter(tasks, blocks)[0].status == Todo;
  }

  lemma FoldGetsReady(d: Director)
    requires d.governor.gauge.turnCount == 2 && !d.governor.debts.Outstanding()
    ensures var next := Next(d, AsksForFold).0; IdleFoldReady(next.governor) && next.budgets == d.budgets
  {
  }

  lemma RejectionNudges(d: Director)
    requires d.budgets.declined == 0 && HasActiveTasks(d.tasks)
    ensures var next := Next(d, Rejects).0; next.budgets.declined == 1 && next.governor == d.governor
  {
    EarlyIsOut(d, Rejects.event, Rejects.around);
  }

  // --------------------------------------------- empty inferences are paid for

  predicate EmptyInfer(step: Step, decision: Option<Decision>) {
    step.Event? && step.event.Message? && step.event.content == "" && decision.Some? && HasInfer(decision.value.actions)
  }

  function EmptyInfers(d: Director, steps: seq<Step>): nat
    decreases |steps|
  {
    if steps == [] then 0
    else
      var (next, decision) := Next(d, steps[0]);
      (if EmptyInfer(steps[0], decision) then 1 else 0) + EmptyInfers(next, steps[1..])
  }

  function Folds(d: Director, steps: seq<Step>): nat
    decreases |steps|
  {
    if steps == [] then 0
    else
      var (next, decision) := Next(d, steps[0]);
      (if decision.Some? && decision.value.route.IsFold() then 1 else 0) + Folds(next, steps[1..])
  }

  function RefreshesArmed(steps: seq<Step>): nat {
    if steps == [] then 0 else (if steps[0].ArmRefresh? then 1 else 0) + RefreshesArmed(steps[1..])
  }

  function Credit(d: Director): nat {
    (if d.governor.debts.infer then 1 else 0) + (if d.refreshGeneration.Some? then 1 else 0)
  }

  lemma FoldPhaseCredit(governor: C.Governor, event: Inbound, around: Around)
    ensures var (next, decision) := FoldPhase(governor, event, around);
      && (decision.None? ==> next.debts == governor.debts)
      && (decision.Some? && !decision.value.route.IsFold() ==>
            (if decision.value.route == InferResume then 1 else 0) + (if next.debts.infer then 1 else 0)
            <= (if governor.debts.infer then 1 else 0))
  {
  }

  lemma OwnCredit(d: Director, event: Inbound, around: Around)
    ensures var (next, decision) := OwnPhase(d, event, around);
      && next.refreshGeneration == d.refreshGeneration
      && (decision.route != PausedFold ==> next.governor.debts == d.governor.debts)
      && (event.InferenceDone? ==> decision.route != PausedFold)
  {
    MeasureKeeps(d, event, around);
    BaseCredit(MeasurePhase(d, event, around), event, around);
  }

  lemma FoldBaseDebts(governor: C.Governor, event: Inbound, base: seq<Action>, around: Around)
    ensures var (next, decision) := FoldBase(governor, event, base, around);
      && (decision.None? || !decision.value.route.PausedFold? ==> next.debts == governor.debts)
      && (decision.Some? && decision.value.route.PausedFold? ==> !event.InferenceDone?)
      && (decision.Some? ==> decision.value.route.PausedFold? || decision.value.route.IdleArmed?)
  {
  }

  lemma BaseCredit(d: Director, event: Inbound, around: Around)
    ensures var (next, decision) := BasePhase(d, event, around);
      && next.refreshGeneration == d.refreshGeneration
      && (decision.route != PausedFold ==> next.governor.debts == d.governor.debts)
      && (event.InferenceDone? ==> decision.route != PausedFold)
  {
    hide NudgePhase, FoldBase;
    if around.base.Some? {
      var base := if EndsInMarkerEcho(event) then RepliesWait(around.base.value) else around.base.value;
      var (folded, decision) := FoldBase(d.governor, event, base, around);
      FoldBaseDebts(d.governor, event, base, around);
      NudgePhasePays(d.(governor := folded), event, around.base.value, base, around);
    }
  }

  lemma NoteEventCredit(d: Director, event: Inbound, around: Around)
    ensures Credit(NoteEvent(d, event, around)) == Credit(d)
  {
    if event.InferenceDone? {
      NoteTurnKeeps(d, event.turn, around);
    }
  }

  lemma EarlyCredit(d: Director, event: Inbound, around: Around)
    ensures var (early, decision) := EarlyPhase(d, event, around);
      && (decision.None? ==> Credit(early) == Credit(d))
      && (decision.Some? ==>
            (if decision.value.route.InferResume? || decision.value.route.RefreshArmed? then 1 else 0) + Credit(early)
            <= (if decision.value.route.IsFold() then 1 else 0) + Credit(d))
  {
    FoldPhaseCredit(d.governor, event, around);
    FoldPhaseRoutes(d.governor, event, around);
  }

  /** What a decision on a non-empty event costs in credit. */
  lemma InnerCredit(d: Director, event: Inbound, around: Around)
    requires !(event.Message? && event.content == "")
    ensures var (next, decision) := DecideInner(d, event, around);
      Credit(next) <= (if decision.route.IsFold() && !event.InferenceDone? then 1 else 0) + Credit(d)
  {
    EarlyCredit(d, event, around);
    FoldPhaseRoutes(d.governor, event, around);
    var (early, decision) := EarlyPhase(d, event, around);
    if decision.None? {
      NoteEventCredit(early, event, around);
      OwnCredit(NoteEvent(early, event, around), event, around);
    }
  }

  lemma DecideCredit(d: Director, event: Inbound, around: Around)
    ensures var (next, decision) := Decide(d, event, around);
      (if event.Message? && event.content == "" && HasInfer(decision.actions) then 1 else 0) + Credit(next)
      <= (if decision.route.IsFold() then 1 else 0) + Credit(d)
  {
    hide EarlyPhase, OwnPhase, NoteEvent;
    if event.Message? && event.content == "" {
      EarlyCredit(d, event, around);
      EmptyRoutes(d, event, around);
      EmptyMessagesInferOnlyWhenOwed(d, event, around, None);
    } else {
      InnerCredit(d, event, around);
    }
  }

  lemma HostCallsOweNothing(g: C.Governor, call: HostCall)
    ensures G.Apply(g, call).0.debts.infer ==> g.debts.infer
  {
  }

  lemma StepCredit(d: Director, step: Step)
    ensures var (next, decision) := Next(d, step);
      (if EmptyInfer(step, decision) then 1 else 0) + Credit(next)
      <= (if decision.Some? && decision.value.route.IsFold() then 1 else 0) + (if step.ArmRefresh? then 1 else 0) + Credit(d)
  {
    match step
    case Event(event, around) => DecideCredit(d, event, around);
    case Govern(call) => HostCallsOweNothing(d.governor, call);
    case _ =>
  }

  lemma {:induction false} RunCredit(d: Director, steps: seq<Step>)
    ensures EmptyInfers(d, steps) + Credit(Run(d, steps)) <= Folds(d, steps) + RefreshesArmed(steps) + Credit(d)
    decreases |steps|
  {
    if steps != [] {
      StepCredit(d, steps[0]);
      RunCredit(Next(d, steps[0]).0, steps[1..]);
    }
  }

  /** Over every run of a session, the inferences that empty messages start are
      no more than the folds issued and the credential refreshes armed. */
  lemma EmptyInferencesArePaid(overhead: nat, fleet: bool, nudgeAt: nat, steps: seq<Step>)
    ensures var d := FreshDirector(overhead, fleet, nudgeAt);
            EmptyInfers(d, steps) <= Folds(d, steps) + RefreshesArmed(steps)
  {
    RunCredit(FreshDirector(overhead, fleet, nudgeAt), steps);
  }

  // ------------------------------------- when the coordinator fails a decision

  /** The early phase leaves everything an inference or a tool result touches. */
  lemma EarlyIsOut(d: Director, event: Inbound, around: Around)
    requires event.InferenceDone? || event.ToolDone?
    ensures EarlyPhase(d, event, around) == (d, None)
  {
  }

  /** A noted turn is decided after the early phases. */
  lemma InnerIsOwn(d: Director, event: Inbound, around: Around)
    requires event.InferenceDone?
    ensures DecideInner(d, event, around)
            == if NotingThrows(event, around) then (NoteEvent(d, event, around), Rethrow)
               else OwnPhase(NoteEvent(d, event, around), event, around)
  {
    EarlyIsOut(d, event, around);
  }

  /** The base director's actions as the nudges see them. */
  function Shown(event: Inbound, base: seq<Action>): seq<Action> {
    if EndsInMarkerEcho(event) then RepliesWait(base) else base
  }

  /** The unfinished step is dealt with before the open tasks. */
  predicate StepTaken(d: Director, event: Inbound, base: seq<Action>, workflow: Workflow) {
    StepUnfinished(d, event, base, workflow) && (d.operatorResponded || d.liveHelpers == 0)
  }

  /** A question that the nudges come to put is one the coordinator throws at:
      whether it is active, whether it is at a gate, which step it is on, or
      whether it is still at a gate. */
  predicate NudgesThrow(d: Director, event: Inbound, base: seq<Action>, workflow: Workflow) {
    && !(d.budgets.toolOnlyPending && HasInfer(base))
    && (workflow.active.Throws? ||
        (workflow.active.Yes? &&
         (workflow.atGate.Throws? ||
          if StepTaken(d, event, base, workflow)
          then !d.operatorResponded && d.budgets.workflowIdle < MAX_WORKFLOW_IDLE_TURNS && workflow.stepIdThrows
          else workflow.atGateStill.Throws?)))
  }

  /** The base director's actions arm the idle slot, which ends the decision. */
  predicate ArmsBefore(d: Director, event: Inbound, base: seq<Action>) {
    d.governor.ArmsIdle(Seen(event), base) && !d.governor.hostClosure
  }

  /** From a measured turn on. */
  predicate MeasuredThrows(d: Director, event: Inbound, around: Around) {
    if EndsInMarkerEcho(event) && d.budgets.markerEcho < MAX_MARKER_ECHO_NUDGES then around.workflow.directiveThrows
    else
      && around.base.Some?
      && var base := Shown(event, around.base.value);
         around.workflow.directiveThrows || (!ArmsBefore(d, event, base) && NudgesThrow(d, event, base, around.workflow))
  }

  /** The guards at which the coordinator is asked and throws, in the order a
      decision comes to them. */
  predicate CoordinatorFails(d: Director, event: Inbound, around: Around) {
    && event.InferenceDone?
    && (around.workflow.activeBefore.Throws?
        || MeasuredThrows(MeasurePhase(NoteEvent(d, event, around), event, around), event, around))
  }

  lemma StepPhaseThrows(d: Director, event: Inbound, base: seq<Action>, workflow: Workflow)
    requires event.InferenceDone?
    ensures var (stepped, decision) := StepPhase(d, event, base, workflow);
      if workflow.active.Throws? || (workflow.active.Yes? && workflow.atGate.Throws?) then decision == Some(Rethrow)
      else
        && (decision.Some? <==> StepTaken(d, event, base, workflow))
        && (decision.None? ==> stepped == d)
        && (decision.Some? ==>
              (decision.value.route == CoordinatorThrew <==>
                 !d.operatorResponded && d.budgets.workflowIdle < MAX_WORKFLOW_IDLE_TURNS && workflow.stepIdThrows))
  {
  }

  lemma OpenTaskPhaseThrows(d: Director, event: Inbound, raw: seq<Action>, base: seq<Action>, workflow: Workflow)
    requires event.InferenceDone?
    ensures OpenTaskPhase(d, event, raw, base, workflow).1.route == CoordinatorThrew
            <==> workflow.active.Yes? && workflow.atGateStill.Throws?
  {
  }

  lemma NudgePhaseThrows(d: Director, event: Inbound, raw: seq<Action>, base: seq<Action>, around: Around)
    requires event.InferenceDone?
    ensures NudgePhase(d, event, raw, base, around).1.route == CoordinatorThrew <==> NudgesThrow(d, event, base, around.workflow)
  {
    StepPhaseThrows(d, event, base, around.workflow);
    OpenTaskPhaseThrows(d, event, raw, base, around.workflow);
  }

  lemma FoldBaseAtBoundary(governor: C.Governor, event: Inbound, base: seq<Action>, around: Around)
    requires event.InferenceDone?
    ensures var (next, decision) := FoldBase(governor, event, base, around);
      && (decision.Some? <==> governor.ArmsIdle(Seen(event), base) && !governor.hostClosure)
      && (decision.Some? ==> decision.value.route == IdleArmed)
  {
  }

  lemma BasePhaseThrows(d: Director, event: Inbound, around: Around)
    requires event.InferenceDone? && around.base.Some?
    ensures var base, route := Shown(event, around.base.value), BasePhase(d, event, around).1.route;
      && route != BaseThrew
      && (route == CoordinatorThrew <==> !ArmsBefore(d, event, base) && NudgesThrow(d, event, base, around.workflow))
  {
    hide NudgePhase, FoldBase;
    var raw := around.base.value;
    var base := Shown(event, raw);
    FoldBaseAtBoundary(d.governor, event, base, around);
    var folded := FoldBase(d.governor, event, base, around).0;
    NudgePhaseThrows(d.(governor := folded), event, raw, base, around);
    NudgePhasePays(d.(governor := folded), event, raw, base, around);
  }

  lemma MeasuredPhaseThrows(d: Director, event: Inbound, around: Around)
    requires event.InferenceDone?
    ensures var route := MeasuredPhase(d, event, around).1.route;
      MeasuredThrows(d, event, around)
      <==> route == CoordinatorThrew || (route != BaseThrew && around.workflow.directiveThrows)
  {
    if around.base.Some? {
      BasePhaseThrows(d, event, around);
    }
  }

  lemma InnerThrows(d: Director, event: Inbound, around: Around)
    requires event.InferenceDone?
    ensures var route := DecideInner(d, event, around).1.route;
      CoordinatorFails(d, event, around)
      <==> route == CoordinatorThrew || (route != BaseThrew && around.workflow.directiveThrows)
  {
    InnerIsOwn(d, event, around);
    var noted := NoteEvent(d, event, around);
    MeasuredPhaseThrows(MeasurePhase(noted, event, around), event, around);
    OwnIsMeasured(noted, event, around);
  }

  lemma OwnIsMeasured(d: Director, event: Inbound, around: Around)
    requires event.InferenceDone?
    ensures OwnPhase(d, event, around) == MeasuredPhase(MeasurePhase(d, event, around), event, around)
  {
  }

  /** The coordinator fails a decision exactly at those guards, and then nothing
      is decided. */
  lemma CoordinatorFailsExactly(d: Director, event: Inbound, around: Around)
    ensures var decision := Decide(d, event, around).1;
      && (decision.route == CoordinatorThrew <==> CoordinatorFails(d, event, around))
      && (CoordinatorFails(d, event, around) ==> decision == Rethrow)
  {
    if event.InferenceDone? {
      InnerThrows(d, event, around);
    }
    InnerCosts(d, event, around);
    var (next, decision) := DecideInner(d, event, around);
    FinishKeeps(next, decision, event, around);
  }

  // ------------------------------------------------- tasks and notices

  /** What one event has to tell the host; nothing once noting the turn failed. */
  function Pushed(d: Director, event: Inbound, around: Around): seq<Notice> {
    match event
    case InferenceDone(turn, reported) =>
      if around.workflow.activeBefore.Throws? then []
      else TaskNotices(turn.blocks) + Diverging(d, reported, around)
    case ToolDone(callId, isError, _) => if callId in d.calls.lsp && !isError then [ToolsActivated] else []
    case _ => []
  }

  function Diverging(d: Director, reported: int, around: Around): seq<Notice> {
    if d.governor.SyncFromTurns(around.turns).NoteInferenceDone(reported, around.turns, around.limits).rails.nonConverged
       && !d.governor.rails.nonConverged then [FoldNonConverged] else []
  }

  predicate Undelivered(route: Route) {
    route == DroppedApproval || route.Threw()
  }

  /** What a decision carries behind its settled actions. */
  function ToldBy(d: Director, event: Inbound, around: Around): seq<Notice> {
    if Undelivered(Decide(d, event, around).1.route) then [] else d.pending + Pushed(d, event, around)
  }

  /** What a coordinator takes along that throws at a turn boundary. */
  function DroppedBy(d: Director, event: Inbound, around: Around): seq<Notice> {
    if CoordinatorFails(d, event, around) then d.pending + Pushed(d, event, around) else []
  }

  predicate NotesCalls(event: Inbound, around: Around) {
    event.InferenceDone? && !around.workflow.activeBefore.Throws?
  }

  lemma NoteEventTells(d: Director, event: Inbound, around: Around)
    ensures var next := NoteEvent(d, event, around);
      && next.governor == d.governor
      && next.tasks == (if NotesCalls(event, around) then TasksAfter(d.tasks, event.turn.blocks) else d.tasks)
      && (NotesCalls(event, around) ==> next.pending == d.pending + TaskNotices(event.turn.blocks))
      && (!NotesCalls(event, around) ==> next.pending == d.pending + Pushed(d, event, around))
  {
    if event.InferenceDone? {
      NoteTurnKeeps(d, event.turn, around);
    }
  }

  lemma OwnTells(d: Director, event: Inbound, around: Around)
    ensures var (next, decision) := OwnPhase(d, event, around);
      && next.tasks == d.tasks
      && next.pending == d.pending + if event.InferenceDone? then Diverging(d, event.reportedTokens, around) else []
  {
    hide MeasuredPhase;
    var measured := MeasurePhase(d, event, around);
    MeasureKeeps(d, event, around);
    MeasuredPays(measured, event, around);
  }

  lemma InnerTells(d: Director, event: Inbound, around: Around)
    ensures var next := DecideInner(d, event, around).0;
      && next.pending == d.pending + Pushed(d, event, around)
      && next.tasks == if NotesCalls(event, around) then TasksAfter(d.tasks, event.turn.blocks) else d.tasks
  {
    hide OwnPhase, EarlyPhase, NoteEvent;
    EarlyPays(d, event, around);
    if event.InferenceDone? || event.ToolDone? {
      EarlyIsOut(d, event, around);
    }
    var (early, decision) := EarlyPhase(d, event, around);
    if decision.None? {
      NoteEventTells(early, event, around);
      OwnTells(NoteEvent(early, event, around), event, around);
    }
  }

  lemma FinishTells(d: Director, decision: Decision, event: Inbound, around: Around)
    requires decision.route != DroppedApproval
    ensures var (next, finished) := Finish(d, decision, event, around);
      && next.tasks == d.tasks && finished.route != DroppedApproval
      && next.pending == (if finished.route == BaseThrew then d.pending else [])
      && (!finished.route.Threw() ==> finished.actions == Settle(decision.actions) + Emits(d.pending))
  {
  }

  lemma InnerNeverDrops(d: Director, event: Inbound, around: Around)
    ensures DecideInner(d, event, around).1.route != DroppedApproval
  {
    EarlyPays(d, event, around);
    var (early, decision) := EarlyPhase(d, event, around);
    if decision.None? {
      OwnPays(NoteEvent(early, event, around), event, around);
    }
  }

  /** Every notice goes out with the decision it belongs to, in order, behind the
      settled actions. When the base director throws they wait for the next
      decision; when the coordinator throws at a turn boundary all are lost. */
  lemma DecideTells(d: Director, event: Inbound, around: Around)
    ensures var (next, decision) := Decide(d, event, around);
      && ToldBy(d, event, around) + DroppedBy(d, event, around) + next.pending == d.pending + Pushed(d, event, around)
      && next.tasks == (if NotesCalls(event, around) then TasksAfter(d.tasks, event.turn.blocks) else d.tasks)
      && (!Undelivered(decision.route) ==> exists settled ::
            decision.actions == Settle(settled) + Emits(ToldBy(d, event, around)))
  {
    if !(event.ResumedToolResult? && event.dropped) {
      InnerTells(d, event, around);
      InnerNeverDrops(d, event, around);
      CoordinatorFailsExactly(d, event, around);
      var (next, decision) := DecideInner(d, event, around);
      FinishTells(next, decision, event, around);
    }
  }
}
