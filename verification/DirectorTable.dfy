/** The chat director's decision as a table: by fields and answers, which way each
    event goes, and what each way sends. */
module DirectorTable {
  import opened Common
  import opened Reactor
  import C = Compaction
  import G = CompactionRuns
  import E = CompactionEffects
  import opened Tasks
  import opened Director
  import opened DirectorRuns
  import opened DirectorFlow
  import opened DirectorCycles

  // ------------------------------------------------------ which way it goes

  /** The window is full by the estimate of the turns alone. */
  predicate FullByEstimate(turns: C.Turns, limits: C.Limits) {
    turns.count > 1 && (turns.tokens >= limits.window || turns.tokens + limits.reserved >= limits.window)
  }

  /** Messages and errors that are answered before anything is noted. */
  function EarlyRoute(d: Director, event: Inbound, around: Around): Option<Route> {
    var g := d.governor;
    match event
    case Message(content, mail) =>
      if content == "" && g.debts.infer then
        Some(if !g.arms.manual && E.BelowCap(g) && FullByEstimate(around.turns, around.limits) then PreflightFold
             else InferResume)
      else if content == "" && g.debts.meter then Some(MeterResume)
      else if g.arms.idle && (g.arms.manual || E.BelowCap(g)) then Some(IdleFold)
      else if mail.Refresh? then
        Some(if mail.generation.Some? && mail.generation == d.refreshGeneration then RefreshArmed else RefreshStale)
      else if content == "" then Some(Unsolicited)
      else None
    case InferenceError(overflow, kind) =>
      if overflow && g.rails.overflowRecoveries < 2 then Some(OverflowFold)
      else if kind.TimedOut? then Some(TimeoutReply)
      else if kind.InternalAbort? then Some(if d.budgets.recoveries < 2 then Recovery else RecoveryExhausted)
      else None
    case _ => None
  }

  predicate Stalls(actions: seq<Action>) {
    exists i :: 0 <= i < |actions| && (actions[i].Reply? || actions[i].Wait?)
  }

  predicate Infers(actions: seq<Action>) {
    exists i :: 0 <= i < |actions| && actions[i].Infer?
  }

  predicate TasksOpen(tasks: seq<Task>) {
    exists i :: 0 <= i < |tasks| && (tasks[i].status.Todo? || tasks[i].status.Doing?)
  }

  /** The workflow is on a step, not at a gate, and the base actions would end a
      turn that had something to it. */
  predicate StepDue(d: Director, event: Inbound, base: seq<Action>, workflow: Workflow) {
    && workflow.active.Yes? && !workflow.atGate.Yes? && Stalls(base)
    && (d.lastTurnHadContent || (event.InferenceDone? && event.turn.IsMarkerEcho()))
  }

  /** The base actions would end a turn with tasks open and no gate to wait at. */
  predicate TasksDue(d: Director, base: seq<Action>, workflow: Workflow) {
    TasksOpen(d.tasks) && Stalls(base) && !(workflow.active.Yes? && workflow.atGateStill.Yes?)
  }

  /** The coordinator throws where that matters, at a turn boundary. */
  predicate AsksAndThrows(event: Inbound, asked: bool, answer: Answer) {
    event.InferenceDone? && asked && answer.Throws?
  }

  /** What becomes of an unfinished workflow step. */
  function StepRoute(d: Director, event: Inbound, base: seq<Action>, workflow: Workflow): Option<Route> {
    if AsksAndThrows(event, true, workflow.active) || AsksAndThrows(event, workflow.active.Yes?, workflow.atGate) then
      Some(CoordinatorThrew)
    else if !StepDue(d, event, base, workflow) then None
    else if d.operatorResponded then Some(OperatorAnswered)
    else if d.liveHelpers > 0 then None
    else if d.budgets.workflowIdle >= 3 then Some(WorkflowStuck)
    else if event.InferenceDone? && workflow.stepIdThrows then Some(CoordinatorThrew)
    else Some(StepNudge)
  }

  /** What becomes of open tasks. */
  function TaskRoute(d: Director, event: Inbound, base: seq<Action>, workflow: Workflow): Route {
    if AsksAndThrows(event, workflow.active.Yes?, workflow.atGateStill) then CoordinatorThrew
    else if !TasksDue(d, base, workflow) then BaseDecision
    else if d.allowIdleWithFleet then FleetIdle
    else if d.budgets.openTask < 3 then OpenTaskNudge
    else BaseDecision
  }

  function NudgeRoute(d: Director, event: Inbound, base: seq<Action>, workflow: Workflow): Route {
    if d.budgets.toolOnlyPending && Infers(base) then CheckInNudge
    else if StepRoute(d, event, base, workflow).Some? then StepRoute(d, event, base, workflow).value
    else TaskRoute(d, event, base, workflow)
  }

  /** Once the base director has spoken. */
  function BaseRoute(d: Director, event: Inbound, base: seq<Action>, around: Around): Route {
    if E.FoldOf(d.governor, G.Intercept(Seen(event), base, around.limits)).Some? then PausedFold
    else if E.ArmsIdleTurn(d.governor, G.IdleTurn(Seen(event), base)) && !d.governor.hostClosure then IdleArmed
    else NudgeRoute(d, event, base, around.workflow)
  }

  /** From a noted event on; `d` has noted it. */
  function NotedRoute(d: Director, event: Inbound, around: Around): Route {
    if event.ToolDone? && event.plainRejection then
      if TasksOpen(d.tasks) && d.budgets.declined < 2 then DeclinedNudge else DeclinedReply
    else if event.InferenceDone? && event.turn.IsMarkerEcho() && d.budgets.markerEcho < 2 then EchoNudge
    else if around.base.None? then BaseThrew
    else BaseRoute(MeasurePhase(d, event, around), event, Shown(event, around.base.value), around)
  }

  /** An idle fold that finds the cap reached is no longer waited for. */
  function PassedOn(d: Director, event: Inbound): Director {
    if event.Message? && d.governor.arms.idle && !d.governor.arms.manual && !E.BelowCap(d.governor) then
      d.(governor := d.governor.(arms := d.governor.arms.(idle := false)))
    else d
  }

  function InnerRoute(d: Director, event: Inbound, around: Around): Route {
    if EarlyRoute(d, event, around).Some? then EarlyRoute(d, event, around).value
    else if AsksAndThrows(event, true, around.workflow.activeBefore) then CoordinatorThrew
    else NotedRoute(NoteEvent(PassedOn(d, event), event, around), event, around)
  }

  function RouteOf(d: Director, event: Inbound, around: Around): Route {
    if event.ResumedToolResult? && event.dropped then DroppedApproval
    else if event.InferenceDone? && around.workflow.directiveThrows && InnerRoute(d, event, around) != BaseThrew then
      CoordinatorThrew
    else InnerRoute(d, event, around)
  }

  // ---------------------------------------------------- what each way sends

  function Reentry(g: C.Governor): seq<Action> {
    if g.hostClosure then [] else [ContinueAfterCompact]
  }

  /** For the operator when an operator fold is armed. */
  function FoldReason(g: C.Governor): Reason {
    if g.arms.manual then Operator else Threshold
  }

  /** The actions that end no turn, in their order, and then a nudge. */
  ghost predicate NudgesOver(base: seq<Action>, nudge: Nudge, actions: seq<Action>) {
    exists kept :: Picks(base, kept, (a: Action) => !a.Reply? && !a.Wait?) && actions == kept + [Infer(nudge)]
  }

  /** The actions that do not infer, in their order, and then a fold. */
  ghost predicate FoldsOver(base: seq<Action>, g: C.Governor, actions: seq<Action>) {
    exists kept :: Picks(base, kept, (a: Action) => !a.Infer?)
                   && actions == kept + [Compact(FoldReason(g))] + Reentry(g)
  }

  /** The first inference carries the check-in, all else is as it was. */
  predicate ChecksIn(base: seq<Action>, actions: seq<Action>) {
    exists k :: 0 <= k < |base| && base[k].Infer? && !Infers(base[..k]) && actions == base[k := Infer(CheckIn)]
  }

  /** What a decision that goes one way sends, short of notices. */
  ghost predicate Sends(route: Route, g: C.Governor, event: Inbound, base: Option<seq<Action>>, actions: seq<Action>) {
    match route
    case DroppedApproval => actions == [Checkpoint, Emit(ApprovalSettled), Wait]
    case MeterResume => actions == [Wait]
    case RefreshStale => actions == [Wait]
    case Unsolicited => actions == [Wait]
    case InferResume => actions == [Infer(NoNudge)]
    case RefreshArmed => actions == [Infer(NoNudge)]
    case PreflightFold => actions == [Compact(Threshold)] + Reentry(g)
    case IdleFold => actions == [Compact(FoldReason(g))] + Reentry(g)
    case OverflowFold => actions == [Compact(Overflow)] + Reentry(g)
    case Recovery => actions == [Checkpoint, Infer(NoNudge)]
    case RecoveryExhausted => actions == [Checkpoint, Reply("The request could not recover.", false)]
    case TimeoutReply => actions == [Checkpoint, Reply("The request timed out.", false)]
    case DeclinedNudge => actions == [Checkpoint, Infer(DeclinedCall)]
    case DeclinedReply => actions == [Checkpoint, Reply("Tool call rejected by operator.", false)]
    case EchoNudge => actions == [Infer(MarkerEcho)]
    case BaseThrew => actions == []
    case CoordinatorThrew => actions == []
    case FleetIdle => Some(actions) == base
    case _ => base.Some? && SendsOver(route, g, Shown(event, base.value), actions)
  }

  /** Over what the base director decided. */
  ghost predicate SendsOver(route: Route, g: C.Governor, base: seq<Action>, actions: seq<Action>) {
    match route
    case PausedFold => FoldsOver(base, g, actions)
    case IdleArmed => actions == base + [ContinueAfterCompact]
    case CheckInNudge => ChecksIn(base, actions)
    case WorkflowStuck => actions == [Reply("The workflow appears stuck on this step.", false)]
    case StepNudge => NudgesOver(base, WorkflowStep, actions)
    case OpenTaskNudge => NudgesOver(base, OpenTasks, actions)
    case _ => actions == base
  }

  // ------------------------------------------------------------ the theorem

  lemma MessageEarlyTable(d: Director, event: Inbound, around: Around)
    requires event.Message?
    ensures var (early, decision) := EarlyPhase(d, event, around);
      && (if decision.Some? then Some(decision.value.route) else None) == EarlyRoute(d, event, around)
      && (decision.Some? ==> Sends(decision.value.route, d.governor, event, None, decision.value.actions))
      && (decision.None? ==> early == PassedOn(d, event))
  {
  }

  lemma OtherEarlyTable(d: Director, event: Inbound, around: Around)
    requires !event.Message?
    ensures var (early, decision) := EarlyPhase(d, event, around);
      && (if decision.Some? then Some(decision.value.route) else None) == EarlyRoute(d, event, around)
      && (decision.Some? ==> Sends(decision.value.route, d.governor, event, None, decision.value.actions))
      && (decision.None? ==> early == PassedOn(d, event))
  {
  }

  lemma InterceptTable(g: C.Governor, event: Inbound, base: seq<Action>, limits: C.Limits)
    ensures var fold := g.InterceptActions(Seen(event), base, limits).1;
      && (fold.Some? <==> E.FoldOf(g, G.Intercept(Seen(event), base, limits)).Some?)
      && (fold.Some? ==> FoldsOver(base, g, g.FoldActions(fold.value)))
  {
    hide WithoutInfer, Picks;
    FiltersKeepTheRest(base);
    var fold := g.InterceptActions(Seen(event), base, limits).1;
    if fold.Some? {
      assert fold.value == C.Fold(WithoutInfer(base), FoldReason(g));
      assert g.FoldActions(fold.value) == WithoutInfer(base) + [Compact(FoldReason(g))] + Reentry(g);
    }
  }

  /** Idle arming and folding keep to different events. */
  lemma IdleTable(g: C.Governor, event: Inbound, base: seq<Action>, limits: C.Limits)
    ensures var (idled, armed) := g.NoteIdleTurn(Seen(event), base);
      && (armed <==> E.ArmsIdleTurn(g, G.IdleTurn(Seen(event), base)) && !g.hostClosure)
      && (if event.InferenceDone? then idled.InterceptActions(Seen(event), base, limits).1.None?
                                       && E.FoldOf(g, G.Intercept(Seen(event), base, limits)).None?
          else idled == g && !armed)
  {
  }

  lemma FoldBaseTable(g: C.Governor, event: Inbound, base: seq<Action>, around: Around)
    ensures var (next, decision) := FoldBase(g, event, base, around);
      var folds := E.FoldOf(g, G.Intercept(Seen(event), base, around.limits)).Some?;
      var arms := E.ArmsIdleTurn(g, G.IdleTurn(Seen(event), base));
      && (if decision.Some? then Some(decision.value.route) else None)
         == (if folds then Some(PausedFold) else if arms && !g.hostClosure then Some(IdleArmed) else None)
      && (decision.Some? ==> SendsOver(decision.value.route, g, base, decision.value.actions))
  {
    hide E.FoldOf, E.ArmsIdleTurn, FoldsOver, C.Governor.Intercepts, C.Governor.ArmsIdle;
    IdleTable(g, event, base, around.limits);
    InterceptTable(g, event, base, around.limits);
  }

  lemma {:induction false} FirstInferChecksIn(actions: seq<Action>)
    requires Infers(actions)
    ensures ChecksIn(actions, NudgeFirstInfer(actions))
  {
    if actions[0].Infer? {
      assert actions[0 := Infer(CheckIn)] == [Infer(CheckIn)] + actions[1..];
      assert !Infers(actions[..0]);
    } else {
      var i :| 0 <= i < |actions| && actions[i].Infer?;
      assert actions[1..][i - 1].Infer?;
      FirstInferChecksIn(actions[1..]);
      var k :| 0 <= k < |actions[1..]| && actions[1..][k].Infer? && !Infers(actions[1..][..k])
               && NudgeFirstInfer(actions[1..]) == actions[1..][k := Infer(CheckIn)];
      LaterInfer(actions, k);
    }
  }

  lemma LaterInfer(actions: seq<Action>, k: nat)
    requires actions != [] && !actions[0].Infer? && k < |actions[1..]|
    requires actions[1..][k].Infer? && !Infers(actions[1..][..k])
    ensures ChecksIn(actions, [actions[0]] + actions[1..][k := Infer(CheckIn)])
  {
    assert actions[k + 1].Infer?;
    var front := actions[..k + 1];
    forall i | 0 <= i < |front|
      ensures !front[i].Infer?
    {
      assert i > 0 ==> front[i] == actions[1..][..k][i - 1];
    }
    assert actions[k + 1 := Infer(CheckIn)] == [actions[0]] + actions[1..][k := Infer(CheckIn)];
  }

  lemma NudgesAfter(base: seq<Action>)
    ensures NudgesOver(base, WorkflowStep, WithoutTerminal(base) + [Infer(WorkflowStep)])
    ensures NudgesOver(base, OpenTasks, WithoutTerminal(base) + [Infer(OpenTasks)])
  {
    FiltersKeepTheRest(base);
  }

  /** What the nudges send over the base actions; a fleet that idles has them as
      they came. */
  ghost predicate SendsNudge(decision: Decision, raw: seq<Action>, base: seq<Action>) {
    match decision.route
    case FleetIdle => decision.actions == raw
    case CoordinatorThrew => decision.actions == []
    case _ => decision.route.FollowsBase() && forall g :: SendsOver(decision.route, g, base, decision.actions)
  }

  lemma StepTable(d: Director, event: Inbound, raw: seq<Action>, base: seq<Action>, workflow: Workflow)
    ensures var (stepped, decision) := StepPhase(d, event, base, workflow);
      && (if decision.Some? then Some(decision.value.route) else None) == StepRoute(d, event, base, workflow)
      && (decision.Some? ==> SendsNudge(decision.value, raw, base))
      && (decision.None? ==> stepped == d)
  {
    hide WithoutTerminal, NudgesOver;
    NudgesAfter(base);
  }

  lemma TaskTable(d: Director, event: Inbound, raw: seq<Action>, base: seq<Action>, workflow: Workflow)
    ensures var decision := OpenTaskPhase(d, event, raw, base, workflow).1;
      decision.route == TaskRoute(d, event, base, workflow) && SendsNudge(decision, raw, base)
  {
    hide WithoutTerminal, NudgesOver;
    NudgesAfter(base);
  }

  lemma CheckInTable(d: Director, event: Inbound, raw: seq<Action>, base: seq<Action>, around: Around)
    requires d.budgets.toolOnlyPending && Infers(base)
    ensures var decision := NudgePhase(d, event, raw, base, around).1;
      decision.route == CheckInNudge && SendsNudge(decision, raw, base)
  {
    hide NudgeFirstInfer, ChecksIn;
    assert HasInfer(base);
    FirstInferChecksIn(base);
  }

  lemma NoCheckInTable(d: Director, event: Inbound, raw: seq<Action>, base: seq<Action>, around: Around)
    requires !(d.budgets.toolOnlyPending && Infers(base))
    ensures var decision := NudgePhase(d, event, raw, base, around).1;
      var stepped := StepRoute(d, event, base, around.workflow);
      && decision.route == (if stepped.Some? then stepped.value else TaskRoute(d, event, base, around.workflow))
      && SendsNudge(decision, raw, base)
  {
    hide OpenTaskPhase, StepRoute, TaskRoute, SendsNudge, WithoutTerminal;
    assert HasInfer(base) ==> Infers(base);
    StepTable(d, event, raw, base, around.workflow);
    TaskTable(d, event, raw, base, around.workflow);
  }

  lemma NudgeTable(d: Director, event: Inbound, raw: seq<Action>, base: seq<Action>, around: Around)
    ensures var decision := NudgePhase(d, event, raw, base, around).1;
      decision.route == NudgeRoute(d, event, base, around.workflow) && SendsNudge(decision, raw, base)
  {
    hide NudgePhase, StepRoute, TaskRoute, SendsNudge, Infers;
    if d.budgets.toolOnlyPending && Infers(base) {
      CheckInTable(d, event, raw, base, around);
    } else {
      NoCheckInTable(d, event, raw, base, around);
    }
  }

  lemma BaseTable(d: Director, event: Inbound, around: Around)
    requires around.base.Some?
    ensures var decision := BasePhase(d, event, around).1;
      && decision.route == BaseRoute(d, event, Shown(event, around.base.value), around)
      && Sends(decision.route, d.governor, event, around.base, decision.actions)
  {
    hide FoldBase, NudgePhase, NudgeRoute;
    var raw := around.base.value;
    var base := Shown(event, raw);
    FoldBaseTable(d.governor, event, base, around);
    NudgeTable(d.(governor := FoldBase(d.governor, event, base, around).0), event, raw, base, around);
    FoldLeavesTheRest(d, FoldBase(d.governor, event, base, around).0, event, base, around.workflow);
  }

  /** The nudges look at nothing a fold changes. */
  lemma FoldLeavesTheRest(d: Director, governor: C.Governor, event: Inbound, base: seq<Action>, workflow: Workflow)
    ensures NudgeRoute(d.(governor := governor), event, base, workflow) == NudgeRoute(d, event, base, workflow)
  {
    hide Stalls, Infers, TasksOpen;
  }

  lemma DeclinedTable(d: Director, event: Inbound, around: Around)
    requires event.ToolDone? && event.plainRejection
    ensures var decision := OwnPhase(d, event, around).1;
      && decision.route == NotedRoute(d, event, around)
      && forall g :: Sends(decision.route, g, event, around.base, decision.actions)
  {
    hide MeasuredPhase, BaseRoute;
    assert HasActiveTasks(d.tasks) <==> TasksOpen(d.tasks);
  }

  lemma MeasuredTable(d: Director, m: Director, event: Inbound, around: Around)
    requires !(event.ToolDone? && event.plainRejection) && m == MeasurePhase(d, event, around)
    ensures var decision := MeasuredPhase(m, event, around).1;
      decision.route == NotedRoute(d, event, around) && Sends(decision.route, m.governor, event, around.base, decision.actions)
  {
    hide AfterFold, BaseRoute, MeasurePhase;
    MeasureKeeps(d, event, around);
    if around.base.Some? {
      BaseTable(m, event, around);
    }
  }

  lemma NotedTable(d: Director, event: Inbound, around: Around)
    ensures var decision := OwnPhase(d, event, around).1;
      && decision.route == NotedRoute(d, event, around)
      && Sends(decision.route, MeasurePhase(d, event, around).governor, event, around.base, decision.actions)
  {
    hide MeasuredPhase, MeasurePhase, NotedRoute, Sends;
    if event.ToolDone? && event.plainRejection {
      DeclinedTable(d, event, around);
    } else {
      MeasuredTable(d, MeasurePhase(d, event, around), event, around);
    }
  }

  /** What is sent depends on the governor by whom a fold serves and who re-enters. */
  lemma SendsBySide(route: Route, g: C.Governor, h: C.Governor, event: Inbound, base: Option<seq<Action>>, actions: seq<Action>)
    requires Sends(route, g, event, base, actions)
    requires g.hostClosure == h.hostClosure && g.arms.manual == h.arms.manual
    ensures Sends(route, h, event, base, actions)
  {
    if route == PausedFold {
      assert FoldReason(g) == FoldReason(h) && Reentry(g) == Reentry(h);
      assert FoldsOver(Shown(event, base.value), h, actions);
    }
  }

  lemma MeasureKeepsSide(d: Director, event: Inbound, around: Around)
    ensures var g := MeasurePhase(d, event, around).governor;
            g.hostClosure == d.governor.hostClosure && g.arms.manual == d.governor.arms.manual
  {
  }

  lemma EarlyTable(d: Director, event: Inbound, around: Around)
    ensures var (early, decision) := EarlyPhase(d, event, around);
      && (if decision.Some? then Some(decision.value.route) else None) == EarlyRoute(d, event, around)
      && (decision.Some? ==> Sends(decision.value.route, d.governor, event, around.base, decision.value.actions))
      && (decision.None? ==> early == PassedOn(d, event))
  {
    if event.Message? {
      MessageEarlyTable(d, event, around);
    } else {
      OtherEarlyTable(d, event, around);
    }
  }

  lemma InnerTable(d: Director, event: Inbound, around: Around)
    ensures var decision := DecideInner(d, event, around).1;
      && decision.route == InnerRoute(d, event, around)
      && Sends(decision.route, d.governor, event, around.base, decision.actions)
  {
    hide OwnPhase, EarlyPhase, NoteEvent, EarlyRoute, NotedRoute, Sends;
    EarlyTable(d, event, around);
    var (early, decision) := EarlyPhase(d, event, around);
    if decision.None? && !NotingThrows(event, around) {
      LaterTable(d, early, event, around);
    }
    RethrowSends(d.governor, event, around.base);
  }

  lemma RethrowSends(g: C.Governor, event: Inbound, base: Option<seq<Action>>)
    ensures Sends(CoordinatorThrew, g, event, base, Rethrow.actions)
  {
  }

  lemma LaterTable(d: Director, early: Director, event: Inbound, around: Around)
    requires early == PassedOn(d, event)
    ensures var decision := OwnPhase(NoteEvent(early, event, around), event, around).1;
      && decision.route == NotedRoute(NoteEvent(early, event, around), event, around)
      && Sends(decision.route, d.governor, event, around.base, decision.actions)
  {
    hide OwnPhase, NoteEvent, NotedRoute, Sends, MeasurePhase;
    var noted := NoteEvent(early, event, around);
    NotedTable(noted, event, around);
    NoteEventTells(early, event, around);
    MeasureKeepsSide(noted, event, around);
    var decision := OwnPhase(noted, event, around).1;
    SendsBySide(decision.route, MeasurePhase(noted, event, around).governor, d.governor, event, around.base, decision.actions);
  }

  /** Every decision of the director goes the way the table says and sends what it
      says for that way: the settled actions with the notices behind them, the
      bare settling of a dropped approval, or nothing where it throws. */
  lemma DecisionTable(d: Director, event: Inbound, around: Around)
    ensures var decision := Decide(d, event, around).1;
      && decision.route == RouteOf(d, event, around)
      && if Undelivered(decision.route) then Sends(decision.route, d.governor, event, around.base, decision.actions)
         else exists actions ::
           && Sends(decision.route, d.governor, event, around.base, actions)
           && decision.actions == Settle(actions) + Emits(d.pending + Pushed(d, event, around))
  {
    hide DecideInner, InnerRoute, Settle;
    if !(event.ResumedToolResult? && event.dropped) {
      InnerTable(d, event, around);
      InnerTells(d, event, around);
      InnerNeverDrops(d, event, around);
      var (next, decision) := DecideInner(d, event, around);
      assert next.pending == d.pending + Pushed(d, event, around);
    }
  }

  /** The notices go out one by one, in their order; and a turn that only echoes
      the marker has its replies withheld, each where it stood. */
  lemma NoticesAndReplies(notices: seq<Notice>, event: Inbound, base: seq<Action>)
    ensures |Emits(notices)| == |notices| && forall i :: 0 <= i < |notices| ==> Emits(notices)[i] == Emit(notices[i])
    ensures |Shown(event, base)| == |base|
    ensures forall i :: 0 <= i < |base| ==>
              Shown(event, base)[i]
              == if event.InferenceDone? && event.turn.IsMarkerEcho() && base[i].Reply? then Wait else base[i]
  {
    WithheldReplies(base);
  }

  lemma {:induction false} WithheldReplies(actions: seq<Action>)
    ensures |RepliesWait(actions)| == |actions|
    ensures forall i :: 0 <= i < |actions| ==> RepliesWait(actions)[i] == if actions[i].Reply? then Wait else actions[i]
  {
    if actions != [] {
      WithheldReplies(actions[1..]);
    }
  }
}
