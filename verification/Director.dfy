/** The chat director: what the reactor does next after each inbound event. The
    base director it falls back on, the workflow coordinator and the context
    tables answer as they like. */
module Director {
  import opened Common
  import opened Reactor
  import C = Compaction
  import opened Tasks

  const MAX_OPEN_TASK_NUDGES: nat := 3
  const MAX_DECLINED_OPEN_TASK_NUDGES: nat := 2
  const MAX_INFERENCE_RECOVERIES: nat := 2
  const MAX_MARKER_ECHO_NUDGES: nat := 2
  const MAX_WORKFLOW_IDLE_TURNS: nat := 3

  // ------------------------------------------------------------- the world

  datatype Tool =
    | ManageTasks(args: Option<ManageArgs>)
    | FileTool(isCode: bool)
    | SubmitOutput
    | AskOperator
    | OtherTool

  datatype Block = TextBlock(isEmpty: bool) | ToolCall(id: string, tool: Tool) | OtherBlock

  /** `isMarker` says that the joined text is nothing but a fold's marker. */
  datatype Turn = Turn(blocks: seq<Block>, isMarker: bool)
  {
    predicate HasToolCalls() {
      exists i :: 0 <= i < |blocks| && blocks[i].ToolCall?
    }

    predicate IsMarkerEcho() {
      !HasToolCalls() && isMarker
    }

    predicate HasText() {
      (exists i :: 0 <= i < |blocks| && blocks[i].TextBlock? && !blocks[i].isEmpty) && !IsMarkerEcho()
    }
  }

  /** A credential refresh names a generation, unless its header is no number. */
  datatype Mail = Ordinary | Refresh(generation: Option<int>)

  datatype ErrorKind = InternalAbort | TimedOut | OtherError

  datatype Inbound =
    | Message(content: string, mail: Mail)
    | InferenceDone(turn: Turn, reportedTokens: int)
    | InferenceError(overflow: bool, kind: ErrorKind)
    | ToolDone(callId: string, isError: bool, plainRejection: bool)
    | ResumedToolResult(dropped: bool)
    | OtherInbound

  /** The event as the compaction governor looks at it. */
  function Seen(event: Inbound): C.Event {
    match event
    case Message(content, _) => C.Message(content)
    case InferenceDone(turn, reported) => C.InferenceDone(reported, turn.IsMarkerEcho())
    case InferenceError(overflow, _) => C.InferenceError(overflow)
    case ToolDone(_, _, _) => C.ToolDone
    case _ => C.OtherEvent
  }

  /** How the workflow coordinator takes a question. */
  datatype Answer = Yes | No | Throws

  /** What the coordinator makes of the questions of one decision, in the order
      they come: whether it is active while the turn is noted; whether a tool
      result advanced it; whether it is active and at a gate when a step nudge is
      considered; which step it is on; whether it is at a gate when an open-task
      nudge is considered; and its directive for the inference on the way out. */
  datatype Workflow = Workflow(
    activeBefore: Answer,
    advanced: bool,
    active: Answer,
    atGate: Answer,
    stepIdThrows: bool,
    atGateStill: Answer,
    directiveThrows: bool)

  /** What the director finds around it in one decision. `base` is what the base
      director would do, None when it throws. */
  datatype Around = Around(
    turns: C.Turns,
    limits: C.Limits,
    base: Option<seq<Action>>,
    workflow: Workflow)

  /** A coordinator that throws fails a decision at a turn boundary only;
      elsewhere its answer counts as No. */
  predicate Rethrown(answer: Answer, event: Inbound) {
    answer.Throws? && event.InferenceDone?
  }

  // ------------------------------------------------------------- the state

  datatype Budgets = Budgets(
    openTask: nat,
    declined: nat,
    recoveries: nat,
    markerEcho: nat,
    workflowIdle: nat,
    toolOnlyStreak: nat,
    toolOnlyFired: bool,
    toolOnlyPending: bool)

  predicate BudgetInv(b: Budgets) {
    && b.openTask <= MAX_OPEN_TASK_NUDGES
    && b.declined <= MAX_DECLINED_OPEN_TASK_NUDGES
    && b.recoveries <= MAX_INFERENCE_RECOVERIES
    && b.markerEcho <= MAX_MARKER_ECHO_NUDGES
  }

  const FreshBudgets: Budgets := Budgets(0, 0, 0, 0, 0, 0, false, false)

  /** Tool calls whose results mean something to the director. */
  datatype Calls = Calls(workflow: set<string>, ask: set<string>, lsp: set<string>)

  datatype Director = Director(
    governor: C.Governor,
    budgets: Budgets,
    calls: Calls,
    tasks: seq<Task>,
    pending: seq<Notice>,
    lastTurnHadContent: bool,
    operatorResponded: bool,
    allowIdleWithFleet: bool,
    liveHelpers: nat,
    refreshGeneration: Option<int>,
    nudgeAt: nat)

  function FreshDirector(overheadTokens: nat, allowIdleWithFleet: bool, nudgeAt: nat): Director {
    Director(C.FreshGovernor(false, overheadTokens), FreshBudgets, Calls({}, {}, {}), [], [],
             false, false, allowIdleWithFleet, 0, None, nudgeAt)
  }

  /** Which way a decision went. */
  datatype Route =
    | DroppedApproval
    | MeterResume | InferResume | PreflightFold | IdleFold | OverflowFold
    | RefreshArmed | RefreshStale | Unsolicited
    | Recovery | RecoveryExhausted | TimeoutReply
    | DeclinedNudge | DeclinedReply
    | EchoNudge
    | BaseThrew | CoordinatorThrew
    | PausedFold | IdleArmed
    | CheckInNudge
    | OperatorAnswered | WorkflowStuck | StepNudge
    | FleetIdle | OpenTaskNudge
    | BaseDecision
  {
    predicate IsFold() {
      PreflightFold? || IdleFold? || OverflowFold? || PausedFold?
    }

    /** The answer to a re-entry, or the fold on one. */
    predicate IsReentry() {
      MeterResume? || InferResume? || PreflightFold? || IdleFold?
    }

    /** The exceptions a decision lets out. */
    predicate Threw() {
      BaseThrew? || CoordinatorThrew?
    }

    /** After the base director has spoken. */
    predicate FollowsBase() {
      || CheckInNudge? || OperatorAnswered? || WorkflowStuck? || StepNudge?
      || FleetIdle? || OpenTaskNudge? || BaseDecision?
    }
  }

  datatype Decision = Decision(route: Route, actions: seq<Action>)

  // --------------------------------------------- before anything is noted

  function FoldDecision(route: Route, governor: C.Governor, fold: C.Fold): Decision {
    Decision(route, governor.FoldActions(fold))
  }

  /** The answer to a re-entry after a fold. */
  function Resume(governor: C.Governor, kind: C.ResumeKind, around: Around): (C.Governor, Decision) {
    var shrunk := governor.NotePostCompact(around.turns);
    if kind == C.ResumeMeter then (shrunk, Decision(MeterResume, [Wait]))
    else
      var (checked, fold) := shrunk.PreflightInfer(around.limits);
      if fold.Some? then (checked, FoldDecision(PreflightFold, shrunk, fold.value))
      else (checked, Decision(InferResume, [Infer(NoNudge)]))
  }

  /** What compaction does with the event before anyone else sees it. */
  function FoldPhase(governor: C.Governor, event: Inbound, around: Around): (C.Governor, Option<Decision>) {
    var (resumed, kind) := governor.ResumeAfterCompact(Seen(event));
    if kind.Some? then
      var (answered, decision) := Resume(resumed, kind.value, around);
      (answered, Some(decision))
    else
      var (idled, idleFold) := governor.InterceptIdleContinuation(Seen(event));
      if idleFold.Some? then (idled, Some(FoldDecision(IdleFold, governor, idleFold.value)))
      else
        var (recovered, overflowFold) := idled.InterceptOverflow(Seen(event));
        if overflowFold.Some? then (recovered, Some(FoldDecision(OverflowFold, idled, overflowFold.value)))
        else (recovered, None)
  }

  /** Credential refreshes, and empty messages nobody owes an answer for. */
  function MailPhase(d: Director, event: Inbound): (Director, Option<Decision>) {
    if !event.Message? then (d, None)
    else if event.mail.Refresh? then
      if event.mail.generation.Some? && event.mail.generation == d.refreshGeneration then
        (d.(refreshGeneration := None), Some(Decision(RefreshArmed, [Infer(NoNudge)])))
      else (d, Some(Decision(RefreshStale, [Wait])))
    else if event.content == "" && !d.governor.debts.Outstanding() then (d, Some(Decision(Unsolicited, [Wait])))
    else (d, None)
  }

  function ErrorPhase(budgets: Budgets, event: Inbound): (Budgets, Option<Decision>) {
    if !event.InferenceError? || event.kind == OtherError then (budgets, None)
    else if event.kind == TimedOut then
      (budgets, Some(Decision(TimeoutReply, [Checkpoint, Reply("The request timed out.", false)])))
    else if budgets.recoveries < MAX_INFERENCE_RECOVERIES then
      (budgets.(recoveries := budgets.recoveries + 1), Some(Decision(Recovery, [Checkpoint, Infer(NoNudge)])))
    else (budgets, Some(Decision(RecoveryExhausted, [Checkpoint, Reply("The request could not recover.", false)])))
  }

  // --------------------------------------------------- noting the event

  /** One more turn without text lengthens the streak; any text ends it. */
  function NoteStreak(b: Budgets, toolOnly: bool, nudgeAt: nat): Budgets {
    var streak := if toolOnly then b.toolOnlyStreak + 1 else 0;
    var fired := toolOnly && b.toolOnlyFired;
    if streak == nudgeAt && !fired then
      b.(toolOnlyStreak := streak, toolOnlyFired := true, toolOnlyPending := true)
    else b.(toolOnlyStreak := streak, toolOnlyFired := fired, toolOnlyPending := toolOnly && b.toolOnlyPending)
  }

  function NoteWorkflowIdle(b: Budgets, turn: Turn, active: bool): Budgets {
    if !active then b
    else if turn.HasToolCalls() then b.(workflowIdle := 0)
    else if turn.IsMarkerEcho() && b.markerEcho < MAX_MARKER_ECHO_NUDGES then b
    else b.(workflowIdle := b.workflowIdle + 1)
  }

  function NoteBlock(d: Director, block: Block): Director {
    if !block.ToolCall? then d
    else
      match block.tool
      case ManageTasks(Some(args)) => d.(tasks := Apply(d.tasks, args), pending := d.pending + [TasksChanged])
      case FileTool(true) => d.(calls := d.calls.(lsp := d.calls.lsp + {block.id}))
      case SubmitOutput => d.(calls := d.calls.(workflow := d.calls.workflow + {block.id}))
      case AskOperator => d.(calls := d.calls.(ask := d.calls.ask + {block.id}))
      case _ => d
  }

  function NoteBlocks(d: Director, blocks: seq<Block>): Director {
    if blocks == [] then d else NoteBlock(NoteBlocks(d, blocks[..|blocks| - 1]), blocks[|blocks| - 1])
  }

  function NoteTurnBudgets(b: Budgets, turn: Turn, nudgeAt: nat, active: bool): Budgets {
    NoteWorkflowIdle(NoteStreak(b.(recoveries := 0), turn.HasToolCalls() && !turn.HasText(), nudgeAt), turn, active)
  }

  /** What a turn means before its tool calls are looked at. */
  function NoteContent(d: Director, turn: Turn, around: Around): Director {
    d.(budgets := NoteTurnBudgets(d.budgets, turn, d.nudgeAt, around.workflow.activeBefore.Yes?),
       lastTurnHadContent := turn.HasToolCalls() || turn.HasText())
  }

  /** A coordinator that throws here keeps the tool calls from being noted. */
  function NoteTurn(d: Director, turn: Turn, around: Around): Director {
    if around.workflow.activeBefore.Throws? then NoteContent(d, turn, around)
    else NoteBlocks(NoteContent(d, turn, around), turn.blocks)
  }

  function NoteToolDone(d: Director, callId: string, isError: bool, around: Around): Director {
    d.(calls := Calls(d.calls.workflow - {callId}, d.calls.ask - {callId}, d.calls.lsp - {callId}),
       budgets := if callId in d.calls.workflow && around.workflow.advanced then d.budgets.(workflowIdle := 0) else d.budgets,
       operatorResponded := d.operatorResponded || (callId in d.calls.ask && !isError),
       pending := if callId in d.calls.lsp && !isError then d.pending + [ToolsActivated] else d.pending)
  }

  /** Nudge budgets come back only with a message, never with tool work. */
  function NoteEvent(d: Director, event: Inbound, around: Around): Director {
    match event
    case Message(_, _) => d.(budgets := FreshBudgets)
    case InferenceDone(turn, _) => NoteTurn(d, turn, around)
    case ToolDone(callId, isError, _) => NoteToolDone(d, callId, isError, around)
    case _ => d
  }

  predicate NotingThrows(event: Inbound, around: Around) {
    Rethrown(around.workflow.activeBefore, event)
  }

  // ------------------------------------------------ decisions of its own

  function DeclinedPhase(b: Budgets, tasks: seq<Task>, event: Inbound): (Budgets, Option<Decision>) {
    if !event.ToolDone? || !event.plainRejection then (b, None)
    else if HasActiveTasks(tasks) && b.declined < MAX_DECLINED_OPEN_TASK_NUDGES then
      (b.(declined := b.declined + 1), Some(Decision(DeclinedNudge, [Checkpoint, Infer(DeclinedCall)])))
    else (b, Some(Decision(DeclinedReply, [Checkpoint, Reply("Tool call rejected by operator.", false)])))
  }

  /** The estimate follows every event; a finished inference measures. */
  function MeasurePhase(d: Director, event: Inbound, around: Around): Director {
    var synced := d.governor.SyncFromTurns(around.turns);
    if !event.InferenceDone? then d.(governor := synced)
    else
      var measured := synced.NoteInferenceDone(event.reportedTokens, around.turns, around.limits);
      if measured.rails.nonConverged && !d.governor.rails.nonConverged then
        d.(governor := measured, pending := d.pending + [FoldNonConverged])
      else d.(governor := measured)
  }

  predicate EndsInMarkerEcho(event: Inbound) {
    event.InferenceDone? && event.turn.IsMarkerEcho()
  }

  function RepliesWait(actions: seq<Action>): seq<Action> {
    if actions == [] then []
    else [if actions[0].Reply? then Wait else actions[0]] + RepliesWait(actions[1..])
  }

  // --------------------------------------------- around the base director

  /** The fold or the idle arming the base decision gives room for. */
  function FoldBase(governor: C.Governor, event: Inbound, base: seq<Action>, around: Around): (C.Governor, Option<Decision>) {
    var (idled, armed) := governor.NoteIdleTurn(Seen(event), base);
    var (folded, fold) := idled.InterceptActions(Seen(event), base, around.limits);
    if fold.Some? then (folded, Some(FoldDecision(PausedFold, idled, fold.value)))
    else if armed then (folded, Some(Decision(IdleArmed, base + [ContinueAfterCompact])))
    else (folded, None)
  }

  function NudgeFirstInfer(actions: seq<Action>): seq<Action> {
    if actions == [] then []
    else if actions[0].Infer? then [Infer(CheckIn)] + actions[1..]
    else [actions[0]] + NudgeFirstInfer(actions[1..])
  }

  const StuckReply: Action := Reply("The workflow appears stuck on this step.", false)

  const Rethrow: Decision := Decision(CoordinatorThrew, [])

  /** The workflow step under way asks for more than a terminal answer. */
  predicate StepUnfinished(d: Director, event: Inbound, base: seq<Action>, workflow: Workflow) {
    && workflow.active.Yes? && !workflow.atGate.Yes?
    && HasTerminal(base) && (d.lastTurnHadContent || EndsInMarkerEcho(event))
  }

  /** An unfinished step is asked for again, until it has been too often. */
  function StepPhase(d: Director, event: Inbound, base: seq<Action>, workflow: Workflow): (Director, Option<Decision>) {
    if Rethrown(workflow.active, event) || (workflow.active.Yes? && Rethrown(workflow.atGate, event)) then
      (d, Some(Rethrow))
    else if !StepUnfinished(d, event, base, workflow) then (d, None)
    else if d.operatorResponded then (d.(operatorResponded := false), Some(Decision(OperatorAnswered, base)))
    else if d.liveHelpers > 0 then (d, None)
    else if d.budgets.workflowIdle >= MAX_WORKFLOW_IDLE_TURNS then
      (d, Some(Decision(WorkflowStuck, [StuckReply])))
    else if workflow.stepIdThrows && event.InferenceDone? then (d, Some(Rethrow))
    else (d, Some(Decision(StepNudge, WithoutTerminal(base) + [Infer(WorkflowStep)])))
  }

  /** The nudges that keep a session moving when the base decision would end it. */
  function NudgePhase(d: Director, event: Inbound, raw: seq<Action>, base: seq<Action>, around: Around): (Director, Decision) {
    if d.budgets.toolOnlyPending && HasInfer(base) then
      (d.(budgets := d.budgets.(toolOnlyPending := false)), Decision(CheckInNudge, NudgeFirstInfer(base)))
    else
      var (stepped, decision) := StepPhase(d, event, base, around.workflow);
      if decision.Some? then (stepped, decision.value)
      else OpenTaskPhase(stepped, event, raw, base, around.workflow)
  }

  function OpenTaskPhase(d: Director, event: Inbound, raw: seq<Action>, base: seq<Action>, workflow: Workflow)
    : (Director, Decision)
  {
    if workflow.active.Yes? && Rethrown(workflow.atGateStill, event) then (d, Rethrow)
    else if (workflow.active.Yes? && workflow.atGateStill.Yes?) || !HasActiveTasks(d.tasks) || !HasTerminal(base) then
      (d, Decision(BaseDecision, base))
    else if d.allowIdleWithFleet then (d, Decision(FleetIdle, raw))
    else if d.budgets.openTask < MAX_OPEN_TASK_NUDGES then
      (d.(budgets := d.budgets.(openTask := d.budgets.openTask + 1)),
       Decision(OpenTaskNudge, WithoutTerminal(base) + [Infer(OpenTasks)]))
    else (d, Decision(BaseDecision, base))
  }

  function BasePhase(d: Director, event: Inbound, around: Around): (Director, Decision) {
    if around.base.None? then (d, Decision(BaseThrew, []))
    else
      var raw := around.base.value;
      var base := if EndsInMarkerEcho(event) then RepliesWait(raw) else raw;
      var (folded, decision) := FoldBase(d.governor, event, base, around);
      AfterFold(d.(governor := folded), decision, event, raw, base, around)
  }

  /** A fold comes before every nudge. */
  function AfterFold(d: Director, folded: Option<Decision>, event: Inbound, raw: seq<Action>, base: seq<Action>, around: Around)
    : (Director, Decision)
  {
    if folded.Some? then (d, folded.value) else NudgePhase(d, event, raw, base, around)
  }

  // ---------------------------------------------------------- the decision

  function OwnPhase(d: Director, event: Inbound, around: Around): (Director, Decision) {
    var (declinedBudgets, declined) := DeclinedPhase(d.budgets, d.tasks, event);
    if declined.Some? then (d.(budgets := declinedBudgets), declined.value)
    else MeasuredPhase(MeasurePhase(d, event, around), event, around)
  }

  /** A turn that only echoes the marker is asked to go on, for a while. */
  function MeasuredPhase(d: Director, event: Inbound, around: Around): (Director, Decision) {
    if EndsInMarkerEcho(event) && d.budgets.markerEcho < MAX_MARKER_ECHO_NUDGES then
      (d.(budgets := d.budgets.(markerEcho := d.budgets.markerEcho + 1)), Decision(EchoNudge, [Infer(MarkerEcho)]))
    else BasePhase(d, event, around)
  }

  function EarlyPhase(d: Director, event: Inbound, around: Around): (Director, Option<Decision>) {
    var (governor, folded) := FoldPhase(d.governor, event, around);
    if folded.Some? then (d.(governor := governor), folded)
    else
      var (mailed, answered) := MailPhase(d.(governor := governor), event);
      if answered.Some? then (mailed, answered)
      else
        var (budgets, recovered) := ErrorPhase(mailed.budgets, event);
        (mailed.(budgets := budgets), recovered)
  }

  function DecideInner(d: Director, event: Inbound, around: Around): (Director, Decision) {
    var (early, decision) := EarlyPhase(d, event, around);
    if decision.Some? then (early, decision.value)
    else if NotingThrows(event, around) then (NoteEvent(early, event, around), Rethrow)
    else OwnPhase(NoteEvent(early, event, around), event, around)
  }

  predicate Continues(actions: seq<Action>) {
    exists i :: 0 <= i < |actions| && (actions[i].Infer? || actions[i].ExecuteTools? || actions[i].Reply?)
  }

  /** A decision that only waits is settled with an empty reply. */
  function Settle(actions: seq<Action>): seq<Action> {
    if actions == [] || actions[|actions| - 1] != Wait || Continues(actions) then actions
    else actions[..|actions| - 1] + [Reply("", false)]
  }

  function Emits(notices: seq<Notice>): seq<Action> {
    seq(|notices|, i requires 0 <= i < |notices| => Emit(notices[i]))
  }

  /** A base director that throws leaves the notices for the next decision; a
      coordinator that throws at a turn boundary takes them with it. */
  function Finish(d: Director, decision: Decision, event: Inbound, around: Around): (Director, Decision) {
    if decision.route == BaseThrew then (d, decision)
    else if decision.route == CoordinatorThrew || (event.InferenceDone? && around.workflow.directiveThrows) then
      (d.(pending := []), Rethrow)
    else (d.(pending := []), Decision(decision.route, Settle(decision.actions) + Emits(d.pending)))
  }

  /** A dropped approval settles without a turn. */
  function Decide(d: Director, event: Inbound, around: Around): (Director, Decision) {
    if event.ResumedToolResult? && event.dropped then
      (d, Decision(DroppedApproval, [Checkpoint, Emit(ApprovalSettled), Wait]))
    else
      var (next, decision) := DecideInner(d, event, around);
      Finish(next, decision, event, around)
  }

  /** The task list a transcript leads to, replayed from nothing. */
  function HydrateTasks(turns: seq<Turn>): seq<Task> {
    if turns == [] then [] else TasksAfter(HydrateTasks(turns[..|turns| - 1]), turns[|turns| - 1].blocks)
  }

  function TasksAfter(tasks: seq<Task>, blocks: seq<Block>): seq<Task> {
    if blocks == [] then tasks
    else
      var earlier := TasksAfter(tasks, blocks[..|blocks| - 1]);
      var last := blocks[|blocks| - 1];
      if last.ToolCall? && last.tool.ManageTasks? && last.tool.args.Some? then Apply(earlier, last.tool.args.value)
      else earlier
  }
}
