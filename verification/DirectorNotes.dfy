/** What the director remembers of each event: its budgets and streaks, the tool
    calls it waits for, and what the operator has said. */
module DirectorNotes {
  import opened Common
  import opened Reactor
  import C = Compaction
  import opened Tasks
  import opened Director
  import opened DirectorRuns
  import opened DirectorFlow

  // ------------------------------------------------------------ what a turn is

  predicate CallsTools(turn: Turn) {
    exists i :: 0 <= i < |turn.blocks| && turn.blocks[i].ToolCall?
  }

  /** Some text that is not the marker alone. */
  predicate Says(turn: Turn) {
    && (exists i :: 0 <= i < |turn.blocks| && turn.blocks[i].TextBlock? && !turn.blocks[i].isEmpty)
    && (CallsTools(turn) || !turn.isMarker)
  }

  predicate Silent(turn: Turn) {
    CallsTools(turn) && !Says(turn)
  }

  /** Nothing but the marker of a fold. */
  predicate Echo(turn: Turn) {
    turn.isMarker && !CallsTools(turn)
  }

  lemma TurnsAreRead(turn: Turn)
    ensures turn.HasToolCalls() == CallsTools(turn) && turn.HasText() == Says(turn) && turn.IsMarkerEcho() == Echo(turn)
  {
  }

  // ---------------------------------------------------------- the budgets

  /** A message gives every budget back. A finished turn gives the recoveries
      back, counts as idle for the workflow unless it calls tools or is an echo
      still to be nudged, and lengthens or ends the silent streak, which asks for a
      check-in once, when it reaches its length. A submitted step that advances the
      workflow ends its idleness. */
  predicate BudgetsAfter(d: Director, event: Inbound, around: Around, b: Budgets) {
    match event
    case Message(_, _) => b == Budgets(0, 0, 0, 0, 0, 0, false, false)
    case InferenceDone(turn, _) =>
      var silent := Silent(turn);
      var streak := if silent then d.budgets.toolOnlyStreak + 1 else 0;
      var asked := silent && d.budgets.toolOnlyFired;
      var asks := streak == d.nudgeAt && !asked;
      && b.openTask == d.budgets.openTask && b.declined == d.budgets.declined && b.markerEcho == d.budgets.markerEcho
      && b.recoveries == 0
      && b.workflowIdle == (if !around.workflow.activeBefore.Yes? then d.budgets.workflowIdle
                            else if CallsTools(turn) then 0
                            else if Echo(turn) && d.budgets.markerEcho < 2 then d.budgets.workflowIdle
                            else d.budgets.workflowIdle + 1)
      && b.toolOnlyStreak == streak
      && b.toolOnlyFired == (asked || asks)
      && b.toolOnlyPending == ((silent && d.budgets.toolOnlyPending) || asks)
    case ToolDone(callId, _, _) =>
      b == if callId in d.calls.workflow && around.workflow.advanced then d.budgets.(workflowIdle := 0) else d.budgets
    case _ => b == d.budgets
  }

  lemma BudgetsAreNoted(d: Director, event: Inbound, around: Around)
    ensures BudgetsAfter(d, event, around, NoteEvent(d, event, around).budgets)
  {
    if event.InferenceDone? {
      TurnsAreRead(event.turn);
      NoteTurnKeeps(d, event.turn, around);
    }
  }

  // ------------------------------------------------- calls and the operator

  /** The turn calls a tool of one kind under this id. */
  predicate CallsAs(blocks: seq<Block>, id: string, tool: Tool) {
    exists i :: 0 <= i < |blocks| && blocks[i] == ToolCall(id, tool)
  }

  lemma CallIsNoted(d: Director, block: Block, id: string)
    ensures var calls := NoteBlock(d, block).calls;
      && (id in calls.workflow <==> id in d.calls.workflow || block == ToolCall(id, SubmitOutput))
      && (id in calls.ask <==> id in d.calls.ask || block == ToolCall(id, AskOperator))
      && (id in calls.lsp <==> id in d.calls.lsp || block == ToolCall(id, FileTool(true)))
    ensures var next := NoteBlock(d, block);
      next == d.(calls := next.calls, tasks := next.tasks, pending := next.pending)
  {
    hide Apply;
  }

  lemma {:induction false} CallsAreNoted(d: Director, blocks: seq<Block>, id: string)
    ensures var calls := NoteBlocks(d, blocks).calls;
      && (id in calls.workflow <==> id in d.calls.workflow || CallsAs(blocks, id, SubmitOutput))
      && (id in calls.ask <==> id in d.calls.ask || CallsAs(blocks, id, AskOperator))
      && (id in calls.lsp <==> id in d.calls.lsp || CallsAs(blocks, id, FileTool(true)))
    ensures var next := NoteBlocks(d, blocks);
      next == d.(calls := next.calls, tasks := next.tasks, pending := next.pending)
  {
    hide NoteBlock, CallsAs;
    if blocks == [] {
      NoCalls(id);
    } else {
      var front, last := blocks[..|blocks| - 1], blocks[|blocks| - 1];
      CallsAreNoted(d, front, id);
      CallIsNoted(NoteBlocks(d, front), last, id);
      forall tool ensures CallsAs(blocks, id, tool) <==> CallsAs(front, id, tool) || last == ToolCall(id, tool) {
        OneMoreCall(blocks, id, tool);
      }
    }
  }

  lemma NoCalls(id: string)
    ensures forall tool :: !CallsAs([], id, tool)
  {
  }

  lemma OneMoreCall(blocks: seq<Block>, id: string, tool: Tool)
    requires blocks != []
    ensures CallsAs(blocks, id, tool) <==> CallsAs(blocks[..|blocks| - 1], id, tool) || blocks[|blocks| - 1] == ToolCall(id, tool)
  {
    var front := blocks[..|blocks| - 1];
    if CallsAs(front, id, tool) {
      var i :| 0 <= i < |front| && front[i] == ToolCall(id, tool);
      assert blocks[i] == ToolCall(id, tool);
    }
    if CallsAs(blocks, id, tool) {
      var i :| 0 <= i < |blocks| && blocks[i] == ToolCall(id, tool);
      assert i < |front| ==> front[i] == ToolCall(id, tool);
    }
  }

  /** The ids waited for are those a noted turn called that have not come back. */
  lemma CallsAreTracked(d: Director, event: Inbound, around: Around, id: string)
    ensures var before, after := d.calls, NoteEvent(d, event, around).calls;
      var back := event.ToolDone? && event.callId == id;
      var blocks := if NotesCalls(event, around) then event.turn.blocks else [];
      && (id in after.workflow <==> (id in before.workflow && !back) || CallsAs(blocks, id, SubmitOutput))
      && (id in after.ask <==> (id in before.ask && !back) || CallsAs(blocks, id, AskOperator))
      && (id in after.lsp <==> (id in before.lsp && !back) || CallsAs(blocks, id, FileTool(true)))
  {
    if NotesCalls(event, around) {
      CallsAreNoted(NoteContent(d, event.turn, around), event.turn.blocks, id);
    }
  }

  /** A question that comes back without an error is an answer of the operator's;
      a turn has content when it says something or calls a tool. Nothing else of
      what the host set changes. */
  lemma AnswersAreNoted(d: Director, event: Inbound, around: Around)
    ensures var next := NoteEvent(d, event, around);
      && next.operatorResponded == (d.operatorResponded || (event.ToolDone? && event.callId in d.calls.ask && !event.isError))
      && next.lastTurnHadContent
         == (if event.InferenceDone? then CallsTools(event.turn) || Says(event.turn) else d.lastTurnHadContent)
      && next.governor == d.governor && next.allowIdleWithFleet == d.allowIdleWithFleet && next.liveHelpers == d.liveHelpers
      && next.refreshGeneration == d.refreshGeneration && next.nudgeAt == d.nudgeAt
  {
    if event.InferenceDone? {
      TurnsAreRead(event.turn);
      CallsAreNoted(NoteContent(d, event.turn, around), event.turn.blocks, "");
    }
  }

  /** A fresh director has noted nothing: no task, call, notice or answer, no nudge
      spent, no fold armed, owed or counted. */
  lemma FreshHasNotedNothing(overhead: nat, fleet: bool, nudgeAt: nat)
    ensures var d := FreshDirector(overhead, fleet, nudgeAt);
      && d.tasks == [] && d.pending == [] && !d.operatorResponded && !d.lastTurnHadContent
      && d.calls == Calls({}, {}, {}) && d.refreshGeneration == None && d.liveHelpers == 0
      && d.budgets == Budgets(0, 0, 0, 0, 0, 0, false, false)
      && !d.governor.arms.pending && !d.governor.arms.idle && !d.governor.arms.manual && !d.governor.hostClosure
      && d.governor.debts == C.Debts(false, false) && d.governor.rails == C.Rails(0, 0, None, false, false)
      && d.governor.gauge.turnCount == 0 && d.governor.gauge.estimated == overhead
  {
  }

  // ------------------------------------------------ what the decision takes

  /** What a decision takes of what was noted: the operator's answer once an
      unfinished step has been let go for it, the check-in once it is sent. */
  predicate Takes(noted: Director, next: Director, route: Route) {
    && next.operatorResponded == (noted.operatorResponded && route != OperatorAnswered)
    && next.budgets.toolOnlyPending == (noted.budgets.toolOnlyPending && route != CheckInNudge)
    && next.budgets.toolOnlyStreak == noted.budgets.toolOnlyStreak && next.budgets.toolOnlyFired == noted.budgets.toolOnlyFired
    && next.calls == noted.calls && next.lastTurnHadContent == noted.lastTurnHadContent
    && next.allowIdleWithFleet == noted.allowIdleWithFleet && next.liveHelpers == noted.liveHelpers
    && next.nudgeAt == noted.nudgeAt
  }

  lemma StepTakes(d: Director, event: Inbound, base: seq<Action>, workflow: Workflow)
    ensures var (next, decision) := StepPhase(d, event, base, workflow);
      && (decision.Some? ==> Takes(d, next, decision.value.route) && decision.value.route != CheckInNudge)
      && (decision.None? ==> next == d)
  {
    hide WithoutTerminal;
  }

  lemma TaskTakes(d: Director, event: Inbound, raw: seq<Action>, base: seq<Action>, workflow: Workflow)
    ensures var (next, decision) := OpenTaskPhase(d, event, raw, base, workflow); Takes(d, next, decision.route)
  {
    hide WithoutTerminal;
  }

  lemma NudgeTakes(d: Director, event: Inbound, raw: seq<Action>, base: seq<Action>, around: Around)
    ensures var (next, decision) := NudgePhase(d, event, raw, base, around);
      Takes(d, next, decision.route) && (decision.route == CheckInNudge ==> d.budgets.toolOnlyPending)
  {
    hide OpenTaskPhase, NudgeFirstInfer;
    StepTakes(d, event, base, around.workflow);
    TaskTakes(d, event, raw, base, around.workflow);
    StepPhasePays(d, event, base, around.workflow);
    OpenTaskPhasePays(d, event, raw, base, around.workflow);
  }

  lemma BaseTakes(d: Director, event: Inbound, around: Around)
    ensures var (next, decision) := BasePhase(d, event, around);
      Takes(d, next, decision.route) && (decision.route == CheckInNudge ==> d.budgets.toolOnlyPending)
  {
    hide NudgePhase, FoldBase;
    if around.base.Some? {
      var base := Shown(event, around.base.value);
      FoldBaseRoutes(d.governor, event, base, around);
      NudgeTakes(d.(governor := FoldBase(d.governor, event, base, around).0), event, around.base.value, base, around);
    }
  }

  lemma OwnTakes(d: Director, event: Inbound, around: Around)
    ensures var (next, decision) := OwnPhase(d, event, around);
      Takes(d, next, decision.route) && (decision.route == CheckInNudge ==> d.budgets.toolOnlyPending)
  {
    hide AfterFold, FoldBase, MeasurePhase;
    OnlyMeasures(d, event, around);
    BaseTakes(MeasurePhase(d, event, around), event, around);
  }

  lemma OnlyMeasures(d: Director, event: Inbound, around: Around)
    ensures var measured := MeasurePhase(d, event, around);
            measured == d.(governor := measured.governor, pending := measured.pending)
  {
  }

  /** An event that nothing answers early is noted, and its decision takes no more
      than that of it. */
  lemma DecisionTakes(d: Director, event: Inbound, around: Around)
    requires EarlyPhase(d, event, around).1.None? && !NotingThrows(event, around)
    requires !(event.ResumedToolResult? && event.dropped)
    ensures var noted := NoteEvent(EarlyPhase(d, event, around).0, event, around);
      Takes(noted, Decide(d, event, around).0, DecideInner(d, event, around).1.route)
  {
    hide OwnPhase, EarlyPhase, NoteEvent;
    OwnTakes(NoteEvent(EarlyPhase(d, event, around).0, event, around), event, around);
    var (next, decision) := DecideInner(d, event, around);
    FinishKeeps(next, decision, event, around);
  }

  // --------------------------------------------------- one check-in a streak

  /** Neither a message nor a turn that is not silent. */
  predicate StaysSilent(step: Step) {
    !NonEmptyMessage(step) && (TurnBoundary(step) ==> Silent(step.event.turn))
  }

  predicate CheckInInv(b: Budgets) {
    b.toolOnlyPending ==> b.toolOnlyFired
  }

  /** A check-in is due or may still come due. */
  function CheckInsLeft(b: Budgets): nat {
    if b.toolOnlyPending || !b.toolOnlyFired then 1 else 0
  }

  lemma SilentStepChecksInOnce(d: Director, step: Step)
    requires CheckInInv(d.budgets)
    ensures var (next, decision) := Next(d, step);
      && CheckInInv(next.budgets)
      && (StaysSilent(step) ==> Took(decision, CheckInNudge) + CheckInsLeft(next.budgets) <= CheckInsLeft(d.budgets))
  {
    if step.Event? {
      EventChecksInOnce(d, step.event, step.around);
    }
  }

  /** What was noted may be checked in on, at most by this decision. */
  predicate ChecksInOnce(b: Budgets, t: Budgets, step: Step, route: Route) {
    && CheckInInv(t)
    && (StaysSilent(step) ==> (if route == CheckInNudge then 1 else 0) + CheckInsLeft(t) <= CheckInsLeft(b))
  }

  lemma LateChecksInOnce(d: Director, event: Inbound, around: Around)
    requires CheckInInv(d.budgets) && (event.Message? ==> event.content != "")
    ensures var (next, decision) := OwnPhase(NoteEvent(d, event, around), event, around);
            ChecksInOnce(d.budgets, next.budgets, Event(event, around), decision.route)
    ensures ChecksInOnce(d.budgets, NoteEvent(d, event, around).budgets, Event(event, around), CoordinatorThrew)
  {
    hide OwnPhase, NoteEvent;
    BudgetsAreNoted(d, event, around);
    OwnTakes(NoteEvent(d, event, around), event, around);
  }

  lemma InnerChecksInOnce(d: Director, event: Inbound, around: Around)
    requires CheckInInv(d.budgets)
    ensures var (next, decision) := DecideInner(d, event, around);
            ChecksInOnce(d.budgets, next.budgets, Event(event, around), decision.route)
  {
    hide OwnPhase, EarlyPhase, NoteEvent;
    EarlyPays(d, event, around);
    EarlyKeepsStreak(d, event, around);
    var (early, decided) := EarlyPhase(d, event, around);
    if decided.None? {
      if event.Message? && event.content == "" {
        EmptyIsAnsweredEarly(d, event, around);
      } else {
        LateChecksInOnce(early, event, around);
      }
    }
  }

  lemma EventChecksInOnce(d: Director, event: Inbound, around: Around)
    requires CheckInInv(d.budgets)
    ensures var (next, decision) := Decide(d, event, around);
            ChecksInOnce(d.budgets, next.budgets, Event(event, around), decision.route)
  {
    hide DecideInner;
    InnerChecksInOnce(d, event, around);
    var (next, decision) := DecideInner(d, event, around);
    FinishKeeps(next, decision, event, around);
  }

  lemma EarlyKeepsStreak(d: Director, event: Inbound, around: Around)
    ensures var (early, decision) := EarlyPhase(d, event, around);
      && early.budgets == d.budgets.(recoveries := early.budgets.recoveries)
      && (decision.Some? ==> decision.value.route != CheckInNudge)
  {
    hide FoldPhase;
    FoldPhaseRoutes(d.governor, event, around);
  }

  lemma {:induction false} SilentRunChecksInOnce(d: Director, steps: seq<Step>)
    requires CheckInInv(d.budgets)
    ensures CheckInInv(Run(d, steps).budgets)
    ensures (forall i :: 0 <= i < |steps| ==> StaysSilent(steps[i]))
            ==> Count(d, steps, CheckInNudge) + CheckInsLeft(Run(d, steps).budgets) <= CheckInsLeft(d.budgets)
    decreases |steps|
  {
    if steps != [] {
      SilentStepChecksInOnce(d, steps[0]);
      SilentRunChecksInOnce(Next(d, steps[0]).0, steps[1..]);
    }
  }

  /** After any history, between two messages or turns with text the director checks
      in on a silently working model at most once. */
  lemma CheckInsAreRare(overhead: nat, fleet: bool, nudgeAt: nat, history: seq<Step>, steps: seq<Step>)
    requires forall i :: 0 <= i < |steps| ==> StaysSilent(steps[i])
    ensures Count(Run(FreshDirector(overhead, fleet, nudgeAt), history), steps, CheckInNudge) <= 1
  {
    SilentRunChecksInOnce(FreshDirector(overhead, fleet, nudgeAt), history);
    SilentRunChecksInOnce(Run(FreshDirector(overhead, fleet, nudgeAt), history), steps);
  }
}
