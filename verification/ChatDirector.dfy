/** The chat director in the form the program keeps it: an object whose fields a
    decision updates on its way, over a governor object of its own. Each method
    is proved to do what the specification in `Director` says. */
module ChatDirector {
  import opened Common
  import opened Reactor
  import C = Compaction
  import opened CompactionGovernor
  import opened Tasks
  import opened D = Director

  class ChatDirectorImpl {
    const compaction: LiveGovernor
    const toolOnlyTurnNudgeAt: nat
    var idleTerminationNudges: nat
    var declinedTerminationNudges: nat
    var inferenceRecoveries: nat
    var markerEchoNudges: nat
    var workflowIdleTurns: nat
    var toolOnlyStreak: nat
    var toolOnlyNudgeFired: bool
    var pendingToolOnlyNudge: bool
    var workflowCalls: set<string>
    var askOperatorCalls: set<string>
    var lspTriggerCalls: set<string>
    var tasks: seq<Task>
    var pendingEmits: seq<Notice>
    var lastInferenceTurnHadContent: bool
    var operatorJustResponded: bool
    var allowIdleWithFleet: bool
    var liveHelperCount: nat
    var credentialRecoveryGeneration: Option<int>

    ghost function BudgetsView(): Budgets
      reads this
    {
      Budgets(idleTerminationNudges, declinedTerminationNudges, inferenceRecoveries, markerEchoNudges,
              workflowIdleTurns, toolOnlyStreak, toolOnlyNudgeFired, pendingToolOnlyNudge)
    }

    ghost function View(): D.Director
      reads this, compaction
    {
      D.Director(compaction.View(), BudgetsView(), Calls(workflowCalls, askOperatorCalls, lspTriggerCalls), tasks,
                 pendingEmits, lastInferenceTurnHadContent, operatorJustResponded, allowIdleWithFleet, liveHelperCount,
                 credentialRecoveryGeneration, toolOnlyTurnNudgeAt)
    }

    /** No nudge budget is overspent, and the governor is in order. */
    ghost predicate Valid()
      reads this, compaction
    {
      BudgetInv(BudgetsView()) && compaction.Valid()
    }

    constructor (overheadTokens: nat, allowIdleWithFleet: bool, nudgeAt: nat)
      ensures fresh(compaction)
      ensures Valid()
      ensures View() == FreshDirector(overheadTokens, allowIdleWithFleet, nudgeAt)
    {
      compaction := new LiveGovernor(false, overheadTokens);
      toolOnlyTurnNudgeAt := nudgeAt;
      idleTerminationNudges, declinedTerminationNudges, inferenceRecoveries, markerEchoNudges := 0, 0, 0, 0;
      workflowIdleTurns, toolOnlyStreak, toolOnlyNudgeFired, pendingToolOnlyNudge := 0, 0, false, false;
      workflowCalls, askOperatorCalls, lspTriggerCalls := {}, {}, {};
      tasks, pendingEmits, lastInferenceTurnHadContent, operatorJustResponded := [], [], false, false;
      this.allowIdleWithFleet, liveHelperCount, credentialRecoveryGeneration := allowIdleWithFleet, 0, None;
    }

    // ------------------------------------------------- before noting

    method FoldPhase(event: Inbound, around: Around) returns (decision: Option<Decision>)
      requires Valid()
      modifies compaction
      ensures Valid()
      ensures (compaction.View(), decision) == D.FoldPhase(old(compaction.View()), event, around)
    {
      var afterCompact := compaction.ResumeAfterCompact(Seen(event));
      if afterCompact.Some? {
        compaction.NotePostCompact(around.turns);
        if afterCompact == Some(C.ResumeMeter) {
          return Some(Decision(MeterResume, [Wait]));
        }
        var preflight := compaction.PreflightInfer(around.limits);
        if preflight.Some? {
          return Some(Decision(PreflightFold, preflight.value));
        }
        return Some(Decision(InferResume, [Infer(NoNudge)]));
      }
      var idleCompact := compaction.InterceptIdleContinuation(Seen(event));
      if idleCompact.Some? {
        return Some(Decision(IdleFold, idleCompact.value));
      }
      var recovery := compaction.InterceptOverflow(Seen(event));
      if recovery.Some? {
        return Some(Decision(OverflowFold, recovery.value));
      }
      return None;
    }

    method MailPhase(event: Inbound) returns (decision: Option<Decision>)
      requires Valid()
      modifies this`credentialRecoveryGeneration
      ensures Valid()
      ensures (View(), decision) == D.MailPhase(old(View()), event)
    {
      if event.Message? && event.mail.Refresh? {
        if event.mail.generation.Some? && event.mail.generation == credentialRecoveryGeneration {
          credentialRecoveryGeneration := None;
          return Some(Decision(RefreshArmed, [Infer(NoNudge)]));
        }
        return Some(Decision(RefreshStale, [Wait]));
      }
      if event.Message? && |event.content| == 0 && !compaction.HasOutstandingContinuation() {
        return Some(Decision(Unsolicited, [Wait]));
      }
      return None;
    }

    method ErrorPhase(event: Inbound) returns (decision: Option<Decision>)
      requires Valid()
      modifies this`inferenceRecoveries
      ensures Valid()
      ensures (BudgetsView(), decision) == D.ErrorPhase(old(BudgetsView()), event)
    {
      if event.InferenceError? && event.kind == InternalAbort {
        if inferenceRecoveries < MAX_INFERENCE_RECOVERIES {
          inferenceRecoveries := inferenceRecoveries + 1;
          return Some(Decision(Recovery, [Checkpoint, Infer(NoNudge)]));
        }
        return Some(Decision(RecoveryExhausted, [Checkpoint, Reply("The request could not recover.", false)]));
      }
      if event.InferenceError? && event.kind == TimedOut {
        return Some(Decision(TimeoutReply, [Checkpoint, Reply("The request timed out.", false)]));
      }
      return None;
    }

    // ------------------------------------------------------------ noting

    method ResetBudgets()
      requires Valid()
      modifies this`idleTerminationNudges, this`declinedTerminationNudges, this`inferenceRecoveries
      modifies this`markerEchoNudges, this`workflowIdleTurns
      modifies this`toolOnlyStreak, this`toolOnlyNudgeFired, this`pendingToolOnlyNudge
      ensures Valid()
      ensures BudgetsView() == FreshBudgets
    {
      idleTerminationNudges := 0;
      declinedTerminationNudges := 0;
      workflowIdleTurns := 0;
      inferenceRecoveries := 0;
      markerEchoNudges := 0;
      toolOnlyStreak := 0;
      toolOnlyNudgeFired := false;
      pendingToolOnlyNudge := false;
    }

    method NoteStreak(toolOnly: bool)
      requires Valid()
      modifies this`toolOnlyStreak, this`toolOnlyNudgeFired, this`pendingToolOnlyNudge
      ensures Valid()
      ensures BudgetsView() == D.NoteStreak(old(BudgetsView()), toolOnly, toolOnlyTurnNudgeAt)
    {
      if toolOnly {
        toolOnlyStreak := toolOnlyStreak + 1;
      } else {
        toolOnlyStreak := 0;
        toolOnlyNudgeFired := false;
        pendingToolOnlyNudge := false;
      }
      if toolOnlyStreak == toolOnlyTurnNudgeAt && !toolOnlyNudgeFired {
        toolOnlyNudgeFired := true;
        pendingToolOnlyNudge := true;
      }
    }

    method NoteWorkflowIdle(turn: Turn, active: bool)
      requires Valid()
      modifies this`workflowIdleTurns
      ensures Valid()
      ensures BudgetsView() == D.NoteWorkflowIdle(old(BudgetsView()), turn, active)
    {
      if active {
        if turn.HasToolCalls() {
          workflowIdleTurns := 0;
        } else {
          var echoStillNudging := turn.IsMarkerEcho() && markerEchoNudges < MAX_MARKER_ECHO_NUDGES;
          if !echoStillNudging {
            workflowIdleTurns := workflowIdleTurns + 1;
          }
        }
      }
    }

    /** The scan of a finished turn for calls that mean something. */
    method NoteBlocks(blocks: seq<Block>)
      requires Valid()
      modifies this`tasks, this`pendingEmits, this`workflowCalls, this`askOperatorCalls, this`lspTriggerCalls
      ensures Valid()
      ensures View() == D.NoteBlocks(old(View()), blocks)
    {
      for i := 0 to |blocks|
        invariant View() == D.NoteBlocks(old(View()), blocks[..i])
      {
        assert blocks[..i + 1][..i] == blocks[..i];
        NoteBlock(blocks[i]);
      }
      assert blocks[..|blocks|] == blocks;
    }

    method NoteBlock(block: Block)
      requires Valid()
      modifies this`tasks, this`pendingEmits, this`workflowCalls, this`askOperatorCalls, this`lspTriggerCalls
      ensures Valid()
      ensures View() == D.NoteBlock(old(View()), block)
    {
      hide Apply;
      if !block.ToolCall? {
        return;
      }
      match block.tool {
        case ManageTasks(args) =>
          if args.Some? {
            tasks := ApplyManageTasks(tasks, args.value);
            pendingEmits := pendingEmits + [TasksChanged];
          }
        case FileTool(isCode) =>
          if isCode {
            lspTriggerCalls := lspTriggerCalls + {block.id};
          }
        case SubmitOutput => workflowCalls := workflowCalls + {block.id};
        case AskOperator => askOperatorCalls := askOperatorCalls + {block.id};
        case OtherTool =>
      }
    }

    method NoteTurnBudgets(turn: Turn, active: bool)
      requires Valid()
      modifies this`inferenceRecoveries, this`workflowIdleTurns
      modifies this`toolOnlyStreak, this`toolOnlyNudgeFired, this`pendingToolOnlyNudge
      ensures Valid()
      ensures BudgetsView() == D.NoteTurnBudgets(old(BudgetsView()), turn, toolOnlyTurnNudgeAt, active)
    {
      inferenceRecoveries := 0;
      NoteStreak(turn.HasToolCalls() && !turn.HasText());
      NoteWorkflowIdle(turn, active);
    }

    method NoteContent(turn: Turn, around: Around)
      requires Valid()
      modifies this`inferenceRecoveries, this`workflowIdleTurns, this`lastInferenceTurnHadContent
      modifies this`toolOnlyStreak, this`toolOnlyNudgeFired, this`pendingToolOnlyNudge
      ensures Valid()
      ensures View() == D.NoteContent(old(View()), turn, around)
    {
      lastInferenceTurnHadContent := turn.HasToolCalls() || turn.HasText();
      NoteTurnBudgets(turn, around.workflow.activeBefore.Yes?);
    }

    method NoteTurn(turn: Turn, around: Around)
      requires Valid()
      modifies this
      ensures Valid()
      ensures View() == D.NoteTurn(old(View()), turn, around)
    {
      NoteContent(turn, around);
      if around.workflow.activeBefore.Throws? {
        return;
      }
      NoteBlocks(turn.blocks);
    }

    method NoteWorkflowResult(callId: string, advanced: bool)
      requires Valid()
      modifies this`workflowCalls, this`workflowIdleTurns
      ensures Valid()
      ensures workflowCalls == old(workflowCalls) - {callId}
      ensures workflowIdleTurns == if callId in old(workflowCalls) && advanced then 0 else old(workflowIdleTurns)
    {
      if callId in workflowCalls {
        workflowCalls := workflowCalls - {callId};
        if advanced {
          workflowIdleTurns := 0;
        }
      }
    }

    method NoteOperatorAnswer(callId: string, isError: bool)
      requires Valid()
      modifies this`askOperatorCalls, this`operatorJustResponded
      ensures Valid()
      ensures askOperatorCalls == old(askOperatorCalls) - {callId}
      ensures operatorJustResponded == (old(operatorJustResponded) || (callId in old(askOperatorCalls) && !isError))
    {
      if callId in askOperatorCalls {
        askOperatorCalls := askOperatorCalls - {callId};
        if !isError {
          operatorJustResponded := true;
        }
      }
    }

    method NoteLspTrigger(callId: string, isError: bool)
      requires Valid()
      modifies this`lspTriggerCalls, this`pendingEmits
      ensures Valid()
      ensures lspTriggerCalls == old(lspTriggerCalls) - {callId}
      ensures pendingEmits == old(pendingEmits) + if callId in old(lspTriggerCalls) && !isError then [ToolsActivated] else []
    {
      if callId in lspTriggerCalls {
        lspTriggerCalls := lspTriggerCalls - {callId};
        if !isError {
          pendingEmits := pendingEmits + [ToolsActivated];
        }
      }
    }

    method NoteToolDone(callId: string, isError: bool, around: Around)
      requires Valid()
      modifies this
      ensures Valid()
      ensures View() == D.NoteToolDone(old(View()), callId, isError, around)
    {
      NoteWorkflowResult(callId, around.workflow.advanced);
      NoteOperatorAnswer(callId, isError);
      NoteLspTrigger(callId, isError);
    }

    method NoteEvent(event: Inbound, around: Around)
      requires Valid()
      modifies this
      ensures Valid()
      ensures View() == D.NoteEvent(old(View()), event, around)
    {
      if event.Message? {
        ResetBudgets();
      }
      if event.InferenceDone? {
        NoteTurn(event.turn, around);
      }
      if event.ToolDone? {
        NoteToolDone(event.callId, event.isError, around);
      }
    }

    // --------------------------------------------- decisions of its own

    method DeclinedPhase(event: Inbound) returns (decision: Option<Decision>)
      requires Valid()
      modifies this`declinedTerminationNudges
      ensures Valid()
      ensures (BudgetsView(), decision) == D.DeclinedPhase(old(BudgetsView()), tasks, event)
    {
      if event.ToolDone? && event.plainRejection {
        if HasActiveTasks(tasks) {
          if declinedTerminationNudges < MAX_DECLINED_OPEN_TASK_NUDGES {
            declinedTerminationNudges := declinedTerminationNudges + 1;
            return Some(Decision(DeclinedNudge, [Checkpoint, Infer(DeclinedCall)]));
          }
        }
        return Some(Decision(DeclinedReply, [Checkpoint, Reply("Tool call rejected by operator.", false)]));
      }
      return None;
    }

    method MeasurePhase(event: Inbound, around: Around)
      requires Valid()
      modifies this`pendingEmits, compaction
      ensures Valid()
      ensures View() == D.MeasurePhase(old(View()), event, around)
    {
      compaction.SyncFromTurns(around.turns);
      if event.InferenceDone? {
        var wasNonConverged := compaction.foldNonConverged;
        compaction.NoteInferenceDone(event.reportedTokens, around.turns, around.limits);
        if compaction.foldNonConverged && !wasNonConverged {
          pendingEmits := pendingEmits + [FoldNonConverged];
        }
      }
    }

    // ---------------------------------------- around the base director

    method FoldBase(event: Inbound, base: seq<Action>, around: Around) returns (decision: Option<Decision>)
      requires Valid()
      modifies compaction
      ensures Valid()
      ensures (compaction.View(), decision) == D.FoldBase(old(compaction.View()), event, base, around)
    {
      var idleContinuationArmed := compaction.NoteIdleTurn(Seen(event), base);
      var compacted := compaction.InterceptActions(Seen(event), base, around.limits);
      if compacted.Some? {
        return Some(Decision(PausedFold, compacted.value));
      }
      if idleContinuationArmed {
        return Some(Decision(IdleArmed, base + [ContinueAfterCompact]));
      }
      return None;
    }

    method OpenTaskPhase(event: Inbound, raw: seq<Action>, base: seq<Action>, workflow: Workflow) returns (decision: Decision)
      requires Valid()
      modifies this`idleTerminationNudges
      ensures Valid()
      ensures (View(), decision) == D.OpenTaskPhase(old(View()), event, raw, base, workflow)
    {
      if workflow.active.Yes? && Rethrown(workflow.atGateStill, event) {
        return Rethrow;
      }
      var atWorkflowGate := workflow.active.Yes? && workflow.atGateStill.Yes?;
      if !atWorkflowGate && HasActiveTasks(tasks) {
        if HasTerminal(base) {
          if allowIdleWithFleet {
            return Decision(FleetIdle, raw);
          }
          if idleTerminationNudges < MAX_OPEN_TASK_NUDGES {
            idleTerminationNudges := idleTerminationNudges + 1;
            return Decision(OpenTaskNudge, WithoutTerminal(base) + [Infer(OpenTasks)]);
          }
        }
      }
      return Decision(BaseDecision, base);
    }

    method StepPhase(event: Inbound, base: seq<Action>, workflow: Workflow) returns (decision: Option<Decision>)
      requires Valid()
      modifies this`operatorJustResponded
      ensures Valid()
      ensures (View(), decision) == D.StepPhase(old(View()), event, base, workflow)
    {
      if Rethrown(workflow.active, event) {
        return Some(Rethrow);
      }
      if workflow.active.Yes? && Rethrown(workflow.atGate, event) {
        return Some(Rethrow);
      }
      if workflow.active.Yes? && !workflow.atGate.Yes? {
        if HasTerminal(base) && (lastInferenceTurnHadContent || EndsInMarkerEcho(event)) {
          if operatorJustResponded {
            operatorJustResponded := false;
            return Some(Decision(OperatorAnswered, base));
          }
          if liveHelperCount == 0 {
            if workflowIdleTurns >= MAX_WORKFLOW_IDLE_TURNS {
              return Some(Decision(WorkflowStuck, [StuckReply]));
            }
            if workflow.stepIdThrows && event.InferenceDone? {
              return Some(Rethrow);
            }
            return Some(Decision(StepNudge, WithoutTerminal(base) + [Infer(WorkflowStep)]));
          }
        }
      }
      return None;
    }

    method NudgePhase(event: Inbound, raw: seq<Action>, base: seq<Action>, around: Around) returns (decision: Decision)
      requires Valid()
      modifies this`pendingToolOnlyNudge, this`operatorJustResponded, this`idleTerminationNudges
      ensures Valid()
      ensures (View(), decision) == D.NudgePhase(old(View()), event, raw, base, around)
    {
      if pendingToolOnlyNudge && HasInfer(base) {
        pendingToolOnlyNudge := false;
        return Decision(CheckInNudge, NudgeFirstInfer(base));
      }
      var stepped := StepPhase(event, base, around.workflow);
      if stepped.Some? {
        return stepped.value;
      }
      decision := OpenTaskPhase(event, raw, base, around.workflow);
    }

    method BasePhase(event: Inbound, around: Around) returns (decision: Decision)
      requires Valid()
      modifies this, compaction
      ensures Valid()
      ensures (View(), decision) == D.BasePhase(old(View()), event, around)
    {
      hide D.NudgePhase, D.FoldBase;
      if around.base.None? {
        return Decision(BaseThrew, []);
      }
      var base := around.base.value;
      if EndsInMarkerEcho(event) {
        base := RepliesWait(base);
      }
      var folded := FoldBase(event, base, around);
      if folded.Some? {
        return folded.value;
      }
      decision := NudgePhase(event, around.base.value, base, around);
    }

    method OwnPhase(event: Inbound, around: Around) returns (decision: Decision)
      requires Valid()
      modifies this, compaction
      ensures Valid()
      ensures (View(), decision) == D.OwnPhase(old(View()), event, around)
    {
      var declined := DeclinedPhase(event);
      if declined.Some? {
        return declined.value;
      }
      MeasurePhase(event, around);
      decision := MeasuredPhase(event, around);
    }

    method MeasuredPhase(event: Inbound, around: Around) returns (decision: Decision)
      requires Valid()
      modifies this, compaction
      ensures Valid()
      ensures (View(), decision) == D.MeasuredPhase(old(View()), event, around)
    {
      if EndsInMarkerEcho(event) {
        if markerEchoNudges < MAX_MARKER_ECHO_NUDGES {
          markerEchoNudges := markerEchoNudges + 1;
          return Decision(EchoNudge, [Infer(MarkerEcho)]);
        }
      }
      decision := BasePhase(event, around);
    }

    // ------------------------------------------------------- the decision

    method EarlyPhase(event: Inbound, around: Around) returns (decision: Option<Decision>)
      requires Valid()
      modifies this, compaction
      ensures Valid()
      ensures (View(), decision) == D.EarlyPhase(old(View()), event, around)
    {
      decision := FoldPhase(event, around);
      assert View() == old(View()).(governor := compaction.View());
      if decision.Some? {
        return;
      }
      decision := MailPhase(event);
      if decision.Some? {
        return;
      }
      decision := ErrorPhase(event);
    }

    method DecideInner(event: Inbound, around: Around) returns (decision: Decision)
      requires Valid()
      modifies this, compaction
      ensures Valid()
      ensures (View(), decision) == D.DecideInner(old(View()), event, around)
    {
      var early := EarlyPhase(event, around);
      if early.Some? {
        return early.value;
      }
      NoteEvent(event, around);
      if NotingThrows(event, around) {
        return Rethrow;
      }
      decision := OwnPhase(event, around);
    }

    method Decide(event: Inbound, around: Around) returns (decision: Decision)
      requires Valid()
      modifies this, compaction
      ensures Valid()
      ensures (View(), decision) == D.Decide(old(View()), event, around)
    {
      if event.ResumedToolResult? && event.dropped {
        return Decision(DroppedApproval, [Checkpoint, Emit(ApprovalSettled), Wait]);
      }
      var inner := DecideInner(event, around);
      if inner.route == BaseThrew {
        return inner;
      }
      if inner.route == CoordinatorThrew || (event.InferenceDone? && around.workflow.directiveThrows) {
        pendingEmits := [];
        return Rethrow;
      }
      var settled := Settle(inner.actions);
      assert settled + Emits([]) == settled;
      if |pendingEmits| == 0 {
        return Decision(inner.route, settled);
      }
      var emits := Emits(pendingEmits);
      pendingEmits := [];
      return Decision(inner.route, settled + emits);
    }
  }

  /** The list a transcript leads to, replayed turn by turn. */
  method HydrateTasksFromTurns(turns: seq<Turn>) returns (tasks: seq<Task>)
    ensures tasks == HydrateTasks(turns)
  {
    tasks := [];
    for i := 0 to |turns|
      invariant tasks == HydrateTasks(turns[..i])
    {
      assert turns[..i + 1][..i] == turns[..i];
      ghost var before := tasks;
      var blocks := turns[i].blocks;
      for j := 0 to |blocks|
        invariant tasks == TasksAfter(before, blocks[..j])
      {
        assert blocks[..j + 1][..j] == blocks[..j];
        if blocks[j].ToolCall? && blocks[j].tool.ManageTasks? && blocks[j].tool.args.Some? {
          tasks := ApplyManageTasks(tasks, blocks[j].tool.args.value);
        }
      }
      assert blocks[..|blocks|] == blocks;
    }
    assert turns[..|turns|] == turns;
  }
}
