/** The governor in the form the program keeps it: variables that every call
    updates in place. Each method is proved to do what the specification in
    `Compaction` says of the state as a value. */
module CompactionGovernor {
  import opened Common
  import opened Text
  import opened Reactor
  import opened Compaction

  class LiveGovernor {
    const hostClosure: bool
    var hostKicks: nat
    var pending: bool
    var idlePending: bool
    var manualPending: bool
    var extraInstructions: Option<string>
    var idlePendingAtHandoff: bool
    var extraInstructionsAtHandoff: Option<string>
    var postCompactInfer: bool
    var postCompactMeter: bool
    var overflowRecoveries: nat
    var consecutiveThresholdCompacts: nat
    var usingEstimate: bool
    var lastReportedTokens: int
    var turnCount: nat
    var estimatedTokens: nat
    var tokensAtLastCompact: Option<int>
    var awaitingPostCompactMeasurement: bool
    var foldNonConverged: bool

    ghost function View(): Governor
      reads this
    {
      Governor(hostClosure, hostKicks,
               Arms(pending, idlePending, manualPending, extraInstructions,
                    idlePendingAtHandoff, extraInstructionsAtHandoff),
               Rails(overflowRecoveries, consecutiveThresholdCompacts, tokensAtLastCompact,
                     awaitingPostCompactMeasurement, foldNonConverged),
               Debts(postCompactInfer, postCompactMeter),
               Gauge(usingEstimate, lastReportedTokens, turnCount, estimatedTokens))
    }

    /** Neither rail is ever overspent. */
    ghost predicate Valid()
      reads this
    {
      && consecutiveThresholdCompacts <= MAX_CONSECUTIVE_THRESHOLD_COMPACTS
      && overflowRecoveries <= MAX_OVERFLOW_RECOVERIES
    }

    constructor (hostClosure: bool, overheadTokens: nat)
      ensures Valid()
      ensures View() == FreshGovernor(hostClosure, overheadTokens)
    {
      this.hostClosure, hostKicks := hostClosure, 0;
      pending, idlePending, manualPending, extraInstructions := false, false, false, None;
      idlePendingAtHandoff, extraInstructionsAtHandoff := false, None;
      postCompactInfer, postCompactMeter := false, false;
      overflowRecoveries, consecutiveThresholdCompacts := 0, 0;
      usingEstimate, lastReportedTokens, turnCount, estimatedTokens := false, 0, 0, overheadTokens;
      tokensAtLastCompact, awaitingPostCompactMeasurement, foldNonConverged := None, false, false;
    }

    method SyncFromTurns(turns: Turns)
      requires Valid()
      modifies this`turnCount, this`estimatedTokens
      ensures Valid()
      ensures View() == old(View()).SyncFromTurns(turns)
    {
      turnCount := turns.count;
      estimatedTokens := turns.tokens;
    }

    method IsOverThreshold(contextTokens: int, limits: Limits) returns (over: bool)
      ensures over == View().gauge.IsOverThreshold(contextTokens, View().rails, limits)
    {
      if turnCount <= MIN_TURNS_TO_COMPACT {
        return false;
      }
      if contextTokens <= limits.threshold {
        return false;
      }
      if tokensAtLastCompact.Some? {
        return contextTokens >= tokensAtLastCompact.value + limits.wideDelta;
      }
      return true;
    }

    method OccupancyTokens() returns (tokens: int)
      ensures tokens == View().gauge.OccupancyTokens()
    {
      if usingEstimate || lastReportedTokens <= 0 {
        return estimatedTokens;
      }
      return if lastReportedTokens >= estimatedTokens then lastReportedTokens else estimatedTokens;
    }

    method WouldExceedWindow(limits: Limits) returns (exceeds: bool)
      ensures exceeds == View().gauge.WouldExceedWindow(limits)
    {
      if turnCount <= MIN_TURNS_TO_COMPACT {
        return false;
      }
      var occupied := OccupancyTokens();
      var reserved := if limits.reserved > 0 then limits.reserved else 0;
      return occupied + reserved >= limits.window;
    }

    predicate AtThresholdCompactCap()
      reads this
    {
      consecutiveThresholdCompacts >= MAX_CONSECUTIVE_THRESHOLD_COMPACTS
    }

    method IssueThresholdCompact()
      requires Valid() && !AtThresholdCompactCap()
      modifies this`consecutiveThresholdCompacts, this`awaitingPostCompactMeasurement
      ensures Valid()
      ensures View() == old(View()).(rails := old(View()).rails.AfterThresholdCompact())
    {
      consecutiveThresholdCompacts := consecutiveThresholdCompacts + 1;
      awaitingPostCompactMeasurement := true;
    }

    method ClearManualArming()
      requires Valid()
      modifies this`manualPending, this`idlePending, this`pending
      ensures Valid()
      ensures View() == old(View()).(arms := old(View()).arms.Cleared())
    {
      manualPending := false;
      idlePending := false;
      pending := false;
    }

    /** Calls the host closure if there is one; else hands back the re-entry action. */
    method ContinuationActions() returns (actions: seq<Action>)
      requires Valid()
      modifies this`hostKicks
      ensures Valid()
      ensures View() == old(View()).(hostKicks := old(View()).KicksAfterCall())
      ensures actions == if hostClosure then [] else [ContinueAfterCompact]
    {
      if hostClosure {
        hostKicks := hostKicks + 1;
        return [];
      }
      return [ContinueAfterCompact];
    }

    method ReadGauge(reportedTokens: int, turns: Turns)
      requires Valid()
      modifies this`turnCount, this`estimatedTokens, this`usingEstimate, this`lastReportedTokens
      ensures Valid()
      ensures View() == old(View()).(gauge := Gauge(reportedTokens <= 0, reportedTokens, turns.count, turns.tokens))
    {
      SyncFromTurns(turns);
      usingEstimate := reportedTokens <= 0;
      lastReportedTokens := reportedTokens;
    }

    method UpdateRails(contextTokens: int, limits: Limits)
      requires Valid()
      modifies this`tokensAtLastCompact, this`awaitingPostCompactMeasurement, this`foldNonConverged
      modifies this`consecutiveThresholdCompacts, this`overflowRecoveries
      ensures Valid()
      ensures var rails := old(View()).rails;
        View() == old(View()).(rails := rails.Measured(contextTokens, limits).Restored(contextTokens, limits))
    {
      if awaitingPostCompactMeasurement {
        tokensAtLastCompact := Some(contextTokens);
        awaitingPostCompactMeasurement := false;
        if contextTokens > limits.threshold {
          foldNonConverged := true;
          consecutiveThresholdCompacts := MAX_CONSECUTIVE_THRESHOLD_COMPACTS;
        }
      }
      if contextTokens <= limits.threshold {
        consecutiveThresholdCompacts := 0;
        overflowRecoveries := 0;
        foldNonConverged := false;
      }
    }

    method NoteInferenceDone(reportedTokens: int, turns: Turns, limits: Limits)
      requires Valid()
      modifies this`turnCount, this`estimatedTokens, this`usingEstimate, this`lastReportedTokens
      modifies this`tokensAtLastCompact, this`awaitingPostCompactMeasurement, this`foldNonConverged
      modifies this`consecutiveThresholdCompacts, this`overflowRecoveries, this`pending
      ensures Valid()
      ensures View() == old(View()).NoteInferenceDone(reportedTokens, turns, limits)
    {
      ReadGauge(reportedTokens, turns);
      var contextTokens := if usingEstimate then estimatedTokens else reportedTokens;
      UpdateRails(contextTokens, limits);
      pending := IsOverThreshold(contextTokens, limits);
    }

    /** The actions of a fold that the specification issues, if it issues one. */
    static ghost function Told(before: Governor, fold: Option<Fold>): Option<seq<Action>> {
      if fold.None? then None else Some(before.FoldActions(fold.value))
    }

    method PreflightInfer(limits: Limits) returns (folded: Option<seq<Action>>)
      requires Valid()
      modifies this`manualPending, this`idlePending, this`pending, this`postCompactInfer
      modifies this`consecutiveThresholdCompacts, this`awaitingPostCompactMeasurement, this`hostKicks
      ensures Valid()
      ensures View() == old(View()).PreflightInfer(limits).0
      ensures folded == Told(old(View()), old(View()).PreflightInfer(limits).1)
    {
      if manualPending || AtThresholdCompactCap() {
        return None;
      }
      var exceeds := WouldExceedWindow(limits);
      if turnCount <= MIN_TURNS_TO_COMPACT || !exceeds {
        return None;
      }
      ClearManualArming();
      postCompactInfer := true;
      IssueThresholdCompact();
      var continuation := ContinuationActions();
      assert [] + [Compact(Threshold)] == [Compact(Threshold)];
      return Some([Compact(Threshold)] + continuation);
    }

    method WantsFold(limits: Limits) returns (wants: bool)
      ensures wants == View().WantsFold(limits)
    {
      var hard := WouldExceedWindow(limits);
      var over := IsOverThreshold(estimatedTokens, limits);
      return manualPending || pending || hard || (usingEstimate && over);
    }

    /** The fold at a tool pause or before a message is answered. */
    method IssuePausedFold(operator: bool, kept: seq<Action>) returns (folded: seq<Action>)
      requires Valid() && (operator || !AtThresholdCompactCap())
      modifies this`manualPending, this`idlePending, this`pending, this`postCompactInfer
      modifies this`consecutiveThresholdCompacts, this`awaitingPostCompactMeasurement, this`hostKicks
      ensures Valid()
      ensures var railed := if operator then old(View()).rails.AfterCompact() else old(View()).rails.AfterThresholdCompact();
        View() == old(View()).Issue(railed, old(View()).debts.(infer := true))
      ensures folded == old(View()).FoldActions(Fold(kept, if operator then Operator else Threshold))
    {
      ClearManualArming();
      postCompactInfer := true;
      if operator {
        awaitingPostCompactMeasurement := true;
      } else {
        IssueThresholdCompact();
      }
      var continuation := ContinuationActions();
      return kept + [Compact(if operator then Operator else Threshold)] + continuation;
    }

    method InterceptActions(event: Event, actions: seq<Action>, limits: Limits) returns (folded: Option<seq<Action>>)
      requires Valid()
      modifies this`manualPending, this`idlePending, this`pending, this`postCompactInfer
      modifies this`consecutiveThresholdCompacts, this`awaitingPostCompactMeasurement, this`hostKicks
      ensures Valid()
      ensures View() == old(View()).InterceptActions(event, actions, limits).0
      ensures folded == Told(old(View()), old(View()).InterceptActions(event, actions, limits).1)
    {
      if !event.ToolDone? && !event.Message? {
        return None;
      }
      var operator := manualPending;
      var wanted := WantsFold(limits);
      if !wanted {
        return None;
      }
      if !HasInfer(actions) {
        return None;
      }
      if !operator && AtThresholdCompactCap() {
        return None;
      }
      var issued := IssuePausedFold(operator, WithoutInfer(actions));
      return Some(issued);
    }

    method NoteIdleTurn(event: Event, actions: seq<Action>) returns (newlyArmed: bool)
      requires Valid()
      modifies this`idlePending, this`hostKicks
      ensures Valid()
      ensures View() == old(View()).NoteIdleTurn(event, actions).0
      ensures newlyArmed == old(View()).NoteIdleTurn(event, actions).1
    {
      if idlePending {
        return false;
      }
      var operator := manualPending;
      if !operator && !pending {
        return false;
      }
      if !operator && AtThresholdCompactCap() {
        return false;
      }
      if !event.InferenceDone? || IsMarkerEchoTerminal(event, actions) || !EndsIdle(actions) {
        return false;
      }
      idlePending := true;
      var continuation := ContinuationActions();
      return continuation != [];
    }

    /** The fold on the re-entry of an idle session. */
    method IssueIdleFold(operator: bool, content: string) returns (folded: seq<Action>)
      requires Valid() && (operator || !AtThresholdCompactCap())
      modifies this`manualPending, this`idlePending, this`pending, this`postCompactInfer, this`postCompactMeter
      modifies this`consecutiveThresholdCompacts, this`awaitingPostCompactMeasurement, this`hostKicks
      ensures Valid()
      ensures var railed := if operator then old(View()).rails.AfterCompact() else old(View()).rails.AfterThresholdCompact();
        View() == old(View()).Issue(railed, old(View()).debts.Owing(content))
      ensures folded == old(View()).FoldActions(Fold([], if operator then Operator else Threshold))
    {
      ClearManualArming();
      if |content| > 0 {
        postCompactInfer := true;
      } else {
        postCompactMeter := true;
      }
      if operator {
        awaitingPostCompactMeasurement := true;
      } else {
        IssueThresholdCompact();
      }
      var continuation := ContinuationActions();
      return [Compact(if operator then Operator else Threshold)] + continuation;
    }

    method InterceptIdleContinuation(event: Event) returns (folded: Option<seq<Action>>)
      requires Valid()
      modifies this`manualPending, this`idlePending, this`pending, this`postCompactInfer, this`postCompactMeter
      modifies this`consecutiveThresholdCompacts, this`awaitingPostCompactMeasurement, this`hostKicks
      ensures Valid()
      ensures View() == old(View()).InterceptIdleContinuation(event).0
      ensures folded == Told(old(View()), old(View()).InterceptIdleContinuation(event).1)
    {
      if !event.Message? || !idlePending {
        return None;
      }
      if !manualPending && AtThresholdCompactCap() {
        idlePending := false;
        return None;
      }
      var actions := IssueIdleFold(manualPending, event.content);
      return Some(actions);
    }

    method InterceptOverflow(event: Event) returns (folded: Option<seq<Action>>)
      requires Valid()
      modifies this`overflowRecoveries, this`manualPending, this`idlePending, this`pending, this`postCompactInfer
      modifies this`awaitingPostCompactMeasurement, this`hostKicks
      ensures Valid()
      ensures View() == old(View()).InterceptOverflow(event).0
      ensures folded == Told(old(View()), old(View()).InterceptOverflow(event).1)
    {
      if !event.InferenceError? || !event.overflow {
        return None;
      }
      if overflowRecoveries >= MAX_OVERFLOW_RECOVERIES {
        return None;
      }
      overflowRecoveries := overflowRecoveries + 1;
      ClearManualArming();
      postCompactInfer := true;
      awaitingPostCompactMeasurement := true;
      var continuation := ContinuationActions();
      assert [] + [Compact(Overflow)] == [Compact(Overflow)];
      return Some([Compact(Overflow)] + continuation);
    }

    method NoteKeptPrior()
      requires Valid()
      modifies this`postCompactInfer, this`postCompactMeter
      ensures Valid()
      ensures View() == old(View()).NoteKeptPrior()
    {
      postCompactInfer := false;
      postCompactMeter := false;
    }

    method ResumeAfterCompact(event: Event) returns (kind: Option<ResumeKind>)
      requires Valid()
      modifies this`postCompactInfer, this`postCompactMeter
      ensures Valid()
      ensures View() == old(View()).ResumeAfterCompact(event).0
      ensures kind == old(View()).ResumeAfterCompact(event).1
    {
      if !event.Message? || |event.content| > 0 {
        return None;
      }
      if postCompactInfer {
        postCompactInfer := false;
        return Some(ResumeInfer);
      }
      if postCompactMeter {
        postCompactMeter := false;
        return Some(ResumeMeter);
      }
      return None;
    }

    method NotePostCompact(turns: Turns)
      requires Valid()
      modifies this`turnCount, this`estimatedTokens, this`usingEstimate
      ensures Valid()
      ensures View() == old(View()).NotePostCompact(turns)
    {
      SyncFromTurns(turns);
      usingEstimate := true;
    }

    predicate HasOutstandingContinuation()
      reads this
    {
      postCompactInfer || postCompactMeter
    }

    method RequestManual(instructions: string, inFlight: bool, turns: Option<Turns>) returns (arming: ManualArming)
      requires Valid()
      modifies this`turnCount, this`estimatedTokens, this`extraInstructions, this`manualPending, this`idlePending, this`hostKicks
      ensures Valid()
      ensures View() == old(View()).RequestManual(instructions, inFlight, turns).0
      ensures arming == old(View()).RequestManual(instructions, inFlight, turns).1
    {
      if turns.Some? {
        SyncFromTurns(turns.value);
      }
      if turnCount <= MIN_TURNS_TO_COMPACT {
        return Noop;
      }
      TakeInstructions(instructions);
      if HasOutstandingContinuation() {
        return Armed;
      }
      arming := ArmManual(inFlight);
    }

    /** Blank instructions leave the sticky ones. */
    method TakeInstructions(instructions: string)
      requires Valid()
      modifies this`extraInstructions
      ensures Valid()
      ensures View() == old(View()).(arms := old(View()).Told(instructions))
    {
      var trimmed := Trim(instructions);
      if |trimmed| > 0 {
        extraInstructions := Some(trimmed);
      }
    }

    method ArmManual(inFlight: bool) returns (arming: ManualArming)
      requires Valid()
      modifies this`manualPending, this`idlePending, this`hostKicks
      ensures Valid()
      ensures (View(), arming) == old(View()).ArmManual(inFlight)
    {
      manualPending := true;
      if inFlight || idlePending {
        return Armed;
      }
      idlePending := true;
      if hostClosure {
        hostKicks := hostKicks + 1;
        return Armed;
      }
      return Kick;
    }

    method RestoreExtraInstructions(value: Option<string>)
      requires Valid()
      modifies this`extraInstructions
      ensures Valid()
      ensures View() == old(View()).RestoreExtraInstructions(value)
    {
      if value.None? || Trim(value.value) == "" {
        return;
      }
      extraInstructions := Some(Trim(value.value));
    }

    method RequestHandoff(instructions: string) returns (arming: ManualArming)
      requires Valid()
      modifies this`idlePendingAtHandoff, this`extraInstructionsAtHandoff, this`extraInstructions
      modifies this`manualPending, this`idlePending, this`hostKicks
      ensures Valid()
      ensures View() == old(View()).RequestHandoff(instructions).0
      ensures arming == old(View()).RequestHandoff(instructions).1
    {
      if turnCount <= MIN_TURNS_TO_COMPACT {
        return Noop;
      }
      Pivot(instructions);
      if hostClosure {
        hostKicks := hostKicks + 1;
      }
      return Armed;
    }

    /** The handoff's instructions, and the snapshot a cancel brings back. */
    method Pivot(instructions: string)
      requires Valid()
      modifies this`idlePendingAtHandoff, this`extraInstructionsAtHandoff, this`extraInstructions
      modifies this`manualPending, this`idlePending
      ensures Valid()
      ensures View() == old(View()).(arms := old(View()).Pivoted(instructions))
    {
      if !manualPending {
        idlePendingAtHandoff := idlePending;
        extraInstructionsAtHandoff := extraInstructions;
      }
      var trimmed := Trim(instructions);
      extraInstructions := if |trimmed| > 0 then Some(trimmed) else None;
      manualPending := true;
      idlePending := true;
    }

    method CancelManual()
      requires Valid()
      modifies this`manualPending, this`idlePending, this`pending, this`extraInstructions
      ensures Valid()
      ensures View() == old(View()).CancelManual()
    {
      if !manualPending {
        return;
      }
      var thresholdPending := pending;
      ClearManualArming();
      pending := thresholdPending;
      idlePending := idlePendingAtHandoff;
      extraInstructions := extraInstructionsAtHandoff;
    }
  }
}
