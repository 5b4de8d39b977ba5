/** The compaction governor: when a context fold is armed, issued, resumed and
    cancelled. The state is the closure of the original, grouped by what its
    variables are for; each member function is one of its inner functions. */
module Compaction {
  import opened Common
  import opened Text
  import opened Reactor

  const MIN_TURNS_TO_COMPACT: nat := 1
  const MAX_OVERFLOW_RECOVERIES: nat := 2
  const MAX_CONSECUTIVE_THRESHOLD_COMPACTS: nat := 2

  /** A turn list as the governor sees it: how many turns, how many tokens estimated. */
  datatype Turns = Turns(count: nat, tokens: nat)

  /** What the context-window tables say about the current model at the time of
      a call: the fold threshold, the wide resume delta, the window and the
      completion reservation. Any numbers at all. */
  datatype Limits = Limits(threshold: int, wideDelta: int, window: int, reserved: int)

  datatype Event =
    | ToolDone
    | Message(content: string)
    | InferenceDone(reportedTokens: int, markerEcho: bool)
    | InferenceError(overflow: bool)
    | OtherEvent

  /** A fold: the actions kept from the cycle it interrupts, and its reason. */
  datatype Fold = Fold(kept: seq<Action>, reason: Reason)

  datatype ResumeKind = ResumeInfer | ResumeMeter

  datatype ManualArming = Kick | Armed | Noop

  /** What waits for a fold: the threshold arming, the idle slot, an operator
      request, its instructions, and the snapshot a cancelled handoff restores. */
  datatype Arms = Arms(
    pending: bool,
    idle: bool,
    manual: bool,
    instructions: Option<string>,
    idleAtHandoff: bool,
    instructionsAtHandoff: Option<string>)
  {
    function Cleared(): Arms {
      this.(manual := false, idle := false, pending := false)
    }
  }

  /** What keeps folding finite. */
  datatype Rails = Rails(
    overflowRecoveries: nat,
    thresholdCompacts: nat,
    tokensAtLastCompact: Option<int>,
    awaitingMeasurement: bool,
    nonConverged: bool)
  {
    /** What holds of the rails whatever is called: neither is ever overspent. */
    predicate WithinCaps() {
      && thresholdCompacts <= MAX_CONSECUTIVE_THRESHOLD_COMPACTS
      && overflowRecoveries <= MAX_OVERFLOW_RECOVERIES
    }

    predicate AtCap() {
      thresholdCompacts >= MAX_CONSECUTIVE_THRESHOLD_COMPACTS
    }

    function AfterCompact(): Rails {
      this.(awaitingMeasurement := true)
    }

    function AfterThresholdCompact(): Rails {
      this.(thresholdCompacts := thresholdCompacts + 1, awaitingMeasurement := true)
    }

    function AfterOverflow(): Rails {
      this.(overflowRecoveries := overflowRecoveries + 1, awaitingMeasurement := true)
    }

    /** The first measurement after a fold is remembered; one still over the
        threshold spends the cap. */
    function Measured(contextTokens: int, limits: Limits): Rails {
      if !awaitingMeasurement then this
      else if contextTokens <= limits.threshold then
        this.(tokensAtLastCompact := Some(contextTokens), awaitingMeasurement := false)
      else
        this.(tokensAtLastCompact := Some(contextTokens), awaitingMeasurement := false,
              nonConverged := true, thresholdCompacts := MAX_CONSECUTIVE_THRESHOLD_COMPACTS)
    }

    /** A measurement at or under the threshold restores both rails. */
    function Restored(contextTokens: int, limits: Limits): Rails {
      if contextTokens > limits.threshold then this
      else this.(thresholdCompacts := 0, overflowRecoveries := 0, nonConverged := false)
    }
  }

  /** The continuation the host still owes an answer for. */
  datatype Debts = Debts(infer: bool, meter: bool)
  {
    predicate Outstanding() {
      infer || meter
    }

    /** A raced message is answered after the fold; an empty one only meters. */
    function Owing(content: string): Debts {
      if |content| > 0 then this.(infer := true) else this.(meter := true)
    }
  }

  /** How full the context is believed to be. */
  datatype Gauge = Gauge(usingEstimate: bool, reported: int, turnCount: nat, estimated: nat)
  {
    function Synced(turns: Turns): Gauge {
      this.(turnCount := turns.count, estimated := turns.tokens)
    }

    predicate HasTurnsToFold() {
      turnCount > MIN_TURNS_TO_COMPACT
    }

    /** Past the threshold and, after a fold, past its measurement by the wide gap. */
    predicate IsOverThreshold(contextTokens: int, rails: Rails, limits: Limits) {
      && HasTurnsToFold()
      && contextTokens > limits.threshold
      && (rails.tokensAtLastCompact.Some? ==> contextTokens >= rails.tokensAtLastCompact.value + limits.wideDelta)
    }

    function OccupancyTokens(): int {
      if usingEstimate || reported <= estimated then estimated else reported
    }

    predicate WouldExceedWindow(limits: Limits) {
      && HasTurnsToFold()
      && OccupancyTokens() + (if limits.reserved > 0 then limits.reserved else 0) >= limits.window
    }
  }

  predicate IsMarkerEchoTerminal(event: Event, actions: seq<Action>) {
    || (event.InferenceDone? && event.markerEcho)
    || exists i :: 0 <= i < |actions| && actions[i].Reply? && actions[i].markerEcho
  }

  /** The turn ends without follow-up work. */
  predicate EndsIdle(actions: seq<Action>) {
    && HasTerminal(actions)
    && forall i :: 0 <= i < |actions| ==> !actions[i].Infer? && !actions[i].ExecuteTools?
  }

  /** `hostClosure` says that a host closure drives the re-entry; `hostKicks`
      counts its calls. */
  datatype Governor = Governor(
    hostClosure: bool,
    hostKicks: nat,
    arms: Arms,
    rails: Rails,
    debts: Debts,
    gauge: Gauge)
  {
    // --------------------------------------------------------- measuring

    function SyncFromTurns(turns: Turns): Governor {
      this.(gauge := gauge.Synced(turns))
    }

    function NoteInferenceDone(reportedTokens: int, turns: Turns, limits: Limits): Governor {
      var read := Gauge(reportedTokens <= 0, reportedTokens, turns.count, turns.tokens);
      var contextTokens := ContextTokens(reportedTokens, turns);
      var railed := rails.Measured(contextTokens, limits).Restored(contextTokens, limits);
      this.(gauge := read, rails := railed,
            arms := arms.(pending := read.IsOverThreshold(contextTokens, railed, limits)))
    }

    // ------------------------------------------------------ issuing folds

    /** A fold always asks for a re-entry, by the host closure or by an action. */
    function KicksAfterCall(): nat {
      if hostClosure then hostKicks + 1 else hostKicks
    }

    function FoldActions(fold: Fold): seq<Action> {
      fold.kept + [Compact(fold.reason)] + if hostClosure then [] else [ContinueAfterCompact]
    }

    /** Every fold spends whatever was armed and leaves a continuation owed. */
    function Issue(railed: Rails, owed: Debts): Governor {
      Governor(hostClosure, KicksAfterCall(), arms.Cleared(), railed, owed, gauge)
    }

    function PreflightInfer(limits: Limits): (Governor, Option<Fold>) {
      if arms.manual || rails.AtCap() || !gauge.WouldExceedWindow(limits) then (this, None)
      else (Issue(rails.AfterThresholdCompact(), debts.(infer := true)), Some(Fold([], Threshold)))
    }

    predicate WantsFold(limits: Limits) {
      || arms.manual
      || arms.pending
      || gauge.WouldExceedWindow(limits)
      || (gauge.usingEstimate && gauge.IsOverThreshold(gauge.estimated, rails, limits))
    }

    predicate Intercepts(event: Event, actions: seq<Action>, limits: Limits) {
      && (event.ToolDone? || event.Message?)
      && WantsFold(limits)
      && HasInfer(actions)
      && (arms.manual || !rails.AtCap())
    }

    function InterceptActions(event: Event, actions: seq<Action>, limits: Limits): (Governor, Option<Fold>) {
      if !Intercepts(event, actions, limits) then (this, None)
      else if arms.manual then
        (Issue(rails.AfterCompact(), debts.(infer := true)), Some(Fold(WithoutInfer(actions), Operator)))
      else (Issue(rails.AfterThresholdCompact(), debts.(infer := true)), Some(Fold(WithoutInfer(actions), Threshold)))
    }

    predicate ArmsIdle(event: Event, actions: seq<Action>) {
      && !arms.idle
      && (arms.manual || (arms.pending && !rails.AtCap()))
      && event.InferenceDone?
      && !IsMarkerEchoTerminal(event, actions)
      && EndsIdle(actions)
    }

    /** Also whether the caller must append the re-entry action. */
    function NoteIdleTurn(event: Event, actions: seq<Action>): (Governor, bool) {
      if !ArmsIdle(event, actions) then (this, false)
      else (this.(arms := arms.(idle := true), hostKicks := KicksAfterCall()), !hostClosure)
    }

    function InterceptIdleContinuation(event: Event): (Governor, Option<Fold>) {
      if !event.Message? || !arms.idle then (this, None)
      else if arms.manual then (Issue(rails.AfterCompact(), debts.Owing(event.content)), Some(Fold([], Operator)))
      else if rails.AtCap() then (this.(arms := arms.(idle := false)), None)
      else (Issue(rails.AfterThresholdCompact(), debts.Owing(event.content)), Some(Fold([], Threshold)))
    }

    function InterceptOverflow(event: Event): (Governor, Option<Fold>) {
      if !event.InferenceError? || !event.overflow || rails.overflowRecoveries >= MAX_OVERFLOW_RECOVERIES then
        (this, None)
      else (Issue(rails.AfterOverflow(), debts.(infer := true)), Some(Fold([], Overflow)))
    }

    // ------------------------------------------------ answering the re-entry

    function NoteKeptPrior(): Governor {
      this.(debts := Debts(false, false))
    }

    function ResumeAfterCompact(event: Event): (Governor, Option<ResumeKind>) {
      if !event.Message? || |event.content| > 0 then (this, None)
      else if debts.infer then (this.(debts := debts.(infer := false)), Some(ResumeInfer))
      else if debts.meter then (this.(debts := debts.(meter := false)), Some(ResumeMeter))
      else (this, None)
    }

    function NotePostCompact(turns: Turns): Governor {
      this.(gauge := gauge.Synced(turns).(usingEstimate := true))
    }

    // ------------------------------------------------- operator requests

    /** New instructions replace the sticky ones; blank ones leave them. */
    function Told(instructions: string): Arms {
      var trimmed := Trim(instructions);
      if trimmed != "" then arms.(instructions := Some(trimmed)) else arms
    }

    function ArmManual(inFlight: bool): (Governor, ManualArming) {
      if inFlight || arms.idle then (this.(arms := arms.(manual := true)), Armed)
      else
        (this.(arms := arms.(manual := true, idle := true), hostKicks := KicksAfterCall()),
         if hostClosure then Armed else Kick)
    }

    function RequestManual(instructions: string, inFlight: bool, turns: Option<Turns>): (Governor, ManualArming) {
      var synced := if turns.Some? then SyncFromTurns(turns.value) else this;
      if !synced.gauge.HasTurnsToFold() then (synced, Noop)
      else
        var told := synced.(arms := Told(instructions));
        if told.debts.Outstanding() then (told, Armed) else told.ArmManual(inFlight)
    }

    function RestoreExtraInstructions(value: Option<string>): Governor {
      if value.None? then this else this.(arms := Told(value.value))
    }

    /** A handoff replaces the instructions and remembers what a cancel brings
        back, unless an uncommitted request is already armed. */
    function Pivoted(instructions: string): Arms {
      var trimmed := Trim(instructions);
      Arms(arms.pending, true, true, if trimmed != "" then Some(trimmed) else None,
           if arms.manual then arms.idleAtHandoff else arms.idle,
           if arms.manual then arms.instructionsAtHandoff else arms.instructions)
    }

    function RequestHandoff(instructions: string): (Governor, ManualArming) {
      if !gauge.HasTurnsToFold() then (this, Noop)
      else (this.(arms := Pivoted(instructions), hostKicks := KicksAfterCall()), Armed)
    }

    function CancelManual(): Governor {
      if !arms.manual then this
      else
        this.(arms := arms.(manual := false, idle := arms.idleAtHandoff,
                            instructions := arms.instructionsAtHandoff))
    }
  }

  /** Reported usage wins; without it the estimate of the turns stands in. */
  function ContextTokens(reportedTokens: int, turns: Turns): int {
    if reportedTokens <= 0 then turns.tokens else reportedTokens
  }

  function FreshGovernor(hostClosure: bool, overheadTokens: nat): Governor {
    Governor(hostClosure, 0,
             Arms(false, false, false, None, false, None),
             Rails(0, 0, None, false, false),
             Debts(false, false),
             Gauge(false, 0, 0, overheadTokens))
  }
}
