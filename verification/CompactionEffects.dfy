/** What each call on the governor changes, field by field and in numbers: what
    arms a fold, which calls fold and why, and what a fold leaves behind. */
module CompactionEffects {
  import opened Common
  import opened Text
  import opened Reactor
  import opened Compaction
  import opened CompactionRuns

  // ------------------------------------------------- measurements and folds

  /** More than one turn, more tokens than the threshold and, after a measured
      fold, at least the wide gap above that measurement. */
  predicate Over(turns: nat, tokens: int, mark: Option<int>, limits: Limits) {
    turns > 1 && tokens > limits.threshold && (mark.Some? ==> tokens >= mark.value + limits.wideDelta)
  }

  /** What is believed to be in the context, the larger of usage and estimate. */
  function Occupied(g: Governor): int {
    if !g.gauge.usingEstimate && g.gauge.reported > g.gauge.estimated then g.gauge.reported else g.gauge.estimated
  }

  /** With more than one turn, the next completion may not fit the window. */
  predicate Full(g: Governor, limits: Limits) {
    g.gauge.turnCount > 1 && (Occupied(g) >= limits.window || Occupied(g) + limits.reserved >= limits.window)
  }

  /** Something automatic asks for a fold: the last measurement, the window, or,
      for want of reported usage, the live estimate. */
  predicate Pressed(g: Governor, limits: Limits) {
    || g.arms.pending || Full(g, limits)
    || (g.gauge.usingEstimate && Over(g.gauge.turnCount, g.gauge.estimated, g.rails.tokensAtLastCompact, limits))
  }

  predicate BelowCap(g: Governor) {
    g.rails.thresholdCompacts < 2
  }

  /** A tool pause or a message before an inference. */
  predicate BeforeInfer(event: Event, actions: seq<Action>) {
    (event.ToolDone? || event.Message?) && exists i :: 0 <= i < |actions| && actions[i].Infer?
  }

  /** The fold a call issues, by its reason. */
  function FoldOf(g: Governor, call: Call): Option<Reason> {
    match call
    case Intercept(event, actions, limits) =>
      if !BeforeInfer(event, actions) then None
      else if g.arms.manual then Some(Operator)
      else if BelowCap(g) && Pressed(g, limits) then Some(Threshold) else None
    case Preflight(limits) => if !g.arms.manual && BelowCap(g) && Full(g, limits) then Some(Threshold) else None
    case IdleContinuation(event) =>
      if !event.Message? || !g.arms.idle then None
      else if g.arms.manual then Some(Operator)
      else if BelowCap(g) then Some(Threshold) else None
    case OverflowError(event) =>
      if event == InferenceError(true) && g.rails.overflowRecoveries < 2 then Some(Overflow) else None
    case _ => None
  }

  /** Usage if the provider reports any, else the estimate. */
  function Counted(call: Call): int
    requires call.Measure?
  {
    if call.reportedTokens > 0 then call.reportedTokens else call.turns.tokens
  }

  /** The measurement after the latest measured fold, this one included. */
  function MarkAfter(g: Governor, call: Call): Option<int> {
    if call.Measure? && g.rails.awaitingMeasurement then Some(Counted(call)) else g.rails.tokensAtLastCompact
  }

  /** The verdict of a measurement. */
  predicate Arms(g: Governor, call: Call)
    requires call.Measure?
  {
    Over(call.turns.count, Counted(call), MarkAfter(g, call), call.limits)
  }

  /** The turn count once the call has brought the estimate up to date. */
  function TurnsAt(g: Governor, call: Call): nat {
    if call.Manual? && call.given.Some? then call.given.value.count else g.gauge.turnCount
  }

  /** A compact request with something to fold. */
  predicate AsksManual(g: Governor, call: Call) {
    call.Manual? && TurnsAt(g, call) > 1
  }

  /** It arms an operator fold, unless a fold is already on its way. */
  predicate ArmsManual(g: Governor, call: Call) {
    AsksManual(g, call) && !g.debts.infer && !g.debts.meter
  }

  predicate ArmsHandoff(g: Governor, call: Call) {
    call.Handoff? && g.gauge.turnCount > 1
  }

  /** The turn ended, neither its event nor a reply is a marker echo, nothing
      follows it, and a fold is armed and free to come. */
  predicate ArmsIdleTurn(g: Governor, call: Call) {
    && call.IdleTurn? && !g.arms.idle && (g.arms.manual || (g.arms.pending && BelowCap(g)))
    && call.event.InferenceDone? && !call.event.markerEcho && EndsQuietly(call.actions)
  }

  /** Some action ends the cycle, none goes on, and no reply echoes the marker. */
  predicate EndsQuietly(actions: seq<Action>) {
    && (exists i :: 0 <= i < |actions| && (actions[i].Reply? || actions[i].Wait?))
    && (forall i :: 0 <= i < |actions| ==>
          !actions[i].Infer? && !actions[i].ExecuteTools? && !(actions[i].Reply? && actions[i].markerEcho))
  }

  /** An idle fold whose time has come finds the cap reached. */
  predicate DisarmsIdle(g: Governor, call: Call) {
    call.IdleContinuation? && call.event.Message? && g.arms.idle && !g.arms.manual && !BelowCap(g)
  }

  // ------------------------------------------------ field by field

  predicate ArmsAfter(g: Governor, call: Call, t: Governor) {
    var folds := FoldOf(g, call).Some?;
    && t.arms.pending == (if call.Measure? then Arms(g, call) else g.arms.pending && !folds)
    && t.arms.manual == ((g.arms.manual && !folds && !call.Cancel?) || ArmsManual(g, call) || ArmsHandoff(g, call))
    && t.arms.idle == (if call.Cancel? && g.arms.manual then g.arms.idleAtHandoff
                       else (g.arms.idle && !folds && !DisarmsIdle(g, call))
                            || (ArmsManual(g, call) && !call.inFlight) || ArmsHandoff(g, call) || ArmsIdleTurn(g, call))
  }

  /** New instructions stick when they are not blank; a handoff starts over with
      its own, and a cancel brings back those of before the handoff. */
  predicate InstructionsAfter(g: Governor, call: Call, t: Governor) {
    && t.arms.instructions == (if call.Cancel? && g.arms.manual then g.arms.instructionsAtHandoff
                               else if Given(g, call).Some? && Given(g, call).value != "" then Given(g, call)
                               else if ArmsHandoff(g, call) then None
                               else g.arms.instructions)
    && (var snapshot := ArmsHandoff(g, call) && !g.arms.manual;
        && t.arms.idleAtHandoff == (if snapshot then g.arms.idle else g.arms.idleAtHandoff)
        && t.arms.instructionsAtHandoff == (if snapshot then g.arms.instructions else g.arms.instructionsAtHandoff))
  }

  /** The instructions a call gives, trimmed. */
  function Given(g: Governor, call: Call): Option<string> {
    if AsksManual(g, call) || ArmsHandoff(g, call) then Some(Trim(call.instructions))
    else if call.RestoreExtras? && call.value.Some? then Some(Trim(call.value.value))
    else None
  }

  /** The first measurement after a fold is the mark. Over the threshold it spends
      the cap and is reported; any measurement at or under the threshold gives
      both rails back. */
  predicate RailsAfter(g: Governor, call: Call, t: Governor) {
    var under := call.Measure? && Counted(call) <= call.limits.threshold;
    var diverges := call.Measure? && g.rails.awaitingMeasurement && !under;
    && t.rails.tokensAtLastCompact == MarkAfter(g, call)
    && t.rails.awaitingMeasurement == (FoldOf(g, call).Some? || (g.rails.awaitingMeasurement && !call.Measure?))
    && t.rails.nonConverged == (diverges || (g.rails.nonConverged && !under))
    && t.rails.thresholdCompacts == (if under then 0 else if diverges then 2
                                     else g.rails.thresholdCompacts + (if FoldOf(g, call) == Some(Threshold) then 1 else 0))
    && t.rails.overflowRecoveries == (if under then 0
                                      else g.rails.overflowRecoveries + (if FoldOf(g, call) == Some(Overflow) then 1 else 0))
  }

  /** An empty message is the re-entry the host owes an answer for. */
  predicate Reenters(call: Call) {
    call.Resume? && call.event == Message("")
  }

  /** Every fold owes an inference, except that one on an empty message only meters. */
  predicate DebtsAfter(g: Governor, call: Call, t: Governor) {
    var meters := call.IdleContinuation? && call.event == Message("");
    && t.debts.infer == ((g.debts.infer && !Reenters(call) && !call.KeptPrior?) || (FoldOf(g, call).Some? && !meters))
    && t.debts.meter == ((g.debts.meter && !(Reenters(call) && !g.debts.infer) && !call.KeptPrior?)
                         || (FoldOf(g, call).Some? && meters))
  }

  predicate GaugeAfter(g: Governor, call: Call, t: Governor) {
    match call
    case Sync(turns) => t.gauge == g.gauge.(turnCount := turns.count, estimated := turns.tokens)
    case Measure(reported, turns, _) => t.gauge == Gauge(reported <= 0, reported, turns.count, turns.tokens)
    case PostCompact(turns) => t.gauge == Gauge(true, g.gauge.reported, turns.count, turns.tokens)
    case Manual(_, _, Some(turns)) => t.gauge == g.gauge.(turnCount := turns.count, estimated := turns.tokens)
    case _ => t.gauge == g.gauge
  }

  /** A call that folds, or arms a fold for an idle session, asks for the re-entry. */
  predicate KicksAfter(g: Governor, call: Call, t: Governor) {
    var asks := FoldOf(g, call).Some? || ArmsHandoff(g, call) || ArmsIdleTurn(g, call)
             || (ArmsManual(g, call) && !call.inFlight && !g.arms.idle);
    t.hostClosure == g.hostClosure && t.hostKicks == g.hostKicks + (if asks && g.hostClosure then 1 else 0)
  }

  /** What a call answers. */
  predicate Answers(g: Governor, call: Call, o: Outcome) {
    && o.fold == FoldOf(g, call)
    && o.resumed == (if Reenters(call) && g.debts.infer then Some(ResumeInfer)
                     else if Reenters(call) && g.debts.meter then Some(ResumeMeter) else None)
    && (o.armed <==> AsksManual(g, call) || ArmsHandoff(g, call))
  }

  predicate Effects(g: Governor, call: Call, t: Governor, o: Outcome) {
    && Answers(g, call, o)
    && ArmsAfter(g, call, t) && InstructionsAfter(g, call, t) && RailsAfter(g, call, t)
    && DebtsAfter(g, call, t) && GaugeAfter(g, call, t) && KicksAfter(g, call, t)
  }

  /** Every call on the governor, field by field: what arms a fold, what folds and
      why, what a fold spends and owes, and what is answered. */
  lemma CallEffects(g: Governor, call: Call)
    ensures var (t, o) := Apply(g, call); Effects(g, call, t, o)
  {
    hide Apply, Effects;
    match call
    case Measure(_, _, _) => MeasureEffects(g, call);
    case Intercept(_, _, _) => InterceptEffects(g, call);
    case Preflight(_) => FoldEffects(g, call);
    case OverflowError(_) => FoldEffects(g, call);
    case IdleTurn(_, _) => IdleTurnEffects(g, call);
    case IdleContinuation(_) => IdleContinuationEffects(g, call);
    case Manual(_, _, _) => ManualEffects(g, call);
    case Handoff(_) => HandoffEffects(g, call);
    case Cancel => CancelEffects(g, call);
    case RestoreExtras(_) => CancelEffects(g, call);
    case Sync(_) => QuietEffects(g, call);
    case Resume(_) => QuietEffects(g, call);
    case PostCompact(_) => QuietEffects(g, call);
    case KeptPrior => QuietEffects(g, call);
  }

  lemma MeasureEffects(g: Governor, call: Call)
    requires call.Measure?
    ensures var (t, o) := Apply(g, call); Effects(g, call, t, o)
  {
    hide Trim;
  }

  lemma InterceptEffects(g: Governor, call: Call)
    requires call.Intercept?
    ensures var (t, o) := Apply(g, call); Effects(g, call, t, o)
  {
    hide Trim;
  }

  lemma FoldEffects(g: Governor, call: Call)
    requires call.Preflight? || call.OverflowError?
    ensures var (t, o) := Apply(g, call); Effects(g, call, t, o)
  {
    hide Trim;
  }

  lemma IdleTurnEffects(g: Governor, call: Call)
    requires call.IdleTurn?
    ensures var (t, o) := Apply(g, call); Effects(g, call, t, o)
  {
    hide Trim;
  }

  lemma IdleContinuationEffects(g: Governor, call: Call)
    requires call.IdleContinuation?
    ensures var (t, o) := Apply(g, call); Effects(g, call, t, o)
  {
    hide Trim;
  }

  lemma ManualEffects(g: Governor, call: Call)
    requires call.Manual?
    ensures var (t, o) := Apply(g, call); Effects(g, call, t, o)
  {
    hide Effects, Apply;
    if ArmsManual(g, call) {
      ArmingEffects(g, call);
    } else {
      UnarmedEffects(g, call);
    }
  }

  lemma ArmingEffects(g: Governor, call: Call)
    requires call.Manual? && ArmsManual(g, call)
    ensures var (t, o) := Apply(g, call); Effects(g, call, t, o)
  {
    hide Trim;
  }

  lemma UnarmedEffects(g: Governor, call: Call)
    requires call.Manual? && !ArmsManual(g, call)
    ensures var (t, o) := Apply(g, call); Effects(g, call, t, o)
  {
    hide Trim;
  }

  lemma HandoffEffects(g: Governor, call: Call)
    requires call.Handoff?
    ensures var (t, o) := Apply(g, call); Effects(g, call, t, o)
  {
    hide Trim;
  }

  lemma CancelEffects(g: Governor, call: Call)
    requires call.Cancel? || call.RestoreExtras?
    ensures var (t, o) := Apply(g, call); Effects(g, call, t, o)
  {
    hide Trim;
  }

  lemma QuietEffects(g: Governor, call: Call)
    requires call.Sync? || call.Resume? || call.PostCompact? || call.KeptPrior?
    ensures var (t, o) := Apply(g, call); Effects(g, call, t, o)
  {
    hide Trim;
  }

  // -------------------------------------------------- what a fold does

  /** A fold takes the place of the inferences of the cycle it interrupts: the
      other actions stay in their order, then comes the fold, and then, without a
      host closure, the action that asks for the re-entry. */
  lemma FoldReplacesInferences(g: Governor, event: Event, actions: seq<Action>, limits: Limits)
    requires FoldOf(g, Intercept(event, actions, limits)).Some?
    ensures var (t, fold) := g.InterceptActions(event, actions, limits);
      && fold.Some?
      && Picks(actions, fold.value.kept, (a: Action) => !a.Infer?)
      && g.FoldActions(fold.value)
         == fold.value.kept + [Compact(FoldOf(g, Intercept(event, actions, limits)).value)]
            + (if g.hostClosure then [] else [ContinueAfterCompact])
  {
    FiltersKeepTheRest(actions);
    CallEffects(g, Intercept(event, actions, limits));
  }

  /** The other folds keep nothing. */
  lemma OtherFoldsStandAlone(g: Governor, event: Event, limits: Limits)
    ensures var (t, fold) := g.PreflightInfer(limits); fold.Some? ==> fold.value.kept == []
    ensures var (t, fold) := g.InterceptIdleContinuation(event); fold.Some? ==> fold.value.kept == []
    ensures var (t, fold) := g.InterceptOverflow(event); fold.Some? ==> fold.value.kept == []
  {
  }

  // ------------------------------------- a measurement and the next pause

  /** Neither a measurement nor a fold. */
  predicate Between(g: Governor, calls: seq<Call>)
    decreases |calls|
  {
    calls == [] || (!calls[0].Measure? && FoldOf(g, calls[0]).None? && Between(Apply(g, calls[0]).0, calls[1..]))
  }

  lemma {:induction false} VerdictLasts(g: Governor, calls: seq<Call>)
    requires Between(g, calls)
    ensures Run(g, calls).arms.pending == g.arms.pending
    ensures Run(g, calls).rails.tokensAtLastCompact == g.rails.tokensAtLastCompact
    decreases |calls|
  {
    hide Apply;
    if calls != [] {
      CallEffects(g, calls[0]);
      VerdictLasts(Apply(g, calls[0]).0, calls[1..]);
    }
  }

  /** After any history, a measurement decides the next pause, whatever comes
      between short of a fold and of another measurement. A tool pause or a message
      before an inference is folded for the operator exactly when an operator fold
      is armed; and otherwise for the threshold exactly when the cap is not
      reached and the measurement was over, the window is full, or the live
      estimate that stands in for usage is over. */
  lemma MeasurementDecidesNextPause(g: Governor, measure: Call, between: seq<Call>,
                                    event: Event, actions: seq<Action>, limits: Limits)
    requires measure.Measure? && Between(Apply(g, measure).0, between)
    ensures var now := Run(Apply(g, measure).0, between);
      var mark := if g.rails.awaitingMeasurement then Some(Counted(measure)) else g.rails.tokensAtLastCompact;
      var pressed := || Over(measure.turns.count, Counted(measure), mark, measure.limits)
                     || Full(now, limits)
                     || (now.gauge.usingEstimate && Over(now.gauge.turnCount, now.gauge.estimated, mark, limits));
      var fold := Apply(now, Intercept(event, actions, limits)).1.fold;
      && (fold == Some(Operator) <==> BeforeInfer(event, actions) && now.arms.manual)
      && (fold == Some(Threshold) <==> BeforeInfer(event, actions) && !now.arms.manual && BelowCap(now) && pressed)
      && fold != Some(Overflow)
  {
    hide Apply;
    CallEffects(g, measure);
    VerdictLasts(Apply(g, measure).0, between);
    CallEffects(Run(Apply(g, measure).0, between), Intercept(event, actions, limits));
  }

  /** One such pause: a fresh session measures twice its threshold. */
  lemma OverThresholdFolds(hostClosure: bool, overhead: nat)
    ensures var limits := Limits(100, 10, 100000, 0);
      var measured := FreshGovernor(hostClosure, overhead).NoteInferenceDone(200, Turns(5, 200), limits);
      Apply(measured, Intercept(ToolDone, [Infer(NoNudge)], limits)).1.fold == Some(Threshold)
  {
    var limits, g := Limits(100, 10, 100000, 0), FreshGovernor(hostClosure, overhead);
    MeasurementDecidesNextPause(g, Measure(200, Turns(5, 200), limits), [], ToolDone, [Infer(NoNudge)], limits);
    assert [Infer(NoNudge)][0].Infer?;
  }
}
