/** What the governor guarantees over every run of calls. */
module CompactionRuns {
  import opened Common
  import opened Reactor
  import opened Compaction

  /** One call on the governor, in any order and with any arguments. */
  datatype Call =
    | Sync(turns: Turns)
    | Measure(reportedTokens: int, turns: Turns, limits: Limits)
    | Intercept(event: Event, actions: seq<Action>, limits: Limits)
    | Preflight(limits: Limits)
    | IdleTurn(event: Event, actions: seq<Action>)
    | IdleContinuation(event: Event)
    | OverflowError(event: Event)
    | Resume(event: Event)
    | PostCompact(turns: Turns)
    | KeptPrior
    | Manual(instructions: string, inFlight: bool, given: Option<Turns>)
    | RestoreExtras(value: Option<string>)
    | Handoff(instructions: string)
    | Cancel

  /** What a call returned, as far as the counts below need it. */
  datatype Outcome = Outcome(fold: Option<Reason>, resumed: Option<ResumeKind>, armed: bool)

  const Nothing := Outcome(None, None, false)

  function Folded(r: (Governor, Option<Fold>)): (Governor, Outcome) {
    (r.0, if r.1.Some? then Nothing.(fold := Some(r.1.value.reason)) else Nothing)
  }

  function Apply(g: Governor, call: Call): (Governor, Outcome) {
    match call
    case Sync(turns) => (g.SyncFromTurns(turns), Nothing)
    case Measure(reported, turns, limits) => (g.NoteInferenceDone(reported, turns, limits), Nothing)
    case Intercept(event, actions, limits) => Folded(g.InterceptActions(event, actions, limits))
    case Preflight(limits) => Folded(g.PreflightInfer(limits))
    case IdleTurn(event, actions) => (g.NoteIdleTurn(event, actions).0, Nothing)
    case IdleContinuation(event) => Folded(g.InterceptIdleContinuation(event))
    case OverflowError(event) => Folded(g.InterceptOverflow(event))
    case Resume(event) => var (next, kind) := g.ResumeAfterCompact(event); (next, Nothing.(resumed := kind))
    case PostCompact(turns) => (g.NotePostCompact(turns), Nothing)
    case KeptPrior => (g.NoteKeptPrior(), Nothing)
    case Manual(instructions, inFlight, given) =>
      var (next, arming) := g.RequestManual(instructions, inFlight, given);
      (next, Nothing.(armed := arming != Noop))
    case RestoreExtras(value) => (g.RestoreExtraInstructions(value), Nothing)
    case Handoff(instructions) =>
      var (next, arming) := g.RequestHandoff(instructions);
      (next, Nothing.(armed := arming != Noop))
    case Cancel => (g.CancelManual(), Nothing)
  }

  function Run(g: Governor, calls: seq<Call>): Governor
    decreases |calls|
  {
    if calls == [] then g else Run(Apply(g, calls[0]).0, calls[1..])
  }

  /** How many calls of the run returned an outcome that `p` accepts. */
  function Count(g: Governor, calls: seq<Call>, p: Outcome -> bool): nat
    decreases |calls|
  {
    if calls == [] then 0
    else
      var (next, outcome) := Apply(g, calls[0]);
      (if p(outcome) then 1 else 0) + Count(next, calls[1..], p)
  }

  function Folds(g: Governor, calls: seq<Call>, reason: Reason): nat {
    Count(g, calls, (o: Outcome) => o.fold == Some(reason))
  }

  function AllFolds(g: Governor, calls: seq<Call>): nat {
    Count(g, calls, (o: Outcome) => o.fold.Some?)
  }

  function Resumes(g: Governor, calls: seq<Call>): nat {
    Count(g, calls, (o: Outcome) => o.resumed.Some?)
  }

  function ArmedRequests(g: Governor, calls: seq<Call>): nat {
    Count(g, calls, (o: Outcome) => o.armed)
  }

  // ------------------------------------------------------ bounded folding

  predicate MeasuresUnder(call: Call) {
    call.Measure? && ContextTokens(call.reportedTokens, call.turns) <= call.limits.threshold
  }

  predicate NoMeasureUnder(calls: seq<Call>) {
    forall i :: 0 <= i < |calls| ==> !MeasuresUnder(calls[i])
  }

  /** What every call keeps: it spends the rails it folds on and restores none
      (short of a measurement at or under the threshold); a resume is paid for
      by a fold or was owed; an operator fold spends a pending request. */
  predicate Fair(g: Governor, t: Governor, o: Outcome) {
    && (g.rails.WithinCaps() ==>
          && t.rails.WithinCaps()
          && t.rails.thresholdCompacts >= g.rails.thresholdCompacts + (if o.fold == Some(Threshold) then 1 else 0)
          && t.rails.overflowRecoveries >= g.rails.overflowRecoveries + (if o.fold == Some(Overflow) then 1 else 0))
    && PaysItsDebts(g, t, o)
  }

  predicate PaysItsDebts(g: Governor, t: Governor, o: Outcome) {
    && (if o.resumed.Some? then 1 else 0) + Owed(t) <= (if o.fold.Some? then 1 else 0) + Owed(g)
    && (if o.fold == Some(Operator) then 1 else 0) + Spendable(t) <= (if o.armed then 1 else 0) + Spendable(g)
  }

  function Owed(g: Governor): nat {
    (if g.debts.infer then 1 else 0) + (if g.debts.meter then 1 else 0)
  }

  function Spendable(g: Governor): nat {
    if g.arms.manual then 1 else 0
  }

  /** Calls that neither fold nor measure. */
  predicate Quiet(call: Call) {
    !call.Measure? && !call.Intercept? && !call.Preflight? && !call.IdleContinuation? && !call.OverflowError?
  }

  lemma QuietCallIsFair(g: Governor, call: Call)
    requires Quiet(call)
    ensures var (t, o) := Apply(g, call); Fair(g, t, o)
  {
  }

  lemma CallIsFair(g: Governor, call: Call)
    requires !MeasuresUnder(call)
    ensures var (t, o) := Apply(g, call); Fair(g, t, o)
  {
    if Quiet(call) {
      QuietCallIsFair(g, call);
    }
  }

  lemma CallPaysItsDebts(g: Governor, call: Call)
    ensures var (t, o) := Apply(g, call); PaysItsDebts(g, t, o) && (g.rails.WithinCaps() ==> t.rails.WithinCaps())
  {
    if !MeasuresUnder(call) {
      CallIsFair(g, call);
    }
  }

  lemma {:induction false} RunSpendsRails(g: Governor, calls: seq<Call>)
    requires g.rails.WithinCaps() && NoMeasureUnder(calls)
    ensures g.rails.thresholdCompacts + Folds(g, calls, Threshold) <= MAX_CONSECUTIVE_THRESHOLD_COMPACTS
    ensures g.rails.overflowRecoveries + Folds(g, calls, Overflow) <= MAX_OVERFLOW_RECOVERIES
    decreases |calls|
  {
    if calls != [] {
      CallIsFair(g, calls[0]);
      RunSpendsRails(Apply(g, calls[0]).0, calls[1..]);
    }
  }

  lemma {:induction false} RunAppend(g: Governor, first: seq<Call>, second: seq<Call>)
    ensures Run(g, first + second) == Run(Run(g, first), second)
    decreases |first|
  {
    if first == [] {
      assert first + second == second;
    } else {
      assert (first + second)[1..] == first[1..] + second;
      RunAppend(Apply(g, first[0]).0, first[1..], second);
    }
  }

  lemma {:induction false} FoldsAppend(g: Governor, first: seq<Call>, second: seq<Call>, reason: Reason)
    ensures Folds(g, first + second, reason) == Folds(g, first, reason) + Folds(Run(g, first), second, reason)
    decreases |first|
  {
    if first == [] {
      assert first + second == second;
    } else {
      assert (first + second)[1..] == first[1..] + second;
      FoldsAppend(Apply(g, first[0]).0, first[1..], second, reason);
    }
  }

  lemma {:induction false} RunKeepsWithinCaps(g: Governor, calls: seq<Call>)
    requires g.rails.WithinCaps()
    ensures Run(g, calls).rails.WithinCaps()
    decreases |calls|
  {
    if calls != [] {
      CallPaysItsDebts(g, calls[0]);
      RunKeepsWithinCaps(Apply(g, calls[0]).0, calls[1..]);
    }
  }

  /** Automatic folding is bounded: after any history, between two inference
      measurements at or under the threshold there are at most two threshold
      folds and at most two overflow folds. */
  lemma FoldingIsBounded(hostClosure: bool, overhead: nat, history: seq<Call>, calls: seq<Call>)
    requires NoMeasureUnder(calls)
    ensures var g := Run(FreshGovernor(hostClosure, overhead), history);
            Folds(g, calls, Threshold) <= 2 && Folds(g, calls, Overflow) <= 2
  {
    RunKeepsWithinCaps(FreshGovernor(hostClosure, overhead), history);
    RunSpendsRails(Run(FreshGovernor(hostClosure, overhead), history), calls);
  }

  /** Every fold, whatever its reason, waits for its first measurement. */
  lemma EveryFoldIsMeasured(g: Governor, call: Call)
    requires Apply(g, call).1.fold.Some?
    ensures Apply(g, call).0.rails.awaitingMeasurement
  {
  }

  predicate NoMeasure(calls: seq<Call>) {
    forall i :: 0 <= i < |calls| ==> !calls[i].Measure?
  }

  lemma OnlyMeasureEndsTheWait(g: Governor, call: Call)
    requires g.rails.awaitingMeasurement && !call.Measure?
    ensures Apply(g, call).0.rails.awaitingMeasurement
  {
  }

  lemma {:induction false} WaitLasts(g: Governor, calls: seq<Call>)
    requires g.rails.awaitingMeasurement && NoMeasure(calls)
    ensures Run(g, calls).rails.awaitingMeasurement
    decreases |calls|
  {
    if calls != [] {
      OnlyMeasureEndsTheWait(g, calls[0]);
      WaitLasts(Apply(g, calls[0]).0, calls[1..]);
    }
  }

  /** After any history let a call fold, for whatever reason. If the first
      measurement after it is still over the threshold, the fold is reported as
      not converged, and no threshold fold follows until a measurement at or
      under it. */
  lemma NonConvergedFoldStopsFolding(hostClosure: bool, overhead: nat, history: seq<Call>, fold: Call,
                                     between: seq<Call>, measure: Call, calls: seq<Call>)
    requires Apply(Run(FreshGovernor(hostClosure, overhead), history), fold).1.fold.Some?
    requires NoMeasure(between) && measure.Measure? && !MeasuresUnder(measure) && NoMeasureUnder(calls)
    ensures var folded := Apply(Run(FreshGovernor(hostClosure, overhead), history), fold).0;
      var g := Apply(Run(folded, between), measure).0;
      g.rails.nonConverged && Folds(g, calls, Threshold) == 0
  {
    var before := Run(FreshGovernor(hostClosure, overhead), history);
    var folded := Apply(before, fold).0;
    EveryFoldIsMeasured(before, fold);
    WaitLasts(folded, between);
    RunKeepsWithinCaps(FreshGovernor(hostClosure, overhead), history);
    CallPaysItsDebts(before, fold);
    RunKeepsWithinCaps(folded, between);
    CallPaysItsDebts(Run(folded, between), measure);
    RunSpendsRails(Apply(Run(folded, between), measure).0, calls);
  }

  // --------------------------------------------- continuations and arming

  /** Resumes never exceed folds: what a run resumes was owed before it or
      comes from a fold in it. */
  lemma {:induction false} ContinuationsAreConserved(g: Governor, calls: seq<Call>)
    ensures Resumes(g, calls) + Owed(Run(g, calls)) <= AllFolds(g, calls) + Owed(g)
    decreases |calls|
  {
    if calls != [] {
      var (next, outcome) := Apply(g, calls[0]);
      CallPaysItsDebts(g, calls[0]);
      ContinuationsAreConserved(next, calls[1..]);
    }
  }

  /** Operator folds never exceed the manual and handoff requests that armed one. */
  lemma {:induction false} OperatorFoldsWereRequested(g: Governor, calls: seq<Call>)
    ensures Folds(g, calls, Operator) + Spendable(Run(g, calls)) <= ArmedRequests(g, calls) + Spendable(g)
    decreases |calls|
  {
    if calls != [] {
      var (next, outcome) := Apply(g, calls[0]);
      CallPaysItsDebts(g, calls[0]);
      OperatorFoldsWereRequested(next, calls[1..]);
    }
  }

  /** From a fresh session: no more resumes than folds, no more operator folds than requests. */
  lemma NothingIsInvented(hostClosure: bool, overhead: nat, calls: seq<Call>)
    ensures var g := FreshGovernor(hostClosure, overhead);
      && Resumes(g, calls) <= AllFolds(g, calls)
      && Folds(g, calls, Operator) <= ArmedRequests(g, calls)
  {
    ContinuationsAreConserved(FreshGovernor(hostClosure, overhead), calls);
    OperatorFoldsWereRequested(FreshGovernor(hostClosure, overhead), calls);
  }

  // ------------------------------------------------- cancelling a handoff

  /** Handoff requests, turn syncs and inference measurements. */
  predicate Pivoting(call: Call) {
    call.Handoff? || call.Sync? || call.Measure?
  }

  /** The state a cancel would restore is `idle` and `extras`. */
  predicate WouldRestore(g: Governor, idle: bool, extras: Option<string>) {
    if g.arms.manual
    then g.arms.idleAtHandoff == idle && g.arms.instructionsAtHandoff == extras
    else g.arms.idle == idle && g.arms.instructions == extras
  }

  lemma PivotKeepsSnapshot(g: Governor, call: Call, idle: bool, extras: Option<string>)
    requires WouldRestore(g, idle, extras) && Pivoting(call)
    ensures WouldRestore(Apply(g, call).0, idle, extras)
  {
    if call.Measure? {
      MeasureKeepsSnapshot(g, call.reportedTokens, call.turns, call.limits);
    }
  }

  lemma MeasureKeepsSnapshot(g: Governor, reported: int, turns: Turns, limits: Limits)
    ensures var t := g.NoteInferenceDone(reported, turns, limits);
      && t.arms.manual == g.arms.manual
      && t.arms.idle == g.arms.idle
      && t.arms.instructions == g.arms.instructions
      && t.arms.idleAtHandoff == g.arms.idleAtHandoff
      && t.arms.instructionsAtHandoff == g.arms.instructionsAtHandoff
  {
  }

  lemma {:induction false} PivotingKeepsSnapshot(g: Governor, calls: seq<Call>, idle: bool, extras: Option<string>)
    requires WouldRestore(g, idle, extras)
    requires forall i :: 0 <= i < |calls| ==> Pivoting(calls[i])
    ensures WouldRestore(Run(g, calls), idle, extras)
    decreases |calls|
  {
    if calls != [] {
      assert Pivoting(calls[0]);
      PivotKeepsSnapshot(g, calls[0], idle, extras);
      PivotingKeepsSnapshot(Apply(g, calls[0]).0, calls[1..], idle, extras);
    }
  }

  /** Cancelling a handoff restores: with nothing manual pending at the start,
      any number of handoff requests among syncs and measurements followed by
      a cancel leaves the idle arming and the instructions of the start, and
      the threshold arming of the last measurement. */
  lemma CancelRestores(g: Governor, calls: seq<Call>)
    requires !g.arms.manual
    requires forall i :: 0 <= i < |calls| ==> Pivoting(calls[i])
    ensures var cancelled := Run(g, calls).CancelManual();
      && !cancelled.arms.manual
      && cancelled.arms.idle == g.arms.idle
      && cancelled.arms.instructions == g.arms.instructions
      && cancelled.arms.pending == Run(g, calls).arms.pending
  {
    PivotingKeepsSnapshot(g, calls, g.arms.idle, g.arms.instructions);
  }

  /** The condition is exact, over the same runs. With a manual fold already
      pending at the start, no handoff takes a snapshot, so a cancel brings back
      what the last snapshot says: it restores exactly when that happens to be
      what was there. */
  lemma CancelRestoresExactlyWhen(g: Governor, calls: seq<Call>)
    requires forall i :: 0 <= i < |calls| ==> Pivoting(calls[i])
    ensures var cancelled := Run(g, calls).CancelManual();
      cancelled.arms.idle == g.arms.idle && cancelled.arms.instructions == g.arms.instructions
      <==> !g.arms.manual || (g.arms.idleAtHandoff == g.arms.idle
                                && g.arms.instructionsAtHandoff == g.arms.instructions)
  {
    if g.arms.manual {
      PivotingKeepsSnapshot(g, calls, g.arms.idleAtHandoff, g.arms.instructionsAtHandoff);
    } else {
      PivotingKeepsSnapshot(g, calls, g.arms.idle, g.arms.instructions);
    }
  }

  /** So `/compact` instructions in a fresh session do not survive a cancelled handoff. */
  lemma CancelDropsManualInstructions(hostClosure: bool, overhead: nat, turns: Turns, pivot: string)
    requires turns.count > MIN_TURNS_TO_COMPACT
    ensures var manual := FreshGovernor(hostClosure, overhead).RequestManual("keep the API names", false, Some(turns)).0;
      && manual.arms.instructions.Some?
      && manual.RequestHandoff(pivot).0.CancelManual().arms.instructions == None
  {
    var text := "keep the API names";
    assert text[0] == 'k' && text[|text| - 1] == 's';
    Text.TrimFixesTrimmed(text);
  }
}
