/** When a disconnect can be relied on, told from what a caller sees at the call:
    it wins every drained schedule exactly when no retry waits in the queue and
    no dial that may still reject is its to await. */
module McpExact {
  import opened Common
  import opened McpProtocol
  import opened McpSafety
  import opened McpLastCall
  import opened McpDrain

  /** The run's promise will not reject. */
  predicate Trusted(s: Server, run: RunId) {
    run < |s.runs| && TrustedPhase(s.runs[run].phase)
  }

  predicate TrustedPhase(phase: RunPhase) {
    !phase.AwaitingTrust? && !phase.Rejected? && (phase.Settled? ==> phase.ok)
  }

  /** An operation of these awaits the run, or will once it starts. */
  predicate SomeoneAwaits(ahead: seq<QueuedOp>, run: RunId) {
    || (exists i :: 0 <= i < |ahead| && ahead[i].op.DisconnectOp? && ahead[i].stage.Queued?)
    || (ahead != [] && ahead[0].stage == AwaitRun(Some(run)))
  }

  /** A dial in flight may still reject, and no operation already in the queue
      sits the rejection out. */
  predicate Doubtful(s: Server) {
    s.inFlight.Some? && !Trusted(s, s.inFlight.value.run) && !SomeoneAwaits(s.queue, s.inFlight.value.run)
  }

  ghost predicate Drains(s: Server, steps: seq<Step>) {
    Possible(s, steps) && OnItsOwn(steps) && Exec(s, steps).queue == []
  }

  /** However the queue drains without another call, the disconnect has won. */
  ghost predicate AlwaysWins(called: Server, epoch: nat) {
    forall after :: Drains(called, after) ==> Won(Exec(called, after), epoch)
  }

  // ----------------------------------------- what a run's phase can become

  predicate Moves(before: RunPhase, after: RunPhase) {
    match before
    case AwaitingTrust => after.Finished? || after.Dialing? || after.Rejected?
    case Dialing => after.Resolved?
    case Resolved(_) => after.Finished? || after.Closing?
    case Closing(_) => after.Finished?
    case Finished => after == Settled(true)
    case Rejected => after == Settled(false)
    case Settled(_) => false
  }

  ghost predicate RunsMove(s: Server, t: Server) {
    && |t.runs| >= |s.runs|
    && forall r :: 0 <= r < |s.runs| ==> t.runs[r] == s.runs[r] || Moves(s.runs[r].phase, t.runs[r].phase)
  }

  lemma OpKeepsRuns(s: Server, local: bool)
    requires s.queue != []
    ensures s.runs <= StepOp(s, local).runs
  {
    match s.queue[0].op {
      case ConnectOp(reenable, epochAtCall) => ConnectOneIsSame(Reenabled(s, reenable), Reenabled(s, reenable).epoch, local, None);
      case RetryOp => ConnectOneIsSame(ResetForRetry(s), ResetForRetry(s).epoch, local, None);
      case DisconnectOp(epoch) => DisconnectOpSteps(s, epoch);
    }
  }

  lemma PhaseMoves(s: Server, t: Server, run: RunId)
    requires run < |s.runs| && |t.runs| == |s.runs| && Moves(s.runs[run].phase, t.runs[run].phase)
    requires forall r :: 0 <= r < |s.runs| && r != run ==> t.runs[r] == s.runs[r]
    ensures RunsMove(s, t)
  {
  }

  lemma NextRunsMove(s: Server, step: Step)
    requires Enabled(s, step)
    ensures RunsMove(s, Next(s, step))
  {
    hide TrustDecided, DialResolved, RunContinues, CloseSettled, LoopWakes, LoopResumes, TransportDeath, StepOp, ConnectOne, Report;
    match step
    case Startup(local) => ConnectOneIsSame(s, s.epoch, local, None);
    case RunOp(local) => OpKeepsRuns(s, local);
    case Trust(run, allowed) => TrustMoves(s, run, allowed);
    case TrustFails(run) => PhaseMoves(s, SetPhase(s, run, Rejected), run);
    case Dial(run, result) => DialMoves(s, run, result);
    case AskAuth(run) => ReportIsSame(s, s.runs[run].watcher, NeedsAuth);
    case Reauthorized(run) => ReportIsSame(s, s.runs[run].watcher, Connected);
    case Continue(run, mount) => ContinueMoves(s, run, mount);
    case Closed(run) => CloseMoves(s, run);
    case Settle(run) => PhaseMoves(s, RunSettles(s, run), run);
    case Wake(loop, local) => WakeIsSame(s, loop, local);
    case Resume(loop) => ResumeIsSame(s, loop);
    case Death(run) => DeathIsSame(s, s.runs[run].epoch, s.runs[run].watcher);
    case _ =>
  }

  lemma TrustMoves(s: Server, run: RunId, allowed: bool)
    requires run < |s.runs| && s.runs[run].phase.AwaitingTrust?
    ensures RunsMove(s, TrustDecided(s, run, allowed))
  {
    TrustIsSame(s, run, allowed);
    PhaseMoves(s, TrustDecided(s, run, allowed), run);
  }

  lemma DialMoves(s: Server, run: RunId, result: DialResult)
    requires run < |s.runs| && s.runs[run].phase.Dialing?
    ensures RunsMove(s, DialResolved(s, run, result))
  {
    PhaseMoves(s, DialResolved(s, run, result), run);
  }

  lemma ContinueMoves(s: Server, run: RunId, mount: MountResult)
    requires run < |s.runs| && s.runs[run].phase.Resolved?
    ensures RunsMove(s, RunContinues(s, run, mount))
  {
    ContinueIsSame(s, run, mount);
    PhaseMoves(s, RunContinues(s, run, mount), run);
  }

  lemma CloseMoves(s: Server, run: RunId)
    requires run < |s.runs| && s.runs[run].phase.Closing?
    ensures RunsMove(s, CloseSettled(s, run))
  {
    CloseIsSame(s, run);
    PhaseMoves(s, CloseSettled(s, run), run);
  }

  lemma TrustedStays(s: Server, step: Step, run: RunId)
    requires Enabled(s, step) && Trusted(s, run)
    ensures Trusted(Next(s, step), run)
  {
    NextRunsMove(s, step);
  }

  // ---------------------------------------------- no retry, no doubtful dial

  /** What the disconnect's own operation awaits, or will, does not reject. */
  predicate Safe(s: Server) {
    s.queue == [] ||
    match s.queue[|s.queue| - 1].stage
    case Queued => s.inFlight.Some? ==> SafeToAwait(s, s.queue[..|s.queue| - 1], s.inFlight.value.run)
    case AwaitRun(run) => run.Some? ==> Trusted(s, run.value)
    case _ => true
  }

  predicate SafeToAwait(s: Server, ahead: seq<QueuedOp>, run: RunId) {
    Trusted(s, run) || SomeoneAwaits(ahead, run)
  }

  ghost predicate Secure(s: Server, epoch: nat) {
    AfterDisconnect(s, epoch) && Inv(s) && Safe(s)
  }

  /** A disabled name starts no dial that could reject. */
  lemma InFlightStays(s: Server, step: Step)
    requires s.disabled && Enabled(s, step) && !FromOutside(step) && !step.RunOp?
    ensures var t := Next(s, step);
      t.inFlight == s.inFlight || t.inFlight.None? || Trusted(t, t.inFlight.value.run)
  {
    match step
    case Startup(local) =>
      var begun := s.(runs := s.runs + [Run(s.epoch, None, AwaitingTrust)], inFlight := Some(InFlight(|s.runs|, s.epoch)));
      assert BeginDial(begun, |s.runs|).runs[|s.runs|].phase.Finished?;
    case Trust(run, allowed) => TrustIsSame(s, run, allowed);
    case AskAuth(run) => ReportIsSame(s, s.runs[run].watcher, NeedsAuth);
    case Reauthorized(run) => ReportIsSame(s, s.runs[run].watcher, Connected);
    case Continue(run, mount) => ContinueIsSame(s, run, mount);
    case Closed(run) => CloseIsSame(s, run);
    case Wake(loop, local) => WakeIsSame(s, loop, local);
    case Resume(loop) => ResumeIsSame(s, loop);
    case Death(run) => DeathIsSame(s, s.runs[run].epoch, s.runs[run].watcher);
    case _ =>
  }

  lemma OtherStepSafe(s: Server, step: Step, epoch: nat)
    requires Secure(s, epoch) && Enabled(s, step) && !FromOutside(step) && !step.RunOp?
    ensures Safe(Next(s, step))
  {
    OtherStepCalm(s, step);
    InFlightStays(s, step);
    if s.queue != [] {
      var last := s.queue[|s.queue| - 1];
      if last.stage.AwaitRun? && last.stage.run.Some? {
        TrustedStays(s, step, last.stage.run.value);
      } else if last.stage.Queued? && s.inFlight.Some? && Trusted(s, s.inFlight.value.run) {
        TrustedStays(s, step, s.inFlight.value.run);
      }
    }
  }

  /** An operation ahead of the disconnect starts no dial unless it is a retry that acts. */
  lemma EarlierOpStartsNothing(s: Server, local: bool, epoch: nat)
    requires AfterDisconnect(s, epoch) && |s.queue| > 1 && StepOp(s, local).retriesActed == s.retriesActed
    ensures var t := StepOp(s, local); t.runs == s.runs && t.inFlight == s.inFlight
  {
    match s.queue[0].op {
      case ConnectOp(reenable, epochAtCall) => assert StepOp(s, local) == PopOp(s);
      case RetryOp => RetryOpStarts(s, local);
      case DisconnectOp(e) => DisconnectOpSteps(s, e);
    }
  }

  /** Whoever awaits the run in flight is not ready; a disconnect that starts
      ahead awaits it, and any other leaves the rest of the queue as it is. */
  lemma SomeoneStillAwaits(s: Server, local: bool, epoch: nat)
    requires AfterDisconnect(s, epoch) && Inv(s) && OpReady(s) && |s.queue| > 1
    requires s.inFlight.Some? && SomeoneAwaits(s.queue[..|s.queue| - 1], s.inFlight.value.run)
    ensures var t := StepOp(s, local);
      t.queue != [] && SomeoneAwaits(t.queue[..|t.queue| - 1], s.inFlight.value.run)
  {
    var t, ahead := StepOp(s, local), s.queue[..|s.queue| - 1];
    OpMoves(s, local);
    assert s.queue[0].stage != AwaitRun(Some(s.inFlight.value.run));
    var i :| 0 <= i < |ahead| && ahead[i].op.DisconnectOp? && ahead[i].stage.Queued?;
    if i == 0 {
      assert t == SetStage(s, AwaitRun(Some(s.inFlight.value.run)));
    } else if t.queue == s.queue[1..] {
      assert t.queue[..|t.queue| - 1][i - 1] == ahead[i];
    } else {
      assert t.queue[..|t.queue| - 1][i] == ahead[i];
    }
  }

  lemma EarlierOpSafe(s: Server, local: bool, epoch: nat)
    requires Secure(s, epoch) && OpReady(s) && |s.queue| > 1 && StepOp(s, local).retriesActed == s.retriesActed
    ensures Safe(StepOp(s, local))
  {
    var t := StepOp(s, local);
    EarlierOpStartsNothing(s, local, epoch);
    OpMoves(s, local);
    assert t.queue != [] && t.queue[|t.queue| - 1] == s.queue[|s.queue| - 1];
    if s.inFlight.Some? && SomeoneAwaits(s.queue[..|s.queue| - 1], s.inFlight.value.run) {
      SomeoneStillAwaits(s, local, epoch);
    }
  }

  lemma OwnOpSafe(s: Server, local: bool, epoch: nat)
    requires Secure(s, epoch) && OpReady(s) && |s.queue| == 1
    ensures Safe(StepOp(s, local)) && !AwaitRejects(s, RunOp(local), epoch)
  {
    assert s.queue[0].op == DisconnectOp(epoch);
    DisconnectOpSteps(s, epoch);
    var t := StepOp(s, local);
    if s.queue[0].stage.Queued? && s.inFlight.Some? {
      assert s.queue[..0] == [];
      assert t == SetStage(s, AwaitRun(Some(s.inFlight.value.run)));
    }
  }

  lemma StepSecure(s: Server, step: Step, epoch: nat)
    requires Secure(s, epoch) && Enabled(s, step) && !FromOutside(step)
    requires Next(s, step).retriesActed == s.retriesActed
    ensures Secure(Next(s, step), epoch) && !AwaitRejects(s, step, epoch)
  {
    StepKeeps(s, step);
    if step.RunOp? {
      if |s.queue| > 1 {
        EarlierOpAfterDisconnect(s, step.local, epoch);
        EarlierOpSafe(s, step.local, epoch);
        assert s.queue[0] in s.queue[..|s.queue| - 1];
      } else {
        OwnOpSafe(s, step.local, epoch);
        OwnOpAfterDisconnect(s, step.local, epoch);
      }
    } else {
      OtherStepCalm(s, step);
      OtherStepAfterDisconnect(s, step, epoch);
      OtherStepSafe(s, step, epoch);
    }
  }

  lemma NoRetryStaysAway(s: Server, step: Step)
    requires NoRetryWaiting(s) && Enabled(s, step) && !IsPublicCall(step)
    ensures NoRetryWaiting(Next(s, step)) && Next(s, step).retriesActed == s.retriesActed
  {
    if step.RunOp? {
      OpStartsNoRetry(s, step.local);
    } else {
      OtherStepCalm(s, step);
    }
  }

  lemma {:induction false} StepsSecure(s: Server, steps: seq<Step>, epoch: nat)
    requires Secure(s, epoch) && NoRetryWaiting(s) && Possible(s, steps) && OnItsOwn(steps)
    ensures !AwaitRejected(s, steps, epoch) && Exec(s, steps).retriesActed == s.retriesActed
    decreases |steps|
  {
    if steps != [] {
      assert !FromOutside(steps[0]);
      NoRetryStaysAway(s, steps[0]);
      StepSecure(s, steps[0], epoch);
      StepsSecure(Next(s, steps[0]), steps[1..], epoch);
    }
  }

  lemma CallIsSecure(s: Server)
    requires Inv(s) && Orderly(s) && !Doubtful(s)
    ensures Secure(DisconnectCall(s), s.epoch + 1)
  {
    DisconnectStartsTracking(s);
    StepKeeps(s, CallDisconnect);
    var called := DisconnectCall(s);
    assert called.queue[..|called.queue| - 1] == s.queue;
  }

  /** What a caller can check at the call: with no retry waiting and no doubtful
      dial to await, the disconnect wins however the queue drains. */
  lemma DisconnectWinsWithoutDoubt(before: seq<Step>, after: seq<Step>)
    requires Possible(Fresh, before) && NoRetryWaiting(Exec(Fresh, before)) && !Doubtful(Exec(Fresh, before))
    requires Drains(DisconnectCall(Exec(Fresh, before)), after)
    ensures var called := DisconnectCall(Exec(Fresh, before)); Won(Exec(called, after), called.epoch)
  {
    var s := Exec(Fresh, before);
    FreshDrainable();
    StepsKeepDrainable(Fresh, before);
    CallIsSecure(s);
    StepsSecure(DisconnectCall(s), after, s.epoch + 1);
    OnItsOwnIsNoPublicCall(after);
    LastCallWins(before, after);
  }
}
