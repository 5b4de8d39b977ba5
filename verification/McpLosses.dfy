/** The other half of the condition: whenever it fails, the queue has a way to
    drain on which the disconnect is never answered. */
module McpLosses {
  import opened Common
  import opened McpProtocol
  import opened McpSafety
  import opened McpLastCall
  import opened McpDrain
  import opened McpExact
  import opened McpRetries

  // --------------------------------------------------- a retry that waits

  predicate RetryWaits(s: Server) {
    exists i :: 0 <= i < |s.queue| && s.queue[i].op.RetryOp? && s.queue[i].stage.Queued?
  }

  /** Disposal is over, so there is no client a retry could stop at: one acts
      before the queue drains. */
  ghost predicate RetryBound(s: Server, retries: nat) {
    s.disposal.Done? && Inv(s) && Orderly(s) && s.retriesActed >= retries && (RetryWaits(s) || s.retriesActed > retries)
  }

  lemma OpRetryBound(s: Server, local: bool, retries: nat)
    requires RetryBound(s, retries) && OpReady(s)
    ensures var t := StepOp(s, local); RetryWaits(t) || t.retriesActed > retries
  {
    var t := StepOp(s, local);
    OpMoves(s, local);
    if s.retriesActed == retries {
      var i :| 0 <= i < |s.queue| && s.queue[i].op.RetryOp? && s.queue[i].stage.Queued?;
      if i == 0 {
        assert s.connected.None?;
        DialAndWaitStarts(ResetForRetry(s), local);
      } else if t.queue == s.queue[1..] {
        assert t.queue[i - 1] == s.queue[i];
      } else {
        assert t.queue[i] == s.queue[i];
      }
    }
  }

  lemma StepRetryBound(s: Server, step: Step, retries: nat)
    requires RetryBound(s, retries) && Enabled(s, step) && !IsPublicCall(step)
    ensures RetryBound(Next(s, step), retries)
  {
    StepKeeps(s, step);
    OrderlyKept(s, step);
    if !step.Dispose? {
      OnlyDisposeDisposes(s, step);
    }
    if step.RunOp? {
      OpMoves(s, step.local);
      OpRetryBound(s, step.local, retries);
    } else {
      OtherStepCalm(s, step);
    }
  }

  lemma {:induction false} StepsRetryBound(s: Server, steps: seq<Step>, retries: nat)
    requires RetryBound(s, retries) && Possible(s, steps) && NoPublicCalls(steps)
    ensures RetryBound(Exec(s, steps), retries)
    decreases |steps|
  {
    if steps != [] {
      StepRetryBound(s, steps[0], retries);
      StepsRetryBound(Next(s, steps[0]), steps[1..], retries);
    }
  }

  function DisposalLeft(disposal: Disposal): nat {
    match disposal
    case NotDisposed => 4
    case Begun => 3
    case Draining(_) => 2
    case ClosingAll => 1
    case Done => 0
  }

  lemma DisposeAdvances(s: Server)
    ensures var t := DisposeStep(s);
      && (!s.disposal.Done? ==> DisposalLeft(t.disposal) < DisposalLeft(s.disposal))
      && t.queue == s.queue && t.retriesActed == s.retriesActed
  {
  }

  /** What disposal awaits, if anything, can be made to settle. */
  lemma DisposalGetsReady(s: Server) returns (steps: seq<Step>)
    requires Drainable(s)
    ensures Possible(s, steps) && OnItsOwn(steps)
    ensures var t := Exec(s, steps);
      && Enabled(t, Dispose) && t.disposal == s.disposal && t.queue == s.queue && t.retriesActed == s.retriesActed
  {
    if s.disposal.Draining? && s.disposal.awaited.Some? {
      steps := RunCanSettle(s, s.disposal.awaited.value);
    } else {
      steps := [];
    }
  }

  /** Disposal can run to its end and leave the queue as it is. */
  lemma {:induction false} DisposalCanEnd(s: Server) returns (steps: seq<Step>)
    requires Drainable(s)
    ensures Possible(s, steps) && OnItsOwn(steps)
    ensures var t := Exec(s, steps);
      Drainable(t) && t.disposal.Done? && t.queue == s.queue && t.retriesActed == s.retriesActed
    decreases DisposalLeft(s.disposal)
  {
    if s.disposal.Done? {
      steps := [];
    } else {
      var ready := DisposalGetsReady(s);
      var t := Exec(s, ready);
      StepsKeepDrainable(s, ready);
      DisposeAdvances(t);
      DrainableKept(t, Dispose);
      var rest := DisposalCanEnd(Next(t, Dispose));
      Then(t, Dispose, rest);
      After(s, ready, [Dispose] + rest);
      steps := ready + ([Dispose] + rest);
    }
  }

  /** With a retry waiting, the queue can drain so that one acts. */
  lemma RetryCanAct(s: Server) returns (steps: seq<Step>)
    requires Drainable(s) && RetryWaits(s)
    ensures Drains(s, steps) && Exec(s, steps).retriesActed > s.retriesActed
  {
    var disposing := DisposalCanEnd(s);
    var t := Exec(s, disposing);
    var draining := QueueDrains(t);
    OnItsOwnIsNoPublicCall(draining);
    StepsRetryBound(t, draining, s.retriesActed);
    After(s, disposing, draining);
    steps := disposing + draining;
  }

  // ------------------------------------------------ a dial that may reject

  /** The disconnect has not started, and nothing ahead of it will act for this epoch. */
  predicate Waiting(s: Server, epoch: nat) {
    && s.disabled && s.epoch == epoch && s.queue != []
    && s.queue[|s.queue| - 1] == QueuedOp(DisconnectOp(epoch), Queued)
    && (forall i :: 0 <= i < |s.queue| ==> s.queue[i].op.ConnectOp? ==> s.queue[i].op.epochAtCall < epoch)
  }

  /** The run may still reject, and the disconnect is the one to await it. */
  ghost predicate Exposed(s: Server, epoch: nat, run: RunId) {
    && Drainable(s) && Waiting(s, epoch) && RetriesStop(s)
    && s.inFlight.Some? && s.inFlight.value.run == run && !Trusted(s, run)
    && !SomeoneAwaits(s.queue[..|s.queue| - 1], run)
  }

  lemma ReadyStaysExposed(s: Server, t: Server, other: RunId, epoch: nat, run: RunId)
    requires Exposed(s, epoch, run) && other < |s.runs| && other != run
    requires OnlyRun(s, t, other) && Drainable(t)
    requires RejectingPhase(t.runs[other].phase) == RejectingPhase(s.runs[other].phase)
    ensures Exposed(t, epoch, run)
  {
    StopsStill(s, t);
  }

  lemma OpStaysExposed(s: Server, epoch: nat, run: RunId)
    requires Exposed(s, epoch, run) && OpReady(s) && |s.queue| > 1
    ensures Exposed(StepOp(s, false), epoch, run)
  {
    DrainableKept(s, RunOp(false));
    OpStops(s, false);
    assert s.queue[..|s.queue| - 1][0] == s.queue[0];
    match s.queue[0].op {
      case ConnectOp(reenable, epochAtCall) => PopStaysExposed(s, epoch, run);
      case RetryOp =>
        RetryIsStopped(s, false);
        PopStaysExposed(s, epoch, run);
      case DisconnectOp(e) => DisconnectStaysExposed(s, e, epoch, run);
    }
  }

  lemma DisconnectStaysExposed(s: Server, e: nat, epoch: nat, run: RunId)
    requires Exposed(s, epoch, run) && |s.queue| > 1 && !s.queue[0].stage.Queued?
    requires Drainable(StepDisconnectOp(s, e)) && RetriesStop(StepDisconnectOp(s, e))
    ensures Exposed(StepDisconnectOp(s, e), epoch, run)
  {
    var t := StepDisconnectOp(s, e);
    DisconnectOpSteps(s, e);
    DisconnectStaysQuiet(s, e, run);
    HeadLeavesWaiting(s, t, epoch);
  }

  lemma DisconnectStaysQuiet(s: Server, e: nat, run: RunId)
    requires Orderly(s) && |s.queue| > 1 && !s.queue[0].stage.Queued?
    requires !SomeoneAwaits(s.queue[..|s.queue| - 1], run)
    ensures var t := StepDisconnectOp(s, e); t.queue != [] && !SomeoneAwaits(t.queue[..|t.queue| - 1], run)
  {
    var t := StepDisconnectOp(s, e);
    DisconnectOpSteps(s, e);
    if t.queue == s.queue[1..] {
      PopStaysQuiet(s, run);
    } else {
      MoveStaysQuiet(s, t.queue[0].stage, run);
    }
  }

  lemma HeadLeavesWaiting(s: Server, t: Server, epoch: nat)
    requires Waiting(s, epoch) && |s.queue| > 1 && HeadMoved(s, t) && t.epoch == s.epoch && t.disabled
    ensures Waiting(t, epoch)
  {
    forall i | 0 <= i < |t.queue| && t.queue[i].op.ConnectOp?
      ensures t.queue[i].op.epochAtCall < epoch
    {
      assert if t.queue == s.queue[1..] then t.queue[i] == s.queue[i + 1] else t.queue[i].op == s.queue[i].op;
    }
    assert t.queue[|t.queue| - 1] == s.queue[|s.queue| - 1];
  }

  lemma PopStaysExposed(s: Server, epoch: nat, run: RunId)
    requires Exposed(s, epoch, run) && |s.queue| > 1 && Drainable(PopOp(s)) && RetriesStop(PopOp(s))
    ensures Exposed(PopOp(s), epoch, run)
  {
    PopStaysQuiet(s, run);
  }

  lemma PopStaysQuiet(s: Server, run: RunId)
    requires Orderly(s) && |s.queue| > 1 && !SomeoneAwaits(s.queue[..|s.queue| - 1], run)
    ensures var rest := s.queue[1..]; !SomeoneAwaits(rest[..|rest| - 1], run)
  {
    var ahead, rest := s.queue[..|s.queue| - 1], s.queue[1..];
    assert rest[..|rest| - 1] == ahead[1..];
    assert forall i :: 0 <= i < |ahead[1..]| ==> ahead[1..][i] == ahead[i + 1] && ahead[i + 1] == s.queue[i + 1];
  }

  lemma MoveStaysQuiet(s: Server, stage: Stage, run: RunId)
    requires |s.queue| > 1 && !SomeoneAwaits(s.queue[..|s.queue| - 1], run)
    requires stage.AwaitClose? || stage.AwaitDrop?
    ensures var moved := [s.queue[0].(stage := stage)] + s.queue[1..]; !SomeoneAwaits(moved[..|moved| - 1], run)
  {
    var ahead, moved := s.queue[..|s.queue| - 1], [s.queue[0].(stage := stage)] + s.queue[1..];
    assert forall i :: 1 <= i < |ahead| ==> moved[..|moved| - 1][i] == ahead[i];
  }

  /** The operations ahead can be done with while the run in flight stands still. */
  lemma {:induction false} OwnTurnComes(s: Server, epoch: nat, run: RunId) returns (steps: seq<Step>)
    requires Exposed(s, epoch, run)
    ensures Possible(s, steps) && Undisturbed(steps)
    ensures var t := Exec(s, steps); Exposed(t, epoch, run) && |t.queue| == 1
    decreases |s.queue|, SegmentsLeft(s)
  {
    if |s.queue| == 1 {
      steps := [];
    } else {
      var ready := HeadLetsRunBe(s, epoch, run);
      var t := Exec(s, ready);
      OpAdvances(t, false);
      OpStaysExposed(t, epoch, run);
      var rest := OwnTurnComes(Next(t, RunOp(false)), epoch, run);
      Then(t, RunOp(false), rest);
      After(s, ready, [RunOp(false)] + rest);
      steps := ready + ([RunOp(false)] + rest);
    }
  }

  lemma HeadLetsRunBe(s: Server, epoch: nat, run: RunId) returns (steps: seq<Step>)
    requires Exposed(s, epoch, run) && |s.queue| > 1
    ensures Possible(s, steps) && Undisturbed(steps)
    ensures var t := Exec(s, steps); Exposed(t, epoch, run) && OpReady(t) && t.queue == s.queue
  {
    if OpReady(s) {
      steps := [];
    } else {
      var other := s.queue[0].stage.run.value;
      assert s.queue[..|s.queue| - 1][0] == s.queue[0];
      steps := RunCanSettle(s, other);
      StepsKeepDrainable(s, steps);
      ReadyStaysExposed(s, Exec(s, steps), other, epoch, run);
    }
  }

  /** The trust check throws, and the run settles with its rejection. */
  lemma RunCanReject(s: Server, run: RunId) returns (steps: seq<Step>)
    requires run < |s.runs| && (s.runs[run].phase.AwaitingTrust? || s.runs[run].phase.Rejected?)
    ensures Possible(s, steps) && Undisturbed(steps)
    ensures var t := Exec(s, steps);
      t.queue == s.queue && t.IsSettled(run) && t.runs[run].phase == Settled(false)
  {
    if s.runs[run].phase.AwaitingTrust? {
      var t := Next(s, TrustFails(run));
      assert Next(t, Settle(run)).runs[run].phase == Settled(false);
      Then(t, Settle(run), []);
      Then(s, TrustFails(run), [Settle(run)]);
      steps := [TrustFails(run)] + [Settle(run)];
    } else {
      assert Next(s, Settle(run)).runs[run].phase == Settled(false);
      Then(s, Settle(run), []);
      steps := [Settle(run)];
    }
  }

  lemma {:induction false} RejectedLater(s: Server, first: seq<Step>, rest: seq<Step>, epoch: nat)
    requires Possible(s, first) && Possible(Exec(s, first), rest) && Possible(s, first + rest)
    requires AwaitRejected(Exec(s, first), rest, epoch)
    ensures AwaitRejected(s, first + rest, epoch)
    decreases |first|
  {
    if first == [] {
      assert first + rest == rest;
    } else {
      assert (first + rest)[1..] == first[1..] + rest;
      RejectedLater(Next(s, first[0]), first[1..], rest, epoch);
    }
  }

  /** Once it is the disconnect's turn: it awaits the run, which rejects. */
  lemma OwnAwaitCanReject(s: Server, epoch: nat, run: RunId) returns (steps: seq<Step>)
    requires Exposed(s, epoch, run) && |s.queue| == 1
    ensures Drains(s, steps) && Undisturbed(steps) && AwaitRejected(s, steps, epoch)
  {
    var s1 := Next(s, RunOp(false));
    assert s1.queue == [QueuedOp(DisconnectOp(epoch), AwaitRun(Some(run)))] && s1.runs == s.runs;
    var rejecting := RunCanReject(s1, run);
    var s2 := Exec(s1, rejecting);
    assert AwaitRejects(s2, RunOp(false), epoch);
    assert Next(s2, RunOp(false)).queue == [];
    Then(s2, RunOp(false), []);
    After(s1, rejecting, [RunOp(false)]);
    RejectedLater(s1, rejecting, [RunOp(false)], epoch);
    var rest := rejecting + [RunOp(false)];
    Then(s, RunOp(false), rest);
    steps := [RunOp(false)] + rest;
    assert steps[1..] == rest;
  }

  lemma DoubtIsExposure(s: Server)
    requires Drainable(s) && RetriesStop(s) && Doubtful(s)
    ensures Exposed(DisconnectCall(s), s.epoch + 1, s.inFlight.value.run)
  {
    var called := DisconnectCall(s);
    DrainableKept(s, CallDisconnect);
    CallStops(s);
    assert called.queue[..|called.queue| - 1] == s.queue;
    forall i | 0 <= i < |called.queue| && called.queue[i].op.ConnectOp?
      ensures called.queue[i].op.epochAtCall < s.epoch + 1
    {
      assert called.queue[i] == s.queue[i] && RemembersUpTo(s.queue[i].op, s.epoch);
    }
  }

  lemma DoubtCanSwallow(s: Server) returns (steps: seq<Step>)
    requires Drainable(s) && RetriesStop(s) && Doubtful(s)
    ensures Drains(DisconnectCall(s), steps) && Undisturbed(steps) && AwaitRejected(DisconnectCall(s), steps, s.epoch + 1)
  {
    var called, epoch, run := DisconnectCall(s), s.epoch + 1, s.inFlight.value.run;
    DoubtIsExposure(s);
    var first := OwnTurnComes(called, epoch, run);
    var t := Exec(called, first);
    var rest := OwnAwaitCanReject(t, epoch, run);
    After(called, first, rest);
    RejectedLater(called, first, rest, epoch);
    steps := first + rest;
  }

  // ------------------------------------------------------- the condition

  /** At the call, in every reachable state: the disconnect wins however the
      queue drains without another call if and only if no retry waits in the queue
      and no dial in flight that may still reject is the disconnect's to await. */
  lemma DisconnectAlwaysWinsExactlyWithoutDoubt(before: seq<Step>)
    requires Possible(Fresh, before)
    ensures var s := Exec(Fresh, before);
      AlwaysWins(DisconnectCall(s), s.epoch + 1) <==> NoRetryWaiting(s) && !Doubtful(s)
  {
    var s := Exec(Fresh, before);
    var called := DisconnectCall(s);
    FreshDrainable();
    StepsKeepDrainable(Fresh, before);
    if NoRetryWaiting(s) && !Doubtful(s) {
      forall after | Drains(called, after) ensures Won(Exec(called, after), called.epoch) {
        DisconnectWinsWithoutDoubt(before, after);
      }
    } else {
      var after := SomeDrainLoses(before);
      assert Drains(called, after);
    }
  }

  lemma SomeDrainLoses(before: seq<Step>) returns (after: seq<Step>)
    requires Possible(Fresh, before)
    requires !NoRetryWaiting(Exec(Fresh, before)) || Doubtful(Exec(Fresh, before))
    ensures var called := DisconnectCall(Exec(Fresh, before));
      Drains(called, after) && !Won(Exec(called, after), called.epoch)
  {
    var s := Exec(Fresh, before);
    var called := DisconnectCall(s);
    FreshDrainable();
    StepsKeepDrainable(Fresh, before);
    if NoRetryWaiting(s) {
      assert RetriesStop(s);
      after := DoubtCanSwallow(s);
    } else {
      DrainableKept(s, CallDisconnect);
      var i :| 0 <= i < |s.queue| && s.queue[i].op.RetryOp? && s.queue[i].stage.Queued?;
      assert called.queue[i] == s.queue[i];
      after := RetryCanAct(called);
    }
    OnItsOwnIsNoPublicCall(after);
    LastCallWins(before, after);
  }
}
