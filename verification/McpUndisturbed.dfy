/** The condition for a session that is not disposed of: it is weaker, and exact
    again, since a retry that never acts does no harm. */
module McpUndisturbed {
  import opened Common
  import opened McpProtocol
  import opened McpSafety
  import opened McpLastCall
  import opened McpDrain
  import opened McpExact
  import opened McpRetries
  import opened McpLosses

  // --------------------------------------------------- a retry that will act

  /** Some retry will act, unless another one does before it: no client will be
      connected at its turn, or a reconnect is under way. */
  ghost predicate PoisedAt(s: Server, i: int) {
    && RetryWaitsAt(s, i)
    && (s.connected.None? || s.reconnecting.Some? || exists j :: 0 <= j < i && MayDrop(s, s.queue[j]))
  }

  ghost predicate Poised(s: Server) {
    s.disabled && s.inFlight.None? && OldConnects(s) && exists i :: PoisedAt(s, i)
  }

  /** The head goes, and leaves a retry behind it poised as it was. */
  lemma PopStaysPoised(s: Server, i: int)
    requires PoisedAt(s, i) && s.queue != [] && i > 0 && !MayDrop(s, s.queue[0])
    ensures PoisedAt(PopOp(s), i - 1)
  {
    var t := PopOp(s);
    assert RetryWaitsAt(t, i - 1);
    if !s.connected.None? && !s.reconnecting.Some? {
      var j :| 0 <= j < i && MayDrop(s, s.queue[j]);
      assert MayDrop(t, t.queue[j - 1]);
    }
  }

  lemma MoveStaysPoised(s: Server, t: Server, stage: Stage, i: int)
    requires PoisedAt(s, i) && i > 0 && t.queue == s.queue && t.runs == s.runs && t.reconnecting == s.reconnecting
    requires t.connected.None? || (t.connected == s.connected && !MayDrop(s, s.queue[0]))
    ensures PoisedAt(SetStage(t, stage), i)
  {
    var u := SetStage(t, stage);
    assert RetryWaitsAt(u, i);
    if !u.connected.None? && !u.reconnecting.Some? {
      var j :| 0 <= j < i && MayDrop(s, s.queue[j]);
      assert u.queue[j] == s.queue[j] && MayDrop(u, u.queue[j]);
    }
  }

  lemma DisconnectStaysPoised(s: Server, epoch: nat, i: int)
    requires Orderly(s) && OpReady(s) && s.inFlight.None? && PoisedAt(s, i) && s.queue[0].op.DisconnectOp?
    ensures var t := StepDisconnectOp(s, epoch); PoisedAt(t, i) || PoisedAt(t, i - 1)
  {
    assert i > 0;
    match s.queue[0].stage
    case Queued => DropStaysPoised(s, i);
    case AwaitRun(run) => if s.AwaitThrows(run) { PopStaysPoised(s, i); } else { DropStaysPoised(s, i); }
    case AwaitClose => MoveStaysPoised(s, s.(tools := NoTools), AwaitDrop, i);
    case AwaitDrop => PopStaysPoised(s, i);
  }

  lemma DropStaysPoised(s: Server, i: int)
    requires PoisedAt(s, i) && i > 0
    ensures PoisedAt(DropForDisconnect(s), i)
  {
    MoveStaysPoised(s, DropClient(s), if s.connected.Some? then AwaitClose else AwaitDrop, i);
  }

  lemma OpStaysPoised(s: Server)
    requires Poised(s) && Orderly(s) && OpReady(s)
    ensures var t := StepOp(s, false); t.retriesActed > s.retriesActed || Poised(t)
  {
    var i :| PoisedAt(s, i);
    match s.queue[0].op {
      case ConnectOp(reenable, epochAtCall) => PopStaysPoised(s, i);
      case RetryOp =>
        if s.queue[0].stage.Queued? && !RetryIsNoOp(s) {
          DialAndWaitStarts(ResetForRetry(s), false);
        } else {
          PopStaysPoised(s, i);
        }
      case DisconnectOp(epoch) =>
        DisconnectOpSteps(s, epoch);
        DisconnectStaysPoised(s, epoch, i);
        ConnectsStayOld(s, StepOp(s, false));
    }
  }

  lemma ConnectsStayOld(s: Server, t: Server)
    requires OldConnects(s) && s.queue != [] && HeadMoved(s, t) && t.epoch == s.epoch
    ensures OldConnects(t)
  {
    forall i | 0 <= i < |t.queue| && t.queue[i].op.ConnectOp?
      ensures t.queue[i].op.epochAtCall < t.epoch
    {
      assert if t.queue == s.queue[1..] then t.queue[i] == s.queue[i + 1] else t.queue[i].op == s.queue[i].op;
    }
  }

  lemma SettlingStaysPoised(s: Server, t: Server, run: RunId, i: int)
    requires PoisedAt(s, i) && run < |s.runs| && OnlyRun(s, t, run)
    requires RejectingPhase(t.runs[run].phase) == RejectingPhase(s.runs[run].phase)
    ensures PoisedAt(t, i)
  {
    assert RetryWaitsAt(t, i);
    if !s.connected.None? && !s.reconnecting.Some? {
      var j :| 0 <= j < i && MayDrop(s, s.queue[j]);
      assert MayDrop(t, t.queue[j]);
    }
  }

  /** A run that settles leaves the retry poised. */
  lemma ReadyStaysPoised(s: Server, t: Server, run: RunId)
    requires Poised(s) && run < |s.runs| && OnlyRun(s, t, run)
    requires RejectingPhase(t.runs[run].phase) == RejectingPhase(s.runs[run].phase)
    ensures Poised(t)
  {
    var i :| PoisedAt(s, i);
    SettlingStaysPoised(s, t, run, i);
  }

  ghost predicate Bound(s: Server, retries: nat) {
    Drainable(s) && s.retriesActed >= retries && (s.retriesActed > retries || Poised(s))
  }

  lemma HeadGetsReadyBound(s: Server, retries: nat) returns (steps: seq<Step>)
    requires Bound(s, retries) && s.queue != []
    ensures Possible(s, steps) && Undisturbed(steps)
    ensures var t := Exec(s, steps); Bound(t, retries) && OpReady(t) && t.queue == s.queue
  {
    if OpReady(s) {
      steps := [];
    } else {
      var run := s.queue[0].stage.run.value;
      steps := RunCanSettle(s, run);
      StepsKeepDrainable(s, steps);
      if Poised(s) {
        ReadyStaysPoised(s, Exec(s, steps), run);
      }
    }
  }

  lemma OpStaysBound(s: Server, retries: nat)
    requires Bound(s, retries) && OpReady(s)
    ensures Bound(StepOp(s, false), retries)
  {
    DrainableKept(s, RunOp(false));
    OpMoves(s, false);
    if s.retriesActed == retries {
      OpStaysPoised(s);
    }
  }

  lemma {:induction false} BoundDrains(s: Server, retries: nat) returns (steps: seq<Step>)
    requires Bound(s, retries)
    ensures Drains(s, steps) && Undisturbed(steps) && Exec(s, steps).retriesActed > retries
    decreases |s.queue|, SegmentsLeft(s)
  {
    if s.queue == [] {
      steps := [];
    } else {
      var ready := HeadGetsReadyBound(s, retries);
      var t := Exec(s, ready);
      OpAdvances(t, false);
      OpStaysBound(t, retries);
      var rest := BoundDrains(Next(t, RunOp(false)), retries);
      Then(t, RunOp(false), rest);
      After(s, ready, [RunOp(false)] + rest);
      steps := ready + ([RunOp(false)] + rest);
    }
  }

  /** The dial in flight, if there is one, can be made to settle. */
  lemma FlightCanEnd(s: Server) returns (steps: seq<Step>)
    requires Drainable(s) && s.disabled && OldConnects(s) && exists i :: PoisedAt(s, i)
    ensures Possible(s, steps) && Undisturbed(steps)
    ensures Bound(Exec(s, steps), s.retriesActed)
  {
    if s.inFlight.None? {
      steps := [];
    } else {
      var run := s.inFlight.value.run;
      steps := RunCanSettle(s, run);
      StepsKeepDrainable(s, steps);
      var i :| PoisedAt(s, i);
      SettlingStaysPoised(s, Exec(s, steps), run, i);
    }
  }

  lemma CallIsPoised(s: Server, i: int)
    requires PoisedAt(s, i) && Orderly(s)
    ensures PoisedAt(DisconnectCall(s), i) && OldConnects(DisconnectCall(s))
  {
    var called := DisconnectCall(s);
    assert forall k :: 0 <= k < |s.queue| ==> called.queue[k] == s.queue[k];
    assert RetryWaitsAt(called, i);
    if !s.connected.None? && !s.reconnecting.Some? {
      var j :| 0 <= j < i && MayDrop(s, s.queue[j]);
      assert MayDrop(called, called.queue[j]);
    }
    forall k | 0 <= k < |called.queue| && called.queue[k].op.ConnectOp?
      ensures called.queue[k].op.epochAtCall < called.epoch
    {
      assert RemembersUpTo(s.queue[k].op, s.epoch);
    }
  }

  lemma NotStoppedIsPoised(s: Server) returns (i: int)
    requires !RetriesStop(s)
    ensures PoisedAt(s, i)
  {
    i :| RetryWaitsAt(s, i) && !(s.connected.Some? && s.reconnecting.None? && forall j :: 0 <= j < i ==> !MayDrop(s, s.queue[j]));
  }

  lemma RetryCanActUndisturbed(s: Server) returns (steps: seq<Step>)
    requires Drainable(s) && !RetriesStop(s)
    ensures Drains(DisconnectCall(s), steps) && Undisturbed(steps)
    ensures Exec(DisconnectCall(s), steps).retriesActed > s.retriesActed
  {
    var called := DisconnectCall(s);
    DrainableKept(s, CallDisconnect);
    var i := NotStoppedIsPoised(s);
    CallIsPoised(s, i);
    var first := FlightCanEnd(called);
    var rest := BoundDrains(Exec(called, first), called.retriesActed);
    After(called, first, rest);
    steps := first + rest;
  }

  // ------------------------------------------------------- the condition

  /** However the queue drains without another call and without disposal. */
  ghost predicate WinsUndisturbed(called: Server, epoch: nat) {
    forall after :: Drains(called, after) && Undisturbed(after) ==> Won(Exec(called, after), epoch)
  }

  /** While the session is not disposed of, the condition is weaker and exact
      again: every waiting retry will be stopped by a connected client, and no dial
      in flight that may still reject is the disconnect's to await. */
  lemma DisconnectWinsUndisturbedExactly(before: seq<Step>)
    requires Possible(Fresh, before)
    ensures var s := Exec(Fresh, before);
      WinsUndisturbed(DisconnectCall(s), s.epoch + 1) <==> RetriesStop(s) && !Doubtful(s)
  {
    var s := Exec(Fresh, before);
    var called := DisconnectCall(s);
    if RetriesStop(s) && !Doubtful(s) {
      forall after | Drains(called, after) && Undisturbed(after) ensures Won(Exec(called, after), called.epoch) {
        DisconnectWinsOverStoppedRetries(before, after);
      }
    } else {
      var after := SomeUndisturbedDrainLoses(before);
      assert Drains(called, after);
    }
  }

  lemma SomeUndisturbedDrainLoses(before: seq<Step>) returns (after: seq<Step>)
    requires Possible(Fresh, before)
    requires !RetriesStop(Exec(Fresh, before)) || Doubtful(Exec(Fresh, before))
    ensures var called := DisconnectCall(Exec(Fresh, before));
      Drains(called, after) && Undisturbed(after) && !Won(Exec(called, after), called.epoch)
  {
    FreshDrainable();
    StepsKeepDrainable(Fresh, before);
    after := SomeDrainFails(Exec(Fresh, before));
    Outcome(before, after);
  }

  lemma SomeDrainFails(s: Server) returns (after: seq<Step>)
    requires Drainable(s) && (!RetriesStop(s) || Doubtful(s))
    ensures var called := DisconnectCall(s);
      && Drains(called, after) && Undisturbed(after)
      && (Exec(called, after).retriesActed > called.retriesActed || AwaitRejected(called, after, called.epoch))
  {
    if RetriesStop(s) {
      after := DoubtCanSwallow(s);
    } else {
      after := RetryCanActUndisturbed(s);
    }
  }

  lemma Outcome(before: seq<Step>, after: seq<Step>)
    requires Possible(Fresh, before) && Drains(DisconnectCall(Exec(Fresh, before)), after)
    ensures var called := DisconnectCall(Exec(Fresh, before));
      Won(Exec(called, after), called.epoch)
      <==> Exec(called, after).retriesActed == called.retriesActed && !AwaitRejected(called, after, called.epoch)
  {
    OnItsOwnIsNoPublicCall(after);
    LastCallWins(before, after);
  }
}
