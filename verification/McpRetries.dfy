/** When a retry that waits in the queue comes to nothing, as long as the session
    is not disposed of: at its turn a client is connected and nothing reconnects. */
module McpRetries {
  import opened Common
  import opened McpProtocol
  import opened McpSafety
  import opened McpLastCall
  import opened McpDrain
  import opened McpExact

  predicate RetryWaitsAt(s: Server, i: int) {
    0 <= i < |s.queue| && s.queue[i].op.RetryOp? && s.queue[i].stage.Queued?
  }

  predicate AwaitsRejection(s: Server, run: Option<RunId>) {
    run.Some? && run.value < |s.runs| && RejectingPhase(s.runs[run.value].phase)
  }

  /** A disconnect that may still come to drop the client: it has not started, or
      awaits a dial that has not rejected. */
  predicate MayDrop(s: Server, op: QueuedOp) {
    op.op.DisconnectOp? && (op.stage.Queued? || (op.stage.AwaitRun? && !AwaitsRejection(s, op.stage.run)))
  }

  /** Every waiting retry will find a client connected and nothing reconnecting:
      that is so now, and no disconnect ahead of it may drop the client. */
  ghost predicate RetriesStop(s: Server) {
    forall i :: RetryWaitsAt(s, i) ==>
      s.connected.Some? && s.reconnecting.None? && forall j :: 0 <= j < i ==> !MayDrop(s, s.queue[j])
  }

  /** Every queued connect is of an older epoch. */
  predicate OldConnects(s: Server) {
    forall i :: 0 <= i < |s.queue| && s.queue[i].op.ConnectOp? ==> s.queue[i].op.epochAtCall < s.epoch
  }

  lemma AfterDisconnectConnectsAreOld(s: Server, epoch: nat)
    requires AfterDisconnect(s, epoch)
    ensures OldConnects(s)
  {
  }

  /** `t` has the same retries to stop as `s`, or fewer, and the same to stop them. */
  lemma StopsStill(s: Server, t: Server)
    requires RetriesStop(s) && t.connected == s.connected && (t.reconnecting == s.reconnecting || t.reconnecting.None?)
    requires t.queue == s.queue
    requires forall r :: 0 <= r < |s.runs| && RejectingPhase(s.runs[r].phase) ==> r < |t.runs| && RejectingPhase(t.runs[r].phase)
    ensures RetriesStop(t)
  {
    forall i | RetryWaitsAt(t, i)
      ensures t.connected.Some? && t.reconnecting.None? && forall j :: 0 <= j < i ==> !MayDrop(t, t.queue[j])
    {
      assert RetryWaitsAt(s, i);
      forall j | 0 <= j < i
        ensures !MayDrop(t, t.queue[j])
      {
        assert !MayDrop(s, s.queue[j]);
      }
    }
  }

  lemma PopStops(s: Server)
    requires RetriesStop(s) && s.queue != []
    ensures RetriesStop(PopOp(s))
  {
    var t := PopOp(s);
    forall i | RetryWaitsAt(t, i)
      ensures t.connected.Some? && t.reconnecting.None? && forall j :: 0 <= j < i ==> !MayDrop(t, t.queue[j])
    {
      assert RetryWaitsAt(s, i + 1);
      forall j | 0 <= j < i
        ensures !MayDrop(t, t.queue[j])
      {
        assert !MayDrop(s, s.queue[j + 1]);
      }
    }
  }

  /** The head moves to a stage at which it drops nothing any more. */
  lemma SuspendStops(s: Server, t: Server, stage: Stage)
    requires RetriesStop(s) && s.queue != [] && s.queue[0].op.DisconnectOp?
    requires t.queue == s.queue && t.runs == s.runs && t.connected == s.connected && t.reconnecting == s.reconnecting
    requires stage.AwaitClose? || stage.AwaitDrop?
    ensures RetriesStop(SetStage(t, stage))
  {
    var u := SetStage(t, stage);
    forall i | RetryWaitsAt(u, i)
      ensures u.connected.Some? && u.reconnecting.None? && forall j :: 0 <= j < i ==> !MayDrop(u, u.queue[j])
    {
      assert RetryWaitsAt(s, i);
      forall j | 0 <= j < i
        ensures !MayDrop(u, u.queue[j])
      {
        assert !MayDrop(s, s.queue[j]);
      }
    }
  }

  /** With no retry waiting behind the head, moving the head leaves none. */
  lemma HeadMovedLeavesNone(s: Server, t: Server)
    requires s.queue != [] && HeadMoved(s, t) && s.queue[0].op.DisconnectOp?
    requires forall i :: !RetryWaitsAt(s, i)
    ensures RetriesStop(t)
  {
    forall i
      ensures !RetryWaitsAt(t, i)
    {
      if RetryWaitsAt(t, i) {
        assert if t.queue == s.queue[1..] then RetryWaitsAt(s, i + 1) else RetryWaitsAt(s, i);
      }
    }
  }

  lemma DisconnectStops(s: Server, epoch: nat)
    requires RetriesStop(s) && s.queue != [] && s.queue[0].op.DisconnectOp? && OpReady(s)
    ensures RetriesStop(StepDisconnectOp(s, epoch))
  {
    DisconnectOpSteps(s, epoch);
    if exists i :: RetryWaitsAt(s, i) {
      var i :| RetryWaitsAt(s, i);
      assert 0 < i && !MayDrop(s, s.queue[0]);
      match s.queue[0].stage
      case AwaitRun(run) => PopStops(s);
      case AwaitClose => SuspendStops(s, s.(tools := NoTools), AwaitDrop);
      case AwaitDrop => AnsweredStops(s, epoch);
    } else {
      HeadMovedLeavesNone(s, StepDisconnectOp(s, epoch));
    }
  }

  lemma AnsweredStops(s: Server, epoch: nat)
    requires RetriesStop(s) && s.queue != [] && s.queue[0].op.DisconnectOp? && s.queue[0].stage.AwaitDrop?
    ensures RetriesStop(StepDisconnectOp(s, epoch))
  {
    PopStops(s);
    StopsStill(PopOp(s), StepDisconnectOp(s, epoch));
  }

  /** A queued operation's segment lets no retry act, and leaves the others to be stopped. */
  lemma OpStops(s: Server, local: bool)
    requires RetriesStop(s) && OpReady(s) && OldConnects(s)
    ensures StepOp(s, local).retriesActed == s.retriesActed && RetriesStop(StepOp(s, local))
  {
    match s.queue[0].op {
      case ConnectOp(reenable, epochAtCall) =>
        assert StepOp(s, local) == PopOp(s);
        PopStops(s);
      case RetryOp =>
        RetryIsStopped(s, local);
        PopStops(s);
      case DisconnectOp(epoch) =>
        DisconnectOpSteps(s, epoch);
        DisconnectStops(s, epoch);
    }
  }

  lemma RetryIsStopped(s: Server, local: bool)
    requires RetriesStop(s) && s.queue != [] && s.queue[0].op.RetryOp?
    ensures StepOp(s, local) == PopOp(s)
  {
    if s.queue[0].stage.Queued? {
      assert RetryWaitsAt(s, 0);
    }
  }

  // --------------------------------------------- steps besides the queue

  /** While the name is disabled its client stays, and no reconnect begins. */
  lemma ClientStays(s: Server, step: Step)
    requires Inv(s) && s.disabled && Enabled(s, step) && !FromOutside(step) && !step.RunOp? && !step.Dispose?
    ensures var t := Next(s, step);
      t.connected == s.connected && (t.reconnecting == s.reconnecting || t.reconnecting.None?)
  {
    match step
    case Startup(local) => ConnectOneIsSame(s, s.epoch, local, None);
    case Trust(run, allowed) => TrustIsSame(s, run, allowed);
    case AskAuth(run) => ReportIsSame(s, s.runs[run].watcher, NeedsAuth);
    case Reauthorized(run) => ReportIsSame(s, s.runs[run].watcher, Connected);
    case Continue(run, mount) => ContinueIsSame(s, run, mount);
    case Closed(run) => CloseIsSame(s, run);
    case Wake(loop, local) => WakeIsSame(s, loop, local);
    case Resume(loop) => ResumeIsSame(s, loop);
    case Death(run) => DeathIsSame(s, s.runs[run].epoch, s.runs[run].watcher);
    case _ =>
  }

  lemma OtherStops(s: Server, step: Step)
    requires Inv(s) && RetriesStop(s) && s.disabled
    requires Enabled(s, step) && !FromOutside(step) && !step.RunOp? && !step.Dispose?
    ensures RetriesStop(Next(s, step))
  {
    OtherStepCalm(s, step);
    RejectionsStay(s, step);
    ClientStays(s, step);
    StopsStill(s, Next(s, step));
  }

  lemma RejectionsStay(s: Server, step: Step)
    requires Enabled(s, step)
    ensures var t := Next(s, step);
      forall r :: 0 <= r < |s.runs| && RejectingPhase(s.runs[r].phase) ==> r < |t.runs| && RejectingPhase(t.runs[r].phase)
  {
    NextRunsMove(s, step);
  }

  lemma StepStops(s: Server, step: Step, epoch: nat)
    requires Secure(s, epoch) && RetriesStop(s) && Enabled(s, step) && !FromOutside(step) && !step.Dispose?
    ensures RetriesStop(Next(s, step)) && Next(s, step).retriesActed == s.retriesActed
  {
    if step.RunOp? {
      AfterDisconnectConnectsAreOld(s, epoch);
      OpStops(s, step.local);
    } else {
      OtherStepCalm(s, step);
      OtherStops(s, step);
    }
  }

  lemma {:induction false} StepsStop(s: Server, steps: seq<Step>, epoch: nat)
    requires Secure(s, epoch) && RetriesStop(s) && Possible(s, steps) && Undisturbed(steps)
    ensures !AwaitRejected(s, steps, epoch) && Exec(s, steps).retriesActed == s.retriesActed
    decreases |steps|
  {
    if steps != [] {
      assert !FromOutside(steps[0]);
      StepStops(s, steps[0], epoch);
      StepSecure(s, steps[0], epoch);
      StepsStop(Next(s, steps[0]), steps[1..], epoch);
    }
  }

  lemma CallStops(s: Server)
    requires RetriesStop(s)
    ensures RetriesStop(DisconnectCall(s))
  {
    var called := DisconnectCall(s);
    forall i | RetryWaitsAt(called, i)
      ensures called.connected.Some? && called.reconnecting.None?
              && forall j :: 0 <= j < i ==> !MayDrop(called, called.queue[j])
    {
      assert called.queue[i] == s.queue[i] && RetryWaitsAt(s, i);
      forall j | 0 <= j < i
        ensures !MayDrop(called, called.queue[j])
      {
        assert called.queue[j] == s.queue[j] && !MayDrop(s, s.queue[j]);
      }
    }
  }

  /** While the session is not disposed of, the disconnect wins also with retries
      waiting, if each of them will be stopped by a client. */
  lemma DisconnectWinsOverStoppedRetries(before: seq<Step>, after: seq<Step>)
    requires Possible(Fresh, before) && RetriesStop(Exec(Fresh, before)) && !Doubtful(Exec(Fresh, before))
    requires Drains(DisconnectCall(Exec(Fresh, before)), after) && Undisturbed(after)
    ensures var called := DisconnectCall(Exec(Fresh, before)); Won(Exec(called, after), called.epoch)
  {
    var s := Exec(Fresh, before);
    FreshDrainable();
    StepsKeepDrainable(Fresh, before);
    CallIsSecure(s);
    CallStops(s);
    StepsStop(DisconnectCall(s), after, s.epoch + 1);
    OnItsOwnIsNoPublicCall(after);
    LastCallWins(before, after);
  }
}
