/** The last public call on a name wins: what holds once its operation queue
    has drained and the last call was a disconnect. */
module McpLastCall {
  import opened Common
  import opened McpProtocol

  /** Nothing of the server is left in the session. */
  predicate Gone(s: Server) {
    s.connected.None? && s.tools.NoTools? && !s.registered
  }

  /** How often the disconnect call that opened `epoch` was answered. */
  function Answers(log: seq<Status>, epoch: nat): nat {
    if log == [] then 0
    else Answers(log[..|log| - 1], epoch) + if log[|log| - 1] == Disconnected(epoch) then 1 else 0
  }

  predicate IsPublicCall(step: Step) {
    step.CallConnect? || step.CallDisconnect? || step.CallRetry?
  }

  lemma AnswersEmit(s: Server, status: Status, epoch: nat)
    ensures Answers(Emit(s, status).log, epoch) == Answers(s.log, epoch) + if status == Disconnected(epoch) then 1 else 0
  {
    assert (s.log + [status])[..|s.log|] == s.log;
  }

  /** `t` has the queue, epoch, disabled flag and answers of `s`, and no fewer runs. */
  ghost predicate Calm(s: Server, t: Server) {
    && t.queue == s.queue && t.epoch == s.epoch && t.disabled == s.disabled && t.retriesActed == s.retriesActed
    && (forall e :: Answers(t.log, e) == Answers(s.log, e))
    && |t.runs| >= |s.runs|
  }

  lemma ReportCalm(s: Server, watcher: Option<LoopId>, status: Status)
    requires !status.Disconnected?
    ensures Calm(s, Report(s, watcher, status))
  {
    forall e ensures Answers(Emit(s, status).log, e) == Answers(s.log, e) {
      AnswersEmit(s, status, e);
    }
    assert Report(s, watcher, status).log in {s.log, Emit(s, status).log};
  }

  lemma PhaseCalm(s: Server, run: RunId, phase: RunPhase)
    requires run < |s.runs|
    ensures Calm(s, SetPhase(s, run, phase))
  {
  }

  lemma BeginDialCalm(s: Server, run: RunId)
    requires run < |s.runs|
    ensures Calm(s, BeginDial(s, run))
  {
    PhaseCalm(s, run, Finished);
    PhaseCalm(s, run, Dialing);
    ReportCalm(SetPhase(s, run, Dialing), s.runs[run].watcher, Connecting);
  }

  lemma ConnectOneCalm(s: Server, epoch: nat, local: bool, watcher: Option<LoopId>)
    ensures var t := ConnectOne(s, epoch, local, watcher).0;
            Calm(s, t) && t.connected == s.connected && t.registered == s.registered && t.tools == s.tools
  {
    var id := |s.runs|;
    var begun := s.(runs := s.runs + [Run(epoch, watcher, AwaitingTrust)], inFlight := Some(InFlight(id, epoch)));
    assert Calm(s, begun);
    BeginDialCalm(begun, id);
  }

  lemma DialCalm(s: Server, run: RunId, result: DialResult)
    requires run < |s.runs|
    ensures Calm(s, DialResolved(s, run, result))
  {
    PhaseCalm(s, run, DialResolved(s, run, result).runs[run].phase);
  }

  lemma TrustCalm(s: Server, run: RunId, allowed: bool)
    requires run < |s.runs|
    ensures Calm(s, TrustDecided(s, run, allowed))
  {
    PhaseCalm(s, run, Finished);
    ReportCalm(SetPhase(s, run, Finished), s.runs[run].watcher, Failed(true));
    BeginDialCalm(s, run);
  }

  lemma ContinueCalm(s: Server, run: RunId, mount: MountResult)
    requires run < |s.runs| && s.runs[run].phase.Resolved?
    ensures Calm(s, RunContinues(s, run, mount))
  {
    var r := s.runs[run];
    PhaseCalm(s, run, Finished);
    match r.phase.outcome {
      case Client(id) => KeepClientCalm(s, run, id, mount);
      case Refused(final) => ReportCalm(SetPhase(s, run, Finished), r.watcher, Failed(final));
      case Threw(final) => ReportCalm(SetPhase(s, run, Finished), r.watcher, Failed(final));
    }
  }

  lemma KeepClientCalm(s: Server, run: RunId, client: ClientId, mount: MountResult)
    requires run < |s.runs|
    ensures Calm(s, KeepClient(s, run, client, mount))
  {
    var t := KeepClient(s, run, client, mount);
    if s.Cancelled(s.runs[run].epoch) || mount.MountThrew? {
      assert t.runs == SetPhase(s, run, t.runs[run].phase).runs;
      PhaseCalm(s, run, t.runs[run].phase);
    } else {
      var mounted := s.(registered := true, tools := Live(client), connected := Some(client));
      PhaseCalm(mounted, run, Finished);
      ReportCalm(SetPhase(mounted, run, Finished), s.runs[run].watcher, Connected);
    }
  }

  lemma CloseSettledCalm(s: Server, run: RunId)
    requires run < |s.runs| && s.runs[run].phase.Closing?
    ensures Calm(s, CloseSettled(s, run))
  {
    PhaseCalm(s, run, Finished);
    if s.runs[run].phase.report.Some? {
      ReportCalm(SetPhase(s, run, Finished), s.runs[run].watcher, Failed(s.runs[run].phase.report.value));
    }
  }

  lemma SettleCalm(s: Server, run: RunId)
    requires run < |s.runs| && (s.runs[run].phase.Finished? || s.runs[run].phase.Rejected?)
    ensures Calm(s, RunSettles(s, run))
  {
    PhaseCalm(s, run, Settled(s.runs[run].phase.Finished?));
  }

  lemma DeathCalm(s: Server, epoch: nat, watcher: Option<LoopId>)
    ensures Calm(s, TransportDeath(s, epoch, watcher))
  {
    if s.connected.Some? {
      var dead := s.(connected := None, closed := s.closed + {s.connected.value}, tools := Stubs);
      ReportCalm(dead, watcher, Reconnecting);
    }
  }

  lemma WakeCalm(s: Server, loop: LoopId, local: bool)
    requires loop < |s.loops|
    ensures Calm(s, LoopWakes(s, loop, local))
  {
    var ready := SetLoop(s.(tools := NoTools), loop, s.loops[loop].(last := None));
    ConnectOneCalm(ready, s.loops[loop].epoch, local, Some(loop));
  }

  /** `t` differs from `s` at most in fields that `Calm` does not mention. */
  lemma QuietFieldsCalm(s: Server, t: Server)
    requires t.queue == s.queue && t.epoch == s.epoch && t.disabled == s.disabled
    requires t.retriesActed == s.retriesActed && t.log == s.log && t.runs == s.runs
    ensures Calm(s, t)
  {
  }

  lemma ResumeCalm(s: Server, loop: LoopId)
    requires loop < |s.loops| && s.loops[loop].phase.Redialing?
    ensures Calm(s, LoopResumes(s, loop))
  {
    var l := s.loops[loop];
    if s.AwaitThrows(l.phase.awaited) {
      QuietFieldsCalm(s, StopLoop(s, loop));
    } else if !OwnsReconnect(s, loop) {
      QuietFieldsCalm(s, AbandonLoop(s, loop));
    } else if l.last == Some(Connected) && s.connected.Some? {
      QuietFieldsCalm(s, StopLoop(s.(reconnecting := None), loop));
    } else if l.last == Some(Failed(true)) {
      QuietFieldsCalm(s, StopLoop(s.(reconnecting := None, tools := NoTools, registered := false), loop));
    } else {
      var stubbed := s.(tools := Stubs);
      ReportCalm(stubbed, None, Reconnecting);
      QuietFieldsCalm(Emit(stubbed, Reconnecting), SetLoop(Emit(stubbed, Reconnecting), loop, l.(phase := Sleeping)));
    }
  }

  /** Every step but a public call and a queued operation's segment is calm. */
  lemma OtherStepCalm(s: Server, step: Step)
    requires Enabled(s, step) && !IsPublicCall(step) && !step.RunOp?
    ensures Calm(s, Next(s, step))
  {
    match step
    case Startup(local) => ConnectOneCalm(s, s.epoch, local, None);
    case Dispose => QuietFieldsCalm(s, DisposeStep(s));
    case Trust(run, allowed) => TrustCalm(s, run, allowed);
    case TrustFails(run) => PhaseCalm(s, run, Rejected);
    case Dial(run, result) => DialCalm(s, run, result);
    case AskAuth(run) => ReportCalm(s, s.runs[run].watcher, NeedsAuth);
    case Reauthorized(run) => ReportCalm(s, s.runs[run].watcher, Connected);
    case Continue(run, mount) => ContinueCalm(s, run, mount);
    case Closed(run) => CloseSettledCalm(s, run);
    case Settle(run) => SettleCalm(s, run);
    case Death(run) => DeathCalm(s, s.runs[run].epoch, s.runs[run].watcher);
    case Wake(loop, local) => WakeCalm(s, loop, local);
    case Resume(loop) => ResumeCalm(s, loop);
  }

  // ------------------------------------ what the queue and the log can hold

  /** The epoch an operation remembers is no newer than `epoch`. */
  predicate RemembersUpTo(op: Op, epoch: nat) {
    match op
    case ConnectOp(_, e) => e <= epoch
    case DisconnectOp(e) => e <= epoch
    case RetryOp => true
  }

  /** Only the head of the queue has started, operations remember epochs up to
      the current one, and no later epoch has been answered. */
  ghost predicate Orderly(s: Server) {
    && (forall i :: 0 <= i < |s.queue| ==> RemembersUpTo(s.queue[i].op, s.epoch))
    && (forall i :: 1 <= i < |s.queue| ==> s.queue[i].stage.Queued?)
    && (forall e :: e > s.epoch ==> Answers(s.log, e) == 0)
  }

  /** `t.queue` is `s.queue` with its head gone or moved to another stage. */
  ghost predicate HeadMoved(s: Server, t: Server)
    requires s.queue != []
  {
    t.queue == s.queue[1..] || exists stage :: t.queue == [s.queue[0].(stage := stage)] + s.queue[1..]
  }

  /** What a segment of a connect or retry operation does. */
  ghost predicate Starts(s: Server, t: Server)
    requires s.queue != []
  {
    && HeadMoved(s, t) && t.epoch >= s.epoch
    && (forall e :: Answers(t.log, e) == Answers(s.log, e))
    && |t.runs| >= |s.runs|
    && (!s.disabled ==> !t.disabled)
  }

  /** Suspending the head operation is a move of the head. */
  lemma SuspendMoves(s: Server, stage: Stage)
    requires s.queue != []
    ensures HeadMoved(s, SetStage(s, stage))
  {
  }

  lemma DialAndWaitStarts(s: Server, local: bool)
    requires s.queue != []
    ensures var t := DialAndWait(s, local);
      && Starts(s, t) && t.retriesActed == s.retriesActed && t.disabled == s.disabled
      && t.queue[0].op == s.queue[0].op && t.queue[0].stage.AwaitRun?
  {
    ConnectOneCalm(s, s.epoch, local, None);
    var (t, awaited) := ConnectOne(s, s.epoch, local, None);
    SuspendMoves(t, AwaitRun(awaited));
  }

  lemma ConnectOpStarts(s: Server, reenable: bool, epochAtCall: nat, local: bool)
    requires s.queue != []
    ensures var t := StartConnectOp(s, reenable, epochAtCall, local);
            Starts(s, t) && t.retriesActed == s.retriesActed
  {
    DialAndWaitStarts(Reenabled(s, reenable), local);
  }

  lemma RetryOpStarts(s: Server, local: bool)
    requires s.queue != []
    ensures var t := StartRetryOp(s, local);
      && Starts(s, t)
      && (t == PopOp(s) || (t.retriesActed == s.retriesActed + 1 && !t.disabled
                            && t.queue[0].op == s.queue[0].op && t.queue[0].stage.AwaitRun?))
  {
    DialAndWaitStarts(ResetForRetry(s), local);
  }

  /** A disconnect operation says nothing until its last segment, and then
      only if its epoch is still the current one and the name disabled. */
  lemma DisconnectOpSteps(s: Server, epoch: nat)
    requires s.queue != []
    ensures var t := StepDisconnectOp(s, epoch);
      && HeadMoved(s, t) && t.runs == s.runs
      && t.epoch == s.epoch && t.disabled == s.disabled && t.retriesActed == s.retriesActed
      && t.log == (if s.queue[0].stage.AwaitDrop? && s.epoch == epoch && s.disabled
                   then s.log + [Disconnected(epoch)] else s.log)
  {
    var t := StepDisconnectOp(s, epoch);
    match s.queue[0].stage
    case Queued => DisconnectMoves(s, t);
    case AwaitRun(run) => DisconnectMoves(s, t);
    case AwaitClose => SuspendMoves(s, AwaitDrop);
    case AwaitDrop =>
  }

  lemma DisconnectMoves(s: Server, t: Server)
    requires s.queue != []
    requires t == PopOp(s) || t == DropForDisconnect(s) || exists stage :: t == SetStage(s, stage)
    ensures HeadMoved(s, t)
  {
    if t == DropForDisconnect(s) {
      SuspendMoves(s, if s.connected.Some? then AwaitClose else AwaitDrop);
    }
  }

  lemma OpMoves(s: Server, local: bool)
    requires s.queue != []
    ensures var t := StepOp(s, local);
      && HeadMoved(s, t) && t.epoch >= s.epoch
      && (forall e :: e > s.epoch ==> Answers(t.log, e) == Answers(s.log, e))
      && |t.runs| >= |s.runs|
      && (!s.disabled ==> !t.disabled)
      && (t.retriesActed == s.retriesActed || (t.retriesActed > s.retriesActed && !t.disabled))
  {
    var head := s.queue[0];
    match head.op {
      case ConnectOp(reenable, epochAtCall) => ConnectOpStarts(s, reenable, epochAtCall, local);
      case RetryOp => RetryOpStarts(s, local);
      case DisconnectOp(epoch) =>
        DisconnectOpSteps(s, epoch);
        forall e | e > s.epoch ensures Answers(StepOp(s, local).log, e) == Answers(s.log, e) {
          AnswersEmit(s, Disconnected(epoch), e);
        }
    }
  }

  lemma OrderlyKept(s: Server, step: Step)
    requires Orderly(s) && Enabled(s, step)
    ensures Orderly(Next(s, step))
  {
    if step.RunOp? {
      OpMoves(s, step.local);
    } else if !IsPublicCall(step) {
      OtherStepCalm(s, step);
    }
  }

  // --------------------------------------------------- after a disconnect

  /** The disconnect call that opened `epoch` is the last call and its
      operation is still queued, or it has been answered once. */
  ghost predicate AfterDisconnect(s: Server, epoch: nat) {
    && s.disabled && s.epoch == epoch && Orderly(s)
    && (s.queue == [] ==> Gone(s) && Answers(s.log, epoch) == 1)
    && (s.queue != [] ==> StillQueued(s, epoch))
  }

  ghost predicate StillQueued(s: Server, epoch: nat)
    requires s.queue != []
  {
    var last := s.queue[|s.queue| - 1];
    && Answers(s.log, epoch) == 0
    && last.op == DisconnectOp(epoch)
    && (forall i :: 0 <= i < |s.queue| - 1 ==>
          match s.queue[i].op
          case ConnectOp(_, e) => e < epoch
          case DisconnectOp(e) => e < epoch
          case RetryOp => true)
    && (last.stage.AwaitClose? ==> s.connected.None? && !s.registered)
    && (last.stage.AwaitDrop? ==> Gone(s))
  }

  /** While the name is disabled, nothing but queued operations can change
      what is left of the server, and that only towards nothing. */
  lemma DisabledShrinks(s: Server, step: Step)
    requires Enabled(s, step) && s.disabled && !IsPublicCall(step) && !step.RunOp?
    ensures var t := Next(s, step);
      && t.tools == s.tools && (t.registered ==> s.registered)
      && (t.connected.None? || t.connected == s.connected)
  {
    match step
    case Startup(local) => ConnectOneCalm(s, s.epoch, local, None);
    case Trust(run, allowed) => assert TrustDecided(s, run, allowed).tools == s.tools;
    case Continue(run, mount) => assert RunContinues(s, run, mount).tools == s.tools;
    case Closed(run) => assert CloseSettled(s, run).tools == s.tools;
    case Wake(loop, local) => assert LoopWakes(s, loop, local).tools == s.tools;
    case Resume(loop) => assert LoopResumes(s, loop).tools == s.tools;
    case Death(run) => assert TransportDeath(s, s.runs[run].epoch, s.runs[run].watcher) == s;
    case _ =>
  }

  lemma OtherStepAfterDisconnect(s: Server, step: Step, epoch: nat)
    requires AfterDisconnect(s, epoch) && Enabled(s, step)
    requires !IsPublicCall(step) && !step.RunOp?
    ensures AfterDisconnect(Next(s, step), epoch)
  {
    OtherStepCalm(s, step);
    DisabledShrinks(s, step);
    OrderlyKept(s, step);
  }

  /** An operation ahead of the disconnect leaves it queued. */
  lemma EarlierOpAfterDisconnect(s: Server, local: bool, epoch: nat)
    requires AfterDisconnect(s, epoch) && OpReady(s) && |s.queue| > 1
    requires StepOp(s, local).retriesActed == s.retriesActed
    ensures AfterDisconnect(StepOp(s, local), epoch)
  {
    var t := StepOp(s, local);
    OrderlyKept(s, RunOp(local));
    match s.queue[0].op {
      case ConnectOp(reenable, epochAtCall) =>
        assert t == PopOp(s);
      case RetryOp =>
        RetryOpStarts(s, local);
        assert t == PopOp(s);
      case DisconnectOp(e) =>
        DisconnectOpSteps(s, e);
    }
    LastStays(s, t, epoch);
  }

  lemma LastStays(s: Server, t: Server, epoch: nat)
    requires |s.queue| > 1 && HeadMoved(s, t) && StillQueued(s, epoch)
    requires forall i :: 1 <= i < |s.queue| ==> s.queue[i].stage.Queued?
    requires t.log == s.log
    ensures t.queue != [] && StillQueued(t, epoch)
  {
    if t.queue == s.queue[1..] {
      assert forall i :: 0 <= i < |t.queue| ==> t.queue[i] == s.queue[i + 1];
    } else {
      assert forall i :: 0 <= i < |t.queue| ==> t.queue[i].op == s.queue[i].op;
      assert t.queue[|t.queue| - 1] == s.queue[|s.queue| - 1];
    }
  }

  /** The disconnect of `epoch` resumes, and the run it awaited has rejected. */
  predicate AwaitRejects(s: Server, step: Step, epoch: nat) {
    && step.RunOp? && s.queue != [] && s.queue[0].op == DisconnectOp(epoch)
    && s.queue[0].stage.AwaitRun? && s.AwaitThrows(s.queue[0].stage.run)
  }

  /** The disconnect's own operation drops everything, then answers once, unless
      the run it awaited has rejected: then it is gone without a word. */
  lemma OwnOpAfterDisconnect(s: Server, local: bool, epoch: nat)
    requires AfterDisconnect(s, epoch) && OpReady(s) && |s.queue| == 1
    ensures var t := StepOp(s, local);
      && t.retriesActed == s.retriesActed
      && if AwaitRejects(s, RunOp(local), epoch) then t == PopOp(s) else AfterDisconnect(t, epoch)
  {
    if AwaitRejects(s, RunOp(local), epoch) {
    } else {
      OwnOpGoesOn(s, local, epoch);
    }
  }

  lemma OwnOpGoesOn(s: Server, local: bool, epoch: nat)
    requires AfterDisconnect(s, epoch) && OpReady(s) && |s.queue| == 1 && !AwaitRejects(s, RunOp(local), epoch)
    ensures AfterDisconnect(StepOp(s, local), epoch) && StepOp(s, local).retriesActed == s.retriesActed
  {
    OrderlyKept(s, RunOp(local));
    assert s.queue[0].op == DisconnectOp(epoch);
    match s.queue[0].stage {
      case Queued =>
        if s.inFlight.Some? {
          SuspendStays(s, s, AwaitRun(Some(s.inFlight.value.run)), epoch);
        } else {
          DropStays(s, epoch);
        }
      case AwaitRun(run) => DropStays(s, epoch);
      case AwaitClose => SuspendStays(s, s.(tools := NoTools), AwaitDrop, epoch);
      case AwaitDrop => AnswersEmit(s, Disconnected(epoch), epoch);
    }
  }

  /** The lone operation suspends with as little left as its stage needs. */
  lemma SuspendStays(s: Server, t: Server, stage: Stage, epoch: nat)
    requires AfterDisconnect(s, epoch) && |s.queue| == 1 && t.queue == s.queue && t.log == s.log
    requires stage.AwaitClose? ==> t.connected.None? && !t.registered
    requires stage.AwaitDrop? ==> Gone(t)
    ensures SetStage(t, stage).queue != [] && StillQueued(SetStage(t, stage), epoch)
  {
    assert |SetStage(t, stage).queue| == 1;
  }

  lemma DropStays(s: Server, epoch: nat)
    requires AfterDisconnect(s, epoch) && |s.queue| == 1
    ensures DropForDisconnect(s).queue != [] && StillQueued(DropForDisconnect(s), epoch)
  {
    SuspendStays(s, DropClient(s), if s.connected.Some? then AwaitClose else AwaitDrop, epoch);
  }

  /** At some point of the run the disconnect of `epoch` resumes on a rejection. */
  predicate AwaitRejected(s: Server, steps: seq<Step>, epoch: nat)
    requires Possible(s, steps)
    decreases |steps|
  {
    steps != [] && (AwaitRejects(s, steps[0], epoch) || AwaitRejected(Next(s, steps[0]), steps[1..], epoch))
  }

  /** From the call on: the call is in force until a retry queued before it acts;
      until then its operation is on its way, or has answered, or was `rejected`. */
  ghost predicate Tracks(s: Server, epoch: nat, retries: nat, rejected: bool) {
    && s.retriesActed >= retries
    && (s.retriesActed == retries && !rejected ==> AfterDisconnect(s, epoch))
    && (s.retriesActed == retries && rejected ==> Swallowed(s, epoch))
    && (s.retriesActed > retries ==> Overtaken(s, epoch))
  }

  /** The disconnect's operation is gone, unanswered. */
  ghost predicate Swallowed(s: Server, epoch: nat) {
    s.disabled && s.epoch == epoch && Orderly(s) && s.queue == [] && Answers(s.log, epoch) == 0
  }

  /** A retry has re-enabled the name under a later epoch; the disconnect's
      operation will not speak. */
  ghost predicate Overtaken(s: Server, epoch: nat) {
    && !s.disabled && s.epoch > epoch && Answers(s.log, epoch) == 0
  }

  lemma RetryOvertakes(s: Server, local: bool, epoch: nat)
    requires AfterDisconnect(s, epoch) && s.queue != [] && StepOp(s, local).retriesActed > s.retriesActed
    ensures Overtaken(StepOp(s, local), epoch)
  {
    OpMoves(s, local);
    match s.queue[0].op {
      case ConnectOp(reenable, epochAtCall) => ConnectOpStarts(s, reenable, epochAtCall, local);
      case RetryOp =>
        RetryOpStarts(s, local);
        DialAndWaitKeepsEpoch(ResetForRetry(s), local);
      case DisconnectOp(e) => DisconnectOpSteps(s, e);
    }
  }

  lemma DialAndWaitKeepsEpoch(s: Server, local: bool)
    requires s.queue != []
    ensures DialAndWait(s, local).epoch == s.epoch
  {
    ConnectOneCalm(s, s.epoch, local, None);
  }

  lemma OvertakenKept(s: Server, local: bool, epoch: nat)
    requires Overtaken(s, epoch) && s.queue != []
    ensures Overtaken(StepOp(s, local), epoch)
  {
    OpMoves(s, local);
    match s.queue[0].op {
      case ConnectOp(reenable, epochAtCall) => ConnectOpStarts(s, reenable, epochAtCall, local);
      case RetryOp => RetryOpStarts(s, local);
      case DisconnectOp(e) =>
        DisconnectOpSteps(s, e);
        AnswersEmit(s, Disconnected(e), epoch);
    }
  }

  lemma OpTracks(s: Server, local: bool, epoch: nat, retries: nat, rejected: bool)
    requires Tracks(s, epoch, retries, rejected) && OpReady(s)
    ensures Tracks(StepOp(s, local), epoch, retries, rejected || AwaitRejects(s, RunOp(local), epoch))
  {
    OpMoves(s, local);
    if s.retriesActed > retries {
      OvertakenKept(s, local, epoch);
    } else if StepOp(s, local).retriesActed > retries {
      RetryOvertakes(s, local, epoch);
    } else if |s.queue| > 1 {
      EarlierOpAfterDisconnect(s, local, epoch);
    } else {
      OwnOpAfterDisconnect(s, local, epoch);
    }
  }

  lemma OrderlyWhileCalm(s: Server, step: Step)
    requires Enabled(s, step) && !IsPublicCall(step) && !step.RunOp?
    ensures Orderly(s) ==> Orderly(Next(s, step))
  {
    if Orderly(s) {
      OrderlyKept(s, step);
    }
  }

  lemma StepTracks(s: Server, step: Step, epoch: nat, retries: nat, rejected: bool)
    requires Tracks(s, epoch, retries, rejected) && Enabled(s, step) && !IsPublicCall(step)
    ensures Tracks(Next(s, step), epoch, retries, rejected || AwaitRejects(s, step, epoch))
  {
    if step.RunOp? {
      OpTracks(s, step.local, epoch, retries, rejected);
    } else {
      OtherStepCalm(s, step);
      OrderlyWhileCalm(s, step);
      if s.retriesActed == retries && !rejected {
        OtherStepAfterDisconnect(s, step, epoch);
      }
    }
  }

  predicate NoPublicCalls(steps: seq<Step>) {
    forall i :: 0 <= i < |steps| ==> !IsPublicCall(steps[i])
  }

  lemma {:induction false} StepsTrack(s: Server, steps: seq<Step>, epoch: nat, retries: nat, rejected: bool)
    requires Tracks(s, epoch, retries, rejected) && Possible(s, steps) && NoPublicCalls(steps)
    ensures Tracks(Exec(s, steps), epoch, retries, rejected || AwaitRejected(s, steps, epoch))
    decreases |steps|
  {
    if steps != [] {
      StepTracks(s, steps[0], epoch, retries, rejected);
      StepsTrack(Next(s, steps[0]), steps[1..], epoch, retries, rejected || AwaitRejects(s, steps[0], epoch));
    }
  }

  lemma {:induction false} StepsOrderly(s: Server, steps: seq<Step>)
    requires Orderly(s) && Possible(s, steps)
    ensures Orderly(Exec(s, steps))
    decreases |steps|
  {
    if steps != [] {
      OrderlyKept(s, steps[0]);
      StepsOrderly(Next(s, steps[0]), steps[1..]);
    }
  }

  lemma DisconnectStartsTracking(s: Server)
    requires Orderly(s)
    ensures Tracks(DisconnectCall(s), s.epoch + 1, s.retriesActed, false)
  {
    assert Next(s, CallDisconnect) == DisconnectCall(s);
    OrderlyKept(s, CallDisconnect);
  }

  /** The disconnect of `epoch` has done all it should: the name is disabled, no
      client, no live or stub tool and no registration is left, and it was
      answered once. */
  ghost predicate Won(s: Server, epoch: nat) {
    s.disabled && s.epoch == epoch && Gone(s) && Answers(s.log, epoch) == 1
  }

  /** Last call wins. After any history, whatever the trust checks, dials and
      mounts of the name bring, let the last call be a disconnect and let the queue
      drain. The call has won if and only if no retry queued before it acted after
      it and the run that its own operation awaited, if any, did not reject; if it
      has not, it is never answered. The name stays disabled exactly when no such
      retry acted. */
  lemma LastCallWins(before: seq<Step>, after: seq<Step>)
    requires Possible(Fresh, before)
    requires Possible(DisconnectCall(Exec(Fresh, before)), after) && NoPublicCalls(after)
    requires Exec(DisconnectCall(Exec(Fresh, before)), after).queue == []
    ensures var called := DisconnectCall(Exec(Fresh, before));
      var drained := Exec(called, after);
      && (drained.disabled <==> drained.retriesActed == called.retriesActed)
      && (Won(drained, called.epoch) <==>
            drained.retriesActed == called.retriesActed && !AwaitRejected(called, after, called.epoch))
      && (!Won(drained, called.epoch) ==> Answers(drained.log, called.epoch) == 0)
  {
    assert Orderly(Fresh);
    StepsOrderly(Fresh, before);
    var s := Exec(Fresh, before);
    DisconnectStartsTracking(s);
    StepsTrack(DisconnectCall(s), after, s.epoch + 1, s.retriesActed, false);
  }

  /** With no retry waiting in the queue at the call, none can act after it. */
  predicate NoRetryWaiting(s: Server) {
    forall i :: 0 <= i < |s.queue| ==> !(s.queue[i].op.RetryOp? && s.queue[i].stage.Queued?)
  }

  lemma OpStartsNoRetry(s: Server, local: bool)
    requires s.queue != [] && NoRetryWaiting(s)
    ensures StepOp(s, local).retriesActed == s.retriesActed && NoRetryWaiting(StepOp(s, local))
  {
    var t := StepOp(s, local);
    OpMoves(s, local);
    match s.queue[0].op {
      case ConnectOp(reenable, epochAtCall) => ConnectOpStarts(s, reenable, epochAtCall, local);
      case RetryOp => assert t == PopOp(s);
      case DisconnectOp(epoch) => DisconnectOpSteps(s, epoch);
    }
    forall i | 0 <= i < |t.queue| ensures !(t.queue[i].op.RetryOp? && t.queue[i].stage.Queued?) {
      if t.queue == s.queue[1..] {
        assert t.queue[i] == s.queue[i + 1];
      } else if i > 0 {
        assert t.queue[i] == s.queue[i];
      }
    }
  }

  // ------------------------------------------------------ and it stays won

  /** Once drained, a disabled name stays gone and dials nothing until the
      next public call. */
  lemma {:induction false} GoneStaysGone(s: Server, steps: seq<Step>)
    requires s.disabled && Gone(s) && s.queue == [] && Possible(s, steps) && NoPublicCalls(steps)
    ensures var t := Exec(s, steps);
            t.disabled && Gone(t) && t.queue == [] && t.epoch == s.epoch && t.retriesActed == s.retriesActed
    decreases |steps|
  {
    if steps != [] {
      OtherStepCalm(s, steps[0]);
      DisabledShrinks(s, steps[0]);
      GoneStaysGone(Next(s, steps[0]), steps[1..]);
    }
  }
}
