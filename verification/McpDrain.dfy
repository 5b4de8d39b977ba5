/** The operation queue never gets stuck: from every reachable state it can
    drain without another call from outside. */
module McpDrain {
  import opened Common
  import opened McpProtocol
  import opened McpSafety
  import opened McpLastCall

  /** Calls from outside that dial: the public ones and a local startup connect. */
  predicate FromOutside(step: Step) {
    IsPublicCall(step) || (step.Startup? && step.local)
  }

  predicate OnItsOwn(steps: seq<Step>) {
    forall i :: 0 <= i < |steps| ==> !FromOutside(steps[i])
  }

  /** Without a call from outside and without a segment of disposal. */
  predicate Undisturbed(steps: seq<Step>) {
    OnItsOwn(steps) && forall i :: 0 <= i < |steps| ==> !steps[i].Dispose?
  }

  lemma OnItsOwnIsNoPublicCall(steps: seq<Step>)
    requires OnItsOwn(steps)
    ensures NoPublicCalls(steps)
  {
    forall i | 0 <= i < |steps| ensures !IsPublicCall(steps[i]) {
      assert !FromOutside(steps[i]);
    }
  }

  lemma Then(s: Server, step: Step, rest: seq<Step>)
    requires Enabled(s, step) && Possible(Next(s, step), rest)
    ensures Possible(s, [step] + rest) && Exec(s, [step] + rest) == Exec(Next(s, step), rest)
    ensures OnItsOwn(rest) && !FromOutside(step) ==> OnItsOwn([step] + rest)
    ensures Undisturbed(rest) && !FromOutside(step) && !step.Dispose? ==> Undisturbed([step] + rest)
    ensures forall epoch :: AwaitRejected(Next(s, step), rest, epoch) ==> AwaitRejected(s, [step] + rest, epoch)
  {
    assert ([step] + rest)[1..] == rest;
  }

  lemma After(s: Server, first: seq<Step>, rest: seq<Step>)
    requires Possible(s, first) && Possible(Exec(s, first), rest)
    ensures Possible(s, first + rest) && Exec(s, first + rest) == Exec(Exec(s, first), rest)
    ensures OnItsOwn(first) && OnItsOwn(rest) ==> OnItsOwn(first + rest)
    ensures Undisturbed(first) && Undisturbed(rest) ==> Undisturbed(first + rest)
  {
    ExecAppend(s, first, rest);
  }

  // -------------------------------------------------- one run settles

  /** `t` is `s` but for what the run, its reports and its client touch. */
  ghost predicate OnlyRun(s: Server, t: Server, run: RunId)
    requires run < |s.runs|
  {
    && t.queue == s.queue && t.epoch == s.epoch && t.disabled == s.disabled && t.retriesActed == s.retriesActed
    && t.disposal == s.disposal && t.connected == s.connected && t.reconnecting == s.reconnecting
    && |t.runs| == |s.runs| && (forall r :: 0 <= r < |s.runs| && r != run ==> t.runs[r] == s.runs[r])
    && (t.inFlight == s.inFlight || (t.inFlight.None? && s.inFlight.Some? && s.inFlight.value.run == run))
  }

  /** How many steps a run is from being settled. */
  function StepsLeft(phase: RunPhase): nat {
    match phase
    case AwaitingTrust => 5
    case Dialing => 4
    case Resolved(_) => 3
    case Closing(_) => 2
    case Finished => 1
    case Rejected => 1
    case Settled(_) => 0
  }

  /** The run's promise rejects, or has. */
  predicate RejectingPhase(phase: RunPhase) {
    phase.Rejected? || (phase.Settled? && !phase.ok)
  }

  /** The next step of a run that is refused at every turn. */
  function Refusal(run: RunId, phase: RunPhase): Step
    requires !phase.Settled?
  {
    match phase
    case AwaitingTrust => Trust(run, false)
    case Dialing => Dial(run, DialRefused(true))
    case Resolved(_) => Continue(run, MountThrew(false, true))
    case Closing(_) => Closed(run)
    case Finished => Settle(run)
    case Rejected => Settle(run)
  }

  lemma PhaseIsOnlyRun(s: Server, run: RunId, phase: RunPhase)
    requires run < |s.runs|
    ensures OnlyRun(s, SetPhase(s, run, phase), run) && SetPhase(s, run, phase).runs[run].phase == phase
  {
  }

  /** A report touches no run. */
  lemma ReportIsOnlyRun(s: Server, t: Server, run: RunId, watcher: Option<LoopId>, status: Status)
    requires run < |s.runs| && OnlyRun(s, t, run)
    ensures OnlyRun(s, Report(t, watcher, status), run) && Report(t, watcher, status).runs == t.runs
  {
    ReportIsSame(t, watcher, status);
  }

  lemma TrustRefused(s: Server, run: RunId)
    requires run < |s.runs|
    ensures var t := TrustDecided(s, run, false); OnlyRun(s, t, run) && t.runs[run].phase.Finished?
  {
    PhaseIsOnlyRun(s, run, Finished);
    ReportIsOnlyRun(s, SetPhase(s, run, Finished), run, s.runs[run].watcher, Failed(true));
  }

  lemma DialIsRefused(s: Server, run: RunId)
    requires run < |s.runs| && s.runs[run].phase.Resolved?
    ensures var t := RunContinues(s, run, MountThrew(false, true));
      OnlyRun(s, t, run) && (t.runs[run].phase.Finished? || t.runs[run].phase.Closing?)
  {
    ContinueIsSame(s, run, MountThrew(false, true));
    RefusedInstallsNothing(s, run);
  }

  lemma RefusedInstallsNothing(s: Server, run: RunId)
    requires run < |s.runs| && s.runs[run].phase.Resolved?
    ensures RunContinues(s, run, MountThrew(false, true)).connected == s.connected
  {
    match s.runs[run].phase.outcome {
      case Client(_) =>
      case Refused(final) => ReportIsSame(SetPhase(s, run, Finished), s.runs[run].watcher, Failed(final));
      case Threw(final) => ReportIsSame(SetPhase(s, run, Finished), s.runs[run].watcher, Failed(final));
    }
  }

  lemma CloseIsOver(s: Server, run: RunId)
    requires run < |s.runs| && s.runs[run].phase.Closing?
    ensures var t := CloseSettled(s, run); OnlyRun(s, t, run) && t.runs[run].phase.Finished?
  {
    PhaseIsOnlyRun(s, run, Finished);
    if s.runs[run].phase.report.Some? {
      ReportIsOnlyRun(s, SetPhase(s, run, Finished), run, s.runs[run].watcher, Failed(s.runs[run].phase.report.value));
    }
  }

  lemma RefusalMoves(s: Server, run: RunId)
    requires run < |s.runs| && !s.runs[run].phase.Settled?
    ensures var step := Refusal(run, s.runs[run].phase);
      && Enabled(s, step) && !FromOutside(step) && !step.Dispose?
      && OnlyRun(s, Next(s, step), run)
      && RejectingPhase(Next(s, step).runs[run].phase) == RejectingPhase(s.runs[run].phase)
      && StepsLeft(Next(s, step).runs[run].phase) < StepsLeft(s.runs[run].phase)
  {
    match s.runs[run].phase
    case AwaitingTrust => TrustRefused(s, run);
    case Dialing => PhaseIsOnlyRun(s, run, Resolved(Refused(true)));
    case Resolved(_) => DialIsRefused(s, run);
    case Closing(_) => CloseIsOver(s, run);
    case Finished => SettleIsOnlyRun(s, run);
    case Rejected => SettleIsOnlyRun(s, run);
  }

  lemma SettleIsOnlyRun(s: Server, run: RunId)
    requires run < |s.runs|
    ensures var t := RunSettles(s, run); OnlyRun(s, t, run) && t.runs[run].phase == Settled(s.runs[run].phase.Finished?)
  {
    PhaseIsOnlyRun(s, run, Settled(s.runs[run].phase.Finished?));
  }

  /** Any run can settle on its own, without rejecting if it has not, and touch
      nothing of the queue. */
  lemma {:induction false} RunCanSettle(s: Server, run: RunId) returns (steps: seq<Step>)
    requires run < |s.runs|
    ensures Possible(s, steps) && Undisturbed(steps)
    ensures var t := Exec(s, steps);
      OnlyRun(s, t, run) && t.IsSettled(run) && RejectingPhase(t.runs[run].phase) == RejectingPhase(s.runs[run].phase)
    decreases StepsLeft(s.runs[run].phase)
  {
    if s.runs[run].phase.Settled? {
      steps := [];
    } else {
      var step := Refusal(run, s.runs[run].phase);
      RefusalMoves(s, run);
      var rest := RunCanSettle(Next(s, step), run);
      Then(s, step, rest);
      steps := [step] + rest;
    }
  }

  // ------------------------------------------------ the queue drains

  /** What the head of the queue awaits is a run there is. */
  predicate AwaitsRuns(s: Server) {
    s.queue != [] && s.queue[0].stage.AwaitRun? && s.queue[0].stage.run.Some? ==> s.queue[0].stage.run.value < |s.runs|
  }

  /** So is what disposal awaits. */
  predicate DisposalAwaitsRun(s: Server) {
    s.disposal.Draining? && s.disposal.awaited.Some? ==> s.disposal.awaited.value < |s.runs|
  }

  ghost predicate Drainable(s: Server) {
    Inv(s) && Orderly(s) && AwaitsRuns(s) && DisposalAwaitsRun(s)
  }

  lemma OpAwaitsRuns(s: Server, local: bool)
    requires Drainable(s) && OpReady(s)
    ensures AwaitsRuns(StepOp(s, local))
  {
    match s.queue[0].op {
      case ConnectOp(reenable, epochAtCall) =>
        DialAwaitsRun(s, Reenabled(s, reenable), local);
        PopAwaitsNothing(s);
      case RetryOp =>
        DialAwaitsRun(s, ResetForRetry(s), local);
        PopAwaitsNothing(s);
      case DisconnectOp(epoch) =>
        DisconnectAwaitsRun(s, epoch);
    }
  }

  lemma DialAwaitsRun(s: Server, t: Server, local: bool)
    requires RunsInv(s) && t.runs == s.runs && t.inFlight == s.inFlight && t.queue == s.queue && s.queue != []
    ensures AwaitsRuns(DialAndWait(t, local))
  {
    ConnectOneCalm(t, t.epoch, local, None);
  }

  lemma PopAwaitsNothing(s: Server)
    requires Orderly(s) && s.queue != []
    ensures AwaitsRuns(PopOp(s))
  {
    assert |s.queue| > 1 ==> PopOp(s).queue[0] == s.queue[1];
  }

  lemma DisconnectAwaitsRun(s: Server, epoch: nat)
    requires RunsInv(s) && Orderly(s) && s.queue != []
    ensures AwaitsRuns(StepDisconnectOp(s, epoch))
  {
    PopAwaitsNothing(s);
    DisconnectOpSteps(s, epoch);
  }

  lemma OnlyDisposeDisposes(s: Server, step: Step)
    requires Enabled(s, step) && !step.Dispose?
    ensures Next(s, step).disposal == s.disposal
  {
    if step.RunOp? {
      OpDisposesNothing(s, step.local);
    } else if Inside(step) {
      InsideStepKeepsSession(s, step);
    }
  }

  lemma OpDisposesNothing(s: Server, local: bool)
    requires s.queue != []
    ensures StepOp(s, local).disposal == s.disposal
  {
    match s.queue[0].op {
      case ConnectOp(reenable, epochAtCall) =>
        assert StartConnectOp(s, reenable, epochAtCall, local).disposal == s.disposal;
      case RetryOp => assert StartRetryOp(s, local).disposal == s.disposal;
      case DisconnectOp(epoch) => assert StepDisconnectOp(s, epoch).disposal == s.disposal;
    }
  }

  lemma DrainableKept(s: Server, step: Step)
    requires Drainable(s) && Enabled(s, step)
    ensures Drainable(Next(s, step))
  {
    StepKeeps(s, step);
    OrderlyKept(s, step);
    RunsGrow(s, step);
    DisposalStillAwaits(s, step);
    if step.RunOp? {
      OpAwaitsRuns(s, step.local);
    } else if !IsPublicCall(step) {
      OtherStepCalm(s, step);
    }
  }

  lemma RunsGrow(s: Server, step: Step)
    requires Enabled(s, step)
    ensures |Next(s, step).runs| >= |s.runs|
  {
    if step.RunOp? {
      OpMoves(s, step.local);
    } else if !IsPublicCall(step) {
      OtherStepCalm(s, step);
    }
  }

  lemma DisposalStillAwaits(s: Server, step: Step)
    requires RunsInv(s) && DisposalAwaitsRun(s) && Enabled(s, step)
    ensures DisposalAwaitsRun(Next(s, step))
  {
    RunsGrow(s, step);
    if !step.Dispose? {
      OnlyDisposeDisposes(s, step);
    }
  }

  lemma {:induction false} StepsKeepDrainable(s: Server, steps: seq<Step>)
    requires Drainable(s) && Possible(s, steps)
    ensures Drainable(Exec(s, steps))
    decreases |steps|
  {
    if steps != [] {
      DrainableKept(s, steps[0]);
      StepsKeepDrainable(Next(s, steps[0]), steps[1..]);
    }
  }

  /** How many segments the head of the queue is from being done. */
  function SegmentsLeft(s: Server): nat {
    if s.queue == [] then 0
    else
      match s.queue[0].stage
      case Queued => 4
      case AwaitRun(_) => 3
      case AwaitClose => 2
      case AwaitDrop => 1
  }

  lemma OpAdvances(s: Server, local: bool)
    requires Orderly(s) && s.queue != []
    ensures var t := StepOp(s, local);
      |t.queue| < |s.queue| || (|t.queue| == |s.queue| && SegmentsLeft(t) < SegmentsLeft(s))
  {
    OpMoves(s, local);
    match s.queue[0].op {
      case ConnectOp(reenable, epochAtCall) => DialAndWaitStarts(Reenabled(s, reenable), local);
      case RetryOp => DialAndWaitStarts(ResetForRetry(s), local);
      case DisconnectOp(epoch) =>
    }
  }

  /** The run the head awaits, if it awaits one, can be made to settle. */
  lemma HeadGetsReady(s: Server) returns (steps: seq<Step>)
    requires Drainable(s) && s.queue != []
    ensures Possible(s, steps) && Undisturbed(steps)
    ensures var t := Exec(s, steps); OpReady(t) && t.queue == s.queue && t.connected == s.connected && t.disposal == s.disposal
  {
    if OpReady(s) {
      steps := [];
    } else {
      steps := RunCanSettle(s, s.queue[0].stage.run.value);
    }
  }

  lemma {:induction false} QueueDrains(s: Server) returns (steps: seq<Step>)
    requires Drainable(s)
    ensures Possible(s, steps) && Undisturbed(steps) && Exec(s, steps).queue == []
    decreases |s.queue|, SegmentsLeft(s)
  {
    if s.queue == [] {
      steps := [];
    } else {
      var ready := HeadGetsReady(s);
      var t := Exec(s, ready);
      StepsKeepDrainable(s, ready);
      OpAdvances(t, false);
      DrainableKept(t, RunOp(false));
      var rest := QueueDrains(Next(t, RunOp(false)));
      Then(t, RunOp(false), rest);
      After(s, ready, [RunOp(false)] + rest);
      steps := ready + ([RunOp(false)] + rest);
    }
  }

  lemma FreshDrainable()
    ensures Drainable(Fresh)
  {
    FreshInv();
  }

  /** From every reachable state the queue can drain without a call from
      outside, so what is said of drained queues is said of every history. */
  lemma EveryStateDrains(before: seq<Step>) returns (after: seq<Step>)
    requires Possible(Fresh, before)
    ensures Possible(Exec(Fresh, before), after) && Undisturbed(after) && NoPublicCalls(after)
    ensures Exec(Exec(Fresh, before), after).queue == []
  {
    FreshDrainable();
    StepsKeepDrainable(Fresh, before);
    after := QueueDrains(Exec(Fresh, before));
    OnItsOwnIsNoPublicCall(after);
  }
}
