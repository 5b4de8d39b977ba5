/** The connection protocol of one MCP server name: epochs, the disabled set,
    the per-name operation queue, dials, backoff redials, transport death and
    disposal. Every code segment between two suspension points is one step;
    dial results, deaths, wake-ups and public calls come in any order.

    The closure's maps are seen through one name: `connected` is that name's
    entry in `connectedClients`, `inFlight` its entries in
    `inFlightConnections` and `inFlightEpochs`, and so on. */
module McpProtocol {
  import opened Common

  type ClientId = nat
  type RunId = nat
  type LoopId = nat

  /** Status updates. A failure is final when authorization is pending or the
      error is one a redial cannot cure. `Disconnected` names the disconnect
      call, by the epoch it opened, that it answers. */
  datatype Status =
    | Connecting
    | NeedsAuth
    | Connected
    | Failed(final: bool)
    | Reconnecting
    | Disconnected(call: nat)

  datatype Outcome = Client(id: ClientId) | Refused(final: bool) | Threw(final: bool)

  /** Where one `connectOneMCPServer` run is suspended. */
  datatype RunPhase =
    | AwaitingTrust
    | Dialing
    | Resolved(outcome: Outcome)      // the dial has settled, the run has not resumed
    | Closing(report: Option<bool>)   // closing a client it does not keep; then reports a failure
    | Finished                        // returned, promise not yet settled
    | Rejected                        // threw, promise not yet settled
    | Settled(ok: bool)

  /** `watcher` is the redial loop whose wrapped callbacks the run reports to. */
  datatype Run = Run(epoch: nat, watcher: Option<LoopId>, phase: RunPhase)

  datatype LoopPhase = Sleeping | Redialing(awaited: Option<RunId>) | Stopped

  /** One backoff loop with its reconnect state; `last` is the status its redial reported. */
  datatype Loop = Loop(epoch: nat, phase: LoopPhase, last: Option<Status>)

  datatype Mount = NoTools | Stubs | Live(client: ClientId)

  datatype Op =
    | ConnectOp(reenable: bool, epochAtCall: nat)
    | DisconnectOp(epoch: nat)
    | RetryOp

  datatype Stage = Queued | AwaitRun(run: Option<RunId>) | AwaitClose | AwaitDrop

  datatype QueuedOp = QueuedOp(op: Op, stage: Stage)

  datatype InFlight = InFlight(run: RunId, epoch: nat)

  datatype Disposal = NotDisposed | Begun | Draining(awaited: Option<RunId>) | ClosingAll | Done

  /** `retriesActed` counts retries that got past their guard; nothing reads it. */
  datatype Server = Server(
    epoch: nat,
    disabled: bool,
    connected: Option<ClientId>,
    registered: bool,
    tools: Mount,
    inFlight: Option<InFlight>,
    reconnecting: Option<LoopId>,
    queue: seq<QueuedOp>,
    runs: seq<Run>,
    loops: seq<Loop>,
    clients: nat,
    closed: set<ClientId>,
    log: seq<Status>,
    retriesActed: nat,
    disposal: Disposal)
  {
    predicate Disposed() {
      !disposal.NotDisposed?
    }

    /** `staleOrDisabled` of a run that owns `epoch`. */
    predicate Stale(owned: nat) {
      disabled || epoch != owned
    }

    /** `reconnectCancelled`. */
    predicate Cancelled(owned: nat) {
      Disposed() || Stale(owned)
    }

    predicate IsSettled(run: RunId) {
      run < |runs| && runs[run].phase.Settled?
    }

    /** The awaited run, if any, has settled. */
    predicate Awaited(run: Option<RunId>) {
      run.Some? ==> IsSettled(run.value)
    }

    /** The awaited run has rejected, so the `await` throws. */
    predicate AwaitThrows(run: Option<RunId>) {
      run.Some? && IsSettled(run.value) && !runs[run.value].phase.ok
    }
  }

  const Fresh := Server(0, false, None, false, NoTools, None, None, [], [], [], 0, {}, [], 0, NotDisposed)

  // ------------------------------------------------------ building blocks

  function Emit(s: Server, status: Status): Server {
    s.(log := s.log + [status])
  }

  function SetPhase(s: Server, run: RunId, phase: RunPhase): Server
    requires run < |s.runs|
  {
    s.(runs := s.runs[run := s.runs[run].(phase := phase)])
  }

  function SetLoop(s: Server, loop: LoopId, l: Loop): Server {
    if loop < |s.loops| then s.(loops := s.loops[loop := l]) else s
  }

  /** A status as the caller's callbacks see it. A redial loop remembers it,
      hides `connecting` and failures it will retry, and remounts the stubs
      while the operator authorizes. */
  function Report(s: Server, watcher: Option<LoopId>, status: Status): Server {
    if watcher.None? then Emit(s, status)
    else
      var l := watcher.value;
      var noted := if l < |s.loops| then SetLoop(s, l, s.loops[l].(last := Some(status))) else s;
      if status.Connecting? || status == Failed(false) then noted
      else if status.NeedsAuth? then Emit(noted.(tools := Stubs), status)
      else Emit(noted, status)
  }

  /** From the trust check to the dial. */
  function BeginDial(s: Server, run: RunId): Server
    requires run < |s.runs|
  {
    if s.Stale(s.runs[run].epoch) then SetPhase(s, run, Finished)
    else Report(SetPhase(s, run, Dialing), s.runs[run].watcher, Connecting)
  }

  /** `connectOneMCPServer` up to its first suspension; also the run to await. */
  function ConnectOne(s: Server, epoch: nat, local: bool, watcher: Option<LoopId>): (Server, Option<RunId>) {
    if s.Disposed() || s.connected.Some? then (s, None)
    else if s.inFlight.Some? && s.inFlight.value.epoch == epoch then (s, Some(s.inFlight.value.run))
    else
      var id := |s.runs|;
      var begun := s.(runs := s.runs + [Run(epoch, watcher, AwaitingTrust)], inFlight := Some(InFlight(id, epoch)));
      (if local then begun else BeginDial(begun, id), Some(id))
  }

  /** `dropLiveClient` up to the close. */
  function DropClient(s: Server): Server {
    var dropped := s.(connected := None, registered := false);
    if s.connected.Some? then dropped.(closed := s.closed + {s.connected.value})
    else dropped.(tools := NoTools)
  }

  /** `handleTransportDeath` for a client that belongs to `epoch`. */
  function TransportDeath(s: Server, epoch: nat, watcher: Option<LoopId>): Server {
    if s.Disposed() || s.Stale(epoch) || s.connected.None? || s.reconnecting.Some? then s
    else
      var dead := s.(connected := None, closed := s.closed + {s.connected.value}, tools := Stubs);
      var told := Report(dead, watcher, Reconnecting);
      told.(reconnecting := Some(|s.loops|), loops := told.loops + [Loop(epoch, Sleeping, None)])
  }

  // --------------------------------------------------------- public calls

  function Enqueue(s: Server, op: Op): Server {
    s.(queue := s.queue + [QueuedOp(op, Queued)])
  }

  function ConnectCall(s: Server): Server {
    Enqueue(s, ConnectOp(s.disabled, s.epoch))
  }

  function DisconnectCall(s: Server): Server {
    Enqueue(s.(disabled := true, epoch := s.epoch + 1), DisconnectOp(s.epoch + 1))
  }

  predicate RetryIsNoOp(s: Server) {
    s.connected.Some? && s.reconnecting.None?
  }

  function RetryCall(s: Server): Server {
    if RetryIsNoOp(s) then s else Enqueue(s, RetryOp)
  }

  // ------------------------------------------------------ queued operations

  function PopOp(s: Server): Server
    requires s.queue != []
  {
    s.(queue := s.queue[1..])
  }

  function SetStage(s: Server, stage: Stage): Server
    requires s.queue != []
  {
    s.(queue := [s.queue[0].(stage := stage)] + s.queue[1..])
  }

  /** A connect of a disabled name enables it under a new epoch. */
  function Reenabled(s: Server, reenable: bool): Server {
    if reenable then s.(disabled := false, epoch := s.epoch + 1) else s
  }

  /** A retry cancels any backoff loop and stale dial and drops the stubs. */
  function ResetForRetry(s: Server): Server {
    s.(epoch := s.epoch + 1, reconnecting := None, disabled := false, tools := NoTools,
       retriesActed := s.retriesActed + 1)
  }

  /** The operation dials under the current epoch and waits for the run. */
  function DialAndWait(s: Server, local: bool): Server
    requires s.queue != []
  {
    var (t, awaited) := ConnectOne(s, s.epoch, local, None);
    SetStage(t, AwaitRun(awaited))
  }

  function StartConnectOp(s: Server, reenable: bool, epochAtCall: nat, local: bool): Server
    requires s.queue != []
  {
    if s.epoch != epochAtCall || (s.disabled && !reenable) then PopOp(s)
    else DialAndWait(Reenabled(s, reenable), local)
  }

  function StartRetryOp(s: Server, local: bool): Server
    requires s.queue != []
  {
    if RetryIsNoOp(s) then PopOp(s) else DialAndWait(ResetForRetry(s), local)
  }

  function DropForDisconnect(s: Server): Server
    requires s.queue != []
  {
    SetStage(DropClient(s), if s.connected.Some? then AwaitClose else AwaitDrop)
  }

  function StepDisconnectOp(s: Server, epoch: nat): Server
    requires s.queue != []
  {
    match s.queue[0].stage
    case Queued => if s.inFlight.Some? then SetStage(s, AwaitRun(Some(s.inFlight.value.run))) else DropForDisconnect(s)
    case AwaitRun(run) => if s.AwaitThrows(run) then PopOp(s) else DropForDisconnect(s)
    case AwaitClose => SetStage(s.(tools := NoTools), AwaitDrop)
    case AwaitDrop => PopOp(if s.epoch != epoch || !s.disabled then s else Emit(s, Disconnected(epoch)))
  }

  /** The operation at the head of the queue runs its next segment. */
  function StepOp(s: Server, local: bool): Server
    requires s.queue != []
  {
    var head := s.queue[0];
    match head.op
    case DisconnectOp(epoch) => StepDisconnectOp(s, epoch)
    case ConnectOp(reenable, epochAtCall) =>
      if head.stage.Queued? then StartConnectOp(s, reenable, epochAtCall, local) else PopOp(s)
    case RetryOp =>
      if head.stage.Queued? then StartRetryOp(s, local) else PopOp(s)
  }

  // ------------------------------------------------------------ dial runs

  datatype DialResult = Dialled | DialRefused(final: bool) | DialThrew(final: bool)

  datatype MountResult = Mounted | MountThrew(toolsDropped: bool, final: bool)

  function TrustDecided(s: Server, run: RunId, allowed: bool): Server
    requires run < |s.runs|
  {
    if s.Cancelled(s.runs[run].epoch) then SetPhase(s, run, Finished)
    else if !allowed then Report(SetPhase(s, run, Finished), s.runs[run].watcher, Failed(true))
    else BeginDial(s, run)
  }

  function DialResolved(s: Server, run: RunId, result: DialResult): Server
    requires run < |s.runs|
  {
    match result
    case Dialled => SetPhase(s, run, Resolved(Client(s.clients))).(clients := s.clients + 1)
    case DialRefused(final) => SetPhase(s, run, Resolved(Refused(final)))
    case DialThrew(final) => SetPhase(s, run, Resolved(Threw(final)))
  }

  /** The run resumes with a dialled client. */
  function KeepClient(s: Server, run: RunId, client: ClientId, mount: MountResult): Server
    requires run < |s.runs|
  {
    if s.Cancelled(s.runs[run].epoch) then SetPhase(s, run, Closing(None)).(closed := s.closed + {client})
    else match mount
      case Mounted =>
        var mounted := s.(registered := true, tools := Live(client), connected := Some(client));
        Report(SetPhase(mounted, run, Finished), s.runs[run].watcher, Connected)
      case MountThrew(toolsDropped, final) =>
        SetPhase(s, run, Closing(Some(final)))
          .(registered := false, closed := s.closed + {client}, tools := if toolsDropped then NoTools else s.tools)
  }

  function RunContinues(s: Server, run: RunId, mount: MountResult): Server
    requires run < |s.runs| && s.runs[run].phase.Resolved?
  {
    var r := s.runs[run];
    match r.phase.outcome
    case Client(id) => KeepClient(s, run, id, mount)
    case Refused(final) =>
      var done := SetPhase(s, run, Finished);
      if s.Cancelled(r.epoch) then done else Report(done, r.watcher, Failed(final))
    case Threw(final) =>
      var done := SetPhase(s, run, Finished);
      if s.Cancelled(r.epoch) then done else Report(done, r.watcher, Failed(final))
  }

  function CloseSettled(s: Server, run: RunId): Server
    requires run < |s.runs| && s.runs[run].phase.Closing?
  {
    var r := s.runs[run];
    var done := SetPhase(s, run, Finished);
    if r.phase.report.None? || s.Stale(r.epoch) then done
    else Report(done, r.watcher, Failed(r.phase.report.value))
  }

  /** The run's promise settles and `clearInFlight` runs. */
  function RunSettles(s: Server, run: RunId): Server
    requires run < |s.runs|
  {
    var t := SetPhase(s, run, Settled(s.runs[run].phase.Finished?));
    if s.inFlight.Some? && s.inFlight.value.run == run then t.(inFlight := None) else t
  }

  // --------------------------------------------------------- redial loops

  function StopLoop(s: Server, loop: LoopId): Server
    requires loop < |s.loops|
  {
    SetLoop(s, loop, s.loops[loop].(phase := Stopped))
  }

  /** `dropReconnectState`, then the loop returns. */
  function AbandonLoop(s: Server, loop: LoopId): Server
    requires loop < |s.loops|
  {
    var t := StopLoop(s, loop);
    if s.reconnecting == Some(loop) then t.(reconnecting := None) else t
  }

  predicate OwnsReconnect(s: Server, loop: LoopId)
    requires loop < |s.loops|
  {
    s.reconnecting == Some(loop) && !s.Cancelled(s.loops[loop].epoch)
  }

  function LoopWakes(s: Server, loop: LoopId, local: bool): Server
    requires loop < |s.loops|
  {
    if !OwnsReconnect(s, loop) then AbandonLoop(s, loop)
    else
      var l := s.loops[loop];
      var ready := SetLoop(s.(tools := NoTools), loop, l.(last := None));
      var (t, awaited) := ConnectOne(ready, l.epoch, local, Some(loop));
      SetLoop(t, loop, (if loop < |t.loops| then t.loops[loop] else l).(phase := Redialing(awaited)))
  }

  function LoopResumes(s: Server, loop: LoopId): Server
    requires loop < |s.loops| && s.loops[loop].phase.Redialing?
  {
    var l := s.loops[loop];
    if s.AwaitThrows(l.phase.awaited) then StopLoop(s, loop)
    else if !OwnsReconnect(s, loop) then AbandonLoop(s, loop)
    else if l.last == Some(Connected) && s.connected.Some? then StopLoop(s.(reconnecting := None), loop)
    else if l.last == Some(Failed(true)) then
      StopLoop(s.(reconnecting := None, tools := NoTools, registered := false), loop)
    else SetLoop(Emit(s.(tools := Stubs), Reconnecting), loop, l.(phase := Sleeping))
  }

  // ------------------------------------------------------------- disposal

  function DisposeStep(s: Server): Server {
    match s.disposal
    case NotDisposed => s.(disposal := Begun)
    case Begun => s.(disposal := Draining(if s.inFlight.Some? then Some(s.inFlight.value.run) else None))
    case Draining(_) =>
      if s.connected.None? then s.(disposal := ClosingAll)
      else s.(disposal := ClosingAll, registered := false, closed := s.closed + {s.connected.value})
    case ClosingAll => s.(disposal := Done, connected := None)
    case Done => s
  }

  // -------------------------------------------------------------- the steps

  datatype Step =
    | CallConnect
    | CallDisconnect
    | CallRetry
    | Startup(local: bool)
    | Dispose
    | RunOp(local: bool)
    | Trust(run: RunId, allowed: bool)
    | TrustFails(run: RunId)
    | Dial(run: RunId, result: DialResult)
    | AskAuth(run: RunId)
    | Reauthorized(run: RunId)
    | Continue(run: RunId, mount: MountResult)
    | Closed(run: RunId)
    | Settle(run: RunId)
    | Death(run: RunId)
    | Wake(loop: LoopId, local: bool)
    | Resume(loop: LoopId)

  predicate OpReady(s: Server) {
    s.queue != [] && (s.queue[0].stage.AwaitRun? ==> s.Awaited(s.queue[0].stage.run))
  }

  predicate Enabled(s: Server, step: Step) {
    match step
    case CallConnect => true
    case CallDisconnect => true
    case CallRetry => true
    case Startup(_) => true
    case Dispose => s.disposal.Draining? ==> s.Awaited(s.disposal.awaited)
    case RunOp(_) => OpReady(s)
    case Trust(run, _) => run < |s.runs| && s.runs[run].phase.AwaitingTrust?
    case TrustFails(run) => run < |s.runs| && s.runs[run].phase.AwaitingTrust?
    case Dial(run, _) => run < |s.runs| && s.runs[run].phase.Dialing?
    case AskAuth(run) => run < |s.runs| && s.runs[run].phase.Dialing?
    case Reauthorized(run) => run < |s.runs|
    case Continue(run, _) => run < |s.runs| && s.runs[run].phase.Resolved?
    case Closed(run) => run < |s.runs| && s.runs[run].phase.Closing?
    case Settle(run) => run < |s.runs| && (s.runs[run].phase.Finished? || s.runs[run].phase.Rejected?)
    case Death(run) => run < |s.runs|
    case Wake(loop, _) => loop < |s.loops| && s.loops[loop].phase.Sleeping?
    case Resume(loop) => loop < |s.loops| && s.loops[loop].phase.Redialing? && s.Awaited(s.loops[loop].phase.awaited)
  }

  function Next(s: Server, step: Step): Server
    requires Enabled(s, step)
  {
    match step
    case CallConnect => ConnectCall(s)
    case CallDisconnect => DisconnectCall(s)
    case CallRetry => RetryCall(s)
    case Startup(local) => ConnectOne(s, s.epoch, local, None).0
    case Dispose => DisposeStep(s)
    case RunOp(local) => StepOp(s, local)
    case Trust(run, allowed) => TrustDecided(s, run, allowed)
    case TrustFails(run) => SetPhase(s, run, Rejected)
    case Dial(run, result) => DialResolved(s, run, result)
    case AskAuth(run) =>
      if s.Cancelled(s.runs[run].epoch) then s else Report(s, s.runs[run].watcher, NeedsAuth)
    case Reauthorized(run) =>
      if s.Cancelled(s.runs[run].epoch) || s.connected.None? then s
      else Report(s, s.runs[run].watcher, Connected)
    case Continue(run, mount) => RunContinues(s, run, mount)
    case Closed(run) => CloseSettled(s, run)
    case Settle(run) => RunSettles(s, run)
    case Death(run) => TransportDeath(s, s.runs[run].epoch, s.runs[run].watcher)
    case Wake(loop, local) => LoopWakes(s, loop, local)
    case Resume(loop) => LoopResumes(s, loop)
  }

  /** `steps` can be taken one after the other from `s`. */
  predicate Possible(s: Server, steps: seq<Step>)
    decreases |steps|
  {
    steps == [] || (Enabled(s, steps[0]) && Possible(Next(s, steps[0]), steps[1..]))
  }

  function Exec(s: Server, steps: seq<Step>): Server
    requires Possible(s, steps)
    decreases |steps|
  {
    if steps == [] then s else Exec(Next(s, steps[0]), steps[1..])
  }

  lemma {:induction false} ExecAppend(s: Server, first: seq<Step>, rest: seq<Step>)
    ensures Possible(s, first + rest) <==> Possible(s, first) && Possible(Exec(s, first), rest)
    ensures Possible(s, first + rest) ==> Exec(s, first + rest) == Exec(Exec(s, first), rest)
    decreases |first|
  {
    if first == [] {
      assert first + rest == rest;
    } else {
      assert (first + rest)[1..] == first[1..] + rest;
      if Enabled(s, first[0]) {
        ExecAppend(Next(s, first[0]), first[1..], rest);
      }
    }
  }

  // ------------------------------------------- what runs and loops leave alone

  /** What only public calls, queued operations and disposal change. */
  predicate SameSession(s: Server, t: Server) {
    && t.epoch == s.epoch && t.disabled == s.disabled && t.disposal == s.disposal
    && t.queue == s.queue && t.retriesActed == s.retriesActed
  }

  /** `t` is `s` but for loops, tools and log. */
  predicate SameClients(s: Server, t: Server) {
    && SameSession(s, t)
    && t.connected == s.connected && t.registered == s.registered && t.runs == s.runs && t.inFlight == s.inFlight
    && t.clients == s.clients && t.closed == s.closed && t.reconnecting == s.reconnecting
  }

  lemma ReportIsSame(s: Server, watcher: Option<LoopId>, status: Status)
    ensures SameClients(s, Report(s, watcher, status))
  {
  }

  lemma BeginDialIsSame(s: Server, run: RunId)
    requires run < |s.runs|
    ensures var t := BeginDial(s, run);
      && SameSession(s, t) && t.connected == s.connected && t.inFlight == s.inFlight && t.reconnecting == s.reconnecting
      && (t.runs == SetPhase(s, run, Finished).runs || t.runs == SetPhase(s, run, Dialing).runs)
  {
    ReportIsSame(SetPhase(s, run, Dialing), s.runs[run].watcher, Connecting);
  }

  lemma ConnectOneIsSame(s: Server, epoch: nat, local: bool, watcher: Option<LoopId>)
    ensures var t := ConnectOne(s, epoch, local, watcher).0;
      SameSession(s, t) && t.connected == s.connected && t.reconnecting == s.reconnecting && s.runs <= t.runs
  {
    var id := |s.runs|;
    var begun := s.(runs := s.runs + [Run(epoch, watcher, AwaitingTrust)], inFlight := Some(InFlight(id, epoch)));
    BeginDialIsSame(begun, id);
  }

  lemma TrustIsSame(s: Server, run: RunId, allowed: bool)
    requires run < |s.runs|
    ensures var t := TrustDecided(s, run, allowed);
      && SameSession(s, t) && t.connected == s.connected && t.inFlight == s.inFlight && t.reconnecting == s.reconnecting
      && (t.runs == SetPhase(s, run, Finished).runs || t.runs == SetPhase(s, run, Dialing).runs)
  {
    BeginDialIsSame(s, run);
    ReportIsSame(SetPhase(s, run, Finished), s.runs[run].watcher, Failed(true));
  }

  lemma ContinueIsSame(s: Server, run: RunId, mount: MountResult)
    requires run < |s.runs| && s.runs[run].phase.Resolved?
    ensures var t := RunContinues(s, run, mount);
      && SameSession(s, t) && t.inFlight == s.inFlight && t.reconnecting == s.reconnecting
      && |t.runs| == |s.runs| && t.runs == s.runs[run := s.runs[run].(phase := t.runs[run].phase)]
      && (t.runs[run].phase.Finished? || t.runs[run].phase.Closing?)
      && (s.Cancelled(s.runs[run].epoch) ==> t.connected == s.connected && t.tools == s.tools)
  {
    var r := s.runs[run];
    match r.phase.outcome {
      case Client(id) => KeepClientIsSame(s, run, id, mount);
      case Refused(final) => ReportIsSame(SetPhase(s, run, Finished), r.watcher, Failed(final));
      case Threw(final) => ReportIsSame(SetPhase(s, run, Finished), r.watcher, Failed(final));
    }
  }

  lemma KeepClientIsSame(s: Server, run: RunId, client: ClientId, mount: MountResult)
    requires run < |s.runs|
    ensures var t := KeepClient(s, run, client, mount);
      && SameSession(s, t) && t.inFlight == s.inFlight && t.reconnecting == s.reconnecting
      && |t.runs| == |s.runs| && t.runs == s.runs[run := s.runs[run].(phase := t.runs[run].phase)]
      && (t.runs[run].phase.Finished? || t.runs[run].phase.Closing?)
      && (s.Cancelled(s.runs[run].epoch) ==> t.connected == s.connected && t.tools == s.tools)
  {
    if !s.Cancelled(s.runs[run].epoch) && mount.Mounted? {
      var mounted := s.(registered := true, tools := Live(client), connected := Some(client));
      ReportIsSame(SetPhase(mounted, run, Finished), s.runs[run].watcher, Connected);
    }
  }

  lemma CloseIsSame(s: Server, run: RunId)
    requires run < |s.runs| && s.runs[run].phase.Closing?
    ensures SameClients(SetPhase(s, run, Finished), CloseSettled(s, run))
  {
    if s.runs[run].phase.report.Some? {
      ReportIsSame(SetPhase(s, run, Finished), s.runs[run].watcher, Failed(s.runs[run].phase.report.value));
    }
  }

  lemma DeathIsSame(s: Server, epoch: nat, watcher: Option<LoopId>)
    ensures var t := TransportDeath(s, epoch, watcher);
      && SameSession(s, t) && t.runs == s.runs && t.inFlight == s.inFlight
      && (t.connected == s.connected || t.connected.None?)
      && (s.Stale(epoch) ==> t == s)
  {
    if s.connected.Some? {
      ReportIsSame(s.(connected := None, closed := s.closed + {s.connected.value}, tools := Stubs), watcher, Reconnecting);
    }
  }

  lemma WakeIsSame(s: Server, loop: LoopId, local: bool)
    requires loop < |s.loops|
    ensures var t := LoopWakes(s, loop, local);
      && SameSession(s, t) && t.connected == s.connected && s.runs <= t.runs
      && (!OwnsReconnect(s, loop) ==> t == AbandonLoop(s, loop))
  {
    if OwnsReconnect(s, loop) {
      var ready := SetLoop(s.(tools := NoTools), loop, s.loops[loop].(last := None));
      ConnectOneIsSame(ready, s.loops[loop].epoch, local, Some(loop));
    }
  }

  lemma ResumeIsSame(s: Server, loop: LoopId)
    requires loop < |s.loops| && s.loops[loop].phase.Redialing?
    ensures var t := LoopResumes(s, loop);
      && SameSession(s, t) && t.connected == s.connected && t.runs == s.runs && t.inFlight == s.inFlight
      && t.clients == s.clients && t.closed == s.closed
      && (!OwnsReconnect(s, loop) ==> t == StopLoop(s, loop) || t == AbandonLoop(s, loop))
  {
  }

  /** Steps of runs and loops, and startup connects. */
  predicate Inside(step: Step) {
    !step.CallConnect? && !step.CallDisconnect? && !step.CallRetry? && !step.RunOp? && !step.Dispose?
  }

  lemma InsideStepKeepsSession(s: Server, step: Step)
    requires Enabled(s, step) && Inside(step)
    ensures SameSession(s, Next(s, step))
    ensures step.Continue? || Next(s, step).connected.None? || Next(s, step).connected == s.connected
  {
    match step
    case Startup(local) => ConnectOneIsSame(s, s.epoch, local, None);
    case Trust(run, allowed) => TrustIsSame(s, run, allowed);
    case TrustFails(run) =>
    case Dial(run, result) =>
    case AskAuth(run) => ReportIsSame(s, s.runs[run].watcher, NeedsAuth);
    case Reauthorized(run) => ReportIsSame(s, s.runs[run].watcher, Connected);
    case Continue(run, mount) => ContinueIsSame(s, run, mount);
    case Closed(run) => CloseIsSame(s, run);
    case Settle(run) =>
    case Death(run) => DeathIsSame(s, s.runs[run].epoch, s.runs[run].watcher);
    case Wake(loop, local) => WakeIsSame(s, loop, local);
    case Resume(loop) => ResumeIsSame(s, loop);
  }
}
