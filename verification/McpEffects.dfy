/** What each step of the protocol changes, field by field: who is connected, what
    is mounted, registered and told, which operations wait, which dials start. */
module McpEffects {
  import opened Common
  import opened McpProtocol

  // ------------------------------------------------------------ the guards

  /** A run resumes with the client it dialled, uncancelled. */
  predicate TakesOver(s: Server, step: Step) {
    && step.Continue? && step.run < |s.runs|
    && s.runs[step.run].phase.Resolved? && s.runs[step.run].phase.outcome.Client?
    && !s.Cancelled(s.runs[step.run].epoch)
  }

  /** A dialled client is mounted. */
  predicate Installs(s: Server, step: Step) {
    TakesOver(s, step) && step.mount.Mounted?
  }

  /** Mounting the tools of a dialled client throws. */
  predicate FailsToMount(s: Server, step: Step) {
    TakesOver(s, step) && step.mount.MountThrew?
  }

  /** The connected client's transport dies while nobody redials. */
  predicate Dies(s: Server, step: Step) {
    && step.Death? && step.run < |s.runs|
    && !s.Cancelled(s.runs[step.run].epoch) && s.connected.Some? && s.reconnecting.None?
  }

  /** A queued disconnect has nothing left to wait for and drops the client. */
  predicate Drops(s: Server, step: Step) {
    && step.RunOp? && s.queue != [] && s.queue[0].op.DisconnectOp?
    && ((s.queue[0].stage.Queued? && s.inFlight.None?)
        || (s.queue[0].stage.AwaitRun? && !s.AwaitThrows(s.queue[0].stage.run)))
  }

  /** A queued connect is still wanted when its turn comes. */
  predicate ConnectActs(s: Server, step: Step) {
    && step.RunOp? && s.queue != [] && s.queue[0].op.ConnectOp? && s.queue[0].stage.Queued?
    && s.epoch == s.queue[0].op.epochAtCall && (s.disabled ==> s.queue[0].op.reenable)
  }

  /** A queued retry finds no live client, or one that is being redialled. */
  predicate RetryActs(s: Server, step: Step) {
    && step.RunOp? && s.queue != [] && s.queue[0].op.RetryOp? && s.queue[0].stage.Queued?
    && (s.connected.None? || s.reconnecting.Some?)
  }

  /** A redial loop wakes up and still owns the reconnect state. */
  predicate WakesToRedial(s: Server, step: Step) {
    && step.Wake? && step.loop < |s.loops|
    && s.reconnecting == Some(step.loop) && !s.Cancelled(s.loops[step.loop].epoch)
  }

  /** The redial of a loop that still owns the reconnect state has not thrown. */
  predicate RedialReturns(s: Server, step: Step) {
    && step.Resume? && step.loop < |s.loops| && s.loops[step.loop].phase.Redialing?
    && !s.AwaitThrows(s.loops[step.loop].phase.awaited)
    && s.reconnecting == Some(step.loop) && !s.Cancelled(s.loops[step.loop].epoch)
  }

  /** It brought a client that is still there. */
  predicate RedialSucceeds(s: Server, step: Step) {
    RedialReturns(s, step) && s.connected.Some? && s.loops[step.loop].last == Some(Connected)
  }

  /** It reported a failure no redial can cure. */
  predicate RedialGivesUp(s: Server, step: Step) {
    RedialReturns(s, step) && s.loops[step.loop].last == Some(Failed(true))
  }

  /** Anything else. */
  predicate RedialBacksOff(s: Server, step: Step) {
    && RedialReturns(s, step) && s.loops[step.loop].last != Some(Failed(true))
    && !(s.connected.Some? && s.loops[step.loop].last == Some(Connected))
  }

  /** A loop that lost the reconnect state finds out, waking or resuming. */
  predicate Abandons(s: Server, step: Step) {
    && (step.Wake? || step.Resume?) && step.loop < |s.loops|
    && s.reconnecting == Some(step.loop) && s.Cancelled(s.loops[step.loop].epoch)
    && (step.Resume? && s.loops[step.loop].phase.Redialing? ==> !s.AwaitThrows(s.loops[step.loop].phase.awaited))
  }

  /** Disposal closes the connected client. */
  predicate DisposalCloses(s: Server, step: Step) {
    step.Dispose? && s.disposal.Draining? && s.connected.Some?
  }

  function ClientOf(s: Server, step: Step): ClientId
    requires TakesOver(s, step)
  {
    s.runs[step.run].phase.outcome.id
  }

  /** The epoch for which the step asks for a connection, if it does. */
  function AsksFor(s: Server, step: Step): Option<nat> {
    if step.Startup? then Some(s.epoch)
    else if ConnectActs(s, step) then Some(if s.queue[0].op.reenable then s.epoch + 1 else s.epoch)
    else if RetryActs(s, step) then Some(s.epoch + 1)
    else if WakesToRedial(s, step) then Some(s.loops[step.loop].epoch)
    else None
  }

  predicate Wants(s: Server) {
    !s.Disposed() && s.connected.None?
  }

  predicate UnderWay(s: Server, epoch: nat) {
    s.inFlight.Some? && s.inFlight.value.epoch == epoch
  }

  /** A new run begins. */
  predicate Begins(s: Server, step: Step) {
    AsksFor(s, step).Some? && Wants(s) && !UnderWay(s, AsksFor(s, step).value)
  }

  /** The run that the asking operation or loop waits for. */
  function AwaitedBy(s: Server, step: Step): Option<RunId> {
    if AsksFor(s, step).None? || !Wants(s) then None
    else if UnderWay(s, AsksFor(s, step).value) then Some(s.inFlight.value.run)
    else Some(|s.runs|)
  }

  // ------------------------------------- who is connected and registered

  /** Exactly a mounted client becomes the connected one; exactly a transport
      death, a disconnect and the end of disposal let go of it. */
  ghost predicate ConnectedAfter(s: Server, step: Step, t: Server)
    requires Enabled(s, step)
  {
    t.connected == if Installs(s, step) then Some(ClientOf(s, step))
                   else if Dies(s, step) || Drops(s, step) || (step.Dispose? && s.disposal.ClosingAll?) then None
                   else s.connected
  }

  predicate Unregisters(s: Server, step: Step) {
    Drops(s, step) || FailsToMount(s, step) || RedialGivesUp(s, step) || DisposalCloses(s, step)
  }

  ghost predicate RegisteredAfter(s: Server, step: Step, t: Server)
    requires Enabled(s, step)
  {
    t.registered == (Installs(s, step) || (s.registered && !Unregisters(s, step)))
  }

  ghost predicate ToolsAfter(s: Server, step: Step, t: Server)
    requires Enabled(s, step)
  {
    t.tools == if Installs(s, step) then Live(ClientOf(s, step))
               else if Dies(s, step) || RedialBacksOff(s, step) || AsksOperator(s, step) then Stubs
               else if Unmounts(s, step) then NoTools
               else s.tools
  }

  /** The operator is asked to authorize a redial. */
  predicate AsksOperator(s: Server, step: Step) {
    && step.AskAuth? && step.run < |s.runs| && s.runs[step.run].watcher.Some?
    && !s.Cancelled(s.runs[step.run].epoch)
  }

  predicate Unmounts(s: Server, step: Step) {
    || (Drops(s, step) && s.connected.None?)
    || (step.RunOp? && s.queue != [] && s.queue[0].op.DisconnectOp? && s.queue[0].stage.AwaitClose?)
    || RetryActs(s, step) || WakesToRedial(s, step) || RedialGivesUp(s, step)
    || (FailsToMount(s, step) && step.mount.toolsDropped)
  }

  ghost predicate ReconnectingAfter(s: Server, step: Step, t: Server)
    requires Enabled(s, step)
  {
    var over := RetryActs(s, step) || RedialSucceeds(s, step) || RedialGivesUp(s, step) || Abandons(s, step);
    t.reconnecting == if Dies(s, step) then Some(|s.loops|) else if over then None else s.reconnecting
  }

  ghost predicate EpochAfter(s: Server, step: Step, t: Server)
    requires Enabled(s, step)
  {
    var enables := RetryActs(s, step) || (ConnectActs(s, step) && s.queue[0].op.reenable);
    && t.epoch == (if step.CallDisconnect? || enables then s.epoch + 1 else s.epoch)
    && t.disabled == (if step.CallDisconnect? then true else if enables then false else s.disabled)
    && t.retriesActed == s.retriesActed + (if RetryActs(s, step) then 1 else 0)
  }

  /** Disposal goes from segment to segment and looks at the run in flight once. */
  ghost predicate DisposalAfter(s: Server, step: Step, t: Server)
    requires Enabled(s, step)
  {
    t.disposal == if !step.Dispose? || s.disposal.Done? then s.disposal
                  else if s.disposal.NotDisposed? then Begun
                  else if s.disposal.Begun? then Draining(if s.inFlight.Some? then Some(s.inFlight.value.run) else None)
                  else if s.disposal.Draining? then ClosingAll
                  else Done
  }

  // ------------------------------------------------------------- the queue

  function HeadAt(s: Server, stage: Stage): seq<QueuedOp>
    requires s.queue != []
  {
    [QueuedOp(s.queue[0].op, stage)] + s.queue[1..]
  }

  /** Operations queue up in the order of the calls; the head alone moves, waits
      for the run it asked for, and leaves. */
  ghost predicate QueueAfter(s: Server, step: Step, t: Server)
    requires Enabled(s, step)
  {
    match step
    case CallConnect => t.queue == s.queue + [QueuedOp(ConnectOp(s.disabled, s.epoch), Queued)]
    case CallDisconnect => t.queue == s.queue + [QueuedOp(DisconnectOp(s.epoch + 1), Queued)]
    case CallRetry =>
      t.queue == if s.connected.Some? && s.reconnecting.None? then s.queue else s.queue + [QueuedOp(RetryOp, Queued)]
    case RunOp(_) => t.queue == HeadMoves(s, step)
    case _ => t.queue == s.queue
  }

  function HeadMoves(s: Server, step: Step): seq<QueuedOp>
    requires s.queue != []
  {
    if ConnectActs(s, step) || RetryActs(s, step) then HeadAt(s, AwaitRun(AwaitedBy(s, step)))
    else if Drops(s, step) then HeadAt(s, if s.connected.Some? then AwaitClose else AwaitDrop)
    else if s.queue[0].op.DisconnectOp? && s.queue[0].stage.Queued? && s.inFlight.Some? then
      HeadAt(s, AwaitRun(Some(s.inFlight.value.run)))
    else if s.queue[0].op.DisconnectOp? && s.queue[0].stage.AwaitClose? then HeadAt(s, AwaitDrop)
    else s.queue[1..]
  }

  // -------------------------------------------------------------- the runs

  /** A run begins exactly when a startup, a connect or a retry that acts, or a
      waking loop finds no client and no run of its epoch; it is in flight until
      it settles. */
  ghost predicate NewRunAfter(s: Server, step: Step, t: Server)
    requires Enabled(s, step)
  {
    && |t.runs| == |s.runs| + (if Begins(s, step) then 1 else 0)
    && (Begins(s, step) ==>
          && t.runs[|s.runs|].epoch == AsksFor(s, step).value
          && t.runs[|s.runs|].watcher == (if step.Wake? then Some(step.loop) else None)
          && t.runs[|s.runs|].phase == (if step.local then AwaitingTrust else if t.disabled then Finished else Dialing))
    && t.inFlight == (if Begins(s, step) then Some(InFlight(|s.runs|, AsksFor(s, step).value))
                      else if step.Settle? && s.inFlight.Some? && s.inFlight.value.run == step.run then None
                      else s.inFlight)
  }

  /** The step is one of run `run`. */
  predicate MovesRun(step: Step, run: RunId) {
    match step
    case Trust(r, _) => r == run
    case TrustFails(r) => r == run
    case Dial(r, _) => r == run
    case Continue(r, _) => r == run
    case Closed(r) => r == run
    case Settle(r) => r == run
    case _ => false
  }

  function PhaseAfter(s: Server, step: Step, run: RunId): RunPhase
    requires Enabled(s, step) && run < |s.runs|
  {
    if !MovesRun(step, run) then s.runs[run].phase
    else if step.Trust? then if step.allowed && !s.Cancelled(s.runs[run].epoch) then Dialing else Finished
    else if step.TrustFails? then Rejected
    else if step.Dial? then
      Resolved(match step.result
               case Dialled => Client(s.clients)
               case DialRefused(final) => Refused(final)
               case DialThrew(final) => Threw(final))
    else if step.Settle? then Settled(s.runs[run].phase.Finished?)
    else if step.Continue? && s.runs[run].phase.outcome.Client? && !Installs(s, step) then
      Closing(if FailsToMount(s, step) then Some(step.mount.final) else None)
    else Finished
  }

  ghost predicate RunsAfter(s: Server, step: Step, t: Server)
    requires Enabled(s, step)
  {
    forall run :: 0 <= run < |s.runs| ==>
      run < |t.runs| && t.runs[run] == s.runs[run].(phase := PhaseAfter(s, step, run))
  }

  /** A dial that succeeds makes a client; a client is closed where it is turned
      away, not mounted, dead, disconnected or disposed of. */
  ghost predicate ClientsAfter(s: Server, step: Step, t: Server)
    requires Enabled(s, step)
  {
    && t.clients == s.clients + (if step.Dial? && step.result.Dialled? then 1 else 0)
    && t.closed == s.closed + ClosedBy(s, step)
  }

  function ClosedBy(s: Server, step: Step): set<ClientId>
    requires Enabled(s, step)
  {
    if Dies(s, step) || (Drops(s, step) && s.connected.Some?) || DisposalCloses(s, step) then {s.connected.value}
    else if step.Continue? && s.runs[step.run].phase.outcome.Client? && !Installs(s, step) then
      {s.runs[step.run].phase.outcome.id}
    else {}
  }

  // ----------------------------------------------------- what is reported

  /** The status a step reports, and the redial loop it reports to, if any. */
  function Reported(s: Server, step: Step): Option<(Option<LoopId>, Status)>
    requires Enabled(s, step)
  {
    if AsksFor(s, step).Some? then
      if Begins(s, step) && !step.local && !(step.Startup? && s.disabled) then
        Some((if step.Wake? then Some(step.loop) else None, Connecting))
      else None
    else if RedialBacksOff(s, step) then Some((None, Reconnecting))
    else if step.RunOp? then
      if s.queue[0].op.DisconnectOp? && s.queue[0].stage.AwaitDrop? && s.disabled && s.epoch == s.queue[0].op.epoch then
        Some((None, Disconnected(s.epoch)))
      else None
    else if RunStatus(s, step).Some? then Some((s.runs[step.run].watcher, RunStatus(s, step).value))
    else None
  }

  /** The status that the run of a step reports. */
  function RunStatus(s: Server, step: Step): Option<Status>
    requires Enabled(s, step)
    ensures RunStatus(s, step).Some? ==>
              step.Trust? || step.AskAuth? || step.Reauthorized? || step.Continue? || step.Closed? || step.Death?
  {
    if step.Trust? && !s.Cancelled(s.runs[step.run].epoch) then Some(if step.allowed then Connecting else Failed(true))
    else if step.AskAuth? && !s.Cancelled(s.runs[step.run].epoch) then Some(NeedsAuth)
    else if step.Reauthorized? && !s.Cancelled(s.runs[step.run].epoch) && s.connected.Some? then Some(Connected)
    else if Installs(s, step) then Some(Connected)
    else if step.Continue? && !s.runs[step.run].phase.outcome.Client? && !s.Cancelled(s.runs[step.run].epoch) then
      Some(Failed(s.runs[step.run].phase.outcome.final))
    else if step.Closed? && s.runs[step.run].phase.report.Some? && !s.Stale(s.runs[step.run].epoch) then
      Some(Failed(s.runs[step.run].phase.report.value))
    else if Dies(s, step) then Some(Reconnecting)
    else None
  }

  /** The operator sees every status reported, except that a redial keeps its
      connecting and the failures it will retry to itself. */
  ghost predicate LogAfter(s: Server, step: Step, t: Server)
    requires Enabled(s, step)
  {
    var told := Reported(s, step);
    var hidden := told.Some? && told.value.0.Some? && told.value.1 in {Connecting, Failed(false)};
    t.log == s.log + if told.None? || hidden then [] else [told.value.1]
  }

  // ------------------------------------------------------------- the loops

  function LoopPhaseAfter(s: Server, step: Step, loop: LoopId): LoopPhase
    requires Enabled(s, step) && loop < |s.loops|
  {
    if step.Wake? && step.loop == loop then if WakesToRedial(s, step) then Redialing(AwaitedBy(s, step)) else Stopped
    else if step.Resume? && step.loop == loop then if RedialBacksOff(s, step) then Sleeping else Stopped
    else s.loops[loop].phase
  }

  /** A redial starts with nothing reported. */
  function LastAfter(s: Server, step: Step, loop: LoopId): Option<Status>
    requires Enabled(s, step) && loop < |s.loops|
  {
    var told := Reported(s, step);
    if told.Some? && told.value.0 == Some(loop) then Some(told.value.1)
    else if WakesToRedial(s, step) && step.loop == loop then None
    else s.loops[loop].last
  }

  /** A loop begins with a transport death; it sleeps, redials, and sleeps again
      or stops; it remembers the last status its redial reported. */
  ghost predicate LoopsAfter(s: Server, step: Step, t: Server)
    requires Enabled(s, step)
  {
    && |t.loops| == |s.loops| + (if Dies(s, step) then 1 else 0)
    && (Dies(s, step) ==> t.loops[|s.loops|] == Loop(s.runs[step.run].epoch, Sleeping, None))
    && forall l :: 0 <= l < |s.loops| ==>
         && t.loops[l].epoch == s.loops[l].epoch
         && t.loops[l].phase == LoopPhaseAfter(s, step, l)
         && t.loops[l].last == LastAfter(s, step, l)
  }

  // --------------------------------------------------------------- together

  ghost predicate SessionEffects(s: Server, step: Step, t: Server)
    requires Enabled(s, step)
  {
    && ConnectedAfter(s, step, t) && RegisteredAfter(s, step, t) && ToolsAfter(s, step, t)
    && ReconnectingAfter(s, step, t) && EpochAfter(s, step, t) && DisposalAfter(s, step, t) && QueueAfter(s, step, t)
  }

  ghost predicate RunEffects(s: Server, step: Step, t: Server)
    requires Enabled(s, step)
  {
    NewRunAfter(s, step, t) && RunsAfter(s, step, t) && ClientsAfter(s, step, t)
  }

  ghost predicate ReportEffects(s: Server, step: Step, t: Server)
    requires Enabled(s, step)
  {
    LogAfter(s, step, t) && LoopsAfter(s, step, t)
  }
}
