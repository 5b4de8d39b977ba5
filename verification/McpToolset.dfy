/** The toolset's closure: the maps and sets keyed by server name that the
    asynchronous segments read and write. Seen through one name, each segment
    is the matching step of `McpProtocol`, and it leaves every other name alone. */
module McpToolset {
  import opened Common
  import opened McpProtocol

  /** The suspended work of one name and what its callbacks have been told. */
  datatype Tasks = Tasks(
    runs: seq<Run>, loops: seq<Loop>, clients: nat, closed: set<ClientId>, log: seq<Status>, retriesActed: nat)

  const NoTasks := Tasks([], [], 0, {}, [], 0)

  datatype Teardown = Live | Started | Waiting | Closing | Over

  function GetOr<T>(m: map<string, T>, name: string, default: T): T {
    if name in m then m[name] else default
  }

  function Find<T>(m: map<string, T>, name: string): Option<T> {
    if name in m then Some(m[name]) else None
  }

  function WithClosed(t: Tasks, client: Option<ClientId>): Tasks {
    if client.Some? then t.(closed := t.closed + {client.value}) else t
  }

  class Toolset {
    var connectedClients: map<string, ClientId>
    var inFlightConnections: map<string, RunId>
    var inFlightEpochs: map<string, nat>
    var disabledNames: set<string>
    var serverEpochs: map<string, nat>
    var serverOpQueues: map<string, seq<QueuedOp>>
    var reconnectingServers: map<string, LoopId>
    var registeredServers: set<string>
    var mountedTools: map<string, Mount>
    var tasks: map<string, Tasks>
    var teardown: Teardown
    var teardownAwaits: map<string, RunId>

    constructor ()
      ensures forall name :: View(name) == Fresh
    {
      connectedClients, inFlightConnections, inFlightEpochs := map[], map[], map[];
      disabledNames, serverEpochs, serverOpQueues := {}, map[], map[];
      reconnectingServers, registeredServers, mountedTools := map[], {}, map[];
      tasks, teardown, teardownAwaits := map[], Teardown.Live, map[];
    }

    /** This closure as the protocol state of one name. */
    ghost function View(name: string): Server
      reads this
    {
      var t := GetOr(tasks, name, NoTasks);
      Server(
        GetOr(serverEpochs, name, 0),
        name in disabledNames,
        Find(connectedClients, name),
        name in registeredServers,
        GetOr(mountedTools, name, NoTools),
        if name in inFlightConnections
        then Some(InFlight(inFlightConnections[name], GetOr(inFlightEpochs, name, 0))) else None,
        Find(reconnectingServers, name),
        GetOr(serverOpQueues, name, []),
        t.runs, t.loops, t.clients, t.closed, t.log, t.retriesActed,
        match teardown
        case Live => NotDisposed
        case Started => Begun
        case Waiting => Draining(Find(teardownAwaits, name))
        case Closing => ClosingAll
        case Over => Done)
    }

    function Disposed(): bool
      reads this
    {
      teardown != Teardown.Live
    }

    function CurrentEpoch(name: string): nat
      reads this
    {
      GetOr(serverEpochs, name, 0)
    }

    function StaleOrDisabled(name: string, ownedEpoch: nat): bool
      reads this
    {
      name in disabledNames || CurrentEpoch(name) != ownedEpoch
    }

    function TasksOf(name: string): Tasks
      reads this
    {
      GetOr(tasks, name, NoTasks)
    }

    // ------------------------------------------------------ bookkeeping

    method SetRunPhase(name: string, run: RunId, phase: RunPhase)
      requires run < |View(name).runs|
      modifies this`tasks
      ensures View(name) == SetPhase(old(View(name)), run, phase)
      ensures forall other :: other != name ==> View(other) == old(View(other))
    {
      var t := TasksOf(name);
      tasks := tasks[name := t.(runs := t.runs[run := t.runs[run].(phase := phase)])];
    }

    method SetLoopState(name: string, loop: LoopId, l: Loop)
      modifies this`tasks
      ensures View(name) == SetLoop(old(View(name)), loop, l)
      ensures forall other :: other != name ==> View(other) == old(View(other))
    {
      var t := TasksOf(name);
      if loop < |t.loops| {
        tasks := tasks[name := t.(loops := t.loops[loop := l])];
      }
    }

    method CloseClient(name: string, client: ClientId)
      modifies this`tasks
      ensures View(name) == old(View(name)).(closed := old(View(name)).closed + {client})
      ensures forall other :: other != name ==> View(other) == old(View(other))
    {
      var t := TasksOf(name);
      tasks := tasks[name := t.(closed := t.closed + {client})];
    }

    method SetTools(name: string, mount: Mount)
      modifies this`mountedTools
      ensures View(name) == old(View(name)).(tools := mount)
      ensures forall other :: other != name ==> View(other) == old(View(other))
    {
      mountedTools := mountedTools[name := mount];
    }

    method SetConnected(name: string, client: Option<ClientId>)
      modifies this`connectedClients
      ensures View(name) == old(View(name)).(connected := client)
      ensures forall other :: other != name ==> View(other) == old(View(other))
    {
      connectedClients := if client.Some? then connectedClients[name := client.value] else connectedClients - {name};
    }

    method SetRegistered(name: string, on: bool)
      modifies this`registeredServers
      ensures View(name) == old(View(name)).(registered := on)
      ensures forall other :: other != name ==> View(other) == old(View(other))
    {
      registeredServers := if on then registeredServers + {name} else registeredServers - {name};
    }

    method SetReconnecting(name: string, loop: Option<LoopId>)
      modifies this`reconnectingServers
      ensures View(name) == old(View(name)).(reconnecting := loop)
      ensures forall other :: other != name ==> View(other) == old(View(other))
    {
      reconnectingServers := if loop.Some? then reconnectingServers[name := loop.value] else reconnectingServers - {name};
    }

    method Enable(name: string)
      modifies this`disabledNames
      ensures View(name) == old(View(name)).(disabled := false)
      ensures forall other :: other != name ==> View(other) == old(View(other))
    {
      disabledNames := disabledNames - {name};
    }

    method CountRetry(name: string)
      modifies this`tasks
      ensures View(name) == old(View(name)).(retriesActed := old(View(name)).retriesActed + 1)
      ensures forall other :: other != name ==> View(other) == old(View(other))
    {
      var t := TasksOf(name);
      tasks := tasks[name := t.(retriesActed := t.retriesActed + 1)];
    }

    method AddLoop(name: string, epoch: nat)
      modifies this`tasks
      ensures View(name) == old(View(name)).(loops := old(View(name)).loops + [Loop(epoch, Sleeping, None)])
      ensures forall other :: other != name ==> View(other) == old(View(other))
    {
      var t := TasksOf(name);
      tasks := tasks[name := t.(loops := t.loops + [Loop(epoch, Sleeping, None)])];
    }

    /** A status on its way through the callbacks of the caller or of a redial loop. */
    /** The redial loop remembers the status its dial reported. */
    method NoteStatus(name: string, loop: LoopId, status: Status)
      modifies this`tasks
      ensures var before := old(View(name));
        View(name) == if loop < |before.loops| then SetLoop(before, loop, before.loops[loop].(last := Some(status))) else before
      ensures forall other :: other != name ==> View(other) == old(View(other))
    {
      var t := TasksOf(name);
      if loop < |t.loops| {
        SetLoopState(name, loop, t.loops[loop].(last := Some(status)));
      }
    }

    method EmitStatus(name: string, status: Status)
      modifies this`tasks
      ensures View(name) == Emit(old(View(name)), status)
      ensures forall other :: other != name ==> View(other) == old(View(other))
    {
      var t := TasksOf(name);
      tasks := tasks[name := t.(log := t.log + [status])];
    }

    method OnStatus(name: string, watcher: Option<LoopId>, status: Status)
      modifies this`tasks, this`mountedTools
      ensures View(name) == Report(old(View(name)), watcher, status)
      ensures forall other :: other != name ==> View(other) == old(View(other))
    {
      if watcher.Some? {
        NoteStatus(name, watcher.value, status);
        if status.Connecting? || status == Failed(false) {
          return;
        }
        if status.NeedsAuth? {
          SetTools(name, Stubs);
        }
      }
      EmitStatus(name, status);
    }

    method BumpEpoch(name: string) returns (next: nat)
      modifies this`serverEpochs
      ensures next == old(View(name)).epoch + 1
      ensures View(name) == old(View(name)).(epoch := next)
      ensures forall other :: other != name ==> View(other) == old(View(other))
    {
      next := CurrentEpoch(name) + 1;
      serverEpochs := serverEpochs[name := next];
    }

    method EnqueueServerOp(name: string, op: Op)
      modifies this`serverOpQueues
      ensures View(name) == Enqueue(old(View(name)), op)
      ensures forall other :: other != name ==> View(other) == old(View(other))
    {
      serverOpQueues := serverOpQueues[name := GetOr(serverOpQueues, name, []) + [QueuedOp(op, Queued)]];
    }

    method FinishOp(name: string)
      requires View(name).queue != []
      modifies this`serverOpQueues
      ensures View(name) == PopOp(old(View(name)))
      ensures forall other :: other != name ==> View(other) == old(View(other))
    {
      serverOpQueues := serverOpQueues[name := serverOpQueues[name][1..]];
    }

    method SuspendOp(name: string, stage: Stage)
      requires View(name).queue != []
      modifies this`serverOpQueues
      ensures View(name) == SetStage(old(View(name)), stage)
      ensures forall other :: other != name ==> View(other) == old(View(other))
    {
      var queue := serverOpQueues[name];
      serverOpQueues := serverOpQueues[name := [queue[0].(stage := stage)] + queue[1..]];
    }

    // ---------------------------------------------------- connect and drop

    /** From the trust check on: nothing for a stale run, else the dial starts. */
    method StartHandshake(name: string, run: RunId)
      requires run < |View(name).runs|
      modifies this`tasks, this`mountedTools
      ensures View(name) == BeginDial(old(View(name)), run)
      ensures forall other :: other != name ==> View(other) == old(View(other))
    {
      var r := TasksOf(name).runs[run];
      if StaleOrDisabled(name, r.epoch) {
        SetRunPhase(name, run, Finished);
        return;
      }
      SetRunPhase(name, run, Dialing);
      OnStatus(name, r.watcher, Connecting);
    }

    /** A new run enters the in-flight maps, replacing one of another epoch. */
    method LaunchRun(name: string, epoch: nat, watcher: Option<LoopId>) returns (id: RunId)
      modifies this`tasks, this`inFlightConnections, this`inFlightEpochs
      ensures var s := old(View(name));
        id == |s.runs| && View(name) == s.(runs := s.runs + [Run(epoch, watcher, AwaitingTrust)],
                                           inFlight := Some(InFlight(id, epoch)))
      ensures forall other :: other != name ==> View(other) == old(View(other))
    {
      var t := TasksOf(name);
      id := |t.runs|;
      tasks := tasks[name := t.(runs := t.runs + [Run(epoch, watcher, AwaitingTrust)])];
      inFlightConnections := inFlightConnections[name := id];
      inFlightEpochs := inFlightEpochs[name := epoch];
    }

    method ConnectOneMCPServer(name: string, epoch: nat, local: bool, watcher: Option<LoopId>)
      returns (awaited: Option<RunId>)
      modifies this`tasks, this`mountedTools, this`inFlightConnections, this`inFlightEpochs
      ensures (View(name), awaited) == ConnectOne(old(View(name)), epoch, local, watcher)
      ensures forall other :: other != name ==> View(other) == old(View(other))
    {
      if Disposed() || name in connectedClients {
        return None;
      }
      if name in inFlightConnections && GetOr(inFlightEpochs, name, 0) == epoch {
        return Some(inFlightConnections[name]);
      }
      var id := LaunchRun(name, epoch, watcher);
      if !local {
        StartHandshake(name, id);
      }
      return Some(id);
    }

    method DropLiveClient(name: string)
      modifies this`connectedClients, this`registeredServers, this`tasks, this`mountedTools
      ensures View(name) == DropClient(old(View(name)))
      ensures forall other :: other != name ==> View(other) == old(View(other))
    {
      var client := Find(connectedClients, name);
      SetConnected(name, None);
      SetRegistered(name, false);
      if client.Some? {
        CloseClient(name, client.value);
      } else {
        SetTools(name, NoTools);
      }
    }

    /** The dead client is closed and its tools give way to stubs. */
    method BuryClient(name: string)
      requires View(name).connected.Some?
      modifies this`connectedClients, this`tasks, this`mountedTools
      ensures var before := old(View(name));
        View(name) == before.(connected := None, closed := before.closed + {before.connected.value}, tools := Stubs)
      ensures forall other :: other != name ==> View(other) == old(View(other))
    {
      var client := connectedClients[name];
      SetConnected(name, None);
      CloseClient(name, client);
      SetTools(name, Stubs);
    }

    method HandleTransportDeath(name: string, epoch: nat, watcher: Option<LoopId>)
      modifies this`connectedClients, this`tasks, this`mountedTools, this`reconnectingServers
      ensures View(name) == TransportDeath(old(View(name)), epoch, watcher)
      ensures forall other :: other != name ==> View(other) == old(View(other))
    {
      if Disposed() || name in disabledNames || CurrentEpoch(name) != epoch {
        return;
      }
      if name !in connectedClients || name in reconnectingServers {
        return;
      }
      BuryClient(name);
      var loop := |TasksOf(name).loops|;
      OnStatus(name, watcher, Reconnecting);
      SetReconnecting(name, Some(loop));
      AddLoop(name, epoch);
    }

    // ------------------------------------------------- a dial run resumes

    method AfterTrustCheck(name: string, run: RunId, allowed: bool)
      requires run < |View(name).runs|
      modifies this`tasks, this`mountedTools
      ensures View(name) == TrustDecided(old(View(name)), run, allowed)
      ensures forall other :: other != name ==> View(other) == old(View(other))
    {
      var r := TasksOf(name).runs[run];
      if Disposed() || StaleOrDisabled(name, r.epoch) {
        SetRunPhase(name, run, Finished);
        return;
      }
      if !allowed {
        SetRunPhase(name, run, Finished);
        OnStatus(name, r.watcher, Failed(true));
        return;
      }
      StartHandshake(name, run);
    }

    method AfterDial(name: string, run: RunId, mount: MountResult)
      requires run < |View(name).runs| && View(name).runs[run].phase.Resolved?
      modifies this`tasks, this`mountedTools, this`connectedClients, this`registeredServers
      ensures View(name) == RunContinues(old(View(name)), run, mount)
      ensures forall other :: other != name ==> View(other) == old(View(other))
    {
      var r := TasksOf(name).runs[run];
      var gone := Disposed() || StaleOrDisabled(name, r.epoch);
      match r.phase.outcome {
        case Threw(final) =>
          SetRunPhase(name, run, Finished);
          if !gone {
            OnStatus(name, r.watcher, Failed(final));
          }
        case Refused(final) =>
          SetRunPhase(name, run, Finished);
          if !gone {
            OnStatus(name, r.watcher, Failed(final));
          }
        case Client(client) =>
          TakeClient(name, run, client, mount);
      }
    }

    /** The run resumes with a client: turn it away, or mount and keep it. */
    method TakeClient(name: string, run: RunId, client: ClientId, mount: MountResult)
      requires run < |View(name).runs|
      modifies this`tasks, this`mountedTools, this`connectedClients, this`registeredServers
      ensures View(name) == KeepClient(old(View(name)), run, client, mount)
      ensures forall other :: other != name ==> View(other) == old(View(other))
    {
      var r := TasksOf(name).runs[run];
      if Disposed() || StaleOrDisabled(name, r.epoch) {
        SetRunPhase(name, run, RunPhase.Closing(None));
        CloseClient(name, client);
        return;
      }
      if mount.MountThrew? {
        RollBackMount(name, run, client, mount.toolsDropped, mount.final);
        return;
      }
      InstallClient(name, run, client);
      OnStatus(name, r.watcher, Connected);
    }

    /** A mount that threw is taken back, and its client closed. */
    method RollBackMount(name: string, run: RunId, client: ClientId, toolsDropped: bool, final: bool)
      requires run < |View(name).runs|
      modifies this`tasks, this`mountedTools, this`registeredServers
      ensures var before := old(View(name));
        View(name) == SetPhase(before, run, RunPhase.Closing(Some(final)))
                        .(registered := false, closed := before.closed + {client},
                          tools := if toolsDropped then NoTools else before.tools)
      ensures forall other :: other != name ==> View(other) == old(View(other))
    {
      if toolsDropped {
        SetTools(name, NoTools);
      }
      SetRegistered(name, false);
      SetRunPhase(name, run, RunPhase.Closing(Some(final)));
      CloseClient(name, client);
    }

    method InstallClient(name: string, run: RunId, client: ClientId)
      requires run < |View(name).runs|
      modifies this`tasks, this`mountedTools, this`connectedClients, this`registeredServers
      ensures View(name) == SetPhase(old(View(name)).(registered := true, tools := Mount.Live(client), connected := Some(client)),
                                     run, Finished)
      ensures forall other :: other != name ==> View(other) == old(View(other))
    {
      SetRegistered(name, true);
      SetTools(name, Mount.Live(client));
      SetConnected(name, Some(client));
      SetRunPhase(name, run, Finished);
    }

    method AfterClose(name: string, run: RunId)
      requires run < |View(name).runs| && View(name).runs[run].phase.Closing?
      modifies this`tasks, this`mountedTools
      ensures View(name) == CloseSettled(old(View(name)), run)
      ensures forall other :: other != name ==> View(other) == old(View(other))
    {
      var r := TasksOf(name).runs[run];
      SetRunPhase(name, run, Finished);
      if r.phase.report.Some? && !StaleOrDisabled(name, r.epoch) {
        OnStatus(name, r.watcher, Failed(r.phase.report.value));
      }
    }

    method ClearInFlight(name: string, run: RunId)
      requires run < |View(name).runs|
      modifies this`tasks, this`inFlightConnections, this`inFlightEpochs
      ensures View(name) == RunSettles(old(View(name)), run)
      ensures forall other :: other != name ==> View(other) == old(View(other))
    {
      SetRunPhase(name, run, Settled(TasksOf(name).runs[run].phase.Finished?));
      if name in inFlightConnections && inFlightConnections[name] == run {
        inFlightConnections := inFlightConnections - {name};
        inFlightEpochs := inFlightEpochs - {name};
      }
    }

    // ------------------------------------------------------ public calls

    method PublicConnectMCPServer(name: string)
      modifies this`serverOpQueues
      ensures View(name) == ConnectCall(old(View(name)))
      ensures forall other :: other != name ==> View(other) == old(View(other))
    {
      EnqueueServerOp(name, ConnectOp(name in disabledNames, CurrentEpoch(name)));
    }

    method PublicDisconnectMCPServer(name: string)
      modifies this`disabledNames, this`serverEpochs, this`serverOpQueues
      ensures View(name) == DisconnectCall(old(View(name)))
      ensures forall other :: other != name ==> View(other) == old(View(other))
    {
      disabledNames := disabledNames + {name};
      var epoch := BumpEpoch(name);
      EnqueueServerOp(name, DisconnectOp(epoch));
    }

    method PublicRetryMCPServer(name: string)
      modifies this`serverOpQueues
      ensures View(name) == RetryCall(old(View(name)))
      ensures forall other :: other != name ==> View(other) == old(View(other))
    {
      if name in connectedClients && name !in reconnectingServers {
        return;
      }
      EnqueueServerOp(name, RetryOp);
    }

    // -------------------------------------------------- queued operations

    /** A connect of a disabled name opens a new epoch. */
    method Reenable(name: string)
      modifies this`disabledNames, this`serverEpochs
      ensures View(name) == Reenabled(old(View(name)), true)
      ensures forall other :: other != name ==> View(other) == old(View(other))
    {
      Enable(name);
      var _ := BumpEpoch(name);
    }

    /** A retry cancels any backoff loop and stale dial and drops the stubs. */
    method Reset(name: string)
      modifies this`disabledNames, this`serverEpochs, this`reconnectingServers, this`mountedTools, this`tasks
      ensures View(name) == ResetForRetry(old(View(name)))
      ensures forall other :: other != name ==> View(other) == old(View(other))
    {
      var _ := BumpEpoch(name);
      SetReconnecting(name, None);
      Enable(name);
      SetTools(name, NoTools);
      CountRetry(name);
    }

    /** The operation dials under the current epoch and waits for the run. */
    method DialAndSuspend(name: string, local: bool)
      requires View(name).queue != []
      modifies this`serverOpQueues, this`tasks, this`mountedTools, this`inFlightConnections, this`inFlightEpochs
      ensures View(name) == DialAndWait(old(View(name)), local)
      ensures forall other :: other != name ==> View(other) == old(View(other))
    {
      var awaited := ConnectOneMCPServer(name, CurrentEpoch(name), local, None);
      SuspendOp(name, AwaitRun(awaited));
    }

    method BeginConnectOp(name: string, reenable: bool, epochAtCall: nat, local: bool)
      requires View(name).queue != []
      modifies this
      ensures View(name) == StartConnectOp(old(View(name)), reenable, epochAtCall, local)
      ensures forall other :: other != name ==> View(other) == old(View(other))
    {
      if CurrentEpoch(name) != epochAtCall || (name in disabledNames && !reenable) {
        FinishOp(name);
        return;
      }
      if reenable {
        Reenable(name);
        DialAndSuspend(name, local);
        return;
      }
      DialAndSuspend(name, local);
    }

    method BeginRetryOp(name: string, local: bool)
      requires View(name).queue != []
      modifies this
      ensures View(name) == StartRetryOp(old(View(name)), local)
      ensures forall other :: other != name ==> View(other) == old(View(other))
    {
      if name in connectedClients && name !in reconnectingServers {
        FinishOp(name);
        return;
      }
      Reset(name);
      DialAndSuspend(name, local);
    }

    method DropAndSuspend(name: string)
      requires View(name).queue != []
      modifies this
      ensures View(name) == DropForDisconnect(old(View(name)))
      ensures forall other :: other != name ==> View(other) == old(View(other))
    {
      var closing := name in connectedClients;
      DropLiveClient(name);
      SuspendOp(name, if closing then AwaitClose else AwaitDrop);
    }

    method ContinueDisconnectOp(name: string, epoch: nat)
      requires View(name).queue != []
      modifies this
      ensures View(name) == StepDisconnectOp(old(View(name)), epoch)
      ensures forall other :: other != name ==> View(other) == old(View(other))
    {
      match serverOpQueues[name][0].stage {
        case Queued =>
          if name in inFlightConnections {
            SuspendOp(name, AwaitRun(Some(inFlightConnections[name])));
          } else {
            DropAndSuspend(name);
          }
        case AwaitRun(run) =>
          var runs := TasksOf(name).runs;
          if run.Some? && run.value < |runs| && runs[run.value].phase == Settled(false) {
            FinishOp(name);
          } else {
            DropAndSuspend(name);
          }
        case AwaitClose =>
          SetTools(name, NoTools);
          SuspendOp(name, AwaitDrop);
        case AwaitDrop =>
          if CurrentEpoch(name) == epoch && name in disabledNames {
            OnStatus(name, None, Disconnected(epoch));
          }
          FinishOp(name);
      }
    }

    method RunQueuedOp(name: string, local: bool)
      requires View(name).queue != []
      modifies this
      ensures View(name) == StepOp(old(View(name)), local)
      ensures forall other :: other != name ==> View(other) == old(View(other))
    {
      var head := serverOpQueues[name][0];
      match head.op {
        case DisconnectOp(epoch) =>
          ContinueDisconnectOp(name, epoch);
        case ConnectOp(reenable, epochAtCall) =>
          if head.stage.Queued? {
            BeginConnectOp(name, reenable, epochAtCall, local);
          } else {
            FinishOp(name);
          }
        case RetryOp =>
          if head.stage.Queued? {
            BeginRetryOp(name, local);
          } else {
            FinishOp(name);
          }
      }
    }

    // ----------------------------------------------------- redial loops

    function OwnsState(name: string, loop: LoopId, epoch: nat): bool
      reads this
    {
      Find(reconnectingServers, name) == Some(loop) && !Disposed() && !StaleOrDisabled(name, epoch)
    }

    method DropReconnectState(name: string, loop: LoopId)
      requires loop < |View(name).loops|
      modifies this`tasks, this`reconnectingServers
      ensures View(name) == AbandonLoop(old(View(name)), loop)
      ensures forall other :: other != name ==> View(other) == old(View(other))
    {
      SetLoopState(name, loop, TasksOf(name).loops[loop].(phase := Stopped));
      if Find(reconnectingServers, name) == Some(loop) {
        reconnectingServers := reconnectingServers - {name};
      }
    }

    method AfterBackoff(name: string, loop: LoopId, local: bool)
      requires loop < |View(name).loops|
      modifies this
      ensures View(name) == LoopWakes(old(View(name)), loop, local)
      ensures forall other :: other != name ==> View(other) == old(View(other))
    {
      var l := TasksOf(name).loops[loop];
      if !OwnsState(name, loop, l.epoch) {
        DropReconnectState(name, loop);
        return;
      }
      SetTools(name, NoTools);
      SetLoopState(name, loop, l.(last := None));
      var awaited := ConnectOneMCPServer(name, l.epoch, local, Some(loop));
      var loops := TasksOf(name).loops;
      SetLoopState(name, loop, (if loop < |loops| then loops[loop] else l).(phase := Redialing(awaited)));
    }

    /** A terminal failure: stubs and registration go, only a manual retry returns. */
    method GiveUp(name: string, loop: LoopId)
      requires loop < |View(name).loops|
      modifies this`tasks, this`mountedTools, this`registeredServers, this`reconnectingServers
      ensures View(name) ==
        StopLoop(old(View(name)).(reconnecting := None, tools := NoTools, registered := false), loop)
      ensures forall other :: other != name ==> View(other) == old(View(other))
    {
      SetTools(name, NoTools);
      SetRegistered(name, false);
      SetReconnecting(name, None);
      SetLoopState(name, loop, TasksOf(name).loops[loop].(phase := Stopped));
    }

    /** A transient failure: stubs again, and back to sleep. */
    method BackOff(name: string, loop: LoopId)
      requires loop < |View(name).loops|
      modifies this`tasks, this`mountedTools
      ensures View(name) == SetLoop(Emit(old(View(name)).(tools := Stubs), Reconnecting), loop,
                                    old(View(name)).loops[loop].(phase := Sleeping))
      ensures forall other :: other != name ==> View(other) == old(View(other))
    {
      OnStatus(name, None, Reconnecting);
      SetTools(name, Stubs);
      SetLoopState(name, loop, TasksOf(name).loops[loop].(phase := Sleeping));
    }

    method AfterRedial(name: string, loop: LoopId)
      requires loop < |View(name).loops| && View(name).loops[loop].phase.Redialing?
      modifies this
      ensures View(name) == LoopResumes(old(View(name)), loop)
      ensures forall other :: other != name ==> View(other) == old(View(other))
    {
      var l := TasksOf(name).loops[loop];
      var runs := TasksOf(name).runs;
      var awaited := l.phase.awaited;
      if awaited.Some? && awaited.value < |runs| && runs[awaited.value].phase == Settled(false) {
        SetLoopState(name, loop, l.(phase := Stopped));
        return;
      }
      if !OwnsState(name, loop, l.epoch) {
        DropReconnectState(name, loop);
        return;
      }
      EndRedial(name, loop);
    }

    /** The redial has ended, and the loop still owns the reconnect state. */
    method EndRedial(name: string, loop: LoopId)
      requires var before := View(name);
        && loop < |before.loops| && before.loops[loop].phase.Redialing?
        && !before.AwaitThrows(before.loops[loop].phase.awaited) && OwnsReconnect(before, loop)
      modifies this
      ensures View(name) == LoopResumes(old(View(name)), loop)
      ensures forall other :: other != name ==> View(other) == old(View(other))
    {
      var l := TasksOf(name).loops[loop];
      if l.last == Some(Connected) && name in connectedClients {
        StayConnected(name, loop);
      } else if l.last == Some(Failed(true)) {
        GiveUp(name, loop);
      } else {
        BackOff(name, loop);
      }
    }

    /** The redial brought a client: the loop is over. */
    method StayConnected(name: string, loop: LoopId)
      requires loop < |View(name).loops|
      modifies this`tasks, this`reconnectingServers
      ensures View(name) == StopLoop(old(View(name)).(reconnecting := None), loop)
      ensures forall other :: other != name ==> View(other) == old(View(other))
    {
      SetReconnecting(name, None);
      SetLoopState(name, loop, TasksOf(name).loops[loop].(phase := Stopped));
    }

    // ---------------------------------------------------------- dispose

    /** The closing segment of `dispose`: every connected client of every name. */
    method CloseEveryClient()
      requires teardown == Waiting
      modifies this
      ensures forall name :: View(name) == DisposeStep(old(View(name)))
    {
      registeredServers := registeredServers - connectedClients.Keys;
      var clients := connectedClients;
      tasks := map name | name in tasks.Keys + clients.Keys :: WithClosed(GetOr(tasks, name, NoTasks), Find(clients, name));
      teardown := Teardown.Closing;
      forall name ensures View(name) == DisposeStep(old(View(name))) {
        assert name in tasks <==> name in old(tasks) || name in clients;
      }
    }

    /** One segment of `dispose`, which works on every name at once. */
    method DisposeSegment()
      modifies this
      ensures forall name :: View(name) == DisposeStep(old(View(name)))
    {
      match teardown {
        case Live =>
          teardown := Started;
        case Started =>
          teardownAwaits := inFlightConnections;
          teardown := Waiting;
        case Waiting =>
          CloseEveryClient();
        case Closing =>
          connectedClients := map[];
          teardown := Over;
        case Over =>
      }
    }
  }
}
