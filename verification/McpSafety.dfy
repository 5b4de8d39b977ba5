/** What every interleaving of the connection protocol keeps. */
module McpSafety {
  import opened Common
  import opened McpProtocol

  /** A run that may still install a client. */
  predicate Active(run: Run) {
    run.phase.AwaitingTrust? || run.phase.Dialing? || run.phase.Resolved?
  }

  /** The client a run is about to take over or turn away. */
  function Held(run: Run): Option<ClientId> {
    if run.phase.Resolved? && run.phase.outcome.Client? then Some(run.phase.outcome.id) else None
  }

  ghost predicate BeingCompleted(s: Server, client: ClientId) {
    exists r :: 0 <= r < |s.runs| && Held(s.runs[r]) == Some(client)
  }

  /** At most one unsettled run belongs to the current epoch: the one in flight. */
  ghost predicate RunsInv(s: Server) {
    && (s.inFlight.Some? ==>
          var f := s.inFlight.value;
          f.run < |s.runs| && !s.runs[f.run].phase.Settled? && s.runs[f.run].epoch == f.epoch)
    && (forall r :: 0 <= r < |s.runs| ==> s.runs[r].epoch <= s.epoch)
    && (forall r :: 0 <= r < |s.runs| && !s.runs[r].phase.Settled? && s.runs[r].epoch == s.epoch
          ==> s.inFlight == Some(InFlight(r, s.epoch)))
    && (forall r :: 0 <= r < |s.runs| && Active(s.runs[r]) && s.runs[r].epoch == s.epoch ==> s.connected.None?)
  }

  /** Every client ever dialled is being completed, connected, or closed, and
      a client being completed is neither of the others nor another run's. */
  ghost predicate ClientsInv(s: Server) {
    && (forall c: nat :: c < s.clients ==> BeingCompleted(s, c) || s.connected == Some(c) || c in s.closed)
    && (forall c :: c in s.closed ==> c < s.clients)
    && (s.connected.Some? ==> s.connected.value < s.clients)
    && (forall r :: 0 <= r < |s.runs| && Held(s.runs[r]).Some?
          ==> Held(s.runs[r]).value < s.clients && Held(s.runs[r]).value !in s.closed && s.connected != Held(s.runs[r]))
    && (forall q, r :: 0 <= q < r < |s.runs| && Held(s.runs[q]).Some? ==> Held(s.runs[q]) != Held(s.runs[r]))
  }

  /** The connected client is open until disposal closes it, and gone after. */
  ghost predicate DisposalInv(s: Server) {
    && (s.connected.Some? ==> (s.connected.value in s.closed <==> s.disposal.ClosingAll?))
    && (s.disposal.Done? ==> s.connected.None?)
  }

  ghost predicate Inv(s: Server) {
    RunsInv(s) && ClientsInv(s) && DisposalInv(s)
  }

  lemma FreshInv()
    ensures Inv(Fresh)
  {
  }

  /** `t` differs from `s` at most in what the invariant does not mention. */
  predicate SameCore(s: Server, t: Server) {
    && t.epoch == s.epoch && t.inFlight == s.inFlight && t.runs == s.runs && t.connected == s.connected
    && t.clients == s.clients && t.closed == s.closed && t.disposal == s.disposal
  }

  lemma SameCoreKeeps(s: Server, t: Server)
    requires Inv(s) && SameCore(s, t)
    ensures Inv(t)
  {
    forall c: nat | c < t.clients ensures BeingCompleted(t, c) || t.connected == Some(c) || c in t.closed {
      if BeingCompleted(s, c) {
        var r :| 0 <= r < |s.runs| && Held(s.runs[r]) == Some(c);
        assert Held(t.runs[r]) == Some(c);
      }
    }
  }

  /** A run changes phase without taking up or letting go of a client. */
  lemma PhaseKeeps(s: Server, run: RunId, phase: RunPhase)
    requires Inv(s) && run < |s.runs|
    requires !s.runs[run].phase.Settled? && !phase.Settled?
    requires !(s.runs[run].phase.Resolved? && s.runs[run].phase.outcome.Client?)
    requires !(phase.Resolved? && phase.outcome.Client?)
    requires Active(s.runs[run].(phase := phase)) ==> Active(s.runs[run])
    ensures Inv(SetPhase(s, run, phase))
  {
    var t := SetPhase(s, run, phase);
    forall r | 0 <= r < |s.runs| ensures t.runs[r].epoch == s.runs[r].epoch
                                 ensures Held(t.runs[r]) == Held(s.runs[r]) {
    }
    forall c: nat | c < t.clients ensures BeingCompleted(t, c) || t.connected == Some(c) || c in t.closed {
      if BeingCompleted(s, c) {
        var r :| 0 <= r < |s.runs| && Held(s.runs[r]) == Some(c);
        assert Held(t.runs[r]) == Some(c);
      }
    }
  }

  lemma ReportKeeps(s: Server, watcher: Option<LoopId>, status: Status)
    requires Inv(s)
    ensures Inv(Report(s, watcher, status))
  {
    ReportIsSame(s, watcher, status);
    SameCoreKeeps(s, Report(s, watcher, status));
  }

  /** A new epoch owns no run yet. */
  lemma BumpKeeps(s: Server, t: Server)
    requires Inv(s) && SameCore(s, t.(epoch := s.epoch)) && t.epoch == s.epoch + 1
    ensures Inv(t)
  {
    SameCoreKeeps(s, t.(epoch := s.epoch));
    var u := t.(epoch := s.epoch);
    forall c: nat | c < t.clients ensures BeingCompleted(t, c) || t.connected == Some(c) || c in t.closed {
      assert BeingCompleted(u, c) || u.connected == Some(c) || c in u.closed;
      if BeingCompleted(u, c) {
        var r :| 0 <= r < |u.runs| && Held(u.runs[r]) == Some(c);
        assert Held(t.runs[r]) == Some(c);
      }
    }
  }

  /** A run of the current epoch begins; no other of that epoch is active. */
  lemma BeginRunKeeps(s: Server, watcher: Option<LoopId>)
    requires Inv(s) && !s.Disposed() && s.connected.None?
    requires s.inFlight.Some? ==> s.inFlight.value.epoch != s.epoch
    ensures Inv(s.(runs := s.runs + [Run(s.epoch, watcher, AwaitingTrust)],
                   inFlight := Some(InFlight(|s.runs|, s.epoch))))
  {
    var id := |s.runs|;
    var begun := s.(runs := s.runs + [Run(s.epoch, watcher, AwaitingTrust)], inFlight := Some(InFlight(id, s.epoch)));
    assert begun.runs[id] == Run(s.epoch, watcher, AwaitingTrust);
    assert forall r :: 0 <= r < id ==> begun.runs[r] == s.runs[r];
    forall c: nat | c < begun.clients
      ensures BeingCompleted(begun, c) || begun.connected == Some(c) || c in begun.closed
    {
      if BeingCompleted(s, c) {
        var r :| 0 <= r < |s.runs| && Held(s.runs[r]) == Some(c);
        assert Held(begun.runs[r]) == Some(c);
      }
    }
  }

  lemma ConnectOneKeeps(s: Server, local: bool, watcher: Option<LoopId>)
    requires Inv(s)
    ensures Inv(ConnectOne(s, s.epoch, local, watcher).0)
  {
    if s.Disposed() || s.connected.Some? || (s.inFlight.Some? && s.inFlight.value.epoch == s.epoch) {
    } else {
      var id := |s.runs|;
      var begun := s.(runs := s.runs + [Run(s.epoch, watcher, AwaitingTrust)], inFlight := Some(InFlight(id, s.epoch)));
      BeginRunKeeps(s, watcher);
      if !local {
        PhaseKeeps(begun, id, Finished);
        PhaseKeeps(begun, id, Dialing);
        ReportKeeps(SetPhase(begun, id, Dialing), watcher, Connecting);
      }
    }
  }

  /** Closing the connected client and dropping it from the map. */
  lemma CloseConnectedKeeps(s: Server, t: Server)
    requires Inv(s) && s.connected.Some?
    requires t.connected.None? && t.closed == s.closed + {s.connected.value}
    requires SameCore(s, t.(connected := s.connected, closed := s.closed))
    ensures Inv(t)
  {
    forall c: nat | c < t.clients ensures BeingCompleted(t, c) || t.connected == Some(c) || c in t.closed {
      if BeingCompleted(s, c) {
        var r :| 0 <= r < |s.runs| && Held(s.runs[r]) == Some(c);
        assert Held(t.runs[r]) == Some(c);
      }
    }
  }

  lemma DropKeeps(s: Server)
    requires Inv(s) && s.queue != []
    ensures Inv(DropForDisconnect(s))
  {
    var t := DropForDisconnect(s);
    if s.connected.Some? {
      CloseConnectedKeeps(s, t);
    } else {
      SameCoreKeeps(s, t);
    }
  }

  lemma DisconnectOpKeeps(s: Server, epoch: nat)
    requires Inv(s) && s.queue != []
    ensures Inv(StepDisconnectOp(s, epoch))
  {
    DropKeeps(s);
    match s.queue[0].stage
    case Queued =>
      if s.inFlight.Some? { SameCoreKeeps(s, SetStage(s, AwaitRun(Some(s.inFlight.value.run)))); }
    case AwaitRun(run) => SameCoreKeeps(s, PopOp(s));
    case AwaitClose => SameCoreKeeps(s, SetStage(s.(tools := NoTools), AwaitDrop));
    case AwaitDrop => SameCoreKeeps(s, StepDisconnectOp(s, epoch));
  }

  lemma DialAndWaitKeeps(s: Server, local: bool)
    requires Inv(s) && s.queue != []
    ensures Inv(DialAndWait(s, local))
  {
    ConnectOneKeeps(s, local, None);
    SameCoreKeeps(ConnectOne(s, s.epoch, local, None).0, DialAndWait(s, local));
  }

  lemma ConnectOpKeeps(s: Server, reenable: bool, epochAtCall: nat, local: bool)
    requires Inv(s) && s.queue != []
    ensures Inv(StartConnectOp(s, reenable, epochAtCall, local))
  {
    if s.epoch != epochAtCall || (s.disabled && !reenable) {
      SameCoreKeeps(s, PopOp(s));
    } else {
      if reenable {
        BumpKeeps(s, Reenabled(s, reenable));
      }
      DialAndWaitKeeps(Reenabled(s, reenable), local);
    }
  }

  lemma RetryOpKeeps(s: Server, local: bool)
    requires Inv(s) && s.queue != []
    ensures Inv(StartRetryOp(s, local))
  {
    if RetryIsNoOp(s) {
      SameCoreKeeps(s, PopOp(s));
    } else {
      BumpKeeps(s, ResetForRetry(s));
      DialAndWaitKeeps(ResetForRetry(s), local);
    }
  }

  lemma OpKeeps(s: Server, local: bool)
    requires Inv(s) && s.queue != []
    ensures Inv(StepOp(s, local))
  {
    var head := s.queue[0];
    match head.op {
      case DisconnectOp(epoch) =>
        DisconnectOpKeeps(s, epoch);
      case ConnectOp(reenable, epochAtCall) =>
        ConnectOpKeeps(s, reenable, epochAtCall, local);
        SameCoreKeeps(s, PopOp(s));
      case RetryOp =>
        RetryOpKeeps(s, local);
        SameCoreKeeps(s, PopOp(s));
    }
  }

  /** A dial yields a client: the run holds it and nobody else does. */
  lemma DialKeeps(s: Server, run: RunId, result: DialResult)
    requires Inv(s) && run < |s.runs| && s.runs[run].phase.Dialing?
    ensures Inv(DialResolved(s, run, result))
  {
    if result.Dialled? {
      DialledRunsKeep(s, run);
      DialledClientsKeep(s, run);
    } else {
      PhaseKeeps(s, run, DialResolved(s, run, result).runs[run].phase);
    }
  }

  lemma DialledRunsKeep(s: Server, run: RunId)
    requires RunsInv(s) && run < |s.runs| && s.runs[run].phase.Dialing?
    ensures RunsInv(DialResolved(s, run, Dialled))
  {
  }

  lemma DialledClientsKeep(s: Server, run: RunId)
    requires ClientsInv(s) && run < |s.runs| && s.runs[run].phase.Dialing?
    ensures ClientsInv(DialResolved(s, run, Dialled))
  {
    var t := DialResolved(s, run, Dialled);
    assert Held(t.runs[run]) == Some(s.clients);
    forall c: nat | c < t.clients ensures BeingCompleted(t, c) || t.connected == Some(c) || c in t.closed {
      if c < s.clients && BeingCompleted(s, c) {
        var r :| 0 <= r < |s.runs| && Held(s.runs[r]) == Some(c);
        assert Held(t.runs[r]) == Some(c);
      }
    }
  }

  /** The run lets go of its client, which is closed or becomes the connected one. */
  lemma ReleaseKeeps(s: Server, run: RunId, client: ClientId, t: Server)
    requires Inv(s) && run < |s.runs| && Held(s.runs[run]) == Some(client)
    requires |t.runs| == |s.runs| && t.runs == s.runs[run := s.runs[run].(phase := t.runs[run].phase)]
    requires !Active(t.runs[run]) && !t.runs[run].phase.Settled?
    requires SameCore(s, t.(runs := s.runs, connected := s.connected, closed := s.closed))
    requires (t.connected == s.connected && t.closed == s.closed + {client})
          || (!s.Cancelled(s.runs[run].epoch) && t.connected == Some(client) && t.closed == s.closed)
    ensures Inv(t)
  {
    forall c: nat | c < t.clients ensures BeingCompleted(t, c) || t.connected == Some(c) || c in t.closed {
      if c != client && BeingCompleted(s, c) {
        var r :| 0 <= r < |s.runs| && Held(s.runs[r]) == Some(c);
        assert r != run && Held(t.runs[r]) == Some(c);
      }
    }
  }

  lemma ContinueKeeps(s: Server, run: RunId, mount: MountResult)
    requires Inv(s) && run < |s.runs| && s.runs[run].phase.Resolved?
    ensures Inv(RunContinues(s, run, mount))
  {
    var r := s.runs[run];
    match r.phase.outcome {
      case Client(id) =>
        if s.Cancelled(r.epoch) || mount.MountThrew? {
          ReleaseKeeps(s, run, id, RunContinues(s, run, mount));
        } else {
          var mounted := s.(registered := true, tools := Live(id), connected := Some(id));
          ReleaseKeeps(s, run, id, SetPhase(mounted, run, Finished));
          ReportKeeps(SetPhase(mounted, run, Finished), r.watcher, Connected);
        }
      case Refused(final) =>
        PhaseKeeps(s, run, Finished);
        ReportKeeps(SetPhase(s, run, Finished), r.watcher, Failed(final));
      case Threw(final) =>
        PhaseKeeps(s, run, Finished);
        ReportKeeps(SetPhase(s, run, Finished), r.watcher, Failed(final));
    }
  }

  /** The runs hold the same clients, so the accounting carries over. */
  lemma SameHeldKeeps(s: Server, t: Server)
    requires ClientsInv(s) && |t.runs| == |s.runs|
    requires forall r :: 0 <= r < |s.runs| ==> Held(t.runs[r]) == Held(s.runs[r])
    requires t.connected == s.connected && t.closed == s.closed && t.clients == s.clients
    ensures ClientsInv(t)
  {
    forall c: nat | c < t.clients ensures BeingCompleted(t, c) || t.connected == Some(c) || c in t.closed {
      if BeingCompleted(s, c) {
        var r :| 0 <= r < |s.runs| && Held(s.runs[r]) == Some(c);
        assert Held(t.runs[r]) == Some(c);
      }
    }
  }

  lemma SettleKeeps(s: Server, run: RunId)
    requires Inv(s) && run < |s.runs| && (s.runs[run].phase.Finished? || s.runs[run].phase.Rejected?)
    ensures Inv(RunSettles(s, run))
  {
    SameHeldKeeps(s, RunSettles(s, run));
    SettledRunsKeep(s, run);
  }

  lemma SettledRunsKeep(s: Server, run: RunId)
    requires RunsInv(s) && run < |s.runs| && (s.runs[run].phase.Finished? || s.runs[run].phase.Rejected?)
    ensures RunsInv(RunSettles(s, run))
  {
  }

  lemma WakeKeeps(s: Server, loop: LoopId, local: bool)
    requires Inv(s) && loop < |s.loops|
    ensures Inv(LoopWakes(s, loop, local))
  {
    var t := LoopWakes(s, loop, local);
    if !OwnsReconnect(s, loop) {
      SameCoreKeeps(s, t);
    } else {
      var ready := SetLoop(s.(tools := NoTools), loop, s.loops[loop].(last := None));
      SameCoreKeeps(s, ready);
      ConnectOneKeeps(ready, local, Some(loop));
      SameCoreKeeps(ConnectOne(ready, ready.epoch, local, Some(loop)).0, t);
    }
  }

  lemma DeathKeeps(s: Server, run: RunId)
    requires Inv(s) && run < |s.runs|
    ensures Inv(Next(s, Death(run)))
  {
    var epoch, watcher := s.runs[run].epoch, s.runs[run].watcher;
    if !(s.Disposed() || s.Stale(epoch) || s.connected.None? || s.reconnecting.Some?) {
      var dead := s.(connected := None, closed := s.closed + {s.connected.value}, tools := Stubs);
      CloseConnectedKeeps(s, dead);
      ReportKeeps(dead, watcher, Reconnecting);
      NewLoopKeeps(Report(dead, watcher, Reconnecting), TransportDeath(s, epoch, watcher));
    }
  }

  lemma NewLoopKeeps(s: Server, t: Server)
    requires Inv(s) && t == s.(reconnecting := t.reconnecting, loops := t.loops)
    ensures Inv(t)
  {
    SameCoreKeeps(s, t);
  }

  lemma DisposeKeeps(s: Server)
    requires Inv(s)
    ensures Inv(DisposeStep(s))
  {
    var t := DisposeStep(s);
    if s.disposal.Draining? && s.connected.Some? {
      SameHeldKeeps(s.(closed := t.closed), t);
    } else if s.disposal.ClosingAll? {
      forall c: nat | c < t.clients ensures BeingCompleted(t, c) || t.connected == Some(c) || c in t.closed {
        if BeingCompleted(s, c) {
          var r :| 0 <= r < |s.runs| && Held(s.runs[r]) == Some(c);
          assert Held(t.runs[r]) == Some(c);
        }
      }
    } else {
      SameHeldKeeps(s, t);
    }
  }

  lemma TrustKeeps(s: Server, run: RunId, allowed: bool)
    requires Inv(s) && run < |s.runs| && s.runs[run].phase.AwaitingTrust?
    ensures Inv(TrustDecided(s, run, allowed))
  {
    PhaseKeeps(s, run, Finished);
    PhaseKeeps(s, run, Dialing);
    ReportKeeps(SetPhase(s, run, Finished), s.runs[run].watcher, Failed(true));
    ReportKeeps(SetPhase(s, run, Dialing), s.runs[run].watcher, Connecting);
  }

  lemma CloseSettledKeeps(s: Server, run: RunId)
    requires Inv(s) && run < |s.runs| && s.runs[run].phase.Closing?
    ensures Inv(CloseSettled(s, run))
  {
    PhaseKeeps(s, run, Finished);
    if s.runs[run].phase.report.Some? {
      ReportKeeps(SetPhase(s, run, Finished), s.runs[run].watcher, Failed(s.runs[run].phase.report.value));
    }
  }

  lemma ResumeKeeps(s: Server, loop: LoopId)
    requires Inv(s) && loop < |s.loops| && s.loops[loop].phase.Redialing?
    ensures Inv(LoopResumes(s, loop))
  {
    ResumeIsSame(s, loop);
    SameCoreKeeps(s, LoopResumes(s, loop));
  }

  lemma StepKeeps(s: Server, step: Step)
    requires Inv(s) && Enabled(s, step)
    ensures Inv(Next(s, step))
  {
    match step
    case CallConnect => SameCoreKeeps(s, ConnectCall(s));
    case CallDisconnect => BumpKeeps(s, DisconnectCall(s));
    case CallRetry => SameCoreKeeps(s, RetryCall(s));
    case Startup(local) => ConnectOneKeeps(s, local, None);
    case Dispose => DisposeKeeps(s);
    case RunOp(local) => OpKeeps(s, local);
    case Trust(run, allowed) => TrustKeeps(s, run, allowed);
    case TrustFails(run) => PhaseKeeps(s, run, Rejected);
    case Dial(run, result) => DialKeeps(s, run, result);
    case AskAuth(run) => ReportKeeps(s, s.runs[run].watcher, NeedsAuth);
    case Reauthorized(run) => ReportKeeps(s, s.runs[run].watcher, Connected);
    case Continue(run, mount) => ContinueKeeps(s, run, mount);
    case Closed(run) => CloseSettledKeeps(s, run);
    case Settle(run) => SettleKeeps(s, run);
    case Death(run) => DeathKeeps(s, run);
    case Wake(loop, local) => WakeKeeps(s, loop, local);
    case Resume(loop) => ResumeKeeps(s, loop);
  }

  lemma {:induction false} RunKeepsInv(s: Server, steps: seq<Step>)
    requires Inv(s) && Possible(s, steps)
    ensures Inv(Exec(s, steps))
    decreases |steps|
  {
    if steps != [] {
      StepKeeps(s, steps[0]);
      RunKeepsInv(Next(s, steps[0]), steps[1..]);
    }
  }

  ghost predicate Reachable(s: Server) {
    exists steps :: Possible(Fresh, steps) && Exec(Fresh, steps) == s
  }

  lemma ReachableInv(s: Server)
    requires Reachable(s)
    ensures Inv(s)
  {
    var steps :| Possible(Fresh, steps) && Exec(Fresh, steps) == s;
    FreshInv();
    RunKeepsInv(Fresh, steps);
  }

  /** In every interleaving, each client ever dialled is being completed by
      exactly one run, is the connected one, or has been closed; it is never
      two of these, until disposal closes the connected one. */
  lemma EveryClientIsAccountedFor(steps: seq<Step>, client: ClientId)
    requires Possible(Fresh, steps) && client < Exec(Fresh, steps).clients
    ensures var s := Exec(Fresh, steps);
      && (BeingCompleted(s, client) || s.connected == Some(client) || client in s.closed)
      && !(BeingCompleted(s, client) && (s.connected == Some(client) || client in s.closed))
      && (s.connected == Some(client) && client in s.closed ==> s.disposal.ClosingAll?)
      && (forall q, r :: 0 <= q < r < |s.runs| ==> !(Held(s.runs[q]) == Held(s.runs[r]) == Some(client)))
  {
    FreshInv();
    RunKeepsInv(Fresh, steps);
  }

  lemma OpsInstallNothing(s: Server, local: bool)
    requires s.queue != []
    ensures StepOp(s, local).connected.None? || StepOp(s, local).connected == s.connected
  {
    var head := s.queue[0];
    match head.op {
      case DisconnectOp(epoch) =>
        assert DropForDisconnect(s).connected.None?;
      case ConnectOp(reenable, epochAtCall) =>
        assert StartConnectOp(s, reenable, epochAtCall, local).connected == s.connected;
      case RetryOp =>
        assert StartRetryOp(s, local).connected == s.connected;
    }
  }

  /** Only a run that resumes with its client can change who is connected to someone. */
  lemma OnlyContinueInstalls(s: Server, step: Step)
    requires Enabled(s, step) && !step.Continue?
    ensures Next(s, step).connected.None? || Next(s, step).connected == s.connected
  {
    if step.RunOp? {
      OpsInstallNothing(s, step.local);
    } else if Inside(step) {
      InsideStepKeepsSession(s, step);
    }
  }

  /** In every reachable state and for every step: a client becomes the
      connected one only where there was none, never after disposal began,
      never for a disabled name, and only from the run of the current epoch
      that dialled it. */
  lemma InstallNeverOverwrites(s: Server, step: Step)
    requires Reachable(s) && Enabled(s, step)
    requires Next(s, step).connected.Some? && Next(s, step).connected != s.connected
    ensures s.connected.None? && !s.Disposed() && !s.disabled
    ensures step.Continue? && s.runs[step.run].epoch == s.epoch && Held(s.runs[step.run]) == Next(s, step).connected
    ensures Next(s, step).connected.value !in s.closed
  {
    ReachableInv(s);
    if !step.Continue? {
      OnlyContinueInstalls(s, step);
    }
  }

  /** Disposal leaks nothing: once it is done and no run holds a client, every
      client ever dialled has been closed. */
  lemma DisposalClosesEveryClient(s: Server)
    requires Reachable(s) && s.disposal.Done?
    ensures forall c: nat :: c < s.clients && !BeingCompleted(s, c) ==> c in s.closed
    ensures forall run: nat, mount :: run < |s.runs| && Held(s.runs[run]).Some?
              ==> Held(s.runs[run]).value in Next(s, Continue(run, mount)).closed
  {
    ReachableInv(s);
  }

  /** The step is one of a dial run or a redial loop that owns `epoch`. */
  predicate ActsFor(s: Server, step: Step, epoch: nat) {
    match step
    case Trust(run, _) => run < |s.runs| && s.runs[run].epoch == epoch
    case TrustFails(run) => run < |s.runs| && s.runs[run].epoch == epoch
    case Dial(run, _) => run < |s.runs| && s.runs[run].epoch == epoch
    case AskAuth(run) => run < |s.runs| && s.runs[run].epoch == epoch
    case Reauthorized(run) => run < |s.runs| && s.runs[run].epoch == epoch
    case Continue(run, _) => run < |s.runs| && s.runs[run].epoch == epoch
    case Closed(run) => run < |s.runs| && s.runs[run].epoch == epoch
    case Settle(run) => run < |s.runs| && s.runs[run].epoch == epoch
    case Death(run) => run < |s.runs| && s.runs[run].epoch == epoch
    case Wake(loop, _) => loop < |s.loops| && s.loops[loop].epoch == epoch
    case Resume(loop) => loop < |s.loops| && s.loops[loop].epoch == epoch
    case _ => false
  }

  predicate StartsDial(s: Server, t: Server) {
    |t.runs| != |s.runs| || exists r :: 0 <= r < |s.runs| && !s.runs[r].phase.Dialing? && t.runs[r].phase.Dialing?
  }

  /** Nothing of the session changes and no dial starts. */
  predicate Inert(s: Server, t: Server) {
    && t.connected == s.connected && t.tools == s.tools && t.registered == s.registered
    && t.epoch == s.epoch && t.disabled == s.disabled && t.queue == s.queue && t.log == s.log
    && |t.runs| == |s.runs| && !StartsDial(s, t)
  }

  lemma StaleRunIsInert(s: Server, run: RunId, phase: RunPhase)
    requires run < |s.runs| && !phase.Dialing?
    ensures Inert(s, SetPhase(s, run, phase))
  {
  }

  lemma StaleLoopIsInert(s: Server, loop: LoopId)
    requires loop < |s.loops| && s.Stale(s.loops[loop].epoch)
    ensures forall local :: Inert(s, LoopWakes(s, loop, local))
    ensures s.loops[loop].phase.Redialing? ==> Inert(s, LoopResumes(s, loop))
  {
  }

  /** A run or loop of an older epoch, or of a disabled name, installs nothing,
      mounts nothing, registers nothing and starts no dial. */
  lemma StaleActorsAreInert(s: Server, step: Step, epoch: nat)
    requires Enabled(s, step) && ActsFor(s, step, epoch) && s.Stale(epoch)
    ensures Inert(s, Next(s, step))
  {
    match step
    case Trust(run, _) => StaleRunIsInert(s, run, Finished);
    case TrustFails(run) => StaleRunIsInert(s, run, Rejected);
    case Dial(run, result) => StaleRunIsInert(s, run, DialResolved(s, run, result).runs[run].phase);
    case AskAuth(run) =>
    case Reauthorized(run) =>
    case Continue(run, mount) => StaleRunIsInert(s, run, RunContinues(s, run, mount).runs[run].phase);
    case Closed(run) => StaleRunIsInert(s, run, Finished);
    case Settle(run) => StaleRunIsInert(s, run, Settled(s.runs[run].phase.Finished?));
    case Death(run) =>
    case Wake(loop, local) => StaleLoopIsInert(s, loop);
    case Resume(loop) => StaleLoopIsInert(s, loop);
  }

  lemma EpochNeverFalls(s: Server, step: Step)
    requires Enabled(s, step)
    ensures Next(s, step).epoch >= s.epoch
  {
    if step.RunOp? {
      OpNeverLowersEpoch(s, step.local);
    } else if Inside(step) {
      InsideStepKeepsSession(s, step);
    }
  }

  lemma OpNeverLowersEpoch(s: Server, local: bool)
    requires s.queue != []
    ensures StepOp(s, local).epoch >= s.epoch
  {
    var head := s.queue[0];
    match head.op {
      case DisconnectOp(epoch) => assert StepDisconnectOp(s, epoch).epoch == s.epoch;
      case ConnectOp(reenable, epochAtCall) => assert StartConnectOp(s, reenable, epochAtCall, local).epoch >= s.epoch;
      case RetryOp => assert StartRetryOp(s, local).epoch >= s.epoch;
    }
  }

  lemma {:induction false} EpochOnlyGrows(s: Server, steps: seq<Step>)
    requires Possible(s, steps)
    ensures Exec(s, steps).epoch >= s.epoch
    decreases |steps|
  {
    if steps != [] {
      EpochNeverFalls(s, steps[0]);
      EpochOnlyGrows(Next(s, steps[0]), steps[1..]);
    }
  }

  /** Once an epoch is over, no dial or redial loop that owns it does anything
      to the session again, however the run goes on. */
  lemma OlderEpochStaysInert(s: Server, steps: seq<Step>, step: Step, epoch: nat)
    requires epoch < s.epoch && Possible(s, steps)
    requires Enabled(Exec(s, steps), step) && ActsFor(Exec(s, steps), step, epoch)
    ensures Inert(Exec(s, steps), Next(Exec(s, steps), step))
  {
    EpochOnlyGrows(s, steps);
    StaleActorsAreInert(Exec(s, steps), step, epoch);
  }
}
