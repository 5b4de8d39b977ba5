/** Every step of the protocol changes what `McpEffects` says, and nothing else. */
module McpStepEffects {
  import opened Common
  import opened McpProtocol
  import opened McpEffects

  /** What a run reports, to the operator or to the loop that dials. */
  lemma ReportTells(s: Server, watcher: Option<LoopId>, status: Status)
    ensures Report(s, watcher, status)
            == s.(log := s.log + if watcher.Some? && status in {Connecting, Failed(false)} then [] else [status],
                  tools := if watcher.Some? && status.NeedsAuth? then Stubs else s.tools,
                  loops := if watcher.Some? && watcher.value < |s.loops|
                           then s.loops[watcher.value := s.loops[watcher.value].(last := Some(status))] else s.loops)
  {
  }

  /** Every field after every step: by whom it may be changed, when, and to what. */
  lemma StepEffects(s: Server, step: Step)
    requires Enabled(s, step)
    ensures var t := Next(s, step); SessionEffects(s, step, t) && RunEffects(s, step, t) && ReportEffects(s, step, t)
  {
    hide Next, SessionEffects, RunEffects, ReportEffects;
    StepSessionEffects(s, step);
    StepRunEffects(s, step);
    StepReportEffects(s, step);
  }

  /** `connectOneMCPServer` up to its first suspension, in the terms above. */
  lemma ConnectOneEffects(s: Server, epoch: nat, local: bool, watcher: Option<LoopId>)
    ensures var (t, awaited) := ConnectOne(s, epoch, local, watcher);
      if !Wants(s) then t == s && awaited == None
      else if UnderWay(s, epoch) then t == s && awaited == Some(s.inFlight.value.run)
      else
        var dials := !local && !s.Stale(epoch);
        && awaited == Some(|s.runs|)
        && t == s.(runs := s.runs + [Run(epoch, watcher, if local then AwaitingTrust else if dials then Dialing else Finished)],
                   inFlight := Some(InFlight(|s.runs|, epoch)),
                   log := if dials && watcher.None? then s.log + [Connecting] else s.log,
                   loops := if dials && watcher.Some? && watcher.value < |s.loops|
                            then s.loops[watcher.value := s.loops[watcher.value].(last := Some(Connecting))] else s.loops)
  {
  }

  /** Who is connected, registered, mounted and redialled, the epoch and the queue. */
  lemma StepSessionEffects(s: Server, step: Step)
    requires Enabled(s, step)
    ensures SessionEffects(s, step, Next(s, step))
  {
    hide Next, SessionEffects;
    match step
    case CallConnect => CallSessionEffects(s, step);
    case CallDisconnect => CallSessionEffects(s, step);
    case CallRetry => CallSessionEffects(s, step);
    case Startup(_) => StartupSessionEffects(s, step);
    case Dispose => DisposeSessionEffects(s, step);
    case RunOp(_) =>
      match s.queue[0].op {
        case ConnectOp(_, _) => ConnectOpSessionEffects(s, step);
        case DisconnectOp(_) => DisconnectOpSessionEffects(s, step);
        case RetryOp => RetryOpSessionEffects(s, step);
      }
    case Trust(_, _) => VerdictSessionEffects(s, step);
    case TrustFails(_) => VerdictSessionEffects(s, step);
    case Dial(_, _) => DialSessionEffects(s, step);
    case AskAuth(_) => AskAuthSessionEffects(s, step);
    case Reauthorized(_) => ReauthorizedSessionEffects(s, step);
    case Continue(_, _) => ContinueSessionEffects(s, step);
    case Closed(_) => ClosedSessionEffects(s, step);
    case Settle(_) => SettleSessionEffects(s, step);
    case Death(_) => DeathSessionEffects(s, step);
    case Wake(_, _) => WakeSessionEffects(s, step);
    case Resume(_) => ResumeSessionEffects(s, step);
  }

  lemma CallSessionEffects(s: Server, step: Step)
    requires step.CallConnect? || step.CallDisconnect? || step.CallRetry?
    ensures SessionEffects(s, step, Next(s, step))
  {
  }

  lemma DisposeSessionEffects(s: Server, step: Step)
    requires step.Dispose? && Enabled(s, step)
    ensures SessionEffects(s, step, Next(s, step))
  {
  }

  lemma StartupSessionEffects(s: Server, step: Step)
    requires step.Startup? && Enabled(s, step)
    ensures SessionEffects(s, step, Next(s, step))
  {
    hide ConnectOne;
    ConnectOneEffects(s, s.epoch, step.local, None);
  }

  lemma ConnectOpSessionEffects(s: Server, step: Step)
    requires step.RunOp? && Enabled(s, step) && s.queue[0].op.ConnectOp?
    ensures SessionEffects(s, step, Next(s, step))
  {
    hide SessionEffects;
    if ConnectActs(s, step) {
      ActingConnectSessionEffects(s, step);
    } else {
      IdleConnectSessionEffects(s, step);
    }
  }

  lemma ActingConnectSessionEffects(s: Server, step: Step)
    requires step.RunOp? && Enabled(s, step) && ConnectActs(s, step)
    ensures SessionEffects(s, step, Next(s, step))
  {
    hide ConnectOne;
    var ready := Reenabled(s, s.queue[0].op.reenable);
    ConnectOneEffects(ready, ready.epoch, step.local, None);
  }

  lemma IdleConnectSessionEffects(s: Server, step: Step)
    requires step.RunOp? && Enabled(s, step) && s.queue[0].op.ConnectOp? && !ConnectActs(s, step)
    ensures SessionEffects(s, step, Next(s, step))
  {
    assert Next(s, step) == PopOp(s);
  }

  lemma DisconnectOpSessionEffects(s: Server, step: Step)
    requires step.RunOp? && Enabled(s, step) && s.queue[0].op.DisconnectOp?
    ensures SessionEffects(s, step, Next(s, step))
  {
    hide SessionEffects;
    if Drops(s, step) {
      DroppingSessionEffects(s, step);
    } else {
      WaitingSessionEffects(s, step);
    }
  }

  lemma DroppingSessionEffects(s: Server, step: Step)
    requires Enabled(s, step) && Drops(s, step)
    ensures SessionEffects(s, step, Next(s, step))
  {
    assert Next(s, step) == DropForDisconnect(s);
  }

  lemma WaitingSessionEffects(s: Server, step: Step)
    requires step.RunOp? && Enabled(s, step) && s.queue[0].op.DisconnectOp? && !Drops(s, step)
    ensures SessionEffects(s, step, Next(s, step))
  {
  }

  lemma RetryOpSessionEffects(s: Server, step: Step)
    requires step.RunOp? && Enabled(s, step) && s.queue[0].op.RetryOp?
    ensures SessionEffects(s, step, Next(s, step))
  {
    hide SessionEffects;
    if RetryActs(s, step) {
      ActingRetrySessionEffects(s, step);
    } else {
      IdleRetrySessionEffects(s, step);
    }
  }

  lemma ActingRetrySessionEffects(s: Server, step: Step)
    requires step.RunOp? && Enabled(s, step) && RetryActs(s, step)
    ensures SessionEffects(s, step, Next(s, step))
  {
    hide ConnectOne;
    ConnectOneEffects(ResetForRetry(s), s.epoch + 1, step.local, None);
  }

  lemma IdleRetrySessionEffects(s: Server, step: Step)
    requires step.RunOp? && Enabled(s, step) && s.queue[0].op.RetryOp? && !RetryActs(s, step)
    ensures SessionEffects(s, step, Next(s, step))
  {
    assert Next(s, step) == PopOp(s);
  }

  lemma VerdictSessionEffects(s: Server, step: Step)
    requires (step.Trust? || step.TrustFails?) && Enabled(s, step)
    ensures SessionEffects(s, step, Next(s, step))
  {
    hide Report;
    if step.Trust? {
      ReportTells(SetPhase(s, step.run, Dialing), s.runs[step.run].watcher, Connecting);
      ReportTells(SetPhase(s, step.run, Finished), s.runs[step.run].watcher, Failed(true));
    }
  }

  lemma DialSessionEffects(s: Server, step: Step)
    requires step.Dial? && Enabled(s, step)
    ensures SessionEffects(s, step, Next(s, step))
  {
  }

  lemma ClosedSessionEffects(s: Server, step: Step)
    requires step.Closed? && Enabled(s, step)
    ensures SessionEffects(s, step, Next(s, step))
  {
  }

  lemma SettleSessionEffects(s: Server, step: Step)
    requires step.Settle? && Enabled(s, step)
    ensures SessionEffects(s, step, Next(s, step))
  {
  }

  lemma AskAuthSessionEffects(s: Server, step: Step)
    requires step.AskAuth? && Enabled(s, step)
    ensures SessionEffects(s, step, Next(s, step))
  {
  }

  lemma ReauthorizedSessionEffects(s: Server, step: Step)
    requires step.Reauthorized? && Enabled(s, step)
    ensures SessionEffects(s, step, Next(s, step))
  {
  }

  lemma ContinueSessionEffects(s: Server, step: Step)
    requires step.Continue? && Enabled(s, step)
    ensures SessionEffects(s, step, Next(s, step))
  {
  }

  lemma DeathSessionEffects(s: Server, step: Step)
    requires step.Death? && Enabled(s, step)
    ensures SessionEffects(s, step, Next(s, step))
  {
  }

  lemma WakeSessionEffects(s: Server, step: Step)
    requires step.Wake? && Enabled(s, step)
    ensures SessionEffects(s, step, Next(s, step))
  {
    hide ConnectOne;
    if WakesToRedial(s, step) {
      var l := s.loops[step.loop];
      ConnectOneEffects(SetLoop(s.(tools := NoTools), step.loop, l.(last := None)), l.epoch, step.local, Some(step.loop));
    }
  }

  lemma ResumeSessionEffects(s: Server, step: Step)
    requires step.Resume? && Enabled(s, step)
    ensures SessionEffects(s, step, Next(s, step))
  {
    hide SessionEffects;
    if RedialReturns(s, step) {
      ReturningSessionEffects(s, step);
    } else {
      LostSessionEffects(s, step);
    }
  }

  lemma ReturningSessionEffects(s: Server, step: Step)
    requires Enabled(s, step) && RedialReturns(s, step)
    ensures SessionEffects(s, step, Next(s, step))
  {
  }

  lemma LostSessionEffects(s: Server, step: Step)
    requires step.Resume? && Enabled(s, step) && !RedialReturns(s, step)
    ensures SessionEffects(s, step, Next(s, step))
  {
  }

  /** Which runs begin and where each goes, and which clients are made and closed. */
  lemma StepRunEffects(s: Server, step: Step)
    requires Enabled(s, step)
    ensures RunEffects(s, step, Next(s, step))
  {
    hide Next, RunEffects;
    match step
    case CallConnect => CallRunEffects(s, step);
    case CallDisconnect => CallRunEffects(s, step);
    case CallRetry => CallRunEffects(s, step);
    case Startup(_) => StartupRunEffects(s, step);
    case Dispose => DisposeRunEffects(s, step);
    case RunOp(_) =>
      match s.queue[0].op {
        case ConnectOp(_, _) => ConnectOpRunEffects(s, step);
        case DisconnectOp(_) => DisconnectOpRunEffects(s, step);
        case RetryOp => RetryOpRunEffects(s, step);
      }
    case Trust(_, _) => VerdictRunEffects(s, step);
    case TrustFails(_) => VerdictRunEffects(s, step);
    case Dial(_, _) => DialRunEffects(s, step);
    case AskAuth(_) => AskAuthRunEffects(s, step);
    case Reauthorized(_) => ReauthorizedRunEffects(s, step);
    case Continue(_, _) => ContinueRunEffects(s, step);
    case Closed(_) => ClosedRunEffects(s, step);
    case Settle(_) => SettleRunEffects(s, step);
    case Death(_) => DeathRunEffects(s, step);
    case Wake(_, _) => WakeRunEffects(s, step);
    case Resume(_) => ResumeRunEffects(s, step);
  }

  lemma CallRunEffects(s: Server, step: Step)
    requires step.CallConnect? || step.CallDisconnect? || step.CallRetry?
    ensures RunEffects(s, step, Next(s, step))
  {
  }

  lemma DisposeRunEffects(s: Server, step: Step)
    requires step.Dispose? && Enabled(s, step)
    ensures RunEffects(s, step, Next(s, step))
  {
  }

  lemma StartupRunEffects(s: Server, step: Step)
    requires step.Startup? && Enabled(s, step)
    ensures RunEffects(s, step, Next(s, step))
  {
    hide ConnectOne;
    ConnectOneEffects(s, s.epoch, step.local, None);
  }

  lemma ConnectOpRunEffects(s: Server, step: Step)
    requires step.RunOp? && Enabled(s, step) && s.queue[0].op.ConnectOp?
    ensures RunEffects(s, step, Next(s, step))
  {
    hide RunEffects;
    if ConnectActs(s, step) {
      ActingConnectRunEffects(s, step);
    } else {
      IdleConnectRunEffects(s, step);
    }
  }

  lemma ActingConnectRunEffects(s: Server, step: Step)
    requires step.RunOp? && Enabled(s, step) && ConnectActs(s, step)
    ensures RunEffects(s, step, Next(s, step))
  {
    hide ConnectOne;
    var ready := Reenabled(s, s.queue[0].op.reenable);
    ConnectOneEffects(ready, ready.epoch, step.local, None);
  }

  lemma IdleConnectRunEffects(s: Server, step: Step)
    requires step.RunOp? && Enabled(s, step) && s.queue[0].op.ConnectOp? && !ConnectActs(s, step)
    ensures RunEffects(s, step, Next(s, step))
  {
    assert Next(s, step) == PopOp(s);
  }

  lemma DisconnectOpRunEffects(s: Server, step: Step)
    requires step.RunOp? && Enabled(s, step) && s.queue[0].op.DisconnectOp?
    ensures RunEffects(s, step, Next(s, step))
  {
    hide StepDisconnectOp;
    DisconnectKeepsRuns(s, s.queue[0].op.epoch);
  }

  lemma DisconnectKeepsRuns(s: Server, epoch: nat)
    requires s.queue != [] && s.queue[0].op.DisconnectOp?
    ensures var t := StepDisconnectOp(s, epoch);
      && t.runs == s.runs && t.inFlight == s.inFlight && t.clients == s.clients
      && t.closed == s.closed + (if Drops(s, RunOp(false)) && s.connected.Some? then {s.connected.value} else {})
  {
  }

  lemma RetryOpRunEffects(s: Server, step: Step)
    requires step.RunOp? && Enabled(s, step) && s.queue[0].op.RetryOp?
    ensures RunEffects(s, step, Next(s, step))
  {
    hide ConnectOne;
    if RetryActs(s, step) {
      ConnectOneEffects(ResetForRetry(s), s.epoch + 1, step.local, None);
    }
  }

  lemma VerdictRunEffects(s: Server, step: Step)
    requires (step.Trust? || step.TrustFails?) && Enabled(s, step)
    ensures RunEffects(s, step, Next(s, step))
  {
  }

  lemma DialRunEffects(s: Server, step: Step)
    requires step.Dial? && Enabled(s, step)
    ensures RunEffects(s, step, Next(s, step))
  {
  }

  lemma ClosedRunEffects(s: Server, step: Step)
    requires step.Closed? && Enabled(s, step)
    ensures RunEffects(s, step, Next(s, step))
  {
  }

  lemma SettleRunEffects(s: Server, step: Step)
    requires step.Settle? && Enabled(s, step)
    ensures RunEffects(s, step, Next(s, step))
  {
  }

  lemma AskAuthRunEffects(s: Server, step: Step)
    requires step.AskAuth? && Enabled(s, step)
    ensures RunEffects(s, step, Next(s, step))
  {
  }

  lemma ReauthorizedRunEffects(s: Server, step: Step)
    requires step.Reauthorized? && Enabled(s, step)
    ensures RunEffects(s, step, Next(s, step))
  {
  }

  lemma ContinueRunEffects(s: Server, step: Step)
    requires step.Continue? && Enabled(s, step)
    ensures RunEffects(s, step, Next(s, step))
  {
  }

  lemma DeathRunEffects(s: Server, step: Step)
    requires step.Death? && Enabled(s, step)
    ensures RunEffects(s, step, Next(s, step))
  {
  }

  lemma WakeRunEffects(s: Server, step: Step)
    requires step.Wake? && Enabled(s, step)
    ensures RunEffects(s, step, Next(s, step))
  {
    hide ConnectOne;
    if WakesToRedial(s, step) {
      var l := s.loops[step.loop];
      ConnectOneEffects(SetLoop(s.(tools := NoTools), step.loop, l.(last := None)), l.epoch, step.local, Some(step.loop));
    }
  }

  lemma ResumeRunEffects(s: Server, step: Step)
    requires step.Resume? && Enabled(s, step)
    ensures RunEffects(s, step, Next(s, step))
  {
  }

  /** What the operator is told and what each redial loop does and remembers. */
  lemma StepReportEffects(s: Server, step: Step)
    requires Enabled(s, step)
    ensures ReportEffects(s, step, Next(s, step))
  {
    hide Next, ReportEffects;
    match step
    case CallConnect => CallReportEffects(s, step);
    case CallDisconnect => CallReportEffects(s, step);
    case CallRetry => CallReportEffects(s, step);
    case Startup(_) => StartupReportEffects(s, step);
    case Dispose => DisposeReportEffects(s, step);
    case RunOp(_) =>
      match s.queue[0].op {
        case ConnectOp(_, _) => ConnectOpReportEffects(s, step);
        case DisconnectOp(_) => DisconnectOpReportEffects(s, step);
        case RetryOp => RetryOpReportEffects(s, step);
      }
    case Trust(_, _) => VerdictReportEffects(s, step);
    case TrustFails(_) => VerdictReportEffects(s, step);
    case Dial(_, _) => DialReportEffects(s, step);
    case AskAuth(_) => AskAuthReportEffects(s, step);
    case Reauthorized(_) => ReauthorizedReportEffects(s, step);
    case Continue(_, _) => ContinueReportEffects(s, step);
    case Closed(_) => ClosedReportEffects(s, step);
    case Settle(_) => SettleReportEffects(s, step);
    case Death(_) => DeathReportEffects(s, step);
    case Wake(_, _) => WakeReportEffects(s, step);
    case Resume(_) => ResumeReportEffects(s, step);
  }

  lemma CallReportEffects(s: Server, step: Step)
    requires step.CallConnect? || step.CallDisconnect? || step.CallRetry?
    ensures ReportEffects(s, step, Next(s, step))
  {
  }

  lemma DisposeReportEffects(s: Server, step: Step)
    requires step.Dispose? && Enabled(s, step)
    ensures ReportEffects(s, step, Next(s, step))
  {
  }

  lemma StartupReportEffects(s: Server, step: Step)
    requires step.Startup? && Enabled(s, step)
    ensures ReportEffects(s, step, Next(s, step))
  {
    hide ConnectOne;
    ConnectOneEffects(s, s.epoch, step.local, None);
  }

  lemma ConnectOpReportEffects(s: Server, step: Step)
    requires step.RunOp? && Enabled(s, step) && s.queue[0].op.ConnectOp?
    ensures ReportEffects(s, step, Next(s, step))
  {
    hide ReportEffects;
    if ConnectActs(s, step) {
      ActingConnectReportEffects(s, step);
    } else {
      IdleConnectReportEffects(s, step);
    }
  }

  lemma ActingConnectReportEffects(s: Server, step: Step)
    requires step.RunOp? && Enabled(s, step) && ConnectActs(s, step)
    ensures ReportEffects(s, step, Next(s, step))
  {
    hide ConnectOne;
    var ready := Reenabled(s, s.queue[0].op.reenable);
    ConnectOneEffects(ready, ready.epoch, step.local, None);
  }

  lemma IdleConnectReportEffects(s: Server, step: Step)
    requires step.RunOp? && Enabled(s, step) && s.queue[0].op.ConnectOp? && !ConnectActs(s, step)
    ensures ReportEffects(s, step, Next(s, step))
  {
    assert Next(s, step) == PopOp(s);
  }

  lemma DisconnectOpReportEffects(s: Server, step: Step)
    requires step.RunOp? && Enabled(s, step) && s.queue[0].op.DisconnectOp?
    ensures ReportEffects(s, step, Next(s, step))
  {
    hide StepDisconnectOp;
    DisconnectTells(s, s.queue[0].op.epoch);
  }

  lemma DisconnectTells(s: Server, epoch: nat)
    requires s.queue != [] && s.queue[0].op.DisconnectOp?
    ensures var t := StepDisconnectOp(s, epoch);
      && t.loops == s.loops
      && t.log == s.log + if s.queue[0].stage.AwaitDrop? && s.disabled && s.epoch == epoch then [Disconnected(epoch)] else []
  {
  }

  lemma RetryOpReportEffects(s: Server, step: Step)
    requires step.RunOp? && Enabled(s, step) && s.queue[0].op.RetryOp?
    ensures ReportEffects(s, step, Next(s, step))
  {
    hide ConnectOne;
    if RetryActs(s, step) {
      ConnectOneEffects(ResetForRetry(s), s.epoch + 1, step.local, None);
    }
  }

  lemma VerdictReportEffects(s: Server, step: Step)
    requires (step.Trust? || step.TrustFails?) && Enabled(s, step)
    ensures ReportEffects(s, step, Next(s, step))
  {
    hide Report;
    if step.Trust? {
      ReportTells(SetPhase(s, step.run, Dialing), s.runs[step.run].watcher, Connecting);
      ReportTells(SetPhase(s, step.run, Finished), s.runs[step.run].watcher, Failed(true));
    }
  }

  lemma DialReportEffects(s: Server, step: Step)
    requires step.Dial? && Enabled(s, step)
    ensures ReportEffects(s, step, Next(s, step))
  {
  }

  lemma ClosedReportEffects(s: Server, step: Step)
    requires step.Closed? && Enabled(s, step)
    ensures ReportEffects(s, step, Next(s, step))
  {
  }

  lemma SettleReportEffects(s: Server, step: Step)
    requires step.Settle? && Enabled(s, step)
    ensures ReportEffects(s, step, Next(s, step))
  {
  }

  lemma AskAuthReportEffects(s: Server, step: Step)
    requires step.AskAuth? && Enabled(s, step)
    ensures ReportEffects(s, step, Next(s, step))
  {
  }

  lemma ReauthorizedReportEffects(s: Server, step: Step)
    requires step.Reauthorized? && Enabled(s, step)
    ensures ReportEffects(s, step, Next(s, step))
  {
  }

  lemma ContinueReportEffects(s: Server, step: Step)
    requires step.Continue? && Enabled(s, step)
    ensures ReportEffects(s, step, Next(s, step))
  {
    hide ReportEffects;
    if s.runs[step.run].phase.outcome.Client? {
      ClientReportEffects(s, step);
    } else {
      RefusedReportEffects(s, step);
    }
  }

  lemma ClientReportEffects(s: Server, step: Step)
    requires step.Continue? && Enabled(s, step) && s.runs[step.run].phase.outcome.Client?
    ensures ReportEffects(s, step, Next(s, step))
  {
    hide Report;
    var client := s.runs[step.run].phase.outcome.id;
    var mounted := s.(registered := true, tools := Live(client), connected := Some(client));
    ReportTells(SetPhase(mounted, step.run, Finished), s.runs[step.run].watcher, Connected);
  }

  lemma RefusedReportEffects(s: Server, step: Step)
    requires step.Continue? && Enabled(s, step) && !s.runs[step.run].phase.outcome.Client?
    ensures ReportEffects(s, step, Next(s, step))
  {
    hide Report;
    ReportTells(SetPhase(s, step.run, Finished), s.runs[step.run].watcher, Failed(s.runs[step.run].phase.outcome.final));
  }

  lemma DeathReportEffects(s: Server, step: Step)
    requires step.Death? && Enabled(s, step)
    ensures ReportEffects(s, step, Next(s, step))
  {
    hide Report;
    if Dies(s, step) {
      var dead := s.(connected := None, closed := s.closed + {s.connected.value}, tools := Stubs);
      ReportTells(dead, s.runs[step.run].watcher, Reconnecting);
    }
  }

  lemma WakeReportEffects(s: Server, step: Step)
    requires step.Wake? && Enabled(s, step)
    ensures ReportEffects(s, step, Next(s, step))
  {
    hide ReportEffects;
    if WakesToRedial(s, step) {
      RedialReportEffects(s, step);
    } else {
      IdleWakeReportEffects(s, step);
    }
  }

  lemma RedialReportEffects(s: Server, step: Step)
    requires Enabled(s, step) && WakesToRedial(s, step)
    ensures ReportEffects(s, step, Next(s, step))
  {
    hide ConnectOne;
    var l := s.loops[step.loop];
    ConnectOneEffects(SetLoop(s.(tools := NoTools), step.loop, l.(last := None)), l.epoch, step.local, Some(step.loop));
  }

  lemma IdleWakeReportEffects(s: Server, step: Step)
    requires step.Wake? && Enabled(s, step) && !WakesToRedial(s, step)
    ensures ReportEffects(s, step, Next(s, step))
  {
    assert Next(s, step) == AbandonLoop(s, step.loop);
  }

  lemma ResumeReportEffects(s: Server, step: Step)
    requires step.Resume? && Enabled(s, step)
    ensures ReportEffects(s, step, Next(s, step))
  {
    hide ReportEffects;
    if RedialReturns(s, step) {
      ReturningReportEffects(s, step);
    } else {
      LostReportEffects(s, step);
    }
  }

  lemma ReturningReportEffects(s: Server, step: Step)
    requires Enabled(s, step) && RedialReturns(s, step)
    ensures ReportEffects(s, step, Next(s, step))
  {
  }

  lemma LostReportEffects(s: Server, step: Step)
    requires step.Resume? && Enabled(s, step) && !RedialReturns(s, step)
    ensures ReportEffects(s, step, Next(s, step))
  {
  }
}
