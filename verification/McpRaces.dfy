/** Two runs in which a disconnect, although the last call, is not answered. */
module McpRaces {
  import opened Common
  import opened McpProtocol
  import opened McpLastCall
  import opened McpDrain
  import opened McpExact

  /** A retry still waiting when the disconnect is called does not look at the
      epoch: it re-enables the name behind the call's back, the disconnect is
      never answered and the name ends up enabled. */
  lemma WaitingRetryBeatsDisconnect() returns (after: seq<Step>)
    ensures Possible(Fresh, [CallRetry]) && !NoRetryWaiting(Exec(Fresh, [CallRetry]))
    ensures var called := DisconnectCall(Exec(Fresh, [CallRetry]));
      && Possible(called, after) && OnItsOwn(after)
      && var drained := Exec(called, after);
         drained.queue == [] && !drained.disabled && Answers(drained.log, called.epoch) == 0
  {
    Then(Fresh, CallRetry, []);
    var start := Exec(Fresh, [CallRetry]);
    assert start == RetryCall(Fresh) && start.queue[0] == QueuedOp(RetryOp, Queued);
    var s0 := DisconnectCall(start);
    assert s0.queue == [QueuedOp(RetryOp, Queued), QueuedOp(DisconnectOp(1), Queued)] && s0.epoch == 1;
    after := RetryRuns(s0);
  }

  /** The waiting retry opens a new epoch, fails its trust check and settles. */
  lemma RetryRuns(s: Server) returns (after: seq<Step>)
    requires s == Fresh.(epoch := 1, disabled := true,
                         queue := [QueuedOp(RetryOp, Queued), QueuedOp(DisconnectOp(1), Queued)])
    ensures Possible(s, after) && OnItsOwn(after)
    ensures var drained := Exec(s, after);
            drained.queue == [] && !drained.disabled && Answers(drained.log, 1) == 0
  {
    var s1 := Next(s, RunOp(true));
    assert s1.queue == [QueuedOp(RetryOp, AwaitRun(Some(0))), QueuedOp(DisconnectOp(1), Queued)];
    assert s1.runs == [Run(2, None, AwaitingTrust)] && s1.inFlight == Some(InFlight(0, 2)) && s1.log == [];
    after := RefusedRetry(s1);
    Then(s, RunOp(true), after);
    after := [RunOp(true)] + after;
  }

  lemma RefusedRetry(s: Server) returns (after: seq<Step>)
    requires s.queue == [QueuedOp(RetryOp, AwaitRun(Some(0))), QueuedOp(DisconnectOp(1), Queued)]
    requires s.runs == [Run(2, None, AwaitingTrust)] && s.inFlight == Some(InFlight(0, 2)) && s.log == []
    requires s.epoch == 2 && !s.disabled && s.connected.None? && s.disposal.NotDisposed?
    ensures Possible(s, after) && OnItsOwn(after)
    ensures var drained := Exec(s, after);
            drained.queue == [] && !drained.disabled && Answers(drained.log, 1) == 0
  {
    var s1 := Next(s, Trust(0, false));
    assert s1 == s.(runs := [Run(2, None, Finished)], log := [Failed(true)]);
    var tail := FinishedRetry(s1);
    Then(s, Trust(0, false), tail);
    after := [Trust(0, false)] + tail;
  }

  lemma FinishedRetry(s: Server) returns (after: seq<Step>)
    requires s.queue == [QueuedOp(RetryOp, AwaitRun(Some(0))), QueuedOp(DisconnectOp(1), Queued)]
    requires s.runs == [Run(2, None, Finished)] && s.inFlight == Some(InFlight(0, 2)) && s.log == [Failed(true)]
    requires s.epoch == 2 && !s.disabled && s.connected.None?
    ensures Possible(s, after) && OnItsOwn(after)
    ensures var drained := Exec(s, after);
            drained.queue == [] && !drained.disabled && Answers(drained.log, 1) == 0
  {
    var t := Next(s, Settle(0));
    assert t == s.(runs := [Run(2, None, Settled(true))], inFlight := None);
    var tail := LateDisconnect(t, 1, 0);
    assert t.log[..0] == [];
    Then(s, Settle(0), tail);
    after := [Settle(0)] + tail;
  }

  /** The retry is done and the disconnect of an older epoch runs behind it. */
  lemma LateDisconnect(s: Server, call: nat, run: RunId) returns (after: seq<Step>)
    requires s.queue == [QueuedOp(RetryOp, AwaitRun(Some(run))), QueuedOp(DisconnectOp(call), Queued)]
    requires s.IsSettled(run) && s.inFlight.None? && s.connected.None? && s.epoch != call && !s.disabled
    ensures Possible(s, after) && OnItsOwn(after)
    ensures var drained := Exec(s, after); drained.queue == [] && !drained.disabled && drained.log == s.log
  {
    var s1 := Next(s, RunOp(false));
    assert s1.queue == [QueuedOp(DisconnectOp(call), Queued)];
    var s2 := Next(s1, RunOp(false));
    assert s2.queue == [QueuedOp(DisconnectOp(call), AwaitDrop)];
    var s3 := Next(s2, RunOp(false));
    assert s3.queue == [] && s3.log == s.log;
    Then(s2, RunOp(false), []);
    Then(s1, RunOp(false), [RunOp(false)]);
    Then(s, RunOp(false), [RunOp(false)] + [RunOp(false)]);
    after := [RunOp(false)] + ([RunOp(false)] + [RunOp(false)]);
  }

  /** A disconnect that awaits a dial whose trust check throws rejects with it:
      it never drops what is left nor says "disconnected". */
  lemma FailedTrustCheckSwallowsDisconnect() returns (after: seq<Step>)
    ensures Possible(Fresh, [Startup(true)]) && Doubtful(Exec(Fresh, [Startup(true)]))
    ensures var called := DisconnectCall(Exec(Fresh, [Startup(true)]));
      && Possible(called, after) && OnItsOwn(after) && AwaitRejected(called, after, called.epoch)
      && var drained := Exec(called, after);
         drained.queue == [] && drained.disabled && Answers(drained.log, called.epoch) == 0
  {
    Then(Fresh, Startup(true), []);
    var s0 := DisconnectCall(Exec(Fresh, [Startup(true)]));
    assert s0.runs == [Run(0, None, AwaitingTrust)] && s0.inFlight == Some(InFlight(0, 0)) && s0.log == [];
    var s1 := Next(s0, RunOp(false));
    assert s1.queue == [QueuedOp(DisconnectOp(1), AwaitRun(Some(0)))];
    var tail := RejectedDisconnect(s1);
    Then(s0, RunOp(false), tail);
    after := [RunOp(false)] + tail;
  }

  /** The trust check throws, the dial settles with it, and the disconnect resumes. */
  lemma RejectedDisconnect(s: Server) returns (after: seq<Step>)
    requires s.queue == [QueuedOp(DisconnectOp(1), AwaitRun(Some(0)))] && s.runs == [Run(0, None, AwaitingTrust)]
    requires s.log == [] && s.disabled
    ensures Possible(s, after) && OnItsOwn(after) && AwaitRejected(s, after, 1)
    ensures var drained := Exec(s, after); drained.queue == [] && drained.disabled && drained.log == []
  {
    var s2 := Next(s, TrustFails(0));
    var s3 := Next(s2, Settle(0));
    assert s3.runs == [Run(0, None, Settled(false))];
    assert AwaitRejects(s3, RunOp(false), 1);
    Then(s3, RunOp(false), []);
    Then(s2, Settle(0), [RunOp(false)]);
    var tail := [Settle(0)] + [RunOp(false)];
    Then(s, TrustFails(0), tail);
    after := [TrustFails(0)] + tail;
  }
}
