/** A dead connection until it comes back: what ends a redial loop, what keeps it
    going, and how an outage of any length ends. */
module McpRedial {
  import opened Common
  import opened McpProtocol
  import opened McpEffects
  import opened McpStepEffects

  // -------------------------------------------------- how one redial ends

  /** A redial that returns to the loop that owns the reconnect state ends it
      exactly when it brought a client that is still connected, or a failure no
      redial can cure. A client stays as it was mounted; such a failure takes the
      stubs and the registration; anything else mounts the stubs, reports that
      the server reconnects, and sends the loop back to sleep. */
  lemma RedialEndsExactly(s: Server, loop: LoopId)
    requires Enabled(s, Resume(loop)) && !s.AwaitThrows(s.loops[loop].phase.awaited)
    requires s.reconnecting == Some(loop) && !s.Cancelled(s.loops[loop].epoch)
    ensures var t := Next(s, Resume(loop));
      var brought := s.connected.Some? && s.loops[loop].last == Some(Connected);
      var gaveUp := s.loops[loop].last == Some(Failed(true));
      && (t.reconnecting == None <==> brought || gaveUp)
      && (t.loops[loop].phase == Stopped <==> brought || gaveUp)
      && t.connected == s.connected
      && (brought ==> t.tools == s.tools && t.registered == s.registered && t.log == s.log)
      && (gaveUp ==> t.tools == NoTools && !t.registered && t.log == s.log)
      && (!brought && !gaveUp ==>
            && t.reconnecting == Some(loop) && t.loops[loop].phase == Sleeping
            && t.tools == Stubs && t.registered == s.registered && t.log == s.log + [Reconnecting])
  {
    StepEffects(s, Resume(loop));
  }

  /** A run that resumes uncancelled with the client it dialled, and mounts its
      tools: the client is connected, registered and live, and the operator told. */
  lemma MountedClientIsConnected(s: Server, run: RunId)
    requires Enabled(s, Continue(run, Mounted)) && s.runs[run].phase.outcome.Client?
    requires !s.Cancelled(s.runs[run].epoch)
    ensures var t := Next(s, Continue(run, Mounted));
      var client := s.runs[run].phase.outcome.id;
      && t.connected == Some(client) && t.registered && t.tools == Live(client)
      && t.log == s.log + [Connected] && t.closed == s.closed && t.runs[run].phase == Finished
      && (s.runs[run].watcher.Some? && s.runs[run].watcher.value < |s.loops| ==>
            t.loops[s.runs[run].watcher.value].last == Some(Connected))
  {
    StepEffects(s, Continue(run, Mounted));
  }

  // ------------------------------------------------- what keeps a loop going

  /** The loop owns the reconnect state and sleeps or redials. */
  predicate Alive(s: Server, loop: LoopId) {
    s.reconnecting == Some(loop) && loop < |s.loops| && !s.loops[loop].phase.Stopped?
  }

  /** The loop's redial throws, brings a client, or fails for good; the loop moves
      under another epoch, for a disabled name or after disposal; or a retry takes over. */
  predicate Ends(s: Server, step: Step, loop: LoopId)
    requires Enabled(s, step)
  {
    || (step == Resume(loop)
        && (s.AwaitThrows(s.loops[loop].phase.awaited)
            || (s.connected.Some? && s.loops[loop].last == Some(Connected))
            || s.loops[loop].last == Some(Failed(true))))
    || ((step == Resume(loop) || (step.Wake? && step.loop == loop)) && s.Cancelled(s.loops[loop].epoch))
    || RetryActs(s, step)
  }

  lemma StepKeepsAlive(s: Server, step: Step, loop: LoopId)
    requires Enabled(s, step) && loop < |s.loops|
    ensures loop < |Next(s, step).loops|
    ensures Alive(Next(s, step), loop) <==> Alive(s, loop) && !Ends(s, step, loop)
  {
    hide Next, RunEffects, ConnectedAfter, RegisteredAfter, ToolsAfter, QueueAfter, LogAfter;
    StepEffects(s, step);
  }

  predicate NeverEnds(s: Server, steps: seq<Step>, loop: LoopId)
    requires Possible(s, steps)
    decreases |steps|
  {
    steps == [] || (!Ends(s, steps[0], loop) && NeverEnds(Next(s, steps[0]), steps[1..], loop))
  }

  /** Over every run a loop stays alive until the first such step, and no longer:
      nothing else stops it, and nothing brings it back. */
  lemma {:induction false} LoopLivesUntilItEnds(s: Server, steps: seq<Step>, loop: LoopId)
    requires Possible(s, steps) && loop < |s.loops|
    ensures Alive(Exec(s, steps), loop) <==> Alive(s, loop) && NeverEnds(s, steps, loop)
    decreases |steps|
  {
    if steps != [] {
      StepKeepsAlive(s, steps[0], loop);
      LoopLivesUntilItEnds(Next(s, steps[0]), steps[1..], loop);
    }
  }

  /** The death of the connected client's transport mounts the stubs, reports it,
      and leaves a loop alive over every run in which it does not end. */
  lemma DeathIsRedialled(s: Server, run: RunId, steps: seq<Step>)
    requires run < |s.runs| && !s.Cancelled(s.runs[run].epoch) && s.connected.Some? && s.reconnecting.None?
    requires var t := Next(s, Death(run)); Possible(t, steps) && NeverEnds(t, steps, |s.loops|)
    ensures var t := Next(s, Death(run));
      && t.connected == None && t.tools == Stubs && t.registered == s.registered
      && t.log == s.log + [Reconnecting] && s.connected.value in t.closed
      && Alive(t, |s.loops|) && Alive(Exec(t, steps), |s.loops|)
  {
    StepEffects(s, Death(run));
    LoopLivesUntilItEnds(Next(s, Death(run)), steps, |s.loops|);
  }

  // ----------------------------------------------------- a whole outage

  /** The loop sleeps over a server that nobody else dials. */
  predicate Out(s: Server, loop: LoopId) {
    && Alive(s, loop) && s.loops[loop].phase == Sleeping && !s.Cancelled(s.loops[loop].epoch)
    && s.connected == None && !UnderWay(s, s.loops[loop].epoch)
  }

  function DialOnce(loop: LoopId, run: RunId, result: DialResult): seq<Step> {
    [Wake(loop, false), Dial(run, result), Continue(run, Mounted), Settle(run), Resume(loop)]
  }

  /** `s` while the redial of its loop is under way. */
  function During(s: Server, loop: LoopId, phase: RunPhase, last: Status): Server
    requires loop < |s.loops|
  {
    var epoch, run := s.loops[loop].epoch, |s.runs|;
    s.(tools := NoTools, inFlight := Some(InFlight(run, epoch)), runs := s.runs + [Run(epoch, Some(loop), phase)],
       loops := s.loops[loop := Loop(epoch, Redialing(Some(run)), Some(last))])
  }

  lemma RedialBegins(s: Server, loop: LoopId)
    requires Out(s, loop)
    ensures Enabled(s, Wake(loop, false)) && Next(s, Wake(loop, false)) == During(s, loop, Dialing, Connecting)
  {
    hide ConnectOne;
    var l := s.loops[loop];
    ConnectOneEffects(SetLoop(s.(tools := NoTools), loop, l.(last := None)), l.epoch, false, Some(loop));
  }

  /** The dial of the redial under way settles. */
  lemma RedialDials(s: Server, loop: LoopId, result: DialResult)
    requires Out(s, loop) && !result.DialThrew?
    ensures var dialing, run := During(s, loop, Dialing, Connecting), |s.runs|;
      && Enabled(dialing, Dial(run, result))
      && Next(dialing, Dial(run, result))
         == if result.Dialled? then During(s, loop, Resolved(Client(s.clients)), Connecting).(clients := s.clients + 1)
            else During(s, loop, Resolved(Refused(result.final)), Connecting)
  {
  }

  /** A refused redial leaves the outage as it was, one report longer. */
  function StillOut(s: Server, loop: LoopId): Server
    requires loop < |s.loops|
  {
    var epoch := s.loops[loop].epoch;
    s.(tools := Stubs, inFlight := None, runs := s.runs + [Run(epoch, Some(loop), Settled(true))],
       loops := s.loops[loop := Loop(epoch, Sleeping, Some(Failed(false)))], log := s.log + [Reconnecting])
  }

  lemma RefusalReturns(s: Server, loop: LoopId)
    requires Out(s, loop)
    ensures var run := |s.runs|;
      var resolved := During(s, loop, Resolved(Refused(false)), Connecting);
      var finished := During(s, loop, Finished, Failed(false));
      var settled := During(s, loop, Settled(true), Failed(false)).(inFlight := None);
      && Enabled(resolved, Continue(run, Mounted)) && Next(resolved, Continue(run, Mounted)) == finished
      && Enabled(finished, Settle(run)) && Next(finished, Settle(run)) == settled
      && Enabled(settled, Resume(loop)) && Next(settled, Resume(loop)) == StillOut(s, loop)
  {
  }

  lemma ClientReturns(s: Server, loop: LoopId)
    requires Out(s, loop)
    ensures var run, client := |s.runs|, s.clients;
      var resolved := During(s, loop, Resolved(Client(client)), Connecting).(clients := client + 1);
      var finished := During(s, loop, Finished, Connected)
                        .(clients := client + 1, connected := Some(client), registered := true,
                          tools := Live(client), log := s.log + [Connected]);
      var settled := finished.(inFlight := None, runs := s.runs + [Run(s.loops[loop].epoch, Some(loop), Settled(true))]);
      && Enabled(resolved, Continue(run, Mounted)) && Next(resolved, Continue(run, Mounted)) == finished
      && Enabled(finished, Settle(run)) && Next(finished, Settle(run)) == settled
      && Enabled(settled, Resume(loop))
      && Next(settled, Resume(loop))
         == settled.(reconnecting := None, loops := s.loops[loop := Loop(s.loops[loop].epoch, Stopped, Some(Connected))])
  {
  }

  lemma FiveSteps(s: Server, steps: seq<Step>, s1: Server, s2: Server, s3: Server, s4: Server, s5: Server)
    requires |steps| == 5
    requires Enabled(s, steps[0]) && Next(s, steps[0]) == s1
    requires Enabled(s1, steps[1]) && Next(s1, steps[1]) == s2
    requires Enabled(s2, steps[2]) && Next(s2, steps[2]) == s3
    requires Enabled(s3, steps[3]) && Next(s3, steps[3]) == s4
    requires Enabled(s4, steps[4]) && Next(s4, steps[4]) == s5
    ensures Possible(s, steps) && Exec(s, steps) == s5
  {
    hide Next, Enabled;
    assert steps[1..][1..] == steps[2..] && steps[2..][1..] == steps[3..];
    assert steps[3..][1..] == steps[4..] && steps[4..][1..] == [];
    assert Possible(s4, steps[4..]) && Exec(s4, steps[4..]) == s5;
    assert Possible(s3, steps[3..]) && Exec(s3, steps[3..]) == s5;
    assert Possible(s2, steps[2..]) && Exec(s2, steps[2..]) == s5;
    assert Possible(s1, steps[1..]) && Exec(s1, steps[1..]) == s5;
  }

  lemma RefusedRedial(s: Server, loop: LoopId)
    requires Out(s, loop)
    ensures var steps := DialOnce(loop, |s.runs|, DialRefused(false));
      Possible(s, steps) && Exec(s, steps) == StillOut(s, loop) && Out(StillOut(s, loop), loop)
  {
    hide Next, Enabled;
    RedialBegins(s, loop);
    RedialDials(s, loop, DialRefused(false));
    RefusalReturns(s, loop);
    FiveSteps(s, DialOnce(loop, |s.runs|, DialRefused(false)), During(s, loop, Dialing, Connecting),
              During(s, loop, Resolved(Refused(false)), Connecting), During(s, loop, Finished, Failed(false)),
              During(s, loop, Settled(true), Failed(false)).(inFlight := None), StillOut(s, loop));
  }

  /** What the end of the outage changes. */
  predicate BackAgain(s: Server, loop: LoopId, t: Server, refusals: nat) {
    && t.connected == Some(s.clients) && t.clients == s.clients + 1 && t.tools == Live(s.clients) && t.registered
    && t.reconnecting == None && loop < |t.loops| && t.loops[loop].phase == Stopped
    && t.closed == s.closed && t.epoch == s.epoch && t.disabled == s.disabled && t.queue == s.queue
    && t.log == s.log + Repeated(Reconnecting, refusals) + [Connected]
  }

  function Repeated(status: Status, n: nat): seq<Status> {
    seq(n, i => status)
  }

  lemma SuccessfulRedial(s: Server, loop: LoopId)
    requires Out(s, loop)
    ensures var steps := DialOnce(loop, |s.runs|, Dialled);
      Possible(s, steps) && BackAgain(s, loop, Exec(s, steps), 0)
  {
    hide Next, Enabled;
    RedialBegins(s, loop);
    RedialDials(s, loop, Dialled);
    ClientReturns(s, loop);
    var client, epoch := s.clients, s.loops[loop].epoch;
    var finished := During(s, loop, Finished, Connected)
                      .(clients := client + 1, connected := Some(client), registered := true,
                          tools := Live(client), log := s.log + [Connected]);
    var settled := finished.(inFlight := None, runs := s.runs + [Run(epoch, Some(loop), Settled(true))]);
    FiveSteps(s, DialOnce(loop, |s.runs|, Dialled), During(s, loop, Dialing, Connecting),
              During(s, loop, Resolved(Client(client)), Connecting).(clients := client + 1), finished, settled,
              settled.(reconnecting := None, loops := s.loops[loop := Loop(epoch, Stopped, Some(Connected))]));
    assert s.log + [] == s.log;
  }

  /** That many refused redials, and one that brings a client. */
  function Outage(loop: LoopId, run: RunId, refusals: nat): seq<Step>
    decreases refusals
  {
    if refusals == 0 then DialOnce(loop, run, Dialled)
    else DialOnce(loop, run, DialRefused(false)) + Outage(loop, run + 1, refusals - 1)
  }

  /** However often a redial is refused, the loop is there to dial again, the
      operator is told each time, and the first redial that brings a client
      leaves it connected, registered and live. */
  lemma {:induction false} OutageOfAnyLengthEnds(s: Server, loop: LoopId, refusals: nat)
    requires Out(s, loop)
    ensures var steps := Outage(loop, |s.runs|, refusals);
      Possible(s, steps) && BackAgain(s, loop, Exec(s, steps), refusals)
    decreases refusals
  {
    hide Next, Enabled, DialOnce;
    if refusals == 0 {
      SuccessfulRedial(s, loop);
    } else {
      var t, first := StillOut(s, loop), DialOnce(loop, |s.runs|, DialRefused(false));
      var rest := Outage(loop, |s.runs| + 1, refusals - 1);
      RefusedRedial(s, loop);
      OutageOfAnyLengthEnds(t, loop, refusals - 1);
      ExecAppend(s, first, rest);
      OneMoreReport(s.log, refusals - 1);
    }
  }

  lemma OneMoreReport(log: seq<Status>, n: nat)
    ensures (log + [Reconnecting]) + Repeated(Reconnecting, n) + [Connected]
            == log + Repeated(Reconnecting, n + 1) + [Connected]
  {
    assert [Reconnecting] + Repeated(Reconnecting, n) == Repeated(Reconnecting, n + 1);
  }
}
