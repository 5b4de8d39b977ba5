/** How the director's cycles end, and what whole runs do to the task list and
    the notices. */
module DirectorCycles {
  import opened Common
  import opened Reactor
  import C = Compaction
  import opened Tasks
  import opened Director
  import opened DirectorRuns
  import opened DirectorFlow

  // ----------------------------------------------------- cycles settle

  predicate EndsInWait(actions: seq<Action>) {
    actions != [] && actions[|actions| - 1] == Wait
  }

  /** No decision ends in a wait with nothing that goes on: what it decides, up
      to the notices behind it, has an inference, a tool batch or a reply if it
      ends in a wait. Only the settling of a dropped approval waits bare. */
  lemma NoBareWait(d: Director, event: Inbound, around: Around)
    ensures var decision := Decide(d, event, around).1;
      !Undelivered(decision.route) ==> exists settled ::
        && decision.actions == settled + Emits(ToldBy(d, event, around))
        && (EndsInWait(settled) ==> Continues(settled))
  {
    DecideTells(d, event, around);
    var decision := Decide(d, event, around).1;
    if !Undelivered(decision.route) {
      var actions :| decision.actions == Settle(actions) + Emits(ToldBy(d, event, around));
      SettledWaitContinues(actions);
    }
  }

  /** Settling replaces the bare wait and nothing else. */
  lemma SettledWaitContinues(actions: seq<Action>)
    ensures EndsInWait(Settle(actions)) ==> Continues(Settle(actions))
    ensures if EndsInWait(actions)
               && forall i :: 0 <= i < |actions| ==> !actions[i].Infer? && !actions[i].ExecuteTools? && !actions[i].Reply?
            then Settle(actions) == actions[..|actions| - 1] + [Reply("", false)] else Settle(actions) == actions
  {
  }

  /** An armed idle fold leaves a cycle waiting on its re-entry. When the two
      re-entries come in with nothing in between, the first folds and the second
      settles the cycle. */
  lemma IdleFoldSettles(d: Director, first: Around, second: Around)
    requires d.governor.arms.idle && !d.governor.debts.Outstanding()
    requires d.governor.arms.manual || !d.governor.rails.AtCap()
    ensures var reentry := Message("", Ordinary);
      var (folded, fold) := Decide(d, reentry, first);
      var (settled, last) := Decide(folded, reentry, second);
      && fold.route == IdleFold
      && last.route == MeterResume
      && last.actions == [Reply("", false)]
      && settled.governor.debts == C.Debts(false, false)
  {
    var reentry := Message("", Ordinary);
    ReentryFolds(d.governor, first);
    FoldPhaseDecides(d, reentry, first);
    var (governor, fold) := FoldPhase(d.governor, reentry, first);
    FinishKeeps(d.(governor := governor), fold.value, reentry, first);
    var folded := Decide(d, reentry, first).0;
    assert folded.governor == governor && folded.pending == [];
    MeterSettles(folded, second);
  }

  lemma MeterSettles(d: Director, around: Around)
    requires d.governor.debts == C.Debts(false, true) && d.pending == []
    ensures var (settled, last) := Decide(d, Message("", Ordinary), around);
      && last == Decision(MeterResume, [Reply("", false)])
      && settled.governor.debts == C.Debts(false, false)
  {
    ReentryMeters(d.governor, around);
    FoldPhaseDecides(d, Message("", Ordinary), around);
    assert Settle([Wait]) == [Reply("", false)];
    assert Emits([]) == [];
  }

  lemma ReentryFolds(governor: C.Governor, around: Around)
    requires governor.arms.idle && !governor.debts.Outstanding() && (governor.arms.manual || !governor.rails.AtCap())
    ensures var (next, decision) := FoldPhase(governor, Message("", Ordinary), around);
      decision.Some? && decision.value.route == IdleFold && next.debts == C.Debts(false, true)
  {
  }

  lemma ReentryMeters(governor: C.Governor, around: Around)
    requires governor.debts == C.Debts(false, true)
    ensures var (next, decision) := FoldPhase(governor, Message("", Ordinary), around);
      decision == Some(Decision(MeterResume, [Wait])) && next.debts == C.Debts(false, false)
  {
  }

  lemma FoldPhaseDecides(d: Director, event: Inbound, around: Around)
    requires event.Message? && FoldPhase(d.governor, event, around).1.Some?
    ensures var (governor, decision) := FoldPhase(d.governor, event, around);
            Decide(d, event, around) == Finish(d.(governor := governor), decision.value, event, around)
  {
  }

  // ------------------------------------------------- the task list of a run

  /** The turns the run's inferences finished with, in order. */
  function TurnsOf(steps: seq<Step>): seq<Turn> {
    if steps == [] then []
    else
      var last := steps[|steps| - 1];
      TurnsOf(steps[..|steps| - 1]) + if TurnBoundary(last) then [last.event.turn] else []
  }

  lemma {:induction false} RunLast(d: Director, steps: seq<Step>)
    requires steps != []
    ensures Run(d, steps) == Next(Run(d, steps[..|steps| - 1]), steps[|steps| - 1]).0
    decreases |steps|
  {
    if |steps| > 1 {
      var rest := steps[1..];
      RunLast(Next(d, steps[0]).0, rest);
      assert rest[..|rest| - 1] == steps[..|steps| - 1][1..];
    }
  }

  lemma StepTasks(d: Director, step: Step)
    requires !step.RestoreTasks?
    ensures Next(d, step).0.tasks
            == if step.Event? && NotesCalls(step.event, step.around) then TasksAfter(d.tasks, step.event.turn.blocks) else d.tasks
  {
    if step.Event? {
      DecideTells(d, step.event, step.around);
    }
  }

  lemma HydrateOneMore(steps: seq<Step>)
    requires steps != []
    ensures var earlier, last := HydrateTasks(TurnsOf(steps[..|steps| - 1])), steps[|steps| - 1];
      HydrateTasks(TurnsOf(steps)) == if TurnBoundary(last) then TasksAfter(earlier, last.event.turn.blocks) else earlier
  {
    var front, last := steps[..|steps| - 1], steps[|steps| - 1];
    if TurnBoundary(last) {
      assert TurnsOf(steps) == TurnsOf(front) + [last.event.turn];
      assert TurnsOf(steps)[..|TurnsOf(steps)| - 1] == TurnsOf(front);
    } else {
      assert TurnsOf(steps) == TurnsOf(front);
    }
  }

  /** A finished turn whose tool calls a throwing coordinator kept from being noted. */
  predicate Interrupted(step: Step) {
    TurnBoundary(step) && step.around.workflow.activeBefore.Throws?
  }

  /** The live list after a run is the one its transcript hydrates to. */
  ghost predicate LiveIsHydrated(d: Director, steps: seq<Step>) {
    Run(d, steps).tasks == HydrateTasks(TurnsOf(steps))
  }

  /** The interrupted turn, if it is one, would not have changed the list. */
  predicate Harmless(steps: seq<Step>, k: nat)
    requires k < |steps|
  {
    var tasks := HydrateTasks(TurnsOf(steps[..k]));
    Interrupted(steps[k]) ==> TasksAfter(tasks, steps[k].event.turn.blocks) == tasks
  }

  lemma OneMoreStaysLive(d: Director, steps: seq<Step>, k: nat)
    requires k < |steps| && !steps[k].RestoreTasks? && LiveIsHydrated(d, steps[..k])
    ensures LiveIsHydrated(d, steps[..k + 1]) <==> Harmless(steps, k)
  {
    var longer := steps[..k + 1];
    assert longer[..k] == steps[..k] && longer[k] == steps[k];
    RunLast(d, longer);
    HydrateOneMore(longer);
    StepTasks(Run(d, steps[..k]), steps[k]);
  }

  lemma {:induction false} HarmlessStaysLive(d: Director, steps: seq<Step>, n: nat)
    requires d.tasks == [] && n <= |steps|
    requires forall i :: 0 <= i < |steps| ==> !steps[i].RestoreTasks?
    requires forall k :: 0 <= k < n ==> Harmless(steps, k)
    ensures LiveIsHydrated(d, steps[..n])
    decreases n
  {
    if n == 0 {
      assert steps[..0] == [];
      assert Run(d, []).tasks == HydrateTasks(TurnsOf([]));
    } else {
      HarmlessStaysLive(d, steps, n - 1);
      OneMoreStaysLive(d, steps, n - 1);
    }
  }

  /** In a session that starts with no tasks the live task list is the one the
      transcript hydrates to at every point of the run, if and only if no
      coordinator throws on a turn whose task calls change that list. */
  lemma LiveTasksAreHydrated(d: Director, steps: seq<Step>)
    requires d.tasks == [] && forall i :: 0 <= i < |steps| ==> !steps[i].RestoreTasks?
    ensures (forall n :: 0 <= n <= |steps| ==> LiveIsHydrated(d, steps[..n]))
            <==> (forall k :: 0 <= k < |steps| ==> Harmless(steps, k))
  {
    if forall k :: 0 <= k < |steps| ==> Harmless(steps, k) {
      forall n | 0 <= n <= |steps|
        ensures LiveIsHydrated(d, steps[..n])
      {
        HarmlessStaysLive(d, steps, n);
      }
    }
    if forall n :: 0 <= n <= |steps| ==> LiveIsHydrated(d, steps[..n]) {
      forall k | 0 <= k < |steps|
        ensures Harmless(steps, k)
      {
        assert LiveIsHydrated(d, steps[..k]) && LiveIsHydrated(d, steps[..k + 1]);
        OneMoreStaysLive(d, steps, k);
      }
    }
  }

  /** The turns of the run whose tool calls were noted. */
  function NotedTurns(steps: seq<Step>): seq<Turn> {
    if steps == [] then []
    else
      var last := steps[|steps| - 1];
      NotedTurns(steps[..|steps| - 1]) + if TurnBoundary(last) && !Interrupted(last) then [last.event.turn] else []
  }

  /** With or without such throws, the live list is what the noted turns lead to. */
  lemma {:induction false} LiveTasksFollowNotedTurns(d: Director, steps: seq<Step>)
    requires d.tasks == [] && forall i :: 0 <= i < |steps| ==> !steps[i].RestoreTasks?
    ensures Run(d, steps).tasks == HydrateTasks(NotedTurns(steps))
    decreases |steps|
  {
    if steps != [] {
      var front, last := steps[..|steps| - 1], steps[|steps| - 1];
      LiveTasksFollowNotedTurns(d, front);
      RunLast(d, steps);
      StepTasks(Run(d, front), last);
      if TurnBoundary(last) && !Interrupted(last) {
        assert NotedTurns(steps)[..|NotedTurns(steps)| - 1] == NotedTurns(front);
      } else {
        assert NotedTurns(steps) == NotedTurns(front);
      }
    }
  }

  const LosesTask := Event(InferenceDone(CreatesTask, 0), Quietly([ExecuteTools]).(workflow := QuietWorkflow.(activeBefore := Throws)))

  /** One throw on a turn that opens a task: the transcript has it, the director
      does not. */
  lemma InterruptedTurnDiverges(overhead: nat, fleet: bool, nudgeAt: nat)
    ensures var d := FreshDirector(overhead, fleet, nudgeAt);
      && Run(d, [LosesTask]).tasks == []
      && HydrateTasks(TurnsOf([LosesTask])) != []
  {
    var d := FreshDirector(overhead, fleet, nudgeAt);
    StepTasks(d, LosesTask);
    assert [LosesTask][..0] == [] && [LosesTask][1..] == [];
    HydrateOneMore([LosesTask]);
    OpenedTaskIsActive([]);
  }

  // ---------------------------------------------------- the notices of a run

  function PushedAt(d: Director, step: Step): seq<Notice> {
    if step.Event? then Pushed(d, step.event, step.around) else []
  }

  function ToldAt(d: Director, step: Step): seq<Notice> {
    if step.Event? then ToldBy(d, step.event, step.around) else []
  }

  function DroppedAt(d: Director, step: Step): seq<Notice> {
    if step.Event? then DroppedBy(d, step.event, step.around) else []
  }

  function AllPushed(d: Director, steps: seq<Step>): seq<Notice>
    decreases |steps|
  {
    if steps == [] then [] else PushedAt(d, steps[0]) + AllPushed(Next(d, steps[0]).0, steps[1..])
  }

  function AllTold(d: Director, steps: seq<Step>): seq<Notice>
    decreases |steps|
  {
    if steps == [] then [] else ToldAt(d, steps[0]) + AllTold(Next(d, steps[0]).0, steps[1..])
  }

  function AllDropped(d: Director, steps: seq<Step>): seq<Notice>
    decreases |steps|
  {
    if steps == [] then [] else DroppedAt(d, steps[0]) + AllDropped(Next(d, steps[0]).0, steps[1..])
  }

  /** What leaves the queue, told or dropped, in order. */
  function AllTaken(d: Director, steps: seq<Step>): seq<Notice>
    decreases |steps|
  {
    if steps == [] then []
    else (ToldAt(d, steps[0]) + DroppedAt(d, steps[0])) + AllTaken(Next(d, steps[0]).0, steps[1..])
  }

  lemma StepTells(d: Director, step: Step)
    ensures (ToldAt(d, step) + DroppedAt(d, step)) + Next(d, step).0.pending == d.pending + PushedAt(d, step)
  {
    if step.Event? {
      DecideTells(d, step.event, step.around);
    }
  }

  lemma {:induction false} TakenInOrder(d: Director, steps: seq<Step>)
    ensures AllTaken(d, steps) + Run(d, steps).pending == d.pending + AllPushed(d, steps)
    decreases |steps|
  {
    if steps == [] {
      assert AllTaken(d, steps) + Run(d, steps).pending == d.pending + AllPushed(d, steps);
    } else {
      var next := Next(d, steps[0]).0;
      StepTells(d, steps[0]);
      TakenInOrder(next, steps[1..]);
      Chained(ToldAt(d, steps[0]) + DroppedAt(d, steps[0]), next.pending, d.pending, PushedAt(d, steps[0]),
              AllTaken(next, steps[1..]), Run(next, steps[1..]).pending, AllPushed(next, steps[1..]));
    }
  }

  /** Two stretches that conserve their notices conserve them one after the other. */
  lemma Chained<T>(told: seq<T>, between: seq<T>, before: seq<T>, pushed: seq<T>,
                   laterTold: seq<T>, after: seq<T>, laterPushed: seq<T>)
    requires told + between == before + pushed
    requires laterTold + after == between + laterPushed
    ensures (told + laterTold) + after == before + (pushed + laterPushed)
  {
    assert (told + laterTold) + after == told + (laterTold + after);
    assert told + (between + laterPushed) == (told + between) + laterPushed;
    assert (before + pushed) + laterPushed == before + (pushed + laterPushed);
  }

  lemma Parted<T>(told: seq<T>, dropped: seq<T>, laterTold: seq<T>, laterDropped: seq<T>, laterTaken: seq<T>)
    requires |laterTaken| == |laterTold| + |laterDropped| && (laterDropped == [] ==> laterTold == laterTaken)
    ensures |(told + dropped) + laterTaken| == |told + laterTold| + |dropped + laterDropped|
    ensures dropped + laterDropped == [] ==> told + laterTold == (told + dropped) + laterTaken
  {
    if dropped + laterDropped == [] {
      assert |dropped| == 0 && |laterDropped| == 0;
    }
  }

  lemma {:induction false} TakenIsToldOrDropped(d: Director, steps: seq<Step>)
    ensures |AllTaken(d, steps)| == |AllTold(d, steps)| + |AllDropped(d, steps)|
    ensures AllDropped(d, steps) == [] ==> AllTold(d, steps) == AllTaken(d, steps)
    decreases |steps|
  {
    if steps != [] {
      var next := Next(d, steps[0]).0;
      TakenIsToldOrDropped(next, steps[1..]);
      Parted(ToldAt(d, steps[0]), DroppedAt(d, steps[0]),
             AllTold(next, steps[1..]), AllDropped(next, steps[1..]), AllTaken(next, steps[1..]));
    }
  }

  /** The coordinator fails the step while a notice waits or comes up. */
  predicate Loses(d: Director, step: Step) {
    step.Event? && CoordinatorFails(d, step.event, step.around) && d.pending + Pushed(d, step.event, step.around) != []
  }

  lemma RunFirst(d: Director, steps: seq<Step>, k: nat)
    requires k + 1 < |steps|
    ensures Run(Next(d, steps[0]).0, steps[1..][..k]) == Run(d, steps[..k + 1]) && steps[1..][k] == steps[k + 1]
  {
    assert steps[..k + 1][0] == steps[0] && steps[..k + 1][1..] == steps[1..][..k];
  }

  lemma {:induction false} DropsExactlyWhereItLoses(d: Director, steps: seq<Step>)
    ensures AllDropped(d, steps) == [] <==> forall k :: 0 <= k < |steps| ==> !Loses(Run(d, steps[..k]), steps[k])
    decreases |steps|
  {
    if steps != [] {
      var next, rest := Next(d, steps[0]).0, steps[1..];
      DropsExactlyWhereItLoses(next, rest);
      assert Run(d, steps[..0]) == d;
      assert DroppedAt(d, steps[0]) == [] <==> !Loses(d, steps[0]);
      forall k | 0 <= k < |rest|
        ensures Loses(Run(next, rest[..k]), rest[k]) <==> Loses(Run(d, steps[..k + 1]), steps[k + 1])
      {
        RunFirst(d, steps, k);
      }
      if forall k :: 0 <= k < |steps| ==> !Loses(Run(d, steps[..k]), steps[k]) {
        forall k | 0 <= k < |rest|
          ensures !Loses(Run(next, rest[..k]), rest[k])
        {
          assert !Loses(Run(d, steps[..k + 1]), steps[k + 1]);
        }
      }
      if AllDropped(d, steps) == [] {
        forall k | 0 <= k < |steps|
          ensures !Loses(Run(d, steps[..k]), steps[k])
        {
          if k > 0 {
            assert !Loses(Run(next, rest[..k - 1]), rest[k - 1]);
          }
        }
      }
    }
  }

  /** Over every run the notices leave the queue once each, in the order they
      came: told behind a decision, or dropped with one that the coordinator
      failed. Those told and those still pending are all that were pushed if and
      only if no step of the run fails at the coordinator's guards while a notice
      waits or comes up. */
  lemma NoticesAreConserved(d: Director, steps: seq<Step>)
    ensures AllTaken(d, steps) + Run(d, steps).pending == d.pending + AllPushed(d, steps)
    ensures |AllTaken(d, steps)| == |AllTold(d, steps)| + |AllDropped(d, steps)|
    ensures AllTold(d, steps) + Run(d, steps).pending == d.pending + AllPushed(d, steps)
            <==> forall k :: 0 <= k < |steps| ==> !Loses(Run(d, steps[..k]), steps[k])
  {
    TakenInOrder(d, steps);
    TakenIsToldOrDropped(d, steps);
    DropsExactlyWhereItLoses(d, steps);
    if AllTold(d, steps) + Run(d, steps).pending == d.pending + AllPushed(d, steps) {
      assert |AllTold(d, steps) + Run(d, steps).pending| == |AllTaken(d, steps) + Run(d, steps).pending|;
    }
  }

  lemma DirectiveThrowFails(d: Director, event: Inbound, around: Around)
    requires event.InferenceDone? && around.workflow.directiveThrows && around.base.Some?
    ensures CoordinatorFails(d, event, around)
  {
  }

  /** One notice lost: a turn opens a task, and the coordinator throws over its
      directive on the way out. */
  lemma DirectiveThrowDropsNotice(overhead: nat, fleet: bool, nudgeAt: nat)
    ensures var d := FreshDirector(overhead, fleet, nudgeAt);
      var step := OpensTask.(around := OpensTask.around.(workflow := QuietWorkflow.(directiveThrows := true)));
      && TasksChanged in DroppedAt(d, step)
      && HasActiveTasks(Next(d, step).0.tasks)
  {
    var d := FreshDirector(overhead, fleet, nudgeAt);
    var step := OpensTask.(around := OpensTask.around.(workflow := QuietWorkflow.(directiveThrows := true)));
    DirectiveThrowFails(d, step.event, step.around);
    StepTasks(d, step);
    OpenedTaskIsActive([]);
    assert CreatesTask.blocks[..0] == [];
    assert TaskNotices(CreatesTask.blocks) == [TasksChanged];
    assert Pushed(d, step.event, step.around)[0] == TasksChanged;
  }
}
