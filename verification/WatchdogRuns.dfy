/** What the budget guarantees over every run: ticks of the clock, timers that
    may be late, pauses, resumes, parent aborts and disposal in any order. */
module WatchdogRuns {
  import opened Common
  import opened Watchdog

  datatype Step =
    | Tick
    | BudgetTimer
    | CeilingTimer
    | PauseCall
    | ResumeCall(token: nat)
    | ParentAbort
    | Disposal

  /** A budget with its history: how long it has run and been frozen, how often
      it froze, which tokens are still held, whether it ended from outside. */
  datatype World = World(
    t: Timeout,
    budget: nat,
    start: nat,
    now: nat,
    used: nat,
    frozen: nat,
    freezes: nat,
    held: multiset<nat>,
    cancelled: bool)

  function Begin(timeoutMs: real, ceiling: nat, parentAborted: bool, now: nat): World {
    World(Start(timeoutMs, ceiling, parentAborted, now), Budget(timeoutMs), now, now, 0, 0, 0, multiset{}, parentAborted)
  }

  predicate Due(timer: Option<nat>, now: nat) {
    timer.Some? && timer.value <= now
  }

  predicate Enabled(w: World, step: Step) {
    match step
    case BudgetTimer => Due(w.t.timer, w.now)
    case CeilingTimer => Due(w.t.ceilingTimer, w.now)
    case _ => true
  }

  function Next(w: World, step: Step): World {
    match step
    case Tick =>
      if w.t.Ended() then w.(now := w.now + 1)
      else if w.t.depth > 0 then w.(now := w.now + 1, frozen := w.frozen + 1)
      else w.(now := w.now + 1, used := w.used + 1)
    case BudgetTimer => w.(t := w.t.Fire())
    case CeilingTimer => w.(t := w.t.CeilingFires(w.now))
    case PauseCall =>
      w.(t := w.t.Pause(w.now),
         freezes := if !w.t.Ended() && w.t.depth == 0 then w.freezes + 1 else w.freezes,
         held := w.held + multiset{w.t.generation})
    case ResumeCall(token) => w.(t := w.t.Resume(token, w.now), held := w.held - multiset{token})
    case ParentAbort => w.(t := w.t.ParentAborts(), cancelled := true)
    case Disposal => w.(t := w.t.Dispose(), cancelled := true)
  }

  ghost predicate Possible(w: World, steps: seq<Step>)
    decreases |steps|
  {
    steps == [] || (Enabled(w, steps[0]) && Possible(Next(w, steps[0]), steps[1..]))
  }

  function Run(w: World, steps: seq<Step>): World
    decreases |steps|
  {
    if steps == [] then w else Run(Next(w, steps[0]), steps[1..])
  }

  /** The clock does not move past a timer that is due. */
  predicate OnTime(w: World, step: Step) {
    step.Tick? ==> !Due(w.t.timer, w.now) && !Due(w.t.ceilingTimer, w.now)
  }

  ghost predicate Prompt(w: World, steps: seq<Step>)
    decreases |steps|
  {
    steps == [] || (OnTime(w, steps[0]) && Prompt(Next(w, steps[0]), steps[1..]))
  }

  // --------------------------------------------------------- conservation

  /** While the budget counts: the clock runs exactly when nothing is paused,
      and what was used, is frozen and is left adds up. */
  predicate Inv(w: World) {
    && (w.t.aborted && !w.cancelled ==> w.used >= w.budget)
    && (!w.cancelled ==> !w.t.disposed)
    && (!w.t.Ended() ==>
          && w.now == w.start + w.used + w.frozen
          && (if w.t.depth == 0 then Running(w) else Frozen(w)))
  }

  predicate Running(w: World) {
    && w.t.startedAt.Some?
    && w.t.startedAt.value <= w.now
    && w.t.remaining > 0
    && w.used + w.t.remaining == w.budget + (w.now - w.t.startedAt.value)
    && w.t.timer == Some(w.t.startedAt.value + w.t.remaining)
    && w.t.ceilingTimer == None
  }

  predicate Frozen(w: World) {
    && w.t.startedAt == None
    && w.t.timer == None
    && w.t.remaining == Minus(w.budget, w.used)
    && w.t.ceilingTimer.Some?
  }

  lemma TickKeepsInv(w: World)
    requires Inv(w)
    ensures Inv(Next(w, Tick))
  {
  }

  lemma PauseKeepsInv(w: World)
    requires Inv(w)
    ensures Inv(Next(w, PauseCall))
  {
  }

  lemma ResumeKeepsInv(w: World, token: nat)
    requires Inv(w)
    ensures Inv(Next(w, ResumeCall(token)))
  {
  }

  lemma TimersKeepInv(w: World, step: Step)
    requires Inv(w) && Enabled(w, step) && (step.BudgetTimer? || step.CeilingTimer?)
    ensures Inv(Next(w, step))
  {
  }

  lemma StepKeepsInv(w: World, step: Step)
    requires Inv(w) && Enabled(w, step)
    ensures Inv(Next(w, step))
  {
    match step
    case Tick => TickKeepsInv(w);
    case BudgetTimer => TimersKeepInv(w, step);
    case CeilingTimer => TimersKeepInv(w, step);
    case PauseCall => PauseKeepsInv(w);
    case ResumeCall(token) => ResumeKeepsInv(w, token);
    case ParentAbort =>
    case Disposal =>
  }

  lemma {:induction false} RunKeepsInv(w: World, steps: seq<Step>)
    requires Inv(w) && Possible(w, steps)
    ensures Inv(Run(w, steps))
    decreases |steps|
  {
    if steps != [] {
      StepKeepsInv(w, steps[0]);
      RunKeepsInv(Next(w, steps[0]), steps[1..]);
    }
  }

  /** Conservation, timers late or not: until the budget ends, what is left is
      what was not used, and the clock is the sum of used and frozen time. An
      abort that nobody asked for never comes before the budget is used up. */
  lemma BudgetIsConserved(timeoutMs: real, ceiling: nat, parentAborted: bool, now: nat, steps: seq<Step>)
    requires Possible(Begin(timeoutMs, ceiling, parentAborted, now), steps)
    ensures var w := Run(Begin(timeoutMs, ceiling, parentAborted, now), steps);
      && (!w.t.Ended() ==> w.t.Left(w.now) == Minus(w.budget, w.used) && w.now - now == w.used + w.frozen)
      && (w.t.aborted && !w.cancelled ==> w.used >= w.budget)
  {
    RunKeepsInv(Begin(timeoutMs, ceiling, parentAborted, now), steps);
    RunKeepsOrigin(Begin(timeoutMs, ceiling, parentAborted, now), steps);
  }

  lemma StepKeepsOrigin(w: World, step: Step)
    ensures var next := Next(w, step);
      && next.start == w.start && next.budget == w.budget && next.t.ceiling == w.t.ceiling
      && next.t.generation >= w.t.generation
      && (if step.CeilingTimer? then next.t.generation > w.t.generation else next.t.generation == w.t.generation)
  {
    match step
    case CeilingTimer => ArmKeepsGeneration(w.t.(ceilingTimer := None, depth := 0, generation := w.t.generation + 1), w.now);
    case ResumeCall(token) => ArmKeepsGeneration(w.t.(depth := 0, ceilingTimer := None), w.now);
    case _ =>
  }

  lemma ArmKeepsGeneration(t: Timeout, now: nat)
    ensures t.Arm(now).generation == t.generation && t.Arm(now).ceiling == t.ceiling
  {
  }

  lemma {:induction false} RunKeepsOrigin(w: World, steps: seq<Step>)
    ensures Run(w, steps).start == w.start && Run(w, steps).budget == w.budget
    ensures Run(w, steps).t.ceiling == w.t.ceiling
    decreases |steps|
  {
    if steps != [] {
      StepKeepsOrigin(w, steps[0]);
      RunKeepsOrigin(Next(w, steps[0]), steps[1..]);
    }
  }

  // ------------------------------------------------------ prompt timers

  function Allowance(w: World): nat {
    w.t.ceiling * w.freezes
  }

  /** With timers on time the budget is never overdrawn, and each freeze is
      within its ceiling. */
  predicate PromptInv(w: World) {
    && Inv(w)
    && w.used <= w.budget
    && (!w.t.Ended() ==> Within(w, Allowance(w)))
  }

  /** Nothing is overdue, and frozen time, with what the ceiling still grants,
      is within `allowance`. */
  predicate Within(w: World, allowance: nat)
    requires Inv(w) && !w.t.Ended()
  {
    if w.t.depth == 0 then w.now <= w.t.timer.value && w.frozen <= allowance
    else w.now <= w.t.ceilingTimer.value && w.frozen + (w.t.ceilingTimer.value - w.now) <= allowance
  }

  lemma TickStaysWithin(w: World, allowance: nat)
    requires Inv(w) && OnTime(w, Tick) && w.used <= w.budget && !w.t.Ended() && Within(w, allowance)
    ensures var next := Next(w, Tick); Inv(next) && next.used <= next.budget && Within(next, allowance)
  {
    TickKeepsInv(w);
  }

  /** A pause grants one more ceiling if it is the first. */
  lemma PauseStaysWithin(w: World, allowance: nat)
    requires Inv(w) && !w.t.Ended() && Within(w, allowance)
    ensures var next := Next(w, PauseCall);
      Inv(next) && Within(next, if w.t.depth == 0 then allowance + w.t.ceiling else allowance)
  {
    PauseKeepsInv(w);
  }

  lemma ResumeStaysWithin(w: World, token: nat, allowance: nat)
    requires Inv(w) && !w.t.Ended() && Within(w, allowance)
    ensures var next := Next(w, ResumeCall(token)); Inv(next) && (!next.t.Ended() ==> Within(next, allowance))
  {
    ResumeKeepsInv(w, token);
  }

  lemma CeilingStaysWithin(w: World, allowance: nat)
    requires Inv(w) && Enabled(w, CeilingTimer) && !w.t.Ended() && Within(w, allowance)
    ensures var next := Next(w, CeilingTimer); Inv(next) && (!next.t.Ended() ==> Within(next, allowance))
  {
    TimersKeepInv(w, CeilingTimer);
  }

  lemma OneMoreFreeze(w: World)
    ensures w.t.ceiling * (w.freezes + 1) == Allowance(w) + w.t.ceiling
  {
  }

  lemma TickKeepsPromptInv(w: World)
    requires PromptInv(w) && !w.t.Ended() && OnTime(w, Tick)
    ensures PromptInv(Next(w, Tick))
  {
    TickStaysWithin(w, Allowance(w));
  }

  lemma PauseKeepsPromptInv(w: World)
    requires PromptInv(w) && !w.t.Ended()
    ensures PromptInv(Next(w, PauseCall))
  {
    PauseStaysWithin(w, Allowance(w));
    OneMoreFreeze(w);
  }

  lemma ResumeKeepsPromptInv(w: World, token: nat)
    requires PromptInv(w) && !w.t.Ended()
    ensures PromptInv(Next(w, ResumeCall(token)))
  {
    ResumeStaysWithin(w, token, Allowance(w));
    StepKeepsOrigin(w, ResumeCall(token));
  }

  lemma CeilingKeepsPromptInv(w: World)
    requires PromptInv(w) && !w.t.Ended() && Enabled(w, CeilingTimer)
    ensures PromptInv(Next(w, CeilingTimer))
  {
    CeilingStaysWithin(w, Allowance(w));
    StepKeepsOrigin(w, CeilingTimer);
  }

  /** A step after which the signal has aborted or the budget is disposed of. */
  lemma EndingKeepsPromptInv(w: World, step: Step)
    requires PromptInv(w) && Enabled(w, step) && (w.t.Ended() || step.BudgetTimer? || step.ParentAbort? || step.Disposal?)
    ensures PromptInv(Next(w, step))
  {
    StepKeepsInv(w, step);
    if w.t.Ended() {
      EndedStaysEnded(w, step);
    }
  }

  lemma StepKeepsPromptInv(w: World, step: Step)
    requires PromptInv(w) && Enabled(w, step) && OnTime(w, step)
    ensures PromptInv(Next(w, step))
  {
    if w.t.Ended() || step.BudgetTimer? || step.ParentAbort? || step.Disposal? {
      EndingKeepsPromptInv(w, step);
    } else {
      match step
      case Tick => TickKeepsPromptInv(w);
      case PauseCall => PauseKeepsPromptInv(w);
      case ResumeCall(token) => ResumeKeepsPromptInv(w, token);
      case CeilingTimer => CeilingKeepsPromptInv(w);
    }
  }

  lemma EndedStaysEnded(w: World, step: Step)
    requires w.t.Ended()
    ensures var next := Next(w, step); next.t.Ended() && next.used == w.used && next.budget == w.budget
  {
  }

  lemma {:induction false} RunKeepsPromptInv(w: World, steps: seq<Step>)
    requires PromptInv(w) && Possible(w, steps) && Prompt(w, steps)
    ensures PromptInv(Run(w, steps))
    decreases |steps|
  {
    if steps != [] {
      StepKeepsPromptInv(w, steps[0]);
      RunKeepsPromptInv(Next(w, steps[0]), steps[1..]);
    }
  }

  /** With timers on time and nobody aborting or disposing, the signal aborts
      exactly when unfrozen time reaches the budget: never before, and once it
      is reached nothing but a freeze lets the clock move without the abort.
      Until then the wall clock is within the budget and a ceiling per freeze. */
  lemma AbortsExactlyAtTheBudget(timeoutMs: real, ceiling: nat, now: nat, steps: seq<Step>)
    requires Possible(Begin(timeoutMs, ceiling, false, now), steps)
    requires Prompt(Begin(timeoutMs, ceiling, false, now), steps)
    ensures var w := Run(Begin(timeoutMs, ceiling, false, now), steps);
      !w.cancelled ==>
        && w.used <= w.budget
        && (w.t.aborted ==> w.used == w.budget)
        && (w.used == w.budget && !w.t.aborted ==>
              w.t.depth > 0 || (Enabled(w, BudgetTimer) && !OnTime(w, Tick) && Next(w, BudgetTimer).t.aborted))
        && (!w.t.aborted ==> w.now - now <= w.budget + ceiling * w.freezes)
  {
    RunKeepsPromptInv(Begin(timeoutMs, ceiling, false, now), steps);
    RunKeepsOrigin(Begin(timeoutMs, ceiling, false, now), steps);
  }

  /** A frozen budget with nothing left aborts the moment its freeze ends. */
  lemma SpentBudgetAbortsOnResume(w: World, step: Step)
    requires Inv(w) && Enabled(w, step) && !w.t.Ended() && w.t.depth > 0 && w.used >= w.budget
    requires step.CeilingTimer? || step.ResumeCall?
    ensures Next(w, step).t.depth == 0 ==> Next(w, step).t.aborted
  {
  }

  // ----------------------------------------------------------- tokens

  lemma {:induction false} GenerationGrows(w: World, steps: seq<Step>)
    ensures Run(w, steps).t.generation >= w.t.generation
    ensures if CeilingTimer in steps then Run(w, steps).t.generation > w.t.generation
            else Run(w, steps).t.generation == w.t.generation
    decreases |steps|
  {
    if steps != [] {
      StepKeepsOrigin(w, steps[0]);
      GenerationGrows(Next(w, steps[0]), steps[1..]);
    }
  }

  /** A token from before a forced ceiling resume changes nothing, whatever
      happened in between. */
  lemma StaleTokenChangesNothing(w: World, steps: seq<Step>, now: nat)
    requires CeilingTimer in steps
    ensures var token := w.t.generation;
            Run(w, steps).t.Resume(token, now) == Run(w, steps).t
  {
    GenerationGrows(w, steps);
  }

  /** Nobody resumes with a token they do not hold. */
  ghost predicate WellBehaved(w: World, steps: seq<Step>)
    decreases |steps|
  {
    || steps == []
    || ((steps[0].ResumeCall? ==> steps[0].token in w.held) && WellBehaved(Next(w, steps[0]), steps[1..]))
  }

  predicate RefCounted(w: World) {
    && (forall token :: token in w.held ==> token <= w.t.generation)
    && (!w.t.Ended() ==> w.t.depth == w.held[w.t.generation])
  }

  lemma {:induction false} RunKeepsRefCount(w: World, steps: seq<Step>)
    requires RefCounted(w) && WellBehaved(w, steps)
    ensures RefCounted(Run(w, steps))
    decreases |steps|
  {
    if steps != [] {
      StepKeepsRefCount(w, steps[0]);
      RunKeepsRefCount(Next(w, steps[0]), steps[1..]);
    }
  }

  lemma PauseKeepsRefCount(w: World)
    requires RefCounted(w)
    ensures RefCounted(Next(w, PauseCall))
  {
  }

  lemma ResumeKeepsRefCount(w: World, token: nat)
    requires RefCounted(w) && token in w.held
    ensures RefCounted(Next(w, ResumeCall(token)))
  {
  }

  lemma StepKeepsRefCount(w: World, step: Step)
    requires RefCounted(w) && (step.ResumeCall? ==> step.token in w.held)
    ensures RefCounted(Next(w, step))
  {
    match step
    case PauseCall => PauseKeepsRefCount(w);
    case ResumeCall(token) => ResumeKeepsRefCount(w, token);
    case CeilingTimer => assert Next(w, step).held[Next(w, step).t.generation] == 0;
    case _ =>
  }

  /** Nested prompts: among callers that give back only what they were given,
      the budget is frozen exactly while somebody holds a token of the current
      generation. */
  lemma FrozenWhileHeld(timeoutMs: real, ceiling: nat, now: nat, steps: seq<Step>)
    requires WellBehaved(Begin(timeoutMs, ceiling, false, now), steps)
    ensures var w := Run(Begin(timeoutMs, ceiling, false, now), steps);
      && (forall token :: token in w.held ==> token <= w.t.generation)
      && (!w.t.Ended() ==> w.t.depth == w.held[w.t.generation])
  {
    RunKeepsRefCount(Begin(timeoutMs, ceiling, false, now), steps);
  }

  /** Calls that give back what they take leave the depth as it was, however
      they interleave, when no ceiling fired. */
  lemma BalancedCallsRestoreDepth(w: World, steps: seq<Step>)
    requires RefCounted(w) && WellBehaved(w, steps) && CeilingTimer !in steps
    requires Run(w, steps).held == w.held && !w.t.Ended() && !Run(w, steps).t.Ended()
    ensures Run(w, steps).t.depth == w.t.depth
  {
    RunKeepsRefCount(w, steps);
    GenerationGrows(w, steps);
  }

  // ------------------------------------------------------------ chains

  /** A nested tool call holds its own budget and those of the calls around it;
      a budget without a run timer ignores pauses. `held` are the tokens that
      others hold: the chain keeps its own to itself. */
  datatype Link = Timed(w: World) | Untimed

  function PauseLink(link: Link): (Link, nat) {
    match link
    case Timed(w) => (Timed(w.(t := w.t.Pause(w.now))), w.t.generation)
    case Untimed => (Untimed, 0)
  }

  function ResumeLink(link: Link, token: nat): Link {
    match link
    case Timed(w) => Timed(w.(t := w.t.Resume(token, w.now)))
    case Untimed => Untimed
  }

  /** The innermost budget first, then the enclosing ones; one token each. */
  function PauseAll(chain: seq<Link>): (seq<Link>, seq<nat>) {
    if chain == [] then ([], [])
    else
      var (own, token) := PauseLink(chain[0]);
      var (enclosing, tokens) := PauseAll(chain[1..]);
      ([own] + enclosing, [token] + tokens)
  }

  function ResumeAll(chain: seq<Link>, tokens: seq<nat>): seq<Link> {
    if chain == [] || tokens == [] then chain
    else [ResumeLink(chain[0], tokens[0])] + ResumeAll(chain[1..], tokens[1..])
  }

  /** What happens to a budget while the chain holds it frozen. */
  function Meanwhile(link: Link, steps: seq<Step>): Link {
    match link
    case Timed(w) => Timed(Run(w, steps))
    case Untimed => Untimed
  }

  function AllMeanwhile(chain: seq<Link>, others: seq<seq<Step>>): seq<Link>
    requires |others| == |chain|
  {
    if chain == [] then [] else [Meanwhile(chain[0], others[0])] + AllMeanwhile(chain[1..], others[1..])
  }

  /** Time passes and others pause and resume, each with tokens of its own. */
  ghost predicate ByOthers(link: Link, steps: seq<Step>) {
    && (forall i :: 0 <= i < |steps| ==> steps[i].Tick? || steps[i].PauseCall? || steps[i].ResumeCall?)
    && (link.Timed? ==> WellBehaved(PauseLink(link).0.w, steps))
  }

  /** What every reachable budget satisfies: the depth counts the tokens that
      are held, and the run clock stands while paused. */
  predicate Counted(link: Link) {
    link.Timed? && !link.w.t.Ended() ==>
      && link.w.t.depth == link.w.held[link.w.t.generation]
      && (link.w.t.depth > 0 ==> link.w.t.startedAt == None && link.w.t.timer == None)
  }

  /** The freeze of a holder who keeps its token outlasts what others do: the
      depth is theirs and one more, and nothing of the budget runs. */
  predicate HeldFrozen(w: World, generation: nat, remaining: nat) {
    && !w.t.Ended()
    && w.t.generation == generation
    && w.t.depth == w.held[generation] + 1
    && w.t.startedAt == None && w.t.timer == None
    && w.t.remaining == remaining
  }

  lemma OthersStepKeepsFreeze(w: World, step: Step, generation: nat, remaining: nat)
    requires HeldFrozen(w, generation, remaining)
    requires step.Tick? || step.PauseCall? || (step.ResumeCall? && step.token in w.held)
    ensures HeldFrozen(Next(w, step), generation, remaining)
  {
  }

  lemma {:induction false} OthersKeepFreeze(w: World, steps: seq<Step>, generation: nat, remaining: nat)
    requires HeldFrozen(w, generation, remaining) && WellBehaved(w, steps)
    requires forall i :: 0 <= i < |steps| ==> steps[i].Tick? || steps[i].PauseCall? || steps[i].ResumeCall?
    ensures HeldFrozen(Run(w, steps), generation, remaining)
    decreases |steps|
  {
    if steps != [] {
      OthersStepKeepsFreeze(w, steps[0], generation, remaining);
      OthersKeepFreeze(Next(w, steps[0]), steps[1..], generation, remaining);
    }
  }

  lemma {:induction false} EndedStaysAsItIs(w: World, steps: seq<Step>)
    requires w.t.Ended()
    requires forall i :: 0 <= i < |steps| ==> steps[i].Tick? || steps[i].PauseCall? || steps[i].ResumeCall?
    ensures Run(w, steps).t == w.t
    decreases |steps|
  {
    if steps != [] {
      EndedStaysAsItIs(Next(w, steps[0]), steps[1..]);
    }
  }

  /** Afterwards the depth counts what others hold then, the same as before if
      they hold the same, and as much of the budget is left as before, running
      on if nobody holds it. */
  predicate Restored(before: Link, after: Link) {
    && (before.Untimed? ==> after.Untimed?)
    && (before.Timed? ==>
          && after.Timed?
          && (before.w.t.Ended() ==> after.w.t == before.w.t)
          && (!before.w.t.Ended() ==> TimeoutRestored(before.w, after.w)))
  }

  predicate TimeoutRestored(before: World, after: World) {
    var left := before.t.Left(before.now);
    && after.t.generation == before.t.generation
    && after.t.depth == after.held[after.t.generation]
    && (after.held == before.held ==> after.t.depth == before.t.depth)
    && after.t.Left(after.now) == left
    && (after.t.depth == 0 && left > 0 ==> !after.t.aborted && after.t.timer == Some(after.now + left))
    && (after.t.depth == 0 && left == 0 ==> after.t.aborted)
  }

  /** Pausing and resuming a chain of any length costs no budget and restores
      every depth, however long the freeze and whatever others hold and give
      back meanwhile, when no ceiling fired. */
  lemma {:induction false} ChainRestores(chain: seq<Link>, others: seq<seq<Step>>)
    requires |others| == |chain|
    requires forall i :: 0 <= i < |chain| ==> Counted(chain[i]) && ByOthers(chain[i], others[i])
    ensures var (paused, tokens) := PauseAll(chain);
      |paused| == |chain|
      && var resumed := ResumeAll(AllMeanwhile(paused, others), tokens);
         |resumed| == |chain| && forall i :: 0 <= i < |chain| ==> Restored(chain[i], resumed[i])
    decreases |chain|
  {
    if chain != [] {
      ChainRestores(chain[1..], others[1..]);
      var (paused, tokens) := PauseAll(chain);
      assert paused[1..] == PauseAll(chain[1..]).0 && tokens[1..] == PauseAll(chain[1..]).1;
      LinkRestores(chain[0], others[0]);
      var after := AllMeanwhile(paused, others);
      assert after[1..] == AllMeanwhile(paused[1..], others[1..]);
      var resumed := ResumeAll(after, tokens);
      forall i | 0 <= i < |chain|
        ensures Restored(chain[i], resumed[i])
      {
        if i > 0 {
          assert Restored(chain[1..][i - 1], resumed[i]);
        }
      }
    }
  }

  lemma LinkRestores(link: Link, steps: seq<Step>)
    requires Counted(link) && ByOthers(link, steps)
    ensures var (paused, token) := PauseLink(link);
            Restored(link, ResumeLink(Meanwhile(paused, steps), token))
  {
    if link.Timed? {
      var w := PauseLink(link).0.w;
      if link.w.t.Ended() {
        EndedStaysAsItIs(w, steps);
      } else {
        OthersKeepFreeze(w, steps, link.w.t.generation, link.w.t.Left(link.w.now));
      }
    }
  }

  // ------------------------------------------------------------ the budget

  /** The budget is the whole milliseconds of the timeout, and one where it is less
      than one; the clock starts on it at once, unless the parent has aborted. */
  lemma BudgetIsWholeMilliseconds(timeoutMs: real, ceiling: nat, now: nat)
    ensures var budget := if timeoutMs < 1.0 then 1 else timeoutMs.Floor;
      && (timeoutMs >= 1.0 ==> budget as real <= timeoutMs < budget as real + 1.0)
      && Start(timeoutMs, ceiling, false, now).Left(now) == budget
      && Start(timeoutMs, ceiling, false, now).timer == Some(now + budget)
      && Start(timeoutMs, ceiling, true, now).aborted && Start(timeoutMs, ceiling, true, now).timer == None
  {
  }
}
