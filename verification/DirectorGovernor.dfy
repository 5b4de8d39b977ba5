/** The governor inside the director: every decision calls it as a run of the
    governor's own does, so what holds of all such runs holds of director runs. */
module DirectorGovernor {
  import opened Common
  import opened Reactor
  import C = Compaction
  import G = CompactionRuns
  import opened Tasks
  import opened Director
  import opened DirectorRuns
  import opened DirectorFlow

  // ------------------------------------------------- the calls of a decision

  /** Answering a re-entry, or else trying the idle and the overflow fold. */
  function FoldCalls(g: C.Governor, event: Inbound, around: Around): seq<G.Call> {
    var (resumed, kind) := g.ResumeAfterCompact(Seen(event));
    if kind == Some(C.ResumeMeter) then [G.Resume(Seen(event)), G.PostCompact(around.turns)]
    else if kind.Some? then [G.Resume(Seen(event)), G.PostCompact(around.turns), G.Preflight(around.limits)]
    else if resumed.InterceptIdleContinuation(Seen(event)).1.Some? then [G.Resume(Seen(event)), G.IdleContinuation(Seen(event))]
    else [G.Resume(Seen(event)), G.IdleContinuation(Seen(event)), G.OverflowError(Seen(event))]
  }

  function MeasureCalls(event: Inbound, around: Around): seq<G.Call> {
    if event.InferenceDone? then [G.Sync(around.turns), G.Measure(event.reportedTokens, around.turns, around.limits)]
    else [G.Sync(around.turns)]
  }

  /** Around a base decision, once it is there. */
  function BaseCalls(d: Director, event: Inbound, around: Around): seq<G.Call> {
    if around.base.None? || (EndsInMarkerEcho(event) && d.budgets.markerEcho < MAX_MARKER_ECHO_NUDGES) then []
    else
      var base := if EndsInMarkerEcho(event) then RepliesWait(around.base.value) else around.base.value;
      [G.IdleTurn(Seen(event), base), G.Intercept(Seen(event), base, around.limits)]
  }

  function OwnCalls(d: Director, event: Inbound, around: Around): seq<G.Call> {
    if DeclinedPhase(d.budgets, d.tasks, event).1.Some? then []
    else MeasureCalls(event, around) + BaseCalls(d, event, around)
  }

  function InnerCalls(d: Director, event: Inbound, around: Around): seq<G.Call> {
    FoldCalls(d.governor, event, around) + LateCalls(d, event, around)
  }

  function LateCalls(d: Director, event: Inbound, around: Around): seq<G.Call> {
    var (early, decision) := EarlyPhase(d, event, around);
    if decision.Some? || NotingThrows(event, around) then []
    else OwnCalls(NoteEvent(early, event, around), event, around)
  }

  /** What one step of a director run asks of the governor. */
  function CallsOf(d: Director, step: Step): seq<G.Call> {
    match step
    case Event(event, around) =>
      if event.ResumedToolResult? && event.dropped then [] else InnerCalls(d, event, around)
    case Govern(call) => [call]
    case _ => []
  }

  function RunCalls(d: Director, steps: seq<Step>): seq<G.Call>
    decreases |steps|
  {
    if steps == [] then [] else CallsOf(d, steps[0]) + RunCalls(Next(d, steps[0]).0, steps[1..])
  }

  /** Why a decision folded, if it did, told from the way it went. */
  function FoldOf(d: Director, decision: Option<Decision>): Option<Reason> {
    if decision.None? then None
    else
      match decision.value.route
      case PreflightFold => Some(Threshold)
      case OverflowFold => Some(Overflow)
      case IdleFold => Some(if d.governor.arms.manual then Operator else Threshold)
      case PausedFold => Some(if d.governor.arms.manual then Operator else Threshold)
      case _ => None
  }

  /** How many decisions of the run folded for one reason. */
  function FoldDecisions(d: Director, steps: seq<Step>, reason: Reason): nat
    decreases |steps|
  {
    if steps == [] then 0
    else
      var (next, decision) := Next(d, steps[0]);
      (if FoldOf(d, decision) == Some(reason) then 1 else 0) + FoldDecisions(next, steps[1..], reason)
  }

  // ---------------------------------------------------- they agree, call by call

  function Times(fold: Option<Reason>, reason: Reason): nat {
    if fold == Some(reason) then 1 else 0
  }

  /** The calls take the governor from one state to the next, on at most one fold. */
  ghost predicate Runs(g: C.Governor, calls: seq<G.Call>, next: C.Governor, fold: Option<Reason>) {
    && G.Run(g, calls) == next
    && forall reason :: G.Folds(g, calls, reason) == Times(fold, reason)
  }

  lemma NoCalls(g: C.Governor)
    ensures Runs(g, [], g, None)
  {
  }

  lemma OneCall(g: C.Governor, call: G.Call)
    ensures var (next, outcome) := G.Apply(g, call); Runs(g, [call], next, outcome.fold)
  {
    assert [call][1..] == [];
    var (next, outcome) := G.Apply(g, call);
    forall reason
      ensures G.Folds(g, [call], reason) == Times(outcome.fold, reason)
    {
      assert G.Folds(next, [], reason) == 0;
    }
  }

  lemma MoreCalls(g: C.Governor, first: seq<G.Call>, between: C.Governor, fold: Option<Reason>,
                  second: seq<G.Call>, next: C.Governor, later: Option<Reason>)
    requires Runs(g, first, between, fold) && Runs(between, second, next, later)
    requires fold.None? || later.None?
    ensures Runs(g, first + second, next, if fold.Some? then fold else later)
  {
    G.RunAppend(g, first, second);
    forall reason
      ensures G.Folds(g, first + second, reason) == Times(if fold.Some? then fold else later, reason)
    {
      G.FoldsAppend(g, first, second, reason);
    }
  }

  lemma TwoCalls(g: C.Governor, first: G.Call, second: G.Call)
    requires G.Apply(g, first).1.fold.None?
    ensures var (next, outcome) := G.Apply(G.Apply(g, first).0, second); Runs(g, [first, second], next, outcome.fold)
  {
    var (between, before) := G.Apply(g, first);
    OneCall(g, first);
    OneCall(between, second);
    var (next, outcome) := G.Apply(between, second);
    MoreCalls(g, [first], between, None, [second], next, outcome.fold);
    assert [first] + [second] == [first, second];
  }

  lemma ThreeCalls(g: C.Governor, first: G.Call, second: G.Call, third: G.Call)
    requires G.Apply(g, first).1.fold.None? && G.Apply(G.Apply(g, first).0, second).1.fold.None?
    ensures var (next, outcome) := G.Apply(G.Apply(G.Apply(g, first).0, second).0, third);
            Runs(g, [first, second, third], next, outcome.fold)
  {
    TwoCalls(g, first, second);
    var between := G.Apply(G.Apply(g, first).0, second).0;
    OneCall(between, third);
    var (next, outcome) := G.Apply(between, third);
    MoreCalls(g, [first, second], between, None, [third], next, outcome.fold);
    assert [first, second] + [third] == [first, second, third];
  }

  lemma FoldPhaseRuns(d: Director, event: Inbound, around: Around)
    ensures var (next, decision) := FoldPhase(d.governor, event, around);
      && Runs(d.governor, FoldCalls(d.governor, event, around), next, FoldOf(d, decision))
      && (decision.None? ==> next.arms.manual == d.governor.arms.manual)
  {
    var g, seen := d.governor, Seen(event);
    var (resumed, kind) := g.ResumeAfterCompact(seen);
    if kind == Some(C.ResumeMeter) {
      TwoCalls(g, G.Resume(seen), G.PostCompact(around.turns));
    } else if kind.Some? {
      ThreeCalls(g, G.Resume(seen), G.PostCompact(around.turns), G.Preflight(around.limits));
    } else {
      TwoCalls(g, G.Resume(seen), G.IdleContinuation(seen));
      if resumed.InterceptIdleContinuation(seen).1.None? {
        ThreeCalls(g, G.Resume(seen), G.IdleContinuation(seen), G.OverflowError(seen));
      }
    }
  }

  lemma MeasureRuns(d: Director, event: Inbound, around: Around)
    ensures Runs(d.governor, MeasureCalls(event, around), MeasurePhase(d, event, around).governor, None)
    ensures MeasurePhase(d, event, around).governor.arms.manual == d.governor.arms.manual
  {
    OneCall(d.governor, G.Sync(around.turns));
    if event.InferenceDone? {
      TwoCalls(d.governor, G.Sync(around.turns), G.Measure(event.reportedTokens, around.turns, around.limits));
    }
  }

  lemma FoldBaseRuns(d: Director, event: Inbound, base: seq<Action>, around: Around)
    ensures var (next, decision) := FoldBase(d.governor, event, base, around);
            Runs(d.governor, [G.IdleTurn(Seen(event), base), G.Intercept(Seen(event), base, around.limits)],
                 next, FoldOf(d, decision))
  {
    TwoCalls(d.governor, G.IdleTurn(Seen(event), base), G.Intercept(Seen(event), base, around.limits));
  }

  lemma NudgesDoNotFold(d: Director, event: Inbound, raw: seq<Action>, base: seq<Action>, around: Around)
    ensures var (next, decision) := NudgePhase(d, event, raw, base, around);
            next.governor == d.governor && FoldOf(d, Some(decision)) == None
  {
    NudgePhasePays(d, event, raw, base, around);
  }

  lemma MeasuredRuns(d: Director, event: Inbound, around: Around)
    ensures var (next, decision) := MeasuredPhase(d, event, around);
            Runs(d.governor, BaseCalls(d, event, around), next.governor, FoldOf(d, Some(decision)))
  {
    if around.base.None? || (EndsInMarkerEcho(event) && d.budgets.markerEcho < MAX_MARKER_ECHO_NUDGES) {
      NoCalls(d.governor);
    } else {
      var raw := around.base.value;
      var base := if EndsInMarkerEcho(event) then RepliesWait(raw) else raw;
      FoldBaseRuns(d, event, base, around);
      var (folded, decision) := FoldBase(d.governor, event, base, around);
      NudgesDoNotFold(d.(governor := folded), event, raw, base, around);
    }
  }

  lemma OwnRuns(d: Director, event: Inbound, around: Around)
    ensures var (next, decision) := OwnPhase(d, event, around);
            Runs(d.governor, OwnCalls(d, event, around), next.governor, FoldOf(d, Some(decision)))
  {
    if DeclinedPhase(d.budgets, d.tasks, event).1.Some? {
      NoCalls(d.governor);
    } else {
      var measured := MeasurePhase(d, event, around);
      MeasureRuns(d, event, around);
      MeasureKeeps(d, event, around);
      MeasuredRuns(measured, event, around);
      var (next, decision) := MeasuredPhase(measured, event, around);
      MoreCalls(d.governor, MeasureCalls(event, around), measured.governor, None,
                BaseCalls(d, event, around), next.governor, FoldOf(d, Some(decision)));
    }
  }

  lemma EarlyRuns(d: Director, event: Inbound, around: Around)
    ensures var (early, decision) := EarlyPhase(d, event, around);
      && Runs(d.governor, FoldCalls(d.governor, event, around), early.governor, FoldOf(d, decision))
      && (decision.None? ==> early.governor.arms.manual == d.governor.arms.manual)
  {
    hide FoldPhase, FoldCalls, MailPhase, ErrorPhase;
    FoldPhaseRuns(d, event, around);
    var folded := d.(governor := FoldPhase(d.governor, event, around).0);
    MailPhaseKeeps(folded, event);
    ErrorPhasePays(d.budgets, event);
  }

  lemma LateRuns(d: Director, event: Inbound, around: Around)
    requires EarlyPhase(d, event, around).1.None?
    ensures var early := EarlyPhase(d, event, around).0;
      var (next, decision) := DecideInner(d, event, around);
      Runs(early.governor, LateCalls(d, event, around), next.governor, FoldOf(d, Some(decision)))
  {
    hide OwnPhase, OwnCalls, NoteEvent;
    var early := EarlyPhase(d, event, around).0;
    EarlyRuns(d, event, around);
    NoteEventTells(early, event, around);
    NoCalls(early.governor);
    OwnRuns(NoteEvent(early, event, around), event, around);
  }

  lemma InnerRuns(d: Director, event: Inbound, around: Around)
    ensures var (next, decision) := DecideInner(d, event, around);
            Runs(d.governor, InnerCalls(d, event, around), next.governor, FoldOf(d, Some(decision)))
  {
    EarlyRuns(d, event, around);
    var (early, decision) := EarlyPhase(d, event, around);
    var calls := FoldCalls(d.governor, event, around);
    if decision.Some? {
      assert calls + [] == calls;
    } else {
      LateRuns(d, event, around);
      var (next, later) := DecideInner(d, event, around);
      MoreCalls(d.governor, calls, early.governor, None, LateCalls(d, event, around), next.governor, FoldOf(d, Some(later)));
    }
  }

  lemma EventRuns(d: Director, event: Inbound, around: Around)
    ensures var (next, decision) := Decide(d, event, around);
            Runs(d.governor, CallsOf(d, Event(event, around)), next.governor, FoldOf(d, Some(decision)))
  {
    hide DecideInner, InnerCalls, Finish;
    if event.ResumedToolResult? && event.dropped {
      NoCalls(d.governor);
    } else {
      InnerRuns(d, event, around);
      if event.InferenceDone? {
        BoundariesDoNotFold(d, event, around);
      }
      var (next, decision) := DecideInner(d, event, around);
      FinishKeeps(next, decision, event, around);
    }
  }

  /** Each step of a director run is a run of its governor, with the same fold. */
  lemma StepRuns(d: Director, step: Step)
    ensures var (next, decision) := Next(d, step);
            Runs(d.governor, CallsOf(d, step), next.governor, FoldOf(d, decision))
  {
    match step
    case Event(event, around) =>
      EventRuns(d, event, around);
    case Govern(call) =>
      OneCall(d.governor, call);
    case _ =>
      NoCalls(d.governor);
  }

  /** So a coordinator that throws never takes a fold with it. */
  lemma BoundariesDoNotFold(d: Director, event: Inbound, around: Around)
    requires event.InferenceDone?
    ensures FoldOf(d, Some(DecideInner(d, event, around).1)) == None
  {
    InnerIsOwn(d, event, around);
    OwnDoesNotFold(NoteEvent(d, event, around), event, around);
  }

  lemma OwnDoesNotFold(d: Director, event: Inbound, around: Around)
    requires event.InferenceDone?
    ensures !OwnPhase(d, event, around).1.route.IsFold()
  {
    OwnCredit(d, event, around);
    OwnPays(d, event, around);
  }

  lemma {:induction false} DirectorRunRunsGovernor(d: Director, steps: seq<Step>)
    ensures G.Run(d.governor, RunCalls(d, steps)) == Run(d, steps).governor
    ensures forall reason :: G.Folds(d.governor, RunCalls(d, steps), reason) == FoldDecisions(d, steps, reason)
    decreases |steps|
  {
    if steps != [] {
      var next := Next(d, steps[0]).0;
      var first, rest := CallsOf(d, steps[0]), RunCalls(next, steps[1..]);
      StepRuns(d, steps[0]);
      DirectorRunRunsGovernor(next, steps[1..]);
      G.RunAppend(d.governor, first, rest);
      forall reason
        ensures G.Folds(d.governor, RunCalls(d, steps), reason) == FoldDecisions(d, steps, reason)
      {
        G.FoldsAppend(d.governor, first, rest, reason);
      }
    }
  }

  // --------------------------------------------- what carries over to sessions

  /** A finished inference that measures at or under the threshold. */
  predicate MeasuredUnder(step: Step) {
    TurnBoundary(step) && C.ContextTokens(step.event.reportedTokens, step.around.turns) <= step.around.limits.threshold
  }

  lemma OnlyBoundariesMeasure(d: Director, step: Step)
    requires !MeasuredUnder(step)
    ensures G.NoMeasureUnder(CallsOf(d, step))
  {
  }

  lemma {:induction false} RunMeasuresNothingUnder(d: Director, steps: seq<Step>)
    requires forall i :: 0 <= i < |steps| ==> !MeasuredUnder(steps[i])
    ensures G.NoMeasureUnder(RunCalls(d, steps))
    decreases |steps|
  {
    if steps != [] {
      assert !MeasuredUnder(steps[0]);
      OnlyBoundariesMeasure(d, steps[0]);
      RunMeasuresNothingUnder(Next(d, steps[0]).0, steps[1..]);
    }
  }

  /** Folding is bounded in whole sessions: after any history, between two
      inferences that measure at or under the threshold, at most two decisions
      fold for the threshold and at most two for an overflow. */
  lemma SessionFoldingIsBounded(overhead: nat, fleet: bool, nudgeAt: nat, history: seq<Step>, steps: seq<Step>)
    requires forall i :: 0 <= i < |steps| ==> !MeasuredUnder(steps[i])
    ensures var d := Run(FreshDirector(overhead, fleet, nudgeAt), history);
      FoldDecisions(d, steps, Threshold) <= 2 && FoldDecisions(d, steps, Overflow) <= 2
  {
    var fresh0 := FreshDirector(overhead, fleet, nudgeAt);
    var d := Run(fresh0, history);
    DirectorRunRunsGovernor(fresh0, history);
    DirectorRunRunsGovernor(d, steps);
    RunMeasuresNothingUnder(d, steps);
    G.FoldingIsBounded(false, overhead, RunCalls(fresh0, history), RunCalls(d, steps));
  }
}
