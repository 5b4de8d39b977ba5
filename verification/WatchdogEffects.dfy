/** What each call and timer changes of a pauseable budget, field by field, and
    how a budget ends. */
module WatchdogEffects {
  import opened Common
  import opened Watchdog
  import opened WatchdogRuns

  predicate Live(w: World) {
    !w.t.disposed && !w.t.aborted
  }

  /** The first pause of a freeze. */
  predicate Freezes(w: World, step: Step) {
    step.PauseCall? && Live(w) && w.t.depth == 0
  }

  /** The last resume of a freeze, by a token of its generation. */
  predicate Thaws(w: World, step: Step) {
    step.ResumeCall? && Live(w) && step.token == w.t.generation && w.t.depth == 1
  }

  /** The clock is to run again: on the last resume, or by force. */
  predicate Reruns(w: World, step: Step) {
    Live(w) && (Thaws(w, step) || step.CeilingTimer?)
  }

  /** Nothing is left to run on. */
  predicate Expires(w: World, step: Step) {
    step.BudgetTimer? || (Reruns(w, step) && w.t.remaining == 0)
  }

  /** The budget less the time since it last started running. */
  function LeftNow(w: World): nat {
    if w.t.startedAt.None? then w.t.remaining
    else
      var ran := w.now - w.t.startedAt.value;
      if ran <= 0 then w.t.remaining else if ran >= w.t.remaining then 0 else w.t.remaining - ran
  }

  predicate ClockAfter(w: World, step: Step, t: Timeout) {
    var starts, expires := Reruns(w, step) && w.t.remaining > 0, Expires(w, step);
    && t.timer == (if starts then Some(w.now + w.t.remaining)
                   else if expires || Freezes(w, step) || step.CeilingTimer? || step.Disposal? then None
                   else w.t.timer)
    && t.startedAt == (if starts then Some(w.now) else if expires || Freezes(w, step) then None else w.t.startedAt)
    && t.remaining == (if expires then 0 else if Freezes(w, step) then LeftNow(w) else w.t.remaining)
  }

  predicate FreezeAfter(w: World, step: Step, t: Timeout) {
    && t.ceiling == w.t.ceiling
    && t.ceilingTimer == (if Freezes(w, step) then Some(w.now + w.t.ceiling)
                          else if Thaws(w, step) || step.CeilingTimer? || step.Disposal? then None
                          else w.t.ceilingTimer)
    && t.generation == w.t.generation + (if step.CeilingTimer? then 1 else 0)
    && t.depth == (if step.CeilingTimer? then 0
                   else if step.PauseCall? && Live(w) then w.t.depth + 1
                   else if step.ResumeCall? && Live(w) && step.token == w.t.generation && w.t.depth > 0 then w.t.depth - 1
                   else w.t.depth)
  }

  predicate EndAfter(w: World, step: Step, t: Timeout) {
    && t.aborted == (w.t.aborted || step.ParentAbort? || Expires(w, step))
    && t.disposed == (w.t.disposed || step.Disposal?)
  }

  predicate Effects(w: World, step: Step, t: Timeout) {
    ClockAfter(w, step, t) && FreezeAfter(w, step, t) && EndAfter(w, step, t)
  }

  lemma PauseEffects(w: World)
    ensures Effects(w, PauseCall, Next(w, PauseCall).t)
  {
  }

  lemma ResumeEffects(w: World, token: nat)
    ensures Effects(w, ResumeCall(token), Next(w, ResumeCall(token)).t)
  {
  }

  lemma CeilingEffects(w: World)
    ensures Effects(w, CeilingTimer, Next(w, CeilingTimer).t)
  {
  }

  lemma OtherEffects(w: World, step: Step)
    requires step.Tick? || step.BudgetTimer? || step.ParentAbort? || step.Disposal?
    ensures Effects(w, step, Next(w, step).t)
  {
  }

  /** The clock stops with the first pause and runs again on what was left then,
      with the last resume or when the freeze has lasted its ceiling; a budget with
      nothing left aborts instead; every call and timer leaves the rest alone. */
  lemma StepEffects(w: World, step: Step)
    ensures Effects(w, step, Next(w, step).t)
  {
    hide Next, ClockAfter, FreezeAfter, EndAfter;
    match step
    case PauseCall => PauseEffects(w);
    case ResumeCall(token) => ResumeEffects(w, token);
    case CeilingTimer => CeilingEffects(w);
    case _ => OtherEffects(w, step);
  }

  // ------------------------------------------------------------ how it ends

  lemma {:induction false} AbortIsFinal(w: World, steps: seq<Step>)
    requires Possible(w, steps) && w.t.aborted
    ensures Run(w, steps).t.aborted
    decreases |steps|
  {
    if steps != [] {
      StepEffects(w, steps[0]);
      AbortIsFinal(Next(w, steps[0]), steps[1..]);
    }
  }

  predicate Silent(t: Timeout) {
    t.disposed && t.timer == None && t.ceilingTimer == None
  }

  lemma {:induction false} SilenceLasts(w: World, steps: seq<Step>)
    requires Possible(w, steps) && Silent(w.t)
    ensures Silent(Run(w, steps).t)
    ensures Run(w, steps).t.aborted <==> w.t.aborted || exists i :: 0 <= i < |steps| && steps[i] == ParentAbort
    decreases |steps|
  {
    if steps != [] {
      var next := Next(w, steps[0]);
      StepEffects(w, steps[0]);
      SilenceLasts(next, steps[1..]);
      if exists i :: 0 <= i < |steps| && steps[i] == ParentAbort {
        var i :| 0 <= i < |steps| && steps[i] == ParentAbort;
        assert i > 0 ==> steps[1..][i - 1] == ParentAbort;
      }
    }
  }

  /** A disposed budget never runs a timer again, whatever is called afterwards,
      and only the parent can still abort its signal. */
  lemma DisposalIsSilent(w: World, steps: seq<Step>)
    requires Possible(Next(w, Disposal), steps)
    ensures var t := Run(Next(w, Disposal), steps).t;
      && t.timer == None && t.ceilingTimer == None
      && (t.aborted <==> w.t.aborted || exists i :: 0 <= i < |steps| && steps[i] == ParentAbort)
  {
    StepEffects(w, Disposal);
    SilenceLasts(Next(w, Disposal), steps);
  }
}
