/** The pauseable wall-clock budget of a tool call: a run timer that freezes
    while a permission prompt is open, and a ceiling on the freeze. Time is in
    whole milliseconds. */
module Watchdog {
  import opened Common

  function Minus(a: nat, b: nat): nat {
    if a <= b then 0 else a - b
  }

  /** The closure of one budget; a pending timer is given by when it is due. */
  datatype Timeout = Timeout(
    ceiling: nat,
    remaining: nat,
    startedAt: Option<nat>,
    timer: Option<nat>,
    ceilingTimer: Option<nat>,
    depth: nat,
    generation: nat,
    disposed: bool,
    aborted: bool)
  {
    predicate Ended() {
      disposed || aborted
    }

    function Fire(): Timeout {
      this.(remaining := 0, startedAt := None, timer := None, aborted := true)
    }

    function Arm(now: nat): Timeout {
      if Ended() || depth > 0 then this.(timer := None)
      else if remaining == 0 then Fire()
      else this.(startedAt := Some(now), timer := Some(now + remaining))
    }

    /** The token is the generation of the pause. */
    function Pause(now: nat): Timeout {
      if Ended() then this
      else if depth > 0 then this.(depth := depth + 1)
      else
        this.(depth := 1,
              remaining := if startedAt.Some? then Minus(remaining, Minus(now, startedAt.value)) else remaining,
              startedAt := None, timer := None, ceilingTimer := Some(now + ceiling))
    }

    /** The freeze has lasted too long: whoever still holds it loses it. */
    function CeilingFires(now: nat): Timeout {
      this.(ceilingTimer := None, depth := 0, generation := generation + 1).Arm(now)
    }

    function Resume(token: nat, now: nat): Timeout {
      if Ended() || token != generation || depth == 0 then this
      else if depth > 1 then this.(depth := depth - 1)
      else this.(depth := 0, ceilingTimer := None).Arm(now)
    }

    function ParentAborts(): Timeout {
      this.(aborted := true)
    }

    function Dispose(): Timeout {
      this.(disposed := true, timer := None, ceilingTimer := None)
    }

    /** What is left of the budget at `now`. */
    function Left(now: nat): nat {
      if startedAt.Some? then Minus(remaining, Minus(now, startedAt.value)) else remaining
    }
  }

  /** At least one millisecond, fractions dropped. */
  function Budget(timeoutMs: real): (budget: nat)
    ensures budget >= 1
  {
    if timeoutMs.Floor < 1 then 1 else timeoutMs.Floor
  }

  function Start(timeoutMs: real, ceiling: nat, parentAborted: bool, now: nat): Timeout {
    var initial := Timeout(ceiling, Budget(timeoutMs), None, None, None, 0, 0, false, parentAborted);
    if parentAborted then initial else initial.Arm(now)
  }

  // -------------------------------------------------------------- the object

  class PauseableTimeout {
    const pauseCeilingMs: nat
    var remaining: nat
    var startedAt: Option<nat>
    var timer: Option<nat>
    var ceilingTimer: Option<nat>
    var pauseDepth: nat
    var pauseGeneration: nat
    var disposed: bool
    var aborted: bool

    ghost function View(): Timeout
      reads this
    {
      Timeout(pauseCeilingMs, remaining, startedAt, timer, ceilingTimer, pauseDepth, pauseGeneration, disposed, aborted)
    }

    constructor (timeoutMs: real, ceiling: nat, parentAborted: bool, now: nat)
      ensures View() == Start(timeoutMs, ceiling, parentAborted, now)
    {
      pauseCeilingMs, remaining := ceiling, Budget(timeoutMs);
      startedAt, timer, ceilingTimer := None, None, None;
      pauseDepth, pauseGeneration, disposed, aborted := 0, 0, false, parentAborted;
      new;
      if !parentAborted {
        Arm(now);
      }
    }

    method Fire()
      modifies this
      ensures View() == old(View()).Fire()
    {
      remaining := 0;
      startedAt := None;
      timer := None;
      aborted := true;
    }

    method Arm(now: nat)
      modifies this
      ensures View() == old(View()).Arm(now)
    {
      timer := None;
      if disposed || pauseDepth > 0 || aborted {
        return;
      }
      if remaining == 0 {
        Fire();
        return;
      }
      startedAt := Some(now);
      timer := Some(now + remaining);
    }

    method Pause(now: nat) returns (token: nat)
      modifies this
      ensures View() == old(View()).Pause(now) && token == old(pauseGeneration)
    {
      if disposed || aborted {
        return pauseGeneration;
      }
      pauseDepth := pauseDepth + 1;
      if pauseDepth != 1 {
        return pauseGeneration;
      }
      if startedAt.Some? {
        remaining := Minus(remaining, Minus(now, startedAt.value));
        startedAt := None;
      }
      timer := None;
      ceilingTimer := Some(now + pauseCeilingMs);
      return pauseGeneration;
    }

    method OnCeiling(now: nat)
      modifies this
      ensures View() == old(View()).CeilingFires(now)
    {
      ceilingTimer := None;
      pauseDepth := 0;
      pauseGeneration := pauseGeneration + 1;
      Arm(now);
    }

    method Resume(token: nat, now: nat)
      modifies this
      ensures View() == old(View()).Resume(token, now)
    {
      if disposed || aborted {
        return;
      }
      if token != pauseGeneration || pauseDepth == 0 {
        return;
      }
      pauseDepth := pauseDepth - 1;
      if pauseDepth == 0 {
        ceilingTimer := None;
        Arm(now);
      }
    }

    method OnParentAbort()
      modifies this
      ensures View() == old(View()).ParentAborts()
    {
      aborted := true;
    }

    method Dispose()
      modifies this
      ensures View() == old(View()).Dispose()
    {
      disposed := true;
      timer := None;
      ceilingTimer := None;
    }
  }
}
