/** What a patch leaves: each operation on its own, and which one decides a path. */
module PatchOutcome {
  import opened Common
  import opened PatchSyntax
  import opened PatchApply
  import opened PatchExec

  // --------------------------------------------------- one operation alone

  /** What one operation makes of the files: an added file has its content, a
      deleted one is gone, an updated one has its updated text, at the target and
      not at the source if it moves. A path the guard rejects, a source that is
      not there and a hunk that does not apply are errors. */
  predicate Does(guard: Guard, files: Files, op: PatchOp, r: Result<Files, RunError>) {
    if guard(op.path).None? then r == Err(Blocked(op.path))
    else
      var path := guard(op.path).value;
      match op
      case Add(_, content) => r == Ok(files[path := content])
      case Delete(_) => r == Ok(files - {path})
      case Update(_, moveTo, hunks) =>
        if path !in files then r == Err(CannotRead(op.path))
        else
          match UpdatedText(files[path], hunks)
          case Err(e) => r == Err(HunkFailed(e))
          case Ok(text) =>
            match moveTo
            case None => r == Ok(files[path := text])
            case Some(target) =>
              match guard(target)
              case None => r == Err(Blocked(target))
              case Some(resolved) => r == Ok(files[resolved := text] - {path})
  }

  function Alone(guard: Guard, files: Files, op: PatchOp): Result<Files, RunError> {
    PlanThenWrite(guard, files, [op])
  }

  lemma ExecuteMove(files: Files, target: string, text: string, source: string)
    ensures Execute(files, [Write(target, text), Remove(source)]) == files[target := text] - {source}
  {
    var steps := [Write(target, text), Remove(source)];
    assert steps[1..] == [Remove(source)];
    ExecuteOne(files[target := text], Remove(source));
  }

  lemma OneOperation(guard: Guard, files: Files, op: PatchOp)
    ensures Does(guard, files, op, Alone(guard, files, op))
  {
    var planned := PlanOp(guard, files, op);
    assert PlanAll(guard, files, [op][1..]) == Ok([]);
    if planned.Ok? {
      var steps := planned.value;
      RunOne(guard, files, op, steps);
      if |steps| == 1 {
        assert steps == [steps[0]];
        ExecuteOne(files, steps[0]);
      } else {
        ExecuteMove(files, steps[0].path, steps[0].content, steps[1].path);
      }
    }
  }

  // -------------------------------------------------- whole patches: errors

  lemma AloneFails(guard: Guard, files: Files, op: PatchOp)
    ensures Alone(guard, files, op).Ok? == PlanOp(guard, files, op).Ok?
    ensures Alone(guard, files, op).Err? ==> Alone(guard, files, op).error == PlanOp(guard, files, op).error
  {
    assert PlanAll(guard, files, [op][1..]) == Ok([]);
  }

  /** The first `n` operations each succeed on the files as they are. */
  predicate AllSucceed(guard: Guard, files: Files, ops: seq<PatchOp>, n: nat)
    requires n <= |ops|
  {
    forall k :: 0 <= k < n ==> Alone(guard, files, ops[k]).Ok?
  }

  lemma {:induction false} PlansUpTo(guard: Guard, files: Files, ops: seq<PatchOp>)
    ensures PlanAll(guard, files, ops).Ok? <==> forall k :: 0 <= k < |ops| ==> PlanOp(guard, files, ops[k]).Ok?
    ensures PlanAll(guard, files, ops).Err? ==>
              exists k :: 0 <= k < |ops| && PlanOp(guard, files, ops[k]) == Err(PlanAll(guard, files, ops).error)
                          && forall j :: 0 <= j < k ==> PlanOp(guard, files, ops[j]).Ok?
  {
    if ops != [] && PlanOp(guard, files, ops[0]).Ok? {
      PlansUpTo(guard, files, ops[1..]);
      forall k | 0 <= k < |ops[1..]|
        ensures ops[1..][k] == ops[k + 1]
      {
      }
      if PlanAll(guard, files, ops[1..]).Err? {
        var k :| 0 <= k < |ops[1..]| && PlanOp(guard, files, ops[1..][k]) == Err(PlanAll(guard, files, ops[1..]).error)
                 && forall j :: 0 <= j < k ==> PlanOp(guard, files, ops[1..][j]).Ok?;
        forall j | 0 <= j < k + 1
          ensures PlanOp(guard, files, ops[j]).Ok?
        {
          assert j > 0 ==> ops[j] == ops[1..][j - 1];
        }
        assert PlanOp(guard, files, ops[k + 1]) == Err(PlanAll(guard, files, ops).error);
      }
    }
  }

  /** A patch succeeds exactly when each of its operations would, alone on the
      files as they are; otherwise the first that would not gives the error. */
  lemma FirstErrorStopsThePatch(guard: Guard, files: Files, ops: seq<PatchOp>)
    ensures PlanThenWrite(guard, files, ops).Ok? <==> AllSucceed(guard, files, ops, |ops|)
    ensures PlanThenWrite(guard, files, ops).Err? ==>
              exists k :: 0 <= k < |ops| && AllSucceed(guard, files, ops, k)
                          && Alone(guard, files, ops[k]) == Err(PlanThenWrite(guard, files, ops).error)
  {
    PlansUpTo(guard, files, ops);
    forall k | 0 <= k < |ops|
      ensures Alone(guard, files, ops[k]).Ok? == PlanOp(guard, files, ops[k]).Ok?
      ensures Alone(guard, files, ops[k]).Err? ==> Alone(guard, files, ops[k]).error == PlanOp(guard, files, ops[k]).error
    {
      AloneFails(guard, files, ops[k]);
    }
    if PlanThenWrite(guard, files, ops).Err? {
      var k :| 0 <= k < |ops| && PlanOp(guard, files, ops[k]) == Err(PlanAll(guard, files, ops).error)
               && forall j :: 0 <= j < k ==> PlanOp(guard, files, ops[j]).Ok?;
      assert AllSucceed(guard, files, ops, k);
    }
  }

  // --------------------------------------------------- whole patches: files

  lemma {:induction false} PlanSplits(guard: Guard, files: Files, ops: seq<PatchOp>, k: nat) returns (front: seq<Planned>)
    requires k < |ops| && PlanAll(guard, files, ops).Ok?
    ensures PlanOp(guard, files, ops[k]).Ok? && PlanAll(guard, files, ops[k + 1..]).Ok?
    ensures PlanAll(guard, files, ops).value
            == front + (PlanOp(guard, files, ops[k]).value + PlanAll(guard, files, ops[k + 1..]).value)
    decreases k
  {
    hide PlanOp;
    if k == 0 {
      front := [];
      assert PlanAll(guard, files, ops).value == PlanOp(guard, files, ops[0]).value + PlanAll(guard, files, ops[1..]).value;
    } else {
      var first := PlanOp(guard, files, ops[0]).value;
      var rest := PlanSplits(guard, files, ops[1..], k - 1);
      assert ops[1..][k - 1] == ops[k] && ops[1..][k - 1 + 1..] == ops[k + 1..];
      var later := PlanOp(guard, files, ops[k]).value + PlanAll(guard, files, ops[k + 1..]).value;
      assert PlanAll(guard, files, ops).value == first + (rest + later);
      front := first + rest;
      Associates(first, rest, later);
    }
  }

  /** The last step on a path decides it, whatever was there before. */
  lemma {:induction false} StepsDecide(a: Files, b: Files, steps: seq<Planned>, path: string)
    requires (exists i :: 0 <= i < |steps| && steps[i].path == path) || TextAt(a, path) == TextAt(b, path)
    ensures TextAt(Execute(a, steps), path) == TextAt(Execute(b, steps), path)
    decreases |steps|
  {
    if steps != [] {
      if steps[0].path != path && TextAt(a, path) != TextAt(b, path) {
        var i :| 0 <= i < |steps| && steps[i].path == path;
        assert steps[1..][i - 1].path == path;
      }
      StepsDecide(ExecuteStep(a, steps[0]), ExecuteStep(b, steps[0]), steps[1..], path);
    }
  }

  /** Every path an operation resolves has a step of its plan. */
  lemma TouchedHasStep(guard: Guard, files: Files, op: PatchOp, path: string)
    requires PlanOp(guard, files, op).Ok? && Touches(guard, op, path)
    ensures var steps := PlanOp(guard, files, op).value; exists i :: 0 <= i < |steps| && steps[i].path == path
  {
    var steps := PlanOp(guard, files, op).value;
    var p :| p in MentionedBy(op) && guard(p) == Some(path);
    if p == op.path {
      assert steps[|steps| - 1].path == path;
    } else {
      assert steps[0].path == path;
    }
  }

  lemma {:induction false} LaterPlansMiss(guard: Guard, files: Files, ops: seq<PatchOp>, path: string)
    requires PlanAll(guard, files, ops).Ok? && forall j :: 0 <= j < |ops| ==> !Touches(guard, ops[j], path)
    ensures var steps := PlanAll(guard, files, ops).value; forall i :: 0 <= i < |steps| ==> steps[i].path != path
  {
    if ops != [] {
      PlanTouches(guard, files, ops[0]);
      LaterPlansMiss(guard, files, ops[1..], path);
    }
  }

  /** In a patch that succeeds, the last operation to touch a path decides it: it
      leaves it as it would alone on the files as they were. */
  lemma LastOperationDecides(guard: Guard, files: Files, ops: seq<PatchOp>, k: nat, path: string)
    requires PlanThenWrite(guard, files, ops).Ok? && k < |ops| && Touches(guard, ops[k], path)
    requires forall j :: k < j < |ops| ==> !Touches(guard, ops[j], path)
    ensures Alone(guard, files, ops[k]).Ok?
    ensures TextAt(PlanThenWrite(guard, files, ops).value, path) == TextAt(Alone(guard, files, ops[k]).value, path)
  {
    var front := PlanSplits(guard, files, ops, k);
    var mine, later := PlanOp(guard, files, ops[k]).value, PlanAll(guard, files, ops[k + 1..]).value;
    var before := Execute(files, front);
    ExecuteAppend(files, front, mine + later);
    ExecuteAppend(before, mine, later);
    LaterPlansMiss(guard, files, ops[k + 1..], path);
    ExecuteFrame(Execute(before, mine), later, path);
    TouchedHasStep(guard, files, ops[k], path);
    StepsDecide(before, files, mine, path);
    RunOne(guard, files, ops[k], mine);
  }

  // ------------------------------------------------------ separate paths

  /** No two operations touch the same file. */
  ghost predicate Separate(guard: Guard, ops: seq<PatchOp>) {
    forall i, j, p :: 0 <= i < j < |ops| && Touches(guard, ops[i], p) ==> !Touches(guard, ops[j], p)
  }

  /** What the files say of one operation afterwards. */
  predicate Shows(guard: Guard, files: Files, op: PatchOp, after: Files) {
    guard(op.path).Some? &&
    var path := guard(op.path).value;
    match op
    case Add(_, content) => TextAt(after, path) == Some(content)
    case Delete(_) => path !in after
    case Update(_, moveTo, hunks) =>
      && path in files && UpdatedText(files[path], hunks).Ok?
      && (moveTo.None? ==> TextAt(after, path) == Some(UpdatedText(files[path], hunks).value))
      && (moveTo.Some? ==>
            && guard(moveTo.value).Some? && path !in after
            && (guard(moveTo.value).value != path ==>
                  TextAt(after, guard(moveTo.value).value) == Some(UpdatedText(files[path], hunks).value)))
  }

  lemma AloneShows(guard: Guard, files: Files, op: PatchOp)
    requires Alone(guard, files, op).Ok?
    ensures Shows(guard, files, op, Alone(guard, files, op).value)
  {
    OneOperation(guard, files, op);
  }

  lemma SameTextsShow(guard: Guard, files: Files, op: PatchOp, a: Files, b: Files)
    requires Shows(guard, files, op, a) && forall p :: Touches(guard, op, p) ==> TextAt(a, p) == TextAt(b, p)
    ensures Shows(guard, files, op, b)
  {
    assert op.path in MentionedBy(op) && Touches(guard, op, guard(op.path).value);
    if op.Update? && op.moveTo.Some? {
      assert op.moveTo.value in MentionedBy(op) && Touches(guard, op, guard(op.moveTo.value).value);
    }
  }

  /** When no two operations touch the same file, a patch that succeeds shows every
      one of them: each added file has its content, each deleted one is gone, each
      updated one has its updated text where it belongs. */
  lemma EveryOperationShows(guard: Guard, files: Files, ops: seq<PatchOp>, k: nat)
    requires Separate(guard, ops) && PlanThenWrite(guard, files, ops).Ok? && k < |ops|
    ensures Shows(guard, files, ops[k], PlanThenWrite(guard, files, ops).value)
  {
    var after := PlanThenWrite(guard, files, ops).value;
    var _ := PlanSplits(guard, files, ops, k);
    AloneFails(guard, files, ops[k]);
    AloneShows(guard, files, ops[k]);
    forall p | Touches(guard, ops[k], p)
      ensures TextAt(Alone(guard, files, ops[k]).value, p) == TextAt(after, p)
    {
      LastOperationDecides(guard, files, ops, k, p);
    }
    SameTextsShow(guard, files, ops[k], Alone(guard, files, ops[k]).value, after);
  }
}
