/** Running a patch against the files: every operation is planned against the
    files as they are, and only then is anything written. */
module PatchExec {
  import opened Common
  import opened PatchSyntax
  import opened PatchApply
  import opened PatchParser

  /** The files by resolved path. */
  type Files = map<string, string>

  /** What the workspace guard makes of a path in the patch: the resolved
      path, or None when policy rejects it. */
  type Guard = string -> Option<string>

  datatype Planned = Write(path: string, content: string) | Remove(path: string)

  datatype RunError =
    | BadPatch(parseError: ParseError)
    | Blocked(path: string)
    | CannotRead(path: string)
    | HunkFailed(applyError: ApplyError)

  function Resolve(guard: Guard, path: string): Result<string, RunError> {
    match guard(path)
    case None => Err(Blocked(path))
    case Some(resolved) => Ok(resolved)
  }

  function TextAt(files: Files, path: string): Option<string> {
    if path in files then Some(files[path]) else None
  }

  function PlanUpdate(guard: Guard, path: string, source: string, original: Option<string>,
                      moveTo: Option<string>, hunks: seq<Hunk>): Result<seq<Planned>, RunError>
  {
    if original.None? then Err(CannotRead(path))
    else
      var updated := UpdatedText(original.value, hunks);
      if updated.Err? then Err(HunkFailed(updated.error))
      else if moveTo.None? then Ok([Write(source, updated.value)])
      else
        var target :- Resolve(guard, moveTo.value);
        Ok([Write(target, updated.value), Remove(source)])
  }

  function PlanOp(guard: Guard, files: Files, op: PatchOp): Result<seq<Planned>, RunError> {
    match op
    case Add(path, content) =>
      var target :- Resolve(guard, path);
      Ok([Write(target, content)])
    case Delete(path) =>
      var target :- Resolve(guard, path);
      Ok([Remove(target)])
    case Update(path, moveTo, hunks) =>
      var source :- Resolve(guard, path);
      PlanUpdate(guard, path, source, TextAt(files, source), moveTo, hunks)
  }

  function PlanAll(guard: Guard, files: Files, ops: seq<PatchOp>): Result<seq<Planned>, RunError> {
    if ops == [] then Ok([])
    else
      var first :- PlanOp(guard, files, ops[0]);
      var rest :- PlanAll(guard, files, ops[1..]);
      Ok(first + rest)
  }

  function ExecuteStep(files: Files, step: Planned): Files {
    match step
    case Write(path, content) => files[path := content]
    case Remove(path) => files - {path}
  }

  function Execute(files: Files, steps: seq<Planned>): Files
    decreases |steps|
  {
    if steps == [] then files else Execute(ExecuteStep(files, steps[0]), steps[1..])
  }

  /** Plan everything, then write. */
  function PlanThenWrite(guard: Guard, files: Files, ops: seq<PatchOp>): Result<Files, RunError> {
    var steps :- PlanAll(guard, files, ops);
    Ok(Execute(files, steps))
  }

  /** The simple form: one operation after the other, each on the files the
      previous one left. */
  function OneByOne(guard: Guard, files: Files, ops: seq<PatchOp>): Result<Files, RunError>
    decreases |ops|
  {
    if ops == [] then Ok(files)
    else
      var steps :- PlanOp(guard, files, ops[0]);
      OneByOne(guard, Execute(files, steps), ops[1..])
  }

  // ------------------------------------------------- paths an op touches

  function MentionedBy(op: PatchOp): seq<string> {
    [op.path] + if op.Update? && op.moveTo.Some? then [op.moveTo.value] else []
  }

  function Mentioned(ops: seq<PatchOp>): seq<string> {
    if ops == [] then [] else Mentioned(ops[..|ops| - 1]) + MentionedBy(ops[|ops| - 1])
  }

  /** Every path once, in encounter order. */
  function AffectedPaths(ops: seq<PatchOp>): seq<string> {
    Distinct(Mentioned(ops))
  }

  ghost predicate Touches(guard: Guard, op: PatchOp, resolved: string) {
    exists p :: p in MentionedBy(op) && guard(p) == Some(resolved)
  }

  // -------------------------------------------- refinement and framing

  lemma {:induction false} ExecuteAppend(files: Files, first: seq<Planned>, rest: seq<Planned>)
    ensures Execute(files, first + rest) == Execute(Execute(files, first), rest)
    decreases |first|
  {
    if first == [] {
      assert [] + rest == rest;
    } else {
      ExecuteAppend(ExecuteStep(files, first[0]), first[1..], rest);
      assert (first + rest)[1..] == first[1..] + rest;
    }
  }

  lemma {:induction false} ExecuteFrame(files: Files, steps: seq<Planned>, path: string)
    requires forall i :: 0 <= i < |steps| ==> steps[i].path != path
    ensures TextAt(files, path) == TextAt(Execute(files, steps), path)
    decreases |steps|
  {
    if steps != [] {
      ExecuteFrame(ExecuteStep(files, steps[0]), steps[1..], path);
      assert steps[0].path != path;
    }
  }

  lemma PlanTouches(guard: Guard, files: Files, op: PatchOp)
    requires PlanOp(guard, files, op).Ok?
    ensures var steps := PlanOp(guard, files, op).value;
            forall i :: 0 <= i < |steps| ==> Touches(guard, op, steps[i].path)
  {
    var steps := PlanOp(guard, files, op).value;
    forall i | 0 <= i < |steps| ensures Touches(guard, op, steps[i].path) {
      assert op.path in MentionedBy(op);
      if op.Update? && op.moveTo.Some? {
        assert op.moveTo.value in MentionedBy(op);
      }
    }
  }

  /** No update reads a file that an earlier operation of the patch touches. */
  ghost predicate ReadsAreFresh(guard: Guard, ops: seq<PatchOp>) {
    forall i, j, source :: 0 <= i < j < |ops| && ops[j].Update? && guard(ops[j].path) == Some(source)
      ==> !Touches(guard, ops[i], source)
  }

  lemma PlanReadsOnlySource(guard: Guard, a: Files, b: Files, op: PatchOp)
    requires op.Update? && guard(op.path).Some? ==>
               TextAt(a, guard(op.path).value) == TextAt(b, guard(op.path).value)
    ensures PlanOp(guard, a, op) == PlanOp(guard, b, op)
  {
  }

  lemma {:induction false} PlanAllReadsOnlySources(guard: Guard, a: Files, b: Files, ops: seq<PatchOp>)
    requires forall j, source :: 0 <= j < |ops| && ops[j].Update? && guard(ops[j].path) == Some(source)
               ==> TextAt(a, source) == TextAt(b, source)
    ensures PlanAll(guard, a, ops) == PlanAll(guard, b, ops)
  {
    if ops != [] {
      PlanReadsOnlySource(guard, a, b, ops[0]);
      forall j, source | 0 <= j < |ops[1..]| && ops[1..][j].Update? && guard(ops[1..][j].path) == Some(source)
        ensures TextAt(a, source) == TextAt(b, source)
      {
        assert ops[1..][j] == ops[j + 1];
      }
      PlanAllReadsOnlySources(guard, a, b, ops[1..]);
    }
  }

  /** When no update reads what an earlier operation touches, planning first
      and writing after gives the same files, or the same error, as applying
      the operations one by one. */
  lemma {:induction false} PlanThenWriteRefinesOneByOne(guard: Guard, files: Files, ops: seq<PatchOp>)
    requires ReadsAreFresh(guard, ops)
    ensures PlanThenWrite(guard, files, ops) == OneByOne(guard, files, ops)
    decreases |ops|
  {
    if ops != [] {
      var first := PlanOp(guard, files, ops[0]);
      if first.Ok? {
        var after := Execute(files, first.value);
        PlanTouches(guard, files, ops[0]);
        forall j, source | 0 <= j < |ops[1..]| && ops[1..][j].Update? && guard(ops[1..][j].path) == Some(source)
          ensures TextAt(files, source) == TextAt(after, source)
        {
          assert ops[1..][j] == ops[j + 1];
          assert !Touches(guard, ops[0], source);
          ExecuteFrame(files, first.value, source);
        }
        PlanAllReadsOnlySources(guard, files, after, ops[1..]);
        forall i, j, source | 0 <= i < j < |ops[1..]| && ops[1..][j].Update? && guard(ops[1..][j].path) == Some(source)
          ensures !Touches(guard, ops[1..][i], source)
        {
          assert ops[1..][i] == ops[i + 1] && ops[1..][j] == ops[j + 1];
        }
        PlanThenWriteRefinesOneByOne(guard, after, ops[1..]);
        var rest := PlanAll(guard, files, ops[1..]);
        if rest.Ok? {
          ExecuteAppend(files, first.value, rest.value);
        }
      }
    }
  }

  /** Pairwise distinct resolved paths are more than enough. */
  lemma DistinctPathsAreFresh(guard: Guard, ops: seq<PatchOp>)
    requires forall i, j, p :: 0 <= i < j < |ops| && Touches(guard, ops[i], p) ==> !Touches(guard, ops[j], p)
    ensures ReadsAreFresh(guard, ops)
  {
    forall i, j, source | 0 <= i < j < |ops| && ops[j].Update? && guard(ops[j].path) == Some(source)
      ensures !Touches(guard, ops[i], source)
    {
      assert ops[j].path in MentionedBy(ops[j]);
      assert Touches(guard, ops[j], source);
    }
  }

  function AnyPath(path: string): Option<string> {
    Some(path)
  }

  /** A lone added line goes to the top of a file that ends in a newline. */
  lemma InsertAtTop(original: string, text: string) returns (op: PatchOp)
    requires |original| > 1 && original[|original| - 1] == '\n'
    ensures op == Update("f", None, [Hunk(None, [HunkLine(Added, text)], false)])
    ensures PlanOp(AnyPath, map["f" := original], op) == Ok([Write("f", text + "\n" + original)])
  {
    var hunk := Hunk(None, [HunkLine(Added, text)], false);
    op := Update("f", None, [hunk]);
    var lines := ReadLines(original);
    assert OldLines(hunk.lines) == [] && NewLines(hunk.lines) == [text];
    assert ApplyHunk(Progress(lines, 0), hunk) == Ok(Splice(lines, 0, 0, [text]));
    assert Splice(lines, 0, 0, [text]).lines == [text] + lines;
    var body := original[..|original| - 1];
    Text.JoinSplit(body);
    Text.TerminateIsJoin(lines);
    assert body + "\n" == original;
    assert ([text] + lines)[1..] == lines;
    assert ApplyHunks(Progress(lines, 0), [hunk]) == ApplyHunks(Splice(lines, 0, 0, [text]), []);
  }

  lemma ExecuteOne(files: Files, step: Planned)
    ensures Execute(files, [step]) == ExecuteStep(files, step)
  {
    assert Execute(files, [step]) == Execute(ExecuteStep(files, step), []);
  }

  /** Planning two operations that take one step each, and running the steps. */
  lemma PlanTwo(guard: Guard, files: Files, first: PatchOp, second: PatchOp, a: Planned, b: Planned)
    requires PlanOp(guard, files, first) == Ok([a]) && PlanOp(guard, files, second) == Ok([b])
    ensures PlanThenWrite(guard, files, [first, second]) == Ok(ExecuteStep(ExecuteStep(files, a), b))
  {
    var rest := PlanAll(guard, files, [second]);
    assert PlanAll(guard, files, [second][1..]) == Ok([]);
    assert rest == Ok([b] + []) && [b] + [] == [b];
    assert [first, second][1..] == [second];
    assert PlanAll(guard, files, [first, second]) == Ok([a] + [b]);
    ExecuteAppend(files, [a], [b]);
    ExecuteOne(files, a);
    ExecuteOne(ExecuteStep(files, a), b);
  }

  lemma RunTwo(guard: Guard, files: Files, first: PatchOp, second: PatchOp, a: Planned, c: Planned)
    requires PlanOp(guard, files, first) == Ok([a]) && PlanOp(guard, ExecuteStep(files, a), second) == Ok([c])
    ensures OneByOne(guard, files, [first, second]) == Ok(ExecuteStep(ExecuteStep(files, a), c))
  {
    var mid := ExecuteStep(files, a);
    ExecuteOne(files, a);
    ExecuteOne(mid, c);
    assert [first, second][1..] == [second] && [second][1..] == [];
    assert OneByOne(guard, mid, [second]) == OneByOne(guard, ExecuteStep(mid, c), []);
  }

  predicate UpdatesF(op: PatchOp) {
    op.Update? && op.path == "f"
  }

  /** `op` inserts `text` at the top of the file f when it reads `a` or `b` there. */
  ghost predicate InsertsAtTop(op: PatchOp, text: string, a: string, b: string) {
    && UpdatesF(op)
    && PlanOp(AnyPath, map["f" := a], op) == Ok([Write("f", text + "\n" + a)])
    && PlanOp(AnyPath, map["f" := b], op) == Ok([Write("f", text + "\n" + b)])
  }

  lemma InsertExists(text: string, a: string, b: string) returns (op: PatchOp)
    requires |a| > 1 && a[|a| - 1] == '\n' && |b| > 1 && b[|b| - 1] == '\n'
    ensures InsertsAtTop(op, text, a, b)
  {
    op := InsertAtTop(a, text);
    var _ := InsertAtTop(b, text);
  }

  /** An update without a move is planned as one write of the updated text. */
  lemma UpdatePlansOneWrite(guard: Guard, files: Files, path: string, hunks: seq<Hunk>)
    requires guard(path).Some? && guard(path).value in files && UpdatedText(files[guard(path).value], hunks).Ok?
    ensures var source := guard(path).value;
      PlanOp(guard, files, Update(path, None, hunks)) == Ok([Write(source, UpdatedText(files[source], hunks).value)])
  {
  }

  lemma RunFirst(guard: Guard, files: Files, first: PatchOp, second: PatchOp, a: Planned)
    requires PlanOp(guard, files, first) == Ok([a])
    ensures OneByOne(guard, files, [first, second]) == OneByOne(guard, ExecuteStep(files, a), [second])
  {
    ExecuteOne(files, a);
    assert [first, second][1..] == [second];
  }

  /** Two updates run one by one: the second reads what the first wrote. */
  lemma UpdatesOneByOne(guard: Guard, files: Files, p: string, q: string, h1: seq<Hunk>, h2: seq<Hunk>)
    requires guard(p).Some? && guard(p).value in files && UpdatedText(files[guard(p).value], h1).Ok?
    requires guard(q).Some? && guard(q).value in files
    ensures var s1, s2 := guard(p).value, guard(q).value;
      var mid := files[s1 := UpdatedText(files[s1], h1).value];
      var read := UpdatedText(mid[s2], h2);
      OneByOne(guard, files, [Update(p, None, h1), Update(q, None, h2)])
      == if read.Ok? then Ok(mid[s2 := read.value]) else Err(HunkFailed(read.error))
  {
    var s1, s2 := guard(p).value, guard(q).value;
    var first, second := Update(p, None, h1), Update(q, None, h2);
    var a := Write(s1, UpdatedText(files[s1], h1).value);
    var mid := ExecuteStep(files, a);
    UpdatePlansOneWrite(guard, files, p, h1);
    RunFirst(guard, files, first, second, a);
    if UpdatedText(mid[s2], h2).Ok? {
      var b := Write(s2, UpdatedText(mid[s2], h2).value);
      UpdatePlansOneWrite(guard, mid, q, h2);
      ExecuteOne(mid, b);
      assert [second][1..] == [];
      assert OneByOne(guard, mid, [second]) == OneByOne(guard, ExecuteStep(mid, b), []);
    }
  }

  /** Two updates of a patch each write what they make of the file as it was
      before the patch. So the first one's text survives exactly when the second
      names another file or makes the same text; when both name one file the run is
      that of the second alone; and the run is the one-by-one run exactly when
      the files differ or the second makes of the first one's text what it makes of
      the original. */
  lemma SecondUpdateReplacesTheFirst(guard: Guard, files: Files, p: string, q: string, h1: seq<Hunk>, h2: seq<Hunk>)
    requires guard(p).Some? && guard(p).value in files && UpdatedText(files[guard(p).value], h1).Ok?
    requires guard(q).Some? && guard(q).value in files && UpdatedText(files[guard(q).value], h2).Ok?
    ensures var s1, s2 := guard(p).value, guard(q).value;
      var t1, t2 := UpdatedText(files[s1], h1).value, UpdatedText(files[s2], h2).value;
      var first, second := Update(p, None, h1), Update(q, None, h2);
      var run := PlanThenWrite(guard, files, [first, second]);
      && run == Ok(files[s1 := t1][s2 := t2])
      && (TextAt(run.value, s1) == Some(t1) <==> s1 != s2 || t1 == t2)
      && (s1 == s2 ==> run == PlanThenWrite(guard, files, [second]))
      && (run == OneByOne(guard, files, [first, second]) <==> s1 != s2 || UpdatedText(t1, h2) == Ok(t2))
  {
    var s1, s2 := guard(p).value, guard(q).value;
    var t1, t2 := UpdatedText(files[s1], h1).value, UpdatedText(files[s2], h2).value;
    var first, second := Update(p, None, h1), Update(q, None, h2);
    UpdatePlansOneWrite(guard, files, p, h1);
    UpdatePlansOneWrite(guard, files, q, h2);
    PlanTwo(guard, files, first, second, Write(s1, t1), Write(s2, t2));
    RunOne(guard, files, second, [Write(s2, t2)]);
    ExecuteOne(files, Write(s2, t2));
    UpdatesOneByOne(guard, files, p, q, h1, h2);
    var read := UpdatedText(files[s1 := t1][s2], h2);
    SameWrites(files, s1, s2, t1, t2, if read.Ok? then read.value else t2);
  }

  /** Writing one file twice is writing it last, and the last text shows. */
  lemma SameWrites(files: Files, s1: string, s2: string, t1: string, t2: string, u: string)
    ensures s1 == s2 ==> files[s1 := t1][s2 := t2] == files[s2 := t2]
    ensures files[s1 := t1][s2 := u] == files[s1 := t1][s2 := t2] <==> u == t2
  {
    assert files[s1 := t1][s2 := u][s2] == u;
  }

  /** An insertion at the top shows it: each update inserts a line, and only the
      second line is there afterwards, where one-by-one application keeps both. */
  lemma SecondUpdateLosesTheFirst(original: string, x: string, y: string)
    requires |original| > 1 && original[|original| - 1] == '\n'
    ensures exists first, second ::
      && UpdatesF(first) && UpdatesF(second)
      && PlanThenWrite(AnyPath, map["f" := original], [first, second]) == Ok(map["f" := y + "\n" + original])
      && OneByOne(AnyPath, map["f" := original], [first, second]) == Ok(map["f" := y + "\n" + (x + "\n" + original)])
  {
    var files := map["f" := original];
    var withX := x + "\n" + original;
    var first := InsertExists(x, original, original);
    var second := InsertExists(y, original, withX);
    var a, b, c := Write("f", withX), Write("f", y + "\n" + original), Write("f", y + "\n" + withX);
    assert ExecuteStep(files, a) == map["f" := withX];
    assert ExecuteStep(map["f" := withX], b) == map["f" := y + "\n" + original];
    assert ExecuteStep(map["f" := withX], c) == map["f" := y + "\n" + withX];
    PlanTwo(AnyPath, files, first, second, a, b);
    RunTwo(AnyPath, files, first, second, a, c);
  }

  lemma {:induction false} MentionedContains(ops: seq<PatchOp>, k: nat, p: string)
    requires k < |ops| && p in MentionedBy(ops[k])
    ensures p in Mentioned(ops)
    decreases |ops|
  {
    if k < |ops| - 1 {
      MentionedContains(ops[..|ops| - 1], k, p);
    }
  }

  /** An update that moves a file leaves the updated text at the target exactly
      when the target is another file; moved onto itself the file is written
      and then removed as the source of the move. */
  lemma MoveArrivesUnlessOntoItself(guard: Guard, files: Files, path: string, moveTo: string, hunks: seq<Hunk>)
    requires guard(path).Some? && guard(moveTo).Some?
    requires guard(path).value in files && UpdatedText(files[guard(path).value], hunks).Ok?
    ensures var source, target := guard(path).value, guard(moveTo).value;
      var updated := UpdatedText(files[source], hunks).value;
      var run := PlanThenWrite(guard, files, [Update(path, Some(moveTo), hunks)]);
      && run == Ok(files[target := updated] - {source})
      && (TextAt(run.value, target) == Some(updated) <==> target != source)
      && (target == source ==> run.value == files - {source})
  {
    var op := Update(path, Some(moveTo), hunks);
    var source, target := guard(path).value, guard(moveTo).value;
    var updated := UpdatedText(files[source], hunks).value;
    var steps := [Write(target, updated), Remove(source)];
    assert PlanOp(guard, files, op) == PlanUpdate(guard, path, source, Some(files[source]), Some(moveTo), hunks);
    assert PlanOp(guard, files, op) == Ok(steps);
    RunOne(guard, files, op, steps);
    var written := files[target := updated];
    assert steps[1..] == [Remove(source)];
    assert Execute(files, steps) == Execute(written, [Remove(source)]);
    ExecuteOne(written, Remove(source));
    if target == source {
      assert files[source := updated] - {source} == files - {source};
    }
  }

  lemma RunOne(guard: Guard, files: Files, op: PatchOp, steps: seq<Planned>)
    requires PlanOp(guard, files, op) == Ok(steps)
    ensures PlanThenWrite(guard, files, [op]) == Ok(Execute(files, steps))
  {
    assert PlanAll(guard, files, [op][1..]) == Ok([]);
    assert steps + [] == steps;
  }

  /** Only paths the patch mentions can change. */
  lemma OnlyAffectedPathsChange(guard: Guard, files: Files, ops: seq<PatchOp>, path: string)
    requires PlanThenWrite(guard, files, ops).Ok?
    requires TextAt(files, path) != TextAt(PlanThenWrite(guard, files, ops).value, path)
    ensures exists p :: p in AffectedPaths(ops) && guard(p) == Some(path)
  {
    DistinctKeepsElements(Mentioned(ops));
    var steps := PlanAll(guard, files, ops).value;
    if forall i :: 0 <= i < |steps| ==> steps[i].path != path {
      ExecuteFrame(files, steps, path);
    }
    var i :| 0 <= i < |steps| && steps[i].path == path;
    var k := StepBelongsToOp(guard, files, ops, i);
    var p :| p in MentionedBy(ops[k]) && guard(p) == Some(path);
    MentionedContains(ops, k, p);
    assert p in AffectedPaths(ops);
  }

  lemma {:induction false} StepBelongsToOp(guard: Guard, files: Files, ops: seq<PatchOp>, i: nat) returns (k: nat)
    requires PlanAll(guard, files, ops).Ok? && i < |PlanAll(guard, files, ops).value|
    ensures k < |ops| && Touches(guard, ops[k], PlanAll(guard, files, ops).value[i].path)
  {
    var first := PlanOp(guard, files, ops[0]).value;
    if i < |first| {
      PlanTouches(guard, files, ops[0]);
      k := 0;
    } else {
      k := StepBelongsToOp(guard, files, ops[1..], i - |first|);
      k := k + 1;
    }
  }

  // --------------------------------------------------------- the handler

  /** `push` of the original: skip a path already seen. */
  method Push(out: seq<string>, seen: set<string>, path: string, ghost paths: seq<string>)
    returns (out': seq<string>, seen': set<string>)
    requires out == Distinct(paths) && forall p :: p in seen <==> p in out
    ensures out' == Distinct(paths + [path]) && forall p :: p in seen' <==> p in out'
  {
    assert (paths + [path])[..|paths|] == paths;
    if path in seen {
      return out, seen;
    }
    return out + [path], seen + {path};
  }

  /** Paths in encounter order, each once. */
  method ExtractAffectedPaths(ops: seq<PatchOp>) returns (out: seq<string>)
    ensures out == AffectedPaths(ops)
  {
    out := [];
    var seen: set<string> := {};
    var k := 0;
    while k < |ops|
      invariant 0 <= k <= |ops|
      invariant out == Distinct(Mentioned(ops[..k]))
      invariant forall p :: p in seen <==> p in out
    {
      ghost var before := Mentioned(ops[..k]);
      assert ops[..k + 1][..k] == ops[..k];
      assert Mentioned(ops[..k + 1]) == before + MentionedBy(ops[k]);
      out, seen := Push(out, seen, ops[k].path, before);
      if ops[k].Update? && ops[k].moveTo.Some? {
        out, seen := Push(out, seen, ops[k].moveTo.value, before + [ops[k].path]);
        assert before + [ops[k].path] + [ops[k].moveTo.value] == before + MentionedBy(ops[k]);
      }
      k := k + 1;
    }
    assert ops[..k] == ops;
  }

  /** The planning loop; it reads the files and writes none. */
  method PlanSteps(guard: Guard, files: Files, ops: seq<PatchOp>) returns (r: Result<seq<Planned>, RunError>)
    ensures r == PlanAll(guard, files, ops)
  {
    var steps: seq<Planned> := [];
    var k := 0;
    assert ops[0..] == ops;
    while k < |ops|
      invariant 0 <= k <= |ops|
      invariant PlanAll(guard, files, ops) == Prepend(steps, PlanAll(guard, files, ops[k..]))
    {
      assert ops[k..][1..] == ops[k + 1..];
      var planned := PlanOp(guard, files, ops[k]);
      if planned.Err? {
        return Err(planned.error);
      }
      AppendSteps(steps, planned.value, PlanAll(guard, files, ops[k + 1..]));
      steps := steps + planned.value;
      k := k + 1;
    }
    return Ok(steps);
  }

  class Workspace {
    var files: Files

    constructor (files: Files)
      ensures this.files == files
    {
      this.files := files;
    }

    /** The tool's handler: parse, plan every operation, then write or remove
        file by file. Any error leaves every file as it was. */
    method ApplyPatch(guard: Guard, input: string) returns (r: Result<(), RunError>)
      modifies this
      ensures r.Err? ==> files == old(files)
      ensures match ParsePatch(input)
              case Err(e) => r == Err(BadPatch(e))
              case Ok(ops) =>
                match PlanThenWrite(guard, old(files), ops)
                case Err(e) => r == Err(e)
                case Ok(after) => r == Ok(()) && files == after
    {
      var patch := ParseCodexApplyPatch(input);
      if patch.Err? {
        return Err(BadPatch(patch.error));
      }
      var planned := PlanSteps(guard, files, patch.value);
      if planned.Err? {
        return Err(planned.error);
      }
      WriteSteps(planned.value);
      return Ok(());
    }

    /** Write or remove file by file, in order. */
    method WriteSteps(steps: seq<Planned>)
      modifies this
      ensures files == Execute(old(files), steps)
    {
      var s := 0;
      assert steps[0..] == steps;
      while s < |steps|
        invariant 0 <= s <= |steps|
        invariant Execute(old(files), steps) == Execute(files, steps[s..])
      {
        assert steps[s..][1..] == steps[s + 1..];
        match steps[s] {
          case Write(path, content) => files := files[path := content];
          case Remove(path) => files := files - {path};
        }
        s := s + 1;
      }
    }
  }

  lemma AppendSteps(steps: seq<Planned>, more: seq<Planned>, r: Result<seq<Planned>, RunError>)
    ensures Prepend(steps, Prepend(more, r)) == Prepend(steps + more, r)
  {
    if r.Ok? {
      assert steps + (more + r.value) == steps + more + r.value;
    }
  }
}
