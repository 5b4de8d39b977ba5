/** The patch parser as the program runs it: index loops over the body, with
    lines, hunks and operations pushed as they are read. Each method is proved
    to compute the parsing functions of `PatchSyntax`. */
module PatchParser {
  import opened Common
  import opened Text
  import opened PatchSyntax

  /** Appending an empty sequence on either side changes nothing. */
  lemma EmptyEnds<T>(s: seq<T>)
    ensures [] + s == s && s + [] == s
  {
  }

  function PrependLines(lines: seq<HunkLine>, r: Result<HunkBody, ParseError>): (p: Result<HunkBody, ParseError>)
    ensures lines == [] ==> p == r
    ensures r.Ok? && r.value.lines == [] ==> p == Ok(r.value.(lines := lines))
  {
    EmptyEnds(lines);
    if r.Err? then r
    else
      EmptyEnds(r.value.lines);
      Ok(r.value.(lines := lines + r.value.lines))
  }

  function PrependHunks(hunks: seq<Hunk>, r: Result<(seq<Hunk>, seq<string>), ParseError>)
    : (p: Result<(seq<Hunk>, seq<string>), ParseError>)
    ensures hunks == [] ==> p == r
    ensures r.Ok? && r.value.0 == [] ==> p == Ok((hunks, r.value.1))
  {
    EmptyEnds(hunks);
    if r.Err? then r
    else
      EmptyEnds(r.value.0);
      Ok((hunks + r.value.0, r.value.1))
  }

  /** What was collected so far, in front of what is still to come. */
  function Prepend<T, E>(front: seq<T>, r: Result<seq<T>, E>): (p: Result<seq<T>, E>)
    ensures front == [] ==> p == r
    ensures r == Ok([]) ==> p == Ok(front)
  {
    EmptyEnds(front);
    if r.Err? then r
    else
      EmptyEnds(r.value);
      Ok(front + r.value)
  }

  function PrependAdded(lines: seq<string>, r: (seq<string>, seq<string>)): (p: (seq<string>, seq<string>))
    ensures lines == [] ==> p == r
    ensures r.0 == [] ==> p == (lines, r.1)
  {
    EmptyEnds(lines);
    EmptyEnds(r.0);
    (lines + r.0, r.1)
  }

  /** A line that belongs to a hunk's body. */
  predicate IsHunkLine(raw: string) {
    && raw != END_OF_FILE && !IsHunkStart(raw) && !IsFileOpHeader(raw) && !StartsWith(raw, "***")
    && raw != "" && KindOf(raw[0]).Some?
  }

  /** One more line is read onto those collected. */
  lemma TakeHunkLine(lines: seq<HunkLine>, body: seq<string>)
    requires body != [] && IsHunkLine(body[0])
    ensures PrependLines(lines, ParseHunkLines(body))
            == PrependLines(lines + [HunkLine(KindOf(body[0][0]).value, body[0][1..])], ParseHunkLines(body[1..]))
  {
    var line, more := HunkLine(KindOf(body[0][0]).value, body[0][1..]), ParseHunkLines(body[1..]);
    if more.Ok? {
      assert lines + ([line] + more.value.lines) == (lines + [line]) + more.value.lines;
    }
  }

  /** The hunk's body ends before `body`. */
  lemma StopAtHunkLine(lines: seq<HunkLine>, body: seq<string>)
    requires body == [] || (body[0] != END_OF_FILE && (IsHunkStart(body[0]) || IsFileOpHeader(body[0])))
    ensures PrependLines(lines, ParseHunkLines(body)) == Ok(HunkBody(lines, false, body))
  {
  }

  method ParseHunkAt(body: seq<string>, start: nat) returns (r: Result<(Hunk, nat), ParseError>)
    requires start < |body| && IsHunkStart(body[start])
    ensures r.Ok? ==> start < r.value.1 <= |body|
    ensures ParseHunk(body[start..]) == if r.Ok? then Ok((r.value.0, body[r.value.1..])) else Err(r.error)
  {
    var header := HunkHeader(body[start]);
    var lines: seq<HunkLine> := [];
    var i := start + 1;
    ghost var whole := ParseHunkLines(body[start + 1..]);
    assert body[start..][1..] == body[start + 1..];
    while i < |body|
      invariant start < i <= |body|
      invariant whole == PrependLines(lines, ParseHunkLines(body[i..]))
    {
      var raw := body[i];
      assert body[i..][1..] == body[i + 1..];
      if raw == END_OF_FILE {
        return Ok((Hunk(header, lines, true), i + 1));
      }
      if IsHunkStart(raw) || IsFileOpHeader(raw) {
        break;
      }
      if StartsWith(raw, "***") {
        return Err(MarkerInsideHunk);
      }
      if raw == "" || KindOf(raw[0]).None? {
        return Err(InvalidHunkLine);
      }
      TakeHunkLine(lines, body[i..]);
      lines := lines + [HunkLine(KindOf(raw[0]).value, raw[1..])];
      i := i + 1;
    }
    StopAtHunkLine(lines, body[i..]);
    if lines == [] && (header.None? || header.value == "") {
      return Err(EmptyHunk);
    }
    return Ok((Hunk(header, lines, false), i));
  }

  method ParseHunksAt(body: seq<string>, start: nat) returns (r: Result<(seq<Hunk>, nat), ParseError>)
    requires start <= |body|
    ensures r.Ok? ==> start <= r.value.1 <= |body|
    ensures ParseHunks(body[start..]) == if r.Ok? then Ok((r.value.0, body[r.value.1..])) else Err(r.error)
  {
    var hunks: seq<Hunk> := [];
    var i := start;
    while i < |body| && IsHunkStart(body[i])
      invariant start <= i <= |body|
      invariant ParseHunks(body[start..]) == PrependHunks(hunks, ParseHunks(body[i..]))
    {
      var h := ParseHunkAt(body, i);
      if h.Err? {
        return Err(h.error);
      }
      var (hunk, next) := h.value;
      assert body[i..][0] == body[i];
      ParseHunksStep(body[i..], hunk, body[next..]);
      ghost var more := ParseHunks(body[next..]);
      assert more.Ok? ==> hunks + ([hunk] + more.value.0) == hunks + [hunk] + more.value.0;
      hunks := hunks + [hunk];
      i := next;
    }
    return Ok((hunks, i));
  }

  method TakeAddedAt(body: seq<string>, start: nat) returns (lines: seq<string>, next: nat)
    requires start <= |body|
    ensures start <= next <= |body|
    ensures TakeAdded(body[start..]) == (lines, body[next..])
  {
    lines, next := [], start;
    while next < |body| && StartsWith(body[next], "+")
      invariant start <= next <= |body|
      invariant TakeAdded(body[start..]) == PrependAdded(lines, TakeAdded(body[next..]))
    {
      assert body[next..][1..] == body[next + 1..];
      ghost var more := TakeAdded(body[next + 1..]).0;
      assert lines + ([body[next][1..]] + more) == lines + [body[next][1..]] + more;
      lines := lines + [body[next][1..]];
      next := next + 1;
    }
  }

  /** One file operation starting at line `start`. */
  method ParseOpAt(body: seq<string>, start: nat) returns (r: Result<(PatchOp, nat), ParseError>)
    requires start < |body|
    ensures r.Ok? ==> start < r.value.1 <= |body|
    ensures ParseOp(body[start..]) == if r.Ok? then Ok((r.value.0, body[r.value.1..])) else Err(r.error)
  {
    assert body[start..][0] == body[start] && body[start..][1..] == body[start + 1..];
    var head := ReadOpHead(body[start]);
    if head.NoHead? {
      return Err(ExpectedFileOp);
    }
    var path := RequireRelativePath(head.rawPath);
    if path.Err? {
      return Err(path.error);
    }
    var i := start + 1;
    match head {
      case AddHead(_) =>
        var lines, next := TakeAddedAt(body, i);
        if next < |body| && !IsFileOpHeader(body[next]) {
          return Err(MalformedAdd);
        }
        return Ok((Add(path.value, Terminate(lines)), next));
      case DeleteHead(_) =>
        return Ok((Delete(path.value), i));
      case UpdateHead(_) =>
        var moveTo: Option<string> := None;
        if i < |body| && StartsWith(body[i], MOVE_TO) {
          assert body[i..][1..] == body[i + 1..];
          var target := RequireRelativePath(body[i][|MOVE_TO|..]);
          if target.Err? {
            return Err(target.error);
          }
          moveTo := Some(target.value);
          i := i + 1;
        }
        var hunks := ParseHunksAt(body, i);
        if hunks.Err? {
          return Err(hunks.error);
        }
        var next := hunks.value.1;
        if next < |body| && !IsFileOpHeader(body[next]) {
          return Err(MalformedUpdate);
        }
        return Ok((Update(path.value, moveTo, hunks.value.0), next));
    }
  }

  /** The whole envelope. */
  method ParseCodexApplyPatch(input: string) returns (r: Result<seq<PatchOp>, ParseError>)
    ensures r == ParsePatch(input)
  {
    var lines := EnvelopeLines(input);
    if lines == [] || Trim(lines[0]) != BEGIN_PATCH {
      return Err(MissingBegin);
    }
    if Trim(lines[|lines| - 1]) != END_PATCH {
      return Err(MissingEnd);
    }
    assert |lines| > 1 by { assert BEGIN_PATCH[4] == 'B' && END_PATCH[4] == 'E'; }
    r := ParseBody(lines[1..|lines| - 1]);
  }

  method ParseBody(body: seq<string>) returns (r: Result<seq<PatchOp>, ParseError>)
    ensures r == ParseOps(body)
  {
    var ops: seq<PatchOp> := [];
    var i := 0;
    assert body[0..] == body;
    while i < |body|
      invariant 0 <= i <= |body|
      invariant ParseOps(body) == Prepend(ops, ParseOps(body[i..]))
    {
      var o := ParseOpAt(body, i);
      if o.Err? {
        return Err(o.error);
      }
      var (op, next) := o.value;
      ghost var more := ParseOps(body[next..]);
      assert more.Ok? ==> ops + ([op] + more.value) == ops + [op] + more.value;
      ops := ops + [op];
      i := next;
    }
    return Ok(ops);
  }
}
