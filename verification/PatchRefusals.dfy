/** Which texts the patch parser refuses, and for which line. */
module PatchRefusals {
  import opened Common
  import opened Text
  import opened PatchSyntax

  // ------------------------------------------------------- the final newline

  lemma {:induction false} SplitNewline(text: string)
    ensures Split(text + "\n") == Split(text) + [""]
  {
    if text == "" {
      assert ("" + "\n")[1..] == "";
    } else {
      SplitNewline(text[1..]);
      assert (text + "\n")[1..] == text[1..] + "\n";
      if text[0] != '\n' {
        var rest := Split(text[1..]);
        assert [[text[0]] + rest[0]] + (rest[1..] + [""]) == ([[text[0]] + rest[0]] + rest[1..]) + [""];
      }
    }
  }

  lemma {:induction false} JoinEndsLine(lines: seq<string>)
    requires lines != [] && lines[|lines| - 1] == ""
    ensures var text := Join(lines); text == "" || text[|text| - 1] == '\n'
  {
    if |lines| > 1 {
      JoinEndsLine(lines[1..]);
    }
  }

  /** The last line is blank exactly behind a final newline. */
  lemma BlankLastLine(text: string)
    ensures Split(text)[|Split(text)| - 1] == "" <==> text == "" || text[|text| - 1] == '\n'
  {
    if text != "" && text[|text| - 1] == '\n' {
      SplitNewline(text[..|text| - 1]);
      assert text == text[..|text| - 1] + "\n";
    }
    if Split(text)[|Split(text)| - 1] == "" {
      JoinEndsLine(Split(text));
      JoinSplit(text);
    }
  }

  /** One final newline makes no difference; two are refused. */
  lemma OneFinalNewline(text: string)
    ensures text == "" || text[|text| - 1] != '\n' ==> ParsePatch(text + "\n") == ParsePatch(text)
    ensures text != "" && text[|text| - 1] == '\n' ==>
              ParsePatch(text + "\n") in {Err(MissingBegin), Err(MissingEnd)}
  {
    SplitNewline(text);
    BlankLastLine(text);
    var lines := Split(text);
    assert (lines + [""])[..|lines|] == lines;
    if text != "" && text[|text| - 1] == '\n' {
      assert Trim(lines[|lines| - 1]) == "";
    }
  }

  // ------------------------------------------------------------ the envelope

  /** The lines of a text, a blank last one left out. */
  function LinesOf(text: string): seq<string> {
    var lines := Split(text);
    if lines[|lines| - 1] == "" then lines[..|lines| - 1] else lines
  }

  predicate Opens(lines: seq<string>) {
    lines != [] && Trim(lines[0]) == "*** Begin Patch"
  }

  predicate Closes(lines: seq<string>) {
    lines != [] && Trim(lines[|lines| - 1]) == "*** End Patch"
  }

  /** A text is refused over its first line, over its last line, or over the first
      operation between them that cannot be read. */
  lemma EnvelopeIsRead(text: string)
    ensures var lines := LinesOf(text);
      && (ParsePatch(text) == Err(MissingBegin) <==> !Opens(lines))
      && (ParsePatch(text) == Err(MissingEnd) <==> Opens(lines) && !Closes(lines))
      && (Opens(lines) && Closes(lines) ==> |lines| > 1 && ParsePatch(text) == ParseOps(lines[1..|lines| - 1]))
  {
    var lines := LinesOf(text);
    if Opens(lines) && Closes(lines) {
      assert "*** Begin Patch"[4] != "*** End Patch"[4];
      assert |lines| > 1;
      OpsErrors(lines[1..|lines| - 1]);
    }
  }

  lemma {:induction false} OpsErrors(body: seq<string>)
    ensures ParseOps(body) != Err(MissingBegin) && ParseOps(body) != Err(MissingEnd)
    decreases |body|
  {
    if body != [] {
      OpErrors(body);
      if ParseOp(body).Ok? {
        OpsErrors(ParseOp(body).value.1);
      }
    }
  }

  lemma OpErrors(body: seq<string>)
    requires body != []
    ensures ParseOp(body) != Err(MissingBegin) && ParseOp(body) != Err(MissingEnd)
  {
    match ReadOpHead(body[0])
    case UpdateHead(rawPath) => HunksErrors(body[1..]); HunksErrors(body[1..][if |body| > 1 then 1 else 0..]);
    case _ =>
  }

  lemma {:induction false} HunksErrors(body: seq<string>)
    ensures ParseHunks(body) != Err(MissingBegin) && ParseHunks(body) != Err(MissingEnd)
    decreases |body|
  {
    if body != [] && IsHunkStart(body[0]) {
      HunkLinesErrors(body[1..]);
      if ParseHunk(body).Ok? {
        HunksErrors(ParseHunk(body).value.1);
      }
    }
  }

  lemma {:induction false} HunkLinesErrors(body: seq<string>)
    ensures ParseHunkLines(body).Err? ==> ParseHunkLines(body).error in {MarkerInsideHunk, InvalidHunkLine}
  {
    if body != [] {
      HunkLinesErrors(body[1..]);
    }
  }

  // ------------------------------------------------------------ inside a hunk

  predicate IsHunkLine(line: string) {
    line != "" && line[0] in {' ', '-', '+'}
  }

  predicate EndsHunk(line: string) {
    line == "*** End of File" || StartsWith(line, "@@") || IsFileOpHeader(line)
  }

  /** How many hunk lines `body` starts with. */
  function HunkLinesAhead(body: seq<string>): (n: nat)
    ensures n <= |body|
    ensures forall i :: 0 <= i < n ==> IsHunkLine(body[i])
    ensures n < |body| ==> !IsHunkLine(body[n])
  {
    if body == [] || !IsHunkLine(body[0]) then 0 else 1 + HunkLinesAhead(body[1..])
  }

  predicate ReadsLine(line: HunkLine, raw: string)
    requires IsHunkLine(raw)
  {
    line.text == raw[1..] && line.kind == if raw[0] == ' ' then Context else if raw[0] == '-' then Removed else Added
  }

  /** A hunk takes the lines up to the first that is none of its own. It ends there
      with the text, at an End of File marker, which it takes too, or before the
      next hunk or file; any other marker and any other line are refused. */
  ghost predicate HunkIsRead(body: seq<string>, n: nat, r: Result<HunkBody, ParseError>)
    requires n <= |body| && forall i :: 0 <= i < n ==> IsHunkLine(body[i])
  {
    if n < |body| && !EndsHunk(body[n]) then
      r == Err(if StartsWith(body[n], "***") then MarkerInsideHunk else InvalidHunkLine)
    else
      var marked := n < |body| && body[n] == "*** End of File";
      && r.Ok? && r.value.endOfFile == marked && r.value.rest == body[if marked then n + 1 else n..]
      && |r.value.lines| == n && forall i :: 0 <= i < n ==> ReadsLine(r.value.lines[i], body[i])
  }

  lemma {:induction false} HunkLinesAreRead(body: seq<string>)
    ensures HunkIsRead(body, HunkLinesAhead(body), ParseHunkLines(body))
  {
    if body != [] {
      if IsHunkLine(body[0]) {
        HunkLinesAreRead(body[1..]);
        OneMoreHunkLine(body, HunkLinesAhead(body[1..]));
      } else {
        assert body[0..] == body;
      }
    }
  }

  lemma HunkLineIsTaken(body: seq<string>)
    requires body != [] && IsHunkLine(body[0])
    ensures var r, more := ParseHunkLines(body), ParseHunkLines(body[1..]);
      if more.Err? then r == Err(more.error)
      else
        && r.Ok? && r.value.endOfFile == more.value.endOfFile && r.value.rest == more.value.rest
        && |r.value.lines| == |more.value.lines| + 1 && r.value.lines[1..] == more.value.lines
        && ReadsLine(r.value.lines[0], body[0])
  {
    assert !StartsWith(body[0], "@@") && !StartsWith(body[0], "***") && !IsFileOpHeader(body[0]);
  }

  lemma OneMoreHunkLine(body: seq<string>, n: nat)
    requires body != [] && IsHunkLine(body[0]) && n <= |body[1..]| && forall i :: 0 <= i < n ==> IsHunkLine(body[1..][i])
    requires HunkIsRead(body[1..], n, ParseHunkLines(body[1..]))
    ensures forall i :: 0 <= i < n + 1 ==> IsHunkLine(body[i])
    ensures HunkIsRead(body, n + 1, ParseHunkLines(body))
  {
    hide ParseHunkLines, EndsHunk, ReadsLine;
    HunkLineIsTaken(body);
    forall i | 0 <= i < n + 1 ensures IsHunkLine(body[i]) {
      assert i > 0 ==> IsHunkLine(body[1..][i - 1]);
    }
    var r, more := ParseHunkLines(body), ParseHunkLines(body[1..]);
    if more.Ok? {
      assert body[1..][n..] == body[n + 1..];
      assert n < |body[1..]| ==> body[1..][n + 1..] == body[n + 2..];
      forall i | 0 <= i < n + 1 ensures ReadsLine(r.value.lines[i], body[i]) {
        assert i > 0 ==> r.value.lines[i] == more.value.lines[i - 1] && body[i] == body[1..][i - 1];
      }
    }
  }

  /** What stands behind the two signs is the header, less the blank that sets it
      off, or less all blanks in front where none sets it off. */
  lemma HeaderIsRead(text: string)
    ensures HunkHeader("@@") == None
    ensures HunkHeader("@@ " + text) == Some(text)
    ensures text != "" && text[0] != ' ' ==> HunkHeader("@@" + text) == Some(TrimStart(text))
  {
    assert ("@@ " + text)[3..] == text && ("@@" + text)[2..] == text;
    if text != "" && text[0] != ' ' {
      assert ("@@" + text)[2] == text[0];
    }
  }

  /** A hunk with nothing in it is refused unless its header says something. */
  lemma EmptyHunkIsRefused(body: seq<string>)
    requires body != [] && IsHunkStart(body[0])
    ensures var n := HunkLinesAhead(body[1..]);
      ParseHunk(body) == Err(EmptyHunk)
      <==> n == 0 && (1 < |body| ==> EndsHunk(body[1]) && body[1] != "*** End of File")
           && (body[0] == "@@" || body[0] == "@@ " || (!StartsWith(body[0], "@@ ") && TrimStart(body[0][2..]) == ""))
  {
    HunkLinesAreRead(body[1..]);
    HunkLinesErrors(body[1..]);
  }

  // ------------------------------------------------------- file operations

  predicate IsLetter(c: char) {
    'A' <= c <= 'Z' || 'a' <= c <= 'z'
  }

  /** A path counts without the blanks around it. It is refused when there is
      nothing of it, or when it starts at a root or at a drive. */
  lemma PathIsRead(raw: string)
    ensures var path, r := Trim(raw), RequireRelativePath(raw);
      && (r == Err(EmptyPath) <==> path == "")
      && (r == Err(AbsolutePath) <==>
            || (|path| > 0 && path[0] == '/')
            || (|path| > 1 && path[0] == '\\' && path[1] == '\\')
            || (|path| > 2 && IsLetter(path[0]) && path[1] == ':' && (path[2] == '\\' || path[2] == '/')))
      && (r.Ok? ==> r.value == path)
  {
  }

  function AddedAhead(body: seq<string>): (n: nat)
    ensures n <= |body|
    ensures forall i :: 0 <= i < n ==> StartsWith(body[i], "+")
    ensures n < |body| ==> !StartsWith(body[n], "+")
  {
    if body == [] || !StartsWith(body[0], "+") then 0 else 1 + AddedAhead(body[1..])
  }

  lemma {:induction false} AddedAreRead(body: seq<string>)
    ensures var (lines, rest) := TakeAdded(body);
      && |lines| == AddedAhead(body) && rest == body[|lines|..]
      && forall i :: 0 <= i < |lines| ==> lines[i] == body[i][1..]
  {
    if body != [] && StartsWith(body[0], "+") {
      AddedAreRead(body[1..]);
      var (lines, rest) := TakeAdded(body[1..]);
      assert body[1..][|lines|..] == body[|lines| + 1..];
      forall i | 0 <= i < |lines| + 1 ensures TakeAdded(body).0[i] == body[i][1..] {
        assert i > 0 ==> body[i] == body[1..][i - 1];
      }
    }
  }

  /** What follows the lines of an operation is the next operation, or nothing. */
  predicate NextIsOp(body: seq<string>, n: nat) {
    n < |body| ==> IsFileOpHeader(body[n])
  }

  /** An update has its hunks, behind the path it moves to, if it moves. */
  predicate ReadsUpdate(raw: string, body: seq<string>, r: Result<(PatchOp, seq<string>), ParseError>)
    requires body != []
  {
    var moves := |body| > 1 && StartsWith(body[1], "*** Move to: ");
    var hunks := ParseHunks(body[if moves then 2 else 1..]);
    if RequireRelativePath(raw).Err? then r == Err(RequireRelativePath(raw).error)
    else if moves && RequireRelativePath(body[1][13..]).Err? then r == Err(RequireRelativePath(body[1][13..]).error)
    else if hunks.Err? then r == Err(hunks.error)
    else if !NextIsOp(hunks.value.1, 0) then r == Err(MalformedUpdate)
    else r == Ok((Update(Trim(raw), if moves then Some(Trim(body[1][13..])) else None, hunks.value.0), hunks.value.1))
  }

  lemma UpdateIsRead(body: seq<string>, raw: string)
    requires body != []
    ensures ReadsUpdate(raw, body, ParseUpdate(raw, body[1..]))
  {
    hide ParseHunks, Trim;
    assert |MOVE_TO| == 13;
    PathIsRead(raw);
    if |body| > 1 && StartsWith(body[1], MOVE_TO) {
      PathIsRead(body[1][13..]);
      assert body[1..][1..] == body[2..];
    }
  }

  /** An operation is refused when its first line opens none, over its paths, and
      when what follows its lines is neither the next one nor the end. An added
      file has the lines marked `+`; an update has its hunks. */
  lemma OpIsRead(body: seq<string>)
    requires body != []
    ensures var r, n := ParseOp(body), AddedAhead(body[1..]);
      match ReadOpHead(body[0])
      case NoHead => r == Err(ExpectedFileOp) && !IsFileOpHeader(body[0])
      case AddHead(raw) =>
        if RequireRelativePath(raw).Err? then r == Err(RequireRelativePath(raw).error)
        else if !NextIsOp(body, n + 1) then r == Err(MalformedAdd)
        else r.Ok? && r.value.1 == body[n + 1..] && r.value.0.Add? && r.value.0.path == Trim(raw)
             && exists lines :: r.value.0.content == Terminate(lines) && |lines| == n
                                && forall i :: 0 <= i < n ==> lines[i] == body[i + 1][1..]
      case DeleteHead(raw) =>
        if RequireRelativePath(raw).Err? then r == Err(RequireRelativePath(raw).error)
        else r == Ok((Delete(Trim(raw)), body[1..]))
      case UpdateHead(raw) =>
        ReadsUpdate(raw, body, r)
  {
    AddedAreRead(body[1..]);
    hide ParseUpdate;
    match ReadOpHead(body[0])
    case AddHead(raw) =>
      PathIsRead(raw);
      var (lines, rest) := TakeAdded(body[1..]);
      assert rest == body[|lines| + 1..];
    case UpdateHead(raw) => UpdateIsRead(body, raw);
    case _ =>
  }

  /** The three lines that open an operation, and the path each names. */
  lemma HeadIsRead(line: string)
    ensures match ReadOpHead(line)
            case AddHead(raw) => line == "*** Add File: " + raw
            case DeleteHead(raw) => line == "*** Delete File: " + raw
            case UpdateHead(raw) => line == "*** Update File: " + raw
            case NoHead => !StartsWith(line, "*** Add File: ") && !StartsWith(line, "*** Delete File: ")
                           && !StartsWith(line, "*** Update File: ")
  {
  }
}
