/** The parser and the printer undo each other, and the well-formed patches
    are exactly what the parser can return. */
module PatchRoundTrip {
  import opened Common
  import opened Text
  import opened PatchSyntax

  /** What may follow one file operation: nothing, or the header of the next. */
  predicate AtOpBoundary(rest: seq<string>) {
    rest == [] || IsFileOpHeader(rest[0])
  }

  lemma OpHeaderFacts(line: string)
    requires IsFileOpHeader(line)
    ensures |line| > 4 && line[0] == '*'
    ensures !IsHunkStart(line) && line != END_OF_FILE && !StartsWith(line, "+") && !StartsWith(line, MOVE_TO)
  {
    assert line[0] == '*';
    assert END_OF_FILE[4] == 'E' && MOVE_TO[4] == 'M';
    assert ADD_FILE[4] == 'A' && DELETE_FILE[4] == 'D' && UPDATE_FILE[4] == 'U';
    assert line[4] in "ADU";
  }

  lemma PrefixCut(prefix: string, rest: string)
    ensures prefix <= prefix + rest && (prefix + rest)[|prefix|..] == rest
  {
  }

  lemma PathRoundTrip(path: string)
    requires WellFormedPath(path)
    ensures RequireRelativePath(path) == Ok(path)
  {
    TrimFixesTrimmed(path);
  }

  // ----------------------------------------------------- parse after print

  lemma PrintedLineFacts(line: HunkLine)
    ensures var raw := [KindChar(line.kind)] + line.text;
            && raw != END_OF_FILE && !IsHunkStart(raw) && !IsFileOpHeader(raw) && !StartsWith(raw, "***")
            && raw != "" && KindOf(raw[0]) == Some(line.kind) && raw[1..] == line.text
  {
    var raw := [KindChar(line.kind)] + line.text;
    assert raw[0] in " -+";
    assert END_OF_FILE[0] == '*';
    if IsFileOpHeader(raw) { OpHeaderFacts(raw); }
  }

  lemma HunkBoundary(rest: seq<string>)
    requires AtOpBoundary(rest) || (rest != [] && IsHunkStart(rest[0]))
    ensures ParseHunkLines(rest) == Ok(HunkBody([], false, rest))
  {
    assert END_OF_FILE[0] == '*';
    if rest != [] && IsFileOpHeader(rest[0]) {
      OpHeaderFacts(rest[0]);
    }
  }

  lemma {:induction false} HunkLinesRoundTrip(lines: seq<HunkLine>, endOfFile: bool, rest: seq<string>)
    requires !endOfFile ==> AtOpBoundary(rest) || (rest != [] && IsHunkStart(rest[0]))
    ensures ParseHunkLines(PrintHunkLines(lines) + (if endOfFile then [END_OF_FILE] else []) + rest)
         == Ok(HunkBody(lines, endOfFile, rest))
  {
    var mark := if endOfFile then [END_OF_FILE] else [];
    var body := PrintHunkLines(lines) + mark + rest;
    if lines == [] {
      assert body == mark + rest;
      HunkEndRoundTrip(endOfFile, rest);
    } else {
      var first, more := [[KindChar(lines[0].kind)] + lines[0].text], PrintHunkLines(lines[1..]);
      HunkLinesRoundTrip(lines[1..], endOfFile, rest);
      HunkLineIsRead(lines[0], more + mark + rest, lines[1..], endOfFile, rest);
      Associates(first, more, mark);
      Associates(first, more + mark, rest);
      assert [lines[0]] + lines[1..] == lines;
    }
  }

  lemma HunkEndRoundTrip(endOfFile: bool, rest: seq<string>)
    requires !endOfFile ==> AtOpBoundary(rest) || (rest != [] && IsHunkStart(rest[0]))
    ensures ParseHunkLines((if endOfFile then [END_OF_FILE] else []) + rest) == Ok(HunkBody([], endOfFile, rest))
  {
    if endOfFile {
      assert ([END_OF_FILE] + rest)[1..] == rest;
    } else {
      assert [] + rest == rest;
      HunkBoundary(rest);
    }
  }

  /** One printed line in front of others that are read back. */
  lemma HunkLineIsRead(line: HunkLine, body: seq<string>, lines: seq<HunkLine>, endOfFile: bool, rest: seq<string>)
    requires ParseHunkLines(body) == Ok(HunkBody(lines, endOfFile, rest))
    ensures ParseHunkLines([[KindChar(line.kind)] + line.text] + body) == Ok(HunkBody([line] + lines, endOfFile, rest))
  {
    PrintedLineFacts(line);
    assert ([[KindChar(line.kind)] + line.text] + body)[1..] == body;
  }

  lemma HunkRoundTrip(hunk: Hunk, rest: seq<string>)
    requires WellFormedHunk(hunk)
    requires AtOpBoundary(rest) || (rest != [] && IsHunkStart(rest[0]))
    ensures IsHunkStart(PrintHunk(hunk)[0])
    ensures ParseHunk(PrintHunk(hunk) + rest) == Ok((hunk, rest))
  {
    var mark := if hunk.endOfFile then [END_OF_FILE] else [];
    var body := PrintHunkLines(hunk.lines) + mark + rest;
    HeaderRoundTrip(hunk.header);
    HunkLinesRoundTrip(hunk.lines, hunk.endOfFile, rest);
    var start := if hunk.header.None? then "@@" else "@@ " + hunk.header.value;
    HunkIsRead(start, hunk, body, rest);
    Associates([start], PrintHunkLines(hunk.lines), mark);
    Associates([start], PrintHunkLines(hunk.lines) + mark, rest);
  }

  lemma HeaderRoundTrip(header: Option<string>)
    ensures var start := if header.None? then "@@" else "@@ " + header.value;
            IsHunkStart(start) && HunkHeader(start) == header
  {
    if header.Some? {
      PrefixCut("@@ ", header.value);
      var start := "@@ " + header.value;
      assert start[..2] == "@@";
      assert start != "@@";
    }
  }

  lemma HunkIsRead(start: string, hunk: Hunk, body: seq<string>, rest: seq<string>)
    requires IsHunkStart(start) && HunkHeader(start) == hunk.header && WellFormedHunk(hunk)
    requires ParseHunkLines(body) == Ok(HunkBody(hunk.lines, hunk.endOfFile, rest))
    ensures ParseHunk([start] + body) == Ok((hunk, rest))
  {
    assert ([start] + body)[1..] == body;
  }

  lemma NoHunksRoundTrip(rest: seq<string>)
    requires AtOpBoundary(rest)
    ensures ParseHunks(rest) == Ok(([], rest))
  {
    if rest != [] { OpHeaderFacts(rest[0]); }
  }

  /** One printed hunk in front of others that are read back. */
  lemma FirstHunkRoundTrip(hunk: Hunk, printed: seq<string>, hunks: seq<Hunk>, more: seq<string>, rest: seq<string>)
    requires printed != [] && IsHunkStart(printed[0])
    requires ParseHunk(printed + (more + rest)) == Ok((hunk, more + rest))
    requires ParseHunks(more + rest) == Ok((hunks, rest))
    ensures ParseHunks((printed + more) + rest) == Ok(([hunk] + hunks, rest))
  {
    var next := more + rest;
    assert (printed + next)[0] == printed[0];
    FirstHunkIsRead(printed + next, hunk, hunks, next, rest);
    Associates(printed, more, rest);
  }

  lemma FirstHunkIsRead(body: seq<string>, hunk: Hunk, hunks: seq<Hunk>, next: seq<string>, rest: seq<string>)
    requires body != [] && IsHunkStart(body[0])
    requires ParseHunk(body) == Ok((hunk, next)) && ParseHunks(next) == Ok((hunks, rest))
    ensures ParseHunks(body) == Ok(([hunk] + hunks, rest))
  {
    ParseHunksStep(body, hunk, next);
  }

  lemma {:induction false} HunksRoundTrip(hunks: seq<Hunk>, rest: seq<string>)
    requires forall i :: 0 <= i < |hunks| ==> WellFormedHunk(hunks[i])
    requires AtOpBoundary(rest)
    ensures ParseHunks(PrintHunks(hunks) + rest) == Ok((hunks, rest))
    ensures hunks != [] ==> PrintHunks(hunks) != [] && IsHunkStart(PrintHunks(hunks)[0])
  {
    if hunks == [] {
      assert PrintHunks(hunks) + rest == rest;
      NoHunksRoundTrip(rest);
    } else {
      var tail := hunks[1..];
      HunksRoundTrip(tail, rest);
      PrintedHunkRoundTrip(hunks[0], tail, rest);
      FirstHunkRoundTrip(hunks[0], PrintHunk(hunks[0]), tail, PrintHunks(tail), rest);
      assert [hunks[0]] + tail == hunks;
    }
  }

  lemma PrintedHunkRoundTrip(hunk: Hunk, tail: seq<Hunk>, rest: seq<string>)
    requires WellFormedHunk(hunk) && AtOpBoundary(rest)
    requires tail != [] ==> PrintHunks(tail) != [] && IsHunkStart(PrintHunks(tail)[0])
    ensures PrintHunk(hunk) != [] && IsHunkStart(PrintHunk(hunk)[0])
    ensures ParseHunk(PrintHunk(hunk) + (PrintHunks(tail) + rest)) == Ok((hunk, PrintHunks(tail) + rest))
  {
    var more := PrintHunks(tail) + rest;
    if tail == [] {
      assert more == rest;
    } else {
      assert more[0] == PrintHunks(tail)[0];
    }
    HunkRoundTrip(hunk, more);
  }

  lemma {:induction false} AddedRoundTrip(lines: seq<string>, rest: seq<string>)
    requires AtOpBoundary(rest)
    ensures TakeAdded(PrintAdded(lines) + rest) == (lines, rest)
  {
    if lines == [] {
      assert PrintAdded(lines) + rest == rest;
      if rest != [] { OpHeaderFacts(rest[0]); }
    } else {
      AddedRoundTrip(lines[1..], rest);
      assert PrintAdded(lines) + rest == ["+" + lines[0]] + (PrintAdded(lines[1..]) + rest);
      AddedLineIsRead(lines[0], PrintAdded(lines[1..]) + rest);
      assert [lines[0]] + lines[1..] == lines;
    }
  }

  lemma AddedLineIsRead(line: string, body: seq<string>)
    ensures TakeAdded(["+" + line] + body) == ([line] + TakeAdded(body).0, TakeAdded(body).1)
  {
    var all := ["+" + line] + body;
    assert all[0] == "+" + line && all[1..] == body && all[0][1..] == line;
  }

  lemma ContentRoundTrip(content: string)
    requires content == "" || content[|content| - 1] == '\n'
    ensures Terminate(ContentLines(content)) == content
  {
    if content != "" {
      var text := content[..|content| - 1];
      JoinSplit(text);
      TerminateIsJoin(Split(text));
      assert text + "\n" == content;
    }
  }

  lemma HeadRoundTrip(op: PatchOp)
    ensures IsFileOpHeader(PrintOpHead(op))
    ensures ReadOpHead(PrintOpHead(op)) ==
            match op
            case Add(path, _) => AddHead(path)
            case Delete(path) => DeleteHead(path)
            case Update(path, _, _) => UpdateHead(path)
  {
    assert ADD_FILE[4] == 'A' && DELETE_FILE[4] == 'D' && UPDATE_FILE[4] == 'U';
    match op {
      case Add(path, _) => PrefixCut(ADD_FILE, path);
      case Delete(path) =>
        PrefixCut(DELETE_FILE, path);
        assert PrintOpHead(op)[4] == 'D';
      case Update(path, _, _) =>
        PrefixCut(UPDATE_FILE, path);
        assert PrintOpHead(op)[4] == 'U';
    }
  }

  lemma MoveRoundTrip(moveTo: Option<string>, rest: seq<string>)
    requires moveTo.Some? ==> WellFormedPath(moveTo.value)
    requires AtOpBoundary(rest) || (rest != [] && IsHunkStart(rest[0]))
    ensures ParseMoveTo(PrintMoveTo(moveTo) + rest) == Ok((moveTo, rest))
  {
    if moveTo.None? {
      assert [] + rest == rest;
      if rest != [] && IsFileOpHeader(rest[0]) {
        OpHeaderFacts(rest[0]);
      } else if rest != [] {
        assert rest[0][0] == '@' && MOVE_TO[0] == '*';
      }
    } else {
      PathRoundTrip(moveTo.value);
      PrefixCut(MOVE_TO, moveTo.value);
      assert ([MOVE_TO + moveTo.value] + rest)[1..] == rest;
    }
  }

  lemma UpdateRoundTrip(path: string, moveTo: Option<string>, hunks: seq<Hunk>, rest: seq<string>)
    requires WellFormedOp(Update(path, moveTo, hunks)) && AtOpBoundary(rest)
    ensures ParseUpdate(path, PrintMoveTo(moveTo) + (PrintHunks(hunks) + rest))
         == Ok((Update(path, moveTo, hunks), rest))
  {
    PathRoundTrip(path);
    HunksRoundTrip(hunks, rest);
    var afterMove := PrintHunks(hunks) + rest;
    assert hunks == [] ==> afterMove == rest;
    assert hunks != [] ==> afterMove[0] == PrintHunks(hunks)[0];
    MoveRoundTrip(moveTo, afterMove);
  }

  lemma AddRoundTrip(op: PatchOp, rest: seq<string>)
    requires op.Add? && WellFormedOp(op) && AtOpBoundary(rest)
    ensures ParseOp(PrintOp(op) + rest) == Ok((op, rest))
  {
    var printed := PrintAdded(ContentLines(op.content)) + rest;
    assert PrintOp(op) + rest == [PrintOpHead(op)] + printed;
    HeadRoundTrip(op);
    PathRoundTrip(op.path);
    AddedRoundTrip(ContentLines(op.content), rest);
    ContentRoundTrip(op.content);
    ParseOpOfAdd(PrintOpHead(op), op.path, printed, ContentLines(op.content), rest);
  }

  lemma ParseOpOfAdd(head: string, path: string, body: seq<string>, lines: seq<string>, rest: seq<string>)
    requires ReadOpHead(head) == AddHead(path) && RequireRelativePath(path) == Ok(path)
    requires TakeAdded(body) == (lines, rest) && AtOpBoundary(rest)
    ensures ParseOp([head] + body) == Ok((Add(path, Terminate(lines)), rest))
  {
    assert ([head] + body)[1..] == body;
  }

  lemma DeleteRoundTrip(op: PatchOp, rest: seq<string>)
    requires op.Delete? && WellFormedOp(op)
    ensures ParseOp(PrintOp(op) + rest) == Ok((op, rest))
  {
    var body := PrintOp(op) + rest;
    HeadRoundTrip(op);
    PathRoundTrip(op.path);
    assert body[0] == PrintOpHead(op) && body[1..] == rest;
  }

  lemma OpRoundTrip(op: PatchOp, rest: seq<string>)
    requires WellFormedOp(op) && AtOpBoundary(rest)
    ensures ParseOp(PrintOp(op) + rest) == Ok((op, rest))
  {
    match op
    case Add(_, _) => AddRoundTrip(op, rest);
    case Delete(_) => DeleteRoundTrip(op, rest);
    case Update(_, _, _) => UpdateOpRoundTrip(op, rest);
  }

  lemma UpdateOpRoundTrip(op: PatchOp, rest: seq<string>)
    requires op.Update? && WellFormedOp(op) && AtOpBoundary(rest)
    ensures ParseOp(PrintOp(op) + rest) == Ok((op, rest))
  {
    var body := PrintMoveTo(op.moveTo) + (PrintHunks(op.hunks) + rest);
    HeadRoundTrip(op);
    UpdateRoundTrip(op.path, op.moveTo, op.hunks, rest);
    ParseOpOfUpdate(PrintOpHead(op), op.path, body);
    Associates([PrintOpHead(op)], PrintMoveTo(op.moveTo) + PrintHunks(op.hunks), rest);
    Associates(PrintMoveTo(op.moveTo), PrintHunks(op.hunks), rest);
  }

  lemma ParseOpOfUpdate(head: string, path: string, body: seq<string>)
    requires ReadOpHead(head) == UpdateHead(path)
    ensures ParseOp([head] + body) == ParseUpdate(path, body)
  {
    assert ([head] + body)[1..] == body;
  }

  lemma {:induction false} OpsRoundTrip(ops: seq<PatchOp>)
    requires WellFormedPatch(ops)
    ensures ParseOps(PrintOps(ops)) == Ok(ops)
    ensures AtOpBoundary(PrintOps(ops))
  {
    if ops != [] {
      OpsRoundTrip(ops[1..]);
      HeadRoundTrip(ops[0]);
      OpRoundTrip(ops[0], PrintOps(ops[1..]));
      assert [ops[0]] + ops[1..] == ops;
    }
  }

  // ------------------------------------------------- the printed text's lines

  lemma {:induction false} PrintedHunkLinesAreLines(lines: seq<HunkLine>)
    requires forall i :: 0 <= i < |lines| ==> OneLine(lines[i].text)
    ensures AllOneLine(PrintHunkLines(lines))
  {
    if lines != [] {
      PrintedHunkLinesAreLines(lines[1..]);
      assert OneLine(lines[0].text);
      assert OneLine([KindChar(lines[0].kind)] + lines[0].text);
    }
  }

  lemma {:induction false} PrintedHunksAreLines(hunks: seq<Hunk>)
    requires forall i :: 0 <= i < |hunks| ==> WellFormedHunk(hunks[i])
    ensures AllOneLine(PrintHunks(hunks))
  {
    if hunks != [] {
      PrintedHunksAreLines(hunks[1..]);
      PrintedHunkLinesAreLines(hunks[0].lines);
      assert AllOneLine(PrintHunk(hunks[0]));
    }
  }

  lemma {:induction false} PrintedAddedAreLines(lines: seq<string>)
    requires AllOneLine(lines)
    ensures AllOneLine(PrintAdded(lines))
  {
    if lines != [] {
      PrintedAddedAreLines(lines[1..]);
      assert OneLine(lines[0]);
      assert OneLine("+" + lines[0]);
    }
  }

  lemma {:induction false} PrintedOpsAreLines(ops: seq<PatchOp>)
    requires WellFormedPatch(ops)
    ensures AllOneLine(PrintOps(ops))
  {
    if ops != [] {
      PrintedOpsAreLines(ops[1..]);
      PrintedOpIsLines(ops[0]);
    }
  }

  lemma PrintedHeadIsLine(op: PatchOp)
    requires WellFormedOp(op)
    ensures OneLine(PrintOpHead(op))
  {
    assert OneLine(ADD_FILE) && OneLine(DELETE_FILE) && OneLine(UPDATE_FILE);
  }

  lemma PrintedOpIsLines(op: PatchOp)
    requires WellFormedOp(op)
    ensures AllOneLine(PrintOp(op))
  {
    PrintedHeadIsLine(op);
    match op {
      case Add(_, content) =>
        if content != "" { SplitIsOneLine(content[..|content| - 1]); }
        PrintedAddedAreLines(ContentLines(content));
      case Delete(_) =>
      case Update(_, moveTo, hunks) =>
        PrintedHunksAreLines(hunks);
        PrintedMoveIsLine(moveTo);
    }
  }

  lemma PrintedMoveIsLine(moveTo: Option<string>)
    requires moveTo.Some? ==> WellFormedPath(moveTo.value)
    ensures AllOneLine(PrintMoveTo(moveTo))
  {
    assert OneLine(MOVE_TO);
  }

  lemma EnvelopeMarkers()
    ensures Trim(BEGIN_PATCH) == BEGIN_PATCH && Trim(END_PATCH) == END_PATCH
    ensures OneLine(BEGIN_PATCH) && OneLine(END_PATCH)
  {
    assert BEGIN_PATCH[0] == '*' && BEGIN_PATCH[|BEGIN_PATCH| - 1] == 'h';
    assert END_PATCH[0] == '*' && END_PATCH[|END_PATCH| - 1] == 'h';
    TrimFixesTrimmed(BEGIN_PATCH);
    TrimFixesTrimmed(END_PATCH);
  }

  /** Between its markers a text is read as the lines it was made of. */
  lemma EnvelopeRoundTrip(body: seq<string>)
    requires AllOneLine(body)
    ensures ParsePatch(Terminate([BEGIN_PATCH] + body + [END_PATCH])) == ParseOps(body)
  {
    var lines := [BEGIN_PATCH] + body + [END_PATCH];
    EnvelopeMarkers();
    Enclosed(BEGIN_PATCH, body, END_PATCH);
    EnvelopeLinesRoundTrip(lines);
    EnvelopeIsRead(Terminate(lines), lines);
  }

  lemma Enclosed(first: string, body: seq<string>, last: string)
    ensures var lines := [first] + body + [last];
      && lines[0] == first && lines[|lines| - 1] == last && lines[1..|lines| - 1] == body
      && (OneLine(first) && AllOneLine(body) && OneLine(last) ==> AllOneLine(lines))
  {
  }

  lemma EnvelopeIsRead(input: string, lines: seq<string>)
    requires EnvelopeLines(input) == lines && |lines| > 1
    requires Trim(lines[0]) == BEGIN_PATCH && Trim(lines[|lines| - 1]) == END_PATCH
    ensures ParsePatch(input) == ParseOps(lines[1..|lines| - 1])
  {
  }

  lemma EnvelopeLinesRoundTrip(lines: seq<string>)
    requires AllOneLine(lines)
    ensures EnvelopeLines(Terminate(lines)) == lines
  {
    SplitTerminated(lines);
    assert (lines + [""])[..|lines|] == lines;
  }

  /** Printing a well-formed patch and parsing the text gives the patch back. */
  lemma ParseAfterPrint(ops: seq<PatchOp>)
    requires WellFormedPatch(ops)
    ensures ParsePatch(PrintPatch(ops)) == Ok(ops)
  {
    PrintedOpsAreLines(ops);
    EnvelopeRoundTrip(PrintOps(ops));
    OpsRoundTrip(ops);
  }

  lemma {:induction false} SplitTerminated(lines: seq<string>)
    requires AllOneLine(lines)
    ensures Split(Terminate(lines)) == lines + [""]
  {
    if lines != [] {
      assert OneLine(lines[0]);
      SplitTerminated(lines[1..]);
      SplitLine(lines[0], Terminate(lines[1..]));
      assert [lines[0]] + (lines[1..] + [""]) == lines + [""];
    }
  }

  // ------------------------------------------------ the parser's range

  lemma PathParsedIsWellFormed(raw: string)
    requires OneLine(raw) && RequireRelativePath(raw).Ok?
    ensures WellFormedPath(RequireRelativePath(raw).value)
  {
    TrimIsTrimmed(raw);
  }

  lemma TailIsOneLine(line: string, k: nat)
    requires OneLine(line) && k <= |line|
    ensures OneLine(line[k..])
  {
  }

  lemma {:induction false} HunkLinesParsed(body: seq<string>)
    requires AllOneLine(body) && ParseHunkLines(body).Ok?
    ensures var b := ParseHunkLines(body).value;
            && AllOneLine(b.rest)
            && forall i :: 0 <= i < |b.lines| ==> OneLine(b.lines[i].text)
  {
    if body == [] || body[0] == END_OF_FILE || IsHunkStart(body[0]) || IsFileOpHeader(body[0]) {
    } else {
      HunkLinesParsed(body[1..]);
      assert OneLine(body[0]);
      TailIsOneLine(body[0], 1);
    }
  }

  lemma {:induction false} HunksParsed(body: seq<string>)
    requires AllOneLine(body) && ParseHunks(body).Ok?
    ensures var (hunks, rest) := ParseHunks(body).value;
            && AllOneLine(rest)
            && forall i :: 0 <= i < |hunks| ==> WellFormedHunk(hunks[i])
    decreases |body|
  {
    if body != [] && IsHunkStart(body[0]) {
      assert OneLine(body[0]);
      HunkLinesParsed(body[1..]);
      if StartsWith(body[0], "@@ ") { TailIsOneLine(body[0], 3); }
      TailIsOneLine(body[0], 2);
      TrimStartSuffix(body[0][2..]);
      var (hunk, rest) := ParseHunk(body).value;
      assert WellFormedHunk(hunk);
      HunksParsed(rest);
    }
  }

  lemma {:induction false} AddedParsed(body: seq<string>)
    requires AllOneLine(body)
    ensures AllOneLine(TakeAdded(body).0) && AllOneLine(TakeAdded(body).1)
  {
    if body != [] && StartsWith(body[0], "+") {
      assert OneLine(body[0]);
      TailIsOneLine(body[0], 1);
      AddedParsed(body[1..]);
    }
  }

  lemma {:induction false} TerminateEndsLine(lines: seq<string>)
    ensures Terminate(lines) == "" || Terminate(lines)[|Terminate(lines)| - 1] == '\n'
  {
    if lines != [] { TerminateEndsLine(lines[1..]); }
  }

  lemma HeadParsed(line: string)
    requires OneLine(line) && !ReadOpHead(line).NoHead?
    ensures OneLine(ReadOpHead(line).rawPath)
  {
    if StartsWith(line, ADD_FILE) {
      TailIsOneLine(line, |ADD_FILE|);
    } else if StartsWith(line, DELETE_FILE) {
      TailIsOneLine(line, |DELETE_FILE|);
    } else {
      TailIsOneLine(line, |UPDATE_FILE|);
    }
  }

  lemma UpdateParsed(rawPath: string, body: seq<string>)
    requires OneLine(rawPath) && AllOneLine(body) && ParseUpdate(rawPath, body).Ok?
    ensures WellFormedOp(ParseUpdate(rawPath, body).value.0) && AllOneLine(ParseUpdate(rawPath, body).value.1)
  {
    PathParsedIsWellFormed(rawPath);
    if body != [] && StartsWith(body[0], MOVE_TO) {
      assert OneLine(body[0]);
      TailIsOneLine(body[0], |MOVE_TO|);
      PathParsedIsWellFormed(body[0][|MOVE_TO|..]);
    }
    HunksParsed(ParseMoveTo(body).value.1);
  }

  lemma OpParsed(body: seq<string>)
    requires body != [] && AllOneLine(body) && ParseOp(body).Ok?
    ensures WellFormedOp(ParseOp(body).value.0) && AllOneLine(ParseOp(body).value.1)
  {
    assert OneLine(body[0]);
    HeadParsed(body[0]);
    var rawPath := ReadOpHead(body[0]).rawPath;
    if ReadOpHead(body[0]).UpdateHead? {
      UpdateParsed(rawPath, body[1..]);
    } else {
      PathParsedIsWellFormed(rawPath);
      AddedParsed(body[1..]);
      TerminateEndsLine(TakeAdded(body[1..]).0);
    }
  }

  lemma {:induction false} OpsParsed(body: seq<string>)
    requires AllOneLine(body) && ParseOps(body).Ok?
    ensures WellFormedPatch(ParseOps(body).value)
    decreases |body|
  {
    if body != [] {
      OpParsed(body);
      OpsParsed(ParseOp(body).value.1);
    }
  }

  lemma ParsedIsWellFormed(text: string)
    requires ParsePatch(text).Ok?
    ensures WellFormedPatch(ParsePatch(text).value)
  {
    SplitIsOneLine(text);
    var lines := EnvelopeLines(text);
    assert AllOneLine(lines);
    var body := lines[1..|lines| - 1];
    assert ParsePatch(text) == ParseOps(body);
    OpsParsed(body);
  }

  /** The parser returns well-formed patches only, and every one of them: a
      patch is well-formed exactly when some text parses to it. */
  lemma WellFormedIsParserRange(ops: seq<PatchOp>)
    ensures WellFormedPatch(ops) <==> exists text :: ParsePatch(text) == Ok(ops)
  {
    if WellFormedPatch(ops) {
      ParseAfterPrint(ops);
    }
    forall text | ParsePatch(text) == Ok(ops)
      ensures WellFormedPatch(ops)
    {
      ParsedIsWellFormed(text);
    }
  }

  /** For every accepted text, printing what was read loses nothing. */
  lemma PrintAfterParse(text: string)
    requires ParsePatch(text).Ok?
    ensures ParsePatch(PrintPatch(ParsePatch(text).value)) == ParsePatch(text)
  {
    ParsedIsWellFormed(text);
    ParseAfterPrint(ParsePatch(text).value);
  }
}
