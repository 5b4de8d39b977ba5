/** The patch envelope: its data model, its concrete syntax, the parser as a
    function of the lines still to read, and the printer for the grammar the
    parser documents (src/agent/codex-apply-patch.ts:4-10). */
module PatchSyntax {
  import opened Common
  import opened Text

  const BEGIN_PATCH := "*** Begin Patch"
  const END_PATCH := "*** End Patch"
  const ADD_FILE := "*** Add File: "
  const DELETE_FILE := "*** Delete File: "
  const UPDATE_FILE := "*** Update File: "
  const MOVE_TO := "*** Move to: "
  const END_OF_FILE := "*** End of File"

  datatype LineKind = Context | Removed | Added

  datatype HunkLine = HunkLine(kind: LineKind, text: string)

  datatype Hunk = Hunk(header: Option<string>, lines: seq<HunkLine>, endOfFile: bool)

  datatype PatchOp =
    | Add(path: string, content: string)
    | Delete(path: string)
    | Update(path: string, moveTo: Option<string>, hunks: seq<Hunk>)

  datatype ParseError =
    | MissingBegin
    | MissingEnd
    | EmptyPath
    | AbsolutePath
    | MalformedAdd
    | MalformedUpdate
    | ExpectedFileOp
    | EmptyHunk
    | MarkerInsideHunk
    | InvalidHunkLine

  // ---------------------------------------------------------------- lines

  predicate IsFileOpHeader(line: string) {
    StartsWith(line, ADD_FILE) || StartsWith(line, DELETE_FILE) || StartsWith(line, UPDATE_FILE)
  }

  predicate IsHunkStart(line: string) {
    StartsWith(line, "@@")
  }

  predicate IsAbsolute(path: string) {
    || StartsWith(path, "/")
    || StartsWith(path, "\\\\")
    || (|path| >= 3 && ('A' <= path[0] <= 'Z' || 'a' <= path[0] <= 'z') && path[1] == ':' && path[2] in "\\/")
  }

  function RequireRelativePath(raw: string): (r: Result<string, ParseError>) {
    var path := Trim(raw);
    if path == "" then Err(EmptyPath)
    else if IsAbsolute(path) then Err(AbsolutePath)
    else Ok(path)
  }

  function KindChar(kind: LineKind): char {
    match kind
    case Context => ' '
    case Removed => '-'
    case Added => '+'
  }

  function KindOf(c: char): Option<LineKind> {
    if c == ' ' then Some(Context)
    else if c == '-' then Some(Removed)
    else if c == '+' then Some(Added)
    else None
  }

  /** The header of the hunk that `line` opens. */
  function HunkHeader(line: string): Option<string>
    requires IsHunkStart(line)
  {
    if line == "@@" then None
    else if StartsWith(line, "@@ ") then Some(line[3..])
    else Some(TrimStart(line[2..]))
  }

  // ---------------------------------------------------------------- parser

  /** The lines of one hunk, whether an End of File marker closed it, and what follows. */
  datatype HunkBody = HunkBody(lines: seq<HunkLine>, endOfFile: bool, rest: seq<string>)

  function ParseHunkLines(body: seq<string>): (r: Result<HunkBody, ParseError>)
    ensures r.Ok? ==> |r.value.rest| <= |body|
  {
    if body == [] then Ok(HunkBody([], false, []))
    else if body[0] == END_OF_FILE then Ok(HunkBody([], true, body[1..]))
    else if IsHunkStart(body[0]) || IsFileOpHeader(body[0]) then Ok(HunkBody([], false, body))
    else if StartsWith(body[0], "***") then Err(MarkerInsideHunk)
    else if body[0] == "" || KindOf(body[0][0]).None? then Err(InvalidHunkLine)
    else
      var more :- ParseHunkLines(body[1..]);
      Ok(more.(lines := [HunkLine(KindOf(body[0][0]).value, body[0][1..])] + more.lines))
  }

  function ParseHunk(body: seq<string>): (r: Result<(Hunk, seq<string>), ParseError>)
    requires body != [] && IsHunkStart(body[0])
    ensures r.Ok? ==> |r.value.1| < |body|
  {
    var header := HunkHeader(body[0]);
    var b :- ParseHunkLines(body[1..]);
    if !b.endOfFile && b.lines == [] && (header.None? || header.value == "") then Err(EmptyHunk)
    else Ok((Hunk(header, b.lines, b.endOfFile), b.rest))
  }

  function ParseHunks(body: seq<string>): (r: Result<(seq<Hunk>, seq<string>), ParseError>)
    ensures r.Ok? ==> |r.value.1| <= |body|
    decreases |body|
  {
    if body == [] || !IsHunkStart(body[0]) then Ok(([], body))
    else
      var (hunk, rest) :- ParseHunk(body);
      var (hunks, end) :- ParseHunks(rest);
      Ok(([hunk] + hunks, end))
  }

  lemma ParseHunksStep(body: seq<string>, hunk: Hunk, rest: seq<string>)
    requires body != [] && IsHunkStart(body[0]) && ParseHunk(body) == Ok((hunk, rest))
    ensures var more := ParseHunks(rest);
      ParseHunks(body) == if more.Err? then Err(more.error) else Ok(([hunk] + more.value.0, more.value.1))
  {
  }

  /** The `+` lines at the head of `body` without their marker, and what follows. */
  function TakeAdded(body: seq<string>): (r: (seq<string>, seq<string>))
    ensures |r.1| <= |body|
  {
    if body == [] || !StartsWith(body[0], "+") then ([], body)
    else
      var (lines, rest) := TakeAdded(body[1..]);
      ([body[0][1..]] + lines, rest)
  }

  function ParseMoveTo(body: seq<string>): (r: Result<(Option<string>, seq<string>), ParseError>)
    ensures r.Ok? ==> |r.value.1| <= |body|
  {
    if body == [] || !StartsWith(body[0], MOVE_TO) then Ok((None, body))
    else
      var path :- RequireRelativePath(body[0][|MOVE_TO|..]);
      Ok((Some(path), body[1..]))
  }

  function ParseUpdate(rawPath: string, body: seq<string>): (r: Result<(PatchOp, seq<string>), ParseError>)
    ensures r.Ok? ==> |r.value.1| <= |body|
  {
    var path :- RequireRelativePath(rawPath);
    var (moveTo, afterMove) :- ParseMoveTo(body);
    var (hunks, rest) :- ParseHunks(afterMove);
    if rest != [] && !IsFileOpHeader(rest[0]) then Err(MalformedUpdate)
    else Ok((Update(path, moveTo, hunks), rest))
  }

  /** Which file operation a line opens, with the path as written. */
  datatype OpHead = AddHead(rawPath: string) | DeleteHead(rawPath: string) | UpdateHead(rawPath: string) | NoHead

  function ReadOpHead(line: string): OpHead {
    if StartsWith(line, ADD_FILE) then AddHead(line[|ADD_FILE|..])
    else if StartsWith(line, DELETE_FILE) then DeleteHead(line[|DELETE_FILE|..])
    else if StartsWith(line, UPDATE_FILE) then UpdateHead(line[|UPDATE_FILE|..])
    else NoHead
  }

  function ParseOp(body: seq<string>): (r: Result<(PatchOp, seq<string>), ParseError>)
    requires body != []
    ensures r.Ok? ==> |r.value.1| < |body|
  {
    match ReadOpHead(body[0])
    case AddHead(rawPath) =>
      var path :- RequireRelativePath(rawPath);
      var (lines, rest) := TakeAdded(body[1..]);
      if rest != [] && !IsFileOpHeader(rest[0]) then Err(MalformedAdd)
      else Ok((Add(path, Terminate(lines)), rest))
    case DeleteHead(rawPath) =>
      var path :- RequireRelativePath(rawPath);
      Ok((Delete(path), body[1..]))
    case UpdateHead(rawPath) =>
      ParseUpdate(rawPath, body[1..])
    case NoHead => Err(ExpectedFileOp)
  }

  function ParseOps(body: seq<string>): Result<seq<PatchOp>, ParseError>
    decreases |body|
  {
    if body == [] then Ok([])
    else
      var (op, rest) :- ParseOp(body);
      var ops :- ParseOps(rest);
      Ok([op] + ops)
  }

  /** The lines of the input without the blank one a final newline leaves. */
  function EnvelopeLines(input: string): seq<string> {
    var raw := Split(input);
    if raw[|raw| - 1] == "" then raw[..|raw| - 1] else raw
  }

  function ParsePatch(input: string): Result<seq<PatchOp>, ParseError> {
    var lines := EnvelopeLines(input);
    if lines == [] || Trim(lines[0]) != BEGIN_PATCH then Err(MissingBegin)
    else if Trim(lines[|lines| - 1]) != END_PATCH then Err(MissingEnd)
    else
      assert |lines| > 1 by { assert BEGIN_PATCH[4] == 'B' && END_PATCH[4] == 'E'; }
      ParseOps(lines[1..|lines| - 1])
  }

  // --------------------------------------------------------------- printer

  function PrintHunkLines(lines: seq<HunkLine>): seq<string> {
    if lines == [] then []
    else [[KindChar(lines[0].kind)] + lines[0].text] + PrintHunkLines(lines[1..])
  }

  function PrintHunk(hunk: Hunk): seq<string> {
    [if hunk.header.None? then "@@" else "@@ " + hunk.header.value]
    + PrintHunkLines(hunk.lines)
    + if hunk.endOfFile then [END_OF_FILE] else []
  }

  function PrintHunks(hunks: seq<Hunk>): seq<string> {
    if hunks == [] then [] else PrintHunk(hunks[0]) + PrintHunks(hunks[1..])
  }

  function PrintAdded(lines: seq<string>): seq<string> {
    if lines == [] then [] else ["+" + lines[0]] + PrintAdded(lines[1..])
  }

  /** The lines a file body is made of; `Terminate` puts them together again. */
  function ContentLines(content: string): seq<string> {
    if content == "" then [] else Split(content[..|content| - 1])
  }

  function PrintOpHead(op: PatchOp): string {
    match op
    case Add(path, _) => ADD_FILE + path
    case Delete(path) => DELETE_FILE + path
    case Update(path, _, _) => UPDATE_FILE + path
  }

  function PrintMoveTo(moveTo: Option<string>): seq<string> {
    if moveTo.None? then [] else [MOVE_TO + moveTo.value]
  }

  function PrintOp(op: PatchOp): seq<string> {
    [PrintOpHead(op)] +
    match op
    case Add(_, content) => PrintAdded(ContentLines(content))
    case Delete(_) => []
    case Update(_, moveTo, hunks) => PrintMoveTo(moveTo) + PrintHunks(hunks)
  }

  function PrintOps(ops: seq<PatchOp>): seq<string> {
    if ops == [] then [] else PrintOp(ops[0]) + PrintOps(ops[1..])
  }

  function PrintPatch(ops: seq<PatchOp>): string {
    Terminate([BEGIN_PATCH] + PrintOps(ops) + [END_PATCH])
  }

  // ---------------------------------------------------- well-formed patches

  predicate WellFormedPath(path: string) {
    path != "" && Trimmed(path) && !IsAbsolute(path) && OneLine(path)
  }

  predicate WellFormedHunk(hunk: Hunk) {
    && (hunk.header.Some? ==> OneLine(hunk.header.value))
    && (forall i :: 0 <= i < |hunk.lines| ==> OneLine(hunk.lines[i].text))
    && (hunk.lines == [] && !hunk.endOfFile ==> hunk.header.Some? && hunk.header.value != "")
  }

  predicate WellFormedOp(op: PatchOp) {
    WellFormedPath(op.path) &&
    match op
    case Add(_, content) => content == "" || content[|content| - 1] == '\n'
    case Delete(_) => true
    case Update(_, moveTo, hunks) =>
      && (moveTo.Some? ==> WellFormedPath(moveTo.value))
      && forall i :: 0 <= i < |hunks| ==> WellFormedHunk(hunks[i])
  }

  predicate WellFormedPatch(ops: seq<PatchOp>) {
    forall i :: 0 <= i < |ops| ==> WellFormedOp(ops[i])
  }
}
