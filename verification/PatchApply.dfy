/** Applying update hunks to a file body with a moving cursor. */
module PatchApply {
  import opened Common
  import opened Text
  import opened PatchSyntax
  import opened PatchSearch

  datatype ApplyError = HeaderNotFound(header: string) | LinesNotFound(lines: seq<string>)

  /** The file as lines while hunks apply; the cursor is where the next search starts. */
  datatype Progress = Progress(lines: seq<string>, cursor: nat)

  function OldLines(lines: seq<HunkLine>): seq<string> {
    if lines == [] then []
    else (if lines[0].kind.Added? then [] else [lines[0].text]) + OldLines(lines[1..])
  }

  function NewLines(lines: seq<HunkLine>): seq<string> {
    if lines == [] then []
    else (if lines[0].kind.Removed? then [] else [lines[0].text]) + NewLines(lines[1..])
  }

  function SeekHeader(p: Progress, header: Option<string>): (r: Result<nat, ApplyError>)
    requires p.cursor <= |p.lines|
    ensures r.Ok? ==> p.cursor <= r.value <= |p.lines|
    ensures r.Ok? && header.Some? && header.value != "" ==>
              p.cursor < r.value && Trim(p.lines[r.value - 1]) == Trim(header.value)
  {
    if header.None? || header.value == "" then Ok(p.cursor)
    else
      var at := FindLine(p.lines, header.value, p.cursor);
      if at == -1 then Err(HeaderNotFound(header.value)) else Ok(at + 1)
  }

  function Splice(lines: seq<string>, at: nat, removed: nat, inserted: seq<string>): (p: Progress)
    requires at + removed <= |lines|
    ensures p.cursor <= |p.lines|
  {
    Progress(lines[..at] + inserted + lines[at + removed..], at + |inserted|)
  }

  predicate EqualUpToTrim(a: seq<string>, b: seq<string>) {
    |a| == |b| && forall i :: 0 <= i < |a| ==> Trim(a[i]) == Trim(b[i])
  }

  lemma FindInRange(lines: seq<string>, pattern: seq<string>, from: nat, endOfFile: bool)
    requires pattern != []
    ensures var r := Find(lines, pattern, from, endOfFile);
      && (r != -1 ==> 0 <= r <= |lines| - |pattern| && WindowAt(SurroundingSpace, lines, pattern, r))
      && (r != -1 && (!endOfFile || r + |pattern| != |lines|) ==> from <= r)
  {
    forall i ensures WindowAt(Exact, lines, pattern, i) ==> WindowAt(TrailingSpace, lines, pattern, i)
             ensures WindowAt(TrailingSpace, lines, pattern, i) ==> WindowAt(SurroundingSpace, lines, pattern, i) {
      WindowLoosens(lines, pattern, i);
    }
    if endOfFile {
      FindAtEndOfFile(lines, pattern, from);
    } else {
      FindIsLeastAtStrictestTier(lines, pattern, from);
    }
  }

  lemma WindowIsBlock(lines: seq<string>, pattern: seq<string>, start: nat)
    requires WindowAt(SurroundingSpace, lines, pattern, start)
    ensures EqualUpToTrim(lines[start..start + |pattern|], pattern)
  {
    forall j | 0 <= j < |pattern| ensures Trim(lines[start..start + |pattern|][j]) == Trim(pattern[j]) {
      assert Matches(SurroundingSpace, lines[start + j], pattern[j]);
    }
  }

  /** Where the hunk's old lines are, given where its header left the cursor. */
  function LocateBlock(lines: seq<string>, from: nat, oldLines: seq<string>, anchorOnly: bool, endOfFile: bool)
    : (r: Result<nat, ApplyError>)
    requires from <= |lines|
    ensures r.Ok? ==> r.value + |oldLines| <= |lines| && EqualUpToTrim(lines[r.value..r.value + |oldLines|], oldLines)
    ensures r.Ok? ==> from <= r.value || (endOfFile && r.value + |oldLines| == |lines|)
  {
    if oldLines == [] then Ok(if endOfFile && !anchorOnly then |lines| else from)
    else
      var start := Find(lines, oldLines, from, endOfFile);
      FindInRange(lines, oldLines, from, endOfFile);
      if start == -1 then Err(LinesNotFound(oldLines))
      else
        WindowIsBlock(lines, oldLines, start);
        Ok(start)
  }

  /** The hunk's old lines, found from the header on, give way to its new
      lines. A hunk with neither only moves the cursor past its header. */
  function ApplyHunk(p: Progress, hunk: Hunk): (r: Result<Progress, ApplyError>)
    requires p.cursor <= |p.lines|
    ensures r.Ok? ==> r.value.cursor <= |r.value.lines|
  {
    var from :- SeekHeader(p, hunk.header);
    var oldLines, newLines := OldLines(hunk.lines), NewLines(hunk.lines);
    var start :- LocateBlock(p.lines, from, oldLines, newLines == [], hunk.endOfFile);
    Ok(Splice(p.lines, start, |oldLines|, newLines))
  }

  function ApplyHunks(p: Progress, hunks: seq<Hunk>): (r: Result<Progress, ApplyError>)
    requires p.cursor <= |p.lines|
    ensures r.Ok? ==> r.value.cursor <= |r.value.lines|
    decreases |hunks|
  {
    if hunks == [] then Ok(p)
    else
      var next :- ApplyHunk(p, hunks[0]);
      ApplyHunks(next, hunks[1..])
  }

  function ReadLines(original: string): seq<string> {
    if original == "" || original == "\n" then []
    else if original[|original| - 1] == '\n' then Split(original[..|original| - 1])
    else Split(original)
  }

  function WriteText(original: string, lines: seq<string>): string {
    if lines != [] then Terminate(lines)
    else if |original| > 0 then "\n" else ""
  }

  function UpdatedText(original: string, hunks: seq<Hunk>): Result<string, ApplyError> {
    var p :- ApplyHunks(Progress(ReadLines(original), 0), hunks);
    Ok(WriteText(original, p.lines))
  }

  // ------------------------------------------------------- the hunk loop

  lemma EmptySplice(lines: seq<string>, at: nat)
    requires at <= |lines|
    ensures Splice(lines, at, 0, []) == Progress(lines, at)
  {
    assert lines[..at] + [] + lines[at..] == lines;
  }

  /** One line more is collected in front of the rest. */
  lemma CollectLine(oldLines: seq<string>, newLines: seq<string>, lines: seq<HunkLine>)
    requires lines != []
    ensures oldLines + OldLines(lines)
            == (if lines[0].kind.Added? then oldLines else oldLines + [lines[0].text]) + OldLines(lines[1..])
    ensures newLines + NewLines(lines)
            == (if lines[0].kind.Removed? then newLines else newLines + [lines[0].text]) + NewLines(lines[1..])
  {
    Associates(oldLines, [lines[0].text], OldLines(lines[1..]));
    Associates(newLines, [lines[0].text], NewLines(lines[1..]));
  }

  method CollectLines(lines: seq<HunkLine>) returns (oldLines: seq<string>, newLines: seq<string>)
    ensures oldLines == OldLines(lines) && newLines == NewLines(lines)
  {
    oldLines, newLines := [], [];
    var i := 0;
    while i < |lines|
      invariant 0 <= i <= |lines|
      invariant OldLines(lines) == oldLines + OldLines(lines[i..])
      invariant NewLines(lines) == newLines + NewLines(lines[i..])
    {
      CollectLine(oldLines, newLines, lines[i..]);
      assert lines[i..][1..] == lines[i + 1..];
      if lines[i].kind != Added {
        oldLines := oldLines + [lines[i].text];
      }
      if lines[i].kind != Removed {
        newLines := newLines + [lines[i].text];
      }
      i := i + 1;
    }
  }

  /** Behind the header, if the hunk has one. */
  method SeekHeaderAt(lines: seq<string>, cursor: nat, header: Option<string>) returns (r: Result<nat, ApplyError>)
    requires cursor <= |lines|
    ensures r == SeekHeader(Progress(lines, cursor), header)
  {
    if header.Some? && header.value != "" {
      var at := FindLineFrom(lines, header.value, cursor);
      if at == -1 {
        return Err(HeaderNotFound(header.value));
      }
      return Ok(at + 1);
    }
    return Ok(cursor);
  }

  /** One pass of the loop over the hunks. */
  method ApplyHunkAt(lines: seq<string>, cursor: nat, hunk: Hunk) returns (r: Result<Progress, ApplyError>)
    requires cursor <= |lines|
    ensures r == ApplyHunk(Progress(lines, cursor), hunk)
  {
    var sought := SeekHeaderAt(lines, cursor, hunk.header);
    if sought.Err? {
      return Err(sought.error);
    }
    var from := sought.value;
    var oldLines, newLines := CollectLines(hunk.lines);
    if |oldLines| == 0 {
      if |newLines| == 0 {
        EmptySplice(lines, from);
        return Ok(Progress(lines, from));
      }
      var at := if hunk.endOfFile then |lines| else from;
      return Ok(Splice(lines, at, 0, newLines));
    }
    var start := FindSequence(lines, oldLines, from, hunk.endOfFile);
    if start == -1 {
      return Err(LinesNotFound(oldLines));
    }
    FindInRange(lines, oldLines, from, hunk.endOfFile);
    return Ok(Splice(lines, start, |oldLines|, newLines));
  }

  method ApplyUpdateHunks(original: string, hunks: seq<Hunk>) returns (r: Result<string, ApplyError>)
    ensures r == UpdatedText(original, hunks)
  {
    var lines := ReadLines(original);
    var cursor := 0;
    var h := 0;
    assert hunks[0..] == hunks;
    while h < |hunks|
      invariant 0 <= h <= |hunks| && 0 <= cursor <= |lines|
      invariant ApplyHunks(Progress(ReadLines(original), 0), hunks) == ApplyHunks(Progress(lines, cursor), hunks[h..])
    {
      assert hunks[h..][1..] == hunks[h + 1..];
      var next := ApplyHunkAt(lines, cursor, hunks[h]);
      if next.Err? {
        return Err(next.error);
      }
      lines, cursor := next.value.lines, next.value.cursor;
      h := h + 1;
    }
    return Ok(WriteText(original, lines));
  }
}
