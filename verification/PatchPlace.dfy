/** Where each hunk of an update applies and what it leaves there, and what that
    makes of the whole file. */
module PatchPlace {
  import opened Common
  import opened Text
  import opened PatchSyntax
  import opened PatchSearch
  import opened PatchApply

  // ---------------------------------------------------------- the cursor

  predicate IsSuffix(tail: seq<string>, whole: seq<string>) {
    |tail| <= |whole| && tail == whole[|whole| - |tail|..]
  }

  lemma CutIsSuffix(whole: seq<string>, from: nat, to: nat)
    requires from <= to <= |whole|
    ensures IsSuffix(whole[to..], whole[from..])
  {
  }

  lemma SpliceParts(lines: seq<string>, at: nat, removed: nat, inserted: seq<string>)
    requires at + removed <= |lines|
    ensures var q := Splice(lines, at, removed, inserted);
            q.lines[q.cursor..] == lines[at + removed..] && q.lines[..q.cursor] == lines[..at] + inserted
  {
  }

  lemma HunkKeepsSuffix(p: Progress, hunk: Hunk)
    requires p.cursor <= |p.lines| && ApplyHunk(p, hunk).Ok?
    ensures var q := ApplyHunk(p, hunk).value; IsSuffix(q.lines[q.cursor..], p.lines[p.cursor..])
  {
    var oldLines, newLines := OldLines(hunk.lines), NewLines(hunk.lines);
    var from := SeekHeader(p, hunk.header).value;
    var start := LocateBlock(p.lines, from, oldLines, newLines == [], hunk.endOfFile).value;
    SpliceParts(p.lines, start, |oldLines|, newLines);
    CutIsSuffix(p.lines, p.cursor, start + |oldLines|);
  }

  /** For every hunk list, End of File markers included, whatever lies beyond
      the cursor is an untouched tail of the file. */
  lemma {:induction false} BeyondCursorIsUntouched(p: Progress, hunks: seq<Hunk>)
    requires p.cursor <= |p.lines| && ApplyHunks(p, hunks).Ok?
    ensures var q := ApplyHunks(p, hunks).value; IsSuffix(q.lines[q.cursor..], p.lines[p.cursor..])
    decreases |hunks|
  {
    if hunks != [] {
      HunkKeepsSuffix(p, hunks[0]);
      BeyondCursorIsUntouched(ApplyHunk(p, hunks[0]).value, hunks[1..]);
    }
  }

  // ------------------------------------------------- the sides of a hunk

  function Texts(lines: seq<HunkLine>): seq<string> {
    seq(|lines|, i requires 0 <= i < |lines| => lines[i].text)
  }

  /** `side` is the texts of the wanted lines, in their order. */
  ghost predicate IsSide(lines: seq<HunkLine>, side: seq<string>, wanted: HunkLine -> bool) {
    exists kept :: Picks(lines, kept, wanted) && side == Texts(kept)
  }

  lemma TextsOneMore(first: HunkLine, kept: seq<HunkLine>)
    ensures Texts([first] + kept) == [first.text] + Texts(kept)
  {
  }

  lemma SideOneMore(first: HunkLine, lines: seq<HunkLine>, side: seq<string>, wanted: HunkLine -> bool)
    requires IsSide(lines, side, wanted)
    ensures IsSide([first] + lines, (if wanted(first) then [first.text] else []) + side, wanted)
  {
    hide Picks, Texts;
    var kept :| Picks(lines, kept, wanted) && side == Texts(kept);
    PicksOneMore(first, lines, kept, wanted);
    if wanted(first) {
      TextsOneMore(first, kept);
    } else {
      assert [] + kept == kept && [] + side == side;
    }
  }

  /** The old side of a hunk is its lines that are not added, the new side those
      that are not removed. */
  lemma {:induction false} HunkSides(lines: seq<HunkLine>)
    ensures IsSide(lines, OldLines(lines), (l: HunkLine) => !l.kind.Added?)
    ensures IsSide(lines, NewLines(lines), (l: HunkLine) => !l.kind.Removed?)
  {
    var notAdded, notRemoved := (l: HunkLine) => !l.kind.Added?, (l: HunkLine) => !l.kind.Removed?;
    if lines == [] {
      PicksNothing(notAdded);
      PicksNothing(notRemoved);
      assert Texts([]) == [];
    } else {
      HunkSides(lines[1..]);
      SideOneMore(lines[0], lines[1..], OldLines(lines[1..]), notAdded);
      SideOneMore(lines[0], lines[1..], NewLines(lines[1..]), notRemoved);
      assert [lines[0]] + lines[1..] == lines;
    }
  }

  // ------------------------------------------------- where a hunk applies

  /** The hunk's header, if it has one, leaves the search at `from`: behind the
      first line that matches it at the strictest tier with any. */
  ghost predicate HeaderLeaves(lines: seq<string>, header: Option<string>, cursor: nat, from: nat) {
    if header.None? || header.value == "" then from == cursor
    else from > 0 && HeaderIsAt(lines, header.value, cursor, from - 1)
  }

  ghost predicate HeaderIsAt(lines: seq<string>, header: string, cursor: nat, at: nat) {
    exists tier :: LineFound(tier, lines, header, cursor, at)
  }

  /** The block of old lines is at `at`: with the marker, the last window of the
      file if that matches, and else the first from the header on, at the
      strictest tier with either. */
  ghost predicate BlockIsAt(lines: seq<string>, oldLines: seq<string>, from: nat, endOfFile: bool, at: int) {
    if endOfFile then exists tier :: LastBlockFound(tier, lines, oldLines, from, at)
    else exists tier :: BlockFound(tier, lines, oldLines, from, at)
  }

  /** What a hunk does from behind its header on. */
  ghost predicate AppliesFrom(p: Progress, hunk: Hunk, from: nat, q: Progress)
    requires from <= |p.lines|
  {
    var lines, oldLines, newLines := p.lines, OldLines(hunk.lines), NewLines(hunk.lines);
    if oldLines != [] then
      exists at: nat ::
        && BlockIsAt(lines, oldLines, from, hunk.endOfFile, at) && at + |oldLines| <= |lines|
        && q == Progress(lines[..at] + newLines + lines[at + |oldLines|..], at + |newLines|)
    else if newLines == [] then q == Progress(lines, from)
    else if hunk.endOfFile then q == Progress(lines + newLines, |lines| + |newLines|)
    else q == Progress(lines[..from] + newLines + lines[from..], from + |newLines|)
  }

  lemma SoughtHeader(p: Progress, header: Option<string>)
    requires p.cursor <= |p.lines|
    ensures match SeekHeader(p, header)
            case Ok(from) => HeaderLeaves(p.lines, header, p.cursor, from)
            case Err(e) => header.Some? && header.value != "" && e == HeaderNotFound(header.value)
                           && !HasLine(SurroundingSpace, p.lines, header.value, p.cursor)
  {
    if header.Some? && header.value != "" {
      HeaderIsLeastAtStrictestTier(p.lines, header.value, p.cursor);
    }
  }

  lemma LocatedBlock(lines: seq<string>, from: nat, oldLines: seq<string>, anchorOnly: bool, endOfFile: bool)
    requires from <= |lines|
    ensures match LocateBlock(lines, from, oldLines, anchorOnly, endOfFile)
            case Ok(at) => if oldLines == [] then at == (if endOfFile && !anchorOnly then |lines| else from)
                           else BlockIsAt(lines, oldLines, from, endOfFile, at)
            case Err(e) => oldLines != [] && e == LinesNotFound(oldLines) && !HasWindow(SurroundingSpace, lines, oldLines, from)
  {
    if oldLines == [] {
    } else if endOfFile {
      FindAtEndOfFile(lines, oldLines, from);
    } else {
      FindIsLeastAtStrictestTier(lines, oldLines, from);
    }
  }

  /** The hunk is applied from behind its header on. */
  ghost predicate Applies(p: Progress, hunk: Hunk, q: Progress) {
    exists from: nat ::
      from <= |p.lines| && HeaderLeaves(p.lines, hunk.header, p.cursor, from) && AppliesFrom(p, hunk, from, q)
  }

  lemma SpliceAtEnd(lines: seq<string>, inserted: seq<string>)
    ensures Splice(lines, |lines|, 0, inserted) == Progress(lines + inserted, |lines| + |inserted|)
  {
    assert lines[..|lines|] == lines && lines[|lines|..] == [];
  }

  lemma BlockApplies(p: Progress, hunk: Hunk, from: nat)
    requires from <= |p.lines|
    ensures var oldLines, newLines := OldLines(hunk.lines), NewLines(hunk.lines);
      match LocateBlock(p.lines, from, oldLines, newLines == [], hunk.endOfFile)
      case Ok(at) => AppliesFrom(p, hunk, from, Splice(p.lines, at, |oldLines|, newLines))
      case Err(e) => oldLines != [] && e == LinesNotFound(oldLines) && !HasWindow(SurroundingSpace, p.lines, oldLines, from)
  {
    hide BlockIsAt, HasWindow, LocateBlock, OldLines, NewLines, EqualUpToTrim;
    var oldLines, newLines := OldLines(hunk.lines), NewLines(hunk.lines);
    LocatedBlock(p.lines, from, oldLines, newLines == [], hunk.endOfFile);
    if oldLines != [] {
    } else if newLines == [] {
      EmptySplice(p.lines, from);
    } else if hunk.endOfFile {
      SpliceAtEnd(p.lines, newLines);
    }
  }

  /** Where a hunk applies and what it leaves there: a hunk with old lines replaces
      the block found for them; one that only inserts does so at the end of the file
      if it carries the marker, and else right behind its header, or at the cursor
      when it has none; one with neither moves the cursor. It fails when its header
      or its old lines are nowhere to be found, not even after trimming. */
  lemma HunkPlace(p: Progress, hunk: Hunk)
    requires p.cursor <= |p.lines|
    ensures match ApplyHunk(p, hunk)
            case Ok(q) => Applies(p, hunk, q)
            case Err(HeaderNotFound(header)) =>
              hunk.header == Some(header) && header != "" && !HasLine(SurroundingSpace, p.lines, header, p.cursor)
            case Err(LinesNotFound(lines)) =>
              lines == OldLines(hunk.lines) != [] && exists from: nat ::
                HeaderLeaves(p.lines, hunk.header, p.cursor, from) && !HasWindow(SurroundingSpace, p.lines, lines, from)
  {
    hide SeekHeader, LocateBlock, HeaderLeaves, AppliesFrom, HasWindow, HasLine;
    SoughtHeader(p, hunk.header);
    var sought := SeekHeader(p, hunk.header);
    if sought.Ok? {
      BlockApplies(p, hunk, sought.value);
    }
  }

  // -------------------------------------------------- hunks as a factoring

  /** One hunk's place in the file: what it skips, what it replaces, what is
      left for the hunks after it, and what those make of that. */
  datatype Cut = Cut(gap: seq<string>, block: seq<string>, rest: seq<string>, out: seq<string>)

  /** The gap is as short as can be: the block is the first from the header on at
      the strictest tier with any, and an insertion comes right behind it. */
  ghost predicate IsCut(cut: Cut, hunk: Hunk, before: seq<string>, after: seq<string>) {
    && before == cut.gap + cut.block + cut.rest
    && after == cut.gap + NewLines(hunk.lines) + cut.out
    && |cut.block| == |OldLines(hunk.lines)|
    && exists from: nat ::
         && HeaderLeaves(before, hunk.header, 0, from)
         && if cut.block == [] then |cut.gap| == from
            else exists tier :: BlockFound(tier, before, OldLines(hunk.lines), from, |cut.gap|)
  }

  /** `before` is gap, old, gap, old, …, gap and `after` is the same gaps with
      each hunk's new lines in place of its old block, in hunk order. */
  ghost predicate Factors(before: seq<string>, hunks: seq<Hunk>, after: seq<string>)
    decreases |hunks|
  {
    if hunks == [] then before == after
    else exists cut :: IsCut(cut, hunks[0], before, after) && Factors(cut.rest, hunks[1..], cut.out)
  }

  predicate NoEndOfFile(hunks: seq<Hunk>) {
    forall i :: 0 <= i < |hunks| ==> !hunks[i].endOfFile
  }

  /** The search from the cursor is the search of what lies beyond it. */
  lemma WindowBehindCursor(tier: Tier, lines: seq<string>, pattern: seq<string>, cursor: nat, at: int)
    requires cursor <= |lines| && cursor <= at
    ensures WindowAt(tier, lines[cursor..], pattern, at - cursor) == WindowAt(tier, lines, pattern, at)
  {
    var tail := lines[cursor..];
    if WindowAt(tier, tail, pattern, at - cursor) {
      forall j | 0 <= j < |pattern| ensures Matches(tier, lines[at + j], pattern[j]) {
        assert Matches(tier, tail[at - cursor + j], pattern[j]);
      }
    }
    if WindowAt(tier, lines, pattern, at) {
      forall j | 0 <= j < |pattern| ensures Matches(tier, tail[at - cursor + j], pattern[j]) {
        assert Matches(tier, lines[at + j], pattern[j]);
      }
    }
  }

  lemma NoWindowBehindCursor(tier: Tier, lines: seq<string>, pattern: seq<string>, cursor: nat, from: nat)
    requires cursor <= from && cursor <= |lines| && !HasWindow(tier, lines, pattern, from)
    ensures !HasWindow(tier, lines[cursor..], pattern, from - cursor)
  {
    forall i | from - cursor <= i ensures !WindowAt(tier, lines[cursor..], pattern, i) {
      WindowBehindCursor(tier, lines, pattern, cursor, i + cursor);
    }
  }

  lemma BlockBehindCursor(tier: Tier, lines: seq<string>, pattern: seq<string>, cursor: nat, from: nat, at: int)
    requires cursor <= from && cursor <= |lines| && BlockFound(tier, lines, pattern, from, at)
    ensures BlockFound(tier, lines[cursor..], pattern, from - cursor, at - cursor)
  {
    WindowBehindCursor(tier, lines, pattern, cursor, at);
    forall i | from - cursor <= i < at - cursor ensures !WindowAt(tier, lines[cursor..], pattern, i) {
      WindowBehindCursor(tier, lines, pattern, cursor, i + cursor);
    }
    if tier != Exact {
      NoWindowBehindCursor(Exact, lines, pattern, cursor, from);
    }
    if tier == SurroundingSpace {
      NoWindowBehindCursor(TrailingSpace, lines, pattern, cursor, from);
    }
  }

  lemma LineBehindCursor(tier: Tier, lines: seq<string>, target: string, cursor: nat, at: int)
    requires cursor <= |lines| && LineFound(tier, lines, target, cursor, at)
    ensures LineFound(tier, lines[cursor..], target, 0, at - cursor)
  {
    var tail := lines[cursor..];
    assert forall i :: 0 <= i < |tail| ==> tail[i] == lines[i + cursor];
    forall i | 0 <= i < at - cursor ensures !Matches(tier, tail[i], target) {
      assert !Matches(tier, lines[i + cursor], target);
    }
    forall t, i | 0 <= i < |tail| && Matches(t, tail[i], target) ensures HasLine(t, lines, target, cursor) {
      assert Matches(t, lines[i + cursor], target);
    }
  }

  lemma HeaderBehindCursor(lines: seq<string>, header: Option<string>, cursor: nat, from: nat)
    requires cursor <= |lines| && HeaderLeaves(lines, header, cursor, from)
    ensures cursor <= from && HeaderLeaves(lines[cursor..], header, 0, from - cursor)
  {
    if header.Some? && header.value != "" {
      var tier :| LineFound(tier, lines, header.value, cursor, from - 1);
      LineBehindCursor(tier, lines, header.value, cursor, from - 1);
      assert HeaderIsAt(lines[cursor..], header.value, 0, from - cursor - 1);
    }
  }

  lemma GapStays(lines: seq<string>, cursor: nat, start: nat, block: seq<string>, out: seq<string>)
    requires cursor <= start <= |lines|
    ensures lines[..start] + block + out == lines[..cursor] + (lines[cursor..start] + block + out)
  {
    assert lines[..start] == lines[..cursor] + lines[cursor..start];
  }

  /** Cutting `lines` behind the cursor, around the block, and putting `out` at the end. */
  lemma CutLines(lines: seq<string>, cursor: nat, from: nat, start: nat, hunk: Hunk, out: seq<string>)
    requires cursor <= from <= start && start + |OldLines(hunk.lines)| <= |lines|
    requires HeaderLeaves(lines, hunk.header, cursor, from)
    requires if OldLines(hunk.lines) == [] then start == from else BlockIsAt(lines, OldLines(hunk.lines), from, false, start)
    ensures var gap, end := lines[cursor..start], start + |OldLines(hunk.lines)|;
      IsCut(Cut(gap, lines[start..end], lines[end..], out), hunk, lines[cursor..], gap + NewLines(hunk.lines) + out)
  {
    hide BlockFound, HeaderLeaves;
    var oldLines, end := OldLines(hunk.lines), start + |OldLines(hunk.lines)|;
    HeaderBehindCursor(lines, hunk.header, cursor, from);
    if oldLines != [] {
      var tier :| BlockFound(tier, lines, oldLines, from, start);
      BlockBehindCursor(tier, lines, oldLines, cursor, from, start);
    }
    assert lines[cursor..] == lines[cursor..start] + lines[start..end] + lines[end..];
  }

  lemma HunkIsSplice(p: Progress, hunk: Hunk)
    requires p.cursor <= |p.lines| && ApplyHunk(p, hunk).Ok?
    ensures SeekHeader(p, hunk.header).Ok?
    ensures var oldLines, newLines, from := OldLines(hunk.lines), NewLines(hunk.lines), SeekHeader(p, hunk.header).value;
      var at := LocateBlock(p.lines, from, oldLines, newLines == [], hunk.endOfFile);
      at.Ok? && ApplyHunk(p, hunk).value == Splice(p.lines, at.value, |oldLines|, newLines)
  {
    hide SeekHeader, LocateBlock, OldLines, NewLines, EqualUpToTrim, Splice;
  }

  lemma HunkCut(p: Progress, hunk: Hunk, out: seq<string>) returns (cut: Cut, after: seq<string>)
    requires p.cursor <= |p.lines| && !hunk.endOfFile && ApplyHunk(p, hunk).Ok?
    ensures var q := ApplyHunk(p, hunk).value;
      && q.lines[q.cursor..] == cut.rest
      && q.lines[..q.cursor] + out == p.lines[..p.cursor] + after
      && cut.out == out && IsCut(cut, hunk, p.lines[p.cursor..], after)
  {
    hide IsCut, HeaderLeaves, BlockIsAt, SeekHeader, LocateBlock, OldLines, NewLines, EqualUpToTrim, Splice, ApplyHunk;
    HunkIsSplice(p, hunk);
    var oldLines, newLines := OldLines(hunk.lines), NewLines(hunk.lines);
    var from := SeekHeader(p, hunk.header).value;
    var start := LocateBlock(p.lines, from, oldLines, newLines == [], false).value;
    var end := start + |oldLines|;
    SpliceParts(p.lines, start, |oldLines|, newLines);
    SoughtHeader(p, hunk.header);
    LocatedBlock(p.lines, from, oldLines, newLines == [], false);
    CutLines(p.lines, p.cursor, from, start, hunk, out);
    GapStays(p.lines, p.cursor, start, newLines, out);
    cut := Cut(p.lines[p.cursor..start], p.lines[start..end], p.lines[end..], out);
    after := cut.gap + newLines + out;
  }

  lemma {:induction false} HunksFactor(p: Progress, hunks: seq<Hunk>) returns (after: seq<string>)
    requires p.cursor <= |p.lines| && NoEndOfFile(hunks) && ApplyHunks(p, hunks).Ok?
    ensures ApplyHunks(p, hunks).value.lines == p.lines[..p.cursor] + after
    ensures Factors(p.lines[p.cursor..], hunks, after)
    decreases |hunks|
  {
    if hunks == [] {
      after := p.lines[p.cursor..];
    } else {
      var out := HunksFactor(ApplyHunk(p, hunks[0]).value, hunks[1..]);
      var cut;
      cut, after := HunkCut(p, hunks[0], out);
      assert Factors(cut.rest, hunks[1..], cut.out);
    }
  }

  /** A successful update without End of File markers replaces, in order, one
      block per hunk and keeps every line between the blocks. */
  lemma UpdateFactorsTheFile(original: string, hunks: seq<Hunk>)
    requires NoEndOfFile(hunks) && UpdatedText(original, hunks).Ok?
    ensures exists after :: Factors(ReadLines(original), hunks, after)
                            && UpdatedText(original, hunks).value == WriteText(original, after)
  {
    var start := Progress(ReadLines(original), 0);
    var after := HunksFactor(start, hunks);
    assert start.lines[0..] == start.lines && start.lines[..0] + after == after;
  }

  /** What is written is read back as the same lines, except that the single
      empty line is written, and so read back, like no line at all. */
  lemma WrittenTextReadsBack(original: string, lines: seq<string>)
    requires AllOneLine(lines)
    ensures ReadLines(WriteText(original, lines)) == if lines == [""] then [] else lines
  {
    if lines != [] {
      TerminateIsJoin(lines);
      var text := Join(lines);
      assert (text + "\n")[..|text|] == text;
      SplitJoin(lines);
      if text == "" {
        assert Split("") == [""];
        assert Terminate(lines) == "\n";
      } else {
        assert |Terminate(lines)| > 1 && Terminate(lines)[|text|] == '\n';
      }
    }
  }

  /** Without hunks a text stays, but for a final newline where it lacks one. */
  lemma NoHunksKeepTheText(original: string)
    ensures UpdatedText(original, [])
            == Ok(if original == "" || original[|original| - 1] == '\n' then original else original + "\n")
  {
    var lines := ReadLines(original);
    if lines != [] {
      var body := if original[|original| - 1] == '\n' then original[..|original| - 1] else original;
      JoinSplit(body);
      TerminateIsJoin(lines);
      assert original[|original| - 1] == '\n' ==> original == body + "\n";
    }
  }

  lemma LoneAddedLine(text: string)
    ensures OldLines([HunkLine(Added, text)]) == [] && NewLines([HunkLine(Added, text)]) == [text]
  {
    assert [HunkLine(Added, text)][1..] == [];
    assert NewLines([HunkLine(Added, text)]) == [text] + NewLines([]);
  }

  /** An insertion with the End of File marker is appended. */
  lemma MarkedInsertionAppends(original: string, text: string)
    requires |original| > 1 && original[|original| - 1] == '\n'
    ensures UpdatedText(original, [Hunk(None, [HunkLine(Added, text)], true)]) == Ok(original + text + "\n")
  {
    var hunk, lines := Hunk(None, [HunkLine(Added, text)], true), ReadLines(original);
    LoneAddedLine(text);
    HunkPlace(Progress(lines, 0), hunk);
    assert ApplyHunks(Progress(lines, 0), [hunk]) == ApplyHunks(ApplyHunk(Progress(lines, 0), hunk).value, []);
    NoHunksKeepTheText(original);
    TerminateAppends(lines, text);
  }

  lemma {:induction false} TerminateAppends(lines: seq<string>, last: string)
    ensures Terminate(lines + [last]) == Terminate(lines) + last + "\n"
  {
    if lines == [] {
      assert ([last])[1..] == [];
      assert last + "\n" + "" == "" + last + "\n";
    } else {
      TerminateAppends(lines[1..], last);
      assert (lines + [last])[1..] == lines[1..] + [last];
      assert lines[0] + "\n" + (Terminate(lines[1..]) + last + "\n") == (lines[0] + "\n" + Terminate(lines[1..])) + last + "\n";
    }
  }
}
