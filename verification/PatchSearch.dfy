/** Where a hunk applies: the search for its header line and for its old
    lines, exact first, then up to trailing whitespace, then up to whitespace
    at both ends. */
module PatchSearch {
  import opened Text

  datatype Tier = Exact | TrailingSpace | SurroundingSpace

  predicate Matches(tier: Tier, a: string, b: string) {
    match tier
    case Exact => a == b
    case TrailingSpace => TrimEnd(a) == TrimEnd(b)
    case SurroundingSpace => Trim(a) == Trim(b)
  }

  /** The window of `lines` that starts at `at` matches `pattern` line by line. */
  predicate WindowAt(tier: Tier, lines: seq<string>, pattern: seq<string>, at: int) {
    && 0 <= at <= |lines| - |pattern|
    && forall j :: 0 <= j < |pattern| ==> Matches(tier, lines[at + j], pattern[j])
  }

  /** The least matching window from `from` on, or -1. */
  function FirstWindow(tier: Tier, lines: seq<string>, pattern: seq<string>, from: nat): (r: int)
    decreases |lines| - from
    ensures r == -1 || (from <= r && WindowAt(tier, lines, pattern, r))
    ensures forall i :: from <= i && (r == -1 || i < r) ==> !WindowAt(tier, lines, pattern, i)
  {
    if from > |lines| - |pattern| then -1
    else if WindowAt(tier, lines, pattern, from) then from
    else FirstWindow(tier, lines, pattern, from + 1)
  }

  /** The first start in `starts` that leads to a window at `tier`, in order. */
  function FromStarts(tier: Tier, lines: seq<string>, pattern: seq<string>, starts: seq<nat>): int {
    if starts == [] then -1
    else
      var r := FirstWindow(tier, lines, pattern, starts[0]);
      if r != -1 then r else FromStarts(tier, lines, pattern, starts[1..])
  }

  function SearchStarts(lines: seq<string>, pattern: seq<string>, from: nat, endOfFile: bool): seq<nat>
    requires |pattern| <= |lines|
  {
    if endOfFile && |lines| - |pattern| != from then [|lines| - |pattern|, from] else [from]
  }

  function Find(lines: seq<string>, pattern: seq<string>, from: nat, endOfFile: bool): int {
    if pattern == [] then from
    else if |pattern| > |lines| then -1
    else
      var starts := SearchStarts(lines, pattern, from, endOfFile);
      var exact := FromStarts(Exact, lines, pattern, starts);
      if exact != -1 then exact else
      var trailing := FromStarts(TrailingSpace, lines, pattern, starts);
      if trailing != -1 then trailing
      else FromStarts(SurroundingSpace, lines, pattern, starts)
  }

  // ------------------------------------------------ what the search means

  /** Some window from `from` on matches at this tier. */
  ghost predicate HasWindow(tier: Tier, lines: seq<string>, pattern: seq<string>, from: nat) {
    exists i :: from <= i && WindowAt(tier, lines, pattern, i)
  }

  lemma {:induction false} TrimCongruence(a: string, b: string)
    ensures Matches(Exact, a, b) ==> Matches(TrailingSpace, a, b)
    ensures Matches(TrailingSpace, a, b) ==> Matches(SurroundingSpace, a, b)
  {
    if TrimEnd(a) == TrimEnd(b) {
      TrimOfTrimEnd(a);
      TrimOfTrimEnd(b);
    }
  }

  lemma {:induction false} TrimStartAllSpace(s: string)
    requires forall c :: c in s ==> IsSpace(c)
    ensures TrimStart(s) == "" && TrimEnd(s) == ""
    decreases |s|
  {
    if s != [] {
      TrimStartAllSpace(s[1..]);
      TrimStartAllSpace(s[..|s| - 1]);
    }
  }

  lemma {:induction false} TrimStartDropsLast(s: string)
    requires s != [] && IsSpace(s[|s| - 1])
    ensures TrimEnd(TrimStart(s)) == TrimEnd(TrimStart(s[..|s| - 1]))
  {
    var t := s[..|s| - 1];
    if !IsSpace(s[0]) {
      TrimStartStops(s);
      TrimStartStops(t);
    } else if |s| > 1 {
      TrimStartDropsLast(s[1..]);
      TrimStartGoesOn(s);
      TrimStartGoesOn(t);
      assert s[1..][..|s[1..]| - 1] == t[1..];
    }
  }

  lemma TrimStartStops(s: string)
    requires s != [] && !IsSpace(s[0])
    ensures TrimStart(s) == s
  {
  }

  lemma TrimStartGoesOn(s: string)
    requires s != [] && IsSpace(s[0])
    ensures TrimStart(s) == TrimStart(s[1..])
  {
  }

  lemma {:induction false} TrimOfTrimEnd(s: string)
    ensures Trim(TrimEnd(s)) == Trim(s)
  {
    if s != [] && IsSpace(s[|s| - 1]) {
      TrimStartDropsLast(s);
      TrimOfTrimEnd(s[..|s| - 1]);
    }
  }

  predicate Looser(a: Tier, b: Tier) {
    (a.Exact? && b.TrailingSpace?) || (a.TrailingSpace? && b.SurroundingSpace?)
  }

  lemma MatchLoosens(a: Tier, b: Tier, line: string, target: string)
    requires Looser(a, b) && Matches(a, line, target)
    ensures Matches(b, line, target)
  {
    TrimCongruence(line, target);
  }

  lemma TierLoosens(a: Tier, b: Tier, lines: seq<string>, pattern: seq<string>, at: int)
    requires Looser(a, b) && WindowAt(a, lines, pattern, at)
    ensures WindowAt(b, lines, pattern, at)
  {
    forall j | 0 <= j < |pattern| ensures Matches(b, lines[at + j], pattern[j]) {
      MatchLoosens(a, b, lines[at + j], pattern[j]);
    }
  }

  /** A window at one tier is a window at every looser one. */
  lemma WindowLoosens(lines: seq<string>, pattern: seq<string>, at: int)
    ensures WindowAt(Exact, lines, pattern, at) ==> WindowAt(TrailingSpace, lines, pattern, at)
    ensures WindowAt(TrailingSpace, lines, pattern, at) ==> WindowAt(SurroundingSpace, lines, pattern, at)
  {
    if WindowAt(Exact, lines, pattern, at) {
      TierLoosens(Exact, TrailingSpace, lines, pattern, at);
    }
    if WindowAt(TrailingSpace, lines, pattern, at) {
      TierLoosens(TrailingSpace, SurroundingSpace, lines, pattern, at);
    }
  }

  /** `r` is the least window from `from` on at this tier, and no stricter tier has any. */
  ghost predicate BlockFound(tier: Tier, lines: seq<string>, pattern: seq<string>, from: nat, r: int) {
    && from <= r && WindowAt(tier, lines, pattern, r)
    && (forall i :: from <= i < r ==> !WindowAt(tier, lines, pattern, i))
    && (tier != Exact ==> !HasWindow(Exact, lines, pattern, from))
    && (tier == SurroundingSpace ==> !HasWindow(TrailingSpace, lines, pattern, from))
  }

  /** Without an End of File marker the search returns the least start at or
      after the cursor, at the strictest tier that has any, and fails exactly
      when no window from the cursor matches even after trimming. */
  lemma FindIsLeastAtStrictestTier(lines: seq<string>, pattern: seq<string>, from: nat)
    requires pattern != []
    ensures var r := Find(lines, pattern, from, false);
      && (r == -1 <==> !HasWindow(SurroundingSpace, lines, pattern, from))
      && (r != -1 ==> exists tier :: BlockFound(tier, lines, pattern, from, r))
  {
    forall i ensures WindowAt(Exact, lines, pattern, i) ==> WindowAt(TrailingSpace, lines, pattern, i)
             ensures WindowAt(TrailingSpace, lines, pattern, i) ==> WindowAt(SurroundingSpace, lines, pattern, i) {
      WindowLoosens(lines, pattern, i);
    }
    var r := Find(lines, pattern, from, false);
    if |pattern| <= |lines| {
      var exact := FirstWindow(Exact, lines, pattern, from);
      var trailing := FirstWindow(TrailingSpace, lines, pattern, from);
      var surrounding := FirstWindow(SurroundingSpace, lines, pattern, from);
      assert exact == -1 <==> !HasWindow(Exact, lines, pattern, from);
      assert trailing == -1 <==> !HasWindow(TrailingSpace, lines, pattern, from);
      assert surrounding == -1 <==> !HasWindow(SurroundingSpace, lines, pattern, from);
      assert FromStarts(Exact, lines, pattern, [from]) == exact;
      assert FromStarts(TrailingSpace, lines, pattern, [from]) == trailing;
      assert FromStarts(SurroundingSpace, lines, pattern, [from]) == surrounding;
      if r != -1 {
        var tier := if exact != -1 then Exact else if trailing != -1 then TrailingSpace else SurroundingSpace;
        assert BlockFound(tier, lines, pattern, from, r);
      }
    }
  }

  /** Neither the last window of the file nor one from the cursor on matches. */
  ghost predicate NothingAt(tier: Tier, lines: seq<string>, pattern: seq<string>, from: nat) {
    !HasWindow(tier, lines, pattern, from) && !WindowAt(tier, lines, pattern, |lines| - |pattern|)
  }

  /** `r` is the last window of the file if that matches, else the least match
      from the cursor on. */
  predicate FoundAt(tier: Tier, lines: seq<string>, pattern: seq<string>, from: nat, r: int) {
    && WindowAt(tier, lines, pattern, r)
    && (r == |lines| - |pattern|
        || (&& from <= r
            && !WindowAt(tier, lines, pattern, |lines| - |pattern|)
            && forall i :: from <= i < r ==> !WindowAt(tier, lines, pattern, i)))
  }

  /** And no stricter tier has either. */
  ghost predicate LastBlockFound(tier: Tier, lines: seq<string>, pattern: seq<string>, from: nat, r: int) {
    && FoundAt(tier, lines, pattern, from, r)
    && (tier != Exact ==> NothingAt(Exact, lines, pattern, from))
    && (tier == SurroundingSpace ==> NothingAt(TrailingSpace, lines, pattern, from))
  }

  /** With the marker the last window of the file is tried first and then, as
      without it, the windows from the cursor on, at the strictest tier that has
      either. The search fails exactly when neither matches after trimming. */
  lemma FindAtEndOfFile(lines: seq<string>, pattern: seq<string>, from: nat)
    requires pattern != []
    ensures var r := Find(lines, pattern, from, true);
      && (r == -1 <==> NothingAt(SurroundingSpace, lines, pattern, from))
      && (r != -1 ==> exists tier :: LastBlockFound(tier, lines, pattern, from, r))
  {
    if |pattern| <= |lines| {
      EndOfFileTier(Exact, lines, pattern, from);
      EndOfFileTier(TrailingSpace, lines, pattern, from);
      EndOfFileTier(SurroundingSpace, lines, pattern, from);
      LooserHasMore(lines, pattern, from);
      var starts := SearchStarts(lines, pattern, from, true);
      var tier := if FromStarts(Exact, lines, pattern, starts) != -1 then Exact
                  else if FromStarts(TrailingSpace, lines, pattern, starts) != -1 then TrailingSpace else SurroundingSpace;
      var r := Find(lines, pattern, from, true);
      assert r != -1 ==> LastBlockFound(tier, lines, pattern, from, r);
    }
  }

  lemma LooserHasMore(lines: seq<string>, pattern: seq<string>, from: nat)
    ensures NothingAt(SurroundingSpace, lines, pattern, from) ==> NothingAt(TrailingSpace, lines, pattern, from)
    ensures NothingAt(TrailingSpace, lines, pattern, from) ==> NothingAt(Exact, lines, pattern, from)
  {
    forall i ensures WindowAt(Exact, lines, pattern, i) ==> WindowAt(TrailingSpace, lines, pattern, i)
             ensures WindowAt(TrailingSpace, lines, pattern, i) ==> WindowAt(SurroundingSpace, lines, pattern, i) {
      WindowLoosens(lines, pattern, i);
    }
  }

  lemma EndOfFileTier(tier: Tier, lines: seq<string>, pattern: seq<string>, from: nat)
    requires pattern != [] && |pattern| <= |lines|
    ensures var r := FromStarts(tier, lines, pattern, SearchStarts(lines, pattern, from, true));
      && (r == -1 <==> NothingAt(tier, lines, pattern, from))
      && (r != -1 ==> FoundAt(tier, lines, pattern, from, r))
  {
    var last := |lines| - |pattern|;
    var first := FirstWindow(tier, lines, pattern, from);
    assert first == -1 <==> !HasWindow(tier, lines, pattern, from);
    if last != from {
      var starts: seq<nat> := [last, from];
      assert starts[1..] == [from];
      assert FromStarts(tier, lines, pattern, [from]) == first;
      assert FirstWindow(tier, lines, pattern, last) == if WindowAt(tier, lines, pattern, last) then last else -1;
    } else {
      assert FromStarts(tier, lines, pattern, [from]) == first;
    }
  }

  // ---------------------------------------------------------- header lines

  function FirstLine(tier: Tier, lines: seq<string>, target: string, from: nat): (r: int)
    decreases |lines| - from
    ensures r == -1 || (from <= r < |lines| && Matches(tier, lines[r], target))
    ensures forall i :: from <= i < (if r == -1 then |lines| else r) ==> !Matches(tier, lines[i], target)
  {
    if from >= |lines| then -1
    else if Matches(tier, lines[from], target) then from
    else FirstLine(tier, lines, target, from + 1)
  }

  function FindLine(lines: seq<string>, target: string, from: nat): (r: int)
    ensures r == -1 || (from <= r < |lines| && Trim(lines[r]) == Trim(target))
    ensures r == -1 ==> forall i :: from <= i < |lines| ==> Trim(lines[i]) != Trim(target)
  {
    var exact := FirstLine(Exact, lines, target, from);
    if exact != -1 then exact else
    var trailing := FirstLine(TrailingSpace, lines, target, from);
    if trailing != -1 then
      TrimCongruence(lines[trailing], target);
      trailing
    else FirstLine(SurroundingSpace, lines, target, from)
  }

  predicate HasLine(tier: Tier, lines: seq<string>, target: string, from: nat) {
    exists i :: from <= i < |lines| && Matches(tier, lines[i], target)
  }

  /** `r` is the first line from `from` on at this tier, and no stricter tier has any. */
  predicate LineFound(tier: Tier, lines: seq<string>, target: string, from: nat, r: int) {
    && from <= r < |lines| && Matches(tier, lines[r], target)
    && (forall i :: from <= i < r ==> !Matches(tier, lines[i], target))
    && (tier != Exact ==> !HasLine(Exact, lines, target, from))
    && (tier == SurroundingSpace ==> !HasLine(TrailingSpace, lines, target, from))
  }

  /** A header is found as a block is: the first line from the cursor at the
      strictest tier that has any. */
  lemma HeaderIsLeastAtStrictestTier(lines: seq<string>, target: string, from: nat)
    ensures var r := FindLine(lines, target, from);
      && (r == -1 <==> !HasLine(SurroundingSpace, lines, target, from))
      && (r != -1 ==> exists tier :: LineFound(tier, lines, target, from, r))
  {
    var r := FindLine(lines, target, from);
    if FirstLine(Exact, lines, target, from) != -1 {
      assert LineFound(Exact, lines, target, from, r);
    } else if FirstLine(TrailingSpace, lines, target, from) != -1 {
      assert LineFound(TrailingSpace, lines, target, from, r);
    } else if r != -1 {
      assert LineFound(SurroundingSpace, lines, target, from, r);
    }
  }

  // ------------------------------------------------------ the search loops

  /** The first `n` lines of the window match. */
  predicate MatchesUpTo(tier: Tier, lines: seq<string>, pattern: seq<string>, at: nat, n: nat)
    requires at + |pattern| <= |lines| && n <= |pattern|
  {
    forall k :: 0 <= k < n ==> Matches(tier, lines[at + k], pattern[k])
  }

  lemma MatchesOneMore(tier: Tier, lines: seq<string>, pattern: seq<string>, at: nat, n: nat)
    requires at + |pattern| <= |lines| && n < |pattern| && MatchesUpTo(tier, lines, pattern, at, n)
    ensures MatchesUpTo(tier, lines, pattern, at, n + 1) <==> Matches(tier, lines[at + n], pattern[n])
  {
  }

  lemma MatchesAll(tier: Tier, lines: seq<string>, pattern: seq<string>, at: nat, n: nat)
    requires at + |pattern| <= |lines| && n <= |pattern|
    ensures !MatchesUpTo(tier, lines, pattern, at, n) ==> !WindowAt(tier, lines, pattern, at)
    ensures MatchesUpTo(tier, lines, pattern, at, |pattern|) ==> WindowAt(tier, lines, pattern, at)
  {
  }

  /** Line by line, stopping at the first mismatch. */
  method MatchWindow(tier: Tier, lines: seq<string>, pattern: seq<string>, at: nat) returns (ok: bool)
    requires at + |pattern| <= |lines|
    ensures ok == WindowAt(tier, lines, pattern, at)
  {
    var j := 0;
    while j < |pattern|
      invariant 0 <= j <= |pattern|
      invariant MatchesUpTo(tier, lines, pattern, at, j)
    {
      MatchesOneMore(tier, lines, pattern, at, j);
      if !Matches(tier, lines[at + j], pattern[j]) {
        MatchesAll(tier, lines, pattern, at, j + 1);
        return false;
      }
      j := j + 1;
    }
    MatchesAll(tier, lines, pattern, at, j);
    return true;
  }

  /** One pass over the windows from `start` on. */
  method TryFrom(tier: Tier, lines: seq<string>, pattern: seq<string>, start: nat) returns (r: int)
    ensures r == FirstWindow(tier, lines, pattern, start)
  {
    var i := start;
    while i <= |lines| - |pattern|
      invariant start <= i
      invariant FirstWindow(tier, lines, pattern, start) == FirstWindow(tier, lines, pattern, i)
    {
      var ok := MatchWindow(tier, lines, pattern, i);
      if ok {
        return i;
      }
      i := i + 1;
    }
    return -1;
  }

  method FindSequence(lines: seq<string>, pattern: seq<string>, from: nat, endOfFile: bool) returns (r: int)
    ensures r == Find(lines, pattern, from, endOfFile)
  {
    if |pattern| == 0 {
      return from;
    }
    if |pattern| > |lines| {
      return -1;
    }
    var starts := SearchStarts(lines, pattern, from, endOfFile);
    var tiers := [Exact, TrailingSpace, SurroundingSpace];
    var t := 0;
    while t < 3
      invariant 0 <= t <= 3
      invariant forall u :: 0 <= u < t ==> FromStarts(tiers[u], lines, pattern, starts) == -1
    {
      var k := 0;
      assert starts[0..] == starts;
      while k < |starts|
        invariant 0 <= k <= |starts|
        invariant FromStarts(tiers[t], lines, pattern, starts) == FromStarts(tiers[t], lines, pattern, starts[k..])
      {
        assert starts[k..][1..] == starts[k + 1..];
        var found := TryFrom(tiers[t], lines, pattern, starts[k]);
        if found != -1 {
          assert FromStarts(tiers[t], lines, pattern, starts) == found;
          assert t > 0 ==> FromStarts(tiers[0], lines, pattern, starts) == -1;
          assert t > 1 ==> FromStarts(tiers[1], lines, pattern, starts) == -1;
          return found;
        }
        k := k + 1;
      }
      t := t + 1;
    }
    assert tiers[0] == Exact && tiers[1] == TrailingSpace && tiers[2] == SurroundingSpace;
    return -1;
  }

  method FindLineFrom(lines: seq<string>, target: string, from: nat) returns (r: int)
    ensures r == FindLine(lines, target, from)
  {
    var tiers := [Exact, TrailingSpace, SurroundingSpace];
    var t := 0;
    while t < 3
      invariant 0 <= t <= 3
      invariant forall u :: 0 <= u < t ==> FirstLine(tiers[u], lines, target, from) == -1
    {
      var i := from;
      while i < |lines|
        invariant from <= i
        invariant FirstLine(tiers[t], lines, target, from) == FirstLine(tiers[t], lines, target, i)
      {
        if Matches(tiers[t], lines[i], target) {
          return i;
        }
        i := i + 1;
      }
      t := t + 1;
    }
    assert tiers[0] == Exact && tiers[1] == TrailingSpace && tiers[2] == SurroundingSpace;
    return -1;
  }
}
