/** An argv array as one shell command string, against the token recognition and
    quote removal of the POSIX Shell Command Language (POSIX.1-2017, sections
    2.2.1, 2.2.2 and 2.3). */
module ShellQuote {
  import opened Common

  // ---------------------------------------------------------- the program

  /** The characters that need no quoting. */
  predicate Plain(c: char) {
    || 'A' <= c <= 'Z'
    || 'a' <= c <= 'z'
    || '0' <= c <= '9'
    || c in {'_', '-', '.', '/', ':', '=', '@', '%'}
  }

  predicate AllPlain(arg: string) {
    forall i :: 0 <= i < |arg| ==> Plain(arg[i])
  }

  /** Every `'` closes the quotes, is escaped, and opens them again. */
  function EscapeQuotes(arg: string): string {
    if arg == "" then ""
    else (if arg[0] == '\'' then "'\\''" else [arg[0]]) + EscapeQuotes(arg[1..])
  }

  function ShellQuote(arg: string): string {
    if arg != "" && AllPlain(arg) then arg else "'" + EscapeQuotes(arg) + "'"
  }

  /** The regular expression's dot stops at these. */
  predicate LineTerminator(c: char) {
    c in {'\n', '\r', '\U{2028}', '\U{2029}'}
  }

  /** How many characters the longest match of `^.*\/` takes. */
  function DirectoryLength(path: string, from: nat): (n: nat)
    requires from <= |path|
    ensures n <= |path|
    decreases |path| - from
  {
    if from == |path| || LineTerminator(path[from]) then 0
    else
      var later := DirectoryLength(path, from + 1);
      if later > 0 then later else if path[from] == '/' then from + 1 else 0
  }

  function BaseName(path: string): string {
    path[DirectoryLength(path, 0)..]
  }

  lemma {:induction false} DirectoryEndsAtLastSlash(path: string, from: nat)
    requires from <= |path|
    ensures var n := DirectoryLength(path, from);
      && (n > 0 ==> n > from && path[n - 1] == '/' && forall i :: from <= i < n ==> !LineTerminator(path[i]))
      && (forall i :: n <= i < |path| && from <= i && path[i] == '/' ==> exists j :: from <= j <= i && LineTerminator(path[j]))
    decreases |path| - from
  {
    if from < |path| && !LineTerminator(path[from]) {
      DirectoryEndsAtLastSlash(path, from + 1);
    }
  }

  /** On one line the base name is what follows the last slash. */
  lemma BaseNameFollowsLastSlash(path: string)
    requires forall i :: 0 <= i < |path| ==> !LineTerminator(path[i])
    ensures '/' !in BaseName(path)
    ensures BaseName(path) == path || exists n :: 0 < n <= |path| && path[n - 1] == '/' && BaseName(path) == path[n..]
  {
    DirectoryEndsAtLastSlash(path, 0);
  }

  predicate IsWrapper(argv: seq<string>) {
    && |argv| == 3
    && BaseName(argv[0]) in {"bash", "sh", "zsh"}
    && (argv[1] == "-lc" || argv[1] == "-c")
  }

  function JoinQuoted(argv: seq<string>): string {
    if argv == [] then ""
    else if |argv| == 1 then ShellQuote(argv[0])
    else ShellQuote(argv[0]) + " " + JoinQuoted(argv[1..])
  }

  datatype Command = Line(text: string) | Argv(argv: seq<string>)

  function NormalizeShellCommand(command: Command): string {
    match command
    case Line(text) => text
    case Argv(argv) => if IsWrapper(argv) then argv[2] else JoinQuoted(argv)
  }

  // ------------------------------------------------------------ the shell

  predicate Blank(c: char) {
    c == ' ' || c == '\t'
  }

  /** Unquoted, these start an operator, an expansion, a pattern, a comment or a
      double-quoted part: the text is then more than a list of plain words. */
  predicate Special(c: char) {
    c in {'|', '&', ';', '<', '>', '(', ')', '$', '`', '"', '\n', '\r', '*', '?', '[', '#', '~', '!', '{', '}'}
  }

  /** One word with its quotes removed, and what follows it. None when the word
      is not plain or a quote is left open. */
  function Word(s: string): (r: Option<(string, string)>)
    ensures r.Some? ==> |r.value.0| + |r.value.1| <= |s|
    ensures r.Some? && r.value.1 != "" ==> Blank(r.value.1[0])
    decreases |s|
  {
    if s == "" || Blank(s[0]) then Some(("", s))
    else if s[0] == '\'' then Quoted(s[1..])
    else if s[0] == '\\' then
      if |s| == 1 then None
      else if s[1] == '\n' then Word(s[2..])
      else Prepend([s[1]], Word(s[2..]))
    else if Special(s[0]) then None
    else Prepend([s[0]], Word(s[1..]))
  }

  /** The same, from inside single quotes: everything up to the closing one is
      itself (section 2.2.2). */
  function Quoted(s: string): (r: Option<(string, string)>)
    ensures r.Some? ==> |r.value.0| + |r.value.1| <= |s|
    ensures r.Some? && r.value.1 != "" ==> Blank(r.value.1[0])
    decreases |s|
  {
    if s == "" then None
    else if s[0] == '\'' then Word(s[1..])
    else Prepend([s[0]], Quoted(s[1..]))
  }

  function Prepend(front: string, word: Option<(string, string)>): Option<(string, string)> {
    if word.None? then None else Some((front + word.value.0, word.value.1))
  }

  /** The words of a simple command made of plain and quoted words (section 2.3). */
  function Words(s: string): Option<seq<string>>
    decreases |s|
  {
    if s == "" then Some([])
    else if Blank(s[0]) then Words(s[1..])
    else
      var word := Word(s);
      if word.None? || |word.value.1| >= |s| then None
      else
        var others := Words(word.value.1);
        if others.None? then None else Some([word.value.0] + others.value)
  }

  // ------------------------------------------------------------ round trip

  predicate EndsWord(rest: string) {
    rest == "" || Blank(rest[0])
  }

  lemma {:induction false} PlainWord(arg: string, rest: string)
    requires AllPlain(arg) && EndsWord(rest)
    ensures Word(arg + rest) == Some((arg, rest))
    decreases |arg|
  {
    if arg == "" {
      assert arg + rest == rest;
    } else {
      PlainWord(arg[1..], rest);
      assert Plain(arg[0]);
      assert (arg + rest)[1..] == arg[1..] + rest;
      assert [arg[0]] + arg[1..] == arg;
    }
  }

  /** Close, an escaped quote, open: one `'` inside the quotes. */
  lemma EscapedQuote(s: string)
    requires |s| >= 4 && s[0] == '\'' && s[1] == '\\' && s[2] == '\'' && s[3] == '\''
    ensures Quoted(s) == Prepend(['\''], Quoted(s[4..]))
  {
    var after := s[1..];
    assert Word(after) == Prepend([after[1]], Word(after[2..]));
    assert after[2..] == s[3..];
    assert s[3..][1..] == s[4..];
  }

  lemma {:induction false} QuotedPart(arg: string, rest: string)
    requires EndsWord(rest)
    ensures Quoted(EscapeQuotes(arg) + "'" + rest) == Some((arg, rest))
    decreases |arg|
  {
    var s := EscapeQuotes(arg) + "'" + rest;
    if arg == "" {
      assert s[1..] == rest;
    } else {
      QuotedPart(arg[1..], rest);
      var tail := EscapeQuotes(arg[1..]) + "'" + rest;
      assert [arg[0]] + arg[1..] == arg;
      if arg[0] == '\'' {
        assert s[4..] == tail;
        EscapedQuote(s);
      } else {
        assert s[1..] == tail;
      }
    }
  }

  lemma QuoteRoundTrip(arg: string, rest: string)
    requires EndsWord(rest)
    ensures Word(ShellQuote(arg) + rest) == Some((arg, rest))
  {
    if arg != "" && AllPlain(arg) {
      PlainWord(arg, rest);
    } else {
      QuotedPart(arg, rest);
      var quoted := "'" + EscapeQuotes(arg) + "'" + rest;
      assert quoted[1..] == EscapeQuotes(arg) + "'" + rest;
      assert Word(quoted) == Quoted(quoted[1..]);
    }
  }

  /** A quoted argument starts a word. */
  lemma QuoteStartsWord(arg: string)
    ensures |ShellQuote(arg)| > 0 && !Blank(ShellQuote(arg)[0])
  {
    if arg != "" && AllPlain(arg) {
      assert Plain(arg[0]);
    }
  }

  lemma {:induction false} JoinedWords(argv: seq<string>)
    ensures Words(JoinQuoted(argv)) == Some(argv)
    decreases |argv|
  {
    if argv != [] {
      var rest := if |argv| == 1 then "" else " " + JoinQuoted(argv[1..]);
      assert JoinQuoted(argv) == ShellQuote(argv[0]) + rest;
      QuoteStartsWord(argv[0]);
      QuoteRoundTrip(argv[0], rest);
      JoinedWords(argv[1..]);
      if |argv| > 1 {
        assert rest[1..] == JoinQuoted(argv[1..]);
      }
      assert Words(rest) == Some(argv[1..]);
      assert [argv[0]] + argv[1..] == argv;
    }
  }

  function TotalLength(words: seq<string>): nat {
    if words == [] then 0 else |words[0]| + TotalLength(words[1..])
  }

  lemma TotalOfThree(argv: seq<string>)
    requires |argv| == 3
    ensures TotalLength(argv) == |argv[0]| + |argv[1]| + |argv[2]|
  {
    assert TotalLength(argv[3..]) == 0;
    assert argv[1..][1..] == argv[2..] && argv[2..][1..] == argv[3..];
    assert TotalLength(argv[2..]) == |argv[2]| + TotalLength(argv[3..]);
    assert TotalLength(argv[1..]) == |argv[1]| + TotalLength(argv[2..]);
  }

  /** Quote removal only removes. */
  lemma {:induction false} WordsAreNoLonger(s: string)
    ensures Words(s).Some? ==> TotalLength(Words(s).value) <= |s|
    decreases |s|
  {
    if s != "" {
      if Blank(s[0]) {
        WordsAreNoLonger(s[1..]);
      } else if Words(s).Some? {
        WordsAreNoLonger(Word(s).value.1);
        assert Words(s).value[1..] == Words(Word(s).value.1).value;
      }
    }
  }

  /** The shell reads back exactly the given argv, for every argv but the
      three-element shell wrapper, whose script is handed over as it is. */
  lemma RoundTrip(argv: seq<string>)
    ensures Words(NormalizeShellCommand(Argv(argv))) == Some(argv) <==> !IsWrapper(argv)
  {
    if IsWrapper(argv) {
      WordsAreNoLonger(argv[2]);
      TotalOfThree(argv);
    } else {
      JoinedWords(argv);
    }
  }

  /** So no two different argv arrays are run as the same command string. */
  lemma NormalizeIsInjective(first: seq<string>, second: seq<string>)
    requires !IsWrapper(first) && !IsWrapper(second)
    requires NormalizeShellCommand(Argv(first)) == NormalizeShellCommand(Argv(second))
    ensures first == second
  {
    RoundTrip(first);
    RoundTrip(second);
  }

  // --------------------------------------------------------- the wrapper

  /** A string is a command already. A shell called with a script, by whatever
      one-line path, yields the script. */
  lemma WrapperYieldsItsScript(directory: string, shell: string, flag: string, script: string)
    requires shell in {"bash", "sh", "zsh"} && flag in {"-lc", "-c"}
    requires directory == "" || directory[|directory| - 1] == '/'
    requires forall i :: 0 <= i < |directory| ==> !LineTerminator(directory[i])
    ensures NormalizeShellCommand(Line(script)) == script
    ensures NormalizeShellCommand(Argv([directory + shell, flag, script])) == script
  {
    var path := directory + shell;
    assert forall i :: 0 <= i < |shell| ==> shell[i] != '/' && !LineTerminator(shell[i]);
    DirectoryEndsAtLastSlash(path, 0);
    var n := DirectoryLength(path, 0);
    assert directory != "" ==> path[|directory| - 1] == '/';
    assert n == |directory| && path[n..] == shell;
  }

  /** And nothing else does: an argv that is taken for a wrapper is such a call. */
  lemma OnlyShellsAreWrappers(argv: seq<string>)
    requires IsWrapper(argv)
    ensures |argv| == 3 && argv[1] in {"-lc", "-c"}
    ensures exists n :: 0 <= n <= |argv[0]| && argv[0][n..] in {"bash", "sh", "zsh"} && (n == 0 || argv[0][n - 1] == '/')
  {
    DirectoryEndsAtLastSlash(argv[0], 0);
    var n := DirectoryLength(argv[0], 0);
    assert argv[0][n..] == BaseName(argv[0]);
  }

  /** A letter, a digit, or a sign that means nothing to the shell. */
  predicate Harmless(c: char) {
    || c in "ABCDEFGHIJKLM" || c in "NOPQRSTUVWXYZ" || c in "abcdefghijklm" || c in "nopqrstuvwxyz"
    || c in "0123456789" || c in "_-./:=@%"
  }

  /** Only what must be is quoted: an argument of such characters alone stays as
      it is, and every other one starts with a quote. */
  lemma QuotedExactlyWhenNeeded(arg: string)
    ensures if arg != "" && forall i :: 0 <= i < |arg| ==> Harmless(arg[i]) then ShellQuote(arg) == arg
            else ShellQuote(arg)[0] == '\'' && ShellQuote(arg) != arg
  {
    forall c ensures Harmless(c) == Plain(c) {
      HarmlessIsPlain(c);
    }
    if arg != "" && !(forall i :: 0 <= i < |arg| ==> Harmless(arg[i])) {
      EscapeIsNoShorter(arg);
    }
  }

  lemma HarmlessIsPlain(c: char)
    ensures Harmless(c) == Plain(c)
  {
  }

  lemma {:induction false} EscapeIsNoShorter(arg: string)
    ensures |EscapeQuotes(arg)| >= |arg|
  {
    if arg != "" {
      EscapeIsNoShorter(arg[1..]);
    }
  }

  /** The reader takes nothing for granted: a blank ends a word, a backslash makes
      the next character itself or, before a newline, goes with it, and any other
      unquoted character that may mean something to the shell stops the reading. */
  lemma ReaderIsStrict(c: char, rest: string)
    ensures c == ' ' || c == '\t' ==> Word([c] + rest) == Some(("", [c] + rest))
    ensures c in "|&;<>()$`\"\n\r*?[#~!{}" ==> Word([c] + rest) == None
    ensures Word("\\" + [c] + rest) == if c == '\n' then Word(rest) else Prepend([c], Word(rest))
  {
    assert ("\\" + [c] + rest)[2..] == rest;
  }
}
