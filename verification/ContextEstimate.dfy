/** The running local estimate of how many tokens a context takes, kept
    incrementally, against the same estimate made from scratch. */
module ContextEstimate {

  const CHARS_PER_TOKEN: nat := 4
  const MEDIA_REFERENCE_FLOOR_TOKENS: nat := 1000
  const MEDIA_BASE64_MAX_TOKENS: nat := 2500

  /** Media with local bytes, or a URL or handle to it. */
  datatype MediaSource = Base64(chars: nat) | Reference

  /** A content block, as far as its size goes: every text is given by its
      length, an absent one by 0. */
  datatype Block =
    | Text(chars: nat)
    | Thinking(chars: nat)
    | RedactedThinking(chars: nat)
    | Refusal(chars: nat)
    | ToolCall(name: nat, arguments: nat)
    | ToolResult(parts: seq<Block>)
    | Media(source: MediaSource)
    | Citation(cited: nat, title: nat, uri: nat)
    | CodeRequest(code: nat, language: nat)
    | CodeResult(stdout: nat, stderr: nat, abortReason: nat)
    | SafetyRating(chars: nat)

  /** Turns are compared by reference; what one holds never changes. */
  class Turn {
    const content: seq<Block>

    constructor (content: seq<Block>)
      ensures this.content == content
    {
      this.content := content;
    }
  }

  // ------------------------------------------------------ from scratch

  /** `chars / 4`, rounded up. */
  function TokensFromChars(chars: nat): (tokens: nat)
    ensures chars <= CHARS_PER_TOKEN * tokens < chars + CHARS_PER_TOKEN
  {
    if chars == 0 then 0 else (chars - 1) / CHARS_PER_TOKEN + 1
  }

  function MediaTokens(source: MediaSource): (tokens: nat)
    ensures tokens <= MEDIA_BASE64_MAX_TOKENS
  {
    if source.Reference? then MEDIA_REFERENCE_FLOOR_TOKENS
    else if TokensFromChars(source.chars) < MEDIA_BASE64_MAX_TOKENS then TokensFromChars(source.chars)
    else MEDIA_BASE64_MAX_TOKENS
  }

  function BlockTokens(block: Block): nat {
    match block
    case Text(chars) => TokensFromChars(chars)
    case Thinking(chars) => TokensFromChars(chars)
    case RedactedThinking(chars) => TokensFromChars(chars)
    case Refusal(chars) => TokensFromChars(chars)
    case ToolCall(name, arguments) => TokensFromChars(name + arguments)
    case ToolResult(parts) => BlocksTokens(parts)
    case Media(source) => MediaTokens(source)
    case Citation(cited, title, uri) => TokensFromChars(cited + title + uri)
    case CodeRequest(code, language) => TokensFromChars(code + language)
    case CodeResult(stdout, stderr, abortReason) => TokensFromChars(stdout + stderr + abortReason)
    case SafetyRating(chars) => TokensFromChars(chars)
  }

  function BlocksTokens(blocks: seq<Block>): nat {
    if blocks == [] then 0 else BlocksTokens(blocks[..|blocks| - 1]) + BlockTokens(blocks[|blocks| - 1])
  }

  function ContextTokens(turns: seq<Turn>): nat {
    if turns == [] then 0 else ContextTokens(turns[..|turns| - 1]) + BlocksTokens(turns[|turns| - 1].content)
  }

  // ------------------------------------------------------- incrementally

  method EstimateTurnTokens(turn: Turn) returns (total: nat)
    ensures total == BlocksTokens(turn.content)
  {
    total := 0;
    for i := 0 to |turn.content|
      invariant total == BlocksTokens(turn.content[..i])
    {
      assert turn.content[..i + 1][..i] == turn.content[..i];
      total := total + BlockTokens(turn.content[i]);
    }
    assert turn.content[..|turn.content|] == turn.content;
  }

  method EstimateContextTokens(turns: seq<Turn>) returns (total: nat)
    ensures total == ContextTokens(turns)
  {
    total := 0;
    for i := 0 to |turns|
      invariant total == ContextTokens(turns[..i])
    {
      assert turns[..i + 1][..i] == turns[..i];
      var tokens := EstimateTurnTokens(turns[i]);
      total := total + tokens;
    }
    assert turns[..|turns|] == turns;
  }

  class Estimate {
    const overheadTokens: nat
    var tokens: nat
    var turnCount: nat
    var cachedTurns: seq<Turn>

    /** The running count is the from-scratch estimate of the last turn list. */
    ghost predicate Valid()
      reads this
    {
      tokens == overheadTokens + ContextTokens(cachedTurns) && turnCount == |cachedTurns|
    }

    constructor (overheadTokens: nat)
      ensures Valid() && cachedTurns == [] && this.overheadTokens == overheadTokens
    {
      this.overheadTokens := overheadTokens;
      tokens, turnCount, cachedTurns := overheadTokens, 0, [];
    }

    method PrefixRefsMatch(turns: seq<Turn>) returns (matches: bool)
      requires |turns| >= |cachedTurns|
      ensures matches <==> cachedTurns <= turns
    {
      for i := 0 to |cachedTurns|
        invariant forall k :: 0 <= k < i ==> turns[k] == cachedTurns[k]
      {
        if turns[i] != cachedTurns[i] {
          return false;
        }
      }
      return true;
    }

    /** Appends cost the new turns only; truncations and rewrites start over. */
    method SyncFromTurns(turns: seq<Turn>) returns (estimated: nat)
      requires Valid()
      modifies this
      ensures Valid() && cachedTurns == turns
      ensures estimated == tokens == overheadTokens + ContextTokens(turns)
    {
      var matches := false;
      if |turns| >= |cachedTurns| {
        matches := PrefixRefsMatch(turns);
      }
      if matches && |turns| == |cachedTurns| {
        return tokens;
      }
      if matches {
        assert turns[..|cachedTurns|] == cachedTurns;
        for i := |cachedTurns| to |turns|
          invariant cachedTurns == old(cachedTurns)
          invariant tokens == overheadTokens + ContextTokens(turns[..i])
        {
          assert turns[..i + 1][..i] == turns[..i];
          var added := EstimateTurnTokens(turns[i]);
          tokens := tokens + added;
        }
        assert turns[..|turns|] == turns;
      } else {
        var total := EstimateContextTokens(turns);
        tokens := overheadTokens + total;
      }
      turnCount := |turns|;
      cachedTurns := turns;
      return tokens;
    }
  }

  // ---------------------------------------------------------- properties

  predicate TextOnly(turns: seq<Turn>) {
    forall i, j :: 0 <= i < |turns| && 0 <= j < |turns[i].content| ==> turns[i].content[j].Text?
  }

  function BlocksChars(blocks: seq<Block>): nat {
    if blocks == [] then 0
    else
      BlocksChars(blocks[..|blocks| - 1])
      + if blocks[|blocks| - 1].Text? then blocks[|blocks| - 1].chars else 0
  }

  function Chars(turns: seq<Turn>): nat {
    if turns == [] then 0 else Chars(turns[..|turns| - 1]) + BlocksChars(turns[|turns| - 1].content)
  }

  function BlockCount(turns: seq<Turn>): nat {
    if turns == [] then 0 else BlockCount(turns[..|turns| - 1]) + |turns[|turns| - 1].content|
  }

  lemma {:induction false} TextBlocksBounds(blocks: seq<Block>)
    requires forall j :: 0 <= j < |blocks| ==> blocks[j].Text?
    ensures BlocksChars(blocks) <= 4 * BlocksTokens(blocks) <= BlocksChars(blocks) + 3 * |blocks|
  {
    if blocks != [] {
      TextBlocksBounds(blocks[..|blocks| - 1]);
    }
  }

  /** For text-only turns of `n` blocks and `c` characters the estimate lies
      between `c / 4` rounded up and `(c + 3n) / 4`. */
  lemma {:induction false} TextOnlyBounds(turns: seq<Turn>)
    requires TextOnly(turns)
    ensures Chars(turns) <= 4 * ContextTokens(turns) <= Chars(turns) + 3 * BlockCount(turns)
    ensures TokensFromChars(Chars(turns)) <= ContextTokens(turns)
  {
    if turns != [] {
      TextOnlyBounds(turns[..|turns| - 1]);
      TextBlocksBounds(turns[|turns| - 1].content);
    }
  }

  /** Both bounds are met: one block of `4k` characters costs `k` tokens, and
      `n` blocks of one character cost `n`, which is `(n + 3n) / 4`. */
  lemma {:induction false} BoundsAreTight(k: nat, n: nat)
    ensures BlocksTokens([Text(4 * k)]) == k
    ensures 4 * BlocksTokens(seq(n, _ => Text(1))) == BlocksChars(seq(n, _ => Text(1))) + 3 * n
    decreases n
  {
    assert [Text(4 * k)][..0] == [];
    if n > 0 {
      BoundsAreTight(k, n - 1);
      assert seq(n, _ => Text(1))[..n - 1] == seq(n - 1, _ => Text(1));
    }
  }

  // ------------------------------------------------- what each block costs

  /** So many characters, four to a token, the last token begun counting whole. */
  predicate Costs(tokens: nat, chars: nat) {
    chars <= 4 * tokens < chars + 4
  }

  /** A call costs its name and arguments together, a citation and a code block
      all their texts; a tool result what its parts cost; media at most 2500 tokens
      by its bytes, and 1000 when only a reference to it is sent. */
  lemma BlockCosts(block: Block)
    ensures var tokens := BlockTokens(block);
      match block
      case Text(chars) => Costs(tokens, chars)
      case Thinking(chars) => Costs(tokens, chars)
      case RedactedThinking(chars) => Costs(tokens, chars)
      case Refusal(chars) => Costs(tokens, chars)
      case ToolCall(name, arguments) => Costs(tokens, name + arguments)
      case ToolResult(parts) => tokens == BlocksTokens(parts)
      case Media(Reference) => tokens == 1000
      case Media(Base64(chars)) => if chars <= 4 * 2500 then Costs(tokens, chars) else tokens == 2500
      case Citation(cited, title, uri) => Costs(tokens, cited + title + uri)
      case CodeRequest(code, language) => Costs(tokens, code + language)
      case CodeResult(stdout, stderr, abortReason) => Costs(tokens, stdout + stderr + abortReason)
      case SafetyRating(chars) => Costs(tokens, chars)
  {
  }

  /** Blocks cost what each costs, and turns what their blocks cost, however they
      are cut apart: a tool result in two halves costs the two halves. */
  lemma {:induction false} BlocksAddUp(first: seq<Block>, rest: seq<Block>)
    ensures BlocksTokens(first + rest) == BlocksTokens(first) + BlocksTokens(rest)
    ensures rest != [] ==> BlocksTokens([rest[0]]) == BlockTokens(rest[0])
    decreases |rest|
  {
    if rest == [] {
      assert first + rest == first;
    } else {
      var last := rest[|rest| - 1];
      BlocksAddUp(first, rest[..|rest| - 1]);
      assert (first + rest)[..|first + rest| - 1] == first + rest[..|rest| - 1];
      assert [rest[0]][..0] == [];
    }
  }

  lemma {:induction false} TurnsAddUp(first: seq<Turn>, rest: seq<Turn>)
    ensures ContextTokens(first + rest) == ContextTokens(first) + ContextTokens(rest)
    ensures rest != [] ==> ContextTokens([rest[0]]) == BlocksTokens(rest[0].content)
    decreases |rest|
  {
    if rest == [] {
      assert first + rest == first;
    } else {
      TurnsAddUp(first, rest[..|rest| - 1]);
      assert (first + rest)[..|first + rest| - 1] == first + rest[..|rest| - 1];
      assert [rest[0]][..0] == [];
    }
  }
}
