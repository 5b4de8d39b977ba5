/** The lexical ranker behind the search tools: what an item scores for a query,
    and which items a search shows. Scores are counted in quarters. */
module LexicalRank {
  import opened Common

  // ------------------------------------------------------------- scoring

  /** `name` and `blob` in lower case, with the tokens found in them and in the
      parameters. */
  datatype Fields = Fields(
    name: string,
    blob: string,
    nameTokens: seq<string>,
    blobTokens: set<string>,
    paramNameTokens: set<string>,
    paramBlobTokens: set<string>)
  {
    function FoldedNameTokens(): seq<string> {
      Folds(nameTokens)
    }
  }

  /** A trailing plural `s` is dropped from words of more than three letters. */
  function FoldPlural(token: string): string {
    if |token| > 3 && token[|token| - 1] == 's' then token[..|token| - 1] else token
  }

  function Folds(tokens: seq<string>): seq<string> {
    seq(|tokens|, i requires 0 <= i < |tokens| => FoldPlural(tokens[i]))
  }

  predicate OccursAt(text: string, i: nat, part: string) {
    i + |part| <= |text| && text[i..i + |part|] == part
  }

  predicate Includes(text: string, part: string) {
    exists i :: 0 <= i <= |text| && OccursAt(text, i, part)
  }

  function DirectTokenScore(fields: Fields, token: string): nat {
    if token in fields.nameTokens then 12
    else if FoldPlural(token) in fields.FoldedNameTokens() then 10
    else if token in fields.blobTokens then 4
    else if Includes(fields.name, token) then 3
    else if Includes(fields.blob, token) then 1
    else 0
  }

  function ParamTokenScore(fields: Fields, token: string): nat {
    if token in fields.paramNameTokens then 2
    else if token in fields.paramBlobTokens then 1
    else 0
  }

  function Max(a: nat, b: nat): nat {
    if a >= b then a else b
  }

  /** The best of some spellings, by name and blob or by parameters. */
  function Best(fields: Fields, spellings: seq<string>, params: bool): nat {
    if spellings == [] then 0
    else
      var last := spellings[|spellings| - 1];
      Max(Best(fields, spellings[..|spellings| - 1], params),
          if params then ParamTokenScore(fields, last) else DirectTokenScore(fields, last))
  }

  function Spellings(tokens: seq<string>, word: string): seq<string> {
    if tokens == [] then []
    else
      Spellings(tokens[..|tokens| - 1], word)
      + if FoldPlural(tokens[|tokens| - 1]) == word then [tokens[|tokens| - 1]] else []
  }

  /** What one word of the query, in all its spellings, is worth. */
  function WordScore(fields: Fields, tokens: seq<string>, word: string, withParams: bool): nat {
    var direct := Best(fields, Spellings(tokens, word), false);
    if withParams then Max(direct, Best(fields, Spellings(tokens, word), true)) else direct
  }

  function SumOfWords(fields: Fields, tokens: seq<string>, words: seq<string>, withParams: bool): nat {
    if words == [] then 0
    else
      SumOfWords(fields, tokens, words[..|words| - 1], withParams)
      + WordScore(fields, tokens, words[|words| - 1], withParams)
  }

  predicate NameHit(fields: Fields, distinct: seq<string>) {
    && |distinct| == 1
    && (distinct[0] in fields.nameTokens || FoldPlural(distinct[0]) in fields.FoldedNameTokens())
  }

  function Bonus(fields: Fields, distinct: seq<string>, rawQuery: string): nat {
    if !NameHit(fields, distinct) && Includes(fields.name, rawQuery) then 4 else 0
  }

  function Score(fields: Fields, queryTokens: seq<string>, rawQuery: string): nat {
    var distinct := Distinct(queryTokens);
    var words := Distinct(Folds(distinct));
    var bonus := Bonus(fields, distinct, rawQuery);
    if bonus + SumOfWords(fields, distinct, words, false) > 0 then
      bonus + SumOfWords(fields, distinct, words, true)
    else 0
  }

  /** Groups the spellings of each word, words in the order of their first one. */
  method GroupSpellings(distinct: seq<string>) returns (order: seq<string>, words: map<string, seq<string>>)
    ensures order == Distinct(Folds(distinct))
    ensures forall word :: word in words <==> word in order
    ensures forall word :: word in words ==> words[word] == Spellings(distinct, word)
  {
    words, order := map[], [];
    for i := 0 to |distinct|
      invariant order == Distinct(Folds(distinct)[..i])
      invariant forall word :: word in words <==> word in order
      invariant forall word :: Spellings(distinct[..i], word) == if word in words then words[word] else []
    {
      assert distinct[..i + 1][..i] == distinct[..i];
      assert Folds(distinct)[..i + 1][..i] == Folds(distinct)[..i];
      var token := distinct[i];
      var folded := FoldPlural(token);
      if folded !in words {
        words := words[folded := [token]];
        order := order + [folded];
      } else {
        words := words[folded := words[folded] + [token]];
      }
    }
    assert distinct[..|distinct|] == distinct;
    assert Folds(distinct)[..|distinct|] == Folds(distinct);
  }

  lemma OneMoreWord(fields: Fields, tokens: seq<string>, words: seq<string>, i: nat)
    requires i < |words|
    ensures forall params :: SumOfWords(fields, tokens, words[..i + 1], params)
                             == SumOfWords(fields, tokens, words[..i], params) + WordScore(fields, tokens, words[i], params)
  {
    assert words[..i + 1][..i] == words[..i];
  }

  method ScoreLexical(fields: Fields, queryTokens: seq<string>, rawQuery: string) returns (score: nat)
    ensures score == Score(fields, queryTokens, rawQuery)
  {
    var distinct := Distinct(queryTokens);
    var nameHit := NameHit(fields, distinct);
    var matched := if !nameHit && Includes(fields.name, rawQuery) then 4 else 0;
    var total := matched;
    var order, words := GroupSpellings(distinct);
    ghost var bonus := matched;
    for i := 0 to |order|
      invariant matched == bonus + SumOfWords(fields, distinct, order[..i], false)
      invariant total == bonus + SumOfWords(fields, distinct, order[..i], true)
    {
      OneMoreWord(fields, distinct, order, i);
      assert order[i] in words;
      var spellings := words[order[i]];
      var direct := Best(fields, spellings, false);
      var param := Best(fields, spellings, true);
      matched := matched + direct;
      total := total + Max(direct, param);
    }
    assert order[..|order|] == order;
    return if matched > 0 then total else 0;
  }

  // ---------------------------------------------- the score as a set function

  predicate SameElements<T(==)>(a: seq<T>, b: seq<T>) {
    (forall x :: x in a ==> x in b) && (forall x :: x in b ==> x in a)
  }

  predicate NoRepeats<T(==)>(a: seq<T>) {
    forall i, j :: 0 <= i < j < |a| ==> a[i] != a[j]
  }

  function TokenScore(fields: Fields, token: string, params: bool): nat {
    if params then ParamTokenScore(fields, token) else DirectTokenScore(fields, token)
  }

  lemma {:induction false} BestOfSpellings(fields: Fields, tokens: seq<string>, word: string, params: bool)
    ensures var best := Best(fields, Spellings(tokens, word), params);
      && (forall t :: t in tokens && FoldPlural(t) == word ==> TokenScore(fields, t, params) <= best)
      && (best > 0 ==> exists t :: t in tokens && FoldPlural(t) == word && TokenScore(fields, t, params) == best)
  {
    if tokens != [] {
      var front, last := tokens[..|tokens| - 1], tokens[|tokens| - 1];
      assert tokens == front + [last];
      BestOfSpellings(fields, front, word, params);
      var earlier := Spellings(front, word);
      if FoldPlural(last) == word {
        assert Spellings(tokens, word) == earlier + [last];
        assert (earlier + [last])[..|earlier|] == earlier;
      } else {
        assert Spellings(tokens, word) == earlier;
      }
    }
  }

  lemma SameTokensSameBest(fields: Fields, a: seq<string>, b: seq<string>, word: string, params: bool)
    requires SameElements(a, b)
    ensures Best(fields, Spellings(a, word), params) == Best(fields, Spellings(b, word), params)
  {
    BestOfSpellings(fields, a, word, params);
    BestOfSpellings(fields, b, word, params);
  }

  lemma {:induction false} SameTokensSameSum(fields: Fields, a: seq<string>, b: seq<string>, words: seq<string>, withParams: bool)
    requires SameElements(a, b)
    ensures SumOfWords(fields, a, words, withParams) == SumOfWords(fields, b, words, withParams)
  {
    if words != [] {
      SameTokensSameSum(fields, a, b, words[..|words| - 1], withParams);
      SameTokensSameBest(fields, a, b, words[|words| - 1], false);
      SameTokensSameBest(fields, a, b, words[|words| - 1], true);
    }
  }

  /** Taking one word out of the list takes its score out of the sum. */
  lemma {:induction false} SumWithout(fields: Fields, tokens: seq<string>, words: seq<string>, i: nat, withParams: bool)
    requires i < |words|
    ensures SumOfWords(fields, tokens, words, withParams)
         == SumOfWords(fields, tokens, words[..i] + words[i + 1..], withParams)
            + WordScore(fields, tokens, words[i], withParams)
    decreases |words|
  {
    var front, last := words[..|words| - 1], words[|words| - 1];
    if i == |words| - 1 {
      assert words[..i] + words[i + 1..] == front;
    } else {
      SumWithout(fields, tokens, front, i, withParams);
      var without := words[..i] + words[i + 1..];
      assert without == (front[..i] + front[i + 1..]) + [last];
      assert without[..|without| - 1] == front[..i] + front[i + 1..];
      assert front[i] == words[i];
    }
  }

  lemma ElementIn<T>(s: seq<T>, i: nat)
    requires i < |s|
    ensures s[i] in s
  {
  }

  lemma {:induction false} SumDependsOnTheSet(fields: Fields, tokens: seq<string>, a: seq<string>, b: seq<string>, withParams: bool)
    requires NoRepeats(a) && NoRepeats(b) && SameElements(a, b)
    ensures SumOfWords(fields, tokens, a, withParams) == SumOfWords(fields, tokens, b, withParams)
    decreases |a|
  {
    if a == [] {
      NothingIn(b);
    } else {
      var front, last := a[..|a| - 1], a[|a| - 1];
      assert a == front + [last];
      assert last in b;
      var i :| 0 <= i < |b| && b[i] == last;
      WithoutOne(a, b, i);
      SumDependsOnTheSet(fields, tokens, front, b[..i] + b[i + 1..], withParams);
      SumWithout(fields, tokens, b, i, withParams);
    }
  }

  lemma NothingIn(s: seq<string>)
    requires forall x :: x in s ==> x in []
    ensures s == []
  {
    FirstIn(s);
  }

  lemma FirstIn(s: seq<string>)
    ensures s != [] ==> s[0] in s
  {
  }

  lemma WithoutOne(a: seq<string>, b: seq<string>, i: nat)
    requires NoRepeats(a) && NoRepeats(b) && SameElements(a, b) && a != [] && i < |b| && b[i] == a[|a| - 1]
    ensures var rest := b[..i] + b[i + 1..]; NoRepeats(rest) && SameElements(a[..|a| - 1], rest)
  {
    var front, rest := a[..|a| - 1], b[..i] + b[i + 1..];
    forall x | x in front
      ensures x in rest
    {
      assert x in b;
      var j :| 0 <= j < |b| && b[j] == x;
      assert j != i;
      assert x == if j < i then rest[j] else rest[j - 1];
    }
    forall x | x in rest
      ensures x in front
    {
      var j :| 0 <= j < |rest| && rest[j] == x;
      assert x == if j < i then b[j] else b[j + 1];
      assert x in a && x != a[|a| - 1];
    }
  }

  lemma SameTokensSameBonus(fields: Fields, a: seq<string>, b: seq<string>, rawQuery: string)
    requires NoRepeats(a) && NoRepeats(b) && SameElements(a, b)
    ensures Bonus(fields, a, rawQuery) == Bonus(fields, b, rawQuery)
  {
    if |a| == 1 || |b| == 1 {
      assert a == b by {
        if |a| == 1 {
          OneElement(b, a[0]);
        } else {
          OneElement(a, b[0]);
        }
      }
    }
  }

  lemma OneElement(s: seq<string>, only: string)
    requires NoRepeats(s) && only in s && forall x :: x in s ==> x == only
    ensures s == [only]
  {
    ElementIn(s, 0);
    if |s| > 1 {
      ElementIn(s, 1);
      assert false;
    }
  }

  /** A score is unchanged by permuting or repeating the tokens of a query: it
      depends on nothing but the set of them. */
  lemma ScoreDependsOnTheSet(fields: Fields, a: seq<string>, b: seq<string>, rawQuery: string)
    requires SameElements(a, b)
    ensures Score(fields, a, rawQuery) == Score(fields, b, rawQuery)
  {
    DistinctKeepsElements(a);
    DistinctKeepsElements(b);
    var da, db := Distinct(a), Distinct(b);
    SameTokensSameBonus(fields, da, db, rawQuery);
    var wa, wb := Distinct(Folds(da)), Distinct(Folds(db));
    SameFolds(da, db);
    DistinctKeepsElements(Folds(da));
    DistinctKeepsElements(Folds(db));
    SameTokensSameSum(fields, da, db, wa, false);
    SameTokensSameSum(fields, da, db, wa, true);
    SumDependsOnTheSet(fields, db, wa, wb, false);
    SumDependsOnTheSet(fields, db, wa, wb, true);
  }

  lemma SameFolds(a: seq<string>, b: seq<string>)
    requires forall x :: x in a ==> x in b
    requires forall x :: x in b ==> x in a
    ensures SameElements(Folds(a), Folds(b))
  {
    forall i | 0 <= i < |a|
      ensures Folds(a)[i] in Folds(b)
    {
      assert a[i] in b;
      var j :| 0 <= j < |b| && b[j] == a[i];
      assert Folds(b)[j] == Folds(a)[i];
    }
    forall i | 0 <= i < |b|
      ensures Folds(b)[i] in Folds(a)
    {
      assert b[i] in a;
      var j :| 0 <= j < |a| && a[j] == b[i];
      assert Folds(a)[j] == Folds(b)[i];
    }
  }

  // ------------------------------------------------------ what is a match

  /** The token occurs in the name or the description, as a token, up to a
      plural in the name, or as a part. */
  predicate MatchesDirectly(fields: Fields, token: string) {
    || token in fields.nameTokens
    || FoldPlural(token) in fields.FoldedNameTokens()
    || token in fields.blobTokens
    || Includes(fields.name, token)
    || Includes(fields.blob, token)
  }

  lemma {:induction false} SumIsPositive(fields: Fields, tokens: seq<string>, words: seq<string>)
    ensures SumOfWords(fields, tokens, words, false) > 0
       <==> exists w :: w in words && Best(fields, Spellings(tokens, w), false) > 0
    ensures SumOfWords(fields, tokens, words, true) >= SumOfWords(fields, tokens, words, false)
  {
    if words != [] {
      var front, last := words[..|words| - 1], words[|words| - 1];
      assert words == front + [last];
      SumIsPositive(fields, tokens, front);
      assert SumOfWords(fields, tokens, words, false)
          == SumOfWords(fields, tokens, front, false) + Best(fields, Spellings(tokens, last), false);
      assert last in words;
    }
  }

  lemma ScoresExactlyOnAMatch(fields: Fields, token: string)
    ensures TokenScore(fields, token, false) > 0 <==> MatchesDirectly(fields, token)
  {
  }

  lemma WordsSumIsPositive(fields: Fields, distinct: seq<string>)
    ensures SumOfWords(fields, distinct, Distinct(Folds(distinct)), false) > 0
       <==> exists t :: t in distinct && TokenScore(fields, t, false) > 0
  {
    var words := Distinct(Folds(distinct));
    DistinctKeepsElements(Folds(distinct));
    SumIsPositive(fields, distinct, words);
    forall t | t in distinct && TokenScore(fields, t, false) > 0
      ensures SumOfWords(fields, distinct, words, false) > 0
    {
      var i :| 0 <= i < |distinct| && distinct[i] == t;
      assert Folds(distinct)[i] == FoldPlural(t);
      assert FoldPlural(t) in words;
      BestOfSpellings(fields, distinct, FoldPlural(t), false);
    }
    if SumOfWords(fields, distinct, words, false) > 0 {
      var word :| word in words && Best(fields, Spellings(distinct, word), false) > 0;
      BestOfSpellings(fields, distinct, word, false);
    }
  }

  /** An item is a hit exactly when a token matches its name or description
      directly or the whole query is part of its name; parameters alone never
      make one. */
  lemma PositiveExactlyOnAMatch(fields: Fields, queryTokens: seq<string>, rawQuery: string)
    ensures Score(fields, queryTokens, rawQuery) > 0
       <==> (exists t :: t in queryTokens && MatchesDirectly(fields, t))
            || Bonus(fields, Distinct(queryTokens), rawQuery) > 0
  {
    var distinct := Distinct(queryTokens);
    DistinctKeepsElements(queryTokens);
    SumIsPositive(fields, distinct, Distinct(Folds(distinct)));
    WordsSumIsPositive(fields, distinct);
    forall t | t in queryTokens
      ensures TokenScore(fields, t, false) > 0 <==> MatchesDirectly(fields, t)
    {
      ScoresExactlyOnAMatch(fields, t);
    }
  }

  // ------------------------------------------------------------ the tiers

  predicate IsNameToken(fields: Fields, token: string) {
    exists i :: 0 <= i < |fields.nameTokens| && fields.nameTokens[i] == token
  }

  /** A name token that differs at most in a trailing plural `s`. */
  predicate FoldsToNameToken(fields: Fields, token: string) {
    exists i :: 0 <= i < |fields.nameTokens| && FoldPlural(fields.nameTokens[i]) == FoldPlural(token)
  }

  ghost predicate IsInside(text: string, token: string) {
    exists before, after :: text == Cat(before, token, after)
  }

  function Cat(before: string, token: string, after: string): string {
    before + token + after
  }

  lemma IncludesIsInside(text: string, token: string)
    ensures Includes(text, token) <==> IsInside(text, token)
  {
    if Includes(text, token) {
      var i :| 0 <= i <= |text| && OccursAt(text, i, token);
      assert text == Cat(text[..i], token, text[i + |token|..]);
    }
    if IsInside(text, token) {
      var before, after :| text == Cat(before, token, after);
      assert OccursAt(text, |before|, token);
    }
  }

  /** Three points for a name token, two and a half for one but for its plural, one
      for a token of the description, three quarters inside the name, a quarter
      inside the description; each tier only where no better one holds. */
  lemma DirectTiers(fields: Fields, token: string)
    ensures var quarters := DirectTokenScore(fields, token);
      var exact, folded, listed := IsNameToken(fields, token), FoldsToNameToken(fields, token), token in fields.blobTokens;
      var inName, inBlob := IsInside(fields.name, token), IsInside(fields.blob, token);
      && (quarters == 12 <==> exact)
      && (quarters == 10 <==> folded && !exact)
      && (quarters == 4 <==> listed && !folded)
      && (quarters == 3 <==> inName && !folded && !listed)
      && (quarters == 1 <==> inBlob && !folded && !listed && !inName)
      && (quarters == 0 <==> !folded && !listed && !inName && !inBlob)
  {
    IncludesIsInside(fields.name, token);
    IncludesIsInside(fields.blob, token);
    var folds := fields.FoldedNameTokens();
    assert forall i :: 0 <= i < |fields.nameTokens| ==> folds[i] == FoldPlural(fields.nameTokens[i]);
  }

  /** Half a point for a parameter's name, a quarter for its description. */
  lemma ParamTiers(fields: Fields, token: string)
    ensures var quarters := ParamTokenScore(fields, token);
      && (quarters == 2 <==> token in fields.paramNameTokens)
      && (quarters == 1 <==> token in fields.paramBlobTokens && token !in fields.paramNameTokens)
      && (quarters == 0 <==> token !in fields.paramBlobTokens && token !in fields.paramNameTokens)
  {
  }

  /** A plural folds to its word from three letters on, and anything else to itself. */
  lemma PluralsFold(word: string)
    ensures |word| >= 3 ==> FoldPlural(word + "s") == word
    ensures |word| < 4 || word[|word| - 1] != 's' ==> FoldPlural(word) == word
  {
    assert |word| >= 3 ==> (word + "s")[..|word|] == word;
  }

  // ------------------------------------------------------ the whole score

  /** A word is worth the best of its spellings, by name and description or, where
      those count, by the parameters. */
  lemma WordIsWorthItsBest(fields: Fields, tokens: seq<string>, word: string, withParams: bool)
    ensures var worth := WordScore(fields, tokens, word, withParams);
      && (forall t :: t in tokens && FoldPlural(t) == word ==>
            DirectTokenScore(fields, t) <= worth && (withParams ==> ParamTokenScore(fields, t) <= worth))
      && (worth > 0 ==>
            exists t :: t in tokens && FoldPlural(t) == word
                        && (worth == DirectTokenScore(fields, t) || (withParams && worth == ParamTokenScore(fields, t))))
  {
    BestOfSpellings(fields, tokens, word, false);
    BestOfSpellings(fields, tokens, word, true);
    assert forall t :: TokenScore(fields, t, false) == DirectTokenScore(fields, t);
    assert forall t :: TokenScore(fields, t, true) == ParamTokenScore(fields, t);
  }

  /** A query of one word, however often repeated, that is a name token already. */
  predicate NamesItsToken(fields: Fields, queryTokens: seq<string>) {
    && queryTokens != [] && (forall i :: 0 <= i < |queryTokens| ==> queryTokens[i] == queryTokens[0])
    && (IsNameToken(fields, queryTokens[0]) || FoldsToNameToken(fields, queryTokens[0]))
  }

  lemma DistinctOfOne(tokens: seq<string>)
    ensures |Distinct(tokens)| == 1 <==> tokens != [] && forall i :: 0 <= i < |tokens| ==> tokens[i] == tokens[0]
    ensures |Distinct(tokens)| == 1 ==> Distinct(tokens)[0] == tokens[0]
  {
    var distinct := Distinct(tokens);
    DistinctKeepsElements(tokens);
    assert tokens != [] ==> tokens[0] in distinct;
    if |distinct| == 1 {
      forall i | 0 <= i < |tokens| ensures tokens[i] == distinct[0] {
        assert tokens[i] in distinct;
      }
    } else if |distinct| > 1 {
      assert distinct[0] in tokens && distinct[1] in tokens && distinct[0] != distinct[1];
    }
  }

  lemma NameHitIsOneToken(fields: Fields, queryTokens: seq<string>)
    ensures NameHit(fields, Distinct(queryTokens)) == NamesItsToken(fields, queryTokens)
  {
    DistinctOfOne(queryTokens);
    if queryTokens != [] {
      var folds := fields.FoldedNameTokens();
      assert forall i :: 0 <= i < |fields.nameTokens| ==> folds[i] == FoldPlural(fields.nameTokens[i]);
    }
  }

  /** A score is what each word of the query is worth, once, and one point more when
      the whole query stands inside the name, unless it is one word that is a name
      token already; parameters count only for an item that matches without them. */
  lemma ScoreAddsUp(fields: Fields, queryTokens: seq<string>, rawQuery: string)
    ensures var distinct := Distinct(queryTokens);
      var words := Distinct(Folds(distinct));
      var bonus := if IsInside(fields.name, rawQuery) && !NamesItsToken(fields, queryTokens) then 4 else 0;
      var direct, all := SumOfWords(fields, distinct, words, false), SumOfWords(fields, distinct, words, true);
      Score(fields, queryTokens, rawQuery) == if bonus == 0 && direct == 0 then 0 else bonus + all
  {
    hide SumOfWords, Includes, NameHit, NamesItsToken, Distinct, Folds;
    IncludesIsInside(fields.name, rawQuery);
    NameHitIsOneToken(fields, queryTokens);
  }
}
