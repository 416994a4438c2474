/**
 * Token-overlap text matching (extools/nlp/text_matching/exciton_matching.py).
 *
 * `predict` tokenizes both texts, counts every token, adds up for each
 * token of A the smaller of its two counts, and reports that overlap as a
 * share of each text's tokens together with the harmonic mean of the two
 * shares. The tokenizer and Unicode `lower()` are parameters; the shares
 * are exact `real`s, where the source computes them in floating point.
 */
module TextMatching {
  import opened Text

  /** `_count_tokens`'s dictionary: its keys in insertion order and the count of each. */
  datatype Counter = Counter(keys: seq<string>, counts: map<string, nat>)

  /** The dictionary `predict` returns. */
  datatype MatchOutput = MatchOutput(
    textA: string, textB: string,
    tokensA: seq<string>, tokensB: seq<string>,
    probAinB: real, probBinA: real, score: real)

  /** A Python `if t in counter: counter[t] += 1 else: counter[t] = 1`. */
  function AddToken(c: Counter, t: string): Counter {
    if t in c.counts then Counter(c.keys, c.counts[t := c.counts[t] + 1])
    else Counter(c.keys + [t], c.counts[t := 1])
  }

  /** The counter `_count_tokens` builds, one token at a time. */
  function CounterOf(tokens: seq<string>): Counter {
    if tokens == [] then Counter([], map[])
    else AddToken(CounterOf(tokens[..|tokens| - 1]), tokens[|tokens| - 1])
  }

  /** The sum of the counts of the given keys. */
  function SumOver(keys: seq<string>, m: map<string, nat>): nat
    requires forall k :: k in keys ==> k in m
  {
    if keys == [] then 0 else SumOver(keys[..|keys| - 1], m) + m[keys[|keys| - 1]]
  }

  predicate Distinct(keys: seq<string>) {
    forall i, j :: 0 <= i < j < |keys| ==> keys[i] != keys[j]
  }

  lemma DistinctLast(keys: seq<string>)
    requires Distinct(keys) && keys != []
    ensures keys[|keys| - 1] !in keys[..|keys| - 1]
    ensures Distinct(keys[..|keys| - 1])
  {
    var prev := keys[..|keys| - 1];
    assert forall i :: 0 <= i < |prev| ==> prev[i] == keys[i] && keys[i] != keys[|keys| - 1];
  }

  /** The keys are the distinct tokens, each once, and each count is that token's multiplicity. */
  ghost predicate Counts(c: Counter, tokens: seq<string>) {
    Distinct(c.keys)
    && (forall t :: t in c.keys <==> t in c.counts)
    && (forall t :: t in c.counts <==> t in multiset(tokens))
    && (forall t :: t in c.counts ==> c.counts[t] == multiset(tokens)[t])
  }

  lemma SumFrame(keys: seq<string>, m: map<string, nat>, m': map<string, nat>)
    requires forall k :: k in keys ==> k in m && k in m' && m[k] == m'[k]
    ensures SumOver(keys, m) == SumOver(keys, m')
  {
    if keys != [] {
      SumFrame(keys[..|keys| - 1], m, m');
    }
  }

  lemma {:induction false} SumBump(keys: seq<string>, m: map<string, nat>, t: string)
    requires Distinct(keys) && t in keys
    requires forall k :: k in keys ==> k in m
    ensures SumOver(keys, m[t := m[t] + 1]) == SumOver(keys, m) + 1
  {
    var last := keys[|keys| - 1];
    var prev := keys[..|keys| - 1];
    if last == t {
      DistinctLast(keys);
      SumFrame(prev, m, m[t := m[t] + 1]);
    } else {
      assert t in prev by {
        var i :| 0 <= i < |keys| && keys[i] == t;
        assert prev[i] == t;
      }
      DistinctLast(keys);
      SumBump(prev, m, t);
    }
  }

  lemma AddCounts(c: Counter, tokens: seq<string>, t: string)
    requires Counts(c, tokens)
    ensures Counts(AddToken(c, t), tokens + [t])
  {
    if t !in c.counts {
      var keys := c.keys + [t];
      assert keys[..|keys| - 1] == c.keys;
    }
  }

  lemma AddTotal(c: Counter, t: string)
    requires Distinct(c.keys)
    requires forall k :: k in c.keys <==> k in c.counts
    ensures forall k :: k in AddToken(c, t).keys ==> k in AddToken(c, t).counts
    ensures SumOver(AddToken(c, t).keys, AddToken(c, t).counts) == SumOver(c.keys, c.counts) + 1
  {
    if t in c.counts {
      SumBump(c.keys, c.counts, t);
    } else {
      var keys := c.keys + [t];
      assert keys[..|keys| - 1] == c.keys;
      SumFrame(c.keys, c.counts, c.counts[t := 1]);
    }
  }

  /** `_count_tokens` maps each token to its number of occurrences, with its keys the distinct tokens. */
  lemma {:induction false} CounterCounts(tokens: seq<string>)
    ensures Counts(CounterOf(tokens), tokens)
    decreases |tokens|
  {
    if tokens != [] {
      var prev := tokens[..|tokens| - 1];
      CounterCounts(prev);
      assert prev + [tokens[|tokens| - 1]] == tokens;
      AddCounts(CounterOf(prev), prev, tokens[|tokens| - 1]);
    }
  }

  /** The counts add up to the number of tokens. */
  lemma {:induction false} CounterTotal(tokens: seq<string>)
    ensures forall k :: k in CounterOf(tokens).keys ==> k in CounterOf(tokens).counts
    ensures SumOver(CounterOf(tokens).keys, CounterOf(tokens).counts) == |tokens|
    decreases |tokens|
  {
    if tokens != [] {
      var prev := tokens[..|tokens| - 1];
      CounterTotal(prev);
      CounterCounts(prev);
      AddTotal(CounterOf(prev), tokens[|tokens| - 1]);
    }
  }

  /** The `match` loop: over A's keys, the smaller count whenever B has the token too. */
  function MatchOver(keys: seq<string>, a: map<string, nat>, b: map<string, nat>): nat
    requires forall k :: k in keys ==> k in a
  {
    if keys == [] then 0
    else
      var k := keys[|keys| - 1];
      MatchOver(keys[..|keys| - 1], a, b) + if k in b then (if a[k] <= b[k] then a[k] else b[k]) else 0
  }

  function Min(x: nat, y: nat): nat {
    if x <= y then x else y
  }

  lemma {:induction false} MatchIntersection(keys: seq<string>, a: map<string, nat>, b: map<string, nat>,
                                             ma: multiset<string>, mb: multiset<string>)
    requires Distinct(keys)
    requires forall k :: k in keys ==> k in a && a[k] == ma[k]
    requires forall k :: k in ma ==> k in keys
    requires forall k :: k in b <==> k in mb
    requires forall k :: k in b ==> b[k] == mb[k]
    ensures MatchOver(keys, a, b) == |ma * mb|
    decreases |keys|
  {
    if keys == [] {
      assert ma * mb == multiset{};
    } else {
      var k := keys[|keys| - 1];
      var prev := keys[..|keys| - 1];
      var rest := ma[k := 0];
      DistinctLast(keys);
      forall x | x in rest ensures x in prev {
        var i :| 0 <= i < |keys| && keys[i] == x;
        assert i < |keys| - 1;
        assert prev[i] == x;
      }
      MatchIntersection(prev, a, b, rest, mb);
      var common := multiset{}[k := Min(ma[k], mb[k])];
      assert ma * mb == rest * mb + common;
    }
  }

  /** An intersection is no larger than either side. */
  lemma IntersectionBounds(ma: multiset<string>, mb: multiset<string>)
    ensures |ma * mb| <= |ma| && |ma * mb| <= |mb|
  {
    assert ma == ma * mb + (ma - ma * mb);
    assert mb == ma * mb + (mb - ma * mb);
  }

  /**
   * `match`: the size of the multiset intersection of the two token lists,
   * so at most the length of either.
   */
  function Overlap(tokensA: seq<string>, tokensB: seq<string>): (common: nat)
    ensures common == |multiset(tokensA) * multiset(tokensB)|
    ensures common <= |tokensA| && common <= |tokensB|
  {
    var a, b := CounterOf(tokensA), CounterOf(tokensB);
    CounterCounts(tokensA);
    CounterCounts(tokensB);
    MatchIntersection(a.keys, a.counts, b.counts, multiset(tokensA), multiset(tokensB));
    IntersectionBounds(multiset(tokensA), multiset(tokensB));
    MatchOver(a.keys, a.counts, b.counts)
  }

  /** `match / len(tokensA)`, `match / len(tokensB)` and their harmonic mean. */
  function Scores(tokensA: seq<string>, tokensB: seq<string>, common: nat): Result<(real, real, real)> {
    if |tokensA| == 0 || |tokensB| == 0 then Err(ZeroDivisionError)
    else
      var aInB := common as real / |tokensA| as real;
      var bInA := common as real / |tokensB| as real;
      if aInB + bInA == 0.0 then Err(ZeroDivisionError)
      else Ok((aInB, bInA, 2.0 * aInB * bInA / (aInB + bInA)))
  }

  /** The normalised text: lower-cased and stripped when `lowerCase` is set. */
  function Normalise(lower: string -> string, text: string, lowerCase: bool): string {
    if lowerCase then Strip(lower(text)) else text
  }

  /** The tokens of both texts: the tokenizer's, or both character lists when it raises on either. */
  function TokensOf(tokenize: string -> Option<seq<string>>, textA: string, textB: string): (seq<string>, seq<string>) {
    var a, b := tokenize(textA), tokenize(textB);
    if a.Some? && b.Some? then (a.value, b.value)
    else (seq(|textA|, i requires 0 <= i < |textA| => [textA[i]]), seq(|textB|, i requires 0 <= i < |textB| => [textB[i]]))
  }

  /** `Text_Matching.predict`. */
  function PredictOf(tokenize: string -> Option<seq<string>>, lower: string -> string,
                     textA: string, textB: string, lowerCase: bool): Result<MatchOutput>
  {
    var a := Normalise(lower, textA, lowerCase);
    var b := Normalise(lower, textB, lowerCase);
    if |a| == 0 || |b| == 0 then Ok(MatchOutput(a, b, [], [], 0.0, 0.0, 0.0))
    else
      var (ta, tb) := TokensOf(tokenize, a, b);
      match Scores(ta, tb, Overlap(ta, tb))
      case Err(e) => Err(e)
      case Ok((aInB, bInA, score)) => Ok(MatchOutput(a, b, ta, tb, aInB, bInA, score))
  }

  // ---------------------------------------------------------------------
  // Properties

  /** If either text is empty once normalised, nothing is tokenized and every score is 0. */
  lemma PredictEmpty(tokenize: string -> Option<seq<string>>, lower: string -> string,
                     textA: string, textB: string, lowerCase: bool)
    requires Normalise(lower, textA, lowerCase) == [] || Normalise(lower, textB, lowerCase) == []
    ensures PredictOf(tokenize, lower, textA, textB, lowerCase).Ok?
    ensures var out := PredictOf(tokenize, lower, textA, textB, lowerCase).value;
      out.tokensA == [] && out.tokensB == [] && out.probAinB == 0.0 && out.probBinA == 0.0 && out.score == 0.0
  {
  }

  /** When the tokenizer raises on either text, both fall back to their characters. */
  lemma TokensFallback(tokenize: string -> Option<seq<string>>, textA: string, textB: string)
    requires tokenize(textA).None? || tokenize(textB).None?
    ensures |TokensOf(tokenize, textA, textB).0| == |textA| && |TokensOf(tokenize, textA, textB).1| == |textB|
    ensures forall i :: 0 <= i < |textA| ==> TokensOf(tokenize, textA, textB).0[i] == [textA[i]]
    ensures forall i :: 0 <= i < |textB| ==> TokensOf(tokenize, textA, textB).1[i] == [textB[i]]
  {
  }

  /**
   * The shares are the overlap over each side's token count, both in
   * (0, 1], and the score is their harmonic mean, in (0, 1]; an empty
   * token list or no overlap raises ZeroDivisionError.
   */
  lemma ScoresMeaning(tokensA: seq<string>, tokensB: seq<string>, common: nat)
    requires common <= |tokensA| && common <= |tokensB|
    ensures Scores(tokensA, tokensB, common).Ok? <==> |tokensA| > 0 && |tokensB| > 0 && common > 0
    ensures Scores(tokensA, tokensB, common).Err? ==> Scores(tokensA, tokensB, common).error == ZeroDivisionError
    ensures Scores(tokensA, tokensB, common).Ok? ==>
      var (aInB, bInA, score) := Scores(tokensA, tokensB, common).value;
      aInB == common as real / |tokensA| as real && bInA == common as real / |tokensB| as real
      && 0.0 < aInB <= 1.0 && 0.0 < bInA <= 1.0
      && score == 2.0 * aInB * bInA / (aInB + bInA) && 0.0 < score <= 1.0
  {
    if |tokensA| > 0 && |tokensB| > 0 && common > 0 {
      DivLeOne(common as real, |tokensA| as real);
      DivLeOne(common as real, |tokensB| as real);
      HarmonicBounds(common as real / |tokensA| as real, common as real / |tokensB| as real);
    }
  }

  /** x * y <= x for y in (0, 1]. */
  lemma MulLeOne(x: real, y: real)
    requires 0.0 < x && 0.0 < y <= 1.0
    ensures x * y <= x
  {
    assert x * y + x * (1.0 - y) == x;
    assert x * (1.0 - y) >= 0.0;
  }

  lemma DivLeOne(n: real, d: real)
    requires 0.0 < n <= d
    ensures 0.0 < n / d <= 1.0
  {
  }

  /** The harmonic mean of two shares in (0, 1] lies in (0, 1]. */
  lemma HarmonicBounds(x: real, y: real)
    requires 0.0 < x <= 1.0 && 0.0 < y <= 1.0
    ensures 0.0 < 2.0 * x * y / (x + y) <= 1.0
  {
    var p := x * y;
    MulLeOne(x, y);
    MulLeOne(y, x);
    assert y * x == p;
    assert 0.0 < p;
    assert 2.0 * x * y == 2.0 * p;
    assert p <= x;
    assert p <= y;
    assert 2.0 * p <= x + y;
    DivLeOne(2.0 * p, x + y);
  }

  /**
   * With both texts non-empty once normalised, `predict` reports them and
   * their tokens; the shares are the multiset overlap of the tokens over
   * each side's count, both in (0, 1], and the score is their harmonic
   * mean, in (0, 1]. An empty token list or no shared token raises
   * ZeroDivisionError.
   */
  lemma PredictMeaning(tokenize: string -> Option<seq<string>>, lower: string -> string,
                       textA: string, textB: string, lowerCase: bool)
    requires Normalise(lower, textA, lowerCase) != [] && Normalise(lower, textB, lowerCase) != []
    ensures var a, b := Normalise(lower, textA, lowerCase), Normalise(lower, textB, lowerCase);
      var (ta, tb) := TokensOf(tokenize, a, b);
      var common := |multiset(ta) * multiset(tb)|;
      var r := PredictOf(tokenize, lower, textA, textB, lowerCase);
      (r.Ok? <==> |ta| > 0 && |tb| > 0 && common > 0)
      && (r.Err? ==> r.error == ZeroDivisionError)
      && (r.Ok? ==>
        r.value.textA == a && r.value.textB == b && r.value.tokensA == ta && r.value.tokensB == tb
        && r.value.probAinB == common as real / |ta| as real
        && r.value.probBinA == common as real / |tb| as real
        && 0.0 < r.value.probAinB <= 1.0 && 0.0 < r.value.probBinA <= 1.0
        && r.value.score == 2.0 * r.value.probAinB * r.value.probBinA / (r.value.probAinB + r.value.probBinA)
        && 0.0 < r.value.score <= 1.0)
  {
    var a, b := Normalise(lower, textA, lowerCase), Normalise(lower, textB, lowerCase);
    var (ta, tb) := TokensOf(tokenize, a, b);
    ScoresMeaning(ta, tb, Overlap(ta, tb));
  }

  /** Swapping the inputs of the scores swaps the two shares and leaves the score unchanged. */
  lemma ScoresSwap(tokensA: seq<string>, tokensB: seq<string>, common: nat)
    ensures Scores(tokensA, tokensB, common).Ok? == Scores(tokensB, tokensA, common).Ok?
    ensures Scores(tokensA, tokensB, common).Err? ==> Scores(tokensA, tokensB, common).error == Scores(tokensB, tokensA, common).error
    ensures Scores(tokensA, tokensB, common).Ok? ==>
      var (aInB, bInA, score) := Scores(tokensA, tokensB, common).value;
      Scores(tokensB, tokensA, common).value == (bInA, aInB, score)
  {
    if |tokensA| > 0 && |tokensB| > 0 {
      var x := common as real / |tokensA| as real;
      var y := common as real / |tokensB| as real;
      assert 2.0 * x * y == 2.0 * y * x;
      assert x + y == y + x;
    }
  }

  /** Swapping the texts swaps the tokens and the two shares and leaves the score unchanged. */
  lemma PredictSwap(tokenize: string -> Option<seq<string>>, lower: string -> string,
                    textA: string, textB: string, lowerCase: bool)
    ensures var r, s := PredictOf(tokenize, lower, textA, textB, lowerCase), PredictOf(tokenize, lower, textB, textA, lowerCase);
      r.Ok? == s.Ok? && (r.Err? ==> r.error == s.error)
      && (r.Ok? ==>
        s.value.textA == r.value.textB && s.value.textB == r.value.textA
        && s.value.tokensA == r.value.tokensB && s.value.tokensB == r.value.tokensA
        && s.value.probAinB == r.value.probBinA && s.value.probBinA == r.value.probAinB
        && s.value.score == r.value.score)
  {
    var a, b := Normalise(lower, textA, lowerCase), Normalise(lower, textB, lowerCase);
    if a != [] && b != [] {
      var (ta, tb) := TokensOf(tokenize, a, b);
      assert multiset(ta) * multiset(tb) == multiset(tb) * multiset(ta);
      assert Overlap(ta, tb) == Overlap(tb, ta);
      ScoresSwap(ta, tb, Overlap(ta, tb));
    }
  }

  // ---------------------------------------------------------------------
  // The loops of `predict`

  /** `_count_tokens`. */
  method CountTokens(tokens: seq<string>) returns (c: Counter)
    ensures c == CounterOf(tokens)
  {
    c := Counter([], map[]);
    for i := 0 to |tokens|
      invariant c == CounterOf(tokens[..i])
    {
      assert tokens[..i + 1][..i] == tokens[..i];
      var t := tokens[i];
      if t in c.counts {
        c := Counter(c.keys, c.counts[t := c.counts[t] + 1]);
      } else {
        c := Counter(c.keys + [t], c.counts[t := 1]);
      }
    }
    assert tokens[..|tokens|] == tokens;
  }

  /** The `match` accumulator over A's keys. */
  method MatchCount(a: Counter, b: Counter) returns (common: nat)
    requires forall k :: k in a.keys ==> k in a.counts
    ensures common == MatchOver(a.keys, a.counts, b.counts)
  {
    common := 0;
    for i := 0 to |a.keys|
      invariant common == MatchOver(a.keys[..i], a.counts, b.counts)
    {
      assert a.keys[..i + 1][..i] == a.keys[..i];
      var token := a.keys[i];
      if token in b.counts {
        common := common + Min(a.counts[token], b.counts[token]);
      }
    }
    assert a.keys[..|a.keys|] == a.keys;
  }

  /** `Text_Matching.predict`. */
  method Predict(tokenize: string -> Option<seq<string>>, lower: string -> string,
                 textA: string, textB: string, lowerCase: bool) returns (r: Result<MatchOutput>)
    ensures r == PredictOf(tokenize, lower, textA, textB, lowerCase)
  {
    var a := Normalise(lower, textA, lowerCase);
    var b := Normalise(lower, textB, lowerCase);
    if |a| == 0 || |b| == 0 {
      return Ok(MatchOutput(a, b, [], [], 0.0, 0.0, 0.0));
    }
    var (ta, tb) := TokensOf(tokenize, a, b);
    var setA := CountTokens(ta);
    var setB := CountTokens(tb);
    CounterTotal(ta);
    var common := MatchCount(setA, setB);
    var scores := Scores(ta, tb, common);
    if scores.Err? {
      return Err(scores.error);
    }
    var (aInB, bInA, score) := scores.value;
    r := Ok(MatchOutput(a, b, ta, tb, aInB, bInA, score));
  }
}
