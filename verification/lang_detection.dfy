/**
 * Language detection (exciton/nlp/lang_detection/exciton_detection.py).
 *
 * `predict` tokenizes the text, keeps at most 100 distinct tokens, and
 * counts for every language how many of them are in its vocabulary. After
 * the tenth token it prunes, on every token, the languages whose share of
 * hits falls below the highest threshold of 0.5, 0.4, …, 0.0 that some
 * language still meets. The answer is the surviving language with the
 * most hits, the last one in the vocabulary's order among equals.
 *
 * The tokenizer and the set that removes duplicate tokens are foreign:
 * `uniqueTokens` stands for `list(set(tokenizer.tokenize(text)))`. The
 * share `count / k` is compared with `p / 10` as `10 * count >= p * k`;
 * both sides are ratios of small integers, so the floating-point
 * comparison gives the same answer.
 */
module LangDetection {
  import opened Text

  /** A language, its vocabulary and its number of hits so far: one entry of `lang_cand`. */
  datatype Cand = Cand(lang: string, words: set<string>, count: nat)

  /** `model_ld` (each language with its vocabulary, in order) and the name of each code in `languages.json`. */
  datatype LdModel = LdModel(vocab: seq<(string, set<string>)>, names: map<string, string>)

  /** The input: a string, or a dictionary whose "text" entry is used (None when it is missing). */
  datatype LdInput = Plain(s: string) | Dict(text: Option<string>)

  /** The answer: the code and its name. */
  datatype Detection = Detection(code: string, name: string)

  /** At most this many distinct tokens are counted. */
  const MaxTokens: nat := 100

  /** The thresholds 0.5, 0.4, …, 0.0, in tenths. */
  const Thresholds: seq<nat> := [5, 4, 3, 2, 1, 0]

  /** `{lang: 0 for lang in model_ld}`. */
  function Init(vocab: seq<(string, set<string>)>): (cand: seq<Cand>)
    ensures |cand| == |vocab|
  {
    seq(|vocab|, i requires 0 <= i < |vocab| => Cand(vocab[i].0, vocab[i].1, 0))
  }

  /** How many of the tokens are in the vocabulary. */
  function CountOf(words: set<string>, toks: seq<string>): (n: nat)
    ensures n <= |toks|
  {
    if toks == [] then 0
    else CountOf(words, toks[..|toks| - 1]) + if toks[|toks| - 1] in words then 1 else 0
  }

  /** The inner counting loop: a hit for every language whose vocabulary holds the token. */
  function Hit(cand: seq<Cand>, wd: string): (r: seq<Cand>)
    ensures |r| == |cand|
  {
    seq(|cand|, i requires 0 <= i < |cand| =>
      if wd in cand[i].words then cand[i].(count := cand[i].count + 1) else cand[i])
  }

  /** The languages meeting threshold `p` tenths after token `k`: `count / k >= p / 10`. */
  function Meeting(cand: seq<Cand>, p: nat, k: nat): seq<Cand> {
    if cand == [] then []
    else
      var rest := Meeting(cand[..|cand| - 1], p, k);
      var c := cand[|cand| - 1];
      if 10 * c.count >= p * k then rest + [c] else rest
  }

  /** The pruning loop: the first threshold some language meets decides; with none, nothing changes. */
  function PruneFrom(cand: seq<Cand>, ps: seq<nat>, k: nat): seq<Cand> {
    if ps == [] then cand
    else if Meeting(cand, ps[0], k) != [] then Meeting(cand, ps[0], k)
    else PruneFrom(cand, ps[1..], k)
  }

  /** One token of the outer loop: count it, then prune once more than nine tokens are in. */
  function Step(cand: seq<Cand>, k: nat, wd: string): seq<Cand> {
    var counted := Hit(cand, wd);
    if k > 8 then PruneFrom(counted, Thresholds, k) else counted
  }

  /** The outer loop over the tokens, `k` their index. */
  function Run(vocab: seq<(string, set<string>)>, toks: seq<string>): seq<Cand> {
    if toks == [] then Init(vocab)
    else Step(Run(vocab, toks[..|toks| - 1]), |toks| - 1, toks[|toks| - 1])
  }

  /** `sorted(..., key=count)[::-1][0]`: the largest count, the last entry among equals. */
  function Best(cand: seq<Cand>): (i: nat)
    requires cand != []
    ensures i < |cand|
    ensures forall j :: 0 <= j < |cand| ==> cand[j].count <= cand[i].count
    ensures forall j :: i < j < |cand| ==> cand[j].count < cand[i].count
  {
    if |cand| == 1 then 0
    else
      var i := Best(cand[..|cand| - 1]);
      if cand[|cand| - 1].count >= cand[i].count then |cand| - 1 else i
  }

  function TextOf(input: LdInput): Result<string> {
    match input
    case Plain(s) => Ok(s)
    case Dict(t) => if t.Some? then Ok(t.value) else Err(KeyError)
  }

  /** `predict`: the best language and its name, or the exception raised on the way. */
  function PredictOf(model: LdModel, uniqueTokens: string -> seq<string>, input: LdInput): Result<Detection> {
    match TextOf(input)
    case Err(e) => Err(e)
    case Ok(text) =>
      var cand := Run(model.vocab, Take(uniqueTokens(text), MaxTokens));
      if cand == [] then Err(IndexError)
      else
        var code := cand[Best(cand)].lang;
        if code in model.names then Ok(Detection(code, model.names[code])) else Err(KeyError)
  }

  // ---------------------------------------------------------------------
  // Properties

  /** Every entry is a language of the model, with its vocabulary, and its count is exactly its hits among the tokens. */
  predicate Exact(vocab: seq<(string, set<string>)>, cand: seq<Cand>, toks: seq<string>) {
    forall c :: c in cand ==> (c.lang, c.words) in vocab && c.count == CountOf(c.words, toks)
  }

  lemma MeetingSub(cand: seq<Cand>, p: nat, k: nat)
    ensures forall c :: c in Meeting(cand, p, k) ==> c in cand && 10 * c.count >= p * k
    ensures forall c :: c in cand && 10 * c.count >= p * k ==> c in Meeting(cand, p, k)
  {
    if cand != [] {
      MeetingSub(cand[..|cand| - 1], p, k);
      assert cand == cand[..|cand| - 1] + [cand[|cand| - 1]];
    }
  }

  lemma {:induction false} PruneSub(cand: seq<Cand>, ps: seq<nat>, k: nat)
    ensures forall c :: c in PruneFrom(cand, ps, k) ==> c in cand
    decreases |ps|
  {
    if ps != [] {
      MeetingSub(cand, ps[0], k);
      PruneSub(cand, ps[1..], k);
    }
  }

  lemma CountSnoc(words: set<string>, toks: seq<string>, wd: string)
    ensures CountOf(words, toks + [wd]) == CountOf(words, toks) + if wd in words then 1 else 0
  {
    assert (toks + [wd])[..|toks|] == toks;
  }

  lemma HitExact(vocab: seq<(string, set<string>)>, cand: seq<Cand>, toks: seq<string>, wd: string)
    requires Exact(vocab, cand, toks)
    ensures Exact(vocab, Hit(cand, wd), toks + [wd])
  {
    forall c | c in Hit(cand, wd) ensures (c.lang, c.words) in vocab && c.count == CountOf(c.words, toks + [wd]) {
      var i :| 0 <= i < |cand| && Hit(cand, wd)[i] == c;
      assert cand[i] in cand;
      CountSnoc(cand[i].words, toks, wd);
    }
  }

  /**
   * Pruning never changes a surviving count, so every surviving language's
   * count is the number of processed tokens in its vocabulary, and at most
   * the number of tokens processed.
   */
  lemma {:induction false} RunExact(vocab: seq<(string, set<string>)>, toks: seq<string>)
    ensures Exact(vocab, Run(vocab, toks), toks)
    ensures forall c :: c in Run(vocab, toks) ==> c.count <= |toks|
    decreases |toks|
  {
    if toks == [] {
      forall c | c in Init(vocab) ensures (c.lang, c.words) in vocab {
        var i :| 0 <= i < |vocab| && Init(vocab)[i] == c;
      }
    } else {
      var prev := toks[..|toks| - 1];
      var wd := toks[|toks| - 1];
      RunExact(vocab, prev);
      HitExact(vocab, Run(vocab, prev), prev, wd);
      assert prev + [wd] == toks;
      PruneSub(Hit(Run(vocab, prev), wd), Thresholds, |toks| - 1);
    }
  }

  /** With threshold 0.0 every language qualifies. */
  lemma MeetingZero(cand: seq<Cand>, k: nat)
    ensures Meeting(cand, 0, k) == cand
  {
    if cand != [] {
      MeetingZero(cand[..|cand| - 1], k);
    }
  }

  /** `ps[j]` is the first threshold of `ps` that some language meets. */
  predicate FirstMet(cand: seq<Cand>, ps: seq<nat>, k: nat, j: int) {
    0 <= j < |ps| && Meeting(cand, ps[j], k) != [] && forall i :: 0 <= i < j ==> Meeting(cand, ps[i], k) == []
  }

  /** Over any list of thresholds that holds 0.0: the first threshold some language meets decides. */
  lemma {:induction false} PruneFirst(cand: seq<Cand>, ps: seq<nat>, k: nat)
    requires cand != [] && 0 in ps
    ensures exists j :: FirstMet(cand, ps, k, j) && PruneFrom(cand, ps, k) == Meeting(cand, ps[j], k)
    decreases |ps|
  {
    if Meeting(cand, ps[0], k) != [] {
      assert PruneFrom(cand, ps, k) == Meeting(cand, ps[0], k);
    } else {
      MeetingZero(cand, k);
      assert ps[0] != 0;
      assert 0 in ps[1..] by {
        var z :| 0 <= z < |ps| && ps[z] == 0;
        assert ps[1..][z - 1] == 0;
      }
      PruneFirst(cand, ps[1..], k);
      var j :| FirstMet(cand, ps[1..], k, j) && PruneFrom(cand, ps[1..], k) == Meeting(cand, ps[1..][j], k);
      assert ps[j + 1] == ps[1..][j];
      forall i | 0 <= i < j + 1 ensures Meeting(cand, ps[i], k) == [] {
        if i > 0 {
          assert ps[i] == ps[1..][i - 1];
        }
      }
    }
  }

  /**
   * Pruning keeps exactly the languages meeting the highest threshold some
   * language meets, so a non-empty set of candidates never becomes empty.
   */
  lemma PruneMeaning(cand: seq<Cand>, k: nat)
    requires cand != []
    ensures PruneFrom(cand, Thresholds, k) != []
    ensures exists j :: FirstMet(cand, Thresholds, k, j) && PruneFrom(cand, Thresholds, k) == Meeting(cand, Thresholds[j], k)
  {
    assert Thresholds[5] == 0;
    PruneFirst(cand, Thresholds, k);
  }

  /** With nine tokens or fewer nothing is pruned: every language is there, in order, with its hits. */
  lemma {:induction false} RunEarly(vocab: seq<(string, set<string>)>, toks: seq<string>)
    requires |toks| <= 9
    ensures |Run(vocab, toks)| == |vocab|
    ensures forall i :: 0 <= i < |vocab| ==>
      Run(vocab, toks)[i] == Cand(vocab[i].0, vocab[i].1, CountOf(vocab[i].1, toks))
    decreases |toks|
  {
    if toks != [] {
      var prev := toks[..|toks| - 1];
      var wd := toks[|toks| - 1];
      RunEarly(vocab, prev);
      assert prev + [wd] == toks;
      forall i | 0 <= i < |vocab| ensures Run(vocab, toks)[i] == Cand(vocab[i].0, vocab[i].1, CountOf(vocab[i].1, toks)) {
        CountSnoc(vocab[i].1, prev, wd);
      }
    }
  }

  /** The languages of a set of candidates. */
  function Langs(cand: seq<Cand>): set<string> {
    set c | c in cand :: c.lang
  }

  /** One token never adds a language, and leaves a language when there was one. */
  lemma StepShrinks(cand: seq<Cand>, k: nat, wd: string)
    ensures Langs(Step(cand, k, wd)) <= Langs(cand)
    ensures cand != [] ==> Step(cand, k, wd) != []
  {
    var counted := Hit(cand, wd);
    PruneSub(counted, Thresholds, k);
    if cand != [] {
      PruneMeaning(counted, k);
    }
    forall l | l in Langs(Step(cand, k, wd)) ensures l in Langs(cand) {
      var c :| c in Step(cand, k, wd) && c.lang == l;
      var i :| 0 <= i < |counted| && counted[i] == c;
      assert cand[i] in cand;
    }
  }

  /** A non-empty model never runs out of candidates, and the candidates only shrink: a pruned language never comes back. */
  lemma {:induction false} RunShrinks(vocab: seq<(string, set<string>)>, toks: seq<string>, m: nat)
    requires m <= |toks|
    ensures vocab != [] ==> Run(vocab, toks) != []
    ensures Langs(Run(vocab, toks)) <= Langs(Run(vocab, toks[..m]))
    decreases |toks|
  {
    if m == |toks| {
      assert toks[..m] == toks;
    }
    if toks != [] {
      var prev := toks[..|toks| - 1];
      RunShrinks(vocab, prev, if m < |toks| then m else |prev|);
      StepShrinks(Run(vocab, prev), |prev|, toks[|prev|]);
      if m < |toks| {
        assert prev[..m] == toks[..m];
      }
    }
  }

  /**
   * `predict` answers with a language of the model whose hits among the
   * counted tokens are the most of any surviving language, the last such
   * language in order; an empty model raises IndexError and a code
   * missing from `languages.json` KeyError.
   */
  lemma PredictMeaning(model: LdModel, uniqueTokens: string -> seq<string>, input: LdInput)
    ensures TextOf(input).Ok? && model.vocab == [] ==> PredictOf(model, uniqueTokens, input) == Err(IndexError)
    ensures TextOf(input).Ok? && model.vocab != [] ==> PredictOf(model, uniqueTokens, input) != Err(IndexError)
    ensures PredictOf(model, uniqueTokens, input).Ok? ==>
      var toks := Take(uniqueTokens(TextOf(input).value), MaxTokens);
      var cand := Run(model.vocab, toks);
      var d := PredictOf(model, uniqueTokens, input).value;
      |toks| <= MaxTokens &&
      (exists i :: 0 <= i < |cand| && cand[i].lang == d.code && (d.code, cand[i].words) in model.vocab
        && cand[i].count == CountOf(cand[i].words, toks)
        && d.name == model.names[d.code]
        && (forall j :: 0 <= j < |cand| ==> CountOf(cand[j].words, toks) <= cand[i].count)
        && (forall j :: i < j < |cand| ==> CountOf(cand[j].words, toks) < cand[i].count))
  {
    if TextOf(input).Ok? {
      var toks := Take(uniqueTokens(TextOf(input).value), MaxTokens);
      var cand := Run(model.vocab, toks);
      RunExact(model.vocab, toks);
      RunShrinks(model.vocab, toks, 0);
      if cand == [] {
        assert model.vocab == [];
      } else {
        var i := Best(cand);
        assert cand[i] in cand;
        forall j | 0 <= j < |cand| ensures CountOf(cand[j].words, toks) == cand[j].count {
          assert cand[j] in cand;
        }
      }
    }
  }

  // ---------------------------------------------------------------------
  // The loops of `predict`

  /** `lang_cand[lang] += 1` for every language whose vocabulary holds the token. */
  method CountToken(cand0: seq<Cand>, wd: string) returns (cand: seq<Cand>)
    ensures cand == Hit(cand0, wd)
  {
    cand := cand0;
    for i := 0 to |cand0|
      invariant |cand| == |cand0|
      invariant forall j :: 0 <= j < i ==> cand[j] == Hit(cand0, wd)[j]
      invariant forall j :: i <= j < |cand0| ==> cand[j] == cand0[j]
    {
      if wd in cand[i].words {
        cand := cand[i := cand[i].(count := cand[i].count + 1)];
      }
    }
  }

  /** The pruning loop over the thresholds, stopping at the first one some language meets. */
  method Prune(cand0: seq<Cand>, k: nat) returns (cand: seq<Cand>)
    ensures cand == PruneFrom(cand0, Thresholds, k)
  {
    cand := cand0;
    var j := 0;
    while j < |Thresholds|
      invariant 0 <= j <= |Thresholds|
      invariant PruneFrom(cand0, Thresholds, k) == PruneFrom(cand0, Thresholds[j..], k)
      invariant cand == cand0
    {
      var arr := Meeting(cand, Thresholds[j], k);
      if |arr| > 0 {
        cand := arr;
        return;
      }
      assert Thresholds[j..][1..] == Thresholds[j + 1..];
      j := j + 1;
    }
  }

  /** The outer loop over the (at most 100) tokens. */
  method Count(vocab: seq<(string, set<string>)>, toks: seq<string>) returns (cand: seq<Cand>)
    ensures cand == Run(vocab, toks)
  {
    cand := Init(vocab);
    for k := 0 to |toks|
      invariant cand == Run(vocab, toks[..k])
    {
      assert toks[..k + 1][..k] == toks[..k];
      cand := CountToken(cand, toks[k]);
      if k > 8 {
        cand := Prune(cand, k);
      }
    }
    assert toks[..|toks|] == toks;
  }

  /** `Lang_Detection.predict`. */
  method Predict(model: LdModel, uniqueTokens: string -> seq<string>, input: LdInput) returns (r: Result<Detection>)
    ensures r == PredictOf(model, uniqueTokens, input)
  {
    var text := TextOf(input);
    if text.Err? {
      return Err(text.error);
    }
    var toks := Take(uniqueTokens(text.value), MaxTokens);
    var cand := Count(model.vocab, toks);
    if |cand| == 0 {
      return Err(IndexError);
    }
    var code := cand[Best(cand)].lang;
    if code !in model.names {
      return Err(KeyError);
    }
    r := Ok(Detection(code, model.names[code]));
  }
}
