/**
 * Sentence splitting (exciton/nlp/sentence_tokenizer/exciton_sbd.py).
 *
 * `Exciton_SBD.split` cuts a text after the end-of-sentence matches of a
 * per-language regular expression, but only at a match that ends the text
 * or is followed by a space. The regular expression is foreign: the model
 * takes the end positions of its matches, in the order `finditer` yields
 * them.
 *
 * `Sentence_Tokenizer.predict` picks the splitter for the language (given,
 * mapped, or detected), splits every line on its own, and merges each
 * piece shorter than 10 characters with the next one.
 */
module Sbd {
  import opened Text

  // ---------------------------------------------------------------------
  // Exciton_SBD.split

  /** A match ending at `e` is a cut: it ends the text or is followed by a space. */
  predicate Accepted(text: string, e: nat) {
    e >= |text| || text[e] == ' '
  }

  /** The matches that are cuts, in order. */
  function Cuts(text: string, ends: seq<nat>): (cuts: seq<nat>)
    ensures |cuts| <= |ends|
  {
    if ends == [] then []
    else
      var cuts := Cuts(text, ends[..|ends| - 1]);
      if Accepted(text, ends[|ends| - 1]) then cuts + [ends[|ends| - 1]] else cuts
  }

  /** The position after the last cut, 0 before any. */
  function LastCut(cuts: seq<nat>): nat {
    if cuts == [] then 0 else cuts[|cuts| - 1]
  }

  /** The slices between consecutive cuts, the first from 0. */
  function Segments(text: string, cuts: seq<nat>): (r: seq<string>)
    ensures |r| == |cuts|
  {
    seq(|cuts|, i requires 0 <= i < |cuts| => PySlice(text, if i == 0 then 0 else cuts[i - 1], cuts[i]))
  }

  /** The pieces before stripping: the segments, then the rest of the text if any. */
  function Pieces(text: string, cuts: seq<nat>): seq<string> {
    Segments(text, cuts) + if LastCut(cuts) < |text| then [text[LastCut(cuts)..]] else []
  }

  /** `[s.strip() for s in pieces]`. */
  function Strips(pieces: seq<string>): (r: seq<string>)
    ensures |r| == |pieces| && forall i :: 0 <= i < |pieces| ==> r[i] == Strip(pieces[i])
  {
    seq(|pieces|, i requires 0 <= i < |pieces| => Strip(pieces[i]))
  }

  /** The state of the loop of `split`: the sentences so far and `last_pos`. */
  datatype SplitState = SplitState(sents: seq<string>, lastPos: nat)

  /** The loop of `split` over the match ends. */
  function SplitLoop(text: string, ends: seq<nat>): SplitState {
    if ends == [] then SplitState([], 0)
    else
      var st := SplitLoop(text, ends[..|ends| - 1]);
      var e := ends[|ends| - 1];
      if Accepted(text, e) then SplitState(st.sents + [Strip(PySlice(text, st.lastPos, e))], e) else st
  }

  /** `split`: the loop, then the stripped rest of the text when `last_pos` is before its end. */
  function SplitOf(text: string, ends: seq<nat>): seq<string> {
    var st := SplitLoop(text, ends);
    if st.lastPos < |text| then st.sents + [Strip(text[st.lastPos..])] else st.sents
  }

  /** The cuts are exactly the accepted matches. */
  lemma {:induction false} CutsMeaning(text: string, ends: seq<nat>)
    ensures forall e :: e in Cuts(text, ends) <==> e in ends && Accepted(text, e)
    decreases |ends|
  {
    if ends != [] {
      var prev := ends[..|ends| - 1];
      CutsMeaning(text, prev);
      assert ends == prev + [ends[|ends| - 1]];
    }
  }

  /** Matches in non-decreasing order give cuts in non-decreasing order. */
  predicate Ascending(xs: seq<nat>) {
    forall i, j :: 0 <= i < j < |xs| ==> xs[i] <= xs[j]
  }

  lemma {:induction false} CutsAscending(text: string, ends: seq<nat>)
    requires Ascending(ends)
    ensures Ascending(Cuts(text, ends))
    ensures Cuts(text, ends) != [] ==> LastCut(Cuts(text, ends)) in ends
    decreases |ends|
  {
    if ends != [] {
      var prev := ends[..|ends| - 1];
      CutsAscending(text, prev);
      CutsMeaning(text, prev);
    }
  }

  lemma SegmentsSnoc(text: string, cuts: seq<nat>, c: nat)
    ensures Segments(text, cuts + [c]) == Segments(text, cuts) + [PySlice(text, LastCut(cuts), c)]
  {
  }

  lemma StripsSnoc(xs: seq<string>, x: string)
    ensures Strips(xs + [x]) == Strips(xs) + [Strip(x)]
  {
  }

  /** The loop emits one stripped segment per cut and leaves `last_pos` at the last cut. */
  lemma {:induction false} SplitLoopMeaning(text: string, ends: seq<nat>)
    ensures SplitLoop(text, ends) == SplitState(Strips(Segments(text, Cuts(text, ends))), LastCut(Cuts(text, ends)))
    decreases |ends|
  {
    if ends != [] {
      var prev := ends[..|ends| - 1];
      var e := ends[|ends| - 1];
      SplitLoopMeaning(text, prev);
      var cuts := Cuts(text, prev);
      if Accepted(text, e) {
        assert Cuts(text, ends) == cuts + [e];
        SegmentsSnoc(text, cuts, e);
        StripsSnoc(Segments(text, cuts), PySlice(text, LastCut(cuts), e));
      } else {
        assert Cuts(text, ends) == cuts;
      }
    }
  }

  /** `split` returns the stripped pieces: one per cut, then the rest of the text. */
  lemma SplitMeaning(text: string, ends: seq<nat>)
    ensures SplitOf(text, ends) == Strips(Pieces(text, Cuts(text, ends)))
  {
    SplitLoopMeaning(text, ends);
    var cuts := Cuts(text, ends);
    if LastCut(cuts) < |text| {
      StripsSnoc(Segments(text, cuts), text[LastCut(cuts)..]);
    } else {
      assert Segments(text, cuts) + [] == Segments(text, cuts);
    }
  }

  /** With no match, a non-empty text is one piece, the stripped text; an empty one gives none. */
  lemma SplitNoMatch(text: string)
    ensures SplitOf(text, []) == if text == [] then [] else [Strip(text)]
  {
    assert text[0..] == text;
  }

  lemma SliceJoin(text: string, a: nat, c: nat)
    requires a <= c <= |text|
    ensures text[..a] + text[a..c] == text[..c]
  {
  }

  /** Each cut is at or after the one before it. */
  predicate Stepwise(cuts: seq<nat>) {
    forall i :: 0 < i < |cuts| ==> cuts[i - 1] <= cuts[i]
  }

  /** The segments of ascending cuts within the text concatenate to the text up to the last cut. */
  lemma {:induction false} SegmentsConcat(text: string, cuts: seq<nat>)
    requires Stepwise(cuts) && LastCut(cuts) <= |text|
    ensures Concat(Segments(text, cuts)) == text[..LastCut(cuts)]
    decreases |cuts|
  {
    if cuts != [] {
      var prev := cuts[..|cuts| - 1];
      var c := cuts[|cuts| - 1];
      var a := LastCut(prev);
      assert cuts == prev + [c];
      assert Stepwise(prev) && a <= c by {
        if prev != [] {
          assert a == cuts[|prev| - 1];
        }
      }
      SegmentsConcat(text, prev);
      SegmentsSnoc(text, prev, c);
      assert Segments(text, cuts) == Segments(text, prev) + [text[a..c]];
      ConcatAppend(Segments(text, prev), text[a..c]);
      SliceJoin(text, a, c);
    }
  }

  /** Ascending matches within the text give stepwise cuts, the last within the text. */
  lemma {:induction false} CutsStepwise(text: string, ends: seq<nat>)
    requires Ascending(ends) && forall i :: 0 <= i < |ends| ==> ends[i] <= |text|
    ensures Stepwise(Cuts(text, ends)) && LastCut(Cuts(text, ends)) <= |text|
  {
    CutsAscending(text, ends);
    var cuts := Cuts(text, ends);
    if cuts != [] {
      var i :| 0 <= i < |ends| && ends[i] == LastCut(cuts);
    }
  }

  /** Stepwise cuts within the text give pieces that concatenate to the text. */
  lemma PiecesConcat(text: string, cuts: seq<nat>)
    requires Stepwise(cuts) && LastCut(cuts) <= |text|
    ensures Concat(Pieces(text, cuts)) == text
  {
    SegmentsConcat(text, cuts);
    var a := LastCut(cuts);
    if a < |text| {
      ConcatAppend(Segments(text, cuts), text[a..]);
      assert text[..a] + text[a..] == text;
    } else {
      assert Pieces(text, cuts) == Segments(text, cuts);
    }
  }

  /**
   * Matches come in ascending order and end within the text, so the pieces
   * before stripping cover the text exactly: nothing is lost or repeated.
   */
  lemma PiecesCover(text: string, ends: seq<nat>)
    requires Ascending(ends) && forall i :: 0 <= i < |ends| ==> ends[i] <= |text|
    ensures Concat(Pieces(text, Cuts(text, ends))) == text
  {
    CutsStepwise(text, ends);
    PiecesConcat(text, Cuts(text, ends));
  }

  /** One more match: the loop's state after it. */
  lemma SplitLoopStep(text: string, ends: seq<nat>, k: nat)
    requires k < |ends|
    ensures var st := SplitLoop(text, ends[..k]);
      SplitLoop(text, ends[..k + 1])
        == if Accepted(text, ends[k]) then SplitState(st.sents + [Strip(PySlice(text, st.lastPos, ends[k]))], ends[k]) else st
  {
    assert ends[..k + 1][..k] == ends[..k];
  }

  /** `Exciton_SBD.split`, given the end positions of the regular expression's matches. */
  method Split(text: string, ends: seq<nat>) returns (sents: seq<string>)
    ensures sents == SplitOf(text, ends)
  {
    sents := [];
    var lastPos: nat := 0;
    for k := 0 to |ends|
      invariant SplitLoop(text, ends[..k]) == SplitState(sents, lastPos)
    {
      SplitLoopStep(text, ends, k);
      var e := ends[k];
      if e < |text| {
        var wd := text[e];
        if wd != ' ' {
          continue;
        }
      }
      var sen := Strip(PySlice(text, lastPos, e));
      sents := sents + [sen];
      lastPos := e;
    }
    assert ends[..|ends|] == ends;
    if lastPos < |text| {
      var sen := Strip(text[lastPos..]);
      sents := sents + [sen];
    }
  }

  // ---------------------------------------------------------------------
  // Merging short pieces

  /** A merged piece shorter than this absorbs the next one. */
  const MinLength: nat := 10

  /** Gluing already stripped pieces: a piece shorter than 10 absorbs the next, with a space between. */
  function Glue(ps: seq<string>): (out: seq<string>)
    ensures |out| <= |ps| && (out == [] <==> ps == [])
  {
    if ps == [] then []
    else
      var out := Glue(ps[..|ps| - 1]);
      var p := ps[|ps| - 1];
      if |out| > 0 && |out[|out| - 1]| < MinLength then out[|out| - 1 := out[|out| - 1] + " " + p]
      else out + [p]
  }

  /** The inner loop of `predict` over one line's pieces: each is stripped, then glued. */
  function Merge(sens: seq<string>): (out: seq<string>)
    ensures |out| <= |sens| && (out == [] <==> sens == [])
  {
    Glue(Strips(sens))
  }

  /** Every glued piece but the last has at least 10 characters. */
  lemma {:induction false} GlueLong(ps: seq<string>)
    ensures forall i :: 0 <= i < |Glue(ps)| - 1 ==> |Glue(ps)[i]| >= MinLength
    decreases |ps|
  {
    if ps != [] {
      GlueLong(ps[..|ps| - 1]);
    }
  }

  lemma JoinSnoc(sep: string, xs: seq<string>, y: string)
    requires xs != []
    ensures Join(sep, xs + [y]) == Join(sep, xs) + sep + y
    decreases |xs|
  {
    if |xs| == 1 {
      assert xs + [y] == [xs[0], y];
      assert [xs[0], y][1..] == [y];
    } else {
      JoinSnoc(sep, xs[1..], y);
      assert (xs + [y])[1..] == xs[1..] + [y];
    }
  }

  /** Extending the last piece by `sep + x` extends the joined text by `sep + x`. */
  lemma JoinExtendLast(sep: string, out: seq<string>, x: string)
    requires out != []
    ensures Join(sep, out[|out| - 1 := out[|out| - 1] + sep + x]) == Join(sep, out) + sep + x
  {
    var n := |out| - 1;
    var last := out[n] + sep + x;
    if n == 0 {
      assert out[n := last] == [last];
      assert out == [out[0]];
    } else {
      assert out[n := last] == out[..n] + [last];
      assert out == out[..n] + [out[n]];
      JoinSnoc(sep, out[..n], last);
      JoinSnoc(sep, out[..n], out[n]);
    }
  }

  /** Gluing only regroups: joined with spaces, the glued pieces are the pieces joined with spaces. */
  lemma {:induction false} GlueJoin(ps: seq<string>)
    ensures Join(" ", Glue(ps)) == Join(" ", ps)
    decreases |ps|
  {
    if ps != [] {
      var prev, p := ps[..|ps| - 1], ps[|ps| - 1];
      var out := Glue(prev);
      GlueJoin(prev);
      assert ps == prev + [p];
      if out == [] {
        assert prev == [];
      } else {
        JoinSnoc(" ", prev, p);
        if |out[|out| - 1]| < MinLength {
          JoinExtendLast(" ", out, p);
        } else {
          JoinSnoc(" ", out, p);
        }
      }
    }
  }

  /**
   * Every merged piece of a line but the last has at least 10 characters,
   * and merging only regroups: joined with spaces, the merged pieces are
   * the stripped pieces joined with spaces.
   */
  lemma MergeMeaning(sens: seq<string>)
    ensures forall i :: 0 <= i < |Merge(sens)| - 1 ==> |Merge(sens)[i]| >= MinLength
    ensures Join(" ", Merge(sens)) == Join(" ", Strips(sens))
  {
    GlueLong(Strips(sens));
    GlueJoin(Strips(sens));
  }

  /** One more piece: the merged pieces after it. */
  lemma MergeStep(sens: seq<string>, k: nat)
    requires k < |sens|
    ensures var out := Merge(sens[..k]);
      Merge(sens[..k + 1])
        == if |out| > 0 && |out[|out| - 1]| < MinLength then out[|out| - 1 := out[|out| - 1] + " " + Strip(sens[k])]
           else out + [Strip(sens[k])]
  {
    assert sens[..k + 1] == sens[..k] + [sens[k]];
    StripsSnoc(sens[..k], sens[k]);
    assert Strips(sens[..k + 1])[..k] == Strips(sens[..k]);
  }

  /** The inner loop of `predict`: `out[-1]` is extended in place. */
  method MergeSegment(sens: seq<string>) returns (out: seq<string>)
    ensures out == Merge(sens)
  {
    out := [];
    for k := 0 to |sens|
      invariant out == Merge(sens[..k])
    {
      MergeStep(sens, k);
      if |out| > 0 && |out[|out| - 1]| < MinLength {
        out := out[|out| - 1 := out[|out| - 1] + " " + Strip(sens[k])];
      } else {
        out := out + [Strip(sens[k])];
      }
    }
    assert sens[..|sens|] == sens;
  }

  // ---------------------------------------------------------------------
  // Sentence_Tokenizer.predict

  /**
   * `lang_map` (a language key to its splitter code; its keys are the keys
   * of `languages` and its values make up `lang_sbd`), the splitter of each
   * code, and the language detector (the code `Lang_Detection.predict`
   * returns, or its exception).
   */
  datatype SbdConfig = SbdConfig(
    langMap: map<string, string>,
    workers: map<string, string -> seq<string>>,
    detect: string -> Result<string>)

  /** The splitter code for the request: the given code, its mapping, or the detected language's mapping. */
  function ResolveLang(cfg: SbdConfig, source: string, sourceLang: Option<string>): (r: Result<string>)
    ensures r.Ok? ==> r.value in cfg.langMap.Values
  {
    if sourceLang.Some? && sourceLang.value in cfg.langMap.Values then Ok(sourceLang.value)
    else if sourceLang.Some? && sourceLang.value in cfg.langMap then Ok(cfg.langMap[sourceLang.value])
    else
      match cfg.detect(source)
      case Err(e) => Err(e)
      case Ok(code) => if code in cfg.langMap then Ok(cfg.langMap[code]) else Err(KeyError)
  }

  /** A given splitter code is used as it is; a given language key is mapped; anything else is detected. */
  lemma ResolveMeaning(cfg: SbdConfig, source: string, sourceLang: Option<string>)
    ensures sourceLang.Some? && sourceLang.value in cfg.langMap.Values ==>
      ResolveLang(cfg, source, sourceLang) == Ok(sourceLang.value)
    ensures sourceLang.Some? && sourceLang.value !in cfg.langMap.Values && sourceLang.value in cfg.langMap ==>
      ResolveLang(cfg, source, sourceLang) == Ok(cfg.langMap[sourceLang.value])
    ensures (sourceLang.None? || (sourceLang.value !in cfg.langMap.Values && sourceLang.value !in cfg.langMap)) ==>
      (ResolveLang(cfg, source, sourceLang).Ok? <==> cfg.detect(source).Ok? && cfg.detect(source).value in cfg.langMap)
  {
  }

  /** Splitting one line and merging its pieces. */
  function MergeWith(worker: string -> seq<string>): string -> seq<string> {
    seg => Merge(worker(seg))
  }

  /** Every line split and merged, the results one after the other. */
  function LinesOf(worker: string -> seq<string>, source: string): seq<string> {
    Concat(MapSeq(MergeWith(worker), SplitOn(source, '\n')))
  }

  /** Each line is merged on its own: the first line's merged pieces come first, then those of the rest. */
  lemma LinesOfFirst(worker: string -> seq<string>, line: string, rest: string)
    requires '\n' !in line
    ensures LinesOf(worker, line + "\n" + rest) == Merge(worker(line)) + LinesOf(worker, rest)
  {
    var segs := SplitOn(rest, '\n');
    SplitFirstLine(line, rest);
    ConcatMapCons(MergeWith(worker), line, segs);
  }

  /** A line without a break gives its own merged pieces. */
  lemma LinesOfSingle(worker: string -> seq<string>, line: string)
    requires '\n' !in line
    ensures LinesOf(worker, line) == Merge(worker(line))
  {
    assert SplitOn(line, '\n') == [line];
    ConcatMapCons(MergeWith(worker), line, []);
    assert Concat(MapSeq(MergeWith(worker), [])) == [];
  }

  function PredictOf(cfg: SbdConfig, source: string, sourceLang: Option<string>): Result<seq<string>> {
    match ResolveLang(cfg, source, sourceLang)
    case Err(e) => Err(e)
    case Ok(lang) =>
      if lang in cfg.workers then Ok(LinesOf(cfg.workers[lang], source)) else Err(KeyError)
  }

  /** The first line break of `line + "\n" + rest` is the one after `line`. */
  lemma {:induction false} SplitFirstLine(line: string, rest: string)
    requires '\n' !in line
    ensures SplitOn(line + "\n" + rest, '\n') == [line] + SplitOn(rest, '\n')
  {
    var source := line + "\n" + rest;
    LineBreakAt(line, rest);
    assert source[..|line|] == line && source[|line| + 1..] == rest;
  }

  lemma {:induction false} LineBreakAt(line: string, rest: string)
    requires '\n' !in line
    ensures '\n' in line + "\n" + rest && IndexOf(line + "\n" + rest, '\n') == |line|
    decreases |line|
  {
    var source := line + "\n" + rest;
    assert source[|line|] == '\n';
    if line != [] {
      assert source[0] == line[0];
      assert source[1..] == line[1..] + "\n" + rest;
      LineBreakAt(line[1..], rest);
    }
  }

  /**
   * `predict` fails exactly when the language cannot be resolved or has no
   * splitter; otherwise a text without a line break gives its merged
   * pieces.
   */
  lemma PredictMeaning(cfg: SbdConfig, source: string, sourceLang: Option<string>)
    ensures PredictOf(cfg, source, sourceLang).Ok? <==>
      ResolveLang(cfg, source, sourceLang).Ok? && ResolveLang(cfg, source, sourceLang).value in cfg.workers
    ensures PredictOf(cfg, source, sourceLang).Ok? && '\n' !in source ==>
      PredictOf(cfg, source, sourceLang).value == Merge(cfg.workers[ResolveLang(cfg, source, sourceLang).value](source))
  {
    var r := ResolveLang(cfg, source, sourceLang);
    if r.Ok? && r.value in cfg.workers && '\n' !in source {
      LinesOfSingle(cfg.workers[r.value], source);
    }
  }

  /**
   * With a given splitter code, each line is split and merged on its own:
   * a first line followed by a line break gives its merged pieces, then
   * the output for the rest of the text.
   */
  lemma PredictLines(cfg: SbdConfig, code: string, line: string, rest: string)
    requires code in cfg.langMap.Values && code in cfg.workers && '\n' !in line
    ensures PredictOf(cfg, line + "\n" + rest, Some(code)).Ok? && PredictOf(cfg, rest, Some(code)).Ok?
    ensures PredictOf(cfg, line + "\n" + rest, Some(code)).value
      == Merge(cfg.workers[code](line)) + PredictOf(cfg, rest, Some(code)).value
  {
    var source := line + "\n" + rest;
    assert ResolveLang(cfg, source, Some(code)) == Ok(code) && ResolveLang(cfg, rest, Some(code)) == Ok(code);
    LinesOfFirst(cfg.workers[code], line, rest);
  }

  /** `Sentence_Tokenizer.predict`: the language, then every line split and merged, the results in order. */
  method Predict(cfg: SbdConfig, source: string, sourceLang: Option<string>) returns (r: Result<seq<string>>)
    ensures r == PredictOf(cfg, source, sourceLang)
  {
    var lang := ResolveLang(cfg, source, sourceLang);
    if lang.Err? {
      return Err(lang.error);
    }
    if lang.value !in cfg.workers {
      return Err(KeyError);
    }
    var output := SplitLines(cfg.workers[lang.value], source);
    r := Ok(output);
  }

  /** The loop of `predict` over the lines: each line's pieces merged, appended to the output. */
  method SplitLines(worker: string -> seq<string>, source: string) returns (output: seq<string>)
    ensures output == LinesOf(worker, source)
  {
    var segs := SplitOn(source, '\n');
    output := [];
    for k := 0 to |segs|
      invariant output == Concat(MapSeq(MergeWith(worker), segs[..k]))
    {
      ConcatMapSnoc(MergeWith(worker), segs, k);
      var out := MergeSegment(worker(segs[k]));
      output := output + out;
    }
    assert segs[..|segs|] == segs;
  }
}
