/**
 * The xlm-roberta named-entity recognizer
 * (exciton/nlp/named_entity_recognition/xlm_hrl.py): each item's text is
 * normalised before the batch is built, a missing or non-string text
 * becomes "", and the recognizer's own `_build_batch` reads the text alone.
 * Decoding and `predict` are those of `NerPipeline`, with this
 * normalisation as the preparation step.
 */
module NerXlmHrl {
  import opened Text
  import opened NerUtils
  import opened TaggingModel
  import opened NerPipeline

  /** An input item: a dictionary whose "text" field may be missing or hold a non-string, or anything else. */
  datatype NerInput = Dict(text: Field) | NotDict

  // ---------------------------------------------------------------------
  // Normalisation

  /** `" ".join(text.split())`; a missing or non-string text becomes "". */
  function NormaliseText(f: Field): string {
    match f
    case Str(s) => Collapse(s)
    case _ => ""
  }

  /**
   * The first loop of `_get_raw_results` for one item. The `except` clause
   * assigns into the item, which raises TypeError for an item that is not
   * a dictionary.
   */
  function NormaliseOf(itm: NerInput): Result<string> {
    match itm
    case NotDict => Err(TypeError)
    case Dict(f) => Ok(NormaliseText(f))
  }

  /** The normalised text has the same words, single blanks and no other whitespace; normalising it again changes nothing. */
  lemma NormaliseMeaning(f: Field)
    ensures Collapsed(NormaliseText(f))
    ensures f.Str? ==> Words(NormaliseText(f)) == Words(f.s)
    ensures !f.Str? ==> NormaliseText(f) == ""
    ensures NormaliseText(Str(NormaliseText(f))) == NormaliseText(f)
  {
    if f.Str? {
      CollapseIdempotent(f.s);
      WordsOfJoin(Words(f.s));
    } else {
      assert Words("") == [];
    }
  }

  /** The normalisation loop fails exactly when some item is not a dictionary. */
  lemma NormaliseErrors(input: seq<NerInput>)
    ensures MapResult(NormaliseOf, input).Ok? <==> forall k :: 0 <= k < |input| ==> input[k].Dict?
    ensures MapResult(NormaliseOf, input).Err? ==> MapResult(NormaliseOf, input).error == TypeError
    ensures MapResult(NormaliseOf, input).Ok? ==>
      forall k :: 0 <= k < |input| ==> MapResult(NormaliseOf, input).value[k] == NormaliseText(input[k].text)
  {
    MapResultSpec(NormaliseOf, input);
  }

  /** The record this `_build_batch` reads: the text, no words or labels. */
  function TextRecord(text: string): Record {
    Record(Some(text), None, None, None)
  }

  /** An item as it enters `_build_batch`, or the normalisation's exception. */
  function XlmRecordOf(itm: NerInput): Result<Record> {
    match NormaliseOf(itm)
    case Err(e) => Err(e)
    case Ok(text) => Ok(TextRecord(text))
  }

  /**
   * Every dictionary prepares and tokenizes, its encoding without the
   * first and last id; the text `clean_result` reads is the normalised one.
   */
  lemma XlmPrepared(c: NerConfig, itm: NerInput)
    ensures PrepareOf(c, XlmRecordOf, itm).Ok? <==> itm.Dict?
    ensures itm.Dict? ==> PrepareOf(c, XlmRecordOf, itm).value.ids == Inner(c.encode(NormaliseText(itm.text)))
    ensures TextOf(XlmRecordOf, itm) == NormaliseOf(itm)
  {
  }

  /** Over a list: preparing fails exactly at a non-dictionary, and the texts are the normalised ones. */
  lemma XlmPreparedAll(c: NerConfig, input: seq<NerInput>)
    ensures MapResult(Preparer(c, XlmRecordOf), input).Ok? <==> forall k :: 0 <= k < |input| ==> input[k].Dict?
    ensures MapResult(Texter(XlmRecordOf), input) == MapResult(NormaliseOf, input)
  {
    MapResultSpec(Preparer(c, XlmRecordOf), input);
    forall k | 0 <= k < |input| ensures Preparer(c, XlmRecordOf)(input[k]).Ok? <==> input[k].Dict? {
      XlmPrepared(c, input[k]);
    }
    MapResultSame(Texter(XlmRecordOf), NormaliseOf, input);
  }

  // ---------------------------------------------------------------------
  // `_get_raw_results` and `predict`

  /**
   * Each result holds the item's normalised text and its subword strings
   * cut to the batch's `max_length`; with a tagger that fits the batch,
   * `_get_raw_results` fails exactly when some item is not a dictionary.
   */
  lemma XlmRawResults(c: NerConfig, topN: nat, input: seq<NerInput>, k: nat)
    requires RawResultsOf(c, XlmRecordOf, topN, input).Ok? && k < |input|
    ensures input[k].Dict?
    ensures var r := RawResultsOf(c, XlmRecordOf, topN, input).value;
      var b := BatchFor(c, XlmRecordOf, input).value;
      && |r| == |input| && b.maxLength <= MaxLengthCap
      && r[k].text == NormaliseText(input[k].text)
      && r[k].tokens == Take(IdsToTokens(c.idToToken, Inner(c.encode(NormaliseText(input[k].text)))), b.maxLength)
  {
    RawResultsValues(c, XlmRecordOf, topN, input, k);
    XlmPrepared(c, input[k]);
    var recs, b, ds := RawResultsValue(c, XlmRecordOf, topN, input);
    BatchMaxLength(SentinelsOf(c.plm), c.encode, c.idToToken, recs);
  }

  lemma XlmRawResultsOk(c: NerConfig, topN: nat, input: seq<NerInput>)
    requires TaggerFits(c)
    ensures RawResultsOf(c, XlmRecordOf, topN, input).Ok? <==> forall k :: 0 <= k < |input| ==> input[k].Dict?
    ensures RawResultsOf(c, XlmRecordOf, topN, input).Err? ==> RawResultsOf(c, XlmRecordOf, topN, input).error == TypeError
  {
    RawResultsOk(c, XlmRecordOf, topN, input);
    BatchForErrors(c, XlmRecordOf, input);
    XlmPreparedAll(c, input);
    NormaliseErrors(input);
    MapResultSpec(XlmRecordOf, input);
  }

  /**
   * `predict` gives one prediction per item, in order, whose text is the
   * item's normalised text; it gives nothing for no items; and with a
   * tagger that fits its batches it fails exactly when some item is not a
   * dictionary.
   */
  lemma XlmPredictMeaning(c: NerConfig, input: seq<NerInput>)
    ensures input == [] ==> PredictOf(c, XlmRecordOf, input) == Ok([])
    ensures PredictOf(c, XlmRecordOf, input).Ok? ==>
      var ps := PredictOf(c, XlmRecordOf, input).value;
      && |ps| == |input|
      && forall k :: 0 <= k < |input| ==> input[k].Dict? && ps[k].text == NormaliseText(input[k].text)
    ensures TaggerFits(c) ==>
      (PredictOf(c, XlmRecordOf, input).Ok? <==> forall k :: 0 <= k < |input| ==> input[k].Dict?)
  {
    PredictMeaning(c, XlmRecordOf, input);
    XlmPreparedAll(c, input);
    NormaliseErrors(input);
  }

  /** The normalisation loop of `_get_raw_results`. */
  method NormaliseBatch(inputData: seq<NerInput>) returns (r: Result<seq<Record>>)
    ensures r == MapResult(XlmRecordOf, inputData)
  {
    var batchData: seq<Record> := [];
    for k := 0 to |inputData|
      invariant MapResult(XlmRecordOf, inputData[..k]) == Ok(batchData)
    {
      var itm := inputData[k];
      if itm.NotDict? {
        MapResultFail(XlmRecordOf, inputData, k, TypeError);
        return Err(TypeError);
      }
      var text := NormaliseText(itm.text);
      MapResultStep(XlmRecordOf, inputData, k, batchData, TextRecord(text));
      batchData := batchData + [TextRecord(text)];
    }
    assert inputData[..|inputData|] == inputData;
    r := Ok(batchData);
  }

  /**
   * The recognizer. `tagging` holds the tokenizer, the xlm-roberta sentinel
   * ids and the last batch; `labels` are the label names.
   */
  class NerModel {
    const tagging: TaggingModel
    const tagger: (seq<seq<int>>, seq<seq<int>>) -> Ranking
    const labels: seq<string>

    constructor(encode: string -> seq<int>, idToToken: int -> string,
                tagger: (seq<seq<int>>, seq<seq<int>>) -> Ranking, labels: seq<string>)
      ensures Config() == NerConfig(XlmRoberta, encode, idToToken, tagger, labels)
      ensures fresh(tagging) && tagging.batchData == None
    {
      tagging := new TaggingModel(XlmRoberta, encode, idToToken);
      this.tagger := tagger;
      this.labels := labels;
    }

    function Config(): NerConfig {
      NerConfig(tagging.plm, tagging.encode, tagging.idToToken, tagger, labels)
    }

    /** `_get_raw_results`: normalise, build the batch, run the tagger, decode each record. */
    method GetRawResults(inputData: seq<NerInput>, topN: nat) returns (r: Result<seq<Cleaned>>)
      modifies tagging
      ensures r == RawResultsOf(Config(), XlmRecordOf, topN, inputData)
      ensures var b := BatchFor(Config(), XlmRecordOf, inputData);
        tagging.batchData == if b.Ok? then Some(b.value) else old(tagging.batchData)
    {
      var batchData := NormaliseBatch(inputData);
      if batchData.Err? {
        return Err(batchData.error);
      }
      var b := tagging.BuildBatch(batchData.value);
      if b.Err? {
        return Err(b.error);
      }
      var ranking := tagger(b.value.inputIds, b.value.padMask);
      var output := DecodeBatch(labels, topN, ranking, b.value.inputDataRaw);
      if output.Err? {
        return Err(output.error);
      }
      r := Ok(Results(output.value));
    }

    /** `predict`: chunks of `min(20, n)` items, each through `_get_raw_results`, text and entities kept. */
    method Predict(inputData: seq<NerInput>) returns (r: Result<seq<Prediction>>)
      modifies tagging
      ensures r == PredictOf(Config(), XlmRecordOf, inputData)
      ensures inputData == [] ==> tagging.batchData == old(tagging.batchData)
      ensures r.Ok? && inputData != [] ==>
        var chunks := Chunks(inputData, Min(MaxBatchSize, |inputData|));
        tagging.batchData == Some(BatchFor(Config(), XlmRecordOf, chunks[|chunks| - 1]).value)
    {
      var batchSize := Min(MaxBatchSize, |inputData|);
      var k := 0;
      var output: seq<Prediction> := [];
      if batchSize == 0 {
        // the loop condition `0 * 0 < 0` fails at once
        return Ok(output);
      }
      ghost var chunks := Chunks(inputData, batchSize);
      ghost var outs: seq<seq<Prediction>> := [];
      while k * batchSize < |inputData|
        invariant k <= |chunks|
        invariant MapResult(ChunkRunner(Config(), XlmRecordOf), chunks[..k]) == Ok(outs)
        invariant output == Concat(outs)
        invariant 0 < k ==>
          && BatchFor(Config(), XlmRecordOf, chunks[k - 1]).Ok?
          && tagging.batchData == Some(BatchFor(Config(), XlmRecordOf, chunks[k - 1]).value)
        decreases |inputData| - k * batchSize
      {
        ChunkExists(inputData, batchSize, k);
        ChunkAt(inputData, batchSize, k);
        var batch := PySlice(inputData, k * batchSize, (k + 1) * batchSize);
        var results := GetRawResults(batch, DefaultTopN);
        if results.Err? {
          assert ChunkRunner(Config(), XlmRecordOf)(chunks[k]) == Err(results.error);
          MapResultFail(ChunkRunner(Config(), XlmRecordOf), chunks, k, results.error);
          return Err(results.error);
        }
        var preds := KeepTextAndEntities(results.value);
        assert ChunkRunner(Config(), XlmRecordOf)(chunks[k]) == Ok(preds);
        MapResultStep(ChunkRunner(Config(), XlmRecordOf), chunks, k, outs, preds);
        ConcatAppend(outs, preds);
        outs := outs + [preds];
        output := output + preds;
        assert (k + 1) * batchSize == k * batchSize + batchSize;
        k := k + 1;
      }
      ChunkExists(inputData, batchSize, k);
      ChunkExists(inputData, batchSize, 0);
      assert chunks[..k] == chunks;
      r := Ok(output);
    }
  }
}
