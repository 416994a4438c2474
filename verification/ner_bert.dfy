/**
 * The bert named-entity recognizer
 * (exciton/nlp/named_entity_recognition/bert.py): a string item becomes a
 * dictionary holding its normalised text, every dictionary's "text" is
 * normalised in place, and the batch is that of the tagging model, so a
 * dictionary with "tokens" and "labels" is read in word mode. Decoding and
 * `predict` are those of `NerPipeline`, with this step as the preparation.
 */
module NerBert {
  import opened Text
  import opened NerUtils
  import opened TaggingModel
  import opened NerPipeline

  /**
   * An input item: a string, a dictionary whose "text" field may be
   * missing or hold a non-string and which may carry "tokens" and
   * "labels", or anything else.
   */
  datatype BertItem =
    | RawText(s: string)
    | Dict(text: Field, words: Option<seq<string>>, labels: Option<seq<string>>)
    | RawOther

  /** `predict`'s argument: a list of items, or a single item. */
  datatype PredictInput = AList(items: seq<BertItem>) | Single(item: BertItem)

  /**
   * One pass of the first loop of `_get_raw_results`. A string is wrapped
   * in a dictionary holding its normalised text, which is normalised again;
   * `.split()` on anything but a string raises AttributeError, a missing
   * "text" KeyError.
   */
  function BertRecordOf(itm: BertItem): Result<Record> {
    match itm
    case RawOther => Err(AttributeError)
    case RawText(s) => Ok(Record(Some(Collapse(Collapse(s))), None, None, None))
    case Dict(f, words, labels) =>
      match f
      case Missing => Err(KeyError)
      case NonStr => Err(AttributeError)
      case Str(s) => Ok(Record(Some(Collapse(s)), words, labels, None))
  }

  /** The text an item carries before normalisation; none for an item that fails. */
  function SourceText(itm: BertItem): string {
    match itm
    case RawText(s) => s
    case Dict(Str(s), _, _) => s
    case _ => ""
  }

  /**
   * Which items fail and with which exception; an item that passes keeps
   * its "tokens" and "labels" and gets its text normalised once (the
   * second normalisation of a wrapped string changes nothing): the same
   * words, single blanks, no other whitespace.
   */
  lemma BertRecordMeaning(itm: BertItem)
    ensures BertRecordOf(itm) == Err(AttributeError) <==> itm.RawOther? || (itm.Dict? && itm.text.NonStr?)
    ensures BertRecordOf(itm) == Err(KeyError) <==> itm.Dict? && itm.text.Missing?
    ensures BertRecordOf(itm).Ok? <==> itm.RawText? || (itm.Dict? && itm.text.Str?)
    ensures BertRecordOf(itm).Ok? ==>
      var rec := BertRecordOf(itm).value;
      && rec.text == Some(Collapse(SourceText(itm)))
      && Collapsed(rec.text.value)
      && Words(rec.text.value) == Words(SourceText(itm))
      && rec.labelMapping == None
      && (itm.Dict? ==> rec.words == itm.words && rec.labels == itm.labels)
      && (itm.RawText? ==> !WordMode(rec))
  {
    if BertRecordOf(itm).Ok? {
      CollapseIdempotent(SourceText(itm));
      WordsOfJoin(Words(SourceText(itm)));
    }
  }

  /** The items of `predict`'s argument: a single item is wrapped in a list. */
  function InputItems(input: PredictInput): (items: seq<BertItem>)
    ensures input.Single? ==> items == [input.item]
  {
    match input
    case AList(items) => items
    case Single(item) => [item]
  }

  /** Every prepared item has the text `clean_result` reads: its normalised text. */
  lemma BertText(itm: BertItem)
    ensures TextOf(BertRecordOf, itm).Ok? <==> BertRecordOf(itm).Ok?
    ensures TextOf(BertRecordOf, itm).Ok? ==> TextOf(BertRecordOf, itm).value == Collapse(SourceText(itm))
  {
    BertRecordMeaning(itm);
  }

  /**
   * A string, or a dictionary without "tokens" or "labels", tokenizes as
   * free text; in word mode the "tokens" and "labels" must agree in number.
   */
  lemma BertPrepared(c: NerConfig, itm: BertItem)
    ensures itm.RawText? ==> PrepareOf(c, BertRecordOf, itm) == Ok(Tokenized(Inner(c.encode(Collapse(itm.s))), None))
    ensures itm.Dict? && itm.text.Str? && (itm.words.None? || itm.labels.None?) ==>
      PrepareOf(c, BertRecordOf, itm) == Ok(Tokenized(Inner(c.encode(Collapse(itm.text.s))), None))
    ensures itm.Dict? && itm.text.Str? && itm.words.Some? && itm.labels.Some? ==>
      (PrepareOf(c, BertRecordOf, itm) == Err(AssertionError) <==> |itm.words.value| != |itm.labels.value|)
  {
    BertRecordMeaning(itm);
  }

  /** Over a list: every item has its text, so `clean_result` never misses one. */
  lemma BertTexts(input: seq<BertItem>)
    ensures MapResult(Texter(BertRecordOf), input).Ok? <==> MapResult(BertRecordOf, input).Ok?
    ensures MapResult(Texter(BertRecordOf), input).Ok? ==>
      forall k :: 0 <= k < |input| ==> MapResult(Texter(BertRecordOf), input).value[k] == Collapse(SourceText(input[k]))
  {
    MapResultSpec(Texter(BertRecordOf), input);
    MapResultSpec(BertRecordOf, input);
    forall k | 0 <= k < |input|
      ensures Texter(BertRecordOf)(input[k]).Ok? <==> BertRecordOf(input[k]).Ok?
      ensures Texter(BertRecordOf)(input[k]).Ok? ==> Texter(BertRecordOf)(input[k]).value == Collapse(SourceText(input[k]))
    {
      BertText(input[k]);
    }
  }

  // ---------------------------------------------------------------------
  // `_get_raw_results` and `predict`

  /**
   * Each result holds the item's normalised text and its subword strings
   * cut to the batch's `max_length`.
   */
  lemma BertRawResults(c: NerConfig, topN: nat, input: seq<BertItem>, k: nat)
    requires RawResultsOf(c, BertRecordOf, topN, input).Ok? && k < |input|
    ensures BertRecordOf(input[k]).Ok? && PrepareOf(c, BertRecordOf, input[k]).Ok?
    ensures var r := RawResultsOf(c, BertRecordOf, topN, input).value;
      var b := BatchFor(c, BertRecordOf, input).value;
      && |r| == |input|
      && r[k].text == Collapse(SourceText(input[k]))
      && r[k].tokens == Take(IdsToTokens(c.idToToken, PrepareOf(c, BertRecordOf, input[k]).value.ids), b.maxLength)
  {
    RawResultsValues(c, BertRecordOf, topN, input, k);
    BertText(input[k]);
  }

  /** With a tagger that fits the batch, `_get_raw_results` fails exactly when some item does not prepare or tokenize. */
  lemma BertRawResultsOk(c: NerConfig, topN: nat, input: seq<BertItem>)
    requires TaggerFits(c)
    ensures RawResultsOf(c, BertRecordOf, topN, input).Ok? <==>
      forall k :: 0 <= k < |input| ==> PrepareOf(c, BertRecordOf, input[k]).Ok?
  {
    RawResultsOk(c, BertRecordOf, topN, input);
    BatchForErrors(c, BertRecordOf, input);
    BertTexts(input);
    MapResultSpec(Preparer(c, BertRecordOf), input);
    MapResultSpec(BertRecordOf, input);
  }

  /**
   * `predict` treats a single item as a list of one; it gives one
   * prediction per item, in order, whose text is the item's normalised
   * text; nothing for no items; and with a tagger that fits its batches it
   * fails exactly when some item does not prepare or tokenize.
   */
  lemma BertPredictMeaning(c: NerConfig, input: PredictInput)
    ensures InputItems(input) == [] ==> PredictOf(c, BertRecordOf, InputItems(input)) == Ok([])
    ensures var items := InputItems(input);
      PredictOf(c, BertRecordOf, items).Ok? ==>
        var ps := PredictOf(c, BertRecordOf, items).value;
        && |ps| == |items|
        && forall k :: 0 <= k < |items| ==> BertRecordOf(items[k]).Ok? && ps[k].text == Collapse(SourceText(items[k]))
    ensures var items := InputItems(input);
      TaggerFits(c) ==>
        (PredictOf(c, BertRecordOf, items).Ok? <==> forall k :: 0 <= k < |items| ==> PrepareOf(c, BertRecordOf, items[k]).Ok?)
  {
    var items := InputItems(input);
    PredictMeaning(c, BertRecordOf, items);
    BertTexts(items);
    MapResultSpec(Texter(BertRecordOf), items);
    MapResultSpec(Preparer(c, BertRecordOf), items);
    MapResultSpec(BertRecordOf, items);
    if PredictOf(c, BertRecordOf, items).Ok? {
      var ps := PredictOf(c, BertRecordOf, items).value;
      assert |PredictionTexts(ps)| == |items|;
      forall k | 0 <= k < |items| ensures ps[k].text == Collapse(SourceText(items[k])) {
        assert PredictionTexts(ps)[k] == ps[k].text;
      }
    }
  }

  /** The first loop of `_get_raw_results`: every item as `_build_batch` reads it. */
  method NormaliseBatch(batchText: seq<BertItem>) returns (r: Result<seq<Record>>)
    ensures r == MapResult(BertRecordOf, batchText)
  {
    var batchData: seq<Record> := [];
    for k := 0 to |batchText|
      invariant MapResult(BertRecordOf, batchText[..k]) == Ok(batchData)
    {
      var itm := batchText[k];
      if itm.RawOther? {
        MapResultFail(BertRecordOf, batchText, k, AttributeError);
        return Err(AttributeError);
      }
      if itm.RawText? {
        itm := Dict(Str(Collapse(itm.s)), None, None);
      }
      if itm.text.Missing? {
        MapResultFail(BertRecordOf, batchText, k, KeyError);
        return Err(KeyError);
      }
      if itm.text.NonStr? {
        MapResultFail(BertRecordOf, batchText, k, AttributeError);
        return Err(AttributeError);
      }
      var rec := Record(Some(Collapse(itm.text.s)), itm.words, itm.labels, None);
      MapResultStep(BertRecordOf, batchText, k, batchData, rec);
      batchData := batchData + [rec];
    }
    assert batchText[..|batchText|] == batchText;
    r := Ok(batchData);
  }

  /**
   * The recognizer. `tagging` holds the tokenizer, the sentinel ids of the
   * pretrained model named in param.json and the last batch; `labels` are
   * the label names.
   */
  class BertNerModel {
    const tagging: TaggingModel
    const tagger: (seq<seq<int>>, seq<seq<int>>) -> Ranking
    const labels: seq<string>

    constructor(plm: Plm, encode: string -> seq<int>, idToToken: int -> string,
                tagger: (seq<seq<int>>, seq<seq<int>>) -> Ranking, labels: seq<string>)
      ensures Config() == NerConfig(plm, encode, idToToken, tagger, labels)
      ensures fresh(tagging) && tagging.batchData == None
    {
      tagging := new TaggingModel(plm, encode, idToToken);
      this.tagger := tagger;
      this.labels := labels;
    }

    function Config(): NerConfig {
      NerConfig(tagging.plm, tagging.encode, tagging.idToToken, tagger, labels)
    }

    /** `_get_raw_results`: normalise, build the batch, run the tagger, decode each record. */
    method GetRawResults(batchText: seq<BertItem>, topN: nat) returns (r: Result<seq<Cleaned>>)
      modifies tagging
      ensures r == RawResultsOf(Config(), BertRecordOf, topN, batchText)
      ensures var b := BatchFor(Config(), BertRecordOf, batchText);
        tagging.batchData == if b.Ok? then Some(b.value) else old(tagging.batchData)
    {
      var batchData := NormaliseBatch(batchText);
      if batchData.Err? {
        return Err(batchData.error);
      }
      var b := tagging.BuildBatch(batchData.value);
      if b.Err? {
        return Err(b.error);
      }
      var ranking := tagger(b.value.inputIds, b.value.padMask);
      var output := DecodeBatch(labels, topN, ranking, b.value.inputDataRaw);
      if output.Err? {
        return Err(output.error);
      }
      r := Ok(Results(output.value));
    }

    /** `predict`: a single item wrapped in a list, then chunks of `min(20, n)` items through `_get_raw_results`. */
    method Predict(inputText: PredictInput) returns (r: Result<seq<Prediction>>)
      modifies tagging
      ensures r == PredictOf(Config(), BertRecordOf, InputItems(inputText))
      ensures InputItems(inputText) == [] ==> tagging.batchData == old(tagging.batchData)
      ensures var items := InputItems(inputText);
        r.Ok? && items != [] ==>
          var chunks := Chunks(items, Min(MaxBatchSize, |items|));
          tagging.batchData == Some(BatchFor(Config(), BertRecordOf, chunks[|chunks| - 1]).value)
    {
      var items: seq<BertItem>;
      if inputText.Single? {
        items := [inputText.item];
      } else {
        items := inputText.items;
      }
      var batchSize := Min(MaxBatchSize, |items|);
      var k := 0;
      var output: seq<Prediction> := [];
      if batchSize == 0 {
        // the loop condition `0 * 0 < 0` fails at once
        return Ok(output);
      }
      ghost var chunks := Chunks(items, batchSize);
      ghost var outs: seq<seq<Prediction>> := [];
      while k * batchSize < |items|
        invariant k <= |chunks|
        invariant MapResult(ChunkRunner(Config(), BertRecordOf), chunks[..k]) == Ok(outs)
        invariant output == Concat(outs)
        invariant 0 < k ==>
          && BatchFor(Config(), BertRecordOf, chunks[k - 1]).Ok?
          && tagging.batchData == Some(BatchFor(Config(), BertRecordOf, chunks[k - 1]).value)
        decreases |items| - k * batchSize
      {
        ChunkExists(items, batchSize, k);
        ChunkAt(items, batchSize, k);
        var batchText := PySlice(items, k * batchSize, (k + 1) * batchSize);
        var results := GetRawResults(batchText, DefaultTopN);
        if results.Err? {
          assert ChunkRunner(Config(), BertRecordOf)(chunks[k]) == Err(results.error);
          MapResultFail(ChunkRunner(Config(), BertRecordOf), chunks, k, results.error);
          return Err(results.error);
        }
        var preds := KeepTextAndEntities(results.value);
        assert ChunkRunner(Config(), BertRecordOf)(chunks[k]) == Ok(preds);
        MapResultStep(ChunkRunner(Config(), BertRecordOf), chunks, k, outs, preds);
        ConcatAppend(outs, preds);
        outs := outs + [preds];
        output := output + preds;
        assert (k + 1) * batchSize == k * batchSize + batchSize;
        k := k + 1;
      }
      ChunkExists(items, batchSize, k);
      ChunkExists(items, batchSize, 0);
      assert chunks[..k] == chunks;
      r := Ok(output);
    }
  }
}
