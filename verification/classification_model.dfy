/**
 * The classification model's data preparation
 * (exciton/ml/classification/xlm_roberta/model.py): padded id rows with no
 * length cap, the padding mask, and the attention mask that also hides the
 * start and end ids. As written, `_build_batch` indexes the encoded id list
 * with the key "tokens", which raises TypeError for every record; the model
 * keeps that behaviour beside the evidently intended one.
 */
module ClassificationModel {
  import opened Text
  import opened Padding

  /** The xlm-roberta-base sentinel ids. */
  const ClsSentinels: Sentinels := Sentinels(0, 2, 1)

  /** A record: only its "text" field is read. */
  datatype ClsRecord = ClsRecord(text: Option<string>)

  datatype ClsBatch = ClsBatch(
    maxLength: nat,
    inputIds: seq<seq<int>>,
    padMask: seq<seq<int>>,
    attnMask: seq<seq<int>>,
    inputDataRaw: seq<ClsRecord>)

  /** The batch of no records. */
  const EmptyBatch: ClsBatch := ClsBatch(0, [], [], [], [])

  // ---------------------------------------------------------------------
  // As written

  /**
   * `_build_batch` as written: the first record raises KeyError without a
   * text and TypeError otherwise (a list indexed by a string); only the
   * empty batch gets through.
   */
  function BatchAsWrittenOf(encode: string -> seq<int>, recs: seq<ClsRecord>): Result<ClsBatch> {
    if recs == [] then Ok(EmptyBatch)
    else if recs[0].text.None? then Err(KeyError)
    else Err(TypeError)
  }

  /** As written, no non-empty batch can be built, whatever the tokenizer. */
  lemma AsWrittenRejectsEveryRecord(encode: string -> seq<int>, recs: seq<ClsRecord>)
    ensures BatchAsWrittenOf(encode, recs).Ok? <==> recs == []
    ensures recs != [] && recs[0].text.Some? ==> BatchAsWrittenOf(encode, recs) == Err(TypeError)
  {
  }

  /** A one-record batch with a text raises TypeError as written, while the corrected batch has one row. */
  lemma AsWrittenCounterexample(encode: string -> seq<int>)
    ensures BatchAsWrittenOf(encode, [ClsRecord(Some("good"))]) == Err(TypeError)
    ensures ClsBatchOf(encode, [ClsRecord(Some("good"))]).Ok?
    ensures |ClsBatchOf(encode, [ClsRecord(Some("good"))]).value.inputIds| == 1
  {
    MapResultSpec(ClsEncoder(encode), [ClsRecord(Some("good"))]);
  }

  // ---------------------------------------------------------------------
  // Corrected: the encoded list itself is the record's id list

  /** The ids of one record: its encoding without the first and last id; KeyError without a text. */
  function EncodeRecord(encode: string -> seq<int>, rec: ClsRecord): Result<seq<int>> {
    if rec.text.None? then Err(KeyError) else Ok(Inner(encode(rec.text.value)))
  }

  function ClsEncoder(encode: string -> seq<int>): ClsRecord -> Result<seq<int>> {
    rec => EncodeRecord(encode, rec)
  }

  function ClsRows(arr: seq<seq<int>>, ml: nat): (rows: seq<seq<int>>)
    ensures |rows| == |arr|
  {
    seq(|arr|, k requires 0 <= k < |arr| => PadRow(arr[k], ml, ClsSentinels))
  }

  /** The corrected `_build_batch`: what it stores, or KeyError for the first record without a text. */
  function ClsBatchOf(encode: string -> seq<int>, recs: seq<ClsRecord>): Result<ClsBatch> {
    match MapResult(ClsEncoder(encode), recs)
    case Err(e) => Err(e)
    case Ok(arr) =>
      var ml := Longest(arr);
      var rows := ClsRows(arr, ml);
      Ok(ClsBatch(ml, rows, PadMaskOf(rows, ClsSentinels.pad), AttnMaskOf(rows, ClsSentinels), recs))
  }

  /** The batch fails exactly when some record has no text. */
  lemma ClsBatchErrors(encode: string -> seq<int>, recs: seq<ClsRecord>)
    ensures ClsBatchOf(encode, recs).Ok? <==> forall k :: 0 <= k < |recs| ==> recs[k].text.Some?
    ensures ClsBatchOf(encode, recs).Err? ==> ClsBatchOf(encode, recs).error == KeyError
  {
    MapResultSpec(ClsEncoder(encode), recs);
  }

  /** The successful batch, built from the records' id lists `arr`. */
  lemma ClsBatchValue(encode: string -> seq<int>, recs: seq<ClsRecord>) returns (arr: seq<seq<int>>)
    requires ClsBatchOf(encode, recs).Ok?
    ensures |arr| == |recs|
    ensures forall k :: 0 <= k < |recs| ==> recs[k].text.Some? && arr[k] == Inner(encode(recs[k].text.value))
    ensures var rows := ClsRows(arr, Longest(arr));
      ClsBatchOf(encode, recs).value ==
        ClsBatch(Longest(arr), rows, PadMaskOf(rows, ClsSentinels.pad), AttnMaskOf(rows, ClsSentinels), recs)
  {
    arr := MapResult(ClsEncoder(encode), recs).value;
    MapResultSpec(ClsEncoder(encode), recs);
  }

  /**
   * Nothing is truncated: `max_length` is the longest record, every row
   * has length `max_length + 2` and holds the start id, all of the
   * record's ids, padding ids, and the end id.
   */
  lemma ClsBatchRows(encode: string -> seq<int>, recs: seq<ClsRecord>, k: nat)
    requires ClsBatchOf(encode, recs).Ok? && k < |recs|
    ensures recs[k].text.Some?
    ensures var b := ClsBatchOf(encode, recs).value;
      var ids := Inner(encode(recs[k].text.value));
      && |b.inputIds| == |recs| && b.inputDataRaw == recs
      && |ids| <= b.maxLength
      && (exists i :: 0 <= i < |recs| && recs[i].text.Some? && b.maxLength == |Inner(encode(recs[i].text.value))|)
      && |b.inputIds[k]| == b.maxLength + 2
      && b.inputIds[k][0] == ClsSentinels.start && b.inputIds[k][b.maxLength + 1] == ClsSentinels.end
      && (forall j :: 0 <= j < |ids| ==> b.inputIds[k][j + 1] == ids[j])
      && (forall j :: |ids| < j <= b.maxLength ==> b.inputIds[k][j] == ClsSentinels.pad)
  {
    var arr := ClsBatchValue(encode, recs);
    var i :| 0 <= i < |arr| && |arr[i]| == Longest(arr);
    PadRowFill(arr[k], Longest(arr), ClsSentinels);
  }

  /**
   * For token ids (never negative) the attention mask is 0 exactly at the
   * start, end and padding ids, and the padding mask 0 exactly at the
   * padding id; so every position the attention mask keeps, the padding
   * mask keeps too.
   */
  lemma ClsMasks(encode: string -> seq<int>, recs: seq<ClsRecord>, k: nat, j: nat)
    requires ClsBatchOf(encode, recs).Ok?
    requires k < |recs| && j < |ClsBatchOf(encode, recs).value.inputIds[k]|
    requires ClsBatchOf(encode, recs).value.inputIds[k][j] >= 0
    ensures var b := ClsBatchOf(encode, recs).value;
      var x := b.inputIds[k][j];
      && (b.attnMask[k][j] == 0 <==> x in {0, 1, 2})
      && (b.attnMask[k][j] == 1 <==> x !in {0, 1, 2})
      && (b.padMask[k][j] == 0 <==> x == 1)
      && (b.padMask[k][j] == 1 <==> x != 1)
      && (b.attnMask[k][j] == 1 ==> b.padMask[k][j] == 1)
  {
    var b := ClsBatchOf(encode, recs).value;
    AttnMaskOfIds(b.inputIds, ClsSentinels, k, j);
  }

  /** The attention mask ignores both ends of every row. */
  lemma ClsAttnEnds(encode: string -> seq<int>, recs: seq<ClsRecord>, k: nat)
    requires ClsBatchOf(encode, recs).Ok? && k < |recs|
    ensures var b := ClsBatchOf(encode, recs).value;
      b.attnMask[k][0] == 0 && b.attnMask[k][b.maxLength + 1] == 0 &&
      b.padMask[k][0] == 1 && b.padMask[k][b.maxLength + 1] == 1
  {
    ClsBatchRows(encode, recs, k);
  }

  /** The model; `batchData` is what the last successful `_build_batch` stored. */
  class ClassificationModel {
    const encode: string -> seq<int>
    var batchData: Option<ClsBatch>

    constructor(encode: string -> seq<int>)
      ensures this.encode == encode && batchData == None
    {
      this.encode := encode;
      batchData := None;
    }

    /** `_build_batch` as written: the first record raises. */
    method BuildBatchAsWritten(batchRaw: seq<ClsRecord>) returns (r: Result<ClsBatch>)
      modifies this
      ensures r == BatchAsWrittenOf(encode, batchRaw)
      ensures batchData == if r.Ok? then Some(r.value) else old(batchData)
    {
      if batchRaw != [] {
        var itm := batchRaw[0];
        if itm.text.None? {
          return Err(KeyError);
        }
        var out := Inner(encode(itm.text.value));
        // `out["tokens"]` indexes a list with a string
        return Err(TypeError);
      }
      batchData := Some(EmptyBatch);
      r := Ok(EmptyBatch);
    }

    /** The first loop of the corrected `_build_batch`: each record's ids and the longest length. */
    method EncodeBatch(batchRaw: seq<ClsRecord>) returns (r: Result<seq<seq<int>>>, maxLength: nat)
      ensures r == MapResult(ClsEncoder(encode), batchRaw)
      ensures r.Ok? ==> maxLength == Longest(r.value)
    {
      var tokensArr: seq<seq<int>> := [];
      maxLength := 0;
      for k := 0 to |batchRaw|
        invariant MapResult(ClsEncoder(encode), batchRaw[..k]) == Ok(tokensArr)
        invariant maxLength == Longest(tokensArr)
      {
        if batchRaw[k].text.None? {
          assert ClsEncoder(encode)(batchRaw[k]) == Err(KeyError);
          MapResultFail(ClsEncoder(encode), batchRaw, k, KeyError);
          return Err(KeyError), maxLength;
        }
        var out := Inner(encode(batchRaw[k].text.value));
        assert ClsEncoder(encode)(batchRaw[k]) == Ok(out);
        MapResultStep(ClsEncoder(encode), batchRaw, k, tokensArr, out);
        LongestAppend(tokensArr, out);
        tokensArr := tokensArr + [out];
        if maxLength < |out| {
          maxLength := |out|;
        }
      }
      assert batchRaw[..|batchRaw|] == batchRaw;
      r := Ok(tokensArr);
    }

    /** The corrected `_build_batch`: the record's encoded list is its id list. */
    method BuildBatch(batchRaw: seq<ClsRecord>) returns (r: Result<ClsBatch>)
      modifies this
      ensures r == ClsBatchOf(encode, batchRaw)
      ensures batchData == if r.Ok? then Some(r.value) else old(batchData)
    {
      var tokensArr, maxLength := EncodeBatch(batchRaw);
      if tokensArr.Err? {
        return Err(tokensArr.error);
      }
      var tokensOut := PadRows(tokensArr.value, maxLength, ClsSentinels);
      assert tokensOut == ClsRows(tokensArr.value, maxLength);
      var padMask := BuildPadMask(tokensOut, ClsSentinels.pad);
      var attnMask := BuildAttnMask(tokensOut, ClsSentinels);
      var b := ClsBatch(maxLength, tokensOut, padMask, attnMask, batchRaw);
      batchData := Some(b);
      r := Ok(b);
    }
  }
}
