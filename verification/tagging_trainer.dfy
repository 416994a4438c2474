/**
 * The tagging trainer's batch (extools/ml/tagging/bert/trainer.py): the
 * model's batch plus a grid of label indices shaped like the id rows, with
 * -1, the index the loss ignores, at the start and end positions and after
 * each record's labels.
 */
module TaggingTrainer {
  import opened Text
  import opened Padding
  import opened TaggingModel

  /** The index the loss function ignores. */
  const Ignore: int := -1

  /** The label rows are padded and wrapped with the ignore index alone. */
  const IgnoreSentinels: Sentinels := Sentinels(Ignore, Ignore, Ignore)

  /**
   * One record's label indices: `label_mapping.index(lb)` for each of its
   * (truncated) labels. A record without labels or without a label mapping
   * raises KeyError; a label missing from the mapping raises ValueError.
   */
  function LabelIndicesOf(itm: Item): Result<seq<int>> {
    if itm.elabels.None? || itm.record.labelMapping.None? then Err(KeyError)
    else
      var labels := itm.elabels.value;
      var mapping := itm.record.labelMapping.value;
      if exists j | 0 <= j < |labels| :: labels[j] !in mapping then Err(ValueError)
      else Ok(seq(|labels|, j requires 0 <= j < |labels| && labels[j] in mapping => IndexOf(mapping, labels[j])))
  }

  /** Each index names the label at its position, at its first occurrence in the mapping. */
  lemma LabelIndicesMeaning(itm: Item)
    ensures var r := LabelIndicesOf(itm);
      && (r.Ok? <==>
            && itm.elabels.Some? && itm.record.labelMapping.Some?
            && forall lb :: lb in itm.elabels.value ==> lb in itm.record.labelMapping.value)
      && (r.Err? ==> r.error in {KeyError, ValueError})
      && (r == Err(KeyError) <==> itm.elabels.None? || itm.record.labelMapping.None?)
      && (r.Ok? ==>
            var labels := itm.elabels.value;
            var mapping := itm.record.labelMapping.value;
            && |r.value| == |labels|
            && forall j :: 0 <= j < |labels| ==>
                 0 <= r.value[j] < |mapping| && mapping[r.value[j]] == labels[j] &&
                 labels[j] !in mapping[..r.value[j]])
  {
    var r := LabelIndicesOf(itm);
    if itm.elabels.Some? && itm.record.labelMapping.Some? {
      var labels := itm.elabels.value;
      if r.Ok? {
        forall lb | lb in labels ensures lb in itm.record.labelMapping.value {
          var j :| 0 <= j < |labels| && labels[j] == lb;
        }
      }
    }
  }

  /**
   * A record's label row: -1 at both ends, the index of its `j`-th label at
   * position `j+1`, and -1 after its labels.
   */
  lemma LabelRowMeaning(itm: Item, ml: nat)
    requires LabelIndicesOf(itm).Ok? && |itm.elabels.value| <= ml
    ensures var row := PadRow(LabelIndicesOf(itm).value, ml, IgnoreSentinels);
      var labels := itm.elabels.value;
      var mapping := itm.record.labelMapping.value;
      && |row| == ml + 2 && row[0] == Ignore && row[ml + 1] == Ignore
      && (forall j :: 0 <= j < |labels| ==>
            0 <= row[j + 1] < |mapping| && mapping[row[j + 1]] == labels[j] && labels[j] !in mapping[..row[j + 1]])
      && (forall j :: |labels| < j <= ml ==> row[j] == Ignore)
  {
    LabelIndicesMeaning(itm);
    PadRowFill(LabelIndicesOf(itm).value, ml, IgnoreSentinels);
  }

  datatype TrainBatch = TrainBatch(batch: BatchData, labels: seq<seq<int>>)

  /** The label rows: each record's indices cut to `max_length`, filled and wrapped with -1. */
  function LabelRows(indices: seq<seq<int>>, maxLength: nat): (rows: seq<seq<int>>)
    ensures |rows| == |indices|
  {
    seq(|indices|, k requires 0 <= k < |indices| => PadRow(indices[k], maxLength, IgnoreSentinels))
  }

  /** What the trainer's `_build_batch` stores, or the first exception it raises. */
  function TrainBatchOf(s: Sentinels, encode: string -> seq<int>, idToToken: int -> string, recs: seq<Record>): Result<TrainBatch> {
    match BatchOf(s, encode, idToToken, recs)
    case Err(e) => Err(e)
    case Ok(b) =>
      match MapResult(LabelIndicesOf, b.inputDataRaw)
      case Err(e) => Err(e)
      case Ok(indices) => Ok(TrainBatch(b, LabelRows(indices, b.maxLength)))
  }

  /** The successful batch: the model's batch and one row per record built from its label indices. */
  lemma TrainBatchValue(s: Sentinels, encode: string -> seq<int>, idToToken: int -> string, recs: seq<Record>)
    returns (b: BatchData, indices: seq<seq<int>>)
    requires TrainBatchOf(s, encode, idToToken, recs).Ok?
    ensures BatchOf(s, encode, idToToken, recs) == Ok(b)
    ensures TrainBatchOf(s, encode, idToToken, recs).value == TrainBatch(b, LabelRows(indices, b.maxLength))
    ensures |indices| == |b.inputDataRaw| == |b.inputIds| == |recs|
    ensures forall k :: 0 <= k < |recs| ==> LabelIndicesOf(b.inputDataRaw[k]) == Ok(indices[k])
    ensures forall k :: 0 <= k < |recs| ==> |b.inputIds[k]| == b.maxLength + 2
    ensures forall k :: 0 <= k < |recs| ==> b.inputDataRaw[k].elabels.Some? ==> |b.inputDataRaw[k].elabels.value| <= b.maxLength
  {
    b := BatchOf(s, encode, idToToken, recs).value;
    indices := MapResult(LabelIndicesOf, b.inputDataRaw).value;
    MapResultSpec(LabelIndicesOf, b.inputDataRaw);
    forall k | 0 <= k < |recs|
      ensures |b.inputIds[k]| == b.maxLength + 2
      ensures b.inputDataRaw[k].elabels.Some? ==> |b.inputDataRaw[k].elabels.value| <= b.maxLength
    {
      BatchRows(s, encode, idToToken, recs, k);
      BatchItems(s, encode, idToToken, recs, k);
    }
  }

  /**
   * The label grid has the shape of the id rows, and record `k`'s row is
   * its label row: -1 at both ends, the mapping index of its `j`-th
   * (truncated) label at position `j+1`, -1 after its labels.
   */
  lemma LabelGridShape(s: Sentinels, encode: string -> seq<int>, idToToken: int -> string, recs: seq<Record>, k: nat)
    requires TrainBatchOf(s, encode, idToToken, recs).Ok? && k < |recs|
    ensures var tb := TrainBatchOf(s, encode, idToToken, recs).value;
      var itm := tb.batch.inputDataRaw[k];
      && |tb.labels| == |tb.batch.inputIds| == |recs|
      && |tb.labels[k]| == |tb.batch.inputIds[k]| == tb.batch.maxLength + 2
      && LabelIndicesOf(itm).Ok? && |itm.elabels.value| <= tb.batch.maxLength
      && tb.labels[k] == PadRow(LabelIndicesOf(itm).value, tb.batch.maxLength, IgnoreSentinels)
  {
    var b, indices := TrainBatchValue(s, encode, idToToken, recs);
  }

  /** -1 appears in a label row exactly at the ignored positions: the two ends and the padding. */
  lemma IgnoreExactlyOffLabels(s: Sentinels, encode: string -> seq<int>, idToToken: int -> string, recs: seq<Record>, k: nat, j: nat)
    requires TrainBatchOf(s, encode, idToToken, recs).Ok? && k < |recs|
    requires j < TrainBatchOf(s, encode, idToToken, recs).value.batch.maxLength + 2
    ensures var tb := TrainBatchOf(s, encode, idToToken, recs).value;
      && tb.batch.inputDataRaw[k].elabels.Some?
      && (tb.labels[k][j] == Ignore <==> j == 0 || j > |tb.batch.inputDataRaw[k].elabels.value|)
  {
    LabelGridShape(s, encode, idToToken, recs, k);
    var tb := TrainBatchOf(s, encode, idToToken, recs).value;
    IgnoreInRow(tb.batch.inputDataRaw[k], tb.batch.maxLength, j);
  }

  /** `IgnoreExactlyOffLabels` for one padded label row. */
  lemma IgnoreInRow(itm: Item, ml: nat, j: nat)
    requires LabelIndicesOf(itm).Ok? && |itm.elabels.value| <= ml && j < ml + 2
    ensures j < |PadRow(LabelIndicesOf(itm).value, ml, IgnoreSentinels)|
    ensures PadRow(LabelIndicesOf(itm).value, ml, IgnoreSentinels)[j] == Ignore <==> j == 0 || j > |itm.elabels.value|
  {
    LabelRowMeaning(itm, ml);
    if 0 < j <= |itm.elabels.value| {
      assert PadRow(LabelIndicesOf(itm).value, ml, IgnoreSentinels)[(j - 1) + 1] >= 0;
    }
  }

  /** The trainer fails when the model's batch fails, or with the exception of the first record whose labels cannot be indexed. */
  lemma TrainBatchErrors(s: Sentinels, encode: string -> seq<int>, idToToken: int -> string, recs: seq<Record>)
    ensures var r := TrainBatchOf(s, encode, idToToken, recs);
      var base := BatchOf(s, encode, idToToken, recs);
      && (base.Err? ==> r == Err(base.error))
      && (base.Ok? ==>
            (r.Ok? <==> forall k :: 0 <= k < |recs| ==> LabelIndicesOf(base.value.inputDataRaw[k]).Ok?))
      && (base.Ok? && r.Err? ==>
            exists k :: 0 <= k < |recs| && LabelIndicesOf(base.value.inputDataRaw[k]) == Err(r.error))
  {
    var base := BatchOf(s, encode, idToToken, recs);
    if base.Ok? {
      BatchErrors(s, encode, idToToken, recs);
      var ts := BatchValue(s, encode, idToToken, recs);
      MapResultSpec(LabelIndicesOf, base.value.inputDataRaw);
    }
  }

  /** A record labelled outside its mapping makes the batch raise ValueError. */
  lemma UnknownLabelRaises(s: Sentinels, encode: string -> seq<int>, idToToken: int -> string, recs: seq<Record>, k: nat)
    requires BatchOf(s, encode, idToToken, recs).Ok? && k < |recs|
    requires forall i :: 0 <= i < k ==> LabelIndicesOf(BatchOf(s, encode, idToToken, recs).value.inputDataRaw[i]).Ok?
    requires var itm := BatchOf(s, encode, idToToken, recs).value.inputDataRaw[k];
      itm.elabels.Some? && itm.record.labelMapping.Some? &&
      exists lb :: lb in itm.elabels.value && lb !in itm.record.labelMapping.value
    ensures TrainBatchOf(s, encode, idToToken, recs) == Err(ValueError)
  {
    var items := BatchOf(s, encode, idToToken, recs).value.inputDataRaw;
    var ts := BatchValue(s, encode, idToToken, recs);
    var itm := items[k];
    var lb :| lb in itm.elabels.value && lb !in itm.record.labelMapping.value;
    var j :| 0 <= j < |itm.elabels.value| && itm.elabels.value[j] == lb;
    assert LabelIndicesOf(itm) == Err(ValueError);
    assert MapResult(LabelIndicesOf, items[..k]).Ok? by {
      MapResultSpec(LabelIndicesOf, items[..k]);
    }
    MapResultFail(LabelIndicesOf, items, k, ValueError);
  }

  /**
   * The label loop for one record. Without labels or without a mapping it
   * raises KeyError, on the first label (line 53) or after the loop
   * (line 55) when there are none.
   */
  method LabelIndices(itm: Item) returns (r: Result<seq<int>>)
    ensures r == LabelIndicesOf(itm)
  {
    if itm.elabels.None? || itm.record.labelMapping.None? {
      return Err(KeyError);
    }
    var labels := itm.elabels.value;
    var mapping := itm.record.labelMapping.value;
    var tmpLabels: seq<int> := [];
    for j := 0 to |labels|
      invariant |tmpLabels| == j
      invariant forall i :: 0 <= i < j ==> labels[i] in mapping && tmpLabels[i] == IndexOf(mapping, labels[i])
    {
      if labels[j] !in mapping {
        return Err(ValueError);
      }
      tmpLabels := tmpLabels + [IndexOf(mapping, labels[j])];
    }
    assert tmpLabels == LabelIndicesOf(itm).value;
    return Ok(tmpLabels);
  }

  /** The first loop of the trainer's `_build_batch`: the label indices of every record. */
  method IndexLabels(batchTmp: seq<Item>) returns (r: Result<seq<seq<int>>>)
    ensures r == MapResult(LabelIndicesOf, batchTmp)
  {
    var labelsArr: seq<seq<int>> := [];
    for k := 0 to |batchTmp|
      invariant MapResult(LabelIndicesOf, batchTmp[..k]) == Ok(labelsArr)
    {
      var tmpLabels := LabelIndices(batchTmp[k]);
      if tmpLabels.Err? {
        MapResultFail(LabelIndicesOf, batchTmp, k, tmpLabels.error);
        return Err(tmpLabels.error);
      }
      MapResultStep(LabelIndicesOf, batchTmp, k, labelsArr, tmpLabels.value);
      labelsArr := labelsArr + [tmpLabels.value];
    }
    assert batchTmp[..|batchTmp|] == batchTmp;
    return Ok(labelsArr);
  }

  /**
   * The trainer: the tagging model's batch plus the label grid. The JSON
   * file of the last record's label mapping is not part of this model.
   */
  class TaggingTrainer {
    const model: TaggingModel
    var labels: Option<seq<seq<int>>>

    constructor(model: TaggingModel)
      ensures this.model == model && labels == None
    {
      this.model := model;
      labels := None;
    }

    /** `_build_batch`: the model's batch, then one row of label indices per record. */
    method BuildBatch(batchRaw: seq<Record>) returns (r: Result<TrainBatch>)
      modifies this, model
      ensures r == TrainBatchOf(SentinelsOf(model.plm), model.encode, model.idToToken, batchRaw)
      ensures var base := BatchOf(SentinelsOf(model.plm), model.encode, model.idToToken, batchRaw);
        model.batchData == if base.Ok? then Some(base.value) else old(model.batchData)
      ensures labels == if r.Ok? then Some(r.value.labels) else old(labels)
    {
      var base := model.BuildBatch(batchRaw);
      if base.Err? {
        return Err(base.error);
      }
      var labelsArr := IndexLabels(base.value.inputDataRaw);
      if labelsArr.Err? {
        return Err(labelsArr.error);
      }
      var labelsOut := PadRows(labelsArr.value, base.value.maxLength, IgnoreSentinels);
      assert labelsOut == LabelRows(labelsArr.value, base.value.maxLength);
      labels := Some(labelsOut);
      r := Ok(TrainBatch(base.value, labelsOut));
    }
  }
}
