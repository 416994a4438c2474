/**
 * The tagging model's data preparation (exciton/ml/tagging/bert/model.py):
 * the alignment of word labels with subword ids, and the batch of padded id
 * rows with its padding mask. The tokenizer is given as two functions:
 * `encode` (text to ids, with the start and end ids the tokenizer adds) and
 * `idToToken` (one id to its subword string).
 */
module TaggingModel {
  import opened Text
  import opened Padding

  datatype Plm = Bert | XlmRoberta

  /** The sentinel ids set when the modules are built: bert-base-cased, or xlm-roberta-base. */
  function SentinelsOf(plm: Plm): (s: Sentinels)
    ensures s.pad != -1 && s.start != s.pad && s.end != s.pad
    ensures plm == Bert ==> s == Sentinels(101, 102, 0)
    ensures plm == XlmRoberta ==> s == Sentinels(0, 2, 1)
  {
    match plm
    case Bert => Sentinels(101, 102, 0)
    case XlmRoberta => Sentinels(0, 2, 1)
  }

  /** No row is longer than this many subwords. */
  const MaxLengthCap: nat := 500

  function Min(a: nat, b: nat): nat {
    if a < b then a else b
  }

  /**
   * An input record. Word mode needs both `words` (the "tokens" key) and
   * `labels`; otherwise the record is free text. `labelMapping` is read by
   * the trainer only.
   */
  datatype Record = Record(
    text: Option<string>,
    words: Option<seq<string>>,
    labels: Option<seq<string>>,
    labelMapping: Option<seq<string>>)

  /** The output of `_tokenize_text`: subword ids, and in word mode one label per id. */
  datatype Tokenized = Tokenized(ids: seq<int>, labels: Option<seq<string>>)

  predicate WordMode(rec: Record) {
    rec.words.Some? && rec.labels.Some?
  }

  /** The label of a subword after the first: a `B…` label becomes `I…`, any other is kept. */
  function Inside(lab: string): string {
    if lab != [] && lab[0] == 'B' then "I" + lab[1..] else lab
  }

  /** The labels of a word's `n` subwords. */
  function SpreadLabel(lab: string, n: nat): seq<string> {
    seq(n, j => if j == 0 then lab else Inside(lab))
  }

  /** The subword ids of each word: its encoding without the first and last id. */
  function Subwords(encode: string -> seq<int>, words: seq<string>): (subs: seq<seq<int>>)
    ensures |subs| == |words|
  {
    seq(|words|, k requires 0 <= k < |words| => Inner(encode(words[k])))
  }

  function SpreadLabels(labels: seq<string>, subs: seq<seq<int>>): (r: seq<seq<string>>)
    requires |labels| == |subs|
    ensures |r| == |subs|
  {
    seq(|subs|, k requires 0 <= k < |subs| => SpreadLabel(labels[k], |subs[k]|))
  }

  /** Word `k` has an empty label and at least two subwords, so `lab[0]` fails. */
  predicate EmptyLabelFault(labels: seq<string>, subs: seq<seq<int>>, k: int)
    requires |labels| == |subs|
  {
    0 <= k < |subs| && labels[k] == "" && |subs[k]| >= 2
  }

  /** What `_tokenize_text` returns or raises for one record. */
  function TokenizeOf(encode: string -> seq<int>, rec: Record): Result<Tokenized> {
    if WordMode(rec) then
      if |rec.words.value| != |rec.labels.value| then Err(AssertionError)
      else TokenizeWordsOf(encode, rec.words.value, rec.labels.value)
    else if rec.text.None? then Err(KeyError)
    else Ok(Tokenized(Inner(encode(rec.text.value)), None))
  }

  /** Word mode: every word's subwords in order, each labelled from its word's label. */
  function TokenizeWordsOf(encode: string -> seq<int>, words: seq<string>, labels: seq<string>): Result<Tokenized>
    requires |words| == |labels|
  {
    var subs := Subwords(encode, words);
    if exists k | 0 <= k < |subs| :: EmptyLabelFault(labels, subs, k) then Err(IndexError)
    else Ok(Tokenized(Concat(subs), Some(Concat(SpreadLabels(labels, subs)))))
  }

  /** The cases in which `_tokenize_text` raises, and which exception. */
  lemma TokenizeErrors(encode: string -> seq<int>, rec: Record)
    ensures var r := TokenizeOf(encode, rec);
      && (r == Err(AssertionError) <==> WordMode(rec) && |rec.words.value| != |rec.labels.value|)
      && (r == Err(IndexError) <==>
            WordMode(rec) && |rec.words.value| == |rec.labels.value| &&
            exists k :: EmptyLabelFault(rec.labels.value, Subwords(encode, rec.words.value), k))
      && (r == Err(KeyError) <==> !WordMode(rec) && rec.text.None?)
      && (r.Err? ==> r.error in {AssertionError, IndexError, KeyError})
  {
  }

  /** In word mode there is exactly one label per subword id. */
  lemma TokenizeAligned(encode: string -> seq<int>, rec: Record)
    requires TokenizeOf(encode, rec).Ok? && WordMode(rec)
    ensures var t := TokenizeOf(encode, rec).value;
      t.labels.Some? && |t.labels.value| == |t.ids|
  {
    var words := rec.words.value;
    var labels := rec.labels.value;
    var subs := Subwords(encode, words);
    ConcatSameShape(SpreadLabels(labels, subs), subs);
  }

  /**
   * Word `k` owns the ids from `off` on, where `off` counts the subwords of
   * the earlier words: they are its own subwords, the first labelled with
   * its label verbatim and the later ones with `Inside` of it.
   */
  lemma TokenizeWordLabels(encode: string -> seq<int>, rec: Record, k: nat, j: nat)
    requires TokenizeOf(encode, rec).Ok? && WordMode(rec)
    requires k < |rec.words.value| && j < |Inner(encode(rec.words.value[k]))|
    ensures var t := TokenizeOf(encode, rec).value;
      var words := rec.words.value;
      var lab := rec.labels.value[k];
      var off := |Concat(Subwords(encode, words)[..k])|;
      && off + j < |t.ids| && t.labels.Some? && off + j < |t.labels.value|
      && t.ids[off + j] == Inner(encode(words[k]))[j]
      && t.labels.value[off + j] == (if j == 0 then lab else Inside(lab))
  {
    WordLabels(encode, rec.words.value, rec.labels.value, k, j);
  }

  /** `TokenizeWordLabels` on the words and labels themselves. */
  lemma WordLabels(encode: string -> seq<int>, words: seq<string>, labels: seq<string>, k: nat, j: nat)
    requires |words| == |labels| && k < |words| && j < |Inner(encode(words[k]))|
    ensures |Concat(Subwords(encode, words)[..k])| + j < |Concat(Subwords(encode, words))|
    ensures Concat(Subwords(encode, words))[|Concat(Subwords(encode, words)[..k])| + j] == Inner(encode(words[k]))[j]
    ensures |Concat(Subwords(encode, words)[..k])| + j < |Concat(SpreadLabels(labels, Subwords(encode, words)))|
    ensures Concat(SpreadLabels(labels, Subwords(encode, words)))[|Concat(Subwords(encode, words)[..k])| + j]
      == SpreadLabel(labels[k], |Inner(encode(words[k]))|)[j]
  {
    var subs := Subwords(encode, words);
    ConcatIndex(subs, k, j);
    SpreadAt(labels, subs, k, j);
  }

  /** Label `j` of word `k` sits where its subword does. */
  lemma SpreadAt(labels: seq<string>, subs: seq<seq<int>>, k: nat, j: nat)
    requires |labels| == |subs| && k < |subs| && j < |subs[k]|
    ensures |Concat(subs[..k])| + j < |Concat(SpreadLabels(labels, subs))|
    ensures Concat(SpreadLabels(labels, subs))[|Concat(subs[..k])| + j] == SpreadLabel(labels[k], |subs[k]|)[j]
  {
    var spread := SpreadLabels(labels, subs);
    ConcatIndex(spread, k, j);
    ConcatSameShape(spread[..k], subs[..k]);
  }

  /** Free-text mode keeps the encoding without its first and last id. */
  lemma TokenizeFreeText(encode: string -> seq<int>, rec: Record)
    requires !WordMode(rec) && rec.text.Some?
    ensures var e := encode(rec.text.value);
      var t := TokenizeOf(encode, rec).value;
      && TokenizeOf(encode, rec).Ok? && t.labels.None?
      && |t.ids| == (if |e| < 3 then 0 else |e| - 2)
      && forall i :: 0 <= i < |t.ids| ==> t.ids[i] == e[i + 1]
  {
  }

  /** A two-subword word labelled `B-PER` gives `B-PER`, `I-PER`. */
  lemma BeginSpreadsAsInside()
    ensures SpreadLabel("B-PER", 2) == ["B-PER", "I-PER"]
  {
    assert Inside("B-PER") == "I-PER";
  }

  // ---------------------------------------------------------------------
  // The batch

  /** A record after `_build_batch`: its subword strings and, in word mode, their labels, both truncated. */
  datatype Item = Item(record: Record, etokens: seq<string>, elabels: Option<seq<string>>)

  datatype BatchData = BatchData(
    maxLength: nat,
    inputIds: seq<seq<int>>,
    padMask: seq<seq<int>>,
    inputDataRaw: seq<Item>)

  /** `convert_ids_to_tokens`: one subword string per id. */
  function IdsToTokens(idToToken: int -> string, ids: seq<int>): (r: seq<string>)
    ensures |r| == |ids|
  {
    seq(|ids|, i requires 0 <= i < |ids| => idToToken(ids[i]))
  }

  /** `_tokenize_text` as a function of the record. */
  function Tokenizer(encode: string -> seq<int>): Record -> Result<Tokenized> {
    rec => TokenizeOf(encode, rec)
  }

  /** `_tokenize_text` over a batch: the first exception raised, or every record's output. */
  function TokenizeAll(encode: string -> seq<int>, recs: seq<Record>): (r: Result<seq<Tokenized>>)
    ensures r.Ok? ==> |r.value| == |recs|
  {
    MapResult(Tokenizer(encode), recs)
  }

  function IdLists(ts: seq<Tokenized>): (r: seq<seq<int>>)
    ensures |r| == |ts|
  {
    seq(|ts|, k requires 0 <= k < |ts| => ts[k].ids)
  }

  /** The record as it leaves the first loop, before truncation. */
  function Tokenized2Item(idToToken: int -> string, rec: Record, t: Tokenized): Item {
    Item(rec, IdsToTokens(idToToken, t.ids), t.labels)
  }

  /** The records with their subword strings, as the first loop of `_build_batch` collects them. */
  function ItemsOf(idToToken: int -> string, recs: seq<Record>, ts: seq<Tokenized>): (r: seq<Item>)
    requires |recs| == |ts|
    ensures |r| == |ts|
  {
    if ts == [] then []
    else ItemsOf(idToToken, recs[..|recs| - 1], ts[..|ts| - 1]) + [Tokenized2Item(idToToken, recs[|recs| - 1], ts[|ts| - 1])]
  }

  lemma ItemsAppend(idToToken: int -> string, recs: seq<Record>, k: nat, ts: seq<Tokenized>, t: Tokenized)
    requires k < |recs| && |ts| == k
    ensures ItemsOf(idToToken, recs[..k + 1], ts + [t]) == ItemsOf(idToToken, recs[..k], ts) + [Tokenized2Item(idToToken, recs[k], t)]
  {
    assert recs[..k + 1][..k] == recs[..k];
    assert (ts + [t])[..k] == ts;
  }

  /** Record `k` sits at place `k`. */
  lemma {:induction false} ItemsAt(idToToken: int -> string, recs: seq<Record>, ts: seq<Tokenized>, k: nat)
    requires |recs| == |ts| && k < |ts|
    ensures ItemsOf(idToToken, recs, ts)[k] == Tokenized2Item(idToToken, recs[k], ts[k])
    decreases |ts|
  {
    if k < |ts| - 1 {
      ItemsAt(idToToken, recs[..|recs| - 1], ts[..|ts| - 1], k);
    }
  }

  /** The truncation of the second loop. */
  function Truncate(itm: Item, ml: nat): Item {
    Item(itm.record, Take(itm.etokens, ml),
         if itm.elabels.Some? then Some(Take(itm.elabels.value, ml)) else None)
  }


  /** `max_length`: the longest id list, capped at 500. */
  function MaxLengthOf(ts: seq<Tokenized>): (ml: nat)
    ensures ml <= MaxLengthCap
  {
    Min(MaxLengthCap, Longest(IdLists(ts)))
  }

  function PaddedRows(ts: seq<Tokenized>, ml: nat, s: Sentinels): (rows: seq<seq<int>>)
    ensures |rows| == |ts|
  {
    seq(|ts|, k requires 0 <= k < |ts| => PadRow(ts[k].ids, ml, s))
  }

  function TruncatedItems(idToToken: int -> string, recs: seq<Record>, ts: seq<Tokenized>, ml: nat): (r: seq<Item>)
    requires |recs| == |ts|
    ensures |r| == |ts|
  {
    seq(|ts|, k requires 0 <= k < |ts| => Truncate(Tokenized2Item(idToToken, recs[k], ts[k]), ml))
  }

  /** What `_build_batch` stores in `batch_data`, or the exception it raises. */
  function BatchOf(s: Sentinels, encode: string -> seq<int>, idToToken: int -> string, recs: seq<Record>): Result<BatchData> {
    match TokenizeAll(encode, recs)
    case Err(e) => Err(e)
    case Ok(ts) =>
      var ml := MaxLengthOf(ts);
      var rows := PaddedRows(ts, ml, s);
      Ok(BatchData(ml, rows, PadMaskOf(rows, s.pad), TruncatedItems(idToToken, recs, ts, ml)))
  }

  /** The batch fails exactly when some record fails, with the exception of the first record that fails. */
  lemma BatchErrors(s: Sentinels, encode: string -> seq<int>, idToToken: int -> string, recs: seq<Record>)
    ensures BatchOf(s, encode, idToToken, recs).Ok? <==> forall k :: 0 <= k < |recs| ==> TokenizeOf(encode, recs[k]).Ok?
    ensures BatchOf(s, encode, idToToken, recs).Err? ==>
      exists k :: 0 <= k < |recs| && TokenizeOf(encode, recs[k]) == Err(BatchOf(s, encode, idToToken, recs).error) &&
        (forall i :: 0 <= i < k ==> TokenizeOf(encode, recs[i]).Ok?)
  {
    MapResultSpec(Tokenizer(encode), recs);
  }

  /** The batch built from the tokenized records `ts`. */
  lemma BatchValue(s: Sentinels, encode: string -> seq<int>, idToToken: int -> string, recs: seq<Record>)
    returns (ts: seq<Tokenized>)
    requires BatchOf(s, encode, idToToken, recs).Ok?
    ensures TokenizeAll(encode, recs) == Ok(ts) && |ts| == |recs|
    ensures forall k :: 0 <= k < |recs| ==> TokenizeOf(encode, recs[k]) == Ok(ts[k])
    ensures var ml := MaxLengthOf(ts);
      var rows := PaddedRows(ts, ml, s);
      BatchOf(s, encode, idToToken, recs).value ==
        BatchData(ml, rows, PadMaskOf(rows, s.pad), TruncatedItems(idToToken, recs, ts, ml))
  {
    ts := TokenizeAll(encode, recs).value;
    MapResultSpec(Tokenizer(encode), recs);
  }

  /** `max_length` is at most 500, bounds every record below 500, and is reached by some record unless the batch is empty. */
  lemma BatchMaxLength(s: Sentinels, encode: string -> seq<int>, idToToken: int -> string, recs: seq<Record>)
    requires BatchOf(s, encode, idToToken, recs).Ok?
    ensures var ml := BatchOf(s, encode, idToToken, recs).value.maxLength;
      && ml <= MaxLengthCap
      && (forall k :: 0 <= k < |recs| ==>
            TokenizeOf(encode, recs[k]).Ok? && (|TokenizeOf(encode, recs[k]).value.ids| <= ml || ml == MaxLengthCap))
      && (recs == [] ==> ml == 0)
      && (recs != [] ==>
            exists k :: 0 <= k < |recs| && TokenizeOf(encode, recs[k]).Ok? &&
              ml == Min(MaxLengthCap, |TokenizeOf(encode, recs[k]).value.ids|))
  {
    var ts := BatchValue(s, encode, idToToken, recs);
    var ids := IdLists(ts);
    if recs != [] {
      var k :| 0 <= k < |ids| && |ids[k]| == Longest(ids);
      assert MaxLengthOf(ts) == Min(MaxLengthCap, |ts[k].ids|);
    }
    forall k | 0 <= k < |recs| ensures |ts[k].ids| <= MaxLengthOf(ts) || MaxLengthOf(ts) == MaxLengthCap {
      assert |ids[k]| <= Longest(ids);
    }
  }

  /**
   * One row per record, in input order, of length `max_length + 2`: the
   * start id, the record's ids cut to `max_length` and padded with the
   * padding id, the end id; the padding mask is 1 exactly off the padding id.
   */
  lemma BatchRows(s: Sentinels, encode: string -> seq<int>, idToToken: int -> string, recs: seq<Record>, k: nat)
    requires BatchOf(s, encode, idToToken, recs).Ok? && k < |recs|
    ensures var b := BatchOf(s, encode, idToToken, recs).value;
      && TokenizeOf(encode, recs[k]).Ok?
      && |b.inputIds| == |recs| && |b.padMask| == |recs|
      && b.inputIds[k] == PadRow(TokenizeOf(encode, recs[k]).value.ids, b.maxLength, s)
      && |b.padMask[k]| == b.maxLength + 2
      && (forall j :: 0 <= j < b.maxLength + 2 ==> b.padMask[k][j] == if b.inputIds[k][j] == s.pad then 0 else 1)
  {
    var ts := BatchValue(s, encode, idToToken, recs);
  }

  /** Each record keeps its place, and its subword strings and labels are cut to `max_length`. */
  lemma BatchItems(s: Sentinels, encode: string -> seq<int>, idToToken: int -> string, recs: seq<Record>, k: nat)
    requires BatchOf(s, encode, idToToken, recs).Ok? && k < |recs|
    ensures var b := BatchOf(s, encode, idToToken, recs).value;
      && TokenizeOf(encode, recs[k]).Ok?
      && |b.inputDataRaw| == |recs|
      && b.inputDataRaw[k] == Truncate(Tokenized2Item(idToToken, recs[k], TokenizeOf(encode, recs[k]).value), b.maxLength)
  {
    var ts := BatchValue(s, encode, idToToken, recs);
  }

  /** Each stored record is its input record, with at most `max_length` subword strings and an id row of `max_length + 2`. */
  lemma BatchShape(s: Sentinels, encode: string -> seq<int>, idToToken: int -> string, recs: seq<Record>, k: nat)
    requires BatchOf(s, encode, idToToken, recs).Ok? && k < |recs|
    ensures var b := BatchOf(s, encode, idToToken, recs).value;
      && |b.inputIds| == |recs| && |b.inputDataRaw| == |recs|
      && |b.inputIds[k]| == b.maxLength + 2
      && b.inputDataRaw[k].record == recs[k]
      && |b.inputDataRaw[k].etokens| <= b.maxLength
  {
    BatchRows(s, encode, idToToken, recs, k);
    BatchItems(s, encode, idToToken, recs, k);
  }

  /** A record's truncation depends on the record alone: its first `min(500, n)` subword strings. */
  lemma TruncationPerRecord(s: Sentinels, encode: string -> seq<int>, idToToken: int -> string, recs: seq<Record>, k: nat)
    requires BatchOf(s, encode, idToToken, recs).Ok? && k < |recs|
    ensures var b := BatchOf(s, encode, idToToken, recs).value;
      && TokenizeOf(encode, recs[k]).Ok?
      && var ids := TokenizeOf(encode, recs[k]).value.ids;
      b.inputDataRaw[k].etokens == Take(IdsToTokens(idToToken, ids), Min(MaxLengthCap, |ids|))
  {
    var ts := BatchValue(s, encode, idToToken, recs);
    var ml := MaxLengthOf(ts);
    var all := IdsToTokens(idToToken, ts[k].ids);
    assert |IdLists(ts)[k]| <= Longest(IdLists(ts));
    if |ts[k].ids| <= MaxLengthCap {
      assert Take(all, ml) == all == Take(all, |ts[k].ids|);
    }
  }

  /** In word mode, the truncated labels stay aligned with the truncated subword strings. */
  lemma BatchLabelsAligned(s: Sentinels, encode: string -> seq<int>, idToToken: int -> string, recs: seq<Record>, k: nat)
    requires BatchOf(s, encode, idToToken, recs).Ok? && k < |recs| && WordMode(recs[k])
    ensures var itm := BatchOf(s, encode, idToToken, recs).value.inputDataRaw[k];
      itm.elabels.Some? && |itm.elabels.value| == |itm.etokens|
  {
    var ts := BatchValue(s, encode, idToToken, recs);
    TokenizeAligned(encode, recs[k]);
  }

  /** The start and end ids are never the padding id, so the padding mask is 1 at both ends of every row. */
  lemma PadMaskEnds(plm: Plm, encode: string -> seq<int>, idToToken: int -> string, recs: seq<Record>, k: nat)
    requires BatchOf(SentinelsOf(plm), encode, idToToken, recs).Ok? && k < |recs|
    ensures var b := BatchOf(SentinelsOf(plm), encode, idToToken, recs).value;
      b.padMask[k][0] == 1 && b.padMask[k][b.maxLength + 1] == 1
  {
    BatchRows(SentinelsOf(plm), encode, idToToken, recs, k);
  }

  /** The inner loop of `_tokenize_text` for one word: `lab[0]` fails on an empty label from the second subword on. */
  method LabelSubwords(lab: string, n: nat) returns (r: Result<seq<string>>)
    ensures r.Err? <==> lab == "" && n >= 2
    ensures r.Err? ==> r.error == IndexError
    ensures r.Ok? ==> r.value == SpreadLabel(lab, n)
  {
    var rblab: seq<string> := [];
    for j := 0 to n
      invariant |rblab| == j
      invariant forall i :: 0 <= i < j ==> rblab[i] == if i == 0 then lab else Inside(lab)
      invariant j >= 2 ==> lab != ""
    {
      if j == 0 {
        rblab := rblab + [lab];
      } else {
        if lab == "" {
          return Err(IndexError);
        }
        if lab[0] == 'B' {
          rblab := rblab + ["I" + lab[1..]];
        } else {
          rblab := rblab + [lab];
        }
      }
    }
    return Ok(rblab);
  }

  /** The truncation loop of `_build_batch`. */
  method TruncateItems(items: seq<Item>, maxLength: nat) returns (out: seq<Item>)
    ensures |out| == |items|
    ensures forall k :: 0 <= k < |items| ==> out[k] == Truncate(items[k], maxLength)
  {
    out := items;
    for k := 0 to |out|
      invariant |out| == |items|
      invariant forall i :: 0 <= i < k ==> out[i] == Truncate(items[i], maxLength)
      invariant forall i :: k <= i < |items| ==> out[i] == items[i]
    {
      var itm := out[k];
      itm := itm.(etokens := Take(itm.etokens, maxLength));
      if itm.elabels.Some? {
        itm := itm.(elabels := Some(Take(itm.elabels.value, maxLength)));
      }
      out := out[k := itm];
    }
  }

  /**
   * The model: its pretrained language model fixes the sentinel ids; the
   * tokenizer is given by `encode` and `idToToken`; `batchData` is what
   * the last successful `_build_batch` stored (`None` before any).
   */
  class TaggingModel {
    const plm: Plm
    const encode: string -> seq<int>
    const idToToken: int -> string
    var batchData: Option<BatchData>

    constructor(plm: Plm, encode: string -> seq<int>, idToToken: int -> string)
      ensures this.plm == plm && this.encode == encode && this.idToToken == idToToken
      ensures batchData == None
    {
      this.plm := plm;
      this.encode := encode;
      this.idToToken := idToToken;
      batchData := None;
    }

    /** `_tokenize_text`: word mode loops over the words, otherwise the whole text is encoded. */
    method TokenizeText(inputData: Record) returns (r: Result<Tokenized>)
      ensures r == TokenizeOf(encode, inputData)
    {
      if !WordMode(inputData) {
        if inputData.text.None? {
          return Err(KeyError);
        }
        var out := Inner(encode(inputData.text.value));
        return Ok(Tokenized(out, None));
      }
      if |inputData.words.value| != |inputData.labels.value| {
        return Err(AssertionError);
      }
      r := TokenizeWords(inputData.words.value, inputData.labels.value);
    }

    /** The word-mode loop of `_tokenize_text`. */
    method TokenizeWords(tokens: seq<string>, labels: seq<string>) returns (r: Result<Tokenized>)
      requires |tokens| == |labels|
      ensures r == TokenizeWordsOf(encode, tokens, labels)
    {
      var outTokens: seq<int> := [];
      var outLabels: seq<string> := [];
      ghost var subs := Subwords(encode, tokens);
      ghost var spread := SpreadLabels(labels, subs);
      for k := 0 to |tokens|
        invariant outTokens == Concat(subs[..k])
        invariant outLabels == Concat(spread[..k])
        invariant forall i :: 0 <= i < k ==> !EmptyLabelFault(labels, subs, i)
      {
        var rbtok := Inner(encode(tokens[k]));
        assert rbtok == subs[k];
        var rblab := LabelSubwords(labels[k], |rbtok|);
        if rblab.Err? {
          assert EmptyLabelFault(labels, subs, k);
          return Err(rblab.error);
        }
        assert rblab.value == spread[k];
        ConcatPrefixSnoc(subs, k);
        ConcatPrefixSnoc(spread, k);
        outTokens := outTokens + rbtok;
        outLabels := outLabels + rblab.value;
      }
      assert subs[..|tokens|] == subs && spread[..|tokens|] == spread;
      return Ok(Tokenized(outTokens, Some(outLabels)));
    }

    /** The first loop of `_build_batch`: tokenize each record, tracking the longest id list. */
    method TokenizeBatch(batchRaw: seq<Record>)
      returns (r: Result<seq<Tokenized>>, tokensArr: seq<seq<int>>, inputDataRaw: seq<Item>, maxLength: nat)
      ensures r == TokenizeAll(encode, batchRaw)
      ensures r.Ok? ==> tokensArr == IdLists(r.value) && maxLength == Longest(tokensArr)
      ensures r.Ok? ==> inputDataRaw == ItemsOf(idToToken, batchRaw, r.value)
    {
      tokensArr, inputDataRaw, maxLength := [], [], 0;
      var ts: seq<Tokenized> := [];
      for k := 0 to |batchRaw|
        invariant TokenizeAll(encode, batchRaw[..k]) == Ok(ts)
        invariant tokensArr == IdLists(ts)
        invariant maxLength == Longest(tokensArr)
        invariant |inputDataRaw| == k
        invariant ItemsOf(idToToken, batchRaw[..k], ts) == inputDataRaw
      {
        var out := TokenizeText(batchRaw[k]);
        if out.Err? {
          MapResultFail(Tokenizer(encode), batchRaw, k, out.error);
          return Err(out.error), tokensArr, inputDataRaw, maxLength;
        }
        MapResultStep(Tokenizer(encode), batchRaw, k, ts, out.value);
        assert IdLists(ts + [out.value]) == IdLists(ts) + [out.value.ids];
        LongestAppend(tokensArr, out.value.ids);
        tokensArr := tokensArr + [out.value.ids];
        if maxLength < |out.value.ids| {
          maxLength := |out.value.ids|;
        }
        inputDataRaw := inputDataRaw + [Item(batchRaw[k], IdsToTokens(idToToken, out.value.ids), out.value.labels)];
        ItemsAppend(idToToken, batchRaw, k, ts, out.value);
        ts := ts + [out.value];
      }
      assert batchRaw[..|batchRaw|] == batchRaw;
      r := Ok(ts);
    }

    /**
     * `_build_batch`: tokenize every record, cap the longest length at
     * 500, truncate each record's subword strings and labels, pad the rows,
     * build the padding mask, and store the batch.
     */
    method BuildBatch(batchRaw: seq<Record>) returns (r: Result<BatchData>)
      modifies this
      ensures r == BatchOf(SentinelsOf(plm), encode, idToToken, batchRaw)
      ensures batchData == if r.Ok? then Some(r.value) else old(batchData)
    {
      var s := SentinelsOf(plm);
      var ts, tokensArr, inputDataRaw, maxLength := TokenizeBatch(batchRaw);
      if ts.Err? {
        return Err(ts.error);
      }
      maxLength := Min(MaxLengthCap, maxLength);
      inputDataRaw := TruncateItems(inputDataRaw, maxLength);
      var tokensOut := PadRows(tokensArr, maxLength, s);
      var padMask := BuildPadMask(tokensOut, s.pad);
      var b := BatchData(maxLength, tokensOut, padMask, inputDataRaw);
      forall k | 0 <= k < |batchRaw| {
        ItemsAt(idToToken, batchRaw, ts.value, k);
      }
      assert b.inputDataRaw == TruncatedItems(idToToken, batchRaw, ts.value, maxLength);
      assert b.inputIds == PaddedRows(ts.value, maxLength, s);
      batchData := Some(b);
      r := Ok(b);
    }
  }
}
