/**
 * What the two named-entity recognizers share
 * (exciton/nlp/named_entity_recognition/xlm_hrl.py and bert.py): the
 * decoding of the tagger's ranked label indices into one label and a few
 * candidates per subword, the entity spans of `clean_result`, and
 * `predict`, which runs the recognizer over consecutive chunks of at most
 * 20 items. The two recognizers differ only in how an input item becomes
 * the record `_build_batch` reads; that step is the parameter `prep`.
 *
 * The network with its softmax and top-k is the parameter `tagger`: for a
 * batch of id rows and its padding mask it gives, per record and per
 * position, the label indices by falling probability with their
 * probabilities.
 */
module NerPipeline {
  import opened Text
  import opened Padding
  import opened NerUtils
  import opened TaggingModel

  /** One label index of the top-k with its probability. */
  datatype Ranked = Ranked(index: nat, prob: real)

  /** Per record, per position, the ranked labels. */
  type Ranking = seq<seq<seq<Ranked>>>

  /**
   * What the recognizer is built from: the tokenizer (`encode`,
   * `idToToken`), which sentinel ids it uses, the network, and the label
   * names read from labels.json.
   */
  datatype NerConfig = NerConfig(
    plm: Plm,
    encode: string -> seq<int>,
    idToToken: int -> string,
    tagger: (seq<seq<int>>, seq<seq<int>>) -> Ranking,
    names: seq<string>)

  /** Items per chunk in `predict`. */
  const MaxBatchSize: nat := 20

  /** The default `top_n`. */
  const DefaultTopN: nat := 5

  // ---------------------------------------------------------------------
  // Decoding one record

  /** `self.labels[lb]`. */
  function LabelName(names: seq<string>, lb: nat): Result<string> {
    if lb < |names| then Ok(names[lb]) else Err(IndexError)
  }

  /** `self.labels[lb[0]]`: the name of the most probable label of a position. */
  function Top1Of(names: seq<string>, arr: seq<Ranked>): Result<string> {
    if arr == [] then Err(IndexError) else LabelName(names, arr[0].index)
  }

  function Top1(names: seq<string>): seq<Ranked> -> Result<string> {
    arr => Top1Of(names, arr)
  }

  function Namer(names: seq<string>): Ranked -> Result<string> {
    (x: Ranked) => LabelName(names, x.index)
  }

  /** The names of a position's first `top_n` labels. */
  function CandOf(names: seq<string>, topN: nat, arr: seq<Ranked>): Result<seq<string>> {
    MapResult(Namer(names), Take(arr, topN))
  }

  function Cands(names: seq<string>, topN: nat): seq<Ranked> -> Result<seq<string>> {
    arr => CandOf(names, topN, arr)
  }

  function Probs(arr: seq<Ranked>): (r: seq<real>)
    ensures |r| == |arr|
  {
    seq(|arr|, i requires 0 <= i < |arr| => arr[i].prob)
  }

  /** `[arr[:top_n] for arr in prob[k]]`. */
  function CandProbs(topN: nat, row: seq<seq<Ranked>>): (r: seq<seq<real>>)
    ensures |r| == |row|
  {
    seq(|row|, j requires 0 <= j < |row| => Probs(Take(row[j], topN)))
  }

  /**
   * What the decoding loop writes into a record ("labels", "cand_labels",
   * "cand_prob") and what `clean_result` returns for it.
   */
  datatype Decoded = Decoded(
    labels: seq<string>,
    candLabels: seq<seq<string>>,
    candProb: seq<seq<real>>,
    result: Cleaned)

  /**
   * One pass of the decoding loop: the best label of every position, the
   * candidates of every position, both without the start position and cut
   * to the record's subwords; then `clean_result` with the word-start
   * marker U+2581.
   */
  function DecodeRecordOf(names: seq<string>, topN: nat, itm: Item, row: seq<seq<Ranked>>): Result<Decoded> {
    var n := |itm.etokens|;
    match MapResult(Top1(names), row)
    case Err(e) => Err(e)
    case Ok(lname) =>
      match MapResult(Cands(names, topN), row)
      case Err(e) => Err(e)
      case Ok(lcand) =>
        var labels := Take(Tail(lname), n);
        if itm.record.text.None? then Err(KeyError)
        else
          match CleanResultOf(itm.record.text.value, itm.etokens, labels, WordStartMarker)
          case Err(e) => Err(e)
          case Ok(res) => Ok(Decoded(labels, Take(Tail(lcand), n), Take(Tail(CandProbs(topN, row)), n), res))
  }

  /** Every position has a most probable label, and it names a label. */
  predicate Top1Valid(names: seq<string>, row: seq<seq<Ranked>>) {
    forall j :: 0 <= j < |row| ==> row[j] != [] && row[j][0].index < |names|
  }

  /** Every one of a position's first `top_n` labels names a label. */
  predicate CandValid(names: seq<string>, topN: nat, arr: seq<Ranked>) {
    forall i :: 0 <= i < |arr| && i < topN ==> arr[i].index < |names|
  }

  predicate CandsValid(names: seq<string>, topN: nat, row: seq<seq<Ranked>>) {
    forall j :: 0 <= j < |row| ==> CandValid(names, topN, row[j])
  }

  /** A position's candidates: the names of its first `top_n` labels, or IndexError for one that names no label. */
  lemma CandOfMeaning(names: seq<string>, topN: nat, arr: seq<Ranked>)
    ensures CandOf(names, topN, arr).Ok? <==> CandValid(names, topN, arr)
    ensures CandOf(names, topN, arr).Err? ==> CandOf(names, topN, arr).error == IndexError
    ensures CandOf(names, topN, arr).Ok? ==>
      && |CandOf(names, topN, arr).value| == Min(topN, |arr|)
      && forall i :: 0 <= i < Min(topN, |arr|) ==> arr[i].index < |names| && CandOf(names, topN, arr).value[i] == names[arr[i].index]
  {
    var t := Take(arr, topN);
    MapResultSpec(Namer(names), t);
    if !CandValid(names, topN, arr) {
      var i :| 0 <= i < |arr| && i < topN && arr[i].index >= |names|;
      assert t[i] == arr[i];
    }
  }

  lemma CandsMeaning(names: seq<string>, topN: nat, row: seq<seq<Ranked>>)
    ensures MapResult(Cands(names, topN), row).Ok? <==> CandsValid(names, topN, row)
    ensures MapResult(Cands(names, topN), row).Err? ==> MapResult(Cands(names, topN), row).error == IndexError
    ensures MapResult(Cands(names, topN), row).Ok? ==>
      forall j :: 0 <= j < |row| ==> CandOf(names, topN, row[j]) == Ok(MapResult(Cands(names, topN), row).value[j])
  {
    MapResultSpec(Cands(names, topN), row);
    forall j | 0 <= j < |row| ensures CandOf(names, topN, row[j]).Ok? <==> CandValid(names, topN, row[j]) {
      CandOfMeaning(names, topN, row[j]);
    }
    if MapResult(Cands(names, topN), row).Err? {
      var j :| 0 <= j < |row| && Cands(names, topN)(row[j]) == Err(MapResult(Cands(names, topN), row).error);
      CandOfMeaning(names, topN, row[j]);
    }
  }

  /**
   * A record decodes exactly when every position's best label and first
   * `top_n` labels are names, the record has a text, and the tagger gave
   * a position for each subword after the start position. Otherwise the
   * exception is IndexError for a bad index, KeyError for a missing text,
   * and AssertionError for too few positions.
   */
  lemma DecodeRecordErrors(names: seq<string>, topN: nat, itm: Item, row: seq<seq<Ranked>>)
    ensures var r := DecodeRecordOf(names, topN, itm, row);
      r.Ok? <==>
        Top1Valid(names, row) && CandsValid(names, topN, row) && itm.record.text.Some? && |itm.etokens| <= |Tail(row)|
    ensures var r := DecodeRecordOf(names, topN, itm, row);
      r.Err? ==>
        r.error == if !(Top1Valid(names, row) && CandsValid(names, topN, row)) then IndexError
                   else if itm.record.text.None? then KeyError
                   else AssertionError
  {
    MapResultSpec(Top1(names), row);
    CandsMeaning(names, topN, row);
  }

  /** A decoded record, built from the best labels `lname` and candidates `lcand` of every position. */
  lemma DecodeValue(names: seq<string>, topN: nat, itm: Item, row: seq<seq<Ranked>>)
    returns (lname: seq<string>, lcand: seq<seq<string>>)
    requires DecodeRecordOf(names, topN, itm, row).Ok?
    ensures MapResult(Top1(names), row) == Ok(lname) && MapResult(Cands(names, topN), row) == Ok(lcand)
    ensures itm.record.text.Some?
    ensures var n := |itm.etokens|;
      var labels := Take(Tail(lname), n);
      && CleanResultOf(itm.record.text.value, itm.etokens, labels, WordStartMarker).Ok?
      && DecodeRecordOf(names, topN, itm, row).value ==
           Decoded(labels, Take(Tail(lcand), n), Take(Tail(CandProbs(topN, row)), n),
                   CleanResultOf(itm.record.text.value, itm.etokens, labels, WordStartMarker).value)
  {
    lname := MapResult(Top1(names), row).value;
    lcand := MapResult(Cands(names, topN), row).value;
  }

  /** `clean_result` keeps the record's text and its subword strings. */
  lemma DecodeRecordResult(names: seq<string>, topN: nat, itm: Item, row: seq<seq<Ranked>>)
    requires DecodeRecordOf(names, topN, itm, row).Ok?
    ensures itm.record.text.Some?
    ensures DecodeRecordOf(names, topN, itm, row).value.result.text == itm.record.text.value
    ensures DecodeRecordOf(names, topN, itm, row).value.result.tokens == itm.etokens
  {
    var lname, lcand := DecodeValue(names, topN, itm, row);
  }

  /**
   * A decoded record: label `j` is the name of the best label at position
   * `j + 1`, and the result is `clean_result` of the record's text,
   * subwords and labels.
   */
  lemma DecodeRecordLabels(names: seq<string>, topN: nat, itm: Item, row: seq<seq<Ranked>>, j: nat)
    requires DecodeRecordOf(names, topN, itm, row).Ok? && j < |itm.etokens|
    ensures itm.record.text.Some? && j + 1 < |row| && row[j + 1] != [] && row[j + 1][0].index < |names|
    ensures var d := DecodeRecordOf(names, topN, itm, row).value;
      && |d.labels| == |itm.etokens|
      && d.labels[j] == names[row[j + 1][0].index]
      && CleanResultOf(itm.record.text.value, itm.etokens, d.labels, WordStartMarker) == Ok(d.result)
  {
    var lname, lcand := DecodeValue(names, topN, itm, row);
    DecodeRecordErrors(names, topN, itm, row);
    MapResultSpec(Top1(names), row);
    assert Top1(names)(row[j + 1]) == Ok(lname[j + 1]);
  }

  /** Label `j` is the name of the most probable label at position `j + 1`, for every label. */
  predicate BestLabels(names: seq<string>, row: seq<seq<Ranked>>, labels: seq<string>) {
    forall j :: 0 <= j < |labels| ==>
      j + 1 < |row| && row[j + 1] != [] && row[j + 1][0].index < |names| && labels[j] == names[row[j + 1][0].index]
  }

  /** A decoded record's labels are the best labels of its subwords, and its result is `clean_result` of them. */
  lemma DecodeRecordBest(names: seq<string>, topN: nat, itm: Item, row: seq<seq<Ranked>>)
    requires DecodeRecordOf(names, topN, itm, row).Ok?
    ensures itm.record.text.Some?
    ensures var d := DecodeRecordOf(names, topN, itm, row).value;
      && |d.labels| == |itm.etokens|
      && BestLabels(names, row, d.labels)
      && CleanResultOf(itm.record.text.value, itm.etokens, d.labels, WordStartMarker) == Ok(d.result)
  {
    var lname, lcand := DecodeValue(names, topN, itm, row);
    DecodeRecordErrors(names, topN, itm, row);
    MapResultSpec(Top1(names), row);
    var d := DecodeRecordOf(names, topN, itm, row).value;
    forall j | 0 <= j < |d.labels|
      ensures j + 1 < |row| && row[j + 1] != [] && row[j + 1][0].index < |names| && d.labels[j] == names[row[j + 1][0].index]
    {
      DecodeRecordLabels(names, topN, itm, row, j);
    }
  }

  /**
   * Candidate list `j` names position `j + 1`'s first `top_n` labels, so it
   * starts with label `j`, and holds their probabilities.
   */
  lemma DecodeRecordCands(names: seq<string>, topN: nat, itm: Item, row: seq<seq<Ranked>>, j: nat)
    requires DecodeRecordOf(names, topN, itm, row).Ok? && j < |itm.etokens|
    ensures j + 1 < |row| && row[j + 1] != [] && row[j + 1][0].index < |names|
    ensures var d := DecodeRecordOf(names, topN, itm, row).value;
      && |d.candLabels| == |itm.etokens| && |d.candProb| == |itm.etokens|
      && |d.candLabels[j]| == Min(topN, |row[j + 1]|) == |d.candProb[j]|
      && (forall i :: 0 <= i < |d.candLabels[j]| ==>
            row[j + 1][i].index < |names| && d.candLabels[j][i] == names[row[j + 1][i].index] &&
            d.candProb[j][i] == row[j + 1][i].prob)
      && (topN > 0 ==> d.candLabels[j][0] == d.labels[j])
  {
    DecodeRecordLabels(names, topN, itm, row, j);
    var lname, lcand := DecodeValue(names, topN, itm, row);
    var d := DecodeRecordOf(names, topN, itm, row).value;
    CandsMeaning(names, topN, row);
    var arr := row[j + 1];
    CandOfMeaning(names, topN, arr);
    TakeTailAt(lcand, |itm.etokens|, j);
    TakeTailAt(CandProbs(topN, row), |itm.etokens|, j);
    assert d.candLabels[j] == lcand[j + 1] == CandOf(names, topN, arr).value;
    assert d.candProb[j] == CandProbs(topN, row)[j + 1] == Probs(Take(arr, topN));
  }

  // ---------------------------------------------------------------------
  // Decoding the batch

  /** Record `k` decoded from `labels[k]`; IndexError when the tagger gave fewer rows. */
  function DecodeAt(names: seq<string>, topN: nat, ranking: Ranking, k: nat, itm: Item): Result<Decoded> {
    if k < |ranking| then DecodeRecordOf(names, topN, itm, ranking[k]) else Err(IndexError)
  }

  function Decoder(names: seq<string>, topN: nat, ranking: Ranking): ((nat, Item)) -> Result<Decoded> {
    (p: (nat, Item)) => DecodeAt(names, topN, ranking, p.0, p.1)
  }

  /** The decoding loop of `_get_raw_results` over the stored records. */
  function DecodeAll(names: seq<string>, topN: nat, ranking: Ranking, items: seq<Item>): Result<seq<Decoded>> {
    MapResult(Decoder(names, topN, ranking), Enumerate(items))
  }

  function Results(ds: seq<Decoded>): (r: seq<Cleaned>)
    ensures |r| == |ds|
  {
    seq(|ds|, k requires 0 <= k < |ds| => ds[k].result)
  }

  // ---------------------------------------------------------------------
  // The batch and `_get_raw_results`

  /** The batch `_build_batch` stores for the prepared records, or the exception of the first item that fails to prepare. */
  function BatchFor<A>(c: NerConfig, prep: A -> Result<Record>, input: seq<A>): Result<BatchData> {
    match MapResult(prep, input)
    case Err(e) => Err(e)
    case Ok(recs) => BatchOf(SentinelsOf(c.plm), c.encode, c.idToToken, recs)
  }

  /** `_get_raw_results`: one `clean_result` output per item, in order, or the first exception. */
  function RawResultsOf<A>(c: NerConfig, prep: A -> Result<Record>, topN: nat, input: seq<A>): Result<seq<Cleaned>> {
    match BatchFor(c, prep, input)
    case Err(e) => Err(e)
    case Ok(b) =>
      match DecodeAll(c.names, topN, c.tagger(b.inputIds, b.padMask), b.inputDataRaw)
      case Err(e) => Err(e)
      case Ok(ds) => Ok(Results(ds))
  }

  /** An item prepared and tokenized: what it contributes to the batch, or its exception. */
  function PrepareOf<A>(c: NerConfig, prep: A -> Result<Record>, x: A): Result<Tokenized> {
    match prep(x)
    case Err(e) => Err(e)
    case Ok(rec) => TokenizeOf(c.encode, rec)
  }

  function Preparer<A>(c: NerConfig, prep: A -> Result<Record>): A -> Result<Tokenized> {
    x => PrepareOf(c, prep, x)
  }

  /** The text `clean_result` reads from a prepared item. */
  function TextOf<A>(prep: A -> Result<Record>, x: A): Result<string> {
    match prep(x)
    case Err(e) => Err(e)
    case Ok(rec) => if rec.text.None? then Err(KeyError) else Ok(rec.text.value)
  }

  function Texter<A>(prep: A -> Result<Record>): A -> Result<string> {
    x => TextOf(prep, x)
  }

  /**
   * The batch is built exactly when every item prepares and tokenizes.
   * Every item is prepared before any is tokenized, so a failing batch
   * raises the first preparation's exception when there is one, and the
   * first tokenization's otherwise.
   */
  lemma BatchForErrors<A>(c: NerConfig, prep: A -> Result<Record>, input: seq<A>)
    ensures BatchFor(c, prep, input).Ok? <==> MapResult(Preparer(c, prep), input).Ok?
    ensures MapResult(prep, input).Err? ==> BatchFor(c, prep, input) == Err(MapResult(prep, input).error)
    ensures MapResult(prep, input).Ok? && BatchFor(c, prep, input).Err? ==>
      BatchFor(c, prep, input) == Err(MapResult(Preparer(c, prep), input).error)
  {
    MapResultSpec(prep, input);
    MapResultSpec(Preparer(c, prep), input);
    if MapResult(prep, input).Ok? {
      var recs := MapResult(prep, input).value;
      BatchErrors(SentinelsOf(c.plm), c.encode, c.idToToken, recs);
      forall k | 0 <= k < |input| ensures Preparer(c, prep)(input[k]) == TokenizeOf(c.encode, recs[k]) {
      }
      if BatchFor(c, prep, input).Err? {
        var k :| 0 <= k < |recs| && TokenizeOf(c.encode, recs[k]) == Err(BatchFor(c, prep, input).error) &&
          (forall i :: 0 <= i < k ==> TokenizeOf(c.encode, recs[i]).Ok?);
        MapResultFirst(Preparer(c, prep), input, k, BatchFor(c, prep, input).error);
      }
    } else {
      var k :| 0 <= k < |input| && prep(input[k]) == Err(MapResult(prep, input).error) &&
        (forall i :: 0 <= i < k ==> prep(input[i]).Ok?);
      assert Preparer(c, prep)(input[k]) == Err(MapResult(prep, input).error);
    }
  }

  /** A row of positions whose ranked labels are non-empty and all name labels. */
  predicate RowFits(names: seq<string>, row: seq<seq<Ranked>>) {
    forall j :: 0 <= j < |row| ==> row[j] != [] && forall i :: 0 <= i < |row[j]| ==> row[j][i].index < |names|
  }

  /** What the top-k over all labels gives: one row per id row, one position per id. */
  predicate RankingFits(names: seq<string>, ranking: Ranking, ids: seq<seq<int>>) {
    && |ranking| == |ids|
    && forall k :: 0 <= k < |ids| ==> |ranking[k]| == |ids[k]| && RowFits(names, ranking[k])
  }

  ghost predicate TaggerFits(c: NerConfig) {
    forall ids, mask :: RankingFits(c.names, c.tagger(ids, mask), ids)
  }

  /** A successful `_get_raw_results`, from the prepared records `recs`, the batch `b` and the decoded records `ds`. */
  lemma RawResultsValue<A>(c: NerConfig, prep: A -> Result<Record>, topN: nat, input: seq<A>)
    returns (recs: seq<Record>, b: BatchData, ds: seq<Decoded>)
    requires RawResultsOf(c, prep, topN, input).Ok?
    ensures MapResult(prep, input) == Ok(recs)
    ensures BatchFor(c, prep, input) == Ok(b) && BatchOf(SentinelsOf(c.plm), c.encode, c.idToToken, recs) == Ok(b)
    ensures DecodeAll(c.names, topN, c.tagger(b.inputIds, b.padMask), b.inputDataRaw) == Ok(ds)
    ensures RawResultsOf(c, prep, topN, input) == Ok(Results(ds))
  {
    recs := MapResult(prep, input).value;
    b := BatchFor(c, prep, input).value;
    ds := DecodeAll(c.names, topN, c.tagger(b.inputIds, b.padMask), b.inputDataRaw).value;
  }

  /**
   * Each result is `clean_result` of the prepared record's text and its
   * subword strings cut to the batch's `max_length`, in input order.
   */
  lemma RawResultsValues<A>(c: NerConfig, prep: A -> Result<Record>, topN: nat, input: seq<A>, k: nat)
    requires RawResultsOf(c, prep, topN, input).Ok? && k < |input|
    ensures BatchFor(c, prep, input).Ok? && PrepareOf(c, prep, input[k]).Ok? && TextOf(prep, input[k]).Ok?
    ensures var r := RawResultsOf(c, prep, topN, input).value;
      var b := BatchFor(c, prep, input).value;
      && |r| == |input|
      && r[k].text == TextOf(prep, input[k]).value
      && r[k].tokens == Take(IdsToTokens(c.idToToken, PrepareOf(c, prep, input[k]).value.ids), b.maxLength)
  {
    var recs, b, ds := RawResultsValue(c, prep, topN, input);
    MapResultSpec(prep, input);
    BatchItems(SentinelsOf(c.plm), c.encode, c.idToToken, recs, k);
    var ranking := c.tagger(b.inputIds, b.padMask);
    var items := Enumerate(b.inputDataRaw);
    MapResultSpec(Decoder(c.names, topN, ranking), items);
    assert Decoder(c.names, topN, ranking)(items[k]) == Ok(ds[k]);
    assert k < |ranking| && DecodeRecordOf(c.names, topN, b.inputDataRaw[k], ranking[k]) == Ok(ds[k]);
    DecodeRecordResult(c.names, topN, b.inputDataRaw[k], ranking[k]);
  }

  /**
   * Each result is `clean_result` of its text, its subwords and labels that
   * name the most probable label the tagger ranks at each of the item's
   * subword positions (position `j + 1` for subword `j`, after the start
   * token).
   */
  lemma RawResultsLabels<A>(c: NerConfig, prep: A -> Result<Record>, topN: nat, input: seq<A>, k: nat)
    requires RawResultsOf(c, prep, topN, input).Ok? && k < |input|
    ensures BatchFor(c, prep, input).Ok?
    ensures var r := RawResultsOf(c, prep, topN, input).value;
      var b := BatchFor(c, prep, input).value;
      var ranking := c.tagger(b.inputIds, b.padMask);
      && k < |r| && k < |ranking|
      && exists labels :: |labels| == |r[k].tokens| && BestLabels(c.names, ranking[k], labels) &&
           CleanResultOf(r[k].text, r[k].tokens, labels, WordStartMarker) == Ok(r[k])
  {
    var recs, b, ds := RawResultsValue(c, prep, topN, input);
    var ranking := c.tagger(b.inputIds, b.padMask);
    var items := Enumerate(b.inputDataRaw);
    MapResultSpec(Decoder(c.names, topN, ranking), items);
    assert Decoder(c.names, topN, ranking)(items[k]) == Ok(ds[k]);
    var itm := b.inputDataRaw[k];
    assert k < |ranking| && DecodeRecordOf(c.names, topN, itm, ranking[k]) == Ok(ds[k]);
    DecodeRecordResult(c.names, topN, itm, ranking[k]);
    DecodeRecordBest(c.names, topN, itm, ranking[k]);
    var r := Results(ds);
    assert r[k] == ds[k].result;
    assert |ds[k].labels| == |r[k].tokens| && BestLabels(c.names, ranking[k], ds[k].labels);
  }

  /** With a ranking that fits the batch, record `k` decodes exactly when it has a text. */
  lemma DecodeFits(names: seq<string>, topN: nat, ranking: Ranking, s: Sentinels, encode: string -> seq<int>,
                   idToToken: int -> string, recs: seq<Record>, k: nat)
    requires BatchOf(s, encode, idToToken, recs).Ok? && k < |recs|
    requires RankingFits(names, ranking, BatchOf(s, encode, idToToken, recs).value.inputIds)
    ensures var items := Enumerate(BatchOf(s, encode, idToToken, recs).value.inputDataRaw);
      k < |items| && (Decoder(names, topN, ranking)(items[k]).Ok? <==> recs[k].text.Some?)
  {
    var b := BatchOf(s, encode, idToToken, recs).value;
    BatchShape(s, encode, idToToken, recs, k);
    DecodeRecordErrors(names, topN, b.inputDataRaw[k], ranking[k]);
  }

  /**
   * With a tagger that fits the batch, `_get_raw_results` succeeds exactly
   * when the batch is built and every prepared record has a text (word
   * mode does not need one, `clean_result` does).
   */
  lemma RawResultsOk<A>(c: NerConfig, prep: A -> Result<Record>, topN: nat, input: seq<A>)
    requires TaggerFits(c)
    ensures RawResultsOf(c, prep, topN, input).Ok? <==>
      BatchFor(c, prep, input).Ok? && MapResult(Texter(prep), input).Ok?
  {
    if BatchFor(c, prep, input).Ok? {
      var recs := MapResult(prep, input).value;
      var b := BatchFor(c, prep, input).value;
      var ranking := c.tagger(b.inputIds, b.padMask);
      var items := Enumerate(b.inputDataRaw);
      assert RankingFits(c.names, ranking, b.inputIds);
      var ts := BatchValue(SentinelsOf(c.plm), c.encode, c.idToToken, recs);
      assert |items| == |recs|;
      forall k | 0 <= k < |items| ensures Decoder(c.names, topN, ranking)(items[k]).Ok? <==> recs[k].text.Some? {
        DecodeFits(c.names, topN, ranking, SentinelsOf(c.plm), c.encode, c.idToToken, recs, k);
      }
      MapResultSpec(Decoder(c.names, topN, ranking), items);
      TextsPresent(prep, input);
    }
  }

  /** The texts are all there exactly when every prepared record has one. */
  lemma TextsPresent<A>(prep: A -> Result<Record>, input: seq<A>)
    requires MapResult(prep, input).Ok?
    ensures |MapResult(prep, input).value| == |input|
    ensures MapResult(Texter(prep), input).Ok? <==>
      forall k :: 0 <= k < |input| ==> MapResult(prep, input).value[k].text.Some?
  {
    MapResultSpec(prep, input);
    MapResultSpec(Texter(prep), input);
  }

  // ---------------------------------------------------------------------
  // predict

  /** What `predict` keeps of a result. */
  datatype Prediction = Prediction(text: string, namedEntities: seq<Entity>)

  function Predictions(cs: seq<Cleaned>): (ps: seq<Prediction>)
    ensures |ps| == |cs|
  {
    seq(|cs|, k requires 0 <= k < |cs| => Prediction(cs[k].text, cs[k].namedEntities))
  }

  function ChunkPredictionsOf<A>(c: NerConfig, prep: A -> Result<Record>, chunk: seq<A>): Result<seq<Prediction>> {
    match RawResultsOf(c, prep, DefaultTopN, chunk)
    case Err(e) => Err(e)
    case Ok(cs) => Ok(Predictions(cs))
  }

  function ChunkRunner<A>(c: NerConfig, prep: A -> Result<Record>): seq<A> -> Result<seq<Prediction>> {
    chunk => ChunkPredictionsOf(c, prep, chunk)
  }

  /** `predict`: the items in chunks of `min(20, n)`, the chunks' predictions one after the other. */
  function PredictOf<A>(c: NerConfig, prep: A -> Result<Record>, input: seq<A>): Result<seq<Prediction>> {
    var bs := Min(MaxBatchSize, |input|);
    if bs == 0 then Ok([])
    else
      match MapResult(ChunkRunner(c, prep), Chunks(input, bs))
      case Err(e) => Err(e)
      case Ok(outs) => Ok(Concat(outs))
  }

  function PredictionTexts(ps: seq<Prediction>): (r: seq<string>)
    ensures |r| == |ps|
  {
    seq(|ps|, k requires 0 <= k < |ps| => ps[k].text)
  }

  lemma PredictionTextsJoin(a: seq<Prediction>, b: seq<Prediction>)
    ensures PredictionTexts(a + b) == PredictionTexts(a) + PredictionTexts(b)
  {
  }

  /** A chunk's predictions carry its items' texts, in order. */
  lemma ChunkTexts<A>(c: NerConfig, prep: A -> Result<Record>, chunk: seq<A>)
    requires ChunkPredictionsOf(c, prep, chunk).Ok?
    ensures MapResult(Texter(prep), chunk) == Ok(PredictionTexts(ChunkPredictionsOf(c, prep, chunk).value))
  {
    var ps := ChunkPredictionsOf(c, prep, chunk).value;
    forall k | 0 <= k < |chunk| ensures Texter(prep)(chunk[k]) == Ok(PredictionTexts(ps)[k]) {
      RawResultsValues(c, prep, DefaultTopN, chunk, k);
    }
    MapResultSpec(Texter(prep), chunk);
    assert MapResult(Texter(prep), chunk).value == PredictionTexts(ps);
  }

  /** With a fitting tagger, a chunk whose items all prepare, tokenize and have a text succeeds. */
  lemma ChunkSucceeds<A>(c: NerConfig, prep: A -> Result<Record>, chunk: seq<A>)
    requires TaggerFits(c) && MapResult(Preparer(c, prep), chunk).Ok? && MapResult(Texter(prep), chunk).Ok?
    ensures ChunkPredictionsOf(c, prep, chunk).Ok?
  {
    BatchForErrors(c, prep, chunk);
    RawResultsOk(c, prep, DefaultTopN, chunk);
  }

  /** Over a list of chunks: the predictions' texts are the texts of the flattened chunks. */
  lemma {:induction false} ChunksTexts<A>(c: NerConfig, prep: A -> Result<Record>, chunks: seq<seq<A>>)
    ensures MapResult(ChunkRunner(c, prep), chunks).Ok? ==>
      MapResult(Texter(prep), Concat(chunks)) == Ok(PredictionTexts(Concat(MapResult(ChunkRunner(c, prep), chunks).value)))
    ensures MapResult(ChunkRunner(c, prep), chunks).Ok? ==> MapResult(Preparer(c, prep), Concat(chunks)).Ok?
    ensures TaggerFits(c) && MapResult(Preparer(c, prep), Concat(chunks)).Ok? && MapResult(Texter(prep), Concat(chunks)).Ok? ==>
      MapResult(ChunkRunner(c, prep), chunks).Ok?
    decreases |chunks|
  {
    if chunks != [] {
      var init, last := chunks[..|chunks| - 1], chunks[|chunks| - 1];
      ChunksTexts(c, prep, init);
      if ChunkPredictionsOf(c, prep, last).Ok? {
        ChunkTexts(c, prep, last);
        BatchForErrors(c, prep, last);
      }
      MapResultJoin(Preparer(c, prep), Concat(init), last);
      if TaggerFits(c) && MapResult(Preparer(c, prep), last).Ok? && MapResult(Texter(prep), last).Ok? {
        ChunkSucceeds(c, prep, last);
      }
      MapResultJoin(Texter(prep), Concat(init), last);
      assert Concat(chunks) == Concat(init) + last;
      var r := MapResult(ChunkRunner(c, prep), chunks);
      if r.Ok? {
        var outs := MapResult(ChunkRunner(c, prep), init).value;
        var ps := ChunkPredictionsOf(c, prep, last).value;
        assert r.value == outs + [ps];
        ConcatAppend(outs, ps);
        PredictionTextsJoin(Concat(outs), ps);
      }
    }
  }

  /**
   * `predict` returns one prediction per item, in order, carrying the
   * item's text; with a tagger that fits its batches it fails exactly when
   * some item does not prepare, does not tokenize or has no text; and it
   * gives nothing for no items.
   */
  lemma PredictMeaning<A>(c: NerConfig, prep: A -> Result<Record>, input: seq<A>)
    ensures input == [] ==> PredictOf(c, prep, input) == Ok([])
    ensures PredictOf(c, prep, input).Ok? ==>
      MapResult(Texter(prep), input) == Ok(PredictionTexts(PredictOf(c, prep, input).value))
    ensures TaggerFits(c) ==>
      (PredictOf(c, prep, input).Ok? <==> MapResult(Preparer(c, prep), input).Ok? && MapResult(Texter(prep), input).Ok?)
  {
    var bs := Min(MaxBatchSize, |input|);
    if bs > 0 {
      ChunksConcat(input, bs);
      ChunksTexts(c, prep, Chunks(input, bs));
    }
  }

  // ---------------------------------------------------------------------
  // The loops

  /** The nested candidate loop: for each position, the names of its first `top_n` labels. */
  method CandidateLabels(names: seq<string>, topN: nat, row: seq<seq<Ranked>>) returns (r: Result<seq<seq<string>>>)
    ensures r == MapResult(Cands(names, topN), row)
  {
    var lcand: seq<seq<string>> := [];
    for j := 0 to |row|
      invariant MapResult(Cands(names, topN), row[..j]) == Ok(lcand)
    {
      var arr := Take(row[j], topN);
      var out: seq<string> := [];
      for i := 0 to |arr|
        invariant MapResult(Namer(names), arr[..i]) == Ok(out)
      {
        var lb := arr[i].index;
        if lb >= |names| {
          MapResultFail(Namer(names), arr, i, IndexError);
          assert Cands(names, topN)(row[j]) == Err(IndexError);
          MapResultFail(Cands(names, topN), row, j, IndexError);
          return Err(IndexError);
        }
        MapResultStep(Namer(names), arr, i, out, names[lb]);
        out := out + [names[lb]];
      }
      assert arr[..|arr|] == arr;
      MapResultStep(Cands(names, topN), row, j, lcand, out);
      lcand := lcand + [out];
    }
    assert row[..|row|] == row;
    r := Ok(lcand);
  }

  /** One pass of the decoding loop: labels, candidates, probabilities, then `clean_result`. */
  method DecodeRecord(names: seq<string>, topN: nat, itm: Item, row: seq<seq<Ranked>>) returns (r: Result<Decoded>)
    ensures r == DecodeRecordOf(names, topN, itm, row)
  {
    var lname := MapResult(Top1(names), row);
    if lname.Err? {
      return Err(lname.error);
    }
    var n := |itm.etokens|;
    var labels := Take(Tail(lname.value), n);
    var lcand := CandidateLabels(names, topN, row);
    if lcand.Err? {
      return Err(lcand.error);
    }
    var candLabels := Take(Tail(lcand.value), n);
    var candProb := Take(Tail(CandProbs(topN, row)), n);
    if itm.record.text.None? {
      return Err(KeyError);
    }
    var res := CleanResult(itm.record.text.value, itm.etokens, labels, WordStartMarker);
    if res.Err? {
      return Err(res.error);
    }
    r := Ok(Decoded(labels, candLabels, candProb, res.value));
  }

  /** The decoding loop of `_get_raw_results`. */
  method DecodeBatch(names: seq<string>, topN: nat, ranking: Ranking, items: seq<Item>) returns (r: Result<seq<Decoded>>)
    ensures r == DecodeAll(names, topN, ranking, items)
  {
    var output: seq<Decoded> := [];
    ghost var pairs := Enumerate(items);
    for k := 0 to |items|
      invariant MapResult(Decoder(names, topN, ranking), pairs[..k]) == Ok(output)
    {
      assert pairs[k] == (k, items[k]);
      if k >= |ranking| {
        MapResultFail(Decoder(names, topN, ranking), pairs, k, IndexError);
        return Err(IndexError);
      }
      var d := DecodeRecord(names, topN, items[k], ranking[k]);
      if d.Err? {
        MapResultFail(Decoder(names, topN, ranking), pairs, k, d.error);
        return Err(d.error);
      }
      MapResultStep(Decoder(names, topN, ranking), pairs, k, output, d.value);
      output := output + [d.value];
    }
    assert pairs[..|items|] == pairs;
    r := Ok(output);
  }

  /** The inner loop of `predict`: the text and the entities of each result. */
  method KeepTextAndEntities(results: seq<Cleaned>) returns (preds: seq<Prediction>)
    ensures preds == Predictions(results)
  {
    preds := [];
    for i := 0 to |results|
      invariant preds == Predictions(results[..i])
    {
      var itm := results[i];
      preds := preds + [Prediction(itm.text, itm.namedEntities)];
    }
    assert results[..|results|] == results;
  }

}
