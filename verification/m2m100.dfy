/**
 * Batch translation (extools/nlp/translation/m2m100/service.py): `_batch`
 * tags every item with its `sent_id` and splits the list into batches of
 * 10; `predict` sends each batch's supported items to the translator,
 * gives every other item an empty target, and sorts the output by
 * `sent_id`.
 *
 * The items are dictionaries updated in place and the output holds
 * references to them, so an item's entry in the output shows the last
 * target written to it. The model keeps that: the state maps each
 * `sent_id` to the current content of its item, and the output is a list
 * of `sent_id`s read through that map once `predict` is done.
 *
 * The tokenizer and the translator are the parameters `translate` (a
 * request to its best hypothesis, as tokens) and `decode` (tokens back to
 * text).
 */
module M2M100 {
  import opened Text
  import opened EngineUtils

  /** An item: the text to translate (None when the value is not a string) and the two language codes. */
  datatype MtItem = MtItem(source: Option<string>, sourceLang: string, targetLang: string)

  /** An item with its `sent_id` and the `target` written to it. */
  datatype MtOut = MtOut(item: MtItem, sentId: nat, target: string)

  /** A sentence for the translator: the text with the model's source and target codes. */
  datatype Request = Request(text: string, srcCode: string, tgtCode: string)

  /** `lang_map` (a language code to the model's code), the translator and the detokenizer. */
  datatype Translator = Translator(
    langMap: map<string, string>,
    translate: Request -> seq<string>,
    decode: seq<string> -> string)

  /** The default size of `_batch`. */
  const BatchSize: int := 10

  // ---------------------------------------------------------------------
  // _batch

  /** The batches of `_batch`: every item with its index as `sent_id`, split as `create_batch` splits. */
  function MtBatchesOf(source: seq<MtItem>, bs: int): seq<seq<(nat, MtItem)>> {
    BatchesOf(Enumerate(source), bs)
  }

  /** `_batch`: the tagging and splitting loop. */
  method MtBatch(source: seq<MtItem>, batchSize: int) returns (output: seq<seq<(nat, MtItem)>>)
    ensures output == MtBatchesOf(source, batchSize)
  {
    ghost var tagged := Enumerate(source);
    output := [];
    var arr: seq<(nat, MtItem)> := [];
    ghost var full := 0;
    ghost var m := 0;
    for k := 0 to |source|
      invariant full + |arr| == k && arr == tagged[full..k]
      invariant batchSize <= 0 ==> full == 0 && output == []
      invariant batchSize > 0 ==>
        && |arr| < batchSize && full == m * batchSize
        && output == Chunks(tagged[..full], batchSize)
    {
      arr := arr + [(k, source[k])];
      if |arr| == batchSize {
        ChunksSnoc(tagged[..full], arr, batchSize, m);
        assert tagged[..full] + arr == tagged[..k + 1];
        output := output + [arr];
        arr := [];
        full, m := k + 1, m + 1;
      }
    }
    if |arr| > 0 {
      if batchSize > 0 {
        ChunksSnoc(tagged[..full], arr, batchSize, m);
        assert tagged[..full] + arr == tagged;
      } else {
        assert arr == tagged;
      }
      output := output + [arr];
    } else {
      assert tagged[..full] == tagged;
    }
  }

  /**
   * The batches give back the items in order, each tagged with its index;
   * all but the last hold 10 items, the last at least one; no items, no
   * batches.
   */
  lemma MtBatchMeaning(source: seq<MtItem>)
    ensures Concat(MtBatchesOf(source, BatchSize)) == Enumerate(source)
    ensures forall k :: 0 <= k < |source| ==> Enumerate(source)[k] == (k, source[k])
    ensures forall k :: 0 <= k < |MtBatchesOf(source, BatchSize)| ==> 0 < |MtBatchesOf(source, BatchSize)[k]| <= 10
    ensures forall k :: 0 <= k < |MtBatchesOf(source, BatchSize)| - 1 ==> |MtBatchesOf(source, BatchSize)[k]| == 10
    ensures MtBatchesOf(source, BatchSize) == [] <==> source == []
  {
    BatchesMeaning(Enumerate(source), BatchSize);
  }

  // ---------------------------------------------------------------------
  // Routing one batch

  /** Both languages are in `lang_map` and the text is a string. */
  predicate Routed(tr: Translator, itm: MtItem) {
    itm.sourceLang in tr.langMap && itm.targetLang in tr.langMap && itm.source.Some?
  }

  function RequestOf(tr: Translator, itm: MtItem): Request
    requires Routed(tr, itm)
  {
    Request(itm.source.value, tr.langMap[itm.sourceLang], tr.langMap[itm.targetLang])
  }

  /** What an item should receive: the decoded best hypothesis without its language token, or "" when it is not routed. */
  function Expected(tr: Translator, itm: MtItem): string {
    if Routed(tr, itm) then tr.decode(Tail(tr.translate(RequestOf(tr, itm)))) else ""
  }

  /** The routing loop's outcome: the items given "" in order, the requests, and the items they came from. */
  datatype Routing = Routing(unrouted: seq<(nat, MtItem)>, requests: seq<Request>, routed: seq<(nat, MtItem)>)

  function Route(tr: Translator, batch: seq<(nat, MtItem)>): (rt: Routing)
    ensures |rt.requests| == |rt.routed| && |rt.unrouted| + |rt.routed| == |batch|
  {
    if batch == [] then Routing([], [], [])
    else
      var rt := Route(tr, batch[..|batch| - 1]);
      var e := batch[|batch| - 1];
      if Routed(tr, e.1) then Routing(rt.unrouted, rt.requests + [RequestOf(tr, e.1)], rt.routed + [e])
      else Routing(rt.unrouted + [e], rt.requests, rt.routed)
  }

  /** The `sent_id`s of a list of tagged items. */
  function Sids(entries: seq<(nat, MtItem)>): (r: seq<nat>)
    ensures |r| == |entries|
  {
    seq(|entries|, k requires 0 <= k < |entries| => entries[k].0)
  }

  /** Each routed item is supported and its request is the one built from it. */
  predicate RequestsMatch(tr: Translator, rt: Routing) {
    |rt.requests| == |rt.routed| &&
    forall k :: 0 <= k < |rt.routed| ==> Routed(tr, rt.routed[k].1) && rt.requests[k] == RequestOf(tr, rt.routed[k].1)
  }

  /** Routed items come with their requests, in the same order. */
  lemma {:induction false} RouteRequests(tr: Translator, batch: seq<(nat, MtItem)>)
    ensures RequestsMatch(tr, Route(tr, batch))
    decreases |batch|
  {
    if batch != [] {
      RouteRequests(tr, batch[..|batch| - 1]);
    }
  }

  /** The items given "" are exactly those that are not routed. */
  lemma {:induction false} RouteUnrouted(tr: Translator, batch: seq<(nat, MtItem)>)
    ensures forall k :: 0 <= k < |Route(tr, batch).unrouted| ==> !Routed(tr, Route(tr, batch).unrouted[k].1)
    decreases |batch|
  {
    if batch != [] {
      RouteUnrouted(tr, batch[..|batch| - 1]);
    }
  }

  /** Every item of the batch lands in exactly one of the two lists. */
  lemma {:induction false} RouteSplits(tr: Translator, batch: seq<(nat, MtItem)>)
    ensures multiset(Route(tr, batch).unrouted) + multiset(Route(tr, batch).routed) == multiset(batch)
    decreases |batch|
  {
    if batch != [] {
      RouteSplits(tr, batch[..|batch| - 1]);
      assert batch == batch[..|batch| - 1] + [batch[|batch| - 1]];
    }
  }

  /** When every item is routed, the routed list is the batch itself. */
  lemma {:induction false} RouteAll(tr: Translator, batch: seq<(nat, MtItem)>)
    requires forall k :: 0 <= k < |batch| ==> Routed(tr, batch[k].1)
    ensures Route(tr, batch).unrouted == [] && Route(tr, batch).routed == batch
    decreases |batch|
  {
    if batch != [] {
      RouteAll(tr, batch[..|batch| - 1]);
      assert batch == batch[..|batch| - 1] + [batch[|batch| - 1]];
    }
  }

  // ---------------------------------------------------------------------
  // The state and one batch of `predict`

  /** The output so far as `sent_id`s, and the current content of every item written to. */
  datatype MtState = MtState(order: seq<nat>, items: map<nat, MtOut>)

  /** `itm["target"] = v` for each item in turn. */
  function WriteAll(m: map<nat, MtOut>, entries: seq<(nat, MtItem)>, vals: seq<string>): (r: map<nat, MtOut>)
    requires |entries| == |vals|
    ensures r.Keys == m.Keys + set k | 0 <= k < |entries| :: entries[k].0
  {
    if entries == [] then m
    else
      var n := |entries| - 1;
      var r := WriteAll(m, entries[..n], vals[..n]);
      assert (set k | 0 <= k < |entries| :: entries[k].0) == (set k | 0 <= k < n :: entries[..n][k].0) + {entries[n].0};
      r[entries[n].0 := MtOut(entries[n].1, entries[n].0, vals[n])]
  }

  /** Who gets the translation of result `k`. */
  datatype Pairing = AsWritten | Corrected

  /** The translator's results, decoded without the language token the hypothesis starts with. */
  function Translations(tr: Translator, reqs: seq<Request>): (r: seq<string>)
    ensures |r| == |reqs|
  {
    seq(|reqs|, k requires 0 <= k < |reqs| => tr.decode(Tail(tr.translate(reqs[k]))))
  }

  /**
   * The items receiving the results. As written, result `k` goes to
   * `batch[k]`, the `k`-th item of the batch whether or not it was routed;
   * corrected, to the `k`-th routed item.
   */
  function Receivers(pairing: Pairing, batch: seq<(nat, MtItem)>, rt: Routing): (r: seq<(nat, MtItem)>)
    requires |rt.routed| <= |batch|
    ensures |r| == |rt.routed|
  {
    if pairing == AsWritten then batch[..|rt.routed|] else rt.routed
  }

  /** One batch of `predict`: the unrouted items get "", then each result is written to its receiver. */
  function StepOf(tr: Translator, pairing: Pairing, st: MtState, batch: seq<(nat, MtItem)>): MtState {
    var rt := Route(tr, batch);
    var results := Translations(tr, rt.requests);
    var receivers := Receivers(pairing, batch, rt);
    var blanks := seq(|rt.unrouted|, _ => "");
    MtState(st.order + Sids(rt.unrouted) + Sids(receivers),
            WriteAll(WriteAll(st.items, rt.unrouted, blanks), receivers, results))
  }

  /** Every `sent_id` in the output has an item. */
  predicate Covered(st: MtState) {
    forall k :: 0 <= k < |st.order| ==> st.order[k] in st.items
  }

  lemma StepCovered(tr: Translator, pairing: Pairing, st: MtState, batch: seq<(nat, MtItem)>)
    requires Covered(st)
    ensures Covered(StepOf(tr, pairing, st, batch))
  {
    var rt := Route(tr, batch);
    var receivers := Receivers(pairing, batch, rt);
    var st' := StepOf(tr, pairing, st, batch);
    var n0, n1 := |st.order|, |st.order| + |rt.unrouted|;
    forall k | 0 <= k < |st'.order| ensures st'.order[k] in st'.items {
      if k < n0 {
        assert st'.order[k] == st.order[k];
      } else if k < n1 {
        assert st'.order[k] == rt.unrouted[k - n0].0;
      } else {
        assert st'.order[k] == receivers[k - n1].0;
      }
    }
  }

  /** All batches in turn. */
  function RunOf(tr: Translator, pairing: Pairing, st: MtState, batches: seq<seq<(nat, MtItem)>>): (r: MtState)
    decreases |batches|
  {
    if batches == [] then st
    else StepOf(tr, pairing, RunOf(tr, pairing, st, batches[..|batches| - 1]), batches[|batches| - 1])
  }

  lemma {:induction false} RunCovered(tr: Translator, pairing: Pairing, st: MtState, batches: seq<seq<(nat, MtItem)>>)
    requires Covered(st)
    ensures Covered(RunOf(tr, pairing, st, batches))
    decreases |batches|
  {
    if batches != [] {
      RunCovered(tr, pairing, st, batches[..|batches| - 1]);
      StepCovered(tr, pairing, RunOf(tr, pairing, st, batches[..|batches| - 1]), batches[|batches| - 1]);
    }
  }

  // ---------------------------------------------------------------------
  // What the corrected pairing writes

  /** Every tagged item carries its own index into `source`. */
  predicate TaggedFrom(source: seq<MtItem>, entries: seq<(nat, MtItem)>) {
    forall e :: e in entries ==> e.0 < |source| && e.1 == source[e.0]
  }

  lemma TaggedSub(source: seq<MtItem>, xs: seq<(nat, MtItem)>, ys: seq<(nat, MtItem)>)
    requires TaggedFrom(source, ys) && multiset(xs) <= multiset(ys)
    ensures TaggedFrom(source, xs)
  {
    forall e | e in xs ensures e.0 < |source| && e.1 == source[e.0] {
      assert e in multiset(xs);
    }
  }

  /** The item `sent_id` with the target it should end up with. */
  function Want(tr: Translator, source: seq<MtItem>, sid: nat): MtOut
    requires sid < |source|
  {
    MtOut(source[sid], sid, Expected(tr, source[sid]))
  }

  /** Every item written so far holds its own source and the target it should have. */
  predicate Agrees(tr: Translator, source: seq<MtItem>, items: map<nat, MtOut>) {
    forall sid :: sid in items ==> sid < |source| && items[sid] == Want(tr, source, sid)
  }

  lemma {:induction false} WriteAllAgrees(tr: Translator, source: seq<MtItem>, m: map<nat, MtOut>, entries: seq<(nat, MtItem)>, vals: seq<string>)
    requires |entries| == |vals| && Agrees(tr, source, m) && TaggedFrom(source, entries)
    requires forall k :: 0 <= k < |entries| ==> vals[k] == Expected(tr, entries[k].1)
    ensures Agrees(tr, source, WriteAll(m, entries, vals))
    decreases |entries|
  {
    if entries != [] {
      var n := |entries| - 1;
      assert entries[n] in entries;
      assert entries == entries[..n] + [entries[n]];
      TaggedSub(source, entries[..n], entries);
      WriteAllAgrees(tr, source, m, entries[..n], vals[..n]);
    }
  }

  lemma SidsAppend(xs: seq<(nat, MtItem)>, ys: seq<(nat, MtItem)>)
    ensures Sids(xs + ys) == Sids(xs) + Sids(ys)
  {
  }

  /** The `sent_id`s given "" and those sent to the translator are, together, those of the batch. */
  lemma {:induction false} RouteSids(tr: Translator, batch: seq<(nat, MtItem)>)
    ensures multiset(Sids(Route(tr, batch).unrouted)) + multiset(Sids(Route(tr, batch).routed)) == multiset(Sids(batch))
    decreases |batch|
  {
    if batch != [] {
      var prev, e := batch[..|batch| - 1], batch[|batch| - 1];
      RouteSids(tr, prev);
      SidsAppend(prev, [e]);
      SidsAppend(Route(tr, prev).unrouted, [e]);
      SidsAppend(Route(tr, prev).routed, [e]);
      assert batch == prev + [e];
    }
  }

  /** With the corrected pairing, a batch writes every one of its items with the target it should have. */
  lemma StepAgrees(tr: Translator, source: seq<MtItem>, st: MtState, batch: seq<(nat, MtItem)>)
    requires Agrees(tr, source, st.items) && TaggedFrom(source, batch)
    ensures Agrees(tr, source, StepOf(tr, Corrected, st, batch).items)
    ensures multiset(StepOf(tr, Corrected, st, batch).order) == multiset(st.order) + multiset(Sids(batch))
  {
    var rt := Route(tr, batch);
    RouteRequests(tr, batch);
    RouteUnrouted(tr, batch);
    RouteSplits(tr, batch);
    RouteSids(tr, batch);
    TaggedSub(source, rt.unrouted, batch);
    TaggedSub(source, rt.routed, batch);
    var blanks := seq(|rt.unrouted|, _ => "");
    WriteAllAgrees(tr, source, st.items, rt.unrouted, blanks);
    WriteAllAgrees(tr, source, WriteAll(st.items, rt.unrouted, blanks), rt.routed, Translations(tr, rt.requests));
  }

  /** After every batch, the items agree and the output holds each tagged `sent_id` once. */
  lemma {:induction false} RunAgrees(tr: Translator, source: seq<MtItem>, batches: seq<seq<(nat, MtItem)>>)
    requires TaggedFrom(source, Concat(batches))
    ensures Agrees(tr, source, RunOf(tr, Corrected, MtState([], map[]), batches).items)
    ensures multiset(RunOf(tr, Corrected, MtState([], map[]), batches).order) == multiset(Sids(Concat(batches)))
    decreases |batches|
  {
    if batches != [] {
      var init, last := batches[..|batches| - 1], batches[|batches| - 1];
      assert Concat(batches) == Concat(init) + last;
      TaggedSub(source, Concat(init), Concat(batches));
      TaggedSub(source, last, Concat(batches));
      RunAgrees(tr, source, init);
      StepAgrees(tr, source, RunOf(tr, Corrected, MtState([], map[]), init), last);
      SidsAppend(Concat(init), last);
    }
  }

  // ---------------------------------------------------------------------
  // Sorting by `sent_id`

  predicate SortedIds(s: seq<nat>) {
    forall i, j :: 0 <= i < j < |s| ==> s[i] <= s[j]
  }

  function Insert(x: nat, s: seq<nat>): (r: seq<nat>)
    ensures |r| == |s| + 1
  {
    if s == [] then [x]
    else if x <= s[0] then [x] + s
    else [s[0]] + Insert(x, s[1..])
  }

  /** Inserting adds exactly `x`. */
  lemma {:induction false} InsertPermutes(x: nat, s: seq<nat>)
    ensures multiset(Insert(x, s)) == multiset(s) + multiset{x}
    decreases |s|
  {
    if s != [] && x > s[0] {
      InsertPermutes(x, s[1..]);
      assert s == [s[0]] + s[1..];
    }
  }

  /** Inserting keeps a sorted list sorted, and the head is the smaller of `x` and the old head. */
  lemma {:induction false} InsertSorted(x: nat, s: seq<nat>)
    ensures SortedIds(s) ==> SortedIds(Insert(x, s))
    ensures Insert(x, s) != [] && Insert(x, s)[0] == if s == [] || x <= s[0] then x else s[0]
    decreases |s|
  {
    if s != [] && x > s[0] {
      InsertSorted(x, s[1..]);
      InsertPermutes(x, s[1..]);
      assert s == [s[0]] + s[1..];
    }
  }

  /** `sorted(ids)`, as an insertion sort. */
  function SortIds(s: seq<nat>): (r: seq<nat>)
    ensures |r| == |s|
  {
    if s == [] then [] else Insert(s[|s| - 1], SortIds(s[..|s| - 1]))
  }

  /** The sorted list is sorted and holds the same `sent_id`s. */
  lemma {:induction false} SortIdsMeaning(s: seq<nat>)
    ensures SortedIds(SortIds(s)) && multiset(SortIds(s)) == multiset(s)
    decreases |s|
  {
    if s != [] {
      SortIdsMeaning(s[..|s| - 1]);
      InsertPermutes(s[|s| - 1], SortIds(s[..|s| - 1]));
      InsertSorted(s[|s| - 1], SortIds(s[..|s| - 1]));
      assert s == s[..|s| - 1] + [s[|s| - 1]];
    }
  }

  /** The head of a sorted list is its least element. */
  lemma SortedHead(s: seq<nat>, x: nat)
    requires SortedIds(s) && x in multiset(s)
    ensures s != [] && s[0] <= x
  {
    var i :| 0 <= i < |s| && s[i] == x;
  }

  /** Two sorted lists with the same elements are the same list. */
  lemma {:induction false} SortedUnique(a: seq<nat>, b: seq<nat>)
    requires SortedIds(a) && SortedIds(b) && multiset(a) == multiset(b)
    ensures a == b
    decreases |a|
  {
    if a == [] {
      assert |b| == |multiset(b)| == 0;
    } else {
      assert a[0] in multiset(a);
      SortedHead(b, a[0]);
      assert b[0] in multiset(b);
      SortedHead(a, b[0]);
      assert a[0] == b[0];
      assert a == [a[0]] + a[1..];
      assert b == [b[0]] + b[1..];
      assert multiset(a[1..]) == multiset(b[1..]) by {
        calc {
          multiset(a[1..]);
          multiset(a) - multiset{a[0]};
          multiset(b) - multiset{b[0]};
          multiset(b[1..]);
        }
      }
      SortedUnique(a[1..], b[1..]);
    }
  }

  /** `0, 1, …, n - 1`. */
  function Range(n: nat): (r: seq<nat>)
    ensures |r| == n && forall k :: 0 <= k < n ==> r[k] == k
  {
    seq(n, k requires 0 <= k < n => k)
  }

  lemma EnumerateTagged(source: seq<MtItem>)
    ensures TaggedFrom(source, Enumerate(source))
    ensures Sids(Enumerate(source)) == Range(|source|)
  {
    forall e | e in Enumerate(source) ensures e.0 < |source| && e.1 == source[e.0] {
      var k :| 0 <= k < |source| && Enumerate(source)[k] == e;
    }
  }

  // ---------------------------------------------------------------------
  // predict

  /** The output of `predict`: the `sent_id`s sorted, each read through the items' final content. */
  function PredictOf(tr: Translator, pairing: Pairing, source: seq<MtItem>): (r: seq<MtOut>) {
    var st := RunOf(tr, pairing, MtState([], map[]), MtBatchesOf(source, BatchSize));
    RunCovered(tr, pairing, MtState([], map[]), MtBatchesOf(source, BatchSize));
    ReadOut(st)
  }

  /** The output list: the `sent_id`s sorted, each read through the final items. */
  function ReadOut(st: MtState): (r: seq<MtOut>)
    requires Covered(st)
    ensures |r| == |st.order|
    ensures forall k :: 0 <= k < |r| ==> SortIds(st.order)[k] in st.items && r[k] == st.items[SortIds(st.order)[k]]
  {
    var ids := SortIds(st.order);
    SortIdsMeaning(st.order);
    assert forall k :: 0 <= k < |ids| ==> ids[k] in st.items by {
      forall k | 0 <= k < |ids| ensures ids[k] in st.items {
        assert ids[k] in multiset(st.order);
      }
    }
    seq(|ids|, k requires 0 <= k < |ids| => st.items[ids[k]])
  }

  /** After the last batch, with the corrected pairing, the sorted `sent_id`s are `0 … n - 1` and every item agrees. */
  lemma FinalState(tr: Translator, source: seq<MtItem>)
    ensures var st := RunOf(tr, Corrected, MtState([], map[]), MtBatchesOf(source, BatchSize));
      Covered(st) && Agrees(tr, source, st.items) && SortIds(st.order) == Range(|source|)
  {
    var batches := MtBatchesOf(source, BatchSize);
    var st := RunOf(tr, Corrected, MtState([], map[]), batches);
    MtBatchMeaning(source);
    EnumerateTagged(source);
    RunAgrees(tr, source, batches);
    RunCovered(tr, Corrected, MtState([], map[]), batches);
    SortIdsMeaning(st.order);
    SortedUnique(SortIds(st.order), Range(|source|));
  }

  /**
   * With the corrected pairing, `predict` returns every item exactly once,
   * in input order, tagged with its index, its target the decoded
   * translation when both languages are supported and the text is a
   * string, "" otherwise.
   */
  lemma PredictMeaning(tr: Translator, source: seq<MtItem>)
    ensures |PredictOf(tr, Corrected, source)| == |source|
    ensures forall k :: 0 <= k < |source| ==>
      PredictOf(tr, Corrected, source)[k] == MtOut(source[k], k, Expected(tr, source[k]))
  {
    var st := RunOf(tr, Corrected, MtState([], map[]), MtBatchesOf(source, BatchSize));
    FinalState(tr, source);
    var r := ReadOut(st);
    assert PredictOf(tr, Corrected, source) == r;
    forall k | 0 <= k < |source| ensures r[k] == Want(tr, source, k) {
      assert SortIds(st.order)[k] == k;
    }
  }

  /** A batch whose items are all supported is paired the same way either way. */
  lemma StepSame(tr: Translator, st: MtState, batch: seq<(nat, MtItem)>)
    requires forall e :: e in batch ==> Routed(tr, e.1)
    ensures StepOf(tr, AsWritten, st, batch) == StepOf(tr, Corrected, st, batch)
  {
    forall k | 0 <= k < |batch| ensures Routed(tr, batch[k].1) {
      assert batch[k] in batch;
    }
    RouteAll(tr, batch);
    var rt := Route(tr, batch);
    assert batch[..|rt.routed|] == batch;
    assert Receivers(AsWritten, batch, rt) == Receivers(Corrected, batch, rt);
  }

  lemma {:induction false} RunSame(tr: Translator, st: MtState, batches: seq<seq<(nat, MtItem)>>)
    requires forall e :: e in Concat(batches) ==> Routed(tr, e.1)
    ensures RunOf(tr, AsWritten, st, batches) == RunOf(tr, Corrected, st, batches)
    decreases |batches|
  {
    if batches != [] {
      var init, last := batches[..|batches| - 1], batches[|batches| - 1];
      assert Concat(batches) == Concat(init) + last;
      RunSame(tr, st, init);
      StepSame(tr, RunOf(tr, Corrected, st, init), last);
    }
  }

  /** When every item is supported, the code as written gives the corrected output. */
  lemma AsWrittenAgrees(tr: Translator, source: seq<MtItem>)
    requires forall k :: 0 <= k < |source| ==> Routed(tr, source[k])
    ensures PredictOf(tr, AsWritten, source) == PredictOf(tr, Corrected, source)
  {
    var batches := MtBatchesOf(source, BatchSize);
    MtBatchMeaning(source);
    RunSame(tr, MtState([], map[]), batches);
  }

  // ---------------------------------------------------------------------
  // The loops of `predict`

  lemma WriteSnoc(m: map<nat, MtOut>, entries: seq<(nat, MtItem)>, vals: seq<string>, e: (nat, MtItem), v: string)
    requires |entries| == |vals|
    ensures WriteAll(m, entries + [e], vals + [v]) == WriteAll(m, entries, vals)[e.0 := MtOut(e.1, e.0, v)]
  {
    assert (entries + [e])[..|entries|] == entries && (vals + [v])[..|vals|] == vals;
  }

  /** An unsupported item: `itm["target"] = ""` and the item goes to the output. */
  lemma BlankSnoc(m: map<nat, MtOut>, order: seq<nat>, unrouted: seq<(nat, MtItem)>, e: (nat, MtItem))
    ensures WriteAll(m, unrouted + [e], seq(|unrouted| + 1, _ => ""))
      == WriteAll(m, unrouted, seq(|unrouted|, _ => ""))[e.0 := MtOut(e.1, e.0, "")]
    ensures order + Sids(unrouted + [e]) == order + Sids(unrouted) + [e.0]
  {
    assert seq(|unrouted| + 1, _ => "") == seq(|unrouted|, _ => "") + [""];
    WriteSnoc(m, unrouted, seq(|unrouted|, _ => ""), e, "");
    SidsAppend(unrouted, [e]);
  }

  /** The routing loop's variables after a prefix of the batch. */
  predicate RoutedSoFar(tr: Translator, st: MtState, prefix: seq<(nat, MtItem)>,
                        order: seq<nat>, items: map<nat, MtOut>, senList: seq<Request>, routed: seq<(nat, MtItem)>)
  {
    var rt := Route(tr, prefix);
    senList == rt.requests && routed == rt.routed && order == st.order + Sids(rt.unrouted)
    && items == WriteAll(st.items, rt.unrouted, seq(|rt.unrouted|, _ => ""))
  }

  /** A supported item with a source string adds its request. */
  lemma RouteRequestStep(tr: Translator, st: MtState, batch: seq<(nat, MtItem)>, k: nat,
                         order: seq<nat>, items: map<nat, MtOut>, senList: seq<Request>, routed: seq<(nat, MtItem)>)
    requires k < |batch| && Routed(tr, batch[k].1)
    requires RoutedSoFar(tr, st, batch[..k], order, items, senList, routed)
    ensures RoutedSoFar(tr, st, batch[..k + 1], order, items, senList + [RequestOf(tr, batch[k].1)], routed + [batch[k]])
  {
    assert batch[..k + 1][..k] == batch[..k];
  }

  /** Any other item gets the target "" and goes to the output. */
  lemma RouteBlankStep(tr: Translator, st: MtState, batch: seq<(nat, MtItem)>, k: nat,
                       order: seq<nat>, items: map<nat, MtOut>, senList: seq<Request>, routed: seq<(nat, MtItem)>)
    requires k < |batch| && !Routed(tr, batch[k].1)
    requires RoutedSoFar(tr, st, batch[..k], order, items, senList, routed)
    ensures RoutedSoFar(tr, st, batch[..k + 1], order + [batch[k].0], items[batch[k].0 := MtOut(batch[k].1, batch[k].0, "")],
                        senList, routed)
  {
    assert batch[..k + 1][..k] == batch[..k];
    BlankSnoc(st.items, st.order, Route(tr, batch[..k]).unrouted, batch[k]);
  }

  /**
   * The routing loop of `predict`: every unsupported item gets the target ""
   * and goes to the output; every other one is turned into a request.
   */
  method RouteBatch(tr: Translator, st: MtState, batch: seq<(nat, MtItem)>)
    returns (order: seq<nat>, items: map<nat, MtOut>, senList: seq<Request>, routed: seq<(nat, MtItem)>)
    ensures senList == Route(tr, batch).requests && routed == Route(tr, batch).routed
    ensures order == st.order + Sids(Route(tr, batch).unrouted)
    ensures items == WriteAll(st.items, Route(tr, batch).unrouted, seq(|Route(tr, batch).unrouted|, _ => ""))
  {
    order, items := st.order, st.items;
    senList, routed := [], [];
    for k := 0 to |batch|
      invariant RoutedSoFar(tr, st, batch[..k], order, items, senList, routed)
    {
      var e := batch[k];
      var itm := e.1;
      if itm.sourceLang in tr.langMap && itm.targetLang in tr.langMap {
        if itm.source.Some? {
          RouteRequestStep(tr, st, batch, k, order, items, senList, routed);
          senList := senList + [Request(itm.source.value, tr.langMap[itm.sourceLang], tr.langMap[itm.targetLang])];
          routed := routed + [e];
        } else {
          RouteBlankStep(tr, st, batch, k, order, items, senList, routed);
          items := items[e.0 := MtOut(itm, e.0, "")];
          order := order + [e.0];
        }
      } else {
        RouteBlankStep(tr, st, batch, k, order, items, senList, routed);
        items := items[e.0 := MtOut(itm, e.0, "")];
        order := order + [e.0];
      }
    }
    assert batch[..|batch|] == batch;
  }

  /** The loop over the translator's results: result `k` is written to receiver `k`, which goes to the output. */
  method WriteResults(order0: seq<nat>, items0: map<nat, MtOut>, receivers: seq<(nat, MtItem)>, results: seq<string>)
    returns (order: seq<nat>, items: map<nat, MtOut>)
    requires |receivers| == |results|
    ensures order == order0 + Sids(receivers)
    ensures items == WriteAll(items0, receivers, results)
  {
    order, items := order0, items0;
    for k := 0 to |results|
      invariant order == order0 + Sids(receivers[..k])
      invariant items == WriteAll(items0, receivers[..k], results[..k])
    {
      var e := receivers[k];
      assert receivers[..k + 1] == receivers[..k] + [e] && results[..k + 1] == results[..k] + [results[k]];
      WriteSnoc(items0, receivers[..k], results[..k], e, results[k]);
      SidsAppend(receivers[..k], [e]);
      items := items[e.0 := MtOut(e.1, e.0, results[k])];
      order := order + [e.0];
    }
    assert receivers[..|results|] == receivers && results[..|results|] == results;
  }

  /**
   * One batch of `predict`. As written, result `k` goes to `batch[k]`;
   * corrected, to the `k`-th routed item.
   */
  method PredictBatch(tr: Translator, pairing: Pairing, st: MtState, batch: seq<(nat, MtItem)>) returns (next: MtState)
    ensures next == StepOf(tr, pairing, st, batch)
  {
    var order, items, senList, routed := RouteBatch(tr, st, batch);
    var results := Translations(tr, senList);
    var receivers := if pairing == AsWritten then batch[..|results|] else routed;
    order, items := WriteResults(order, items, receivers, results);
    next := MtState(order, items);
  }

  /** `predict`: every batch in turn, then the output sorted by `sent_id`. */
  method Predict(tr: Translator, pairing: Pairing, source: seq<MtItem>) returns (output: seq<MtOut>)
    ensures output == PredictOf(tr, pairing, source)
  {
    var batches := MtBatch(source, BatchSize);
    var st := MtState([], map[]);
    for b := 0 to |batches|
      invariant st == RunOf(tr, pairing, MtState([], map[]), batches[..b])
    {
      assert batches[..b + 1][..b] == batches[..b];
      st := PredictBatch(tr, pairing, st, batches[b]);
    }
    assert batches[..|batches|] == batches;
    RunCovered(tr, pairing, MtState([], map[]), batches);
    output := ReadOut(st);
  }

  /** A translator supporting English and French whose best hypothesis is the language token then "bonjour". */
  function CxTranslator(): Translator {
    Translator(map["en" := "en", "fr" := "fr"], _ => ["__fr__", "bonjour"], toks => if toks == [] then "" else toks[0])
  }

  /** An unsupported item followed by a supported one. */
  function CxSource(): seq<MtItem> {
    [MtItem(Some("x"), "xx", "en"), MtItem(Some("hello"), "en", "fr")]
  }

  lemma CxBatches()
    ensures MtBatchesOf(CxSource(), BatchSize) == [[(0, CxSource()[0]), (1, CxSource()[1])]]
  {
    assert Enumerate(CxSource()) == [(0, CxSource()[0]), (1, CxSource()[1])];
  }

  lemma CxRoute()
    ensures Route(CxTranslator(), [(0, CxSource()[0]), (1, CxSource()[1])])
      == Routing([(0, CxSource()[0])], [Request("hello", "en", "fr")], [(1, CxSource()[1])])
  {
    var batch: seq<(nat, MtItem)> := [(0, CxSource()[0]), (1, CxSource()[1])];
    assert batch[..1] == [batch[0]] && |batch[..1][..0]| == 0;
  }

  lemma CxTranslations()
    ensures Translations(CxTranslator(), [Request("hello", "en", "fr")]) == ["bonjour"]
  {
    var tr := CxTranslator();
    var h := tr.translate(Request("hello", "en", "fr"));
    assert h == ["__fr__", "bonjour"];
    assert Tail(h) == ["bonjour"];
    assert tr.decode(["bonjour"]) == "bonjour";
  }

  /** Writing one item. */
  lemma WriteOne(m: map<nat, MtOut>, e: (nat, MtItem), v: string)
    ensures WriteAll(m, [e], [v]) == m[e.0 := MtOut(e.1, e.0, v)]
  {
    var es, vs := [e], [v];
    assert es[..0] == [] && vs[..0] == [];
  }

  /** The state after the one batch, as written: `sent_id` 0 twice, item 0 holding the translation. */
  lemma CxAsWrittenState()
    ensures RunOf(CxTranslator(), AsWritten, MtState([], map[]), MtBatchesOf(CxSource(), BatchSize))
      == MtState([0, 0], map[0 := MtOut(CxSource()[0], 0, "bonjour")])
  {
    var tr := CxTranslator();
    var e0: (nat, MtItem), e1: (nat, MtItem) := (0, CxSource()[0]), (1, CxSource()[1]);
    var batch: seq<(nat, MtItem)> := [e0, e1];
    var batches := [batch];
    CxBatches();
    CxRoute();
    CxTranslations();
    assert batches[..0] == [];
    assert RunOf(tr, AsWritten, MtState([], map[]), batches) == StepOf(tr, AsWritten, MtState([], map[]), batch);
    assert batch[..1] == [e0];
    var blanks := seq(1, _ => "");
    assert blanks == [""];
    WriteOne(map[], e0, "");
    WriteOne(map[0 := MtOut(e0.1, 0, "")], e0, "bonjour");
    assert Sids([e0]) == [0];
  }

  /** The state after the one batch, corrected: each item with its own target. */
  lemma CxCorrectedState()
    ensures RunOf(CxTranslator(), Corrected, MtState([], map[]), MtBatchesOf(CxSource(), BatchSize))
      == MtState([0, 1], map[0 := MtOut(CxSource()[0], 0, ""), 1 := MtOut(CxSource()[1], 1, "bonjour")])
  {
    var tr := CxTranslator();
    var e0: (nat, MtItem), e1: (nat, MtItem) := (0, CxSource()[0]), (1, CxSource()[1]);
    var batch: seq<(nat, MtItem)> := [e0, e1];
    var batches := [batch];
    CxBatches();
    CxRoute();
    CxTranslations();
    assert batches[..0] == [];
    assert RunOf(tr, Corrected, MtState([], map[]), batches) == StepOf(tr, Corrected, MtState([], map[]), batch);
    var blanks := seq(1, _ => "");
    assert blanks == [""];
    WriteOne(map[], e0, "");
    WriteOne(map[0 := MtOut(e0.1, 0, "")], e1, "bonjour");
    assert Sids([e0]) == [0] && Sids([e1]) == [1];
  }

  lemma CxSortIds()
    ensures SortIds([0, 0]) == [0, 0] && SortIds([0, 1]) == [0, 1]
  {
    var one: seq<nat> := [0];
    assert |one[..0]| == 0 && |one[1..]| == 0;
    assert SortIds(one) == [0];
    var zeros: seq<nat>, ids: seq<nat> := [0, 0], [0, 1];
    assert zeros[..1] == one && ids[..1] == one;
    assert Insert(1, one) == [0] + Insert(1, one[1..]);
  }

  lemma CxReadOut()
    ensures Covered(MtState([0, 0], map[0 := MtOut(CxSource()[0], 0, "bonjour")]))
    ensures ReadOut(MtState([0, 0], map[0 := MtOut(CxSource()[0], 0, "bonjour")]))
      == [MtOut(CxSource()[0], 0, "bonjour"), MtOut(CxSource()[0], 0, "bonjour")]
    ensures Covered(MtState([0, 1], map[0 := MtOut(CxSource()[0], 0, ""), 1 := MtOut(CxSource()[1], 1, "bonjour")]))
    ensures ReadOut(MtState([0, 1], map[0 := MtOut(CxSource()[0], 0, ""), 1 := MtOut(CxSource()[1], 1, "bonjour")]))
      == [MtOut(CxSource()[0], 0, ""), MtOut(CxSource()[1], 1, "bonjour")]
  {
    CxSortIds();
  }

  /**
   * As written, the one translation goes to `batch[0]`, the unsupported
   * item, which then appears twice in the output, while the supported item
   * is lost; corrected, each item keeps its own target.
   */
  lemma PairingCounterexample()
    ensures PredictOf(CxTranslator(), AsWritten, CxSource()) == [MtOut(CxSource()[0], 0, "bonjour"), MtOut(CxSource()[0], 0, "bonjour")]
    ensures PredictOf(CxTranslator(), Corrected, CxSource()) == [MtOut(CxSource()[0], 0, ""), MtOut(CxSource()[1], 1, "bonjour")]
  {
    CxAsWrittenState();
    CxCorrectedState();
    CxReadOut();
  }
}
