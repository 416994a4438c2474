/**
 * The BIO state machine that turns a label sequence into entity intervals,
 * and the forward-only cursor that anchors tokens to character spans of the
 * text (exciton/nlp/named_entity_recognition/utils.py).
 */
module NerUtils {
  import opened Text

  /** An entity as `collect_named_entities` emits it: a type and an inclusive token interval. */
  datatype Interval = Interval(entType: string, start: int, end: int)

  /** `token_tag[2:]`: the entity type carried by a tag. */
  function TagType(tag: string): string {
    if |tag| >= 2 then tag[2..] else ""
  }

  /** `token_tag[:1] == "B"`. */
  predicate IsBegin(tag: string) {
    |tag| >= 1 && tag[0] == 'B'
  }

  /**
   * The indices at which the state machine opens an entity: a tag other than
   * "O" that follows nothing, an "O", a tag of another type, or that is itself
   * a `B` tag.
   */
  predicate IsStart(tags: seq<string>, i: int)
    requires 0 <= i < |tags|
  {
    tags[i] != "O" &&
    (i == 0 || tags[i - 1] == "O" || TagType(tags[i - 1]) != TagType(tags[i]) || IsBegin(tags[i]))
  }

  // ---------------------------------------------------------------------
  // The state machine as a left fold over the tags

  /** The state after some prefix: the entity still open (type, start) and the closed ones. */
  datatype Scan = Scan(open: Option<(string, int)>, done: seq<Interval>)

  /** One iteration of the loop of `collect_named_entities` at index `offset`. */
  function Step(sc: Scan, offset: int, tag: string): Scan {
    if tag == "O" then
      match sc.open
      case None => sc
      case Some((l, s)) => Scan(None, sc.done + [Interval(l, s, offset - 1)])
    else
      match sc.open
      case None => Scan(Some((TagType(tag), offset)), sc.done)
      case Some((l, s)) =>
        if l != TagType(tag) || IsBegin(tag) then
          Scan(Some((TagType(tag), offset)), sc.done + [Interval(l, s, offset - 1)])
        else
          sc
  }

  /** The state after the first `n` tags. */
  function ScanUpTo(tags: seq<string>, n: nat): (sc: Scan)
    requires n <= |tags|
    ensures forall k :: 0 <= k < |sc.done| ==> 0 <= sc.done[k].start <= sc.done[k].end < n
    ensures sc.open.Some? ==> 0 <= sc.open.value.1 < n
  {
    if n == 0 then Scan(None, []) else Step(ScanUpTo(tags, n - 1), n - 1, tags[n - 1])
  }

  /** The intervals of `collect_named_entities(tags)`: an entity open at the end closes at the last index. */
  function NamedEntities(tags: seq<string>): (r: seq<Interval>)
    ensures forall k :: 0 <= k < |r| ==> 0 <= r[k].start <= r[k].end < |tags|
  {
    var sc := ScanUpTo(tags, |tags|);
    match sc.open
    case None => sc.done
    case Some((l, s)) => sc.done + [Interval(l, s, |tags| - 1)]
  }

  // ---------------------------------------------------------------------
  // What the decoded intervals are

  ghost predicate Covered(d: seq<Interval>, j: int) {
    exists k :: 0 <= k < |d| && d[k].start <= j <= d[k].end
  }

  ghost predicate StartsAt(d: seq<Interval>, j: int) {
    exists k :: 0 <= k < |d| && d[k].start == j
  }

  /** Interval `iv` is a maximal run of the first `n` tags, as the state machine delimits runs. */
  ghost predicate Run(tags: seq<string>, n: nat, iv: Interval)
    requires n <= |tags|
  {
    && 0 <= iv.start <= iv.end < n
    && IsStart(tags, iv.start)
    && iv.entType == TagType(tags[iv.start])
    && (forall j :: iv.start <= j <= iv.end ==> tags[j] != "O" && TagType(tags[j]) == iv.entType)
    && (forall j :: iv.start < j <= iv.end ==> !IsStart(tags, j))
    && (iv.end + 1 < n ==> tags[iv.end + 1] == "O" || IsStart(tags, iv.end + 1))
  }

  /** Increasing and pairwise disjoint. */
  ghost predicate Ordered(d: seq<Interval>) {
    forall a, b :: 0 <= a < b < |d| ==> d[a].end < d[b].start
  }

  /**
   * The full characterisation of the decoder's output for a tag sequence:
   * ordered disjoint maximal runs inside [0, |tags|-1], labelled by the type
   * of their first tag, covering exactly the non-"O" indices and starting
   * exactly at the start indices.
   */
  ghost predicate Decoded(tags: seq<string>, r: seq<Interval>) {
    && Ordered(r)
    && (forall k :: 0 <= k < |r| ==> Run(tags, |tags|, r[k]))
    && (forall j :: 0 <= j < |tags| ==> (tags[j] != "O" <==> Covered(r, j)))
    && (forall j :: 0 <= j < |tags| ==> (IsStart(tags, j) <==> StartsAt(r, j)))
  }

  /** The closed intervals so far are ordered maximal runs of the first `n` tags. */
  ghost predicate DoneOk(tags: seq<string>, n: nat, d: seq<Interval>)
    requires n <= |tags|
  {
    Ordered(d) && forall k :: 0 <= k < |d| ==> Run(tags, n, d[k])
  }

  /** The open entity (type `l`, start `s`) is a run reaching index `n - 1`, after every closed one. */
  ghost predicate OpenOk(tags: seq<string>, n: nat, d: seq<Interval>, l: string, s: int)
    requires n <= |tags|
  {
    && 0 <= s < n
    && (forall k :: 0 <= k < |d| ==> d[k].end < s)
    && IsStart(tags, s)
    && l == TagType(tags[s])
    && (forall j :: s <= j < n ==> tags[j] != "O" && TagType(tags[j]) == l)
    && (forall j :: s < j < n ==> !IsStart(tags, j))
  }

  /** Below `n`, the non-"O" indices are those covered by a closed interval or at or after `from`. */
  ghost predicate CoverOk(tags: seq<string>, n: nat, d: seq<Interval>, from: int)
    requires n <= |tags|
  {
    forall j :: 0 <= j < n ==> (tags[j] != "O" <==> Covered(d, j) || from <= j)
  }

  /** Below `n`, the start indices are the starts of closed intervals and `at`. */
  ghost predicate StartOk(tags: seq<string>, n: nat, d: seq<Interval>, at: int)
    requires n <= |tags|
  {
    forall j :: 0 <= j < n ==> (IsStart(tags, j) <==> StartsAt(d, j) || at == j)
  }

  /** The invariant of the loop after `n` tags. */
  ghost predicate ScanInv(tags: seq<string>, n: nat, sc: Scan)
    requires n <= |tags|
  {
    && DoneOk(tags, n, sc.done)
    && match sc.open
       case None =>
         && (n == 0 || tags[n - 1] == "O")
         && (forall k :: 0 <= k < |sc.done| ==> sc.done[k].end < n - 1)
         && CoverOk(tags, n, sc.done, n)
         && StartOk(tags, n, sc.done, n)
       case Some((l, s)) =>
         && OpenOk(tags, n, sc.done, l, s)
         && CoverOk(tags, n, sc.done, s)
         && StartOk(tags, n, sc.done, s)
  }

  lemma CoveredAppend(d: seq<Interval>, iv: Interval, j: int)
    ensures Covered(d + [iv], j) <==> Covered(d, j) || iv.start <= j <= iv.end
  {
    if Covered(d, j) {
      var k :| 0 <= k < |d| && d[k].start <= j <= d[k].end;
      assert (d + [iv])[k] == d[k];
    }
    if iv.start <= j <= iv.end {
      assert (d + [iv])[|d|] == iv;
    }
    if Covered(d + [iv], j) {
      var k :| 0 <= k < |d + [iv]| && (d + [iv])[k].start <= j <= (d + [iv])[k].end;
      if k < |d| { assert (d + [iv])[k] == d[k]; }
    }
  }

  lemma StartsAtAppend(d: seq<Interval>, iv: Interval, j: int)
    ensures StartsAt(d + [iv], j) <==> StartsAt(d, j) || iv.start == j
  {
    if StartsAt(d, j) {
      var k :| 0 <= k < |d| && d[k].start == j;
      assert (d + [iv])[k] == d[k];
    }
    if iv.start == j {
      assert (d + [iv])[|d|] == iv;
    }
    if StartsAt(d + [iv], j) {
      var k :| 0 <= k < |d + [iv]| && (d + [iv])[k].start == j;
      if k < |d| { assert (d + [iv])[k] == d[k]; }
    }
  }

  /** Index `n` lies beyond every closed interval, so none covers it or starts at it. */
  lemma PastDone(d: seq<Interval>, n: int)
    requires forall k :: 0 <= k < |d| ==> d[k].start <= d[k].end < n
    ensures !Covered(d, n) && !StartsAt(d, n)
  {
  }

  /** Appending a run after every closed interval keeps them ordered maximal runs. */
  lemma DoneAppend(tags: seq<string>, m: nat, d: seq<Interval>, iv: Interval)
    requires m <= |tags| && DoneOk(tags, m, d) && Run(tags, m, iv)
    requires forall k :: 0 <= k < |d| ==> d[k].end < iv.start
    ensures DoneOk(tags, m, d + [iv])
  {
    var d' := d + [iv];
    forall k | 0 <= k < |d'| ensures Run(tags, m, d'[k]) {
      if k < |d| {
        assert d'[k] == d[k];
      }
    }
    forall a, b | 0 <= a < b < |d'| ensures d'[a].end < d'[b].start {
      assert d'[a] == d[a];
      if b < |d| {
        assert d'[b] == d[b];
      }
    }
  }

  lemma RunBounds(tags: seq<string>, n: nat, d: seq<Interval>)
    requires n <= |tags| && DoneOk(tags, n, d)
    ensures forall k :: 0 <= k < |d| ==> 0 <= d[k].start <= d[k].end < n
  {
    forall k | 0 <= k < |d| ensures 0 <= d[k].start <= d[k].end < n {
      assert Run(tags, n, d[k]);
    }
  }

  /** Closed runs stay maximal when the next tag is "O" or a start. */
  lemma DoneExtend(tags: seq<string>, n: nat, d: seq<Interval>)
    requires n < |tags| && DoneOk(tags, n, d)
    requires forall k :: 0 <= k < |d| ==> d[k].end < n - 1 || tags[n] == "O" || IsStart(tags, n)
    ensures DoneOk(tags, n + 1, d)
  {
    forall k | 0 <= k < |d| ensures Run(tags, n + 1, d[k]) {
      assert Run(tags, n, d[k]);
    }
  }

  /** The open entity closed at index `n - 1` is a maximal run when the next tag is "O" or a start. */
  lemma ClosedRun(tags: seq<string>, n: nat, d: seq<Interval>, l: string, s: int)
    requires n < |tags| && OpenOk(tags, n, d, l, s)
    requires tags[n] == "O" || IsStart(tags, n)
    ensures Run(tags, n + 1, Interval(l, s, n - 1))
  {
  }

  /** Closing the open entity (type `l`, start `s`) at index `n - 1` keeps the closed intervals maximal runs. */
  lemma Close(tags: seq<string>, n: nat, d: seq<Interval>, l: string, s: int)
    requires n < |tags|
    requires DoneOk(tags, n, d) && OpenOk(tags, n, d, l, s)
    requires tags[n] == "O" || IsStart(tags, n)
    ensures DoneOk(tags, n + 1, d + [Interval(l, s, n - 1)])
  {
    var iv := Interval(l, s, n - 1);
    DoneExtend(tags, n, d);
    ClosedRun(tags, n, d, l, s);
    DoneAppend(tags, n + 1, d, iv);
  }

  /** After closing, every closed interval ends before index `n`. */
  lemma CloseBounds(tags: seq<string>, n: nat, d: seq<Interval>, l: string, s: int)
    requires n <= |tags| && OpenOk(tags, n, d, l, s)
    ensures var d' := d + [Interval(l, s, n - 1)];
      forall k :: 0 <= k < |d'| ==> d'[k].end < n
  {
  }

  lemma CloseCover(tags: seq<string>, n: nat, d: seq<Interval>, l: string, s: int)
    requires n <= |tags| && 0 <= s && CoverOk(tags, n, d, s)
    ensures CoverOk(tags, n, d + [Interval(l, s, n - 1)], n)
  {
    forall j | 0 <= j < n
      ensures (tags[j] != "O" <==> Covered(d + [Interval(l, s, n - 1)], j) || n <= j)
    {
      CoveredAppend(d, Interval(l, s, n - 1), j);
    }
  }

  lemma CloseStart(tags: seq<string>, n: nat, d: seq<Interval>, l: string, s: int)
    requires n <= |tags| && 0 <= s && StartOk(tags, n, d, s)
    ensures StartOk(tags, n, d + [Interval(l, s, n - 1)], n)
  {
    forall j | 0 <= j < n
      ensures (IsStart(tags, j) <==> StartsAt(d + [Interval(l, s, n - 1)], j) || n == j)
    {
      StartsAtAppend(d, Interval(l, s, n - 1), j);
    }
  }

  lemma StepOutsideO(tags: seq<string>, n: nat, d: seq<Interval>)
    requires n < |tags| && tags[n] == "O"
    requires ScanInv(tags, n, Scan(None, d))
    ensures ScanInv(tags, n + 1, Scan(None, d))
  {
    DoneExtend(tags, n, d);
    RunBounds(tags, n, d);
    PastDone(d, n);
  }

  lemma StepOutsideOpen(tags: seq<string>, n: nat, d: seq<Interval>)
    requires n < |tags| && tags[n] != "O"
    requires ScanInv(tags, n, Scan(None, d))
    ensures ScanInv(tags, n + 1, Scan(Some((TagType(tags[n]), n)), d))
  {
    assert IsStart(tags, n);
    DoneExtend(tags, n, d);
    RunBounds(tags, n, d);
    PastDone(d, n);
  }

  lemma StepInsideO(tags: seq<string>, n: nat, d: seq<Interval>, l: string, s: int)
    requires n < |tags| && tags[n] == "O"
    requires ScanInv(tags, n, Scan(Some((l, s)), d))
    ensures ScanInv(tags, n + 1, Scan(None, d + [Interval(l, s, n - 1)]))
  {
    var d' := d + [Interval(l, s, n - 1)];
    Close(tags, n, d, l, s);
    CloseBounds(tags, n, d, l, s);
    CloseCover(tags, n, d, l, s);
    CloseStart(tags, n, d, l, s);
    PastDone(d', n);
  }

  lemma StepInsideNew(tags: seq<string>, n: nat, d: seq<Interval>, l: string, s: int)
    requires n < |tags| && tags[n] != "O"
    requires l != TagType(tags[n]) || IsBegin(tags[n])
    requires ScanInv(tags, n, Scan(Some((l, s)), d))
    ensures ScanInv(tags, n + 1, Scan(Some((TagType(tags[n]), n)), d + [Interval(l, s, n - 1)]))
  {
    assert tags[n - 1] != "O" && TagType(tags[n - 1]) == l;
    assert IsStart(tags, n);
    var d' := d + [Interval(l, s, n - 1)];
    Close(tags, n, d, l, s);
    CloseBounds(tags, n, d, l, s);
    CloseCover(tags, n, d, l, s);
    CloseStart(tags, n, d, l, s);
    PastDone(d', n);
  }

  lemma StepInsideExtend(tags: seq<string>, n: nat, d: seq<Interval>, l: string, s: int)
    requires n < |tags| && tags[n] != "O"
    requires l == TagType(tags[n]) && !IsBegin(tags[n])
    requires ScanInv(tags, n, Scan(Some((l, s)), d))
    ensures ScanInv(tags, n + 1, Scan(Some((l, s)), d))
  {
    assert tags[n - 1] != "O" && TagType(tags[n - 1]) == l;
    assert !IsStart(tags, n);
    DoneExtend(tags, n, d);
    RunBounds(tags, n, d);
    OpenGrow(tags, n, d, l, s);
    CoverGrow(tags, n, d, s);
    StartGrow(tags, n, d, s);
  }

  lemma OpenGrow(tags: seq<string>, n: nat, d: seq<Interval>, l: string, s: int)
    requires n < |tags| && OpenOk(tags, n, d, l, s)
    requires tags[n] != "O" && TagType(tags[n]) == l && !IsStart(tags, n)
    ensures OpenOk(tags, n + 1, d, l, s)
  {
  }

  lemma CoverGrow(tags: seq<string>, n: nat, d: seq<Interval>, from: int)
    requires n < |tags| && CoverOk(tags, n, d, from) && from <= n && tags[n] != "O"
    ensures CoverOk(tags, n + 1, d, from)
  {
  }

  lemma StartGrow(tags: seq<string>, n: nat, d: seq<Interval>, at: int)
    requires n < |tags| && StartOk(tags, n, d, at) && at != n && !IsStart(tags, n)
    requires forall k :: 0 <= k < |d| ==> d[k].start < n
    ensures StartOk(tags, n + 1, d, at)
  {
  }


  /** One step of the loop keeps its invariant. */
  lemma StepKeepsInv(tags: seq<string>, n: nat, sc: Scan)
    requires n < |tags|
    requires ScanInv(tags, n, sc)
    ensures ScanInv(tags, n + 1, Step(sc, n, tags[n]))
  {
    var t := tags[n];
    match sc.open {
      case None =>
        if t == "O" {
          StepOutsideO(tags, n, sc.done);
        } else {
          StepOutsideOpen(tags, n, sc.done);
        }
      case Some((l, s)) =>
        if t == "O" {
          StepInsideO(tags, n, sc.done, l, s);
        } else if l != TagType(t) || IsBegin(t) {
          StepInsideNew(tags, n, sc.done, l, s);
        } else {
          StepInsideExtend(tags, n, sc.done, l, s);
        }
    }
  }

  lemma {:induction false} ScanUpToInv(tags: seq<string>, n: nat)
    requires n <= |tags|
    ensures ScanInv(tags, n, ScanUpTo(tags, n))
  {
    if n > 0 {
      ScanUpToInv(tags, n - 1);
      StepKeepsInv(tags, n - 1, ScanUpTo(tags, n - 1));
    }
  }

  /** `collect_named_entities` decodes every tag sequence into exactly its maximal runs. */
  lemma NamedEntitiesDecoded(tags: seq<string>)
    ensures Decoded(tags, NamedEntities(tags))
  {
    var n := |tags|;
    var sc := ScanUpTo(tags, n);
    ScanUpToInv(tags, n);
    match sc.open {
      case None =>
        DoneDecoded(tags, sc.done);
      case Some((l, s)) =>
        FinalClose(tags, sc.done, l, s);
    }
  }

  /** An entity still open after the last tag closes at the last index. */
  lemma FinalClose(tags: seq<string>, d: seq<Interval>, l: string, s: int)
    requires ScanInv(tags, |tags|, Scan(Some((l, s)), d))
    ensures Decoded(tags, d + [Interval(l, s, |tags| - 1)])
  {
    var n := |tags|;
    var iv := Interval(l, s, n - 1);
    OpenRun(tags, d, l, s);
    DoneAppend(tags, n, d, iv);
    CloseCover(tags, n, d, l, s);
    CloseStart(tags, n, d, l, s);
    DoneDecoded(tags, d + [iv]);
  }

  /** The open entity, closed at the last tag, is a maximal run. */
  lemma OpenRun(tags: seq<string>, d: seq<Interval>, l: string, s: int)
    requires OpenOk(tags, |tags|, d, l, s)
    ensures Run(tags, |tags|, Interval(l, s, |tags| - 1))
  {
  }

  /** Once every tag is scanned, the invariant of the closed intervals is the characterisation. */
  lemma DoneDecoded(tags: seq<string>, d: seq<Interval>)
    requires DoneOk(tags, |tags|, d)
    requires CoverOk(tags, |tags|, d, |tags|) && StartOk(tags, |tags|, d, |tags|)
    ensures Decoded(tags, d)
  {
  }

  /** A `B` tag always opens a new entity at its own index, even right after one of its type. */
  lemma BeginOpensEntity(tags: seq<string>, i: int)
    requires 0 <= i < |tags| && tags[i] != "O" && IsBegin(tags[i])
    ensures StartsAt(NamedEntities(tags), i)
  {
    NamedEntitiesDecoded(tags);
  }

  /**
   * An `I-x` tag right after a tag of type x extends that entity: both
   * indices lie in the same interval. A change of type closes the entity at
   * the index before.
   */
  lemma InsideExtends(tags: seq<string>, i: int)
    requires 0 < i < |tags| && tags[i] != "O" && tags[i - 1] != "O"
    ensures var r := NamedEntities(tags);
      (!IsBegin(tags[i]) && TagType(tags[i]) == TagType(tags[i - 1]) ==>
         exists k :: 0 <= k < |r| && r[k].start < i <= r[k].end) &&
      (TagType(tags[i]) != TagType(tags[i - 1]) ==>
         exists k :: 0 <= k < |r| && r[k].end == i - 1)
  {
    var r := NamedEntities(tags);
    var k := CoveringRun(tags, i - 1);
    if !IsBegin(tags[i]) && TagType(tags[i]) == TagType(tags[i - 1]) {
      assert !IsStart(tags, i);
      assert r[k].start < i <= r[k].end;
    }
    if TagType(tags[i]) != TagType(tags[i - 1]) {
      assert IsStart(tags, i);
      assert r[k].end == i - 1;
    }
  }

  /** The decoded interval holding a non-"O" index. */
  lemma CoveringRun(tags: seq<string>, j: int) returns (k: nat)
    requires 0 <= j < |tags| && tags[j] != "O"
    ensures var r := NamedEntities(tags);
      k < |r| && r[k].start <= j <= r[k].end && Run(tags, |tags|, r[k])
  {
    var r := NamedEntities(tags);
    NamedEntitiesDecoded(tags);
    assert Covered(r, j);
    k :| 0 <= k < |r| && r[k].start <= j <= r[k].end;
  }

  /** Two `B-PER` tags in a row give two entities. */
  lemma RepeatedBeginGivesTwoEntities()
    ensures NamedEntities(["B-PER", "B-PER", "O"]) == [Interval("PER", 0, 0), Interval("PER", 1, 1)]
  {
    var tags := ["B-PER", "B-PER", "O"];
    assert TagType("B-PER") == "PER";
    assert ScanUpTo(tags, 1) == Scan(Some(("PER", 0)), []);
    assert ScanUpTo(tags, 2) == Scan(Some(("PER", 1)), [Interval("PER", 0, 0)]);
  }

  /** `collect_named_entities`: the loop over the tags, updating the open entity. */
  method CollectNamedEntities(tags: seq<string>) returns (namedEntities: seq<Interval>)
    ensures namedEntities == NamedEntities(tags)
    ensures Decoded(tags, namedEntities)
  {
    namedEntities := [];
    var startOffset: Option<int> := None;
    var endOffset: Option<int> := None;
    var entType: Option<string> := None;
    for offset := 0 to |tags|
      invariant entType.Some? <==> startOffset.Some?
      invariant endOffset == None
      invariant ScanUpTo(tags, offset) ==
        Scan(if entType.Some? then Some((entType.value, startOffset.value)) else None, namedEntities)
    {
      var tokenTag := tags[offset];
      if tokenTag == "O" {
        if entType.Some? && startOffset.Some? {
          endOffset := Some(offset - 1);
          namedEntities := namedEntities + [Interval(entType.value, startOffset.value, endOffset.value)];
          startOffset := None;
          endOffset := None;
          entType := None;
        }
      } else if entType.None? {
        entType := Some(TagType(tokenTag));
        startOffset := Some(offset);
      } else if entType.value != TagType(tokenTag) || (entType.value == TagType(tokenTag) && IsBegin(tokenTag)) {
        endOffset := Some(offset - 1);
        namedEntities := namedEntities + [Interval(entType.value, startOffset.value, endOffset.value)];
        entType := Some(TagType(tokenTag));
        startOffset := Some(offset);
        endOffset := None;
      }
    }
    // the end offset is reset after every emission, so the last check reduces to the open entity
    if entType.Some? && startOffset.Some? && endOffset.None? {
      namedEntities := namedEntities + [Interval(entType.value, startOffset.value, |tags| - 1)];
    }
    NamedEntitiesDecoded(tags);
  }

  // ---------------------------------------------------------------------
  // Character spans (the cursor of `clean_result`)

  /** A half-open character span [start, end). */
  datatype Span = Span(start: int, end: int)

  datatype TokenClass = TokenClass(token: string, span: Span, tag: string)

  datatype Entity = Entity(entType: string, text: string, span: Span)

  datatype Cleaned = Cleaned(
    text: string,
    tokens: seq<string>,
    namedEntities: seq<Entity>,
    tokenClasses: seq<TokenClass>)

  /**
   * The word-start marker is a parameter: a one-character marker that does
   * not start with '#', so that the two prefix rules never both apply.
   */
  predicate ValidMarker(marker: string) {
    marker != [] && marker[0] != '#'
  }

  /** The visible length of a token: minus 2 after "##", minus 1 after the word-start marker. */
  function Width(wd: string, marker: string): (w: int)
    ensures ValidMarker(marker) ==> 0 <= w <= |wd|
  {
    var a := if |wd| >= 2 && wd[0] == '#' && wd[1] == '#' then 2 else 0;
    var b := if |marker| == 1 && |wd| >= 1 && wd[0] == marker[0] then 1 else 0;
    |wd| - a - b
  }

  /** The width as the slice comparisons `wd[:2] == "##"` and `wd[:1] == marker` compute it. */
  lemma WidthBySlices(wd: string, marker: string)
    requires ValidMarker(marker)
    ensures Width(wd, marker) == |wd| - (if Take(wd, 2) == "##" then 2 else 0) - (if Take(wd, 1) == marker then 1 else 0)
  {
    if Take(wd, 2) == "##" {
      assert wd[0] == Take(wd, 2)[0] && wd[1] == Take(wd, 2)[1];
    } else if |wd| >= 2 {
      assert Take(wd, 2) == [wd[0], wd[1]];
    }
    if Take(wd, 1) == marker {
      assert |marker| == 1 && wd[0] == Take(wd, 1)[0];
    } else if |marker| == 1 && |wd| >= 1 {
      assert Take(wd, 1) == [wd[0]] && marker == [marker[0]];
    }
  }

  /** The cursor after skipping the blanks at and after `i`. */
  function SkipSpaces(text: string, i: nat): (r: nat)
    ensures i <= r && (r == i || r <= |text|)
    decreases |text| - i
  {
    if i < |text| && text[i] == ' ' then SkipSpaces(text, i + 1) else i
  }

  /** Only blanks are skipped, and the cursor stops at the end or at a non-blank. */
  lemma {:induction false} SkipSpacesBlanks(text: string, i: nat)
    ensures var r := SkipSpaces(text, i);
      && (forall p :: i <= p < r ==> text[p] == ' ')
      && (r < |text| ==> text[r] != ' ')
    decreases |text| - i
  {
    if i < |text| && text[i] == ' ' {
      SkipSpacesBlanks(text, i + 1);
    }
  }

  /** The cursor after the first `n` tokens. */
  function Cursor(text: string, tokens: seq<string>, marker: string, n: nat): nat
    requires ValidMarker(marker) && n <= |tokens|
  {
    if n == 0 then 0
    else SkipSpaces(text, Cursor(text, tokens, marker, n - 1)) + Width(tokens[n - 1], marker)
  }

  /** The span recorded for token `k`. */
  function SpanAt(text: string, tokens: seq<string>, marker: string, k: nat): Span
    requires ValidMarker(marker) && k < |tokens|
  {
    Span(SkipSpaces(text, Cursor(text, tokens, marker, k)), Cursor(text, tokens, marker, k + 1))
  }

  function TokenClasses(text: string, tokens: seq<string>, labels: seq<string>, marker: string): seq<TokenClass>
    requires ValidMarker(marker) && |tokens| == |labels|
  {
    seq(|tokens|, k requires 0 <= k < |tokens| => TokenClass(tokens[k], SpanAt(text, tokens, marker, k), labels[k]))
  }

  function EntityOf(text: string, tokens: seq<string>, marker: string, iv: Interval): Entity
    requires ValidMarker(marker) && 0 <= iv.start <= iv.end < |tokens|
  {
    var a := SpanAt(text, tokens, marker, iv.start).start;
    var b := SpanAt(text, tokens, marker, iv.end).end;
    Entity(iv.entType, PySlice(text, a, b), Span(a, b))
  }

  function Entities(text: string, tokens: seq<string>, labels: seq<string>, marker: string): seq<Entity>
    requires ValidMarker(marker) && |tokens| == |labels|
  {
    var ivs := NamedEntities(labels);
    seq(|ivs|, k requires 0 <= k < |ivs| => EntityOf(text, tokens, marker, ivs[k]))
  }

  /** What `clean_result` returns: an assertion failure when token and label counts differ. */
  function CleanResultOf(text: string, tokens: seq<string>, labels: seq<string>, marker: string): Result<Cleaned>
    requires ValidMarker(marker)
  {
    if |tokens| != |labels| then Err(AssertionError)
    else Ok(Cleaned(text, tokens, Entities(text, tokens, labels, marker), TokenClasses(text, tokens, labels, marker)))
  }

  /**
   * Each token span has the token's visible width, starts at or after the
   * previous span's end, and only blanks lie in between.
   */
  lemma TokenSpanShape(text: string, tokens: seq<string>, marker: string, k: nat)
    requires ValidMarker(marker) && k < |tokens|
    ensures var sp := SpanAt(text, tokens, marker, k);
      var prev := if k == 0 then 0 else SpanAt(text, tokens, marker, k - 1).end;
      && sp.end - sp.start == Width(tokens[k], marker) >= 0
      && prev <= sp.start
      && (sp.start == prev || sp.start <= |text|)
      && (forall p :: prev <= p < sp.start ==> text[p] == ' ')
      && (sp.start < |text| ==> text[sp.start] != ' ')
  {
    var c := Cursor(text, tokens, marker, k);
    SkipSpacesBlanks(text, c);
    assert SpanAt(text, tokens, marker, k) == Span(SkipSpaces(text, c), SkipSpaces(text, c) + Width(tokens[k], marker));
    if k > 0 {
      assert SpanAt(text, tokens, marker, k - 1).end == c;
    }
  }

  /** Consecutive spans: the next one starts at or after the previous end and is well formed. */
  lemma Adjacent(text: string, tokens: seq<string>, marker: string, k: nat)
    requires ValidMarker(marker) && 0 < k < |tokens|
    ensures SpanAt(text, tokens, marker, k - 1).end <= SpanAt(text, tokens, marker, k).start
    ensures SpanAt(text, tokens, marker, k).start <= SpanAt(text, tokens, marker, k).end
  {
    var c := Cursor(text, tokens, marker, k);
    assert SpanAt(text, tokens, marker, k - 1).end == c;
    assert SpanAt(text, tokens, marker, k).start == SkipSpaces(text, c);
  }

  /** The cursor never moves back. */
  lemma {:induction false} CursorMonotone(text: string, tokens: seq<string>, marker: string, a: nat, b: nat)
    requires ValidMarker(marker) && a <= b <= |tokens|
    ensures Cursor(text, tokens, marker, a) <= Cursor(text, tokens, marker, b)
    decreases b - a
  {
    if a < b {
      CursorMonotone(text, tokens, marker, a, b - 1);
      assert Cursor(text, tokens, marker, b) >= Cursor(text, tokens, marker, b - 1);
    }
  }

  /** Earlier spans end before later spans start. */
  lemma SpansOrdered(text: string, tokens: seq<string>, marker: string, a: nat, b: nat)
    requires ValidMarker(marker) && a < b < |tokens|
    ensures SpanAt(text, tokens, marker, a).end <= SpanAt(text, tokens, marker, b).start
  {
    CursorMonotone(text, tokens, marker, a + 1, b);
  }

  /** The interval behind entity `k`, within the tokens. */
  lemma EntityAt(text: string, tokens: seq<string>, labels: seq<string>, marker: string, k: nat)
    requires ValidMarker(marker) && |tokens| == |labels| && k < |NamedEntities(labels)|
    ensures var iv := NamedEntities(labels)[k];
      && 0 <= iv.start <= iv.end < |tokens|
      && |Entities(text, tokens, labels, marker)| == |NamedEntities(labels)|
      && Entities(text, tokens, labels, marker)[k] == EntityOf(text, tokens, marker, iv)
  {
    NamedEntitiesDecoded(labels);
    assert Run(labels, |labels|, NamedEntities(labels)[k]);
  }

  /** One entity: a well-formed span whose text is the slice of the input. */
  lemma EntityShape(text: string, tokens: seq<string>, labels: seq<string>, marker: string, k: nat)
    requires ValidMarker(marker) && |tokens| == |labels| && k < |NamedEntities(labels)|
    ensures var e := Entities(text, tokens, labels, marker)[k];
      && 0 <= e.span.start <= e.span.end
      && e.text == PySlice(text, e.span.start, e.span.end)
      && e.entType == NamedEntities(labels)[k].entType
  {
    EntityAt(text, tokens, labels, marker, k);
    var iv := NamedEntities(labels)[k];
    TokenSpanShape(text, tokens, marker, iv.end);
    if iv.start < iv.end {
      SpansOrdered(text, tokens, marker, iv.start, iv.end);
      TokenSpanShape(text, tokens, marker, iv.start);
    }
  }

  /** Two entities: the earlier one ends where or before the later one starts. */
  lemma EntityPair(text: string, tokens: seq<string>, labels: seq<string>, marker: string, a: nat, b: nat)
    requires ValidMarker(marker) && |tokens| == |labels| && a < b < |NamedEntities(labels)|
    ensures var es := Entities(text, tokens, labels, marker);
      es[a].span.end <= es[b].span.start
  {
    EntityAt(text, tokens, labels, marker, a);
    EntityAt(text, tokens, labels, marker, b);
    var ivs := NamedEntities(labels);
    NamedEntitiesDecoded(labels);
    assert ivs[a].end < ivs[b].start;
    SpansOrdered(text, tokens, marker, ivs[a].end, ivs[b].start);
  }

  /** Entity spans are well formed, ordered and disjoint, and each text is the slice of its span. */
  lemma EntitiesOrdered(text: string, tokens: seq<string>, labels: seq<string>, marker: string)
    requires ValidMarker(marker) && |tokens| == |labels|
    ensures var es := Entities(text, tokens, labels, marker);
      && |es| == |NamedEntities(labels)|
      && (forall k :: 0 <= k < |es| ==> 0 <= es[k].span.start <= es[k].span.end)
      && (forall k :: 0 <= k < |es| ==> es[k].text == PySlice(text, es[k].span.start, es[k].span.end))
      && (forall k :: 0 <= k < |es| ==> es[k].entType == NamedEntities(labels)[k].entType)
      && (forall a, b :: 0 <= a < b < |es| ==> es[a].span.end <= es[b].span.start)
  {
    var es := Entities(text, tokens, labels, marker);
    forall k | 0 <= k < |es|
      ensures 0 <= es[k].span.start <= es[k].span.end
      ensures es[k].text == PySlice(text, es[k].span.start, es[k].span.end)
      ensures es[k].entType == NamedEntities(labels)[k].entType
    {
      EntityShape(text, tokens, labels, marker, k);
    }
    forall a, b | 0 <= a < b < |es| ensures es[a].span.end <= es[b].span.start {
      EntityPair(text, tokens, labels, marker, a, b);
    }
  }

  /** One more token: its class is appended and the cursor moves past it. */
  lemma TokenClassesStep(text: string, tokens: seq<string>, labels: seq<string>, marker: string, j: nat)
    requires ValidMarker(marker) && |tokens| == |labels| && j < |tokens|
    ensures var c := SkipSpaces(text, Cursor(text, tokens, marker, j));
      var w := Width(tokens[j], marker);
      && Cursor(text, tokens, marker, j + 1) == c + w
      && TokenClasses(text, tokens, labels, marker)[..j + 1]
         == TokenClasses(text, tokens, labels, marker)[..j] + [TokenClass(tokens[j], Span(c, c + w), labels[j])]
  {
    var tc := TokenClasses(text, tokens, labels, marker);
    assert tc[..j + 1] == tc[..j] + [tc[j]];
  }

  /** Entity `k`, built from the token classes of its first and last token. */
  lemma EntitiesStep(text: string, tokens: seq<string>, labels: seq<string>, marker: string, k: nat)
    requires ValidMarker(marker) && |tokens| == |labels| && k < |NamedEntities(labels)|
    ensures var iv := NamedEntities(labels)[k];
      var tc := TokenClasses(text, tokens, labels, marker);
      var es := Entities(text, tokens, labels, marker);
      && 0 <= iv.start <= iv.end < |tc|
      && |es| == |NamedEntities(labels)|
      && var sp := Span(tc[iv.start].span.start, tc[iv.end].span.end);
      es[k] == Entity(iv.entType, PySlice(text, sp.start, sp.end), sp)
  {
    EntityAt(text, tokens, labels, marker, k);
  }

  /** The inner loop of `clean_result`: advance the cursor past blanks. */
  method SkipBlanks(text: string, start: nat) returns (i: nat)
    ensures i == SkipSpaces(text, start)
  {
    i := start;
    while i < |text|
      invariant start <= i && SkipSpaces(text, i) == SkipSpaces(text, start)
      decreases |text| - i
    {
      if text[i] == ' ' {
        i := i + 1;
      } else {
        break;
      }
    }
  }

  /** The first loop of `clean_result`: one class per token, spans advanced by a cursor. */
  method ClassifyTokens(text: string, tokens: seq<string>, labels: seq<string>, marker: string)
    returns (tokenClasses: seq<TokenClass>)
    requires ValidMarker(marker) && |tokens| == |labels|
    ensures tokenClasses == TokenClasses(text, tokens, labels, marker)
  {
    ghost var spec := TokenClasses(text, tokens, labels, marker);
    tokenClasses := [];
    var i: nat := 0;
    for j := 0 to |tokens|
      invariant i == Cursor(text, tokens, marker, j)
      invariant tokenClasses == spec[..j]
    {
      var wd := tokens[j];
      var wdlen := |wd|;
      if Take(wd, 2) == "##" {
        wdlen := wdlen - 2;
      }
      if Take(wd, 1) == marker {
        wdlen := wdlen - 1;
      }
      WidthBySlices(wd, marker);
      i := SkipBlanks(text, i);
      TokenClassesStep(text, tokens, labels, marker, j);
      var span := Span(i, i + wdlen);
      i := i + wdlen;
      tokenClasses := tokenClasses + [TokenClass(wd, span, labels[j])];
    }
    assert spec[..|tokens|] == spec;
  }

  /** The second loop of `clean_result`: one entity per interval, spanning its first to last token. */
  method CollectEntities(text: string, tokens: seq<string>, labels: seq<string>, marker: string,
                         namedEntities: seq<Interval>, tokenClasses: seq<TokenClass>)
    returns (entities: seq<Entity>)
    requires ValidMarker(marker) && |tokens| == |labels|
    requires namedEntities == NamedEntities(labels)
    requires tokenClasses == TokenClasses(text, tokens, labels, marker)
    ensures entities == Entities(text, tokens, labels, marker)
  {
    ghost var spec := Entities(text, tokens, labels, marker);
    entities := [];
    for k := 0 to |namedEntities|
      invariant |entities| == k
      invariant forall m :: 0 <= m < k ==> entities[m] == spec[m]
    {
      var itm := namedEntities[k];
      EntitiesStep(text, tokens, labels, marker, k);
      var span := Span(tokenClasses[itm.start].span.start, tokenClasses[itm.end].span.end);
      entities := entities + [Entity(itm.entType, PySlice(text, span.start, span.end), span)];
    }
  }

  /** `clean_result`: the token classes, then one entity per decoded interval. */
  method CleanResult(text: string, tokens: seq<string>, labels: seq<string>, marker: string)
    returns (r: Result<Cleaned>)
    requires ValidMarker(marker)
    ensures r == CleanResultOf(text, tokens, labels, marker)
    ensures r.Err? <==> |tokens| != |labels|
  {
    if |tokens| != |labels| {
      return Err(AssertionError);
    }
    var namedEntities := CollectNamedEntities(labels);
    var tokenClasses := ClassifyTokens(text, tokens, labels, marker);
    var entities := CollectEntities(text, tokens, labels, marker, namedEntities, tokenClasses);
    r := Ok(Cleaned(text, tokens, entities, tokenClasses));
  }
  // ---------------------------------------------------------------------
  // The word-start marker

  /**
   * The marker literal as written: the three characters that the UTF-8
   * bytes of U+2581 read as in the Mac Roman encoding. A one-character
   * prefix never equals it, so the marker is never subtracted.
   */
  const AsWrittenMarker: string := "\U{201A}\U{00F1}\U{00C5}"

  /** The sentencepiece word-start marker U+2581 that xlm-roberta subwords carry. */
  const WordStartMarker: string := "\U{2581}"

  /** With the marker as written, no token's width loses the marker. */
  lemma AsWrittenMarkerNeverMatches(wd: string)
    ensures ValidMarker(AsWrittenMarker)
    ensures Take(wd, 1) != AsWrittenMarker
    ensures Width(wd, AsWrittenMarker) == |wd| - (if Take(wd, 2) == "##" then 2 else 0)
  {
    WidthBySlices(wd, AsWrittenMarker);
  }

  /** With the corrected marker, a subword that starts a word is one character narrower than its string. */
  lemma WordStartWidth(wd: string)
    requires wd != [] && wd[0] == '\U{2581}'
    ensures ValidMarker(WordStartMarker)
    ensures Width(wd, WordStartMarker) == |wd| - 1
  {
  }

  /**
   * Two tokens, the first labelled a location, over a text that starts
   * with a non-blank: one entity, spanning the first token's width.
   */
  lemma FirstTokenEntity(text: string, tokens: seq<string>, marker: string)
    requires ValidMarker(marker) && |tokens| == 2 && text != [] && text[0] != ' '
    ensures var w := Width(tokens[0], marker);
      && CleanResultOf(text, tokens, ["B-LOC", "O"], marker).Ok?
      && CleanResultOf(text, tokens, ["B-LOC", "O"], marker).value.namedEntities
        == [Entity("LOC", PySlice(text, 0, w), Span(0, w))]
  {
    assert NamedEntities(["B-LOC", "O"]) == [Interval("LOC", 0, 0)];
    assert SkipSpaces(text, 0) == 0;
    assert SpanAt(text, tokens, marker, 0) == Span(0, Width(tokens[0], marker));
  }

  /**
   * "New York" as the subwords "▁New" and "▁York" with "New" labelled a
   * location: as written the entity swallows the blank after it; with the
   * corrected marker it is exactly "New".
   */
  lemma MarkerCounterexample()
    ensures CleanResultOf("New York", ["\U{2581}New", "\U{2581}York"], ["B-LOC", "O"], AsWrittenMarker).value.namedEntities
      == [Entity("LOC", "New ", Span(0, 4))]
    ensures CleanResultOf("New York", ["\U{2581}New", "\U{2581}York"], ["B-LOC", "O"], WordStartMarker).value.namedEntities
      == [Entity("LOC", "New", Span(0, 3))]
  {
    var text := "New York";
    var tokens := ["\U{2581}New", "\U{2581}York"];
    AsWrittenMarkerNeverMatches(tokens[0]);
    FirstTokenEntity(text, tokens, AsWrittenMarker);
    FirstTokenEntity(text, tokens, WordStartMarker);
    assert text[..4] == "New ";
    assert text[..3] == "New";
  }
}
