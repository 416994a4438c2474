/**
 * The row layout shared by every `_build_batch`: a token-id list cut to the
 * batch's maximum length, filled with the padding id, and wrapped in the
 * start and end ids; and the masks computed over the padded rows by
 * element-wise tensor assignments. Tensor entries are whole numbers in the
 * source (ids, 0, 1 and -1 stored as floats), so they are `int` here.
 */
module Padding {
  import opened Text

  /** The start, end and padding ids of a pretrained tokenizer. */
  datatype Sentinels = Sentinels(start: int, end: int, pad: int)

  /** `[v for _ in range(n)]`. */
  function Fill<T>(v: T, n: nat): (r: seq<T>)
    ensures |r| == n && forall j :: 0 <= j < n ==> r[j] == v
  {
    seq(n, _ => v)
  }

  /**
   * One padded row: the start id, the first `ml` ids, the padding id up to
   * length `ml`, the end id.
   */
  function PadRow(ids: seq<int>, ml: nat, s: Sentinels): (r: seq<int>)
    ensures |r| == ml + 2
    ensures r[0] == s.start && r[ml + 1] == s.end
    ensures forall j :: 0 <= j < ml ==> r[j + 1] == (if j < |ids| then ids[j] else s.pad)
  {
    var t := Take(ids, ml);
    [s.start] + t + Fill(s.pad, ml - |t|) + [s.end]
  }

  /** Past the ids, up to the end id, a row holds only the padding id. */
  lemma PadRowFill(ids: seq<int>, ml: nat, s: Sentinels)
    ensures forall j :: |ids| < j <= ml ==> PadRow(ids, ml, s)[j] == s.pad
  {
    var row := PadRow(ids, ml, s);
    forall j | |ids| < j <= ml ensures row[j] == s.pad {
      assert row[(j - 1) + 1] == s.pad;
    }
  }

  /** The longest length in `arr`, 0 for an empty batch. */
  function Longest(arr: seq<seq<int>>): (m: nat)
    ensures forall k :: 0 <= k < |arr| ==> |arr[k]| <= m
    ensures arr == [] ==> m == 0
    ensures arr != [] ==> exists k :: 0 <= k < |arr| && |arr[k]| == m
  {
    if arr == [] then 0
    else
      var m := Longest(arr[..|arr| - 1]);
      if m < |arr[|arr| - 1]| then |arr[|arr| - 1]| else m
  }

  lemma LongestAppend(arr: seq<seq<int>>, row: seq<int>)
    ensures Longest(arr + [row]) == if Longest(arr) < |row| then |row| else Longest(arr)
  {
    assert (arr + [row])[..|arr|] == arr;
  }

  /** The padding loop of `_build_batch`: one padded row per id list, in order. */
  method PadRows(tokensArr: seq<seq<int>>, ml: nat, s: Sentinels) returns (tokensOut: seq<seq<int>>)
    ensures |tokensOut| == |tokensArr|
    ensures forall k :: 0 <= k < |tokensArr| ==> tokensOut[k] == PadRow(tokensArr[k], ml, s)
  {
    tokensOut := [];
    for k := 0 to |tokensArr|
      invariant |tokensOut| == k
      invariant forall m :: 0 <= m < k ==> tokensOut[m] == PadRow(tokensArr[m], ml, s)
    {
      var itm := Take(tokensArr[k], ml);
      itm := itm + Fill(s.pad, ml - |itm|);
      itm := [s.start] + itm + [s.end];
      tokensOut := tokensOut + [itm];
    }
  }

  // ---------------------------------------------------------------------
  // Masks

  /** The tensor assignment `m[hit(m)] = x`: every entry satisfying `hit` becomes `x`. */
  function Assign(m: seq<seq<int>>, hit: int -> bool, x: int): (r: seq<seq<int>>)
    ensures |r| == |m|
    ensures forall k :: 0 <= k < |m| ==> |r[k]| == |m[k]|
  {
    seq(|m|, k requires 0 <= k < |m| =>
      seq(|m[k]|, j requires 0 <= j < |m[k]| => if hit(m[k][j]) then x else m[k][j]))
  }

  /** Element-wise `m + c`; `c == 0` with `Negate` gives `-m`. */
  function AddConst(m: seq<seq<int>>, c: int): (r: seq<seq<int>>)
    ensures |r| == |m|
    ensures forall k :: 0 <= k < |m| ==> |r[k]| == |m[k]|
  {
    seq(|m|, k requires 0 <= k < |m| => seq(|m[k]|, j requires 0 <= j < |m[k]| => m[k][j] + c))
  }

  function Negate(m: seq<seq<int>>): (r: seq<seq<int>>)
    ensures |r| == |m|
    ensures forall k :: 0 <= k < |m| ==> |r[k]| == |m[k]|
  {
    seq(|m|, k requires 0 <= k < |m| => seq(|m[k]|, j requires 0 <= j < |m[k]| => -m[k][j]))
  }

  /** Reference definition of the padding mask: 1 at every id but the padding id, 0 there. */
  function PadMaskOf(rows: seq<seq<int>>, pad: int): (r: seq<seq<int>>)
    ensures |r| == |rows|
    ensures forall k :: 0 <= k < |rows| ==> |r[k]| == |rows[k]|
  {
    seq(|rows|, k requires 0 <= k < |rows| =>
      seq(|rows[k]|, j requires 0 <= j < |rows[k]| => if rows[k][j] == pad then 0 else 1))
  }

  /**
   * The three tensor statements that build `pad_mask`: non-padding entries
   * become -1, padding entries 0, then the tensor is negated.
   */
  method BuildPadMask(rows: seq<seq<int>>, pad: int) returns (padMask: seq<seq<int>>)
    requires pad != -1
    ensures padMask == PadMaskOf(rows, pad)
  {
    padMask := rows;
    padMask := Assign(padMask, x => x != pad, -1);
    ghost var first := padMask;
    padMask := Assign(padMask, x => x == pad, 0);
    ghost var second := padMask;
    padMask := Negate(padMask);
    forall k | 0 <= k < |rows| ensures padMask[k] == PadMaskOf(rows, pad)[k] {
      forall j | 0 <= j < |rows[k]| ensures padMask[k][j] == PadMaskOf(rows, pad)[k][j] {
        assert first[k][j] == if rows[k][j] != pad then -1 else rows[k][j];
        assert second[k][j] == if first[k][j] == pad then 0 else first[k][j];
      }
    }
  }

  /** Reference definition of the attention mask: 0 at the start, end and padding ids (and at -1), 1 elsewhere. */
  function AttnMaskOf(rows: seq<seq<int>>, s: Sentinels): (r: seq<seq<int>>)
    ensures |r| == |rows|
    ensures forall k :: 0 <= k < |rows| ==> |r[k]| == |rows[k]|
  {
    seq(|rows|, k requires 0 <= k < |rows| =>
      seq(|rows[k]|, j requires 0 <= j < |rows[k]| =>
        var x := rows[k][j];
        if x == s.start || x == s.end || x == s.pad || x == -1 then 0 else 1))
  }

  /**
   * The five tensor statements that build `attn_mask`: start, end and
   * padding entries become -1, every other entry 0, then 1 is added.
   */
  method BuildAttnMask(rows: seq<seq<int>>, s: Sentinels) returns (attnMask: seq<seq<int>>)
    ensures attnMask == AttnMaskOf(rows, s)
  {
    attnMask := rows;
    attnMask := Assign(attnMask, x => x == s.start, -1);
    ghost var m1 := attnMask;
    attnMask := Assign(attnMask, x => x == s.end, -1);
    ghost var m2 := attnMask;
    attnMask := Assign(attnMask, x => x == s.pad, -1);
    ghost var m3 := attnMask;
    attnMask := Assign(attnMask, x => x != -1, 0);
    ghost var m4 := attnMask;
    attnMask := AddConst(attnMask, 1);
    forall k | 0 <= k < |rows| ensures attnMask[k] == AttnMaskOf(rows, s)[k] {
      forall j | 0 <= j < |rows[k]| ensures attnMask[k][j] == AttnMaskOf(rows, s)[k][j] {
        assert m1[k][j] == if rows[k][j] == s.start then -1 else rows[k][j];
        assert m2[k][j] == if m1[k][j] == s.end then -1 else m1[k][j];
        assert m3[k][j] == if m2[k][j] == s.pad then -1 else m2[k][j];
        assert m4[k][j] == if m3[k][j] != -1 then 0 else m3[k][j];
      }
    }
  }

  /** Token ids are never -1, so the attention mask is 0 exactly at the three sentinel ids. */
  lemma AttnMaskOfIds(rows: seq<seq<int>>, s: Sentinels, k: nat, j: nat)
    requires k < |rows| && j < |rows[k]| && rows[k][j] >= 0
    ensures AttnMaskOf(rows, s)[k][j] == 0 <==> rows[k][j] in {s.start, s.end, s.pad}
    ensures AttnMaskOf(rows, s)[k][j] == 1 <==> rows[k][j] !in {s.start, s.end, s.pad}
  {
  }
}
