/**
 * Python string and list helpers that the pipeline relies on: `str.split()`
 * with no argument, `" ".join(...)`, `str.strip()`, `str.split(sep)`,
 * slicing with clamping, and the flattening of a list of lists.
 * Whitespace is every ASCII character Python's `str.isspace()` accepts
 * (see `IsSpace`); the non-ASCII Unicode whitespace characters (U+0085,
 * U+00A0, U+2000 to U+200A and the like) are not modelled.
 */
module Text {

  datatype Option<T> = None | Some(value: T)

  /** The Python exceptions the modelled code can raise and does not catch. */
  datatype PyError =
    | AssertionError     // a failed `assert`
    | IndexError         // an index past the end of a list or string
    | KeyError           // a missing dictionary key
    | TypeError          // an operation applied to a value of the wrong type
    | AttributeError     // a method called on a value that lacks it
    | ValueError         // `list.index` of a missing element
    | ZeroDivisionError  // a division by zero

  datatype Result<T> = Ok(value: T) | Err(error: PyError)

  /** A dictionary field that may be absent, hold a string, or hold a non-string. */
  datatype Field = Missing | Str(s: string) | NonStr

  /** `c.isspace()` for ASCII: the blank, tab, line feed, carriage return, vertical tab, form feed and the separators U+001C to U+001F. */
  predicate IsSpace(c: char) {
    c == ' ' || c == '\t' || c == '\n' || c == '\r' || c == '\U{000B}' || c == '\U{000C}' ||
    ('\U{001C}' <= c <= '\U{001F}')
  }

  predicate NoSpace(s: string) {
    forall i :: 0 <= i < |s| ==> !IsSpace(s[i])
  }

  /** Python `xs[:n]` for n >= 0. */
  function Take<T>(xs: seq<T>, n: nat): (r: seq<T>)
    ensures |r| == if n < |xs| then n else |xs|
    ensures r <= xs
  {
    if n < |xs| then xs[..n] else xs
  }

  /** Python `xs[1:]`. */
  function Tail<T>(xs: seq<T>): (r: seq<T>)
    ensures |r| == if xs == [] then 0 else |xs| - 1
    ensures forall i :: 0 <= i < |r| ==> r[i] == xs[i + 1]
  {
    if xs == [] then [] else xs[1..]
  }

  /** Entry `j` of `xs[1:][:n]`. */
  lemma TakeTailAt<T>(xs: seq<T>, n: nat, j: nat)
    requires j < n && j + 1 < |xs|
    ensures j < |Take(Tail(xs), n)| && Take(Tail(xs), n)[j] == xs[j + 1]
  {
  }

  /** Python `xs[1:-1]`: empty for lists shorter than three. */
  function Inner<T>(xs: seq<T>): (r: seq<T>)
    ensures |xs| < 3 ==> r == []
    ensures |xs| >= 3 ==> |r| == |xs| - 2 && forall i :: 0 <= i < |r| ==> r[i] == xs[i + 1]
  {
    if |xs| < 3 then [] else xs[1..|xs| - 1]
  }

  /** Python `s[a:b]` for non-negative bounds: both ends clamp to the length. */
  function PySlice<T>(s: seq<T>, a: nat, b: nat): (r: seq<T>)
    ensures a <= b <= |s| ==> r == s[a..b]
    ensures |r| <= |s|
    ensures b <= a ==> r == []
  {
    var lo := if a < |s| then a else |s|;
    var hi := if b < |s| then b else |s|;
    if lo < hi then s[lo..hi] else []
  }

  /**
   * A Python loop over `xs` whose body `f` may raise: the outputs in order,
   * or the exception of the first element that raises.
   */
  function MapResult<A, B>(f: A -> Result<B>, xs: seq<A>): (r: Result<seq<B>>)
    ensures r.Ok? ==> |r.value| == |xs|
  {
    if xs == [] then Ok([])
    else
      var init := MapResult(f, xs[..|xs| - 1]);
      if init.Err? then Err(init.error)
      else
        match f(xs[|xs| - 1])
        case Err(e) => Err(e)
        case Ok(y) => Ok(init.value + [y])
  }

  /**
   * The loop succeeds exactly when every element does, element by element;
   * otherwise it fails with the exception of the first element that fails.
   */
  lemma {:induction false} MapResultSpec<A, B>(f: A -> Result<B>, xs: seq<A>)
    ensures var r := MapResult(f, xs);
      && (r.Ok? <==> forall k :: 0 <= k < |xs| ==> f(xs[k]).Ok?)
      && (r.Ok? ==> forall k :: 0 <= k < |xs| ==> f(xs[k]) == Ok(r.value[k]))
      && (r.Err? ==>
            exists k :: 0 <= k < |xs| && f(xs[k]) == Err(r.error) &&
              (forall i :: 0 <= i < k ==> f(xs[i]).Ok?))
    decreases |xs|
  {
    if xs != [] {
      var init := xs[..|xs| - 1];
      MapResultSpec(f, init);
      assert forall i :: 0 <= i < |init| ==> init[i] == xs[i];
      var r := MapResult(f, xs);
      if MapResult(f, init).Err? {
        var k :| 0 <= k < |init| && f(init[k]) == Err(r.error) &&
          (forall i :: 0 <= i < k ==> f(init[i]).Ok?);
        assert f(xs[k]) == Err(r.error);
      } else if f(xs[|xs| - 1]).Err? {
        assert f(xs[|xs| - 1]) == Err(r.error);
      }
    }
  }

  /** One more element that succeeds extends the outputs. */
  lemma MapResultStep<A, B>(f: A -> Result<B>, xs: seq<A>, k: nat, ys: seq<B>, y: B)
    requires k < |xs| && MapResult(f, xs[..k]) == Ok(ys) && f(xs[k]) == Ok(y)
    ensures MapResult(f, xs[..k + 1]) == Ok(ys + [y])
  {
    assert xs[..k + 1][..k] == xs[..k];
  }

  /** The loop stops at the first element that fails, with its exception. */
  lemma {:induction false} MapResultFail<A, B>(f: A -> Result<B>, xs: seq<A>, k: nat, e: PyError)
    requires k < |xs| && MapResult(f, xs[..k]).Ok? && f(xs[k]) == Err(e)
    ensures MapResult(f, xs) == Err(e)
    decreases |xs|
  {
    if k + 1 < |xs| {
      var init := xs[..|xs| - 1];
      assert init[..k] == xs[..k] && init[k] == xs[k];
      MapResultFail(f, init, k, e);
    } else {
      assert xs[..k] == xs[..|xs| - 1];
    }
  }

  /** `enumerate(xs)`. */
  function Enumerate<T>(xs: seq<T>): (r: seq<(nat, T)>)
    ensures |r| == |xs|
  {
    seq(|xs|, k requires 0 <= k < |xs| => (k, xs[k]))
  }

  /** The exception of the loop is that of the first element that fails. */
  lemma MapResultFirst<A, B>(f: A -> Result<B>, xs: seq<A>, k: nat, e: PyError)
    requires k < |xs| && f(xs[k]) == Err(e) && forall i :: 0 <= i < k ==> f(xs[i]).Ok?
    ensures MapResult(f, xs) == Err(e)
  {
    MapResultSpec(f, xs[..k]);
    MapResultFail(f, xs, k, e);
  }

  /** Two steps that agree on every element give the same loop. */
  lemma {:induction false} MapResultSame<A, B>(f: A -> Result<B>, g: A -> Result<B>, xs: seq<A>)
    requires forall k :: 0 <= k < |xs| ==> f(xs[k]) == g(xs[k])
    ensures MapResult(f, xs) == MapResult(g, xs)
    decreases |xs|
  {
    if xs != [] {
      MapResultSame(f, g, xs[..|xs| - 1]);
    }
  }

  /** The loop over two lists one after the other: the first exception, or both outputs in order. */
  lemma {:induction false} MapResultJoin<A, B>(f: A -> Result<B>, xs: seq<A>, ys: seq<A>)
    ensures var a, b := MapResult(f, xs), MapResult(f, ys);
      MapResult(f, xs + ys) ==
        if a.Err? then Err(a.error) else if b.Err? then Err(b.error) else Ok(a.value + b.value)
    decreases |ys|
  {
    if ys == [] {
      assert xs + ys == xs;
      if MapResult(f, xs).Ok? {
        assert MapResult(f, xs).value + [] == MapResult(f, xs).value;
      }
    } else {
      var init, last := ys[..|ys| - 1], ys[|ys| - 1];
      MapResultJoin(f, xs, init);
      assert (xs + ys)[..|xs + ys| - 1] == xs + init;
      assert (xs + ys)[|xs + ys| - 1] == last;
      var a, i := MapResult(f, xs), MapResult(f, init);
      if a.Ok? && i.Ok? && f(last).Ok? {
        assert MapResult(f, ys) == Ok(i.value + [f(last).value]);
        assert MapResult(f, xs + ys) == Ok((a.value + i.value) + [f(last).value]);
        assert (a.value + i.value) + [f(last).value] == a.value + (i.value + [f(last).value]);
      }
    }
  }

  /** The concatenation of a list of lists. */
  function Concat<T>(xss: seq<seq<T>>): seq<T> {
    if xss == [] then [] else Concat(xss[..|xss| - 1]) + xss[|xss| - 1]
  }

  lemma ConcatAppend<T>(xss: seq<seq<T>>, ys: seq<T>)
    ensures Concat(xss + [ys]) == Concat(xss) + ys
  {
    assert (xss + [ys])[..|xss|] == xss;
  }

  /** One more piece of a prefix. */
  lemma ConcatPrefixSnoc<T>(xss: seq<seq<T>>, k: nat)
    requires k < |xss|
    ensures Concat(xss[..k + 1]) == Concat(xss[..k]) + xss[k]
  {
    assert xss[..k + 1] == xss[..k] + [xss[k]];
    ConcatAppend(xss[..k], xss[k]);
  }

  /** `[f(x) for x in xs]`. */
  function MapSeq<A, B>(f: A -> B, xs: seq<A>): (r: seq<B>)
    ensures |r| == |xs|
  {
    seq(|xs|, i requires 0 <= i < |xs| => f(xs[i]))
  }

  /** One more element: its image is appended to the flattened images. */
  lemma ConcatMapSnoc<A, B>(f: A -> seq<B>, xs: seq<A>, k: nat)
    requires k < |xs|
    ensures Concat(MapSeq(f, xs[..k + 1])) == Concat(MapSeq(f, xs[..k])) + f(xs[k])
  {
    assert MapSeq(f, xs[..k + 1]) == MapSeq(f, xs[..k]) + [f(xs[k])];
    ConcatAppend(MapSeq(f, xs[..k]), f(xs[k]));
  }

  /** One element in front: its image comes first in the flattened images. */
  lemma ConcatMapCons<A, B>(f: A -> seq<B>, x: A, xs: seq<A>)
    ensures Concat(MapSeq(f, [x] + xs)) == f(x) + Concat(MapSeq(f, xs))
  {
    assert MapSeq(f, [x] + xs) == [f(x)] + MapSeq(f, xs);
    ConcatJoin([f(x)], MapSeq(f, xs));
    assert Concat([f(x)]) == Concat([]) + f(x);
  }

  lemma {:induction false} ConcatJoin<T>(xss: seq<seq<T>>, yss: seq<seq<T>>)
    ensures Concat(xss + yss) == Concat(xss) + Concat(yss)
    decreases |yss|
  {
    if yss == [] {
      assert xss + yss == xss;
    } else {
      var init := yss[..|yss| - 1];
      var last := yss[|yss| - 1];
      assert xss + yss == (xss + init) + [last];
      assert yss == init + [last];
      ConcatAppend(xss + init, last);
      ConcatAppend(init, last);
      ConcatJoin(xss, init);
    }
  }

  /** Lists of equal lengths, position by position, flatten to lists of equal length. */
  lemma {:induction false} ConcatSameShape<T, U>(xss: seq<seq<T>>, yss: seq<seq<U>>)
    requires |xss| == |yss| && forall k :: 0 <= k < |xss| ==> |xss[k]| == |yss[k]|
    ensures |Concat(xss)| == |Concat(yss)|
    decreases |xss|
  {
    if xss != [] {
      ConcatSameShape(xss[..|xss| - 1], yss[..|yss| - 1]);
    }
  }

  /** Element `j` of piece `k` sits after the first `k` pieces in the flattened list. */
  lemma {:induction false} ConcatIndex<T>(xss: seq<seq<T>>, k: nat, j: nat)
    requires k < |xss| && j < |xss[k]|
    ensures |Concat(xss[..k])| + j < |Concat(xss)|
    ensures Concat(xss)[|Concat(xss[..k])| + j] == xss[k][j]
    decreases |xss|
  {
    var init := xss[..|xss| - 1];
    if k == |xss| - 1 {
      assert xss[..k] == init;
    } else {
      ConcatIndex(init, k, j);
      assert init[..k] == xss[..k];
      ConcatPrefixLength(init, k);
    }
  }

  lemma {:induction false} ConcatPrefixLength<T>(xss: seq<seq<T>>, k: nat)
    requires k <= |xss|
    ensures |Concat(xss[..k])| <= |Concat(xss)|
    decreases |xss|
  {
    if k < |xss| {
      var init := xss[..|xss| - 1];
      assert init[..k] == xss[..k];
      ConcatPrefixLength(init, k);
    } else {
      assert xss[..k] == xss;
    }
  }

  // ---------------------------------------------------------------------
  // Fixed-size chunks

  /** Consecutive chunks of `bs` elements, the last one holding the rest. */
  function Chunks<T>(xs: seq<T>, bs: nat): seq<seq<T>>
    requires bs > 0
    decreases |xs|
  {
    if xs == [] then []
    else if |xs| <= bs then [xs]
    else [xs[..bs]] + Chunks(xs[bs..], bs)
  }

  /** Concatenating the chunks gives back the list. */
  lemma {:induction false} ChunksConcat<T>(xs: seq<T>, bs: nat)
    requires bs > 0
    ensures Concat(Chunks(xs, bs)) == xs
    decreases |xs|
  {
    if |xs| > bs {
      ChunksConcat(xs[bs..], bs);
      ConcatJoin([xs[..bs]], Chunks(xs[bs..], bs));
      assert Concat([xs[..bs]]) == Concat([]) + xs[..bs];
      assert xs == xs[..bs] + xs[bs..];
    } else if xs != [] {
      assert Concat([xs]) == Concat([]) + xs;
    }
  }

  /** Every chunk is non-empty and holds at most `bs` elements; all but the last hold exactly `bs`. */
  lemma {:induction false} ChunkSizes<T>(xs: seq<T>, bs: nat)
    requires bs > 0
    ensures forall k :: 0 <= k < |Chunks(xs, bs)| ==> 0 < |Chunks(xs, bs)[k]| <= bs
    ensures forall k :: 0 <= k < |Chunks(xs, bs)| - 1 ==> |Chunks(xs, bs)[k]| == bs
    decreases |xs|
  {
    if |xs| > bs {
      ChunkSizes(xs[bs..], bs);
      var c := Chunks(xs, bs);
      assert forall k :: 1 <= k < |c| ==> c[k] == Chunks(xs[bs..], bs)[k - 1];
    }
  }

  /** There are ceil(n / bs) chunks: `(count - 1) * bs < n <= count * bs`, and none for an empty list. */
  lemma {:induction false} ChunksCount<T>(xs: seq<T>, bs: nat)
    requires bs > 0
    ensures xs == [] <==> Chunks(xs, bs) == []
    ensures xs != [] ==> (|Chunks(xs, bs)| - 1) * bs < |xs| <= |Chunks(xs, bs)| * bs
    decreases |xs|
  {
    if |xs| > bs {
      var rest := xs[bs..];
      ChunksCount(rest, bs);
      var c := |Chunks(rest, bs)|;
      assert (c + 1) * bs == c * bs + bs;
      assert c * bs == (c - 1) * bs + bs;
    }
  }

  /** After a whole number of full chunks, a non-empty remainder of at most `bs` is one more chunk. */
  lemma {:induction false} ChunksSnoc<T>(xs: seq<T>, ys: seq<T>, bs: nat, m: nat)
    requires bs > 0 && |xs| == m * bs && 0 < |ys| <= bs
    ensures Chunks(xs + ys, bs) == Chunks(xs, bs) + [ys]
    decreases m
  {
    if m == 0 {
      assert xs + ys == ys;
    } else {
      assert m * bs == (m - 1) * bs + bs;
      ChunksSnoc(xs[bs..], ys, bs, m - 1);
      assert (xs + ys)[..bs] == xs[..bs];
      assert (xs + ys)[bs..] == xs[bs..] + ys;
      if m == 1 {
        assert xs[bs..] == [] && xs[..bs] == xs;
      }
    }
  }

  lemma MulLe(a: int, b: int, k: nat)
    requires a <= b
    ensures a * k <= b * k
  {
    assert b * k - a * k == (b - a) * k;
  }

  /** Integer division by its bounds: `c * d <= n < (c + 1) * d` makes `n / d` equal to `c`. */
  lemma DivBetween(n: nat, d: nat, c: nat)
    requires d > 0 && c * d <= n < (c + 1) * d
    ensures n / d == c
  {
    var q := n / d;
    assert n == q * d + n % d;
    if q < c {
      assert (q + 1) * d == q * d + d;
      MulLe(q + 1, c, d);
    } else if q > c {
      MulLe(c + 1, q, d);
    }
  }

  /** The number of chunks is `ceil(n / bs)`. */
  lemma ChunksCeil<T>(xs: seq<T>, bs: nat)
    requires bs > 0
    ensures |Chunks(xs, bs)| == (|xs| + bs - 1) / bs
  {
    ChunksCount(xs, bs);
    var c := |Chunks(xs, bs)|;
    if xs == [] {
      DivBetween(bs - 1, bs, 0);
    } else {
      assert c * bs == (c - 1) * bs + bs;
      assert (c + 1) * bs == c * bs + bs;
      DivBetween(|xs| + bs - 1, bs, c);
    }
  }

  /** Slicing after dropping `d` elements is slicing `d` further on. */
  lemma PySliceDrop<T>(xs: seq<T>, d: nat, a: nat, b: nat)
    requires d <= |xs|
    ensures PySlice(xs[d..], a, b) == PySlice(xs, a + d, b + d)
  {
  }

  /** Chunk `k` exists exactly when `k * bs < n`. */
  lemma {:induction false} ChunkExists<T>(xs: seq<T>, bs: nat, k: nat)
    requires bs > 0
    ensures k < |Chunks(xs, bs)| <==> k * bs < |xs|
    decreases |xs|
  {
    if xs == [] {
    } else if |xs| <= bs {
      if k >= 1 {
        assert k * bs == (k - 1) * bs + bs;
      }
    } else if k > 0 {
      ChunkExists(xs[bs..], bs, k - 1);
      assert k * bs == (k - 1) * bs + bs;
    }
  }

  /** Chunk `k` is the slice from `k * bs` to `(k + 1) * bs`, clamped at the end. */
  lemma {:induction false} ChunkAt<T>(xs: seq<T>, bs: nat, k: nat)
    requires bs > 0 && k < |Chunks(xs, bs)|
    ensures Chunks(xs, bs)[k] == PySlice(xs, k * bs, (k + 1) * bs)
    decreases |xs|
  {
    if |xs| <= bs {
    } else if k > 0 {
      var rest := xs[bs..];
      ChunkAt(rest, bs, k - 1);
      var lo', hi' := (k - 1) * bs, k * bs;
      assert k * bs == lo' + bs && (k + 1) * bs == hi' + bs;
      PySliceDrop(xs, bs, lo', hi');
      assert Chunks(xs, bs)[k] == Chunks(rest, bs)[k - 1];
    }
  }

  /** `sep.join(pieces)`. */
  function Join(sep: string, pieces: seq<string>): string {
    if pieces == [] then ""
    else if |pieces| == 1 then pieces[0]
    else pieces[0] + sep + Join(sep, pieces[1..])
  }

  // ---------------------------------------------------------------------
  // str.split() with no argument and " ".join(...)

  /** Length of the leading run of non-whitespace characters. */
  function RunLength(s: string): (n: nat)
    ensures n <= |s|
    ensures forall i :: 0 <= i < n ==> !IsSpace(s[i])
    ensures n < |s| ==> IsSpace(s[n])
  {
    if s == [] || IsSpace(s[0]) then 0 else 1 + RunLength(s[1..])
  }

  /** Python `s.split()`: the maximal runs of non-whitespace characters. */
  function Words(s: string): (ws: seq<string>)
    ensures forall i :: 0 <= i < |ws| ==> ws[i] != [] && NoSpace(ws[i])
    decreases |s|
  {
    if s == [] then []
    else if IsSpace(s[0]) then Words(s[1..])
    else
      var n := RunLength(s);
      [s[..n]] + Words(s[n..])
  }

  /** Python `" ".join(s.split())`: whitespace runs collapse to one blank, ends trimmed. */
  function Collapse(s: string): string {
    Join(" ", Words(s))
  }

  /** What `Collapse` promises: no whitespace but single blanks between non-blank characters. */
  ghost predicate Collapsed(t: string) {
    && (t != [] ==> t[0] != ' ' && t[|t| - 1] != ' ')
    && (forall i :: 0 <= i < |t| ==> t[i] == ' ' || !IsSpace(t[i]))
    && (forall i :: 0 <= i < |t| - 1 ==> !(t[i] == ' ' && t[i + 1] == ' '))
  }

  lemma {:induction false} JoinCollapsed(ws: seq<string>)
    requires forall i :: 0 <= i < |ws| ==> ws[i] != [] && NoSpace(ws[i])
    ensures Collapsed(Join(" ", ws))
    decreases |ws|
  {
    if |ws| > 1 {
      JoinCollapsed(ws[1..]);
      var rest := Join(" ", ws[1..]);
      var t := ws[0] + " " + rest;
      assert t == Join(" ", ws);
      assert rest != [] && rest[0] != ' ' by { JoinHead(ws[1..]); }
      forall i | 0 <= i < |t|
        ensures t[i] == ' ' || !IsSpace(t[i])
      {
        if i > |ws[0]| { assert t[i] == rest[i - |ws[0]| - 1]; }
      }
      forall i | 0 <= i < |t| - 1
        ensures !(t[i] == ' ' && t[i + 1] == ' ')
      {
        if i > |ws[0]| { assert t[i] == rest[i - |ws[0]| - 1]; assert t[i + 1] == rest[i - |ws[0]|]; }
      }
    }
  }

  lemma {:induction false} JoinHead(ws: seq<string>)
    requires |ws| > 0 && forall i :: 0 <= i < |ws| ==> ws[i] != [] && NoSpace(ws[i])
    ensures Join(" ", ws) != [] && Join(" ", ws)[0] == ws[0][0]
  {
  }

  lemma {:induction false} WordsOfJoin(ws: seq<string>)
    requires forall i :: 0 <= i < |ws| ==> ws[i] != [] && NoSpace(ws[i])
    ensures Words(Join(" ", ws)) == ws
    decreases |ws|
  {
    if ws == [] {
    } else {
      var w := ws[0];
      var t := Join(" ", ws);
      RunOfWord(w, if |ws| == 1 then "" else " " + Join(" ", ws[1..]));
      if |ws| == 1 {
        assert t == w + "";
        assert t[|w|..] == [];
      } else {
        var rest := Join(" ", ws[1..]);
        assert t == w + (" " + rest);
        assert t[|w|..] == " " + rest;
        assert Words(" " + rest) == Words(rest) by {
          assert (" " + rest)[1..] == rest;
        }
        WordsOfJoin(ws[1..]);
      }
    }
  }

  lemma {:induction false} RunOfWord(w: string, rest: string)
    requires w != [] && NoSpace(w)
    requires rest == [] || IsSpace(rest[0])
    ensures RunLength(w + rest) == |w|
    ensures Words(w + rest) == [w] + Words(rest)
    decreases |w|
  {
    if |w| > 1 {
      assert (w + rest)[1..] == w[1..] + rest;
      RunOfWord(w[1..], rest);
    } else {
      assert (w + rest)[1..] == rest;
    }
    assert (w + rest)[..|w|] == w;
    assert (w + rest)[|w|..] == rest;
  }

  /** Collapsing is idempotent: collapsing an already collapsed text changes nothing. */
  lemma CollapseIdempotent(s: string)
    ensures Collapse(Collapse(s)) == Collapse(s)
    ensures Collapsed(Collapse(s))
  {
    WordsOfJoin(Words(s));
    JoinCollapsed(Words(s));
  }

  // ---------------------------------------------------------------------
  // str.strip()

  function LStrip(s: string): (r: string)
    ensures |r| <= |s| && r == s[|s| - |r|..]
    ensures r != [] ==> !IsSpace(r[0])
    ensures forall i :: 0 <= i < |s| - |r| ==> IsSpace(s[i])
  {
    if s != [] && IsSpace(s[0]) then LStrip(s[1..]) else s
  }

  function RStrip(s: string): (r: string)
    ensures |r| <= |s| && r == s[..|r|]
    ensures r != [] ==> !IsSpace(r[|r| - 1])
    ensures forall i :: |r| <= i < |s| ==> IsSpace(s[i])
  {
    if s != [] && IsSpace(s[|s| - 1]) then RStrip(s[..|s| - 1]) else s
  }

  /** Python `s.strip()`. */
  function Strip(s: string): (r: string)
    ensures |r| <= |s|
    ensures r != [] ==> !IsSpace(r[0]) && !IsSpace(r[|r| - 1])
  {
    RStrip(LStrip(s))
  }

  // ---------------------------------------------------------------------
  // str.split(sep) with a one-character separator

  /** Python `list.index` / `str.index`: the first position of `c`. */
  function IndexOf<T(==)>(s: seq<T>, c: T): (i: nat)
    requires c in s
    ensures i < |s| && s[i] == c && c !in s[..i]
  {
    if s[0] == c then 0 else 1 + IndexOf(s[1..], c)
  }

  /** Python `s.split(c)`: always at least one piece, empty pieces kept. */
  function SplitOn(s: string, c: char): (r: seq<string>)
    ensures |r| >= 1
    ensures forall i :: 0 <= i < |r| ==> c !in r[i]
    decreases |s|
  {
    if c !in s then [s]
    else
      var i := IndexOf(s, c);
      [s[..i]] + SplitOn(s[i + 1..], c)
  }

  /** Joining the pieces with the separator gives the text back. */
  lemma {:induction false} SplitOnJoin(s: string, c: char)
    ensures Join([c], SplitOn(s, c)) == s
    decreases |s|
  {
    if c in s {
      var i := IndexOf(s, c);
      var rest := SplitOn(s[i + 1..], c);
      assert SplitOn(s, c) == [s[..i]] + rest;
      JoinCons([c], s[..i], rest);
      SplitOnJoin(s[i + 1..], c);
      assert s == s[..i] + [c] + s[i + 1..];
    }
  }

  lemma JoinCons(sep: string, p: string, rest: seq<string>)
    requires rest != []
    ensures Join(sep, [p] + rest) == p + sep + Join(sep, rest)
  {
    assert ([p] + rest)[1..] == rest;
  }
}
