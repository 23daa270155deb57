/** `ReorderSmpteToCA` and its template `_ReorderSmpteToCA`: rewrites a buffer
    of 8-channel frames in place from SMPTE channel order
    (L R C LFE Rls Rrs Ls Rs) to Core Audio's (L R C LFE Ls Rs Rls Rrs), i.e.
    in every frame samples 4, 5 trade places with samples 6, 7.

    The buffer is a byte array; the template parameter is the sample type,
    which here is its width `w` in bytes (1 for `uchar`, 2 for `short`, 4 for `int`). */
module Reorder {
  import opened AudioTypes

  /** The widths of the three template instances. */
  predicate IsSampleWidth(w: int)
  {
    w == 1 || w == 2 || w == 4
  }

  /** The instance `ReorderSmpteToCA` picks from the format's bit count:
      8 bits as `uchar`, 16 as `short`, anything else as `int`. Every
      sample of at most 32 bits fits in the element it is moved as. */
  function SampleBytes(bits: int): (w: int)
    ensures IsSampleWidth(w)
    ensures w == 1 <==> bits == 8
    ensures w == 2 <==> bits == 16
    ensures 0 <= bits <= 32 ==> bits <= 8 * w
  {
    if bits == 8 then 1 else if bits == 16 then 2 else 4
  }

  /** The byte offset of element `n` of a buffer of `size`-byte elements,
      `n * size`, spelled out as repeated addition (`OffsetIsProduct`) so
      that the proofs about it stay linear. */
  function Offset(n: nat, size: nat): nat
  {
    if n == 0 then 0 else Offset(n - 1, size) + size
  }

  lemma {:induction false} OffsetIsProduct(n: nat, size: nat)
    ensures Offset(n, size) == n * size
  {
    if n > 0 {
      OffsetIsProduct(n - 1, size);
    }
  }

  lemma {:induction false} OffsetMonotonic(a: nat, b: nat, size: nat)
    requires a <= b
    ensures Offset(a, size) <= Offset(b, size)
    decreases b
  {
    if a < b {
      OffsetMonotonic(a, b - 1, size);
    }
  }

  /** One frame of eight samples of `w` bytes in Core Audio order. */
  function SwapSurrounds(c: seq<byte>, w: int): (r: seq<byte>)
    requires 0 < w && |c| == 8 * w
    ensures |r| == |c|
  {
    c[..4 * w] + c[6 * w..] + c[4 * w .. 6 * w]
  }

  /** Which byte of a frame byte `x` of the reordered frame comes from:
      the bytes of samples 4, 5 and of samples 6, 7 trade places. */
  function SwapSource(x: nat, w: nat): (y: nat)
    requires x < 8 * w
    ensures y < 8 * w
    ensures x < 4 * w ==> y == x
  {
    if 4 * w <= x < 6 * w then x + 2 * w else if 6 * w <= x then x - 2 * w else x
  }

  /** Trading the two pairs twice puts every byte back. */
  lemma SwapSourceInvolution(x: nat, w: nat)
    requires x < 8 * w
    ensures SwapSource(SwapSource(x, w), w) == x
  {
  }

  /** Byte `x` of a reordered frame. */
  lemma SwapSurroundsIndex(c: seq<byte>, w: int, x: nat)
    requires 0 < w && |c| == 8 * w && x < 8 * w
    ensures SwapSurrounds(c, w)[x] == c[SwapSource(x, w)]
  {
  }

  lemma SwapSurroundsPermutes(c: seq<byte>, w: int)
    requires 0 < w && |c| == 8 * w
    ensures multiset(SwapSurrounds(c, w)) == multiset(c)
  {
    assert c == c[..4 * w] + c[4 * w .. 6 * w] + c[6 * w..];
  }

  /** After the first `frames` frames are reordered, the byte at `j` is the
      one that was at `Source(j, frames, w)`: inside the last of those frames
      it comes from the mirrored slot of that frame, before it as after
      fewer frames, and past them from `j` itself. */
  function Source(j: nat, frames: nat, w: nat): nat
    requires 0 < w
    decreases frames
  {
    if frames == 0 then j
    else if Offset(frames - 1, 8 * w) <= j < Offset(frames, 8 * w) then
      Offset(frames - 1, 8 * w) + SwapSource(j - Offset(frames - 1, 8 * w), w)
    else Source(j, frames - 1, w)
  }

  /** The buffer after the reorder: `frames` frames rewritten, the rest as it was. */
  function Reordered(s: seq<byte>, frames: nat, w: int): (r: seq<byte>)
    requires 0 < w && Offset(frames, 8 * w) <= |s|
    ensures |r| == |s|
  {
    seq(|s|, j requires 0 <= j < |s| => SourceBounds(j, frames, w); s[Source(j, frames, w)])
  }

  /** Bytes inside the reordered frames come from inside them; the others stay. */
  lemma {:induction false} SourceBounds(j: nat, frames: nat, w: nat)
    requires 0 < w
    ensures j < Offset(frames, 8 * w) ==> Source(j, frames, w) < Offset(frames, 8 * w)
    ensures Offset(frames, 8 * w) <= j ==> Source(j, frames, w) == j
    decreases frames
  {
    if frames > 0 {
      SourceBounds(j, frames - 1, w);
    }
  }

  /** Byte `x` of frame `f` of the buffer is taken from slot `SwapSource(x, w)` of
      the same frame. */
  lemma {:induction false} SourceInFrame(f: nat, x: nat, frames: nat, w: nat)
    requires 0 < w && f < frames && x < 8 * w
    ensures Source(Offset(f, 8 * w) + x, frames, w) == Offset(f, 8 * w) + SwapSource(x, w)
    decreases frames
  {
    if f < frames - 1 {
      OffsetMonotonic(f + 1, frames - 1, 8 * w);
      SourceInFrame(f, x, frames - 1, w);
    }
  }

  /** The byte map is its own inverse. */
  lemma {:induction false} SourceInvolution(j: nat, frames: nat, w: nat)
    requires 0 < w
    ensures Source(Source(j, frames, w), frames, w) == j
    decreases frames
  {
    if frames > 0 {
      var lo := Offset(frames - 1, 8 * w);
      if lo <= j < Offset(frames, 8 * w) {
        SwapSourceInvolution(j - lo, w);
      } else {
        SourceBounds(j, frames - 1, w);
        SourceInvolution(j, frames - 1, w);
      }
    }
  }

  /** Bytes past the last whole frame are not touched. */
  lemma ReorderedLeavesTail(s: seq<byte>, frames: nat, w: int, j: nat)
    requires 0 < w && Offset(frames, 8 * w) <= j < |s|
    ensures Reordered(s, frames, w)[j] == s[j]
  {
  }

  /** Reordering twice gives the buffer back. */
  lemma ReorderedInvolution(s: seq<byte>, frames: nat, w: int)
    requires 0 < w && Offset(frames, 8 * w) <= |s|
    ensures Reordered(Reordered(s, frames, w), frames, w) == s
  {
    var r := Reordered(s, frames, w);
    forall j | 0 <= j < |s|
      ensures Reordered(r, frames, w)[j] == s[j]
    {
      SourceBounds(j, frames, w);
      SourceInvolution(j, frames, w);
    }
  }

  /** `t` with the one frame that starts at byte `b` reordered. */
  function SwapFrameAt(t: seq<byte>, b: nat, w: int): (r: seq<byte>)
    requires 0 < w && b + 8 * w <= |t|
    ensures |r| == |t|
  {
    seq(|t|, j requires 0 <= j < |t| => if b <= j < b + 8 * w then t[b + SwapSource(j - b, w)] else t[j])
  }

  /** The same buffer as the frames before `b`, the frame at `b` in Core
      Audio order, and the bytes after it. */
  lemma SwapFrameAtSplit(t: seq<byte>, b: nat, w: int)
    requires 0 < w && b + 8 * w <= |t|
    ensures SwapFrameAt(t, b, w) == t[..b] + SwapSurrounds(t[b .. b + 8 * w], w) + t[b + 8 * w..]
  {
    var c := t[b .. b + 8 * w];
    var u := t[..b] + SwapSurrounds(c, w) + t[b + 8 * w..];
    forall j | 0 <= j < |t|
      ensures SwapFrameAt(t, b, w)[j] == u[j]
    {
      if b <= j < b + 8 * w {
        SwapSurroundsIndex(c, w, j - b);
      }
    }
  }

  lemma SwapFrameAtPermutes(t: seq<byte>, b: nat, w: int)
    requires 0 < w && b + 8 * w <= |t|
    ensures multiset(SwapFrameAt(t, b, w)) == multiset(t)
  {
    var c := t[b .. b + 8 * w];
    SwapFrameAtSplit(t, b, w);
    SwapSurroundsPermutes(c, w);
    assert t == t[..b] + c + t[b + 8 * w..];
  }

  /** One turn of the frame loop: reordering frame `i` of a buffer whose
      first `i` frames are done leaves the first `i + 1` done. */
  lemma ReorderStep(s: seq<byte>, i: nat, w: int)
    requires 0 < w && Offset(i + 1, 8 * w) <= |s|
    ensures Offset(i, 8 * w) + 8 * w <= |s|
    ensures Reordered(s, i + 1, w) == SwapFrameAt(Reordered(s, i, w), Offset(i, 8 * w), w)
  {
    var b := Offset(i, 8 * w);
    var t := Reordered(s, i, w);
    forall j | 0 <= j < |s|
      ensures Reordered(s, i + 1, w)[j] == SwapFrameAt(t, b, w)[j]
    {
      if b <= j < b + 8 * w {
        SourceBounds(b + SwapSource(j - b, w), i, w);
      }
    }
  }

  /** Nothing is reordered after zero frames. */
  lemma ReorderedNone(s: seq<byte>, w: int)
    requires 0 < w
    ensures Reordered(s, 0, w) == s
  {
  }

  /** Reordering one more frame keeps the bytes. */
  lemma ReorderStepPermutes(s: seq<byte>, i: nat, w: int)
    requires 0 < w && Offset(i + 1, 8 * w) <= |s|
    ensures multiset(Reordered(s, i + 1, w)) == multiset(Reordered(s, i, w))
  {
    ReorderStep(s, i, w);
    SwapFrameAtPermutes(Reordered(s, i, w), Offset(i, 8 * w), w);
  }

  /** The reorder only permutes the buffer's bytes. */
  lemma {:induction false} ReorderedPermutes(s: seq<byte>, frames: nat, w: int)
    requires 0 < w && Offset(frames, 8 * w) <= |s|
    ensures multiset(Reordered(s, frames, w)) == multiset(s)
    decreases frames
  {
    if frames == 0 {
      ReorderedNone(s, w);
    } else {
      ReorderStepPermutes(s, frames - 1, w);
      ReorderedPermutes(s, frames - 1, w);
    }
  }

  /** Swaps samples 4, 5 with 6, 7 of the frame that starts at byte `base`
      (the body of the template's frame loop). */
  method SwapSurroundsAt(buf: array<byte>, base: nat, w: int)
    requires 0 < w && base + 8 * w <= buf.Length
    modifies buf
    ensures buf[..] == SwapFrameAt(old(buf[..]), base, w)
  {
    var lo, hi := base + 4 * w, base + 6 * w;
    var k := 0;
    while k < 2 * w
      invariant 0 <= k <= 2 * w
      invariant forall t :: 0 <= t < buf.Length ==>
        buf[t] == (if lo <= t < lo + k then old(buf[t + 2 * w])
                   else if hi <= t < hi + k then old(buf[t - 2 * w])
                   else old(buf[t]))
    {
      buf[lo + k], buf[hi + k] := buf[hi + k], buf[lo + k];
      k := k + 1;
    }
    ghost var t := old(buf[..]);
    ghost var r := SwapFrameAt(t, base, w);
    forall j | 0 <= j < buf.Length
      ensures buf[j] == r[j]
    {
      if base <= j < base + 8 * w {
        assert r[j] == t[base + SwapSource(j - base, w)];
      } else {
        assert r[j] == t[j];
      }
    }
    assert buf[..] == r;
  }

  /** `_ReorderSmpteToCA<AudioDataType>` with `sizeof(AudioDataType) == w`. */
  method ReorderFrames(buf: array<byte>, frames: nat, w: int)
    requires 0 < w && Offset(frames, 8 * w) <= buf.Length
    modifies buf
    ensures buf[..] == Reordered(old(buf[..]), frames, w)
  {
    ghost var s := buf[..];
    ReorderedNone(s, w);
    var i, base := 0, 0;
    while i < frames
      invariant 0 <= i <= frames && base == Offset(i, 8 * w)
      invariant base <= Offset(frames, 8 * w)
      invariant buf[..] == Reordered(s, i, w)
    {
      OffsetMonotonic(i + 1, frames, 8 * w);
      ReorderStep(s, i, w);
      SwapSurroundsAt(buf, base, w);
      i, base := i + 1, base + 8 * w;
    }
  }

  /** `ReorderSmpteToCA`: the reorder at the sample width of the output format. */
  method ReorderSmpteToCA(buf: array<byte>, frames: nat, bits: int)
    requires Offset(frames, 8 * SampleBytes(bits)) <= buf.Length
    modifies buf
    ensures buf[..] == Reordered(old(buf[..]), frames, SampleBytes(bits))
  {
    ReorderFrames(buf, frames, SampleBytes(bits));
  }
}
