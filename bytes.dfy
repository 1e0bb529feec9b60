/**
 * Byte buffers as Python sees them: little-endian integers (`int.from_bytes`,
 * `int.to_bytes`), the read and write of an in-memory stream (`io.BytesIO`),
 * slicing with Python's index rules and `bytes.find`.
 */
module Bytes {
  import opened Wrappers

  type byte = x: int | 0 <= x < 256

  function Pow256(n: nat): (r: nat)
    ensures r >= 1
  {
    if n == 0 then 1 else 256 * Pow256(n - 1)
  }

  /** `int.from_bytes(s, 'little')`: an empty or short read gives a smaller value. */
  function Le(s: seq<byte>): nat {
    if |s| == 0 then 0 else s[0] + 256 * Le(s[1..])
  }

  /** The `n` little-endian bytes of `v` (`v.to_bytes(n, 'little')` when it fits). */
  function LeBytes(v: nat, n: nat): (r: seq<byte>)
    requires v < Pow256(n)
    ensures |r| == n
  {
    if n == 0 then [] else [v % 256] + LeBytes(v / 256, n - 1)
  }

  /** `v.to_bytes(n, 'little')`, which raises OverflowError unless 0 <= v < 256^n. */
  function ToLe(v: int, n: nat): (r: Result<seq<byte>>)
    ensures r.Ok? <==> 0 <= v < Pow256(n)
    ensures r.Ok? ==> |r.value| == n && Le(r.value) == v
  {
    if 0 <= v < Pow256(n) then LeRoundTrip(v, n); Ok(LeBytes(v, n)) else Err(Overflow)
  }

  lemma {:induction false} LeRoundTrip(v: nat, n: nat)
    requires v < Pow256(n)
    ensures Le(LeBytes(v, n)) == v
  {
    if n > 0 {
      LeRoundTrip(v / 256, n - 1);
    }
  }

  lemma {:induction false} LeBound(s: seq<byte>)
    ensures Le(s) < Pow256(|s|)
  {
    if |s| > 0 {
      LeBound(s[1..]);
    }
  }

  /** Decoding then re-encoding `n` bytes gives them back: `Le` is injective on each width. */
  lemma {:induction false} LeBytesOfLe(s: seq<byte>)
    ensures Le(s) < Pow256(|s|) && LeBytes(Le(s), |s|) == s
  {
    LeBound(s);
    if |s| > 0 {
      LeBytesOfLe(s[1..]);
      assert Le(s) % 256 == s[0];
      assert Le(s) / 256 == Le(s[1..]);
    }
  }

  function Zeros(n: nat): (r: seq<byte>)
    ensures |r| == n && forall i :: 0 <= i < n ==> r[i] == 0
  {
    seq(n, _ => 0)
  }

  function Min(a: int, b: int): int { if a < b then a else b }

  /**
   * What `read(n)` on a stream positioned at `pos` returns: nothing at or past
   * the end, everything that is left when `n` is negative, otherwise at most `n`
   * bytes.
   */
  function Span(buf: seq<byte>, pos: nat, n: int): (r: seq<byte>)
    ensures pos >= |buf| ==> r == []
    ensures pos < |buf| && n < 0 ==> r == buf[pos..]
    ensures pos < |buf| && n >= 0 ==> r == buf[pos..Min(pos + n, |buf|)]
    ensures n >= 0 && pos + n <= |buf| ==> r == buf[pos..pos + n]
    ensures n >= 0 ==> |r| <= n
  {
    if pos >= |buf| then []
    else if n < 0 then buf[pos..]
    else buf[pos..Min(pos + n, |buf|)]
  }

  /**
   * The buffer after `write(b)` on a stream positioned at `pos`: the bytes are
   * overwritten in place and the buffer grows when needed, with zeros filling a
   * gap past the old end; an empty write changes nothing.
   */
  function Overwrite(buf: seq<byte>, pos: nat, b: seq<byte>): (r: seq<byte>)
    ensures |b| > 0 ==> |r| == if pos + |b| > |buf| then pos + |b| else |buf|
    ensures |b| > 0 ==> r[pos..pos + |b|] == b
    ensures |r| >= |buf|
    ensures forall i :: 0 <= i < |buf| && (i < pos || i >= pos + |b|) ==> r[i] == buf[i]
    ensures pos + |b| <= |buf| ==> |r| == |buf|
    ensures pos == |buf| ==> r == buf + b
  {
    if |b| == 0 then buf
    else
      var head := if pos <= |buf| then buf[..pos] else buf + Zeros(pos - |buf|);
      var tail := if pos + |b| < |buf| then buf[pos + |b|..] else [];
      head + b + tail
  }

  /** A write past the end pads the gap with zero bytes. */
  lemma OverwritePads(buf: seq<byte>, pos: nat, b: seq<byte>, i: nat)
    requires |b| > 0 && |buf| <= i < pos
    ensures Overwrite(buf, pos, b)[i] == 0
  {
    var head := buf + Zeros(pos - |buf|);
    assert Overwrite(buf, pos, b)[i] == head[i];
  }

  /** Two writes in a row are one write of both. */
  lemma OverwriteConcat(buf: seq<byte>, pos: nat, b1: seq<byte>, b2: seq<byte>)
    requires |b1| > 0 && |b2| > 0
    ensures Overwrite(Overwrite(buf, pos, b1), pos + |b1|, b2) == Overwrite(buf, pos, b1 + b2)
  {
    var r1 := Overwrite(buf, pos, b1);
    var r := Overwrite(r1, pos + |b1|, b2);
    var s := Overwrite(buf, pos, b1 + b2);
    assert |r| == |s|;
    forall i | 0 <= i < |r|
      ensures r[i] == s[i]
    {
      if i < pos {
        if i >= |buf| {
          OverwritePads(buf, pos, b1, i);
          OverwritePads(buf, pos, b1 + b2, i);
        }
      } else if i < pos + |b1| {
        assert r1[pos..pos + |b1|] == b1;
        assert s[pos..pos + |b1| + |b2|] == b1 + b2;
        assert r[i] == r1[i] == b1[i - pos];
      } else if i < pos + |b1| + |b2| {
        assert r[pos + |b1|..pos + |b1| + |b2|] == b2;
        assert s[pos..pos + |b1| + |b2|] == b1 + b2;
        assert s[i] == (b1 + b2)[i - pos];
      }
    }
  }

  /** Writing back the bytes already in place changes nothing. */
  lemma OverwriteSame(buf: seq<byte>, pos: nat, end: nat)
    requires pos <= end <= |buf|
    ensures Overwrite(buf, pos, buf[pos..end]) == buf
  {
    if pos < end {
      var tail := if end < |buf| then buf[end..] else [];
      assert buf == buf[..pos] + buf[pos..end] + tail;
    }
  }

  /** Python's reading of a slice bound: negative counts from the end, then clamp. */
  function SliceIndex(i: int, len: nat): (r: nat)
    ensures r <= len
    ensures 0 <= i <= len ==> r == i
  {
    if i < 0 then (if len + i < 0 then 0 else len + i)
    else if i > len then len
    else i
  }

  /** `s[i:j]` with Python's index rules. */
  function PySlice<T>(s: seq<T>, i: int, j: int): (r: seq<T>)
    ensures 0 <= i <= j <= |s| ==> r == s[i..j]
  {
    var a := SliceIndex(i, |s|);
    var b := SliceIndex(j, |s|);
    if a < b then s[a..b] else []
  }

  predicate MatchAt(hay: seq<byte>, needle: seq<byte>, i: int) {
    0 <= i && i + |needle| <= |hay| && hay[i..i + |needle|] == needle
  }

  /** `hay.find(needle)`: the lowest index of a match, or -1. */
  function Find(hay: seq<byte>, needle: seq<byte>): (r: int)
    ensures r == -1 || MatchAt(hay, needle, r)
    ensures r == -1 ==> forall i :: 0 <= i <= |hay| ==> !MatchAt(hay, needle, i)
    ensures r != -1 ==> forall i :: 0 <= i < r ==> !MatchAt(hay, needle, i)
  {
    FindFrom(hay, needle, 0)
  }

  function FindFrom(hay: seq<byte>, needle: seq<byte>, from: nat): (r: int)
    requires from <= |hay| + 1
    ensures r == -1 || (from <= r && MatchAt(hay, needle, r))
    ensures r == -1 ==> forall i :: from <= i <= |hay| ==> !MatchAt(hay, needle, i)
    ensures r != -1 ==> forall i :: from <= i < r ==> !MatchAt(hay, needle, i)
    decreases |hay| + 1 - from
  {
    if from + |needle| > |hay| then -1
    else if hay[from..from + |needle|] == needle then from
    else FindFrom(hay, needle, from + 1)
  }
}
