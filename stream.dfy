/**
 * An in-memory stream (`io.BytesIO`): its bytes and a cursor. `Read` and
 * `Write` move the cursor by the number of bytes they transfer; a read stops
 * at the end of the data and a write past the end grows it.
 *
 * `Take`, `TakeUint` and `ReadStr` are the same reads stated over a buffer and
 * a position, for the pure descriptions of the decoders.
 */
module Streams {
  import opened Wrappers
  import opened Bytes
  import Utf8

  class Stream {
    var data: seq<byte>
    var pos: nat

    constructor (init: seq<byte>)
      ensures data == init && pos == 0
    {
      data := init;
      pos := 0;
    }

    method Tell() returns (p: nat)
      ensures p == pos
    {
      p := pos;
    }

    /** `seek(p)`: a negative position is a ValueError and leaves the cursor alone. */
    method Seek(p: int) returns (r: Outcome)
      modifies this
      ensures data == old(data)
      ensures p < 0 ==> r == Fail(BadSeek) && pos == old(pos)
      ensures p >= 0 ==> r == Pass && pos == p
    {
      if p < 0 {
        r := Fail(BadSeek);
      } else {
        pos := p;
        r := Pass;
      }
    }

    /** `read(n)`: up to `n` bytes (all that is left when `n` is negative). */
    method Read(n: int) returns (b: seq<byte>)
      modifies this
      ensures b == Span(old(data), old(pos), n)
      ensures data == old(data) && pos == old(pos) + |b|
      ensures (b, pos) == Take(old(data), old(pos), n)
    {
      b := Span(data, pos, n);
      pos := pos + |b|;
    }

    /** `write(b)`: overwrite from the cursor on, growing the data when needed. */
    method Write(b: seq<byte>)
      modifies this
      ensures data == Overwrite(old(data), old(pos), b)
      ensures pos == old(pos) + |b|
    {
      data := Overwrite(data, pos, b);
      pos := pos + |b|;
    }

    /** `read_str(stream)`: a 4-byte little-endian size, then that many bytes decoded as UTF-8. */
    method ReadString() returns (r: Result<string>)
      modifies this
      ensures data == old(data)
      ensures Agrees(r, ReadStr(old(data), old(pos)), pos)
    {
      var size := Read(4);
      var b := Read(Le(size));
      r := Utf8.Decode(b);
    }

    /**
     * A run of fixed-layout fields, read one after another with no loop among
     * them, whose meaning `parse` states over the bytes and the cursor: the
     * cursor ends where `parse` says the run ends.
     */
    method ReadRecord<T(==)>(parse: (seq<byte>, nat) -> Result<(T, nat)>) returns (r: Result<T>)
      modifies this
      ensures data == old(data)
      ensures Agrees(r, parse(old(data), old(pos)), pos)
    {
      var x := parse(data, pos);
      if x.Err? {
        return Err(x.error);
      }
      pos := x.value.1;
      r := Ok(x.value.0);
    }

    /** `getvalue()`. */
    function GetValue(): seq<byte>
      reads this
    {
      data
    }
  }

  /**
   * A stream read agrees with its description over the bytes: the same value
   * with the cursor where the description ends, or the same exception.
   */
  predicate Agrees<T(==)>(r: Result<T>, spec: Result<(T, nat)>, pos: nat) {
    match spec
    case Ok(v) => r == Ok(v.0) && pos == v.1
    case Err(e) => r == Err(e)
  }

  /** `read(n)` at `pos`: the bytes and the cursor after them. */
  function Take(buf: seq<byte>, pos: nat, n: int): (r: (seq<byte>, nat))
    ensures r.0 == Span(buf, pos, n) && r.1 == pos + |r.0|
    ensures pos <= |buf| ==> r.1 <= |buf|
    ensures n >= 0 && pos + n <= |buf| ==> r.1 == pos + n
  {
    var b := Span(buf, pos, n);
    (b, pos + |b|)
  }

  /** `int.from_bytes(read(n), 'little')` at `pos`: a short read gives a smaller value. */
  function TakeUint(buf: seq<byte>, pos: nat, n: nat): (r: (nat, nat))
    ensures r.0 == Le(Span(buf, pos, n)) && r.1 == pos + |Span(buf, pos, n)|
    ensures pos <= |buf| ==> r.1 <= |buf|
    ensures pos + n <= |buf| ==> r.1 == pos + n && r.0 == Le(buf[pos..pos + n])
  {
    var (b, p) := Take(buf, pos, n);
    (Le(b), p)
  }

  /** `read_str`: a 4-byte little-endian size, then that many bytes decoded as UTF-8. */
  function ReadStr(buf: seq<byte>, pos: nat): (r: Result<(string, nat)>)
    ensures r.Ok? ==> pos <= r.value.1
    ensures pos <= |buf| && r.Ok? ==> r.value.1 <= |buf|
  {
    var (size, p) := TakeUint(buf, pos, 4);
    var (b, q) := Take(buf, p, size);
    var s :- Utf8.Decode(b);
    Ok((s, q))
  }

  /** `read_str` at a size field followed by that many bytes that decode. */
  lemma ReadStrOfFields(buf: seq<byte>, p: nat, b: seq<byte>)
    requires p + 4 + |b| <= |buf| && Le(buf[p..p + 4]) == |b| && buf[p + 4..p + 4 + |b|] == b
    requires Utf8.Decode(b).Ok?
    ensures ReadStr(buf, p) == Ok((Utf8.Decode(b).value, p + 4 + |b|))
  {
    assert TakeUint(buf, p, 4) == (|b|, p + 4);
    assert Take(buf, p + 4, |b|) == (b, p + 4 + |b|);
  }

  /** `b.decode() == tag`: a decoding error, a failed assertion, or success. */
  function ExpectTag(b: seq<byte>, tag: string): (r: Outcome)
    ensures r.Pass? ==> |b| >= |tag|
  {
    match Utf8.Decode(b)
    case Err(e) => Fail(e)
    case Ok(s) => Need(s == tag, Assertion(tag))
  }

  /** `read_str(...) == s`, as an assertion. */
  function ExpectStr(buf: seq<byte>, pos: nat, s: string): (r: Result<nat>)
    ensures r.Ok? ==> pos <= r.value
    ensures pos <= |buf| && r.Ok? ==> r.value <= |buf|
  {
    var (t, p) :- ReadStr(buf, pos);
    if t == s then Ok(p) else Err(Assertion(s))
  }
}
