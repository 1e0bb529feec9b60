/**
 * UTF-8 as Python's `str.encode()` and strict `bytes.decode()` use it: every
 * scalar value has its shortest encoding, and decoding refuses overlong forms,
 * surrogates, values above U+10FFFF and truncated sequences.
 */
module Utf8 {
  import opened Wrappers
  import opened Bytes

  predicate IsContinuation(b: byte) { 0x80 <= b < 0xC0 }

  predicate IsAscii(s: string) {
    forall i :: 0 <= i < |s| ==> s[i] as int < 0x80
  }

  /** The encoding of one character: 1 to 4 bytes. */
  function EncodeChar(c: char): (r: seq<byte>)
    ensures 1 <= |r| <= 4
    ensures |r| == 1 <==> c as int < 0x80
  {
    var cp := c as int;
    if cp < 0x80 then [cp]
    else if cp < 0x800 then [0xC0 + cp / 64, 0x80 + cp % 64]
    else if cp < 0x10000 then [0xE0 + cp / 4096, 0x80 + (cp / 64) % 64, 0x80 + cp % 64]
    else [0xF0 + cp / 262144, 0x80 + (cp / 4096) % 64, 0x80 + (cp / 64) % 64, 0x80 + cp % 64]
  }

  /** `s.encode()`. */
  function Encode(s: string): (r: seq<byte>)
    ensures |r| >= |s|
  {
    if |s| == 0 then [] else EncodeChar(s[0]) + Encode(s[1..])
  }

  /** Decodes the character that `b` starts with, giving it and its length in bytes. */
  function DecodeChar(b: seq<byte>): (r: Result<(char, nat)>)
    requires |b| > 0
    ensures r.Ok? ==> 1 <= r.value.1 <= |b|
  {
    var b0: int := b[0];
    if b0 < 0x80 then Ok((b0 as char, 1))
    else if 0xC2 <= b0 <= 0xDF then
      if |b| < 2 || !IsContinuation(b[1]) then Err(BadEncoding)
      else Ok((Cp2(b0, b[1]) as char, 2))
    else if 0xE0 <= b0 <= 0xEF then
      if |b| < 3 || !IsContinuation(b[1]) || !IsContinuation(b[2])
         || (b0 == 0xE0 && b[1] < 0xA0) || (b0 == 0xED && b[1] > 0x9F) then Err(BadEncoding)
      else Ok((Cp3(b0, b[1], b[2]) as char, 3))
    else if 0xF0 <= b0 <= 0xF4 then
      if |b| < 4 || !IsContinuation(b[1]) || !IsContinuation(b[2]) || !IsContinuation(b[3])
         || (b0 == 0xF0 && b[1] < 0x90) || (b0 == 0xF4 && b[1] > 0x8F) then Err(BadEncoding)
      else Ok((Cp4(b0, b[1], b[2], b[3]) as char, 4))
    else Err(BadEncoding)
  }

  function Cp2(b0: int, b1: int): int { (b0 - 0xC0) * 64 + (b1 - 0x80) }
  function Cp3(b0: int, b1: int, b2: int): int { (b0 - 0xE0) * 4096 + (b1 - 0x80) * 64 + (b2 - 0x80) }
  function Cp4(b0: int, b1: int, b2: int, b3: int): int {
    (b0 - 0xF0) * 262144 + (b1 - 0x80) * 4096 + (b2 - 0x80) * 64 + (b3 - 0x80)
  }

  /** `b.decode()` (strict UTF-8). */
  function Decode(b: seq<byte>): (r: Result<string>)
    ensures r.Ok? ==> |r.value| <= |b|
    decreases |b|
  {
    if |b| == 0 then Ok([])
    else
      var (c, n) :- DecodeChar(b);
      var rest :- Decode(b[n..]);
      Ok([c] + rest)
  }

  lemma Split2(cp: int)
    requires 0x80 <= cp < 0x800
    ensures 0xC2 <= 0xC0 + cp / 64 <= 0xDF
    ensures Cp2(0xC0 + cp / 64, 0x80 + cp % 64) == cp
  {
  }

  lemma Split3(cp: int)
    requires 0x800 <= cp < 0x10000
    ensures 0xE0 <= 0xE0 + cp / 4096 <= 0xEF
    ensures cp / 4096 == 0 ==> (cp / 64) % 64 >= 0x20
    ensures cp / 4096 == 0xD ==> (cp < 0xD800 <==> (cp / 64) % 64 < 0x20)
    ensures Cp3(0xE0 + cp / 4096, 0x80 + (cp / 64) % 64, 0x80 + cp % 64) == cp
  {
    var q := cp / 64;
    assert cp == q * 64 + cp % 64;
    assert q == (q / 64) * 64 + q % 64;
    assert q / 64 == cp / 4096;
  }

  lemma Split4(cp: int)
    requires 0x10000 <= cp < 0x110000
    ensures 0xF0 <= 0xF0 + cp / 262144 <= 0xF4
    ensures cp / 262144 == 0 ==> (cp / 4096) % 64 >= 0x10
    ensures cp / 262144 == 4 ==> (cp / 4096) % 64 < 0x10
    ensures Cp4(0xF0 + cp / 262144, 0x80 + (cp / 4096) % 64, 0x80 + (cp / 64) % 64, 0x80 + cp % 64) == cp
  {
    var q := cp / 64;
    var q2 := q / 64;
    assert cp == q * 64 + cp % 64;
    assert q == q2 * 64 + q % 64;
    assert q2 == (q2 / 64) * 64 + q2 % 64;
    assert q2 == cp / 4096;
    assert q2 / 64 == cp / 262144;
  }

  lemma DecodeEncodeChar(c: char, rest: seq<byte>)
    ensures DecodeChar(EncodeChar(c) + rest) == Ok((c, |EncodeChar(c)|))
  {
    var cp := c as int;
    var b := EncodeChar(c) + rest;
    if cp < 0x80 {
    } else if cp < 0x800 {
      Split2(cp);
      assert b[0] == 0xC0 + cp / 64 && b[1] == 0x80 + cp % 64;
    } else if cp < 0x10000 {
      Split3(cp);
      assert cp < 0xD800 || cp >= 0xE000;
      assert b[0] == 0xE0 + cp / 4096 && b[1] == 0x80 + (cp / 64) % 64 && b[2] == 0x80 + cp % 64;
    } else {
      Split4(cp);
      assert b[0] == 0xF0 + cp / 262144 && b[1] == 0x80 + (cp / 4096) % 64;
      assert b[2] == 0x80 + (cp / 64) % 64 && b[3] == 0x80 + cp % 64;
    }
  }

  /** Decoding what `Encode` produced gives the text back, for every string. */
  lemma {:induction false} DecodeEncode(s: string)
    ensures Decode(Encode(s)) == Ok(s)
  {
    if |s| > 0 {
      var e := EncodeChar(s[0]);
      DecodeEncodeChar(s[0], Encode(s[1..]));
      assert (e + Encode(s[1..]))[|e|..] == Encode(s[1..]);
      DecodeEncode(s[1..]);
      assert [s[0]] + s[1..] == s;
    }
  }

  /** ASCII text encodes to one byte per character. */
  lemma {:induction false} EncodeAsciiLength(s: string)
    requires IsAscii(s)
    ensures |Encode(s)| == |s|
  {
    if |s| > 0 {
      EncodeAsciiLength(s[1..]);
    }
  }

  /** Text with a character outside ASCII encodes to more bytes than it has characters. */
  lemma {:induction false} EncodeNonAsciiLonger(s: string)
    requires !IsAscii(s)
    ensures |Encode(s)| > |s|
  {
    if s[0] as int < 0x80 {
      assert !IsAscii(s[1..]) by {
        var i :| 0 <= i < |s| && s[i] as int >= 0x80;
        assert s[1..][i - 1] == s[i];
      }
      EncodeNonAsciiLonger(s[1..]);
    } else {
      assert |Encode(s[1..])| >= |s[1..]|;
    }
  }

  /** A character that decodes below 0x80 came from the one byte that is its code. */
  lemma DecodeAsciiChar(b: seq<byte>)
    requires |b| > 0 && DecodeChar(b).Ok? && DecodeChar(b).value.0 as int < 0x80
    ensures DecodeChar(b).value.1 == 1 && b[0] == DecodeChar(b).value.0 as int
  {
  }

  /** Bytes that decode to ASCII text are exactly that text's encoding. */
  lemma {:induction false} DecodeAscii(b: seq<byte>, s: string)
    requires Decode(b) == Ok(s) && IsAscii(s)
    ensures b == Encode(s)
    decreases |b|
  {
    if |b| > 0 {
      var (c, n) := DecodeChar(b).value;
      var rest := Decode(b[n..]).value;
      assert s == [c] + rest;
      assert s[0] == c;
      DecodeAsciiChar(b);
      assert IsAscii(rest) by {
        forall i | 0 <= i < |rest|
          ensures rest[i] as int < 0x80
        {
          assert rest[i] == s[i + 1];
        }
      }
      DecodeAscii(b[1..], rest);
      assert s[1..] == rest;
      assert b == [b[0]] + b[1..];
    }
  }
}
