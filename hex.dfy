/**
 * Hexadecimal text: Python's `x` format (`{:02x}`, `{:08x}`, `{:016x}` and the
 * fill-aligned `{:0>8x}`), `int(s, 16)`, and the space-separated byte dumps
 * `bytes_to_str` / `str_to_bytes` of utils/ddi_utils.py.
 */
module Hex {
  import opened Wrappers
  import opened Bytes
  import opened Text

  function HexDigit(d: nat): (c: char)
    requires d < 16
    ensures IsLowerHex(c)
  {
    if d < 10 then ('0' as int + d) as char else ('a' as int + d - 10) as char
  }

  predicate IsLowerHex(c: char) { '0' <= c <= '9' || 'a' <= c <= 'f' }

  predicate IsHexDigit(c: char) { IsLowerHex(c) || 'A' <= c <= 'F' }

  predicate AllHex(s: string) { forall i :: 0 <= i < |s| ==> IsHexDigit(s[i]) }

  function HexDigitValue(c: char): (d: nat)
    requires IsHexDigit(c)
    ensures d < 16
  {
    if '0' <= c <= '9' then c as int - '0' as int
    else if 'a' <= c <= 'f' then c as int - 'a' as int + 10
    else c as int - 'A' as int + 10
  }

  /** The lowercase hex digits of `n`, no leading zeros. */
  function HexDigits(n: nat): (r: string)
    ensures |r| >= 1 && forall i :: 0 <= i < |r| ==> IsLowerHex(r[i])
  {
    if n < 16 then [HexDigit(n)] else HexDigits(n / 16) + [HexDigit(n % 16)]
  }

  /** The number a string of hex digits (either case) denotes. */
  function HexValue(s: string): nat
    requires AllHex(s)
  {
    if |s| == 0 then 0
    else
      assert IsHexDigit(s[|s| - 1]);
      HexValue(s[..|s| - 1]) * 16 + HexDigitValue(s[|s| - 1])
  }

  lemma {:induction false} HexValueOfDigits(n: nat)
    ensures HexValue(HexDigits(n)) == n
  {
    if n >= 16 {
      var s := HexDigits(n);
      assert s[..|s| - 1] == HexDigits(n / 16);
      HexValueOfDigits(n / 16);
    }
  }

  lemma {:induction false} HexValueZeros(k: nat)
    ensures AllHex(Repeat('0', k)) && HexValue(Repeat('0', k)) == 0
  {
    if k > 0 {
      assert Repeat('0', k)[..k - 1] == Repeat('0', k - 1);
      HexValueZeros(k - 1);
    }
  }

  /** Leading zeros do not change the value. */
  lemma {:induction false} HexValueLeadingZeros(k: nat, s: string)
    requires AllHex(s)
    ensures AllHex(Repeat('0', k) + s) && HexValue(Repeat('0', k) + s) == HexValue(s)
  {
    HexValueZeros(k);
    if |s| > 0 {
      var t := Repeat('0', k) + s;
      assert t[..|t| - 1] == Repeat('0', k) + s[..|s| - 1];
      HexValueLeadingZeros(k, s[..|s| - 1]);
    } else {
      assert Repeat('0', k) + s == Repeat('0', k);
    }
  }

  /** Padding with zeros keeps the digits and their value. */
  lemma {:induction false} PadZerosValue(s: string, w: nat)
    requires AllHex(s)
    ensures AllHex(PadLeft(s, '0', w)) && HexValue(PadLeft(s, '0', w)) == HexValue(s)
  {
    if |s| < w {
      HexValueLeadingZeros(w - |s|, s);
    }
  }

  /** `f'{x:0>{w}x}'`: sign and digits, then '0' filled in on the left (even before a sign). */
  function HexFill(x: int, w: nat): string {
    PadLeft((if x < 0 then "-" else "") + HexDigits(if x < 0 then -x else x), '0', w)
  }

  /** `f'{x:0{w}x}'`: sign-aware zero padding, the sign first and zeros between it and the digits. */
  function HexZero(x: int, w: nat): string {
    if x < 0 then "-" + PadLeft(HexDigits(-x), '0', if w > 0 then w - 1 else 0)
    else PadLeft(HexDigits(x), '0', w)
  }

  /** Both formats render a non-negative number identically. */
  lemma {:induction false} HexFillZeroAgree(x: nat, w: nat)
    ensures HexFill(x, w) == HexZero(x, w)
  {
    assert "" + HexDigits(x) == HexDigits(x);
  }

  /** `int(s, 16)` for an optional sign followed by hex digits; anything else is a ValueError. */
  function ParseHex(s: string): (r: Result<int>)
    ensures r.Ok? ==> |s| > 0
  {
    if |s| > 0 && (s[0] == '-' || s[0] == '+') then
      var body := s[1..];
      if |body| > 0 && AllHex(body) then
        Ok(if s[0] == '-' then -(HexValue(body) as int) else HexValue(body) as int)
      else Err(BadLiteral)
    else if |s| > 0 && AllHex(s) then Ok(HexValue(s) as int)
    else Err(BadLiteral)
  }

  /** `int(p, 16)` of plain hex digits is their value. */
  lemma {:induction false} ParseHexUnsigned(p: string)
    requires |p| > 0 && AllHex(p)
    ensures ParseHex(p) == Ok(HexValue(p) as int)
  {
  }

  /** A leading minus sign negates the value. */
  lemma {:induction false} ParseHexNegated(p: string)
    requires |p| > 0 && AllHex(p)
    ensures ParseHex("-" + p) == Ok(-(HexValue(p) as int))
  {
    assert ("-" + p)[1..] == p;
  }

  /** `int(f'{x:0{w}x}', 16) == x` for every integer. */
  lemma {:induction false} ParseHexZero(x: int, w: nat)
    ensures ParseHex(HexZero(x, w)) == Ok(x)
  {
    if x < 0 {
      ParseHexZeroNegative(x, w);
    } else {
      var p := PadLeft(HexDigits(x), '0', w);
      assert HexZero(x, w) == p;
      PadZerosValue(HexDigits(x), w);
      HexValueOfDigits(x);
      ParseHexUnsigned(p);
    }
  }

  lemma {:induction false} ParseHexZeroNegative(x: int, w: nat)
    requires x < 0
    ensures ParseHex(HexZero(x, w)) == Ok(x)
  {
    var d := HexDigits(-x);
    var w' := if w > 0 then w - 1 else 0;
    var p := PadLeft(d, '0', w');
    assert HexZero(x, w) == "-" + p;
    PadZerosValue(d, w');
    HexValueOfDigits(-x);
    assert HexValue(p) == -x;
    ParseHexNegated(p);
  }

  /** `int(f'{x:0>{w}x}', 16) == x` for every non-negative integer. */
  lemma {:induction false} ParseHexFill(x: nat, w: nat)
    ensures ParseHex(HexFill(x, w)) == Ok(x)
  {
    HexFillZeroAgree(x, w);
    ParseHexZero(x, w);
  }

  /** The fill-aligned form of a negative number has the sign in the middle and is not read back. */
  lemma {:induction false} HexFillNegativeUnreadable(x: int, w: nat)
    requires x < 0 && w > |HexDigits(-x)| + 1
    ensures ParseHex(HexFill(x, w)).Err?
  {
    var s := HexFill(x, w);
    var inner := "-" + HexDigits(-x);
    assert s[w - |inner|..] == inner;
    assert s[0] == '0';
    assert s[w - |inner|] == '-';
    assert !IsHexDigit(s[w - |inner|]);
    assert s[1..][w - |inner| - 1] == '-';
  }

  /** Every character of either format is a lowercase hex digit or a minus sign. */
  predicate HexText(s: string) { forall i :: 0 <= i < |s| ==> IsLowerHex(s[i]) || s[i] == '-' }

  lemma {:induction false} HexFormatsAreHexText(x: int, w: nat)
    ensures HexText(HexFill(x, w)) && HexText(HexZero(x, w))
  {
  }

  /** `f'{b:02x}'` for a byte: exactly two lowercase digits. */
  function Hex2(b: byte): (r: string)
    ensures |r| == 2 && IsLowerHex(r[0]) && IsLowerHex(r[1])
  {
    [HexDigit(b / 16), HexDigit(b % 16)]
  }

  lemma {:induction false} Hex2IsZeroPadded(b: byte)
    ensures Hex2(b) == HexZero(b, 2)
  {
    if b >= 16 {
      assert HexDigits(b / 16) == [HexDigit(b / 16)];
    } else {
      assert b / 16 == 0;
    }
  }

  lemma {:induction false} ParseHex2(b: byte)
    ensures ParseHex(Hex2(b)) == Ok(b as int)
  {
    Hex2IsZeroPadded(b);
    ParseHexZero(b, 2);
  }

  function Hex2Pieces(data: seq<byte>): (r: seq<string>)
    ensures |r| == |data| && forall i :: 0 <= i < |data| ==> r[i] == Hex2(data[i])
  {
    if |data| == 0 then [] else [Hex2(data[0])] + Hex2Pieces(data[1..])
  }

  /** `bytes_to_str(data, add_spaces)`: each byte as two hex digits, joined by a space or by nothing. */
  function BytesToStr(data: seq<byte>, addSpaces: bool): string {
    Join(Hex2Pieces(data), if addSpaces then " " else "")
  }

  /** The spaced dump is two lowercase digits per byte with a single space between bytes. */
  lemma {:induction false} BytesToStrLayout(data: seq<byte>)
    requires |data| > 0
    ensures |BytesToStr(data, true)| == 3 * |data| - 1
    ensures forall k :: 0 <= k < |data| ==> BytesToStr(data, true)[3 * k..3 * k + 2] == Hex2(data[k])
    ensures forall k :: 0 <= k < |data| - 1 ==> BytesToStr(data, true)[3 * k + 2] == ' '
  {
    var r := BytesToStr(data, true);
    if |data| > 1 {
      BytesToStrLayout(data[1..]);
      var rest := BytesToStr(data[1..], true);
      assert Hex2Pieces(data)[1..] == Hex2Pieces(data[1..]);
      assert r == Hex2(data[0]) + " " + rest;
      forall k | 0 < k < |data|
        ensures r[3 * k..3 * k + 2] == Hex2(data[k])
      {
        assert r[3 * k..3 * k + 2] == rest[3 * (k - 1)..3 * (k - 1) + 2];
      }
      forall k | 0 < k < |data| - 1
        ensures r[3 * k + 2] == ' '
      {
        assert r[3 * k + 2] == rest[3 * (k - 1) + 2];
      }
    }
  }

  /** Without spaces the dump is exactly two lowercase digits per byte. */
  lemma {:induction false} BytesToStrCompactLayout(data: seq<byte>)
    ensures |BytesToStr(data, false)| == 2 * |data|
    ensures forall k :: 0 <= k < |data| ==> BytesToStr(data, false)[2 * k..2 * k + 2] == Hex2(data[k])
  {
    var r := BytesToStr(data, false);
    if |data| > 1 {
      BytesToStrCompactLayout(data[1..]);
      var rest := BytesToStr(data[1..], false);
      assert Hex2Pieces(data)[1..] == Hex2Pieces(data[1..]);
      assert r == Hex2(data[0]) + "" + rest;
      forall k | 0 < k < |data|
        ensures r[2 * k..2 * k + 2] == Hex2(data[k])
      {
        assert r[2 * k..2 * k + 2] == rest[2 * (k - 1)..2 * (k - 1) + 2];
      }
    }
  }

  /** `bytes([int(piece, 16) for piece in pieces])`: ValueError on a bad piece or a value outside 0..255. */
  function ParseBytePieces(pieces: seq<string>): (r: Result<seq<byte>>)
    ensures r.Ok? ==> |r.value| == |pieces|
  {
    if |pieces| == 0 then Ok([])
    else
      var v :- ParseHex(pieces[0]);
      var rest :- ParseBytePieces(pieces[1..]);
      if 0 <= v < 256 then Ok([v] + rest) else Err(BadLiteral)
  }

  /** `str_to_bytes(data)`: split on single spaces, each piece read as a hex number. */
  function StrToBytes(s: string): Result<seq<byte>> {
    ParseBytePieces(Split(s, ' '))
  }

  lemma {:induction false} ParsePiecesOfBytes(data: seq<byte>)
    ensures ParseBytePieces(Hex2Pieces(data)) == Ok(data)
  {
    if |data| > 0 {
      ParseHex2(data[0]);
      assert Hex2Pieces(data)[1..] == Hex2Pieces(data[1..]);
      ParsePiecesOfBytes(data[1..]);
      assert [data[0]] + data[1..] == data;
    }
  }

  /** `str_to_bytes(bytes_to_str(b)) == b` for every non-empty byte string. */
  lemma {:induction false} StrToBytesRoundTrip(data: seq<byte>)
    requires |data| > 0
    ensures StrToBytes(BytesToStr(data, true)) == Ok(data)
  {
    var pieces := Hex2Pieces(data);
    forall i | 0 <= i < |pieces|
      ensures ' ' !in pieces[i]
    {
      assert pieces[i] == Hex2(data[i]);
    }
    SplitJoin(pieces, ' ');
    ParsePiecesOfBytes(data);
  }

  /** The empty dump is not read back: `''.split(' ')` is `['']` and `int('', 16)` fails. */
  lemma {:induction false} StrToBytesEmpty()
    ensures BytesToStr([], true) == ""
    ensures StrToBytes("").Err?
  {
    assert Split("", ' ') == [""];
  }
}
