/**
 * The free functions of utils/ddi_utils.py: length-prefixed strings
 * (`read_str`, `str_to_data`), the `ARR ` header (`read_arr`) and the bounded
 * backwards search (`reverse_search`, `stream_reverse_search`).
 * `bytes_to_str` / `str_to_bytes` are in the Hex module.
 */
module DdiUtils {
  import opened Wrappers
  import opened Bytes
  import opened Streams
  import Utf8

  /** `str_to_data(s)`: the UTF-8 byte count as 4 little-endian bytes, then the bytes. */
  function StrToData(s: string): (r: Result<seq<byte>>)
    ensures r.Ok? <==> |Utf8.Encode(s)| < Pow256(4)
    ensures r.Ok? ==> |r.value| == 4 + |Utf8.Encode(s)|
    ensures r.Ok? ==> r.value == r.value[..4] + Utf8.Encode(s) && Le(r.value[..4]) == |Utf8.Encode(s)|
  {
    var b := Utf8.Encode(s);
    var size :- ToLe(|b|, 4);
    assert (size + b)[..4] == size;
    Ok(size + b)
  }

  /** `str_to_data` as written: the prefix counts characters, not bytes. */
  function StrToDataAsWritten(s: string): (r: Result<seq<byte>>)
    ensures r.Ok? <==> |s| < Pow256(4)
  {
    var size :- ToLe(|s|, 4);
    Ok(size + Utf8.Encode(s))
  }

  /** `read_str` reads back what `str_to_data` wrote, wherever it sits in a buffer. */
  lemma {:induction false} ReadStrOfStrToData(s: string, pre: seq<byte>, post: seq<byte>)
    requires StrToData(s).Ok?
    ensures ReadStr(pre + StrToData(s).value + post, |pre|)
         == Ok((s, |pre| + |StrToData(s).value|))
  {
    var d := StrToData(s).value;
    var b := Utf8.Encode(s);
    var buf := pre + d + post;
    var p := |pre|;
    assert buf[p..p + 4] == d[..4] && buf[p + 4..p + 4 + |b|] == b by {
      assert buf[p..p + |d|] == d;
    }
    Utf8.DecodeEncode(s);
    ReadStrOfFields(buf, p, b);
  }

  /** For ASCII text both prefixes agree, and `read_str` advances by 4 + len(s). */
  lemma {:induction false} StrToDataAscii(s: string, pre: seq<byte>, post: seq<byte>)
    requires Utf8.IsAscii(s) && |s| < Pow256(4)
    ensures StrToDataAsWritten(s) == StrToData(s)
    ensures ReadStr(pre + StrToDataAsWritten(s).value + post, |pre|) == Ok((s, |pre| + 4 + |s|))
  {
    Utf8.EncodeAsciiLength(s);
    ReadStrOfStrToData(s, pre, post);
  }

  /**
   * Outside ASCII the written prefix is too small: "é" is announced as one byte
   * but encodes to two, so `read_str` stops inside the character and fails.
   */
  lemma StrToDataAsWrittenNonAscii()
    ensures StrToDataAsWritten("é") == Ok([1, 0, 0, 0, 0xC3, 0xA9])
    ensures ReadStr([1, 0, 0, 0, 0xC3, 0xA9], 0) == Err(BadEncoding)
    ensures StrToData("é") == Ok([2, 0, 0, 0, 0xC3, 0xA9])
  {
    assert Utf8.EncodeChar('é') == [0xC3, 0xA9];
    assert Utf8.Encode("é") == Utf8.EncodeChar('é') + Utf8.Encode("");
    assert Pow256(4) == 0x1_0000_0000 by {
      assert Pow256(1) == 256;
      assert Pow256(2) == 256 * 256;
      assert Pow256(3) == 256 * 256 * 256;
    }
    assert |"é"| == 1;
    assert LeBytes(1, 4) == [1, 0, 0, 0];
    assert LeBytes(2, 4) == [2, 0, 0, 0];
    assert ToLe(1, 4) == Ok([1, 0, 0, 0]);
    assert ToLe(2, 4) == Ok([2, 0, 0, 0]);
    assert |Utf8.Encode("é")| == 2;
    assert StrToDataAsWritten("é") == Ok([1, 0, 0, 0] + Utf8.Encode("é"));
    assert StrToData("é") == Ok([2, 0, 0, 0] + Utf8.Encode("é"));
    assert [1, 0, 0, 0] + Utf8.Encode("é") == [1, 0, 0, 0, 0xC3, 0xA9];
    assert [2, 0, 0, 0] + Utf8.Encode("é") == [2, 0, 0, 0, 0xC3, 0xA9];
    var buf: seq<byte> := [1, 0, 0, 0, 0xC3, 0xA9];
    assert buf[0..4] == LeBytes(1, 4);
    LeRoundTrip(1, 4);
    assert Span(buf, 4, 1) == [0xC3];
    assert Utf8.DecodeChar([0xC3]) == Err(BadEncoding);
  }

  /**
   * Whenever the text is not pure ASCII, the written prefix is smaller than the
   * number of bytes that follow it.
   */
  lemma StrToDataAsWrittenShort(s: string)
    requires !Utf8.IsAscii(s) && |s| < Pow256(4)
    ensures Le(StrToDataAsWritten(s).value[..4]) < |StrToDataAsWritten(s).value| - 4
  {
    Utf8.EncodeNonAsciiLonger(s);
    var size := LeBytes(|s|, 4);
    LeRoundTrip(|s|, 4);
    assert StrToDataAsWritten(s).value == size + Utf8.Encode(s);
    assert StrToDataAsWritten(s).value[..4] == size;
  }

  /**
   * `read_arr`: the tag `ARR `, 4 ignored bytes, an 8-byte field that must be 1,
   * and the 4 bytes it returns.
   */
  function ReadArr(buf: seq<byte>, pos: nat): (r: Result<(seq<byte>, nat)>)
    ensures r.Ok? ==> ExpectTag(Span(buf, pos, 4), "ARR ").Pass?
    ensures r.Ok? ==> pos + 16 <= |buf| ==> Le(buf[pos + 8..pos + 16]) == 1
    ensures r.Ok? && pos + 20 <= |buf| ==> r.value == (buf[pos + 16..pos + 20], pos + 20)
    ensures r.Ok? ==> r.value.1 == pos + 20 || r.value.1 == |buf|
    ensures r.Ok? ==> r.value.1 <= |buf|
    ensures pos + 20 <= |buf| && buf[pos..pos + 4] == Utf8.Encode("ARR ") && Le(buf[pos + 8..pos + 16]) == 1 ==> r.Ok?
  {
    Utf8.DecodeEncode("ARR ");
    var (tag, p) := Take(buf, pos, 4);
    :- ExpectTag(tag, "ARR ");
    var (_, p) := Take(buf, p, 4);
    var (one, p) := TakeUint(buf, p, 8);
    :- Need(one == 1, Assertion("ARR count"));
    var (b, p) := Take(buf, p, 4);
    Ok((b, p))
  }

  /** `data[i:i+len(search)] == search`, with Python's slice clamping. */
  predicate SliceMatches(data: seq<byte>, search: seq<byte>, i: int) {
    PySlice(data, i, i + |search|) == search
  }

  /**
   * Whether `reverse_search` examines index `i` when it starts at `start`
   * (the offset minus the needle length) with the given limit: every index from
   * `start` down to 1, stopping after the first one more than `limit + 1` below `start`.
   */
  predicate InWindow(start: int, limit: int, i: int) {
    1 <= i <= start && (i == start || start - i <= limit + 1)
  }

  /** The search from index `i` downwards, as `reverse_search`'s loop performs it. */
  function ReverseSearchFrom(data: seq<byte>, search: seq<byte>, start: int, limit: int, i: int): (r: int)
    requires i == start || (i < start && start - i <= limit + 1)
    ensures r == -1 || (InWindow(start, limit, r) && r <= i && SliceMatches(data, search, r))
    ensures r == -1 ==> forall j :: j <= i && InWindow(start, limit, j) ==> !SliceMatches(data, search, j)
    ensures r != -1 ==> forall j :: r < j <= i && InWindow(start, limit, j) ==> !SliceMatches(data, search, j)
    decreases i
  {
    if i < 1 then -1
    else if SliceMatches(data, search, i) then i
    else if start - i > limit then -1
    else ReverseSearchFrom(data, search, start, limit, i - 1)
  }

  /** The limit `reverse_search` uses: `offset - len(search)` when the caller passes -1. */
  function DefaultLimit(search: seq<byte>, offset: int, limit: int): int {
    if limit == -1 then offset - |search| else limit
  }

  /**
   * `reverse_search(data, search, offset, limit)`: the greatest index in the
   * scanned window at which `search` occurs, or -1. Index 0 is never examined.
   */
  function ReverseSearch(data: seq<byte>, search: seq<byte>, offset: int, limit: int): (r: int)
    ensures r == -1 || (0 < r <= offset - |search| && SliceMatches(data, search, r))
    ensures r != -1 ==> InWindow(offset - |search|, DefaultLimit(search, offset, limit), r)
    ensures r != -1 ==> forall j :: r < j && InWindow(offset - |search|, DefaultLimit(search, offset, limit), j)
                                   ==> !SliceMatches(data, search, j)
    ensures r == -1 ==> forall j :: InWindow(offset - |search|, DefaultLimit(search, offset, limit), j)
                                   ==> !SliceMatches(data, search, j)
  {
    var start := offset - |search|;
    ReverseSearchFrom(data, search, start, DefaultLimit(search, offset, limit), start)
  }

  /** The loop of `reverse_search`, with its early return. */
  method ReverseSearchLoop(data: seq<byte>, search: seq<byte>, offset: int, limit: int) returns (r: int)
    ensures r == ReverseSearch(data, search, offset, limit)
  {
    var lim := if limit == -1 then offset - |search| else limit;
    var start := offset - |search|;
    var i := start;
    while i > 0
      invariant i == start || (i < start && start - i <= lim + 1)
      invariant ReverseSearchFrom(data, search, start, lim, start) == ReverseSearchFrom(data, search, start, lim, i)
      decreases i
    {
      if PySlice(data, i, i + |search|) == search {
        return i;
      }
      if start - i > lim {
        return -1;
      }
      i := i - 1;
    }
    return -1;
  }

  /** With the default limit the whole range down to index 1 is scanned. */
  lemma {:induction false} ReverseSearchDefaultWindow(start: int, i: int)
    requires 1 <= i <= start
    ensures InWindow(start, start, i)
  {
  }

  /**
   * `stream_reverse_search` on a file: the same downward scan, reading
   * `len(search)` bytes at each index, with a default limit of 10 MiB.
   */
  function StreamReverseSearch(data: seq<byte>, search: seq<byte>, offset: int, limit: int): int {
    ReverseSearch(data, search, offset, if limit == -1 then 10 * 1024 * 1024 else limit)
  }
}
