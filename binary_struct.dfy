/**
 * The field objects of utils/binary_struct.py: each remembers where in a
 * stream it was read (`offset`), how many bytes it spans (`data_len`) and its
 * decoded `value`, and can write itself back at that place (`overwrite`).
 *   `RawData`  the base class, whose `serialize` is not implemented
 *   `Int`      an unsigned little-endian integer of `data_len` bytes
 *              (`Int16`, `Int32`, `Int64` fix 2, 4 and 8)
 *   `VString`  a 4-byte little-endian length followed by ASCII text
 * Python's subclassing is flattened: each field kind is a class of its own.
 */
module BinaryStruct {
  import opened Wrappers
  import opened Bytes
  import opened Streams

  /** `b.decode('ascii')`. */
  function AsciiDecode(b: seq<byte>): (r: Result<string>)
    ensures r.Ok? ==> |r.value| == |b| && forall i :: 0 <= i < |b| ==> r.value[i] as int == b[i]
    ensures r.Ok? <==> forall i :: 0 <= i < |b| ==> b[i] < 0x80
    ensures r.Err? ==> r.error == BadEncoding
  {
    if |b| == 0 then Ok([])
    else if b[0] >= 0x80 then Err(BadEncoding)
    else
      var rest :- AsciiDecode(b[1..]);
      Ok([b[0] as char] + rest)
  }

  /** `s.encode('ascii')`. */
  function AsciiEncode(s: string): (r: Result<seq<byte>>)
    ensures r.Ok? ==> |r.value| == |s| && forall i :: 0 <= i < |s| ==> r.value[i] == s[i] as int
    ensures r.Ok? <==> forall i :: 0 <= i < |s| ==> s[i] as int < 0x80
    ensures r.Err? ==> r.error == BadEncoding
  {
    if |s| == 0 then Ok([])
    else if s[0] as int >= 0x80 then Err(BadEncoding)
    else
      var rest :- AsciiEncode(s[1..]);
      Ok([s[0] as int] + rest)
  }

  /** ASCII text survives encoding then decoding. */
  lemma {:induction false} AsciiRoundTrip(s: string)
    requires AsciiEncode(s).Ok?
    ensures AsciiDecode(AsciiEncode(s).value) == Ok(s)
  {
    if |s| > 0 {
      var rest := AsciiEncode(s[1..]).value;
      assert AsciiEncode(s).value == [s[0] as int] + rest;
      AsciiRoundTrip(s[1..]);
      assert ([s[0] as int] + rest)[1..] == rest;
      assert AsciiDecode([s[0] as int] + rest) == Ok([(s[0] as int) as char] + s[1..]);
      assert [s[0]] + s[1..] == s;
    }
  }

  /** What `VString.parse_from_file` reads at `pos`: the size field, that many bytes, and where the cursor stops. */
  function VStringRead(buf: seq<byte>, pos: nat): (r: (nat, seq<byte>, nat))
    ensures r.0 == Le(Span(buf, pos, 4)) && r.1 == Span(buf, pos + |Span(buf, pos, 4)|, r.0)
    ensures r.2 == pos + |Span(buf, pos, 4)| + |r.1|
  {
    var (size, p) := TakeUint(buf, pos, 4);
    var (b, q) := Take(buf, p, size);
    (size, b, q)
  }

  /** `VString.serialize` of a value: the ASCII bytes behind their 4-byte length. */
  function VStringBytes(s: string): (r: Result<seq<byte>>)
    ensures r.Ok? <==> AsciiEncode(s).Ok? && |s| < Pow256(4)
    ensures r.Ok? ==> |r.value| == 4 + |s| && Le(r.value[..4]) == |s| && r.value[4..] == AsciiEncode(s).value
  {
    var b :- AsciiEncode(s);
    var size :- ToLe(|b|, 4);
    Ok(size + b)
  }

  /**
   * Reading back what `VString.serialize` wrote, wherever it sits in a stream,
   * restores the text and gives `data_len == 4 + len`.
   */
  lemma {:induction false} VStringRoundTrip(s: string, pre: seq<byte>, post: seq<byte>)
    requires VStringBytes(s).Ok?
    ensures var (size, b, end) := VStringRead(pre + VStringBytes(s).value + post, |pre|);
            size == |s| && AsciiDecode(b) == Ok(s) && end == |pre| + 4 + |s|
  {
    var w := VStringBytes(s).value;
    var buf := pre + w + post;
    assert buf[|pre|..|pre| + 4] == w[..4];
    assert Span(buf, |pre|, 4) == w[..4];
    assert buf[|pre| + 4..|pre| + 4 + |s|] == w[4..];
    AsciiRoundTrip(s);
  }

  /** `RawData`: the raw bytes read, and a `serialize` that always raises. */
  class RawData {
    var offset: nat
    var dataLen: nat
    var value: Option<seq<byte>>

    constructor (dataLen: nat)
      ensures offset == 0 && this.dataLen == dataLen && value == None
    {
      offset := 0;
      this.dataLen := dataLen;
      value := None;
    }

    method Parse(data: seq<byte>)
      modifies this
      ensures value == Some(data) && offset == old(offset) && dataLen == old(dataLen)
    {
      value := Some(data);
    }

    /** `parse_from_file`: remember the cursor, then read `data_len` bytes. */
    method ParseFromFile(file: Stream)
      modifies this, file
      ensures offset == old(file.pos) && dataLen == old(dataLen)
      ensures value == Some(Span(old(file.data), old(file.pos), dataLen))
      ensures file.data == old(file.data) && file.pos == old(file.pos) + |value.value|
    {
      offset := file.Tell();
      var b := file.Read(dataLen);
      Parse(b);
    }

    /** The base class has no byte form. */
    function Serialize(): (r: Result<seq<byte>>)
      reads this
      ensures r == Err(NotImplemented)
    {
      Err(NotImplemented)
    }

    method WriteToFile(file: Stream) returns (r: Outcome)
      modifies file
      ensures r == Fail(NotImplemented) && file.data == old(file.data) && file.pos == old(file.pos)
    {
      var b := Serialize();
      r := Fail(b.error);
    }

    /** `overwrite`: the seek to `offset` happens before `serialize` raises. */
    method Overwrite(file: Stream) returns (r: Outcome)
      modifies file
      ensures r == Fail(NotImplemented) && file.data == old(file.data) && file.pos == offset
    {
      var _ := file.Seek(offset);
      r := WriteToFile(file);
    }
  }

  /** `Int` and its fixed-width forms: an unsigned little-endian integer. */
  class Int {
    var offset: nat
    var dataLen: nat
    var value: Option<int>

    /** `Int(length)`, 4 bytes unless given. */
    constructor (length: nat)
      ensures offset == 0 && dataLen == length && value == None
    {
      offset := 0;
      dataLen := length;
      value := None;
    }

    constructor Int16()
      ensures offset == 0 && dataLen == 2 && value == None
    {
      offset := 0;
      dataLen := 2;
      value := None;
    }

    constructor Int32()
      ensures offset == 0 && dataLen == 4 && value == None
    {
      offset := 0;
      dataLen := 4;
      value := None;
    }

    constructor Int64()
      ensures offset == 0 && dataLen == 8 && value == None
    {
      offset := 0;
      dataLen := 8;
      value := None;
    }

    method Parse(data: seq<byte>)
      modifies this
      ensures value == Some(Le(data)) && offset == old(offset) && dataLen == old(dataLen)
    {
      value := Some(Le(data));
    }

    /** `parse_from_file`: remember the cursor, read `data_len` bytes, decode them (a short read gives a smaller value). */
    method ParseFromFile(file: Stream)
      modifies this, file
      ensures offset == old(file.pos) && dataLen == old(dataLen)
      ensures value == Some(Le(Span(old(file.data), old(file.pos), dataLen)))
      ensures file.data == old(file.data) && file.pos == old(file.pos) + |Span(old(file.data), old(file.pos), dataLen)|
    {
      offset := file.Tell();
      var b := file.Read(dataLen);
      Parse(b);
    }

    /**
     * `serialize`: exactly `data_len` little-endian bytes that decode to the
     * value; a value that does not fit raises OverflowError, and a field never
     * given a value has none to convert.
     */
    function Serialize(): (r: Result<seq<byte>>)
      reads this
      ensures value.None? ==> r.Err?
      ensures value.Some? ==> (r.Ok? <==> 0 <= value.value < Pow256(dataLen))
      ensures r.Ok? ==> |r.value| == dataLen && Le(r.value) == value.value
    {
      if value.None? then Err(Missing("value")) else ToLe(value.value, dataLen)
    }

    method WriteToFile(file: Stream) returns (r: Outcome)
      modifies file
      ensures Serialize().Err? ==> r == Fail(Serialize().error) && file.data == old(file.data) && file.pos == old(file.pos)
      ensures Serialize().Ok? ==> r == Pass && file.data == Bytes.Overwrite(old(file.data), old(file.pos), Serialize().value)
      ensures Serialize().Ok? ==> file.pos == old(file.pos) + dataLen
    {
      var b := Serialize();
      if b.Err? {
        return Fail(b.error);
      }
      file.Write(b.value);
      r := Pass;
    }

    /** `overwrite`: seek back to where the field was read and write its bytes there. */
    method Overwrite(file: Stream) returns (r: Outcome)
      modifies file
      ensures Serialize().Err? ==> r == Fail(Serialize().error) && file.data == old(file.data) && file.pos == offset
      ensures Serialize().Ok? ==> r == Pass && file.data == Bytes.Overwrite(old(file.data), offset, Serialize().value)
      ensures Serialize().Ok? ==> file.pos == offset + dataLen
    {
      var _ := file.Seek(offset);
      r := WriteToFile(file);
    }
  }

  /**
   * An integer field read whole and written back unchanged leaves the buffer
   * byte-identical: its bytes re-encode to themselves at the same offset.
   */
  lemma {:induction false} IntRewriteIdentity(buf: seq<byte>, pos: nat, n: nat)
    requires pos + n <= |buf|
    ensures ToLe(Le(Span(buf, pos, n)), n) == Ok(buf[pos..pos + n])
    ensures Bytes.Overwrite(buf, pos, buf[pos..pos + n]) == buf
  {
    LeBytesOfLe(buf[pos..pos + n]);
    Bytes.OverwriteSame(buf, pos, pos + n);
  }

  /**
   * `VString`: a length-prefixed ASCII string. Its `parse_from_file` does not
   * record the cursor in `offset`, unlike the base class.
   */
  class VString {
    var offset: nat
    var dataLen: nat
    var value: Option<string>

    constructor ()
      ensures offset == 0 && dataLen == 0 && value == None
    {
      offset := 0;
      dataLen := 0;
      value := None;
    }

    /** `parse(data)`: the size from `data[0:4]`, the text from `data[4:4 + size]`; a non-ASCII byte raises before anything is assigned. */
    method Parse(data: seq<byte>) returns (r: Outcome)
      modifies this
      ensures var size := Le(PySlice(data, 0, 4));
              var text := AsciiDecode(PySlice(data, 4, 4 + size));
              && offset == old(offset)
              && (text.Err? ==> r == Fail(BadEncoding) && value == old(value) && dataLen == old(dataLen))
              && (text.Ok? ==> r == Pass && value == Some(text.value) && dataLen == 4 + size)
    {
      var size := Le(PySlice(data, 0, 4));
      var text := AsciiDecode(PySlice(data, 4, 4 + size));
      if text.Err? {
        return Fail(text.error);
      }
      value := Some(text.value);
      dataLen := 4 + size;
      r := Pass;
    }

    /**
     * `parse_from_file` as written: the size field, then that many bytes as
     * ASCII; `offset` is left as it was.
     */
    method ParseFromFile(file: Stream) returns (r: Outcome)
      modifies this, file
      ensures var (size, b, end) := VStringRead(old(file.data), old(file.pos));
              && file.data == old(file.data) && file.pos == end
              && offset == old(offset)
              && (AsciiDecode(b).Err? ==> r == Fail(BadEncoding) && value == old(value) && dataLen == old(dataLen))
              && (AsciiDecode(b).Ok? ==> r == Pass && value == Some(AsciiDecode(b).value) && dataLen == 4 + size)
    {
      var s := file.Read(4);
      var size := Le(s);
      var b := file.Read(size);
      var text := AsciiDecode(b);
      if text.Err? {
        return Fail(text.error);
      }
      value := Some(text.value);
      dataLen := 4 + size;
      r := Pass;
    }

    /** `parse_from_file` recording the cursor first, as `RawData.parse_from_file` does. */
    method ParseFromFileRecorded(file: Stream) returns (r: Outcome)
      modifies this, file
      ensures var (size, b, end) := VStringRead(old(file.data), old(file.pos));
              && file.data == old(file.data) && file.pos == end
              && offset == old(file.pos)
              && (AsciiDecode(b).Err? ==> r == Fail(BadEncoding) && value == old(value) && dataLen == old(dataLen))
              && (AsciiDecode(b).Ok? ==> r == Pass && value == Some(AsciiDecode(b).value) && dataLen == 4 + size)
    {
      offset := file.Tell();
      r := ParseFromFile(file);
    }

    /** `serialize`: the 4-byte length and the ASCII bytes; non-ASCII text raises. */
    function Serialize(): (r: Result<seq<byte>>)
      reads this
      ensures value.None? ==> r.Err?
      ensures value.Some? ==> r == VStringBytes(value.value)
    {
      if value.None? then Err(Missing("value")) else VStringBytes(value.value)
    }

    method WriteToFile(file: Stream) returns (r: Outcome)
      modifies file
      ensures Serialize().Err? ==> r == Fail(Serialize().error) && file.data == old(file.data) && file.pos == old(file.pos)
      ensures Serialize().Ok? ==> r == Pass && file.data == Bytes.Overwrite(old(file.data), old(file.pos), Serialize().value)
      ensures Serialize().Ok? ==> file.pos == old(file.pos) + |Serialize().value|
    {
      var b := Serialize();
      if b.Err? {
        return Fail(b.error);
      }
      file.Write(b.value);
      r := Pass;
    }

    method Overwrite(file: Stream) returns (r: Outcome)
      modifies file
      ensures Serialize().Err? ==> r == Fail(Serialize().error) && file.data == old(file.data) && file.pos == offset
      ensures Serialize().Ok? ==> r == Pass && file.data == Bytes.Overwrite(old(file.data), offset, Serialize().value)
      ensures Serialize().Ok? ==> file.pos == offset + |Serialize().value|
    {
      var _ := file.Seek(offset);
      r := WriteToFile(file);
    }
  }

  /**
   * With the cursor recorded, a string read whole and written back unchanged
   * leaves the buffer byte-identical.
   */
  lemma {:induction false} VStringRewriteIdentity(buf: seq<byte>, pos: nat)
    requires var (size, b, end) := VStringRead(buf, pos); end <= |buf| && pos + 4 + size == end && AsciiDecode(b).Ok?
    ensures var (size, b, end) := VStringRead(buf, pos);
            VStringBytes(AsciiDecode(b).value) == Ok(buf[pos..end])
            && Bytes.Overwrite(buf, pos, buf[pos..end]) == buf
  {
    var (size, b, end) := VStringRead(buf, pos);
    VStringBytesOfRead(buf, pos, size, b, end);
    Bytes.OverwriteSame(buf, pos, end);
  }

  lemma VStringBytesOfRead(buf: seq<byte>, pos: nat, size: nat, b: seq<byte>, end: nat)
    requires (size, b, end) == VStringRead(buf, pos)
    requires end <= |buf| && pos + 4 + size == end && AsciiDecode(b).Ok?
    ensures VStringBytes(AsciiDecode(b).value) == Ok(buf[pos..end])
  {
    var s := AsciiDecode(b).value;
    LeBytesOfLe(buf[pos..pos + 4]);
    assert b == buf[pos + 4..end];
    assert AsciiEncode(s).Ok? && AsciiEncode(s).value == b;
    LeBound(buf[pos..pos + 4]);
    assert VStringBytes(s).value == buf[pos..pos + 4] + b;
    assert buf[pos..end] == buf[pos..pos + 4] + b;
  }

  /**
   * Without the cursor recorded, a fresh `VString` read at position 1 and
   * written back lands at position 0: the 6-byte buffer `41 01 00 00 00 61`
   * holds "a" at 1, and writing its 5 bytes at 0 changes the buffer.
   */
  lemma AsWrittenRewriteMisplaced()
    ensures var buf: seq<byte> := [0x41, 1, 0, 0, 0, 0x61];
            var (size, b, end) := VStringRead(buf, 1);
            && AsciiDecode(b) == Ok("a") && end == |buf|
            && VStringBytes("a") == Ok(buf[1..])
            && Bytes.Overwrite(buf, 0, buf[1..]) != buf
  {
    var buf: seq<byte> := [0x41, 1, 0, 0, 0, 0x61];
    assert Span(buf, 1, 4) == [1, 0, 0, 0];
    assert Le([1, 0, 0, 0]) == 1;
    assert Span(buf, 5, 1) == [0x61];
    var one: seq<byte> := [0x61];
    assert AsciiDecode(one).Ok?;
    var t := AsciiDecode(one).value;
    assert |t| == 1 && t[0] as int == 0x61;
    assert t == "a";
    var (size, b, end) := VStringRead(buf, 1);
    assert size == 1 && b == one && end == 6;
    VStringRewriteIdentity(buf, 1);
    assert VStringBytes(AsciiDecode(b).value) == Ok(buf[1..end]);
    assert buf[1..end] == buf[1..];
    assert Bytes.Overwrite(buf, 0, buf[1..])[0] == 1;
  }
}
