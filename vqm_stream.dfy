/**
 * The VQM block encoder of mixins_ddb.py (`_create_vqm_stream`): the `VQM `
 * and `VQMu` headers, the sample count written twice, one `VQMp` record per
 * sample in list order, and the closing strings `GROWL` and `vqm`. It is the
 * counterpart of `read_vqm` (DdiFormat.ParseVqm): decoding what it writes
 * gives back every sample's epr offsets, sound id, sound offset and index,
 * with the first pitch replaced by the constant 224.0.
 */
module VqmStream {
  import opened Wrappers
  import opened Bytes
  import opened Streams
  import opened Hex
  import opened Refs
  import opened Dict
  import opened Text
  import Utf8
  import DdiUtils
  import opened DdiFormat

  /** `VQMMeta`: one growl sample as the mixers gather it before encoding. */
  datatype VqmMeta = VqmMeta(idx: string, epr: seq<nat>, sndId: int, snd: nat, unknown1: string,
                             pitch1: F32, pitch2: F32, unknown2: F32, unknown3: F32, dynamics: F32)

  /** `struct.pack('<f', 224.0)`: what every record carries as its first pitch. */
  const Pitch224: F32 := [0x00, 0x00, 0x60, 0x43]

  /** The sampling rate 44100 (`44 AC 00 00`) and the two bytes `01 00` that follow an epr list. */
  const SndPrefix: seq<byte> := [0x44, 0xAC, 0x00, 0x00, 0x01, 0x00]

  /** The constant 4-byte fields 0 and 1, and the tags, as the bytes written. */
  const Zero32: seq<byte> := [0, 0, 0, 0]
  const One32: seq<byte> := [1, 0, 0, 0]
  const TagVqm: seq<byte> := [0x56, 0x51, 0x4D, 0x20]
  const TagVqmu: seq<byte> := [0x56, 0x51, 0x4D, 0x75]
  const TagVqmp: seq<byte> := [0x56, 0x51, 0x4D, 0x70]

  /** The constant numeric fields read back as the values `read_vqm` expects. */
  lemma ConstantNumbers()
    ensures Le(Zero32) == 0 && Le(One32) == 1 && Le(SndPrefix[..4]) == 0xAC44
  {
    Le4(0, 0, 0, 0);
    Le4(1, 0, 0, 0);
    assert SndPrefix[..4] == [0x44, 0xAC, 0, 0];
    Le4(0x44, 0xAC, 0, 0);
  }

  /** The tags read back as the strings `read_vqm` expects. */
  lemma TagVqmDecodes()
    ensures Utf8.Decode(TagVqm) == Ok("VQM ")
  {
    assert Utf8.Encode("VQM ") == TagVqm;
    Utf8.DecodeEncode("VQM ");
  }

  lemma TagVqmuDecodes()
    ensures Utf8.Decode(TagVqmu) == Ok("VQMu")
  {
    assert Utf8.Encode("VQMu") == TagVqmu;
    Utf8.DecodeEncode("VQMu");
  }

  lemma TagVqmpDecodes()
    ensures Utf8.Decode(TagVqmp) == Ok("VQMp")
  {
    assert Utf8.Encode("VQMp") == TagVqmp;
    Utf8.DecodeEncode("VQMp");
  }

  /** The closing strings fit a 4-byte length, so writing them cannot fail. */
  lemma TrailerEncodes()
    ensures DdiUtils.StrToData("GROWL").Ok? && DdiUtils.StrToData("vqm").Ok?
  {
    assert Utf8.Encode("GROWL") == [0x47, 0x52, 0x4F, 0x57, 0x4C];
    assert Utf8.Encode("vqm") == [0x76, 0x71, 0x6D];
    assert Pow256(4) == 0x1_0000_0000;
  }

  lemma Le4(a: byte, b: byte, c: byte, d: byte)
    ensures Le([a, b, c, d]) == a + 256 * b + 65536 * c + 16777216 * d
  {
    assert [a, b, c, d][1..] == [b, c, d];
    assert [b, c, d][1..] == [c, d];
    assert [c, d][1..] == [d];
    assert [d][1..] == [];
    assert Le([d]) == d;
    assert Le([c, d]) == c + 256 * d;
    assert Le([b, c, d]) == b + 256 * (c + 256 * d);
    assert Le([a, b, c, d]) == a + 256 * (b + 256 * (c + 256 * d));
  }

  /** The epr offsets, each as 8 little-endian bytes; an offset of 2^64 or more is an OverflowError. */
  function U64s(xs: seq<nat>): (r: Result<seq<byte>>)
    ensures r.Ok? <==> forall i :: 0 <= i < |xs| ==> xs[i] < Pow256(8)
    ensures r.Ok? ==> |r.value| == 8 * |xs|
    ensures r.Err? ==> r.error == Overflow
  {
    if |xs| == 0 then Ok([])
    else
      var b :- ToLe(xs[0], 8);
      var rest :- U64s(xs[1..]);
      Ok(b + rest)
  }

  lemma {:induction false} U64sSnoc(xs: seq<nat>, x: nat)
    requires U64s(xs).Ok? && x < Pow256(8)
    ensures U64s(xs + [x]) == Ok(U64s(xs).value + ToLe(x, 8).value)
  {
    if |xs| > 0 {
      assert (xs + [x])[0] == xs[0];
      assert (xs + [x])[1..] == xs[1..] + [x];
      U64sSnoc(xs[1..], x);
      var b, t := ToLe(xs[0], 8).value, ToLe(x, 8).value;
      assert b + (U64s(xs[1..]).value + t) == (b + U64s(xs[1..]).value) + t;
    } else {
      assert xs == [] && xs + [x] == [x];
      assert [x][1..] == [];
      assert ToLe(x, 8).value + [] == [] + ToLe(x, 8).value;
      assert U64s([]) == Ok([]);
      assert U64s([x]) == Ok(ToLe(x, 8).value + []);
    }
  }

  /** The `i`-th 8-byte field of the encoded list reads back as the `i`-th offset. */
  lemma {:induction false} U64sAt(xs: seq<nat>, i: nat)
    requires U64s(xs).Ok? && i < |xs|
    ensures Le(U64s(xs).value[8 * i..8 * i + 8]) == xs[i]
  {
    var b := ToLe(xs[0], 8).value;
    var rest := U64s(xs[1..]).value;
    assert U64s(xs).value == b + rest;
    if i > 0 {
      U64sAt(xs[1..], i - 1);
      assert U64s(xs).value[8 * i..8 * i + 8] == rest[8 * (i - 1)..8 * (i - 1) + 8];
    } else {
      assert U64s(xs).value[..8] == b;
    }
  }

  /** A `VQMp` record up to its epr list: fixed fields, the 10-byte dump, the floats, then `00000000 FFFFFFFF`. */
  function VqmpHead(u1: seq<byte>, m: VqmMeta): seq<byte> {
    FF(8) + TagVqmp + Zero32 + Zero32 + One32 + u1
    + Pitch224 + m.pitch2 + m.unknown2 + m.dynamics + m.unknown3 + Zero32 + FF(4)
  }

  /** The epr list of a record: its 4-byte count, the 8-byte offsets, then `44 AC 00 00 01 00`. */
  function EprBlockBytes(xs: seq<nat>): Result<seq<byte>>
  {
    var count :- ToLe(|xs|, 4);
    var eprs :- U64s(xs);
    Ok(count + eprs + SndPrefix)
  }

  /** The end of a record: sound id, sound offset, 16 bytes of 0xFF and the index string. */
  function VqmpTail(m: VqmMeta): Result<seq<byte>>
  {
    var id :- ToLe(m.sndId, 4);
    var snd :- ToLe(m.snd, 8);
    var idx :- DdiUtils.StrToData(m.idx);
    Ok(id + snd + FF(16) + idx)
  }

  /**
   * One `VQMp` record, or the exception raised while writing it: a dump that is
   * not hex, a count, offset or id that does not fit its field, or an index too
   * long for its length prefix, in the order the fields are written.
   */
  function VqmpRecord(m: VqmMeta): Result<seq<byte>>
  {
    var u1 :- StrToBytes(m.unknown1);
    var block :- EprBlockBytes(m.epr);
    var tail :- VqmpTail(m);
    Ok(VqmpHead(u1, m) + block + tail)
  }

  /** The records of a list of samples, in list order; the first failing record decides the exception. */
  function VqmpRecords(ms: seq<VqmMeta>): Result<seq<byte>>
  {
    if |ms| == 0 then Ok([])
    else
      var a :- VqmpRecord(ms[0]);
      var rest :- VqmpRecords(ms[1..]);
      Ok(a + rest)
  }

  lemma {:induction false} VqmpRecordsSnoc(ms: seq<VqmMeta>, m: VqmMeta)
    requires VqmpRecords(ms).Ok? && VqmpRecord(m).Ok?
    ensures VqmpRecords(ms + [m]) == Ok(VqmpRecords(ms).value + VqmpRecord(m).value)
  {
    if |ms| > 0 {
      assert (ms + [m])[0] == ms[0];
      assert (ms + [m])[1..] == ms[1..] + [m];
      VqmpRecordsSnoc(ms[1..], m);
      var a, t := VqmpRecord(ms[0]).value, VqmpRecord(m).value;
      assert a + (VqmpRecords(ms[1..]).value + t) == (a + VqmpRecords(ms[1..]).value) + t;
    } else {
      assert ms == [] && ms + [m] == [m];
      assert [m][1..] == [];
      assert VqmpRecord(m).value + [] == [] + VqmpRecord(m).value;
      assert VqmpRecords([]) == Ok([]);
      assert VqmpRecords([m]) == Ok(VqmpRecord(m).value + []);
    }
  }

  lemma VqmpRecordsStep(ms: seq<VqmMeta>, i: nat)
    requires i < |ms| && VqmpRecords(ms[..i]).Ok? && VqmpRecord(ms[i]).Ok?
    ensures VqmpRecords(ms[..i + 1]) == Ok(VqmpRecords(ms[..i]).value + VqmpRecord(ms[i]).value)
  {
    assert ms[..i + 1] == ms[..i] + [ms[i]];
    VqmpRecordsSnoc(ms[..i], ms[i]);
  }

  /** When every record before the `i`-th is written and the `i`-th fails, the whole block fails the same way. */
  lemma {:induction false} VqmpRecordsFirstErr(ms: seq<VqmMeta>, i: nat)
    requires i < |ms| && VqmpRecords(ms[..i]).Ok? && VqmpRecord(ms[i]).Err?
    ensures VqmpRecords(ms) == Err(VqmpRecord(ms[i]).error)
  {
    if i > 0 {
      assert ms[..i][0] == ms[0];
      assert ms[..i][1..] == ms[1..][..i - 1];
      assert ms[1..][i - 1] == ms[i];
      VqmpRecordsFirstErr(ms[1..], i - 1);
    }
  }

  /** The `VQM ` header: 0xFF bytes, the tag and 0, 1, then 0, 1 and 0xFF bytes again. */
  const VqmOpening: seq<byte> := FF(8) + TagVqm + Zero32 + One32
  const VqmClosing: seq<byte> := Zero32 + One32 + FF(8)

  /** The `VQMu` header up to the sample count. */
  const VqmuFields: seq<byte> := TagVqmu + Zero32 + One32 + Zero32

  /** The `VQM ` and `VQMu` headers with the sample count written twice. */
  function VqmHeader(count: seq<byte>): seq<byte> {
    (VqmOpening + VqmClosing) + (VqmuFields + count) + count
  }

  /** `_create_vqm_stream(vqm_meta_list).getvalue()`, or the exception raised on the way. */
  function VqmStreamBytes(ms: seq<VqmMeta>): Result<seq<byte>>
  {
    var count :- ToLe(|ms|, 4);
    var body :- VqmpRecords(ms);
    var g :- DdiUtils.StrToData("GROWL");
    var v :- DdiUtils.StrToData("vqm");
    Ok(VqmHeader(count) + body + g + v)
  }

  /** `write(b)` at the end of the stream: the bytes are appended. */
  method Append(s: Stream, b: seq<byte>)
    requires s.pos == |s.data|
    modifies s
    ensures s.data == old(s.data) + b && s.pos == |s.data|
  {
    s.Write(b);
  }

  /** The fixed fields, the dump and the floats of a record, which cannot fail once the dump is decoded. */
  method WriteVqmpHead(s: Stream, u1: seq<byte>, m: VqmMeta)
    requires s.pos == |s.data|
    modifies s
    ensures s.data == old(s.data) + VqmpHead(u1, m) && s.pos == |s.data|
  {
    Append(s, FF(8) + TagVqmp + Zero32 + Zero32 + One32);
    Append(s, u1);
    Append(s, Pitch224 + m.pitch2 + m.unknown2 + m.dynamics + m.unknown3);
    Append(s, Zero32 + FF(4));
  }

  /** The offsets of an epr list, each as 8 little-endian bytes, written one at a time. */
  method WriteU64s(s: Stream, xs: seq<nat>) returns (r: Outcome)
    requires s.pos == |s.data|
    modifies s
    ensures r.Pass? <==> U64s(xs).Ok?
    ensures r.Fail? ==> r.error == Overflow
    ensures r.Pass? ==> s.data == old(s.data) + U64s(xs).value && s.pos == |s.data|
  {
    ghost var before := s.data;
    var k := 0;
    while k < |xs|
      invariant 0 <= k <= |xs|
      invariant U64s(xs[..k]).Ok? && s.data == before + U64s(xs[..k]).value && s.pos == |s.data|
    {
      var b := ToLe(xs[k], 8);
      if b.Err? {
        return Fail(b.error);
      }
      U64sSnoc(xs[..k], xs[k]);
      assert xs[..k + 1] == xs[..k] + [xs[k]];
      Append(s, b.value);
      k := k + 1;
    }
    assert xs[..k] == xs;
    r := Pass;
  }

  /** The epr count, one 8-byte field per offset as the loop writes them, then the sampling rate and `01 00`. */
  method WriteEprBlock(s: Stream, xs: seq<nat>) returns (r: Outcome)
    requires s.pos == |s.data|
    modifies s
    ensures r.Pass? <==> EprBlockBytes(xs).Ok?
    ensures r.Fail? ==> r.error == EprBlockBytes(xs).error
    ensures r.Pass? ==> s.data == old(s.data) + EprBlockBytes(xs).value && s.pos == |s.data|
  {
    ghost var d0 := s.data;
    var count := ToLe(|xs|, 4);
    if count.Err? {
      return Fail(count.error);
    }
    Append(s, count.value);
    r := WriteU64s(s, xs);
    if r.Fail? {
      return;
    }
    ghost var eprs := U64s(xs).value;
    assert EprBlockBytes(xs) == Ok(count.value + eprs + SndPrefix);
    Append(s, SndPrefix);
    assert s.data == d0 + count.value + eprs + SndPrefix;
  }

  /** The sound id and offset, 16 bytes of 0xFF and the index string. */
  method WriteVqmpTail(s: Stream, m: VqmMeta) returns (r: Outcome)
    requires s.pos == |s.data|
    modifies s
    ensures r.Pass? <==> VqmpTail(m).Ok?
    ensures r.Fail? ==> r.error == VqmpTail(m).error
    ensures r.Pass? ==> s.data == old(s.data) + VqmpTail(m).value && s.pos == |s.data|
  {
    ghost var d0 := s.data;
    var id := ToLe(m.sndId, 4);
    if id.Err? {
      return Fail(id.error);
    }
    Append(s, id.value);
    var snd := ToLe(m.snd, 8);
    if snd.Err? {
      return Fail(snd.error);
    }
    Append(s, snd.value);
    Append(s, FF(16));
    var idx := DdiUtils.StrToData(m.idx);
    if idx.Err? {
      return Fail(idx.error);
    }
    Append(s, idx.value);
    r := Pass;
    ghost var w := id.value + snd.value + FF(16) + idx.value;
    assert VqmpTail(m) == Ok(w);
    calc {
      s.data;
      d0 + id.value + snd.value + FF(16) + idx.value;
      { Assoc(d0 + id.value + snd.value, FF(16), idx.value); Assoc(d0 + id.value, snd.value, FF(16) + idx.value);
        Assoc(d0, id.value, snd.value + (FF(16) + idx.value));
        Assoc(id.value, snd.value, FF(16) + idx.value); Assoc(id.value + snd.value, FF(16), idx.value); }
      d0 + w;
    }
  }

  /** Writes one `VQMp` record at the end of the stream, field by field as `_create_vqm_stream` does. */
  method WriteVqmp(s: Stream, m: VqmMeta) returns (r: Outcome)
    requires s.pos == |s.data|
    modifies s
    ensures r.Pass? <==> VqmpRecord(m).Ok?
    ensures r.Fail? ==> r.error == VqmpRecord(m).error
    ensures r.Pass? ==> s.data == old(s.data) + VqmpRecord(m).value && s.pos == |s.data|
  {
    ghost var start := s.data;
    var u1 := StrToBytes(m.unknown1);
    if u1.Err? {
      return Fail(u1.error);
    }
    ghost var head := VqmpHead(u1.value, m);
    WriteVqmpHead(s, u1.value, m);
    r := WriteEprBlock(s, m.epr);
    if r.Fail? {
      return;
    }
    ghost var block := EprBlockBytes(m.epr).value;
    r := WriteVqmpTail(s, m);
    if r.Fail? {
      return;
    }
    ghost var tail := VqmpTail(m).value;
    assert VqmpRecord(m) == Ok(head + block + tail);
    calc {
      s.data;
      start + head + block + tail;
      { Assoc(start + head, block, tail); Assoc(start, head, block + tail); Assoc(head, block, tail); }
      start + (head + block + tail);
    }
  }

  /** The `VQM ` and `VQMu` headers, then the sample count twice. */
  method WriteVqmHeader(s: Stream, count: seq<byte>)
    requires s.pos == |s.data|
    modifies s
    ensures s.data == old(s.data) + VqmHeader(count) && s.pos == |s.data|
  {
    Append(s, VqmOpening + VqmClosing);
    Append(s, VqmuFields);
    Append(s, count);
    Append(s, count);
  }

  lemma Assoc(a: seq<byte>, b: seq<byte>, c: seq<byte>)
    ensures a + b + c == a + (b + c)
  {
  }

  lemma PrefixSnoc<T>(xs: seq<T>, i: nat)
    requires i < |xs|
    ensures xs[..i + 1] == xs[..i] + [xs[i]]
  {
  }

  lemma PrefixAll<T>(xs: seq<T>)
    ensures xs[..|xs|] == xs
  {
  }

  /** One turn of the record loop: the `i`-th record follows the ones before it, or its exception ends the loop. */
  method WriteNextVqmp(s: Stream, ms: seq<VqmMeta>, i: nat, ghost h: seq<byte>) returns (r: Outcome)
    requires i < |ms| && VqmpRecords(ms[..i]).Ok?
    requires s.data == h + VqmpRecords(ms[..i]).value && s.pos == |s.data|
    modifies s
    ensures r.Fail? ==> VqmpRecord(ms[i]) == Err(r.error)
    ensures r.Pass? ==> VqmpRecords(ms[..i + 1]).Ok?
    ensures r.Pass? ==> s.data == h + VqmpRecords(ms[..i + 1]).value && s.pos == |s.data|
  {
    ghost var done := VqmpRecords(ms[..i]).value;
    r := WriteVqmp(s, ms[i]);
    if r.Pass? {
      VqmpRecordsStep(ms, i);
      Assoc(h, done, VqmpRecord(ms[i]).value);
    }
  }

  /** The record loop of `_create_vqm_stream`: each sample in list order, stopping at the first exception. */
  method WriteVqmps(s: Stream, ms: seq<VqmMeta>) returns (r: Outcome)
    requires s.pos == |s.data|
    modifies s
    ensures r.Pass? <==> VqmpRecords(ms).Ok?
    ensures r.Fail? ==> r.error == VqmpRecords(ms).error
    ensures r.Pass? ==> s.data == old(s.data) + VqmpRecords(ms).value && s.pos == |s.data|
  {
    var i := 0;
    while i < |ms|
      invariant 0 <= i <= |ms|
      invariant VqmpRecords(ms[..i]).Ok? && s.data == old(s.data) + VqmpRecords(ms[..i]).value && s.pos == |s.data|
    {
      r := WriteNextVqmp(s, ms, i, old(s.data));
      if r.Fail? {
        VqmpRecordsFirstErr(ms, i);
        return;
      }
      i := i + 1;
    }
    PrefixAll(ms);
    r := Pass;
  }

  /** `_create_vqm_stream`: the headers, each record in list order, then `GROWL` and `vqm`. */
  method CreateVqmStream(ms: seq<VqmMeta>) returns (r: Result<seq<byte>>)
    ensures r == VqmStreamBytes(ms)
  {
    var s := new Stream([]);
    var count := ToLe(|ms|, 4);
    if count.Err? {
      return Err(count.error);
    }
    WriteVqmHeader(s, count.value);
    assert s.data == VqmHeader(count.value) by {
      assert [] + VqmHeader(count.value) == VqmHeader(count.value);
    }
    var w := WriteVqmps(s, ms);
    if w.Fail? {
      return Err(w.error);
    }
    TrailerEncodes();
    Append(s, DdiUtils.StrToData("GROWL").value);
    Append(s, DdiUtils.StrToData("vqm").value);
    r := Ok(s.GetValue());
  }

  // ---------------------------------------------------------------- decoding what was written

  /** `piece` sits in `buf` at `p`. */
  predicate At(buf: seq<byte>, p: nat, piece: seq<byte>) {
    p + |piece| <= |buf| && buf[p..p + |piece|] == piece
  }

  lemma AtCat(buf: seq<byte>, p: nat, a: seq<byte>, b: seq<byte>)
    requires At(buf, p, a + b)
    ensures At(buf, p, a) && At(buf, p + |a|, b)
  {
    var w := buf[p..p + |a| + |b|];
    assert w == a + b;
    assert buf[p..p + |a|] == w[..|a|];
    assert buf[p + |a|..p + |a| + |b|] == w[|a|..];
  }

  lemma ReadStrAt(buf: seq<byte>, p: nat, s: string, d: seq<byte>, e: nat)
    requires DdiUtils.StrToData(s) == Ok(d) && At(buf, p, d) && e == p + |d|
    ensures ReadStr(buf, p) == Ok((s, e))
  {
    assert buf == buf[..p] + d + buf[p + |d|..];
    DdiUtils.ReadStrOfStrToData(s, buf[..p], buf[p + |d|..]);
  }

  /** The epr entries `read_vqm` records for offsets written from `base` on: each field's position and value. */
  function EprRefs(xs: seq<nat>, base: nat): (r: seq<Ref>)
    ensures |r| == |xs| && forall i :: 0 <= i < |xs| ==> r[i].value == xs[i]
  {
    seq(|xs|, i requires 0 <= i < |xs| => Ref(base + 8 * i, xs[i]))
  }

  /** A 4-byte field holding `v` passes `NeedUint`. */
  lemma NeedUintAt(buf: seq<byte>, q: nat, field: seq<byte>, v: nat)
    requires |field| == 4 && At(buf, q, field) && Le(field) == v
    ensures NeedUint(buf, q, 4, v) == Ok(q + 4)
  {
    assert Span(buf, q, 4) == field;
  }

  /** Bytes equal to the expected ones pass `NeedBytes`. */
  lemma NeedBytesAt(buf: seq<byte>, q: nat, b: seq<byte>)
    requires |b| > 0 && At(buf, q, b)
    ensures NeedBytes(buf, q, b) == Ok(q + |b|)
  {
  }

  /** Four bytes that decode to `tag` pass `NeedTag`. */
  lemma NeedTagAt(buf: seq<byte>, q: nat, field: seq<byte>, tag: string)
    requires |tag| == 4 && |field| == 4 && At(buf, q, field) && Utf8.Decode(field) == Ok(tag)
    ensures NeedTag(buf, q, tag) == Ok(q + 4)
  {
    assert Take(buf, q, 4) == (field, q + 4);
  }

  /** The five fixed fields that open a `VQMp` record read back. */
  lemma ParseVqmpOpening(buf: seq<byte>, p: nat)
    requires At(buf, p, FF(8) + TagVqmp + Zero32 + Zero32 + One32)
    ensures NeedBytes(buf, p, FF(8)) == Ok(p + 8)
    ensures NeedTag(buf, p + 8, "VQMp") == Ok(p + 12)
    ensures NeedUint(buf, p + 12, 4, 0) == Ok(p + 16)
    ensures NeedUint(buf, p + 16, 4, 0) == Ok(p + 20)
    ensures NeedUint(buf, p + 20, 4, 1) == Ok(p + 24)
  {
    ConstantNumbers();
    TagVqmpDecodes();
    AtCat(buf, p, FF(8) + TagVqmp + Zero32 + Zero32, One32);
    AtCat(buf, p, FF(8) + TagVqmp + Zero32, Zero32);
    AtCat(buf, p, FF(8) + TagVqmp, Zero32);
    AtCat(buf, p, FF(8), TagVqmp);
    NeedBytesAt(buf, p, FF(8));
    NeedTagAt(buf, p + 8, TagVqmp, "VQMp");
    NeedUintAt(buf, p + 12, Zero32, 0);
    NeedUintAt(buf, p + 16, Zero32, 0);
    NeedUintAt(buf, p + 20, One32, 1);
  }

  lemma TakeFloatsAt(buf: seq<byte>, p: nat, a: F32, b: F32, c: F32, d: F32, e: F32)
    requires At(buf, p, a + b + c + d + e)
    ensures TakeFloats(buf, p) == Ok((Floats(a, b, c, d, e), p + 20))
  {
    AtCat(buf, p, a + b + c + d, e);
    AtCat(buf, p, a + b + c, d);
    AtCat(buf, p, a + b, c);
    AtCat(buf, p, a, b);
    assert TakeF32(buf, p) == Ok((a, p + 4));
    assert TakeF32(buf, p + 4) == Ok((b, p + 8));
    assert TakeF32(buf, p + 8) == Ok((c, p + 12));
    assert TakeF32(buf, p + 12) == Ok((d, p + 16));
    assert TakeF32(buf, p + 16) == Ok((e, p + 20));
  }

  /** The float fields and the two fixed fields after them read back. */
  lemma ParseVqmpFloats(buf: seq<byte>, p: nat, m: VqmMeta)
    requires At(buf, p, Pitch224 + m.pitch2 + m.unknown2 + m.dynamics + m.unknown3 + Zero32 + FF(4))
    ensures TakeFloats(buf, p) == Ok((Floats(Pitch224, m.pitch2, m.unknown2, m.dynamics, m.unknown3), p + 20))
    ensures NeedUint(buf, p + 20, 4, 0) == Ok(p + 24)
    ensures NeedBytes(buf, p + 24, FF(4)) == Ok(p + 28)
  {
    ConstantNumbers();
    var f := Pitch224 + m.pitch2 + m.unknown2 + m.dynamics + m.unknown3;
    AtCat(buf, p, f + Zero32, FF(4));
    AtCat(buf, p, f, Zero32);
    TakeFloatsAt(buf, p, Pitch224, m.pitch2, m.unknown2, m.dynamics, m.unknown3);
  }

  lemma ParseVqmpHeadAt(buf: seq<byte>, p: nat, u1: seq<byte>, m: VqmMeta)
    requires |u1| == 10 && At(buf, p, VqmpHead(u1, m))
    ensures ParseVqmpHead(buf, p)
         == Ok(((BytesToStr(u1, true), Floats(Pitch224, m.pitch2, m.unknown2, m.dynamics, m.unknown3)), p + 62))
  {
    var a := FF(8) + TagVqmp + Zero32 + Zero32 + One32;
    var f := Pitch224 + m.pitch2 + m.unknown2 + m.dynamics + m.unknown3 + Zero32 + FF(4);
    assert VqmpHead(u1, m) == a + u1 + f;
    AtCat(buf, p, a + u1, f);
    AtCat(buf, p, a, u1);
    ParseVqmpOpening(buf, p);
    assert TakeDump(buf, p + 24, 10) == (BytesToStr(u1, true), p + 34);
    ParseVqmpFloats(buf, p + 34, m);
  }

  /** The offsets of `xs`, 8 little-endian bytes each. */
  predicate OffsetFields(eprs: seq<byte>, xs: seq<nat>) {
    |eprs| == 8 * |xs| && forall i :: 0 <= i < |xs| ==> Le(eprs[8 * i..8 * i + 8]) == xs[i]
  }

  lemma U64sFields(xs: seq<nat>)
    requires U64s(xs).Ok?
    ensures OffsetFields(U64s(xs).value, xs)
  {
    forall i | 0 <= i < |xs|
      ensures Le(U64s(xs).value[8 * i..8 * i + 8]) == xs[i]
    {
      U64sAt(xs, i);
    }
  }

  /** The fields of an epr block as `read_vqm` sees them in the buffer. */
  predicate EprFieldsIn(buf: seq<byte>, q: nat, xs: seq<nat>) {
    && q + 10 + 8 * |xs| <= |buf|
    && Le(buf[q..q + 4]) == |xs|
    && (forall i :: 0 <= i < |xs| ==> Le(buf[q + 4 + 8 * i..q + 12 + 8 * i]) == xs[i])
    && Le(buf[q + 4 + 8 * |xs|..q + 8 + 8 * |xs|]) == 0xAC44
    && buf[q + 8 + 8 * |xs|..q + 10 + 8 * |xs|] == [1, 0]
  }

  lemma EprFieldsAt(buf: seq<byte>, q: nat, count: seq<byte>, eprs: seq<byte>, xs: seq<nat>)
    requires |count| == 4 && Le(count) == |xs| && OffsetFields(eprs, xs)
    requires At(buf, q, count + eprs + SndPrefix)
    ensures EprFieldsIn(buf, q, xs)
  {
    AtCat(buf, q, count + eprs, SndPrefix);
    AtCat(buf, q, count, eprs);
    assert SndPrefix[..4] + SndPrefix[4..] == SndPrefix;
    AtCat(buf, q + 4 + 8 * |xs|, SndPrefix[..4], SndPrefix[4..]);
    ConstantNumbers();
    forall i | 0 <= i < |xs|
      ensures Le(buf[q + 4 + 8 * i..q + 12 + 8 * i]) == xs[i]
    {
      assert buf[q + 4 + 8 * i..q + 12 + 8 * i] == eprs[8 * i..8 * i + 8];
    }
  }

  lemma ParseEprBlockOf(buf: seq<byte>, q: nat, xs: seq<nat>, e: nat)
    requires EprFieldsIn(buf, q, xs) && e == q + 10 + 8 * |xs|
    ensures ParseEprBlock(buf, q).Ok? && ParseEprBlock(buf, q).value.1 == e
    ensures ParseEprBlock(buf, q).value.0.epr == EprRefs(xs, q + 4) && ParseEprBlock(buf, q).value.0.fs == 0xAC44
  {
    var c := q + 4 + 8 * |xs|;
    assert TakeUint(buf, q, 4) == (|xs|, q + 4);
    assert EprsFrom(buf, q + 4, |xs|).1 == c;
    assert TakeUint(buf, c, 4) == (0xAC44, c + 4);
    assert NeedBytes(buf, c + 4, [1, 0]) == Ok(e);
    var r := ParseEprBlock(buf, q);
    assert r.Ok?;
    EprBlockLayout(buf, q);
    var refs := r.value.0.epr;
    assert |refs| == |xs|;
    forall i | 0 <= i < |xs|
      ensures refs[i] == EprRefs(xs, q + 4)[i]
    {
    }
    assert refs == EprRefs(xs, q + 4);
  }

  /** An epr block read back: the entries sit 8 bytes apart from `q + 4` and `fs` is 44100. */
  lemma ParseEprBlockAt(buf: seq<byte>, q: nat, count: seq<byte>, eprs: seq<byte>, xs: seq<nat>, e: nat)
    requires |count| == 4 && Le(count) == |xs| && OffsetFields(eprs, xs)
    requires At(buf, q, count + eprs + SndPrefix) && e == q + 10 + 8 * |xs|
    ensures ParseEprBlock(buf, q).Ok? && ParseEprBlock(buf, q).value.1 == e
    ensures ParseEprBlock(buf, q).value.0.epr == EprRefs(xs, q + 4) && ParseEprBlock(buf, q).value.0.fs == 0xAC44
  {
    EprFieldsAt(buf, q, count, eprs, xs);
    ParseEprBlockOf(buf, q, xs, e);
  }

  /** The fields after an epr list, each read where the encoder put it. */
  lemma TailFieldsAt(buf: seq<byte>, t: nat, id: seq<byte>, snd: seq<byte>, idx: seq<byte>)
    requires |id| == 4 && |snd| == 8 && At(buf, t, id + snd + FF(16) + idx)
    ensures TakeUint(buf, t, 4) == (Le(id), t + 4)
    ensures TakeUint(buf, t + 4, 8) == (Le(snd), t + 12)
    ensures NeedBytes(buf, t + 12, FF(16)) == Ok(t + 28)
    ensures At(buf, t + 28, idx)
  {
    AtCat(buf, t, id + snd + FF(16), idx);
    AtCat(buf, t, id + snd, FF(16));
    AtCat(buf, t, id, snd);
  }

  /** The end of a record read back: the sound reference at `t + 4` and the index parsed as a decimal. */
  lemma ParseVqmpTailOf(buf: seq<byte>, t: nat, id: nat, snd: nat, name: string, e: nat)
    requires TakeUint(buf, t, 4) == (id, t + 4) && TakeUint(buf, t + 4, 8) == (snd, t + 12)
    requires NeedBytes(buf, t + 12, FF(16)) == Ok(t + 28) && ReadStr(buf, t + 28) == Ok((name, e))
    requires ParseInt(name).Ok?
    ensures ParseVqmpTail(buf, t) == Ok(((ParseInt(name).value, SndRef(t + 4, snd, id)), e))
  {
  }


  /** Reading a record is reading its head, its epr block and its tail in turn. */
  lemma ParseVqmpOf(buf: seq<byte>, p: nat, dump: string, f: Floats, q: nat, blk: EprBlock, t: nat,
                    idx: int, snd: SndRef, e: nat)
    requires ParseVqmpHead(buf, p) == Ok(((dump, f), q))
    requires ParseEprBlock(buf, q) == Ok((blk, t))
    requires ParseVqmpTail(buf, t) == Ok(((idx, snd), e))
    ensures ParseVqmp(buf, p) == Ok(((idx, Vqmp(dump, f, blk.epr, blk.fs, snd)), e))
  {
  }

  lemma AtSplit3(buf: seq<byte>, p: nat, w: seq<byte>, a: seq<byte>, b: seq<byte>, c: seq<byte>)
    requires At(buf, p, w) && w == a + b + c
    ensures At(buf, p, a) && At(buf, p + |a|, b) && At(buf, p + |a| + |b|, c)
  {
    AtCat(buf, p, a + b, c);
    AtCat(buf, p, a, b);
  }

  /** The encoded fields of a sample, as `_create_vqm_stream` converts them before writing. */
  datatype Fields = Fields(u1: seq<byte>, count: seq<byte>, eprs: seq<byte>, id: seq<byte>, snd: seq<byte>,
                           idx: seq<byte>)

  /** The record written for `m` with the encoded fields `f`. */
  function FieldBytes(f: Fields, m: VqmMeta): seq<byte> {
    VqmpHead(f.u1, m) + (f.count + f.eprs + SndPrefix) + (f.id + f.snd + FF(16) + f.idx)
  }

  /** `f` holds the encodings of the fields of `m` that `read_vqm` interprets. */
  predicate Fit(f: Fields, m: VqmMeta) {
    && |f.u1| == 10 && |f.count| == 4 && Le(f.count) == |m.epr| && OffsetFields(f.eprs, m.epr)
    && |f.id| == 4 && Le(f.id) == m.sndId && |f.snd| == 8 && Le(f.snd) == m.snd
    && DdiUtils.StrToData(m.idx) == Ok(f.idx) && ParseInt(m.idx).Ok?
  }

  /** What `read_vqm` decodes from the record of `m` written at `p` with the fields `f`. */
  function VqmpOf(f: Fields, m: VqmMeta, p: nat): (v: Vqmp)
    requires m.sndId >= 0
    ensures |v.epr| == |m.epr| && forall i :: 0 <= i < |m.epr| ==> v.epr[i].value == m.epr[i]
  {
    Vqmp(BytesToStr(f.u1, true), FloatsOf(m),
         EprRefs(m.epr, p + 66), 0xAC44, SndRef(p + 76 + 8 * |m.epr|, m.snd, m.sndId))
  }

  /**
   * A record read back: the dump and the floats, every offset with the position
   * of its field, the sample rate, the sound reference and the index; the
   * cursor stops right after the record.
   */
  lemma ParseFieldsAt(buf: seq<byte>, p: nat, f: Fields, m: VqmMeta)
    requires Fit(f, m) && At(buf, p, FieldBytes(f, m))
    ensures ParseVqmp(buf, p).Ok? && ParseVqmp(buf, p).value.0.0 == ParseInt(m.idx).value
    ensures ParseVqmp(buf, p).value.0.1 == VqmpOf(f, m, p) && ParseVqmp(buf, p).value.1 == p + |FieldBytes(f, m)|
  {
    var q := p + 62;
    var t := q + 10 + 8 * |m.epr|;
    var e := t + 28 + |f.idx|;
    RecordHeadAt(buf, p, f, m, q);
    RecordBlockAt(buf, p, f, m, q, t);
    RecordTailAt(buf, p, f, m, t, e);
    var k, blk, snd := ParseInt(m.idx).value, EprBlock(EprRefs(m.epr, q + 4), 0xAC44), SndRef(t + 4, m.snd, m.sndId);
    ParseVqmpOf(buf, p, BytesToStr(f.u1, true), FloatsOf(m), q, blk, t, k, snd, e);
    VqmpOfAt(f, m, p, q, t);
    assert |FieldBytes(f, m)| == 100 + 8 * |m.epr| + |f.idx|;
  }

  /** The record read at `p`, with its epr block at `q` and its tail at `t`. */
  lemma VqmpOfAt(f: Fields, m: VqmMeta, p: nat, q: nat, t: nat)
    requires m.sndId >= 0 && q == p + 62 && t == q + 10 + 8 * |m.epr|
    ensures VqmpOf(f, m, p) == Vqmp(BytesToStr(f.u1, true), FloatsOf(m), EprRefs(m.epr, q + 4), 0xAC44,
                                    SndRef(t + 4, m.snd, m.sndId))
  {
  }

  lemma RecordHeadAt(buf: seq<byte>, p: nat, f: Fields, m: VqmMeta, q: nat)
    requires Fit(f, m) && At(buf, p, FieldBytes(f, m)) && q == p + 62
    ensures ParseVqmpHead(buf, p) == Ok(((BytesToStr(f.u1, true), FloatsOf(m)), q))
  {
    var a, b, c := VqmpHead(f.u1, m), f.count + f.eprs + SndPrefix, f.id + f.snd + FF(16) + f.idx;
    AtSplit3(buf, p, FieldBytes(f, m), a, b, c);
    ParseVqmpHeadAt(buf, p, f.u1, m);
    var r := ParseVqmpHead(buf, p);
    assert r.Ok? && r.value.0.0 == BytesToStr(f.u1, true) && r.value.0.1 == FloatsOf(m) && r.value.1 == q;
    OkTriple(r, BytesToStr(f.u1, true), FloatsOf(m), q);
  }

  /** The epr block of the record written at `p` starts at `q`. */
  lemma BlockBytesAt(buf: seq<byte>, p: nat, f: Fields, m: VqmMeta, q: nat)
    requires |f.u1| == 10 && At(buf, p, FieldBytes(f, m)) && q == p + 62
    ensures At(buf, q, f.count + f.eprs + SndPrefix)
  {
    var a, b, c := VqmpHead(f.u1, m), f.count + f.eprs + SndPrefix, f.id + f.snd + FF(16) + f.idx;
    assert |a| == 62;
    AtSplit3(buf, p, FieldBytes(f, m), a, b, c);
  }

  lemma RecordBlockAt(buf: seq<byte>, p: nat, f: Fields, m: VqmMeta, q: nat, t: nat)
    requires Fit(f, m) && At(buf, p, FieldBytes(f, m)) && q == p + 62 && t == q + 10 + 8 * |m.epr|
    ensures ParseEprBlock(buf, q) == Ok((EprBlock(EprRefs(m.epr, q + 4), 0xAC44), t))
  {
    BlockBytesAt(buf, p, f, m, q);
    ParseEprBlockAt(buf, q, f.count, f.eprs, m.epr, t);
    var r := ParseEprBlock(buf, q);
    assert r.Ok? && r.value.0 == EprBlock(EprRefs(m.epr, q + 4), 0xAC44) && r.value.1 == t;
    OkPair(r, EprBlock(EprRefs(m.epr, q + 4), 0xAC44), t);
  }

  lemma RecordTailAt(buf: seq<byte>, p: nat, f: Fields, m: VqmMeta, t: nat, e: nat)
    requires Fit(f, m) && At(buf, p, FieldBytes(f, m))
    requires t == p + 62 + 10 + 8 * |m.epr| && e == t + 28 + |f.idx|
    ensures ParseVqmpTail(buf, t) == Ok(((ParseInt(m.idx).value, SndRef(t + 4, m.snd, m.sndId)), e))
  {
    TailBytesAt(buf, p, f, m, t);
    ParseTailAt(buf, t, f, m, t + 4, e);
    var r := ParseVqmpTail(buf, t);
    assert r.Ok? && r.value.0.0 == ParseInt(m.idx).value && r.value.0.1 == SndRef(t + 4, m.snd, m.sndId) && r.value.1 == e;
    OkTriple(r, ParseInt(m.idx).value, SndRef(t + 4, m.snd, m.sndId), e);
  }

  /** The tail of the record written at `p` starts at `t`. */
  lemma TailBytesAt(buf: seq<byte>, p: nat, f: Fields, m: VqmMeta, t: nat)
    requires |f.u1| == 10 && |f.count| == 4 && |f.eprs| == 8 * |m.epr| && At(buf, p, FieldBytes(f, m))
    requires t == p + 62 + 10 + 8 * |m.epr|
    ensures At(buf, t, f.id + f.snd + FF(16) + f.idx)
  {
    var a, b, c := VqmpHead(f.u1, m), f.count + f.eprs + SndPrefix, f.id + f.snd + FF(16) + f.idx;
    assert |a| == 62 && |b| == 10 + 8 * |m.epr|;
    AtSplit3(buf, p, FieldBytes(f, m), a, b, c);
  }

  function FloatsOf(m: VqmMeta): Floats {
    Floats(Pitch224, m.pitch2, m.unknown2, m.dynamics, m.unknown3)
  }

  /** The end of a record read back from the encoded fields `f`. */
  lemma ParseTailAt(buf: seq<byte>, t: nat, f: Fields, m: VqmMeta, s: nat, e: nat)
    requires |f.id| == 4 && Le(f.id) == m.sndId && |f.snd| == 8 && Le(f.snd) == m.snd
    requires DdiUtils.StrToData(m.idx) == Ok(f.idx) && ParseInt(m.idx).Ok?
    requires At(buf, t, f.id + f.snd + FF(16) + f.idx) && s == t + 4 && e == t + 28 + |f.idx|
    ensures ParseVqmpTail(buf, t) == Ok(((ParseInt(m.idx).value, SndRef(s, m.snd, m.sndId)), e))
  {
    TailFieldsAt(buf, t, f.id, f.snd, f.idx);
    ReadStrAt(buf, t + 28, m.idx, f.idx, e);
    assert TakeUint(buf, t, 4) == (m.sndId, t + 4) && TakeUint(buf, t + 4, 8) == (m.snd, t + 12);
    ParseVqmpTailOf(buf, t, m.sndId, m.snd, m.idx, e);
    var r := ParseVqmpTail(buf, t);
    assert r.Ok? && r.value.0.0 == ParseInt(m.idx).value && r.value.0.1 == SndRef(s, m.snd, m.sndId) && r.value.1 == e;
    OkTriple(r, ParseInt(m.idx).value, SndRef(s, m.snd, m.sndId), e);
  }

  /** A result read back is the one its parts say. */
  lemma OkTriple<A, B>(r: Result<((A, B), nat)>, a: A, b: B, e: nat)
    requires r.Ok? && r.value.0.0 == a && r.value.0.1 == b && r.value.1 == e
    ensures r == Ok(((a, b), e))
  {
  }

  /** A result read back is the one its parts say. */
  lemma OkPair<A>(r: Result<(A, nat)>, a: A, e: nat)
    requires r.Ok? && r.value.0 == a && r.value.1 == e
    ensures r == Ok((a, e))
  {
  }

  /**
   * A sample `_create_vqm_stream` can write and `read_vqm` can read back: its
   * dump is 10 bytes of hex, every number fits its field, and its index is a
   * decimal number.
   */
  predicate Encodable(m: VqmMeta) {
    && StrToBytes(m.unknown1).Ok? && |StrToBytes(m.unknown1).value| == 10
    && |m.epr| < Pow256(4) && U64s(m.epr).Ok? && 0 <= m.sndId < Pow256(4) && m.snd < Pow256(8)
    && DdiUtils.StrToData(m.idx).Ok? && ParseInt(m.idx).Ok?
  }

  function FieldsFor(m: VqmMeta): Fields
    requires Encodable(m)
  {
    Fields(StrToBytes(m.unknown1).value, ToLe(|m.epr|, 4).value, U64s(m.epr).value, ToLe(m.sndId, 4).value,
           ToLe(m.snd, 8).value, DdiUtils.StrToData(m.idx).value)
  }

  /** The record of an encodable sample is written, from fields that `read_vqm` interprets as the sample. */
  lemma FieldsForFit(m: VqmMeta)
    requires Encodable(m)
    ensures Fit(FieldsFor(m), m) && VqmpRecord(m) == Ok(FieldBytes(FieldsFor(m), m))
  {
    U64sFields(m.epr);
  }

  function FieldsList(ms: seq<VqmMeta>): (fs: seq<Fields>)
    requires forall i :: 0 <= i < |ms| ==> Encodable(ms[i])
    ensures |fs| == |ms| && forall i :: 0 <= i < |ms| ==> fs[i] == FieldsFor(ms[i])
  {
    seq(|ms|, i requires 0 <= i < |ms| => FieldsFor(ms[i]))
  }

  /** The records of `ms` with the fields `fs`, one after another. */
  function RecordsOf(fs: seq<Fields>, ms: seq<VqmMeta>): seq<byte>
    requires |fs| == |ms|
  {
    if |ms| == 0 then [] else FieldBytes(fs[0], ms[0]) + RecordsOf(fs[1..], ms[1..])
  }

  /** The records of encodable samples are written, one after another. */
  lemma {:induction false} RecordsOfList(ms: seq<VqmMeta>)
    requires forall i :: 0 <= i < |ms| ==> Encodable(ms[i])
    ensures VqmpRecords(ms) == Ok(RecordsOf(FieldsList(ms), ms))
  {
    if |ms| > 0 {
      FieldsForFit(ms[0]);
      RecordsOfList(ms[1..]);
      assert FieldsList(ms)[1..] == FieldsList(ms[1..]);
    }
  }

  /** Every `fs[i]` holds the encodings of the fields of `ms[i]`. */
  predicate AllFit(fs: seq<Fields>, ms: seq<VqmMeta>)
    decreases |ms|
  {
    |fs| == |ms| && (|ms| == 0 || (Fit(fs[0], ms[0]) && AllFit(fs[1..], ms[1..])))
  }

  /** The length of a record written from fields that fit: 100 fixed bytes, the offsets and the index. */
  function RecordSize(f: Fields): nat {
    100 + |f.eprs| + |f.idx|
  }

  lemma FieldBytesSize(f: Fields, m: VqmMeta)
    requires Fit(f, m)
    ensures |FieldBytes(f, m)| == RecordSize(f)
  {
  }

  /** Where the records of `ms` written from `p` on start, and where the last one ends. */
  function Starts(fs: seq<Fields>, ms: seq<VqmMeta>, p: nat): (ps: seq<nat>)
    requires |fs| == |ms|
    ensures |ps| == |ms| + 1 && ps[0] == p
    decreases |ms|
  {
    if |ms| == 0 then [p] else [p] + Starts(fs[1..], ms[1..], p + RecordSize(fs[0]))
  }

  /** The indices of `ms`, as `read_vqm` parses them. */
  function IdxOf(fs: seq<Fields>, ms: seq<VqmMeta>): (ks: seq<int>)
    requires AllFit(fs, ms)
    ensures |ks| == |ms|
    decreases |ms|
  {
    if |ms| == 0 then [] else [ParseInt(ms[0].idx).value] + IdxOf(fs[1..], ms[1..])
  }

  /** The samples `read_vqm` builds from the records of `ms` written from `p` on. */
  function VqmpsOf(fs: seq<Fields>, ms: seq<VqmMeta>, p: nat): (vs: seq<Vqmp>)
    requires AllFit(fs, ms)
    ensures |vs| == |ms|
    decreases |ms|
  {
    if |ms| == 0 then []
    else [VqmpOf(fs[0], ms[0], p)] + VqmpsOf(fs[1..], ms[1..], p + RecordSize(fs[0]))
  }

  /** `acc` with every `(ks[i], vs[i])` put in turn, as `vqm_dict[idx] = ...` does. */
  function PutAll(acc: seq<(int, Vqmp)>, ks: seq<int>, vs: seq<Vqmp>): seq<(int, Vqmp)>
    requires |ks| == |vs|
    decreases |ks|
  {
    if |ks| == 0 then acc else PutAll(Put(acc, ks[0], vs[0]), ks[1..], vs[1..])
  }

  /** `read_vqm` reads the record at `p` as the sample `v` with index `k` and stops at `q`. */
  predicate Reads(buf: seq<byte>, p: nat, k: int, v: Vqmp, q: nat) {
    ParseVqmp(buf, p).Ok? && ParseVqmp(buf, p).value.0.0 == k && ParseVqmp(buf, p).value.0.1 == v
    && ParseVqmp(buf, p).value.1 == q
  }

  /** The `i`-th record starts at `ps[i]`, reads as `(ks[i], vs[i])` and ends where the next starts. */
  predicate ReadsAll(buf: seq<byte>, ps: seq<nat>, ks: seq<int>, vs: seq<Vqmp>)
    decreases |ks|
  {
    && |ps| == |ks| + 1 && |vs| == |ks|
    && (|ks| == 0 || (Reads(buf, ps[0], ks[0], vs[0], ps[1]) && ReadsAll(buf, ps[1..], ks[1..], vs[1..])))
  }

  /** `read_vqm`'s loop over records that read one after another: the dictionary of them all. */
  lemma {:induction false} ParseChain(buf: seq<byte>, ps: seq<nat>, ks: seq<int>, vs: seq<Vqmp>, acc: seq<(int, Vqmp)>)
    requires ReadsAll(buf, ps, ks, vs) && KeysDistinct(acc)
    ensures ParseVqmps(buf, ps[0], |ks|, acc) == Ok((PutAll(acc, ks, vs), ps[|ks|]))
    decreases |ks|
  {
    if |ks| > 0 {
      ParseVqmpsStep(buf, ps[0], |ks|, acc, ks[0], vs[0], ps[1]);
      var acc' := Put(acc, ks[0], vs[0]);
      ParseChain(buf, ps[1..], ks[1..], vs[1..], acc');
      var r := ParseVqmps(buf, ps[0], |ks|, acc);
      assert Prev(|ks|) == |ks[1..]|;
      assert r == ParseVqmps(buf, ps[1..][0], |ks[1..]|, acc');
      assert r.Ok? && r.value.0 == PutAll(acc, ks, vs) && r.value.1 == ps[|ks|];
      OkPair(r, PutAll(acc, ks, vs), ps[|ks|]);
    }
  }

  /** Every record of `ms` written at `p` reads back, one after another, up to the end of `w`. */
  lemma {:induction false} RecordsReadAll(buf: seq<byte>, p: nat, fs: seq<Fields>, ms: seq<VqmMeta>, w: seq<byte>)
    requires AllFit(fs, ms) && w == RecordsOf(fs, ms) && At(buf, p, w)
    ensures ReadsAll(buf, Starts(fs, ms, p), IdxOf(fs, ms), VqmpsOf(fs, ms, p))
    ensures Starts(fs, ms, p)[|ms|] == p + |w|
    decreases |ms|
  {
    if |ms| > 0 {
      var a, rest := FieldBytes(fs[0], ms[0]), RecordsOf(fs[1..], ms[1..]);
      var q := p + RecordSize(fs[0]);
      assert Fit(fs[0], ms[0]) && AllFit(fs[1..], ms[1..]);
      FieldBytesSize(fs[0], ms[0]);
      RecordsSplit(buf, p, fs, ms, a, rest, q);
      RecordReads(buf, p, fs[0], ms[0], a, q);
      RecordsReadAll(buf, q, fs[1..], ms[1..], rest);
      ListsStep(fs, ms, p, q);
      ReadsAllCons(buf, p, ParseInt(ms[0].idx).value, VqmpOf(fs[0], ms[0], p),
                   Starts(fs[1..], ms[1..], q), IdxOf(fs[1..], ms[1..]), VqmpsOf(fs[1..], ms[1..], q));
    }
  }

  /** The lists of a non-empty `ms`: the first record's, then the rest's from `q` on. */
  lemma ListsStep(fs: seq<Fields>, ms: seq<VqmMeta>, p: nat, q: nat)
    requires AllFit(fs, ms) && |ms| > 0 && q == p + RecordSize(fs[0])
    ensures AllFit(fs[1..], ms[1..])
    ensures Starts(fs, ms, p) == [p] + Starts(fs[1..], ms[1..], q)
    ensures IdxOf(fs, ms) == [ParseInt(ms[0].idx).value] + IdxOf(fs[1..], ms[1..])
    ensures VqmpsOf(fs, ms, p) == [VqmpOf(fs[0], ms[0], p)] + VqmpsOf(fs[1..], ms[1..], q)
  {
    StartsStep(fs, ms, p, q);
    VqmpsOfStep(fs, ms, p, q);
  }

  lemma StartsStep(fs: seq<Fields>, ms: seq<VqmMeta>, p: nat, q: nat)
    requires |fs| == |ms| > 0 && q == p + RecordSize(fs[0])
    ensures Starts(fs, ms, p) == [p] + Starts(fs[1..], ms[1..], q)
  {
  }

  lemma VqmpsOfStep(fs: seq<Fields>, ms: seq<VqmMeta>, p: nat, q: nat)
    requires AllFit(fs, ms) && |ms| > 0 && q == p + RecordSize(fs[0])
    ensures AllFit(fs[1..], ms[1..])
    ensures VqmpsOf(fs, ms, p) == [VqmpOf(fs[0], ms[0], p)] + VqmpsOf(fs[1..], ms[1..], q)
  {
  }

  lemma ReadsAllCons(buf: seq<byte>, p: nat, k: int, v: Vqmp, ps: seq<nat>, ks: seq<int>, vs: seq<Vqmp>)
    requires ReadsAll(buf, ps, ks, vs) && Reads(buf, p, k, v, ps[0])
    ensures ReadsAll(buf, [p] + ps, [k] + ks, [v] + vs)
  {
    var ps', ks', vs' := [p] + ps, [k] + ks, [v] + vs;
    assert ps'[0] == p && ps'[1] == ps[0] && ks'[0] == k && vs'[0] == v;
    assert ps'[1..] == ps && ks'[1..] == ks && vs'[1..] == vs;
  }

  /** The first record `a` of `ms` and the records `rest` after it. */
  lemma RecordsSplit(buf: seq<byte>, p: nat, fs: seq<Fields>, ms: seq<VqmMeta>, a: seq<byte>, rest: seq<byte>, q: nat)
    requires |fs| == |ms| > 0 && At(buf, p, RecordsOf(fs, ms))
    requires a == FieldBytes(fs[0], ms[0]) && rest == RecordsOf(fs[1..], ms[1..]) && q == p + |a|
    ensures At(buf, p, a) && At(buf, q, rest) && |RecordsOf(fs, ms)| == |a| + |rest|
  {
    assert RecordsOf(fs, ms) == a + rest;
    AtCat(buf, p, a, rest);
  }

  /** The record `a` of `m` written at `p` reads back as `m`'s sample and index, up to `q`. */
  lemma RecordReads(buf: seq<byte>, p: nat, f: Fields, m: VqmMeta, a: seq<byte>, q: nat)
    requires Fit(f, m) && a == FieldBytes(f, m) && At(buf, p, a) && q == p + |a|
    ensures Reads(buf, p, ParseInt(m.idx).value, VqmpOf(f, m, p), q)
  {
    ParseFieldsAt(buf, p, f, m);
  }

  /**
   * `read_vqm`'s loop over the records of `ms` written at `p`: every sample
   * comes back, in list order, and the loop stops at the end of the records.
   */
  lemma ParseRecordsAt(buf: seq<byte>, p: nat, fs: seq<Fields>, ms: seq<VqmMeta>, acc: seq<(int, Vqmp)>,
                       w: seq<byte>)
    requires AllFit(fs, ms) && KeysDistinct(acc) && w == RecordsOf(fs, ms) && At(buf, p, w)
    ensures ParseVqmps(buf, p, |ms|, acc).Ok?
    ensures ParseVqmps(buf, p, |ms|, acc).value.0 == PutAll(acc, IdxOf(fs, ms), VqmpsOf(fs, ms, p))
    ensures ParseVqmps(buf, p, |ms|, acc).value.1 == p + |w|
  {
    var ps, ks, vs := Starts(fs, ms, p), IdxOf(fs, ms), VqmpsOf(fs, ms, p);
    RecordsReadAll(buf, p, fs, ms, w);
    ParseChain(buf, ps, ks, vs, acc);
    var r := ParseVqmps(buf, p, |ms|, acc);
    assert r == ParseVqmps(buf, ps[0], |ks|, acc);
    assert r.Ok? && r.value.0 == PutAll(acc, ks, vs) && r.value.1 == p + |w|;
  }

  /** One turn of `read_vqm`'s loop: a record read, then the rest of the count. */
  lemma ParseVqmpsStep(buf: seq<byte>, p: nat, count: nat, acc: seq<(int, Vqmp)>, k: int, v: Vqmp, q: nat)
    requires KeysDistinct(acc) && count > 0
    requires ParseVqmp(buf, p).Ok? && ParseVqmp(buf, p).value.0.0 == k && ParseVqmp(buf, p).value.0.1 == v
    requires ParseVqmp(buf, p).value.1 == q
    ensures KeysDistinct(Put(acc, k, v))
    ensures ParseVqmps(buf, p, count, acc) == ParseVqmps(buf, q, Prev(count), Put(acc, k, v))
  {
    PutDistinct(acc, k, v);
  }

  // ------------------------------------------------------------- the whole block read back

  lemma HeaderLengths()
    ensures |VqmOpening| == 20 && |VqmClosing| == 16 && |VqmuFields| == 16
  {
    ConstantNumbers();
  }

  /** The first half of the `VQM ` header as written passes its assertions. */
  lemma VqmOpeningAt(buf: seq<byte>, p: nat)
    requires At(buf, p, VqmOpening)
    ensures NeedBytes(buf, p, FF(8)) == Ok(p + 8)
    ensures NeedTag(buf, p + 8, "VQM ") == Ok(p + 12)
    ensures NeedUint(buf, p + 12, 4, 0) == Ok(p + 16)
    ensures NeedUint(buf, p + 16, 4, 1) == Ok(p + 20)
  {
    ConstantNumbers();
    TagVqmDecodes();
    AtCat(buf, p, FF(8) + TagVqm + Zero32, One32);
    AtCat(buf, p, FF(8) + TagVqm, Zero32);
    AtCat(buf, p, FF(8), TagVqm);
    NeedBytesAt(buf, p, FF(8));
    NeedTagAt(buf, p + 8, TagVqm, "VQM ");
    NeedUintAt(buf, p + 12, Zero32, 0);
    NeedUintAt(buf, p + 16, One32, 1);
  }

  /** The second half of the `VQM ` header as written passes its assertions. */
  lemma VqmClosingAt(buf: seq<byte>, q: nat)
    requires At(buf, q, VqmClosing)
    ensures NeedUint(buf, q, 4, 0) == Ok(q + 4)
    ensures NeedUint(buf, q + 4, 4, 1) == Ok(q + 8)
    ensures NeedBytes(buf, q + 8, FF(8)) == Ok(q + 16)
  {
    ConstantNumbers();
    AtCat(buf, q, Zero32 + One32, FF(8));
    AtCat(buf, q, Zero32, One32);
    NeedUintAt(buf, q, Zero32, 0);
    NeedUintAt(buf, q + 4, One32, 1);
    NeedBytesAt(buf, q + 8, FF(8));
  }

  /** The `VQM ` header as written passes every assertion of `read_vqm`. */
  lemma ParseVqmTagAt(buf: seq<byte>, p: nat)
    requires At(buf, p, VqmOpening + VqmClosing)
    ensures ParseVqmTag(buf, p) == Ok(p + 36)
  {
    AtCat(buf, p, VqmOpening, VqmClosing);
    VqmOpeningAt(buf, p);
    VqmClosingAt(buf, p + 20);
  }

  /** The `VQMu` header as written reads back with the count it carries. */
  lemma ParseVqmuAt(buf: seq<byte>, p: nat, count: seq<byte>, n: nat)
    requires |count| == 4 && Le(count) == n && At(buf, p, VqmuFields + count)
    ensures ParseVqmuHeader(buf, p) == Ok((n, p + 20))
  {
    ConstantNumbers();
    TagVqmuDecodes();
    AtCat(buf, p, VqmuFields, count);
    AtCat(buf, p, TagVqmu + Zero32 + One32, Zero32);
    AtCat(buf, p, TagVqmu + Zero32, One32);
    AtCat(buf, p, TagVqmu, Zero32);
    NeedTagAt(buf, p, TagVqmu, "VQMu");
    NeedUintAt(buf, p + 4, Zero32, 0);
    NeedUintAt(buf, p + 8, One32, 1);
    NeedUintAt(buf, p + 12, Zero32, 0);
    assert Span(buf, p + 16, 4) == count;
  }

  /** Both headers and the two copies of the count read back: `n` samples follow, from `p + 60` on. */
  lemma ParseVqmCountsAt(buf: seq<byte>, p: nat, count: seq<byte>, n: nat)
    requires |count| == 4 && Le(count) == n && At(buf, p, VqmHeader(count))
    ensures ParseVqmCounts(buf, p) == Ok((n, p + 60))
  {
    HeaderLengths();
    var t := VqmOpening + VqmClosing;
    var u := VqmuFields + count;
    assert |t| == 36 && |u| == 20;
    AtCat(buf, p, t + u, count);
    AtCat(buf, p, t, u);
    ParseVqmTagAt(buf, p);
    ParseVqmuAt(buf, p + 36, count, n);
    assert ParseVqmHeader(buf, p) == Ok((n, p + 56));
    NeedUintAt(buf, p + 56, count, n);
  }

  /** The fields of encodable samples fit them, one by one. */
  lemma {:induction false} FieldsListFit(ms: seq<VqmMeta>)
    requires forall i :: 0 <= i < |ms| ==> Encodable(ms[i])
    ensures AllFit(FieldsList(ms), ms)
  {
    if |ms| > 0 {
      FieldsForFit(ms[0]);
      assert FieldsList(ms)[1..] == FieldsList(ms[1..]);
      FieldsListFit(ms[1..]);
    }
  }

  /** The closing strings `GROWL` and `vqm` as `str_to_data` writes them. */
  const VqmTrailer: seq<byte> := [5, 0, 0, 0, 0x47, 0x52, 0x4F, 0x57, 0x4C, 3, 0, 0, 0, 0x76, 0x71, 0x6D]

  lemma GrowlData()
    ensures DdiUtils.StrToData("GROWL") == Ok([5, 0, 0, 0, 0x47, 0x52, 0x4F, 0x57, 0x4C])
  {
    var b := Utf8.Encode("GROWL");
    assert b == [0x47, 0x52, 0x4F, 0x57, 0x4C];
    Le4(5, 0, 0, 0);
    LeBytesOfLe([5, 0, 0, 0]);
    assert ToLe(|b|, 4) == Ok([5, 0, 0, 0]);
    assert [5, 0, 0, 0] + b == [5, 0, 0, 0, 0x47, 0x52, 0x4F, 0x57, 0x4C];
  }

  lemma VqmData()
    ensures DdiUtils.StrToData("vqm") == Ok([3, 0, 0, 0, 0x76, 0x71, 0x6D])
  {
    var b := Utf8.Encode("vqm");
    assert b == [0x76, 0x71, 0x6D];
    Le4(3, 0, 0, 0);
    LeBytesOfLe([3, 0, 0, 0]);
    assert ToLe(|b|, 4) == Ok([3, 0, 0, 0]);
    assert [3, 0, 0, 0] + b == [3, 0, 0, 0, 0x76, 0x71, 0x6D];
  }

  lemma TrailerData()
    ensures DdiUtils.StrToData("GROWL").Ok? && DdiUtils.StrToData("vqm").Ok?
    ensures DdiUtils.StrToData("GROWL").value + DdiUtils.StrToData("vqm").value == VqmTrailer
  {
    GrowlData();
    VqmData();
  }

  /** The closing strings as written pass the trailer assertions of `read_vqm`. */
  lemma TrailerAt(buf: seq<byte>, q: nat)
    requires At(buf, q, VqmTrailer)
    ensures ExpectPair(buf, q, "GROWL", "vqm") == Ok(q + 16)
  {
    TrailerData();
    var g, v := DdiUtils.StrToData("GROWL").value, DdiUtils.StrToData("vqm").value;
    AtCat(buf, q, g, v);
    ReadStrAt(buf, q, "GROWL", g, q + |g|);
    ReadStrAt(buf, q + |g|, "vqm", v, q + 16);
  }

  /** The block `_create_vqm_stream` writes: both headers, the records, the trailer. */
  lemma StreamLayout(ms: seq<VqmMeta>, s: seq<byte>)
    requires VqmStreamBytes(ms) == Ok(s)
    ensures ToLe(|ms|, 4).Ok? && VqmpRecords(ms).Ok?
    ensures s == VqmHeader(ToLe(|ms|, 4).value) + VqmpRecords(ms).value + VqmTrailer
  {
    TrailerData();
    var g, v := DdiUtils.StrToData("GROWL").value, DdiUtils.StrToData("vqm").value;
    var h, body := VqmHeader(ToLe(|ms|, 4).value), VqmpRecords(ms).value;
    assert s == h + body + g + v;
    Assoc(h + body, g, v);
  }

  /** The headers at the front of the block read back: `n` samples follow, from `q` on. */
  lemma LayoutHeader(buf: seq<byte>, p: nat, count: seq<byte>, n: nat, body: seq<byte>, q: nat)
    requires |count| == 4 && Le(count) == n && At(buf, p, VqmHeader(count) + body + VqmTrailer)
    requires q == p + 60
    ensures ParseVqmCounts(buf, p) == Ok((n, q))
  {
    AtCat(buf, p, VqmHeader(count) + body, VqmTrailer);
    AtCat(buf, p, VqmHeader(count), body);
    ParseVqmCountsAt(buf, p, count, n);
  }

  /** The records in the middle of the block, from `q` to `r`, read back. */
  lemma LayoutRecords(buf: seq<byte>, p: nat, count: seq<byte>, fs: seq<Fields>, ms: seq<VqmMeta>, body: seq<byte>,
                      q: nat, r: nat)
    requires |count| == 4 && AllFit(fs, ms) && body == RecordsOf(fs, ms)
    requires At(buf, p, VqmHeader(count) + body + VqmTrailer)
    requires q == p + 60 && r == q + |body|
    ensures ParseVqmps(buf, q, |ms|, []).Ok?
    ensures ParseVqmps(buf, q, |ms|, []).value.0 == PutAll([], IdxOf(fs, ms), VqmpsOf(fs, ms, q))
    ensures ParseVqmps(buf, q, |ms|, []).value.1 == r
  {
    HeaderLengths();
    AtCat(buf, p, VqmHeader(count) + body, VqmTrailer);
    AtCat(buf, p, VqmHeader(count), body);
    ParseRecordsAt(buf, q, fs, ms, [], body);
  }

  /** The trailer at the end of the block, from `r` to `e`, reads back. */
  lemma LayoutTrailer(buf: seq<byte>, p: nat, count: seq<byte>, body: seq<byte>, r: nat, e: nat)
    requires |count| == 4 && At(buf, p, VqmHeader(count) + body + VqmTrailer)
    requires r == p + 60 + |body| && e == r + 16
    ensures ExpectPair(buf, r, "GROWL", "vqm") == Ok(e)
  {
    HeaderLengths();
    var front := VqmHeader(count) + body;
    assert |front| == 60 + |body|;
    AtCat(buf, p, front, VqmTrailer);
    TrailerAt(buf, r);
  }

  /**
   * `read_vqm` over both headers, the records of `ms` and the trailer, laid
   * out from `p` on: the records start at `q` and the trailer at `r`, and the
   * read ends at `e`.
   */
  lemma ParseVqmLayout(buf: seq<byte>, p: nat, count: seq<byte>, fs: seq<Fields>, ms: seq<VqmMeta>, body: seq<byte>,
                       q: nat, r: nat, e: nat)
    requires |count| == 4 && Le(count) == |ms| && AllFit(fs, ms) && body == RecordsOf(fs, ms)
    requires At(buf, p, VqmHeader(count) + body + VqmTrailer)
    requires q == p + 60 && r == q + |body| && e == r + 16
    ensures ParseVqm(buf, p) == Ok((PutAll([], IdxOf(fs, ms), VqmpsOf(fs, ms, q)), e))
  {
    LayoutHeader(buf, p, count, |ms|, body, q);
    LayoutRecords(buf, p, count, fs, ms, body, q, r);
    LayoutTrailer(buf, p, count, body, r, e);
    ParseVqmSteps(buf, p, |ms|, q, PutAll([], IdxOf(fs, ms), VqmpsOf(fs, ms, q)), r, e);
  }

  /** `read_vqm` is its three reads one after the other. */
  lemma ParseVqmSteps(buf: seq<byte>, p: nat, n: nat, q: nat, acc: seq<(int, Vqmp)>, r: nat, e: nat)
    requires ParseVqmCounts(buf, p) == Ok((n, q))
    requires ParseVqmps(buf, q, n, []).Ok? && ParseVqmps(buf, q, n, []).value.0 == acc
    requires ParseVqmps(buf, q, n, []).value.1 == r
    requires ExpectPair(buf, r, "GROWL", "vqm") == Ok(e)
    ensures ParseVqm(buf, p) == Ok((acc, e))
  {
  }

  /**
   * `read_vqm` over the block `_create_vqm_stream` writes, wherever the block
   * sits in the index: the headers and both counts pass, every sample comes
   * back under its index in list order, the trailer passes, and the read ends
   * exactly at the end of the block.
   */
  lemma {:induction false} ParseVqmOfStream(buf: seq<byte>, p: nat, ms: seq<VqmMeta>, s: seq<byte>)
    requires forall i :: 0 <= i < |ms| ==> Encodable(ms[i])
    requires VqmStreamBytes(ms) == Ok(s) && At(buf, p, s)
    ensures AllFit(FieldsList(ms), ms)
    ensures ParseVqm(buf, p).Ok? && ParseVqm(buf, p).value.1 == p + |s|
    ensures ParseVqm(buf, p).value.0 == PutAll([], IdxOf(FieldsList(ms), ms), VqmpsOf(FieldsList(ms), ms, p + 60))
  {
    StreamLayout(ms, s);
    FieldsListFit(ms);
    RecordsOfList(ms);
    var body := VqmpRecords(ms).value;
    ParseVqmLayout(buf, p, ToLe(|ms|, 4).value, FieldsList(ms), ms, body, p + 60, p + 60 + |body|, p + |s|);
  }
}
