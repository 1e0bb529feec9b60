/**
 * The layout of the STA, ART, VQM and DBV blocks of a `.ddi` voicebank index,
 * as `DDIModel.read_sta`, `read_art`, `read_art_block`, `read_vqm` and
 * `read_dbv` decode them, stated as pure functions of the index bytes and a
 * cursor position. Each returns what the decoder builds and where its cursor
 * stops, or the exception it raises. The class `DDIModel` (module DdiModel)
 * performs the same reads on a stream, loop by loop, and is proved to agree.
 *
 * Every `for i in range(n)` loop of the decoder is a function over the number
 * of iterations left (one fewer each turn, `Prev`) and what has been built so
 * far; dictionaries are item sequences in insertion order (module Dict).
 */
module DdiFormat {
  import opened Wrappers
  import opened Bytes
  import opened Streams
  import opened Text
  import opened Hex
  import opened Refs
  import opened Dict
  import Utf8
  import DdiUtils

  /** A 32-bit float field, kept as the four bytes `struct.unpack('<f', ...)` reads. */
  type F32 = s: seq<byte> | |s| == 4 witness [0, 0, 0, 0]

  /** The five float fields every STAp, ARTp and VQMp record carries, in file order. */
  datatype Floats = Floats(pitch1: F32, pitch2: F32, unknown2: F32, dynamics: F32, unknown3: F32)

  /** A stationary sample (`STAp`). */
  datatype Stap = Stap(unknown1: string, floats: Floats, sndLength: nat, epr: seq<Ref>,
                       fs: nat, snd: SndRef, unknown4: string)

  /** A stationary unit (`STAu`): its phoneme and its samples by string index. */
  datatype Stau = Stau(phoneme: string, staps: seq<(string, Stap)>)

  /** An articulation sample (`ARTp`); `snd` and `sndStart` carry offsets already reduced by 0x12. */
  datatype Artp = Artp(devArtp: nat, unknown1: string, floats: Floats, sndUnknown: nat,
                       epr: seq<Ref>, fs: nat, snd: SndRef, sndStart: SndRef, align: seq<byte>)

  /** An articulation unit (`ARTu`). */
  datatype Artu = Artu(phoneme: string, artps: seq<(nat, Artp)>)

  /**
   * An articulation block (`ART `): its phoneme, its units and its nested
   * blocks. The decoder deletes the `artu` or `art` key when that map is empty;
   * here an empty sequence stands for the missing key.
   */
  datatype Art = Art(phoneme: string, artus: seq<(nat, Artu)>, arts: seq<(nat, Art)>)

  /** A growl sample (`VQMp`). */
  datatype Vqmp = Vqmp(unknown1: string, floats: Floats, epr: seq<Ref>, fs: nat, snd: SndRef)

  /** An epr list with the `fs` field that follows it. */
  datatype EprBlock = EprBlock(epr: seq<Ref>, fs: nat)

  /**
   * The iterations left after one more turn of a loop. The stream methods
   * count down with this same function, so that a loop's state and its
   * description are matched term for term rather than by arithmetic.
   */
  function Prev(n: nat): nat
    requires n > 0
  {
    n - 1
  }

  function FF(n: nat): (r: seq<byte>)
    ensures |r| == n && forall i :: 0 <= i < n ==> r[i] == 0xFF
  {
    seq(n, _ => 0xFF)
  }

  /** `read(n)` whose result is thrown away. */
  function Skip(buf: seq<byte>, pos: nat, n: nat): (p: nat)
    ensures pos <= p <= pos + n
    ensures pos <= |buf| ==> p <= |buf|
    ensures pos + n <= |buf| ==> p == pos + n
  {
    Take(buf, pos, n).1
  }

  /** `assert int.from_bytes(read(n), 'little') == v`. */
  function NeedUint(buf: seq<byte>, pos: nat, n: nat, v: nat): (r: Result<nat>)
    ensures r.Ok? <==> Le(Span(buf, pos, n)) == v
    ensures r.Ok? ==> r.value == pos + |Span(buf, pos, n)|
    ensures r.Ok? && v != 0 ==> pos < r.value
    ensures pos <= |buf| && r.Ok? ==> r.value <= |buf|
  {
    var (x, p) := TakeUint(buf, pos, n);
    if x == v then Ok(p) else Err(Assertion("field value"))
  }

  /** `assert read(4).decode() == tag`. */
  function NeedTag(buf: seq<byte>, pos: nat, tag: string): (r: Result<nat>)
    requires |tag| == 4
    ensures r.Ok? ==> r.value == pos + 4 && pos + 4 <= |buf|
    ensures r.Ok? ==> ExpectTag(buf[pos..pos + 4], tag).Pass?
  {
    var (b, p) := Take(buf, pos, 4);
    :- ExpectTag(b, tag);
    Ok(p)
  }

  /** `assert read(len(b)) == b`. */
  function NeedBytes(buf: seq<byte>, pos: nat, b: seq<byte>): (r: Result<nat>)
    requires |b| > 0
    ensures r.Ok? <==> pos + |b| <= |buf| && buf[pos..pos + |b|] == b
    ensures r.Ok? ==> r.value == pos + |b|
  {
    var (x, p) := Take(buf, pos, |b|);
    if x == b then Ok(p) else Err(Assertion("field bytes"))
  }

  /** `struct.unpack('<f', read(4))`, which raises `struct.error` on a short read. */
  function TakeF32(buf: seq<byte>, pos: nat): (r: Result<(F32, nat)>)
    ensures r.Ok? <==> pos + 4 <= |buf|
    ensures r.Ok? ==> r.value == (buf[pos..pos + 4], pos + 4)
  {
    var (b, p) := Take(buf, pos, 4);
    if |b| == 4 then Ok((b, p)) else Err(Raised("struct.error"))
  }

  /** The five float fields, read one after another. */
  function TakeFloats(buf: seq<byte>, pos: nat): (r: Result<(Floats, nat)>)
    ensures r.Ok? <==> pos + 20 <= |buf|
    ensures r.Ok? ==> r.value.1 == pos + 20
  {
    var a :- TakeF32(buf, pos);
    var b :- TakeF32(buf, a.1);
    var c :- TakeF32(buf, b.1);
    var d :- TakeF32(buf, c.1);
    var e :- TakeF32(buf, d.1);
    Ok((Floats(a.0, b.0, c.0, d.0, e.0), e.1))
  }

  /** `bytes_to_str(read(n))`. */
  function TakeDump(buf: seq<byte>, pos: nat, n: nat): (r: (string, nat))
    ensures r.1 == Skip(buf, pos, n)
  {
    var (b, p) := Take(buf, pos, n);
    (BytesToStr(b, true), p)
  }

  /**
   * `count` 8-byte offset fields read one after another: each entry is the
   * position the field was read at and the value read there.
   */
  function EprsFrom(buf: seq<byte>, pos: nat, count: nat): (r: (seq<Ref>, nat))
    ensures |r.0| == count && pos <= r.1
    ensures pos <= |buf| ==> r.1 <= |buf|
    ensures forall i :: 0 <= i < count ==> r.0[i].value == Le(Span(buf, r.0[i].pos, 8))
    ensures r.1 < |buf| ==> pos + 8 * count <= |buf|
    ensures pos + 8 * count <= |buf| ==> r.1 == pos + 8 * count
    ensures pos + 8 * count <= |buf| ==> forall i :: 0 <= i < count ==> r.0[i].pos == pos + 8 * i
    decreases count
  {
    if count == 0 then ([], pos)
    else
      var (v, p) := TakeUint(buf, pos, 8);
      var (rest, q) := EprsFrom(buf, p, count - 1);
      ([Ref(pos, v)] + rest, q)
  }

  /**
   * The epr list of a sample: a 4-byte count, the offset fields, the 4-byte
   * `fs` and the two bytes `01 00`. Gives the entries, `fs` and the position
   * after the block; only assertions can fail here.
   */
  function ParseEprBlock(buf: seq<byte>, pos: nat): (r: Result<(EprBlock, nat)>)
    ensures r.Err? ==> r.error.Assertion?
    ensures r.Ok? ==> pos + 10 + 8 * |r.value.0.epr| == r.value.1 <= |buf|
  {
    var (count, p) := TakeUint(buf, pos, 4);
    var (eprs, q) := EprsFrom(buf, p, count);
    var (fs, t) := TakeUint(buf, q, 4);
    var u :- NeedBytes(buf, t, [1, 0]);
    EprsFull(buf, pos, p, count, eprs, q, t);
    Ok((EprBlock(eprs, fs), u))
  }

  /**
   * The layout of an epr block that was read: the count, every entry with the
   * position of its field and the value there, `fs` and the closing `01 00`.
   */
  lemma EprBlockLayout(buf: seq<byte>, pos: nat)
    requires ParseEprBlock(buf, pos).Ok?
    ensures var (b, e) := ParseEprBlock(buf, pos).value;
      && pos + 10 + 8 * |b.epr| == e <= |buf|
      && Le(buf[pos..pos + 4]) == |b.epr|
      && (forall i :: 0 <= i < |b.epr| ==> b.epr[i] == Ref(pos + 4 + 8 * i, Le(buf[pos + 4 + 8 * i..pos + 12 + 8 * i])))
      && b.fs == Le(buf[e - 6..e - 2])
      && buf[e - 2..e] == [1, 0]
  {
    var (count, p) := TakeUint(buf, pos, 4);
    var (eprs, q) := EprsFrom(buf, p, count);
    var (fs, t) := TakeUint(buf, q, 4);
    EprsFull(buf, pos, p, count, eprs, q, t);
    assert ParseEprBlock(buf, pos).value == (EprBlock(eprs, fs), t + 2);
    assert Span(buf, pos, 4) == buf[pos..pos + 4];
    assert Span(buf, q, 4) == buf[t + 2 - 6..t + 2 - 2];
  }

  lemma MulLe(a: nat, b: nat)
    requires a <= b
    ensures 8 * a <= 8 * b
  {
  }

  /** When the two bytes after an epr list are there, every read before them was complete. */
  lemma EprsFull(buf: seq<byte>, pos: nat, p: nat, count: nat, eprs: seq<Ref>, q: nat, t: nat)
    requires (count, p) == TakeUint(buf, pos, 4)
    requires (eprs, q) == EprsFrom(buf, p, count)
    requires t == TakeUint(buf, q, 4).1 && t + 2 <= |buf|
    ensures pos + 4 == p && p + 8 * count == q && q + 4 == t
    ensures forall i :: 0 <= i < count ==> eprs[i] == Ref(pos + 4 + 8 * i, Le(buf[pos + 4 + 8 * i..pos + 12 + 8 * i]))
  {
    assert q <= t < |buf|;
    assert p + 8 * count <= |buf|;
    forall i | 0 <= i < count
      ensures eprs[i] == Ref(pos + 4 + 8 * i, Le(buf[pos + 4 + 8 * i..pos + 12 + 8 * i]))
    {
      var a := p + 8 * i;
      assert eprs[i].pos == a && a == pos + 4 + 8 * i;
      assert a + 8 <= p + 8 * count by { MulLe(i + 1, count); }
      assert Span(buf, a, 8) == buf[a..a + 8];
    }
  }

  /** The code-point order `sorted` gives string keys is a strict total order. */
  lemma StringLessIsStrictTotal()
    ensures StrictTotalOrder(LexLess)
  {
    forall a ensures !LexLess(a, a) {
      LexLessIrreflexive(a);
    }
    forall a, b, c | LexLess(a, b) && LexLess(b, c)
      ensures LexLess(a, c)
    {
      LexLessTransitive(a, b, c);
    }
    forall a, b | a != b
      ensures LexLess(a, b) || LexLess(b, a)
    {
      LexLessTotal(a, b);
    }
  }

  // ---------------------------------------------------------------- STA block

  /** What a `STAp` record holds before its epr list. */
  datatype StapHead = StapHead(unknown1: string, floats: Floats, sndLength: nat)

  /** A `STAp` record from its leading zero field up to and including the 4 ignored bytes before the epr count. */
  function ParseStapHead(buf: seq<byte>, pos: nat): (r: Result<(StapHead, nat)>)
    ensures r.Ok? ==> pos < r.value.1 && (pos <= |buf| ==> r.value.1 <= |buf|)
  {
    var p :- NeedUint(buf, pos, 8, 0);
    var p :- NeedTag(buf, p, "STAp");
    var p := Skip(buf, p, 4);
    var p :- NeedUint(buf, p, 4, 0);
    var p :- NeedUint(buf, p, 4, 1);
    var (unknown1, p) := TakeDump(buf, p, 0x0a);
    var f :- TakeFloats(buf, p);
    var p :- NeedUint(buf, f.1, 4, 0);
    var p :- NeedUint(buf, p, 4, 2);
    var p :- NeedUint(buf, p, 8, 0x3D);
    var p :- NeedTag(buf, p, "EMPT");
    var p := Skip(buf, p, 4);
    var p :- ExpectStr(buf, p, "SND");
    var (sndLength, p) := TakeUint(buf, p, 4);
    var p :- NeedUint(buf, p, 4, 0);
    var p :- NeedTag(buf, p, "EMPT");
    var p := Skip(buf, p, 4);
    var p :- ExpectStr(buf, p, "EpR");
    var p := Skip(buf, p, 4);
    Ok((StapHead(unknown1, f.0, sndLength), p))
  }

  /** What a sample record holds after its epr list: the sound reference, the 16-byte dump and the index. */
  datatype StapTail = StapTail(snd: SndRef, unknown4: string, idx: string)

  function ParseStapTail(buf: seq<byte>, pos: nat): (r: Result<(StapTail, nat)>)
    ensures r.Ok? ==> pos <= r.value.1 && (pos <= |buf| ==> r.value.1 <= |buf|)
  {
    var (id, p) := TakeUint(buf, pos, 4);
    var (offset, q) := TakeUint(buf, p, 8);
    var (unknown4, q) := TakeDump(buf, q, 0x10);
    var t :- ReadStr(buf, q);
    Ok((StapTail(SndRef(p, offset, id), unknown4, t.0), t.1))
  }

  /** One `STAp` record: its string index and the sample. */
  function ParseStap(buf: seq<byte>, pos: nat): (r: Result<((string, Stap), nat)>)
    ensures r.Ok? ==> pos < r.value.1 && (pos <= |buf| ==> r.value.1 <= |buf|)
  {
    var h :- ParseStapHead(buf, pos);
    var e :- ParseEprBlock(buf, h.1);
    var t :- ParseStapTail(buf, e.1);
    var (head, eprs, tail) := (h.0, e.0, t.0);
    Ok(((tail.idx, Stap(head.unknown1, head.floats, head.sndLength, eprs.epr, eprs.fs, tail.snd, tail.unknown4)), t.1))
  }

  /**
   * The `STAp` loop of one `STAu`: `count` more records after the samples
   * `acc` already read. A repeated index fails the decoder's assertion, so
   * every sample read is kept, in file order, under a distinct index.
   */
  function ParseStaps(buf: seq<byte>, pos: nat, count: nat, acc: seq<(string, Stap)>): (r: Result<(seq<(string, Stap)>, nat)>)
    requires KeysDistinct(acc)
    ensures r.Ok? ==> KeysDistinct(r.value.0)
    ensures r.Ok? ==> |r.value.0| == |acc| + count
    ensures r.Ok? ==> forall i :: 0 <= i < |acc| ==> r.value.0[i] == acc[i]
    ensures r.Ok? ==> pos <= r.value.1 && (pos <= |buf| ==> r.value.1 <= |buf|)
    decreases count
  {
    if count == 0 then Ok((acc, pos))
    else
      var s :- ParseStap(buf, pos);
      var (idx, stap) := s.0;
      :- Need(!HasKey(acc, idx), Assertion("stap index not in keys"));
      PutOrder(acc, idx, stap);
      PutDistinct(acc, idx, stap);
      assert Put(acc, idx, stap) == acc + [(idx, stap)];
      ParseStaps(buf, s.1, Prev(count), acc + [(idx, stap)])
  }

  /** Every sample map of a stationary map is in ascending index order. */
  predicate StapsSorted(sta: seq<(nat, Stau)>) {
    forall i :: 0 <= i < |sta| ==> SortedBy(sta[i].1.staps, LexLess)
  }

  /** A `STAu` record up to its sample count: the unit index and the count. */
  function ParseStauHead(buf: seq<byte>, pos: nat): (r: Result<((nat, nat), nat)>)
    ensures r.Ok? ==> pos <= r.value.1 && (pos <= |buf| ==> r.value.1 <= |buf|)
  {
    var p :- NeedUint(buf, pos, 8, 0);
    var p :- NeedTag(buf, p, "STAu");
    var p := Skip(buf, p, 4);
    var p :- NeedUint(buf, p, 4, 1);
    var p :- NeedUint(buf, p, 4, 0);
    var (idx, p) := TakeUint(buf, p, 4);
    var p :- NeedBytes(buf, p, FF(8));
    var (count, p) := TakeUint(buf, p, 4);
    Ok(((idx, count), p))
  }

  /** One `STAu` record: its index and the unit, whose samples are re-ordered by index. */
  function ParseStau(buf: seq<byte>, pos: nat): (r: Result<((nat, Stau), nat)>)
    ensures r.Ok? ==> SortedBy(r.value.0.1.staps, LexLess)
    ensures r.Ok? ==> pos <= r.value.1 && (pos <= |buf| ==> r.value.1 <= |buf|)
  {
    var h :- ParseStauHead(buf, pos);
    var s :- ParseStaps(buf, h.1, h.0.1, []);
    StringLessIsStrictTotal();
    var t :- ReadStr(buf, s.1);
    Ok(((h.0.0, Stau(t.0, SortByKey(s.0, LexLess))), t.1))
  }

  /** Assigning a unit whose samples are sorted keeps the unit keys distinct and every sample map sorted. */
  lemma PutStau(acc: seq<(nat, Stau)>, idx: nat, stau: Stau)
    requires KeysDistinct(acc) && StapsSorted(acc) && SortedBy(stau.staps, LexLess)
    ensures KeysDistinct(Put(acc, idx, stau)) && StapsSorted(Put(acc, idx, stau))
  {
    PutDistinct(acc, idx, stau);
    PutMembers(acc, idx, stau);
    var m := Put(acc, idx, stau);
    forall i | 0 <= i < |m|
      ensures SortedBy(m[i].1.staps, LexLess)
    {
      assert m[i] in m;
    }
  }

  /** The `STAu` loop: a repeated unit index replaces the earlier unit in place. */
  function ParseStaus(buf: seq<byte>, pos: nat, count: nat, acc: seq<(nat, Stau)>): (r: Result<(seq<(nat, Stau)>, nat)>)
    requires KeysDistinct(acc) && StapsSorted(acc)
    ensures r.Ok? ==> KeysDistinct(r.value.0) && StapsSorted(r.value.0)
    ensures r.Ok? ==> pos <= r.value.1 && (pos <= |buf| ==> r.value.1 <= |buf|)
    decreases count
  {
    if count == 0 then Ok((acc, pos))
    else
      var s :- ParseStau(buf, pos);
      PutStau(acc, s.0.0, s.0.1);
      ParseStaus(buf, s.1, Prev(count), Put(acc, s.0.0, s.0.1))
  }

  /** `assert read_str() == a` then `assert read_str() == b`: the closing strings of a block. */
  function ExpectPair(buf: seq<byte>, pos: nat, a: string, b: string): (r: Result<nat>)
    ensures r.Ok? ==> exists t :: ReadStr(buf, pos) == Ok((a, t)) && ReadStr(buf, t) == Ok((b, r.value))
    ensures r.Ok? ==> pos <= r.value && (pos <= |buf| ==> r.value <= |buf|)
  {
    var x :- ReadStr(buf, pos);
    :- Need(x.0 == a, Assertion(a));
    var y :- ReadStr(buf, x.1);
    :- Need(y.0 == b, Assertion(b));
    Ok(y.1)
  }

  lemma SortStausKeepsStapsSorted(m: seq<(nat, Stau)>)
    requires StrictTotalOrder(NatLess) && KeysDistinct(m) && StapsSorted(m)
    ensures StapsSorted(SortByKey(m, NatLess))
  {
    var sta := SortByKey(m, NatLess);
    forall i | 0 <= i < |sta|
      ensures SortedBy(sta[i].1.staps, LexLess)
    {
      var j := SortByKeySource(m, NatLess, i);
      assert SortedBy(m[j].1.staps, LexLess);
    }
  }

  /** The `STA ` header: the `ARR ` record announcing one block, the tag, and the unit count. */
  function ParseStaHeader(buf: seq<byte>, pos: nat): (r: Result<(nat, nat)>)
    ensures r.Ok? ==> pos <= r.value.1 && (pos <= |buf| ==> r.value.1 <= |buf|)
  {
    var p :- NeedUint(buf, pos, 8, 0);
    var arr :- DdiUtils.ReadArr(buf, p);
    :- Need(Le(arr.0) == 1, Assertion("ARR count"));
    var p :- NeedUint(buf, arr.1, 8, 0);
    var p :- NeedTag(buf, p, "STA ");
    var p := Skip(buf, p, 4);
    var p :- NeedUint(buf, p, 8, 1);
    var (count, p) := TakeUint(buf, p, 4);
    Ok((count, p))
  }

  /**
   * `read_sta`: the `ARR ` header announcing one block, the `STA ` header, the
   * units re-ordered by index, and the closing strings `normal` and `stationary`.
   */
  function ParseSta(buf: seq<byte>, pos: nat): (r: Result<(seq<(nat, Stau)>, nat)>)
    ensures r.Ok? ==> SortedBy(r.value.0, NatLess) && StapsSorted(r.value.0)
    ensures r.Ok? ==> pos <= r.value.1 && (pos <= |buf| ==> r.value.1 <= |buf|)
  {
    var h :- ParseStaHeader(buf, pos);
    var m :- ParseStaus(buf, h.1, h.0, []);
    NatLessIsStrictTotal();
    SortStausKeepsStapsSorted(m.0);
    var p :- ExpectPair(buf, m.1, "normal", "stationary");
    Ok((SortByKey(m.0, NatLess), p))
  }

  /** `read_sta` succeeds only once the closing strings `normal` and `stationary` have been read, and stops after them. */
  lemma {:induction false} StaEndsWithTrailer(buf: seq<byte>, pos: nat)
    requires ParseSta(buf, pos).Ok?
    ensures exists q :: ExpectPair(buf, q, "normal", "stationary") == Ok(ParseSta(buf, pos).value.1)
  {
    var h := ParseStaHeader(buf, pos).value;
    var m := ParseStaus(buf, h.1, h.0, []).value;
    assert ExpectPair(buf, m.1, "normal", "stationary") == Ok(ParseSta(buf, pos).value.1);
  }

  // ---------------------------------------------------------------- ART block

  /** What an `ARTp` record holds before its epr list. */
  datatype ArtpHead = ArtpHead(devArtp: nat, unknown1: string, floats: Floats, idx: nat, sndUnknown: nat)

  /** An `ARTp` record from its leading 8-byte field up to the `EpR` string. */
  function ParseArtpHead(buf: seq<byte>, pos: nat): (r: Result<(ArtpHead, nat)>)
    ensures r.Ok? ==> pos <= r.value.1 && (pos <= |buf| ==> r.value.1 <= |buf|)
  {
    var (dev, p) := TakeUint(buf, pos, 8);
    var p :- NeedTag(buf, p, "ARTp");
    var p := Skip(buf, p, 4);
    var p :- NeedUint(buf, p, 4, 0);
    var p :- NeedUint(buf, p, 4, 1);
    var (unknown1, p) := TakeDump(buf, p, 0x0a);
    var f :- TakeFloats(buf, p);
    var p :- NeedUint(buf, f.1, 4, 2);
    var (idx, p) := TakeUint(buf, p, 8);
    var p :- NeedTag(buf, p, "EMPT");
    var p := Skip(buf, p, 4);
    var p :- ExpectStr(buf, p, "SND");
    var (sndUnknown, p) := TakeUint(buf, p, 4);
    var p :- NeedUint(buf, p, 4, 0);
    var p :- NeedTag(buf, p, "EMPT");
    var p := Skip(buf, p, 4);
    var p :- ExpectStr(buf, p, "EpR");
    Ok((ArtpHead(dev, unknown1, f.0, idx, sndUnknown), p))
  }

  /**
   * The epr list of an `ARTp`: first read straight after the `EpR` string; when
   * that fails an assertion, read again from 4 bytes further on.
   */
  function ParseArtpEprs(buf: seq<byte>, loc: nat): (r: Result<(EprBlock, nat)>)
    ensures ParseEprBlock(buf, loc).Ok? ==> r == ParseEprBlock(buf, loc)
    ensures ParseEprBlock(buf, loc).Err? ==> r == ParseEprBlock(buf, Skip(buf, loc, 4))
    ensures r.Ok? ==> loc < r.value.1 <= |buf|
  {
    match ParseEprBlock(buf, loc)
    case Ok(e) => Ok(e)
    case Err(_) => ParseEprBlock(buf, Skip(buf, loc, 4))
  }

  /** What an `ARTp` record holds after its epr list. */
  datatype ArtpTail = ArtpTail(snd: SndRef, sndStart: SndRef, align: seq<byte>)

  /**
   * The sound identifier, the two sound offset fields (reported less 0x12), the
   * frame-align bytes, which run up to the length prefix of the next `default`
   * string within 1024 bytes, and that string.
   */
  function ParseArtpTail(buf: seq<byte>, pos: nat): (r: Result<(ArtpTail, nat)>)
    ensures r.Ok? ==> pos <= r.value.1 && (pos <= |buf| ==> r.value.1 <= |buf|)
  {
    var (id, p) := TakeUint(buf, pos, 4);
    var (offset, q) := TakeUint(buf, p, 8);
    var (offset2, t) := TakeUint(buf, q, 8);
    var alignLength := Find(PySlice(buf, t, t + 1024), Utf8.Encode("default")) - 4;
    var (align, u) := Take(buf, t, alignLength);
    var v :- ExpectStr(buf, u, "default");
    Ok((ArtpTail(SndRef(p, offset - 0x12, id), SndRef(q, offset2 - 0x12, id), align), v))
  }

  /** One `ARTp` record: its index and the sample. */
  function ParseArtp(buf: seq<byte>, pos: nat): (r: Result<((nat, Artp), nat)>)
    ensures r.Ok? ==> pos < r.value.1 && (pos <= |buf| ==> r.value.1 <= |buf|)
  {
    var h :- ParseArtpHead(buf, pos);
    var e :- ParseArtpEprs(buf, h.1);
    var t :- ParseArtpTail(buf, e.1);
    var (head, eprs, tail) := (h.0, e.0, t.0);
    Ok(((head.idx, Artp(head.devArtp, head.unknown1, head.floats, head.sndUnknown,
                        eprs.epr, eprs.fs, tail.snd, tail.sndStart, tail.align)), t.1))
  }

  /** The `ARTp` loop of one `ARTu`; a repeated index fails the decoder's assertion. */
  function ParseArtps(buf: seq<byte>, pos: nat, count: nat, acc: seq<(nat, Artp)>): (r: Result<(seq<(nat, Artp)>, nat)>)
    requires KeysDistinct(acc)
    ensures r.Ok? ==> KeysDistinct(r.value.0)
    ensures r.Ok? ==> |r.value.0| == |acc| + count
    ensures r.Ok? ==> forall i :: 0 <= i < |acc| ==> r.value.0[i] == acc[i]
    ensures r.Ok? ==> pos <= r.value.1 && (pos <= |buf| ==> r.value.1 <= |buf|)
    decreases count
  {
    if count == 0 then Ok((acc, pos))
    else
      var s :- ParseArtp(buf, pos);
      var (idx, artp) := s.0;
      :- Need(!HasKey(acc, idx), Assertion("artp index not in keys"));
      PutOrder(acc, idx, artp);
      PutDistinct(acc, idx, artp);
      assert Put(acc, idx, artp) == acc + [(idx, artp)];
      ParseArtps(buf, s.1, Prev(count), acc + [(idx, artp)])
  }

  /**
   * An `ARTu` record after its tag, up to its sample count: the unit index, a
   * flag field that must be 0 or 1, four bytes of 0xFF, and the count.
   */
  function ParseArtuHead(buf: seq<byte>, pos: nat): (r: Result<((nat, nat), nat)>)
    ensures r.Ok? ==> pos <= r.value.1 && (pos <= |buf| ==> r.value.1 <= |buf|)
  {
    var p := Skip(buf, pos, 4);
    var p :- NeedUint(buf, p, 4, 0);
    var p :- NeedUint(buf, p, 4, 0);
    var (idx, p) := TakeUint(buf, p, 4);
    var (flag, p) := TakeUint(buf, p, 8);
    :- Need(flag == 0 || flag == 1, Assertion("ARTu flag in [0, 1]"));
    var p := Skip(buf, p, 4);
    var p :- NeedBytes(buf, p, FF(4));
    var (count, p) := TakeUint(buf, p, 4);
    Ok(((idx, count), p))
  }

  /** An `ARTu` record after its tag: the unit, its samples re-ordered by index, and the phoneme. */
  function ParseArtu(buf: seq<byte>, pos: nat): (r: Result<((nat, Artu), nat)>)
    ensures r.Ok? ==> SortedBy(r.value.0.1.artps, NatLess)
    ensures r.Ok? ==> pos <= r.value.1 && (pos <= |buf| ==> r.value.1 <= |buf|)
  {
    var h :- ParseArtuHead(buf, pos);
    var s :- ParseArtps(buf, h.1, h.0.1, []);
    NatLessIsStrictTotal();
    var t :- ReadStr(buf, s.1);
    Ok(((h.0.0, Artu(t.0, SortByKey(s.0, NatLess))), t.1))
  }

  /** Every map of an articulation tree, at every depth, is in ascending key order. */
  predicate ArtSorted(a: Art) {
    && SortedBy(a.artus, NatLess)
    && SortedBy(a.arts, NatLess)
    && (forall i :: 0 <= i < |a.artus| ==> SortedBy(a.artus[i].1.artps, NatLess))
    && (forall i :: 0 <= i < |a.arts| ==> ArtSorted(a.arts[i].1))
  }

  predicate ArtusSorted(artus: seq<(nat, Artu)>) {
    forall i :: 0 <= i < |artus| ==> SortedBy(artus[i].1.artps, NatLess)
  }

  predicate ArtsSorted(arts: seq<(nat, Art)>) {
    forall i :: 0 <= i < |arts| ==> ArtSorted(arts[i].1)
  }

  lemma SortArtusKeepsSorted(artus: seq<(nat, Artu)>)
    requires StrictTotalOrder(NatLess) && KeysDistinct(artus) && ArtusSorted(artus)
    ensures ArtusSorted(SortByKey(artus, NatLess))
  {
    var r := SortByKey(artus, NatLess);
    forall i | 0 <= i < |r|
      ensures SortedBy(r[i].1.artps, NatLess)
    {
      var j := SortByKeySource(artus, NatLess, i);
      assert SortedBy(artus[j].1.artps, NatLess);
    }
  }

  lemma SortArtsKeepsSorted(arts: seq<(nat, Art)>)
    requires StrictTotalOrder(NatLess) && KeysDistinct(arts) && ArtsSorted(arts)
    ensures ArtsSorted(SortByKey(arts, NatLess))
  {
    var r := SortByKey(arts, NatLess);
    forall i | 0 <= i < |r|
      ensures ArtSorted(r[i].1)
    {
      var j := SortByKeySource(arts, NatLess, i);
      assert ArtSorted(arts[j].1);
    }
  }

  lemma PutArtu(artus: seq<(nat, Artu)>, idx: nat, artu: Artu)
    requires KeysDistinct(artus) && ArtusSorted(artus) && SortedBy(artu.artps, NatLess)
    ensures KeysDistinct(Put(artus, idx, artu)) && ArtusSorted(Put(artus, idx, artu))
  {
    PutDistinct(artus, idx, artu);
    PutMembers(artus, idx, artu);
    var m := Put(artus, idx, artu);
    forall i | 0 <= i < |m|
      ensures SortedBy(m[i].1.artps, NatLess)
    {
      assert m[i] in m;
    }
  }

  lemma PutArt(arts: seq<(nat, Art)>, idx: nat, art: Art)
    requires KeysDistinct(arts) && ArtsSorted(arts) && ArtSorted(art)
    ensures KeysDistinct(Put(arts, idx, art)) && ArtsSorted(Put(arts, idx, art))
  {
    PutDistinct(arts, idx, art);
    PutMembers(arts, idx, art);
    var m := Put(arts, idx, art);
    forall i | 0 <= i < |m|
      ensures ArtSorted(m[i].1)
    {
      assert m[i] in m;
    }
  }

  /** An `ART ` block after its tag, up to its entry count: the block index and the count. */
  function ParseArtBlockHead(buf: seq<byte>, pos: nat): (r: Result<((nat, nat), nat)>)
    ensures r.Ok? ==> pos < r.value.1 && (pos <= |buf| ==> r.value.1 <= |buf|)
  {
    var p := Skip(buf, pos, 4);
    var p :- NeedUint(buf, p, 4, 1);
    var p :- NeedUint(buf, p, 4, 0);
    var (idx, p) := TakeUint(buf, p, 4);
    var (count, p) := TakeUint(buf, p, 4);
    Ok(((idx, count), p))
  }

  /**
   * `read_art_block`, after the `ART ` tag: the block index, its entries (each
   * a unit or a nested block), the two maps re-ordered by index, and the phoneme.
   * The block always consumes bytes, which bounds the recursion.
   */
  function ParseArtBlock(buf: seq<byte>, pos: nat): (r: Result<((nat, Art), nat)>)
    requires pos <= |buf|
    ensures r.Ok? ==> pos < r.value.1 <= |buf|
    ensures r.Ok? ==> ArtSorted(r.value.0.1)
    decreases |buf| - pos, 2
  {
    var h :- ParseArtBlockHead(buf, pos);
    var e :- ParseArtEntries(buf, h.1, h.0.1, [], []);
    var ((artus, arts), p) := e;
    NatLessIsStrictTotal();
    SortArtusKeepsSorted(artus);
    SortArtsKeepsSorted(arts);
    var t :- ReadStr(buf, p);
    Ok(((h.0.0, Art(t.0, SortByKey(artus, NatLess), SortByKey(arts, NatLess))), t.1))
  }

  /** One entry of an `ART ` block: a unit or a nested block, each with its index. */
  datatype ArtEntry = UnitEntry(idx: nat, artu: Artu) | BlockEntry(idx: nat, art: Art)

  predicate EntrySorted(e: ArtEntry) {
    match e
    case UnitEntry(_, u) => SortedBy(u.artps, NatLess)
    case BlockEntry(_, a) => ArtSorted(a)
  }

  /**
   * One entry of `read_art_block`: a zero field and a tag, `ART ` for a nested
   * block, read by recursion, or `ARTu` for a unit.
   */
  function ParseArtEntry(buf: seq<byte>, pos: nat): (r: Result<(ArtEntry, nat)>)
    requires pos <= |buf|
    ensures r.Ok? ==> EntrySorted(r.value.0)
    ensures r.Ok? ==> pos <= r.value.1 <= |buf|
    decreases |buf| - pos, 0
  {
    var p :- NeedUint(buf, pos, 8, 0);
    var (tag, p) := Take(buf, p, 4);
    var kind :- Utf8.Decode(tag);
    if kind == "ART " then
      var b :- ParseArtBlock(buf, p);
      Ok((BlockEntry(b.0.0, b.0.1), b.1))
    else
      :- Need(kind == "ARTu", Assertion("ARTu"));
      var u :- ParseArtu(buf, p);
      Ok((UnitEntry(u.0.0, u.0.1), u.1))
  }

  /** Keeping an entry under its index, in the unit map or the block map. */
  function PutEntry(artus: seq<(nat, Artu)>, arts: seq<(nat, Art)>, e: ArtEntry): (r: (seq<(nat, Artu)>, seq<(nat, Art)>))
    requires KeysDistinct(artus) && KeysDistinct(arts) && ArtusSorted(artus) && ArtsSorted(arts)
    requires EntrySorted(e)
    ensures KeysDistinct(r.0) && KeysDistinct(r.1) && ArtusSorted(r.0) && ArtsSorted(r.1)
    ensures e.UnitEntry? ==> r == (Put(artus, e.idx, e.artu), arts)
    ensures e.BlockEntry? ==> r == (artus, Put(arts, e.idx, e.art))
  {
    match e
    case UnitEntry(idx, u) =>
      PutArtu(artus, idx, u);
      (Put(artus, idx, u), arts)
    case BlockEntry(idx, a) =>
      PutArt(arts, idx, a);
      (artus, Put(arts, idx, a))
  }

  /**
   * The entry loop of `read_art_block`: each entry is kept under its index in
   * the unit map or the block map, a repeated index replacing the earlier entry.
   */
  function ParseArtEntries(buf: seq<byte>, pos: nat, count: nat, artus: seq<(nat, Artu)>, arts: seq<(nat, Art)>)
    : (r: Result<((seq<(nat, Artu)>, seq<(nat, Art)>), nat)>)
    requires pos <= |buf|
    requires KeysDistinct(artus) && KeysDistinct(arts) && ArtusSorted(artus) && ArtsSorted(arts)
    ensures r.Ok? ==> KeysDistinct(r.value.0.0) && KeysDistinct(r.value.0.1)
    ensures r.Ok? ==> ArtusSorted(r.value.0.0) && ArtsSorted(r.value.0.1)
    ensures r.Ok? ==> pos <= r.value.1 <= |buf|
    decreases |buf| - pos, 1, count
  {
    if count == 0 then Ok(((artus, arts), pos))
    else
      var e :- ParseArtEntry(buf, pos);
      var (artus', arts') := PutEntry(artus, arts, e.0);
      ParseArtEntries(buf, e.1, Prev(count), artus', arts')
  }

  /**
   * The block loop of `read_art`: an 8-byte field of zeros or of 0xFF opens an
   * `ART ` block; anything else is the end, where the cursor goes back 8 bytes
   * from where that read stopped and the `articulation` string must follow.
   */
  function ParseArtLoop(buf: seq<byte>, pos: nat, acc: seq<(nat, Art)>): (r: Result<(seq<(nat, Art)>, nat)>)
    requires pos <= |buf|
    requires KeysDistinct(acc) && ArtsSorted(acc)
    ensures r.Ok? ==> KeysDistinct(r.value.0) && ArtsSorted(r.value.0)
    ensures r.Ok? ==> r.value.1 <= |buf|
    decreases |buf| - pos
  {
    var (start, p) := Take(buf, pos, 8);
    if start != Zeros(8) && start != FF(8) then
      :- Need(p >= 8, BadSeek);
      var q :- ExpectStr(buf, p - 8, "articulation");
      Ok((acc, q))
    else
      var p :- NeedTag(buf, p, "ART ");
      var b :- ParseArtBlock(buf, p);
      PutArt(acc, b.0.0, b.0.1);
      ParseArtLoop(buf, b.1, Put(acc, b.0.0, b.0.1))
  }

  /** The start of `read_art`: an ignored field and the `ARR ` record, whose count must not be zero. */
  function ParseArtHeader(buf: seq<byte>, pos: nat): (r: Result<nat>)
    ensures r.Ok? ==> r.value <= |buf|
  {
    var p := Skip(buf, pos, 8);
    var arr :- DdiUtils.ReadArr(buf, p);
    :- Need(Le(arr.0) != 0, Assertion("ARR count"));
    Ok(arr.1)
  }

  /** `read_art`: the header, then the blocks, re-ordered by index. */
  function ParseArt(buf: seq<byte>, pos: nat): (r: Result<(seq<(nat, Art)>, nat)>)
    ensures r.Ok? ==> SortedBy(r.value.0, NatLess) && ArtsSorted(r.value.0)
    ensures r.Ok? ==> r.value.1 <= |buf|
  {
    var p :- ParseArtHeader(buf, pos);
    var t :- ParseArtLoop(buf, p, []);
    NatLessIsStrictTotal();
    SortArtsKeepsSorted(t.0);
    Ok((SortByKey(t.0, NatLess), t.1))
  }

  // ---------------------------------------------------------------- VQM block

  /** A `VQMp` record up to its epr list: the 10-byte dump and the float fields. */
  function ParseVqmpHead(buf: seq<byte>, pos: nat): (r: Result<((string, Floats), nat)>)
    ensures r.Ok? ==> pos < r.value.1 && (pos <= |buf| ==> r.value.1 <= |buf|)
  {
    var p :- NeedBytes(buf, pos, FF(8));
    var p :- NeedTag(buf, p, "VQMp");
    var p :- NeedUint(buf, p, 4, 0);
    var p :- NeedUint(buf, p, 4, 0);
    var p :- NeedUint(buf, p, 4, 1);
    var (unknown1, p) := TakeDump(buf, p, 0x0a);
    var f :- TakeFloats(buf, p);
    var p :- NeedUint(buf, f.1, 4, 0);
    var p :- NeedBytes(buf, p, FF(4));
    Ok(((unknown1, f.0), p))
  }

  /** A `VQMp` record after its epr list: the sound reference, 16 bytes of 0xFF and the decimal index. */
  function ParseVqmpTail(buf: seq<byte>, pos: nat): (r: Result<((int, SndRef), nat)>)
    ensures r.Ok? ==> pos <= r.value.1 && (pos <= |buf| ==> r.value.1 <= |buf|)
  {
    var (id, p) := TakeUint(buf, pos, 4);
    var (offset, q) := TakeUint(buf, p, 8);
    var q :- NeedBytes(buf, q, FF(0x10));
    var t :- ReadStr(buf, q);
    var idx :- ParseInt(t.0);
    Ok(((idx, SndRef(p, offset, id)), t.1))
  }

  /** One `VQMp` record: its index and the sample. */
  function ParseVqmp(buf: seq<byte>, pos: nat): (r: Result<((int, Vqmp), nat)>)
    ensures r.Ok? ==> pos < r.value.1 && (pos <= |buf| ==> r.value.1 <= |buf|)
  {
    var h :- ParseVqmpHead(buf, pos);
    var e :- ParseEprBlock(buf, h.1);
    var t :- ParseVqmpTail(buf, e.1);
    Ok(((t.0.0, Vqmp(h.0.0, h.0.1, e.0.epr, e.0.fs, t.0.1)), t.1))
  }

  /** The `VQMp` loop: a repeated index replaces the earlier sample in place. */
  function ParseVqmps(buf: seq<byte>, pos: nat, count: nat, acc: seq<(int, Vqmp)>): (r: Result<(seq<(int, Vqmp)>, nat)>)
    requires KeysDistinct(acc)
    ensures r.Ok? ==> KeysDistinct(r.value.0)
    ensures r.Ok? ==> pos <= r.value.1 && (pos <= |buf| ==> r.value.1 <= |buf|)
    decreases count
  {
    if count == 0 then Ok((acc, pos))
    else
      var v :- ParseVqmp(buf, pos);
      PutDistinct(acc, v.0.0, v.0.1);
      ParseVqmps(buf, v.1, Prev(count), Put(acc, v.0.0, v.0.1))
  }

  /** The `VQM ` header: 0xFF bytes, the tag, four fixed fields and 0xFF bytes again. */
  function ParseVqmTag(buf: seq<byte>, pos: nat): (r: Result<nat>)
    ensures r.Ok? ==> pos + 36 == r.value <= |buf|
  {
    var p :- NeedBytes(buf, pos, FF(8));
    var p :- NeedTag(buf, p, "VQM ");
    var p :- NeedUint(buf, p, 4, 0);
    var p :- NeedUint(buf, p, 4, 1);
    var p :- NeedUint(buf, p, 4, 0);
    var p :- NeedUint(buf, p, 4, 1);
    NeedBytes(buf, p, FF(8))
  }

  /** The `VQMu` header: the tag and three fixed fields, then the first copy of the sample count. */
  function ParseVqmuHeader(buf: seq<byte>, pos: nat): (r: Result<(nat, nat)>)
    ensures r.Ok? ==> pos <= r.value.1 && (pos <= |buf| ==> r.value.1 <= |buf|)
    ensures pos + 20 <= |buf| && r.Ok? ==> r.value == (Le(buf[pos + 16..pos + 20]), pos + 20)
  {
    var p :- NeedTag(buf, pos, "VQMu");
    var p :- NeedUint(buf, p, 4, 0);
    var p :- NeedUint(buf, p, 4, 1);
    var p :- NeedUint(buf, p, 4, 0);
    Ok(TakeUint(buf, p, 4))
  }

  /** The two headers, up to and including the first copy of the sample count. */
  function ParseVqmHeader(buf: seq<byte>, pos: nat): (r: Result<(nat, nat)>)
    ensures r.Ok? ==> pos <= r.value.1 && (pos <= |buf| ==> r.value.1 <= |buf|)
    ensures pos + 56 <= |buf| && r.Ok? ==> r.value == (Le(buf[pos + 52..pos + 56]), pos + 56)
  {
    var p :- ParseVqmTag(buf, pos);
    ParseVqmuHeader(buf, p)
  }

  /** The headers and the second copy of the sample count, which must equal the first. */
  function ParseVqmCounts(buf: seq<byte>, pos: nat): (r: Result<(nat, nat)>)
    ensures r.Ok? ==> pos <= r.value.1 && (pos <= |buf| ==> r.value.1 <= |buf|)
  {
    var h :- ParseVqmHeader(buf, pos);
    var p :- NeedUint(buf, h.1, 4, h.0);
    Ok((h.0, p))
  }

  /**
   * `read_vqm`: the headers, the sample count written twice (the copies must
   * agree), the samples in file order, and the closing strings `GROWL` and `vqm`.
   */
  function ParseVqm(buf: seq<byte>, pos: nat): (r: Result<(seq<(int, Vqmp)>, nat)>)
    ensures r.Ok? ==> KeysDistinct(r.value.0)
    ensures r.Ok? ==> pos <= r.value.1 && (pos <= |buf| ==> r.value.1 <= |buf|)
  {
    var h :- ParseVqmCounts(buf, pos);
    var v :- ParseVqmps(buf, h.1, h.0, []);
    var q :- ExpectPair(buf, v.1, "GROWL", "vqm");
    Ok((v.0, q))
  }

  /** `read_vqm` succeeds only once the closing strings `GROWL` and `vqm` have been read, and stops after them. */
  lemma {:induction false} VqmEndsWithTrailer(buf: seq<byte>, pos: nat)
    requires ParseVqm(buf, pos).Ok?
    ensures exists q :: ExpectPair(buf, q, "GROWL", "vqm") == Ok(ParseVqm(buf, pos).value.1)
  {
    var h := ParseVqmCounts(buf, pos).value;
    var v := ParseVqmps(buf, h.1, h.0, []).value;
    assert ExpectPair(buf, v.1, "GROWL", "vqm") == Ok(ParseVqm(buf, pos).value.1);
  }

  /** The two copies of the sample count must agree: where they differ, `read_vqm` fails. */
  lemma VqmCountsMustAgree(buf: seq<byte>, pos: nat)
    requires pos + 60 <= |buf| && Le(buf[pos + 52..pos + 56]) != Le(buf[pos + 56..pos + 60])
    ensures ParseVqm(buf, pos).Err?
  {
  }

  // ---------------------------------------------------------------- DBV block

  /** `read_dbv`: a zero field, the `DBV ` tag, an ignored field, a field equal to 1 and an ignored count. */
  function ParseDbv(buf: seq<byte>, pos: nat): (r: Result<nat>)
    ensures r.Ok? ==> pos + 12 <= |buf| && Le(buf[pos..pos + 8]) == 0
    ensures r.Ok? ==> pos < r.value && (pos <= |buf| ==> r.value <= |buf|)
  {
    var p :- NeedUint(buf, pos, 8, 0);
    var p :- NeedTag(buf, p, "DBV ");
    var p := Skip(buf, p, 4);
    var p :- NeedUint(buf, p, 8, 1);
    Ok(Skip(buf, p, 4))
  }

  // ---------------------------------------------------------------- the whole index

  /** The marks `read` looks for: a zero field followed by a tag, or 0xFF bytes followed by `VQM `. */
  function ZeroMark(tag: string): seq<byte> { Zeros(8) + Utf8.Encode(tag) }

  function VqmMark(): seq<byte> { FF(8) + Utf8.Encode("VQM ") }

  /**
   * Where `read` seeks for a block the `ARR ` record announces: 8 bytes before
   * the last `ARR ` that comes before the first zero field followed by `tag`.
   */
  function ArrBlockStart(ddi: seq<byte>, tag: string): (r: int)
    ensures r >= 0 ==> DdiUtils.SliceMatches(ddi, Utf8.Encode("ARR "), r + 8)
  {
    DdiUtils.ReverseSearch(ddi, Utf8.Encode("ARR "), Find(ddi, ZeroMark(tag)), -1) - 8
  }

  /** The DBV block: found at the first zero field followed by `DBV `; a missing mark is a seek to -1. */
  function DbvPart(ddi: seq<byte>): (r: Result<(nat, nat)>)
    ensures Find(ddi, ZeroMark("DBV ")) == -1 ==> r == Err(BadSeek)
    ensures r.Ok? ==> r.value.0 == Find(ddi, ZeroMark("DBV ")) && MatchAt(ddi, ZeroMark("DBV "), r.value.0)
    ensures r.Ok? ==> r.value.0 < r.value.1 <= |ddi|
  {
    var at := Find(ddi, ZeroMark("DBV "));
    :- Need(at >= 0, BadSeek);
    var end :- ParseDbv(ddi, at);
    Ok((at, end))
  }

  /** The STA block, with the range it occupies. */
  function StaPart(ddi: seq<byte>): (r: Result<(seq<(nat, Stau)>, (nat, nat))>)
    ensures ArrBlockStart(ddi, "STA ") < 0 ==> r == Err(BadSeek)
    ensures r.Ok? ==> r.value.1.0 == ArrBlockStart(ddi, "STA ") && r.value.1.1 <= |ddi|
    ensures r.Ok? ==> DdiUtils.SliceMatches(ddi, Utf8.Encode("ARR "), r.value.1.0 + 8)
    ensures r.Ok? ==> SortedBy(r.value.0, NatLess) && StapsSorted(r.value.0)
  {
    var at := ArrBlockStart(ddi, "STA ");
    :- Need(at >= 0, BadSeek);
    var s :- ParseSta(ddi, at);
    Ok((s.0, (at, s.1)))
  }

  /** The ART block, with the range it occupies. */
  function ArtPart(ddi: seq<byte>): (r: Result<(seq<(nat, Art)>, (nat, nat))>)
    ensures ArrBlockStart(ddi, "ART ") < 0 ==> r == Err(BadSeek)
    ensures r.Ok? ==> r.value.1.0 == ArrBlockStart(ddi, "ART ") && r.value.1.1 <= |ddi|
    ensures r.Ok? ==> SortedBy(r.value.0, NatLess) && ArtsSorted(r.value.0)
  {
    var at := ArrBlockStart(ddi, "ART ");
    if at < 0 then Err(BadSeek)
    else
      var a := ParseArt(ddi, at);
      if a.Err? then Err(a.error) else Ok((a.value.0, (at, a.value.1)))
  }

  /** `StaPart` once the block start is known and the block has been read from it. */
  lemma StaPartFrom(ddi: seq<byte>, at: int, res: Result<seq<(nat, Stau)>>, end: nat)
    requires at == ArrBlockStart(ddi, "STA ") && at >= 0 && Agrees(res, ParseSta(ddi, at), end)
    ensures res.Err? ==> StaPart(ddi) == Err(res.error)
    ensures res.Ok? ==> StaPart(ddi) == Ok((res.value, (at, end)))
  {
  }

  /** `ArtPart` once the block start is known and the block has been read from it. */
  lemma ArtPartFrom(ddi: seq<byte>, at: int, res: Result<seq<(nat, Art)>>, end: nat)
    requires at == ArrBlockStart(ddi, "ART ") && at >= 0 && Agrees(res, ParseArt(ddi, at), end)
    ensures res.Err? ==> ArtPart(ddi) == Err(res.error)
    ensures res.Ok? ==> ArtPart(ddi) == Ok((res.value, (at, end)))
  {
  }

  /** The VQM block, which an index may lack: absent exactly when the mark occurs nowhere. */
  function VqmPart(ddi: seq<byte>): (r: Result<Option<(seq<(int, Vqmp)>, (nat, nat))>>)
    ensures r.Ok? ==> (r.value.None? <==> forall i :: !MatchAt(ddi, VqmMark(), i))
    ensures r.Ok? && r.value.Some? ==> MatchAt(ddi, VqmMark(), r.value.value.1.0) && r.value.value.1.0 <= r.value.value.1.1
    ensures r.Ok? && r.value.Some? ==> KeysDistinct(r.value.value.0)
  {
    var at := Find(ddi, VqmMark());
    if at == -1 then Ok(None)
    else
      var v :- ParseVqm(ddi, at);
      Ok(Some((v.0, (at, v.1))))
  }

  /** What `read` decodes from an index: the blocks and the byte range of each. */
  datatype Index = Index(dbv: (nat, nat), sta: seq<(nat, Stau)>, staRange: (nat, nat),
                         art: seq<(nat, Art)>, artRange: (nat, nat), vqm: Option<(seq<(int, Vqmp)>, (nat, nat))>)

  /**
   * `read` without the PHDC and TDB blocks: the DBV, STA, ART and VQM blocks,
   * each found by its mark and decoded where the mark says, or the first
   * exception on the way.
   */
  function DecodeIndex(ddi: seq<byte>): (r: Result<Index>)
    ensures r.Ok? ==> MatchAt(ddi, ZeroMark("DBV "), r.value.dbv.0)
    ensures r.Ok? ==> SortedBy(r.value.sta, NatLess) && SortedBy(r.value.art, NatLess)
    ensures r.Ok? ==> (r.value.vqm.None? <==> forall i :: !MatchAt(ddi, VqmMark(), i))
    ensures DbvPart(ddi).Err? ==> r == Err(DbvPart(ddi).error)
  {
    var dbv :- DbvPart(ddi);
    var sta :- StaPart(ddi);
    var art :- ArtPart(ddi);
    var vqm :- VqmPart(ddi);
    Ok(Index(dbv, sta.0, sta.1, art.0, art.1, vqm))
  }

  /** `offset_map[name] = [start, end]` for each block read, in the order `read` records them. */
  function RecordRanges(m: seq<(string, (nat, nat))>, x: Index): seq<(string, (nat, nat))> {
    var m := Put(Put(Put(m, "dbv", x.dbv), "sta", x.staRange), "art", x.artRange);
    if x.vqm.Some? then Put(m, "vqm", x.vqm.value.1) else m
  }
}
