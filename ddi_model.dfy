/**
 * `DDIModel`: the decoder object of utils/ddi_utils.py. It holds the index
 * bytes and a stream over them, and its `Read*` methods advance that stream
 * field by field, loop by loop, as the Python methods do. Each method is
 * proved to agree with the description of its block in module DdiFormat:
 * same result, cursor left at the same place, or the same exception.
 */
module DdiModel {
  import opened Wrappers
  import opened Bytes
  import opened Streams
  import opened Dict
  import opened Text
  import opened Refs
  import opened DdiFormat
  import opened DdiDict
  import Utf8
  import DdiUtils

  /** A read that yields no value agrees with a description that only moves the cursor. */
  predicate Reaches(r: Outcome, spec: Result<nat>, pos: nat) {
    match spec
    case Ok(p) => r == Pass && pos == p
    case Err(e) => r == Fail(e)
  }

  /** Where `read` seeks for the block `tag`: the mark, then the `ARR ` record searched backwards from it. */
  method FindArrBlock(ddi: seq<byte>, tag: string) returns (at: int)
    ensures at == ArrBlockStart(ddi, tag)
  {
    var found := Find(ddi, ZeroMark(tag));
    var arr := DdiUtils.ReverseSearchLoop(ddi, Utf8.Encode("ARR "), found, -1);
    at := arr - 8;
  }

  /** One turn of the epr loop: the entry read at `pos`, then the rest. */
  lemma EprsStep(buf: seq<byte>, pos: nat, n: nat, done: seq<Ref>)
    requires n > 0
    ensures var p := pos + |Span(buf, pos, 8)|;
            var e := Ref(pos, Le(Span(buf, pos, 8)));
            (done + EprsFrom(buf, pos, n).0, EprsFrom(buf, pos, n).1)
            == ((done + [e]) + EprsFrom(buf, p, n - 1).0, EprsFrom(buf, p, n - 1).1)
  {
    var p := pos + |Span(buf, pos, 8)|;
    var e := Ref(pos, Le(Span(buf, pos, 8)));
    var rest := EprsFrom(buf, p, n - 1);
    assert TakeUint(buf, pos, 8) == (e.value, p);
    assert EprsFrom(buf, pos, n) == ([e] + rest.0, rest.1);
    assert done + ([e] + rest.0) == (done + [e]) + rest.0;
  }

  /** `ParseEprBlock` read off its three parts: the count, the entries and `fs`, then the closing bytes. */
  lemma EprBlockParts(buf: seq<byte>, start: nat, count: nat, first: nat, eprs: seq<Ref>, q: nat, fs: nat, t: nat)
    requires TakeUint(buf, start, 4) == (count, first)
    requires EprsFrom(buf, first, count) == (eprs, q)
    requires TakeUint(buf, q, 4) == (fs, t)
    ensures ParseEprBlock(buf, start)
         == if Span(buf, t, 2) == [1, 0] then Ok((EprBlock(eprs, fs), t + 2)) else Err(Assertion("field bytes"))
  {
  }

  /** One turn of the `ARTp` loop. */
  lemma ArtpsStep(buf: seq<byte>, pos: nat, n: nat, acc: seq<(nat, Artp)>)
    requires n > 0 && KeysDistinct(acc)
    ensures ParseArtp(buf, pos).Err? ==> ParseArtps(buf, pos, n, acc) == Err(ParseArtp(buf, pos).error)
    ensures ParseArtp(buf, pos).Ok? && HasKey(acc, ParseArtp(buf, pos).value.0.0)
            ==> ParseArtps(buf, pos, n, acc) == Err(Assertion("artp index not in keys"))
    ensures ParseArtp(buf, pos).Ok? && !HasKey(acc, ParseArtp(buf, pos).value.0.0)
            ==> var s := ParseArtp(buf, pos).value;
                KeysDistinct(acc + [s.0]) && ParseArtps(buf, pos, n, acc) == ParseArtps(buf, s.1, Prev(n), acc + [s.0])
  {
    if ParseArtp(buf, pos).Ok? {
      var s := ParseArtp(buf, pos).value;
      PutOrder(acc, s.0.0, s.0.1);
      PutDistinct(acc, s.0.0, s.0.1);
    }
  }

  /** One turn of the `VQMp` loop, given what the record read at `pos` gave and where it left the cursor. */
  lemma VqmpsAdvance(buf: seq<byte>, pos: nat, next: nat, n: nat, acc: seq<(int, Vqmp)>, v: Result<(int, Vqmp)>)
    requires n > 0 && KeysDistinct(acc) && Agrees(v, ParseVqmp(buf, pos), next)
    ensures v.Err? ==> ParseVqmps(buf, pos, n, acc) == Err(v.error)
    ensures v.Ok? ==> KeysDistinct(Put(acc, v.value.0, v.value.1))
    ensures v.Ok? ==> ParseVqmps(buf, pos, n, acc) == ParseVqmps(buf, next, Prev(n), Put(acc, v.value.0, v.value.1))
  {
    if v.Ok? {
      PutDistinct(acc, v.value.0, v.value.1);
    }
  }

  /** One turn of the entry loop of `read_art_block`. */
  lemma ArtEntriesAdvance(buf: seq<byte>, pos: nat, next: nat, n: nat, artus: seq<(nat, Artu)>, arts: seq<(nat, Art)>,
                          e: Result<ArtEntry>)
    requires pos <= |buf| && n > 0
    requires KeysDistinct(artus) && KeysDistinct(arts) && ArtusSorted(artus) && ArtsSorted(arts)
    requires Agrees(e, ParseArtEntry(buf, pos), next)
    ensures e.Err? ==> ParseArtEntries(buf, pos, n, artus, arts) == Err(e.error)
    ensures e.Ok? ==> EntrySorted(e.value) && pos <= next <= |buf|
    ensures e.Ok? ==> var (artus', arts') := PutEntry(artus, arts, e.value);
                      ParseArtEntries(buf, pos, n, artus, arts) == ParseArtEntries(buf, next, Prev(n), artus', arts')
  {
  }

  class DDIModel {
    const ddiBytes: seq<byte>
    var ddiData: Stream?
    var staData: seq<(nat, Stau)>
    var artData: seq<(nat, Art)>
    var vqmData: Option<seq<(int, Vqmp)>>
    var offsetMap: seq<(string, (nat, nat))>
    /** `ddi_data_dict`, which only `read` assigns; empty until then. */
    var dataDict: DataDict

    constructor (ddiBytes: seq<byte>)
      ensures this.ddiBytes == ddiBytes && ddiData == null
      ensures staData == [] && artData == [] && vqmData == Some([]) && offsetMap == []
      ensures dataDict == DataDict(None, [], [])
    {
      this.ddiBytes := ddiBytes;
      ddiData := null;
      staData := [];
      artData := [];
      vqmData := Some([]);
      offsetMap := [];
      dataDict := DataDict(None, [], []);
    }

    /** `read_dbv`. */
    method ReadDbv() returns (r: Outcome)
      requires ddiData != null
      modifies ddiData
      ensures ddiData.data == old(ddiData.data)
      ensures Reaches(r, ParseDbv(old(ddiData.data), old(ddiData.pos)), ddiData.pos)
    {
      var zero := ddiData.Read(8);
      if Le(zero) != 0 {
        return Fail(Assertion("field value"));
      }
      var tag := ddiData.Read(4);
      var o := ExpectTag(tag, "DBV ");
      if o.Fail? {
        return o;
      }
      var _ := ddiData.Read(4);
      var one := ddiData.Read(8);
      if Le(one) != 1 {
        return Fail(Assertion("field value"));
      }
      var _ := ddiData.Read(4);
      r := Pass;
    }

    /**
     * The epr list every sample carries: the count, then for each entry the
     * position of its 8-byte field (`tell()`) and the value read there, then
     * `fs` and the bytes `01 00`.
     */
    method ReadEprBlock() returns (r: Result<EprBlock>)
      requires ddiData != null
      modifies ddiData
      ensures ddiData.data == old(ddiData.data)
      ensures Agrees(r, ParseEprBlock(old(ddiData.data), old(ddiData.pos)), ddiData.pos)
    {
      ghost var buf := ddiData.data;
      ghost var start := ddiData.pos;
      var c := ddiData.Read(4);
      var count := Le(c);
      ghost var first := ddiData.pos;
      assert TakeUint(buf, start, 4) == (count, first);
      var eprs: seq<Ref> := [];
      assert eprs + EprsFrom(buf, first, count).0 == EprsFrom(buf, first, count).0;
      var k := 0;
      while k < count
        invariant ddiData.data == buf && k <= count
        invariant EprsFrom(buf, first, count)
               == (eprs + EprsFrom(buf, ddiData.pos, count - k).0, EprsFrom(buf, ddiData.pos, count - k).1)
      {
        var at := ddiData.Tell();
        var b := ddiData.Read(8);
        EprsStep(buf, at, count - k, eprs);
        assert count - k - 1 == count - (k + 1) && ddiData.pos == at + |Span(buf, at, 8)|;
        eprs := eprs + [Ref(at, Le(b))];
        k := k + 1;
      }
      assert eprs + EprsFrom(buf, ddiData.pos, 0).0 == eprs;
      ghost var q := ddiData.pos;
      var fs := ddiData.Read(4);
      EprBlockParts(buf, start, count, first, eprs, q, Le(fs), ddiData.pos);
      var tail := ddiData.Read(2);
      if tail != [1, 0] {
        return Err(Assertion("field bytes"));
      }
      r := Ok(EprBlock(eprs, Le(fs)));
    }

    // -------------------------------------------------------------- read_sta

    /** One `STAp` record of `read_sta`'s inner loop. */
    method ReadStap() returns (r: Result<(string, Stap)>)
      requires ddiData != null
      modifies ddiData
      ensures ddiData.data == old(ddiData.data)
      ensures Agrees(r, ParseStap(old(ddiData.data), old(ddiData.pos)), ddiData.pos)
    {
      var head := ddiData.ReadRecord(ParseStapHead);
      if head.Err? {
        return Err(head.error);
      }
      var eprs := ReadEprBlock();
      if eprs.Err? {
        return Err(eprs.error);
      }
      var tail := ddiData.ReadRecord(ParseStapTail);
      if tail.Err? {
        return Err(tail.error);
      }
      var (h, e, t) := (head.value, eprs.value, tail.value);
      r := Ok((t.idx, Stap(h.unknown1, h.floats, h.sndLength, e.epr, e.fs, t.snd, t.unknown4)));
    }

    /**
     * The `STAp` loop of one `STAu`: `count` samples, each kept under its
     * string index; a repeated index fails the decoder's assertion.
     */
    method ReadStaps(count: nat) returns (r: Result<seq<(string, Stap)>>)
      requires ddiData != null
      modifies ddiData
      ensures ddiData.data == old(ddiData.data)
      ensures Agrees(r, ParseStaps(old(ddiData.data), old(ddiData.pos), count, []), ddiData.pos)
    {
      ghost var buf := ddiData.data;
      ghost var first := ddiData.pos;
      ghost var spec := ParseStaps(buf, first, count, []);
      var staps: seq<(string, Stap)> := [];
      var j := 0;
      ghost var left := count;
      while j < count
        invariant ddiData.data == buf && j <= count && left == count - j
        invariant KeysDistinct(staps)
        invariant spec == ParseStaps(buf, ddiData.pos, left, staps)
      {
        var s := ReadStap();
        if s.Err? {
          return Err(s.error);
        }
        var key := s.value.0;
        if HasKey(staps, key) {
          return Err(Assertion("stap index not in keys"));
        }
        PutOrder(staps, key, s.value.1);
        PutDistinct(staps, key, s.value.1);
        assert spec == ParseStaps(buf, ddiData.pos, Prev(left), staps + [s.value]);
        staps := Put(staps, key, s.value.1);
        j := j + 1;
        left := Prev(left);
      }
      r := Ok(staps);
    }

    /** One `STAu` record: its samples, sorted by index, then the phoneme. */
    method ReadStau() returns (r: Result<(nat, Stau)>)
      requires ddiData != null
      modifies ddiData
      ensures ddiData.data == old(ddiData.data)
      ensures Agrees(r, ParseStau(old(ddiData.data), old(ddiData.pos)), ddiData.pos)
    {
      var head := ddiData.ReadRecord(ParseStauHead);
      if head.Err? {
        return Err(head.error);
      }
      var (idx, count) := head.value;
      var staps := ReadStaps(count);
      if staps.Err? {
        return Err(staps.error);
      }
      StringLessIsStrictTotal();
      var sorted := SortByKey(staps.value, LexLess);
      var phoneme := ddiData.ReadString();
      if phoneme.Err? {
        return Err(phoneme.error);
      }
      r := Ok((idx, Stau(phoneme.value, sorted)));
    }

    /** The `STAu` loop of `read_sta`: a repeated unit index replaces the earlier unit in place. */
    method ReadStaus(count: nat) returns (r: Result<seq<(nat, Stau)>>)
      requires ddiData != null
      modifies ddiData
      ensures ddiData.data == old(ddiData.data)
      ensures Agrees(r, ParseStaus(old(ddiData.data), old(ddiData.pos), count, []), ddiData.pos)
    {
      ghost var buf := ddiData.data;
      ghost var spec := ParseStaus(buf, ddiData.pos, count, []);
      var sta: seq<(nat, Stau)> := [];
      var i := 0;
      ghost var left := count;
      while i < count
        invariant ddiData.data == buf && i <= count && left == count - i
        invariant KeysDistinct(sta) && StapsSorted(sta)
        invariant spec == ParseStaus(buf, ddiData.pos, left, sta)
      {
        var s := ReadStau();
        if s.Err? {
          return Err(s.error);
        }
        PutStau(sta, s.value.0, s.value.1);
        sta := Put(sta, s.value.0, s.value.1);
        i := i + 1;
        left := Prev(left);
      }
      r := Ok(sta);
    }

    /** `assert read_str(...) == a` then `assert read_str(...) == b`. */
    method ReadTrailer(a: string, b: string) returns (r: Outcome)
      requires ddiData != null
      modifies ddiData
      ensures ddiData.data == old(ddiData.data)
      ensures Reaches(r, ExpectPair(old(ddiData.data), old(ddiData.pos), a, b), ddiData.pos)
    {
      var x := ddiData.ReadString();
      if x.Err? {
        return Fail(x.error);
      }
      if x.value != a {
        return Fail(Assertion(a));
      }
      var y := ddiData.ReadString();
      if y.Err? {
        return Fail(y.error);
      }
      if y.value != b {
        return Fail(Assertion(b));
      }
      r := Pass;
    }

    /** `read_sta`: the headers, the units sorted by index, and the closing strings. */
    method ReadSta() returns (r: Result<seq<(nat, Stau)>>)
      requires ddiData != null
      modifies ddiData
      ensures ddiData.data == old(ddiData.data)
      ensures Agrees(r, ParseSta(old(ddiData.data), old(ddiData.pos)), ddiData.pos)
    {
      var count := ddiData.ReadRecord(ParseStaHeader);
      if count.Err? {
        return Err(count.error);
      }
      var sta := ReadStaus(count.value);
      if sta.Err? {
        return Err(sta.error);
      }
      NatLessIsStrictTotal();
      SortStausKeepsStapsSorted(sta.value);
      var sorted := SortByKey(sta.value, NatLess);
      var t := ReadTrailer("normal", "stationary");
      if t.Fail? {
        return Err(t.error);
      }
      r := Ok(sorted);
    }

    // -------------------------------------------------------------- read_art

    /**
     * One `ARTp` record. The epr list is read inside `try`; on an
     * `AssertionError` the cursor goes back to where the list began, skips
     * four bytes, and the list is read again.
     */
    method ReadArtp() returns (r: Result<(nat, Artp)>)
      requires ddiData != null
      modifies ddiData
      ensures ddiData.data == old(ddiData.data)
      ensures Agrees(r, ParseArtp(old(ddiData.data), old(ddiData.pos)), ddiData.pos)
    {
      ghost var buf := ddiData.data;
      var head := ddiData.ReadRecord(ParseArtpHead);
      if head.Err? {
        return Err(head.error);
      }
      var loc := ddiData.Tell();
      var eprs := ReadEprBlock();
      if eprs.Err? {
        var _ := ddiData.Seek(loc);
        var _ := ddiData.Read(4);
        eprs := ReadEprBlock();
      }
      assert Agrees(eprs, ParseArtpEprs(buf, loc), ddiData.pos);
      if eprs.Err? {
        return Err(eprs.error);
      }
      var tail := ddiData.ReadRecord(ParseArtpTail);
      if tail.Err? {
        return Err(tail.error);
      }
      var (h, e, t) := (head.value, eprs.value, tail.value);
      r := Ok((h.idx, Artp(h.devArtp, h.unknown1, h.floats, h.sndUnknown, e.epr, e.fs, t.snd, t.sndStart, t.align)));
    }

    /** The `ARTp` loop of one `ARTu`; a repeated index fails the decoder's assertion. */
    method ReadArtps(count: nat) returns (r: Result<seq<(nat, Artp)>>)
      requires ddiData != null
      modifies ddiData
      ensures ddiData.data == old(ddiData.data)
      ensures Agrees(r, ParseArtps(old(ddiData.data), old(ddiData.pos), count, []), ddiData.pos)
    {
      ghost var buf := ddiData.data;
      ghost var spec := ParseArtps(buf, ddiData.pos, count, []);
      var artps: seq<(nat, Artp)> := [];
      var j := 0;
      ghost var left := count;
      while j < count
        invariant ddiData.data == buf && j <= count && left == count - j
        invariant KeysDistinct(artps)
        invariant spec == ParseArtps(buf, ddiData.pos, left, artps)
      {
        ArtpsStep(buf, ddiData.pos, left, artps);
        var s := ReadArtp();
        if s.Err? {
          return Err(s.error);
        }
        var key := s.value.0;
        if HasKey(artps, key) {
          return Err(Assertion("artp index not in keys"));
        }
        PutOrder(artps, key, s.value.1);
        artps := Put(artps, key, s.value.1);
        j := j + 1;
        left := Prev(left);
      }
      r := Ok(artps);
    }

    /** One `ARTu` record after its tag: its samples, sorted by index, then the phoneme. */
    method ReadArtu() returns (r: Result<(nat, Artu)>)
      requires ddiData != null
      modifies ddiData
      ensures ddiData.data == old(ddiData.data)
      ensures Agrees(r, ParseArtu(old(ddiData.data), old(ddiData.pos)), ddiData.pos)
    {
      var head := ddiData.ReadRecord(ParseArtuHead);
      if head.Err? {
        return Err(head.error);
      }
      var (idx, count) := head.value;
      var artps := ReadArtps(count);
      if artps.Err? {
        return Err(artps.error);
      }
      NatLessIsStrictTotal();
      var sorted := SortByKey(artps.value, NatLess);
      var phoneme := ddiData.ReadString();
      if phoneme.Err? {
        return Err(phoneme.error);
      }
      r := Ok((idx, Artu(phoneme.value, sorted)));
    }

    /**
     * One entry of `read_art_block`: a zero field and a tag, `ART ` for a
     * nested block, read by recursion, or `ARTu` for a unit.
     */
    method ReadArtEntry() returns (r: Result<ArtEntry>)
      requires ddiData != null && ddiData.pos <= |ddiData.data|
      modifies ddiData
      ensures ddiData.data == old(ddiData.data)
      ensures Agrees(r, ParseArtEntry(old(ddiData.data), old(ddiData.pos)), ddiData.pos)
      decreases |ddiData.data| - ddiData.pos, 0
    {
      var zero := ddiData.Read(8);
      if Le(zero) != 0 {
        return Err(Assertion("field value"));
      }
      var tag := ddiData.Read(4);
      var kind := Utf8.Decode(tag);
      if kind.Err? {
        return Err(kind.error);
      }
      if kind.value == "ART " {
        var b := ReadArtBlock();
        if b.Err? {
          return Err(b.error);
        }
        return Ok(BlockEntry(b.value.0, b.value.1));
      }
      if kind.value != "ARTu" {
        return Err(Assertion("ARTu"));
      }
      var u := ReadArtu();
      if u.Err? {
        return Err(u.error);
      }
      r := Ok(UnitEntry(u.value.0, u.value.1));
    }

    /**
     * The entry loop of `read_art_block`: each entry is kept under its index in
     * the unit map or the block map, a repeated index replacing the earlier entry.
     */
    method ReadArtEntries(count: nat) returns (r: Result<(seq<(nat, Artu)>, seq<(nat, Art)>)>)
      requires ddiData != null && ddiData.pos <= |ddiData.data|
      modifies ddiData
      ensures ddiData.data == old(ddiData.data)
      ensures Agrees(r, ParseArtEntries(old(ddiData.data), old(ddiData.pos), count, [], []), ddiData.pos)
      decreases |ddiData.data| - ddiData.pos, 1
    {
      ghost var buf := ddiData.data;
      ghost var start := ddiData.pos;
      ghost var spec := ParseArtEntries(buf, ddiData.pos, count, [], []);
      var artus: seq<(nat, Artu)> := [];
      var arts: seq<(nat, Art)> := [];
      var i := 0;
      ghost var left := count;
      while i < count
        invariant ddiData.data == buf && i <= count && left == count - i
        invariant buf == old(ddiData.data) && start == old(ddiData.pos) <= ddiData.pos <= |buf|
        invariant KeysDistinct(artus) && KeysDistinct(arts) && ArtusSorted(artus) && ArtsSorted(arts)
        invariant spec == ParseArtEntries(buf, ddiData.pos, left, artus, arts)
      {
        ghost var at := ddiData.pos;
        var e := ReadArtEntry();
        ArtEntriesAdvance(buf, at, ddiData.pos, left, artus, arts, e);
        if e.Err? {
          return Err(e.error);
        }
        if e.value.BlockEntry? {
          arts := Put(arts, e.value.idx, e.value.art);
        } else {
          artus := Put(artus, e.value.idx, e.value.artu);
        }
        i := i + 1;
        left := Prev(left);
      }
      r := Ok((artus, arts));
    }

    /** `read_art_block`, after the `ART ` tag: the header, the entries, both maps sorted by index, the phoneme. */
    method ReadArtBlock() returns (r: Result<(nat, Art)>)
      requires ddiData != null && ddiData.pos <= |ddiData.data|
      modifies ddiData
      ensures ddiData.data == old(ddiData.data)
      ensures Agrees(r, ParseArtBlock(old(ddiData.data), old(ddiData.pos)), ddiData.pos)
      decreases |ddiData.data| - ddiData.pos, 2
    {
      var head := ddiData.ReadRecord(ParseArtBlockHead);
      if head.Err? {
        return Err(head.error);
      }
      var (idx, count) := head.value;
      var e := ReadArtEntries(count);
      if e.Err? {
        return Err(e.error);
      }
      var (artus, arts) := e.value;
      NatLessIsStrictTotal();
      SortArtusKeepsSorted(artus);
      SortArtsKeepsSorted(arts);
      var phoneme := ddiData.ReadString();
      if phoneme.Err? {
        return Err(phoneme.error);
      }
      r := Ok((idx, Art(phoneme.value, SortByKey(artus, NatLess), SortByKey(arts, NatLess))));
    }

    /**
     * The `while True` loop of `read_art`: an 8-byte field of zeros or of 0xFF
     * opens a block; at the first other field the cursor goes back 8 bytes and
     * `articulation` must follow.
     */
    method ReadArtLoop() returns (r: Result<seq<(nat, Art)>>)
      requires ddiData != null && ddiData.pos <= |ddiData.data|
      modifies ddiData
      ensures ddiData.data == old(ddiData.data)
      ensures Agrees(r, ParseArtLoop(old(ddiData.data), old(ddiData.pos), []), ddiData.pos)
    {
      ghost var buf := ddiData.data;
      ghost var spec := ParseArtLoop(buf, ddiData.pos, []);
      var total: seq<(nat, Art)> := [];
      while true
        invariant ddiData.data == buf && ddiData.pos <= |buf|
        invariant KeysDistinct(total) && ArtsSorted(total)
        invariant spec == ParseArtLoop(buf, ddiData.pos, total)
        decreases |buf| - ddiData.pos
      {
        ghost var pos := ddiData.pos;
        var start := ddiData.Read(8);
        if start != Zeros(8) && start != FF(8) {
          r := ReadArtEnd(pos, total);
          return;
        }
        var tag := ddiData.Read(4);
        var o := ExpectTag(tag, "ART ");
        if o.Fail? {
          return Err(o.error);
        }
        var b := ReadArtBlock();
        if b.Err? {
          return Err(b.error);
        }
        PutArt(total, b.value.0, b.value.1);
        total := Put(total, b.value.0, b.value.1);
      }
    }

    /**
     * The end of the `read_art` loop: the 8-byte field just read at `pos` opens no
     * block, so the cursor goes back 8 bytes and `articulation` must follow.
     */
    method ReadArtEnd(ghost pos: nat, total: seq<(nat, Art)>) returns (r: Result<seq<(nat, Art)>>)
      requires ddiData != null && pos <= |ddiData.data| && ddiData.pos == Take(ddiData.data, pos, 8).1
      requires KeysDistinct(total) && ArtsSorted(total)
      requires Span(ddiData.data, pos, 8) != Zeros(8) && Span(ddiData.data, pos, 8) != FF(8)
      modifies ddiData
      ensures ddiData.data == old(ddiData.data)
      ensures Agrees(r, ParseArtLoop(old(ddiData.data), pos, total), ddiData.pos)
    {
      var offset := ddiData.Tell();
      var o := ddiData.Seek(offset as int - 8);
      if o.Fail? {
        return Err(o.error);
      }
      var s := ddiData.ReadString();
      if s.Err? {
        return Err(s.error);
      }
      if s.value != "articulation" {
        return Err(Assertion("articulation"));
      }
      r := Ok(total);
    }

    /** `read_art`: an ignored field, the `ARR ` record (a non-zero count), the blocks sorted by index. */
    method ReadArt() returns (r: Result<seq<(nat, Art)>>)
      requires ddiData != null
      modifies ddiData
      ensures ddiData.data == old(ddiData.data)
      ensures Agrees(r, ParseArt(old(ddiData.data), old(ddiData.pos)), ddiData.pos)
    {
      var _ := ddiData.Read(8);
      var arr := ddiData.ReadRecord(DdiUtils.ReadArr);
      if arr.Err? {
        return Err(arr.error);
      }
      if Le(arr.value) == 0 {
        return Err(Assertion("ARR count"));
      }
      var total := ReadArtLoop();
      if total.Err? {
        return Err(total.error);
      }
      NatLessIsStrictTotal();
      SortArtsKeepsSorted(total.value);
      r := Ok(SortByKey(total.value, NatLess));
    }

    // -------------------------------------------------------------- read_vqm

    /** One `VQMp` record. */
    method ReadVqmp() returns (r: Result<(int, Vqmp)>)
      requires ddiData != null
      modifies ddiData
      ensures ddiData.data == old(ddiData.data)
      ensures Agrees(r, ParseVqmp(old(ddiData.data), old(ddiData.pos)), ddiData.pos)
    {
      var head := ddiData.ReadRecord(ParseVqmpHead);
      if head.Err? {
        return Err(head.error);
      }
      var eprs := ReadEprBlock();
      if eprs.Err? {
        return Err(eprs.error);
      }
      var tail := ddiData.ReadRecord(ParseVqmpTail);
      if tail.Err? {
        return Err(tail.error);
      }
      var (h, e, t) := (head.value, eprs.value, tail.value);
      r := Ok((t.0, Vqmp(h.0, h.1, e.epr, e.fs, t.1)));
    }

    /** The `VQMp` loop: a repeated index replaces the earlier sample in place. */
    method ReadVqmps(count: nat) returns (r: Result<seq<(int, Vqmp)>>)
      requires ddiData != null
      modifies ddiData
      ensures ddiData.data == old(ddiData.data)
      ensures Agrees(r, ParseVqmps(old(ddiData.data), old(ddiData.pos), count, []), ddiData.pos)
    {
      ghost var buf := ddiData.data;
      ghost var spec := ParseVqmps(buf, ddiData.pos, count, []);
      var vqm: seq<(int, Vqmp)> := [];
      var i := 0;
      ghost var left := count;
      while i < count
        invariant ddiData.data == buf && i <= count && left == count - i
        invariant KeysDistinct(vqm)
        invariant spec == ParseVqmps(buf, ddiData.pos, left, vqm)
      {
        ghost var at := ddiData.pos;
        var v := ReadVqmp();
        VqmpsAdvance(buf, at, ddiData.pos, left, vqm, v);
        if v.Err? {
          return Err(v.error);
        }
        vqm := Put(vqm, v.value.0, v.value.1);
        i := i + 1;
        left := Prev(left);
      }
      r := Ok(vqm);
    }

    /** `read_vqm`: the headers, the count written twice, the samples, the closing strings. */
    method ReadVqm() returns (r: Result<seq<(int, Vqmp)>>)
      requires ddiData != null
      modifies ddiData
      ensures ddiData.data == old(ddiData.data)
      ensures Agrees(r, ParseVqm(old(ddiData.data), old(ddiData.pos)), ddiData.pos)
    {
      var count := ddiData.ReadRecord(ParseVqmCounts);
      if count.Err? {
        return Err(count.error);
      }
      var vqm := ReadVqmps(count.value);
      if vqm.Err? {
        return Err(vqm.error);
      }
      var t := ReadTrailer("GROWL", "vqm");
      if t.Fail? {
        return Err(t.error);
      }
      r := Ok(vqm.value);
    }

    // -------------------------------------------------------------- read

    /** The DBV step of `read`: find the mark, seek there, `read_dbv`, record the range. */
    method LoadDbv() returns (r: Outcome)
      requires ddiData != null && ddiData.data == ddiBytes
      modifies this, ddiData
      ensures ddiData == old(ddiData) && ddiData.data == ddiBytes
      ensures staData == old(staData) && artData == old(artData) && vqmData == old(vqmData) && dataDict == old(dataDict)
      ensures DbvPart(ddiBytes).Err? ==> r == Fail(DbvPart(ddiBytes).error) && offsetMap == old(offsetMap)
      ensures DbvPart(ddiBytes).Ok? ==> r == Pass && offsetMap == Put(old(offsetMap), "dbv", DbvPart(ddiBytes).value)
    {
      var at := Find(ddiBytes, ZeroMark("DBV "));
      var o := ddiData.Seek(at);
      if o.Fail? {
        return o;
      }
      o := ReadDbv();
      if o.Fail? {
        return o;
      }
      var end := ddiData.Tell();
      offsetMap := Put(offsetMap, "dbv", (at, end));
      r := Pass;
    }

    /** The STA step of `read`: find the mark, search back for `ARR `, seek 8 bytes before it, `read_sta`. */
    method LoadSta() returns (r: Outcome)
      requires ddiData != null && ddiData.data == ddiBytes
      modifies this, ddiData
      ensures ddiData == old(ddiData) && ddiData.data == ddiBytes
      ensures artData == old(artData) && vqmData == old(vqmData) && dataDict == old(dataDict)
      ensures StaPart(ddiBytes).Err? ==> r == Fail(StaPart(ddiBytes).error)
      ensures StaPart(ddiBytes).Err? ==> staData == old(staData) && offsetMap == old(offsetMap)
      ensures StaPart(ddiBytes).Ok? ==> r == Pass && staData == StaPart(ddiBytes).value.0
      ensures StaPart(ddiBytes).Ok? ==> offsetMap == Put(old(offsetMap), "sta", StaPart(ddiBytes).value.1)
    {
      var at := FindArrBlock(ddiBytes, "STA ");
      var part := ReadStaPart(at);
      if part.Err? {
        return Fail(part.error);
      }
      staData := part.value.0;
      offsetMap := Put(offsetMap, "sta", part.value.1);
      r := Pass;
    }

    /** Seeking to the block start and reading the block there, with the range it occupies. */
    method ReadStaPart(at: int) returns (r: Result<(seq<(nat, Stau)>, (nat, nat))>)
      requires ddiData != null && at == ArrBlockStart(ddiData.data, "STA ")
      modifies ddiData
      ensures ddiData.data == old(ddiData.data)
      ensures r == StaPart(old(ddiData.data))
    {
      var o := ddiData.Seek(at);
      if o.Fail? {
        return Err(o.error);
      }
      var sta := ReadSta();
      var end := ddiData.Tell();
      StaPartFrom(ddiData.data, at, sta, end);
      if sta.Err? {
        return Err(sta.error);
      }
      r := Ok((sta.value, (at, end)));
    }

    /** The ART step of `read`, located like the STA block. */
    method LoadArt() returns (r: Outcome)
      requires ddiData != null && ddiData.data == ddiBytes
      modifies this, ddiData
      ensures ddiData == old(ddiData) && ddiData.data == ddiBytes
      ensures staData == old(staData) && vqmData == old(vqmData) && dataDict == old(dataDict)
      ensures ArtPart(ddiBytes).Err? ==> r == Fail(ArtPart(ddiBytes).error)
      ensures ArtPart(ddiBytes).Err? ==> artData == old(artData) && offsetMap == old(offsetMap)
      ensures ArtPart(ddiBytes).Ok? ==> r == Pass && artData == ArtPart(ddiBytes).value.0
      ensures ArtPart(ddiBytes).Ok? ==> offsetMap == Put(old(offsetMap), "art", ArtPart(ddiBytes).value.1)
    {
      var at := FindArrBlock(ddiBytes, "ART ");
      var part := ReadArtPart(at);
      if part.Err? {
        return Fail(part.error);
      }
      artData := part.value.0;
      offsetMap := Put(offsetMap, "art", part.value.1);
      r := Pass;
    }

    /** Seeking to the block start and reading the block there, with the range it occupies. */
    method ReadArtPart(at: int) returns (r: Result<(seq<(nat, Art)>, (nat, nat))>)
      requires ddiData != null && at == ArrBlockStart(ddiData.data, "ART ")
      modifies ddiData
      ensures ddiData.data == old(ddiData.data)
      ensures r == ArtPart(old(ddiData.data))
    {
      var o := ddiData.Seek(at);
      if o.Fail? {
        return Err(o.error);
      }
      var art := ReadArt();
      var end := ddiData.Tell();
      ArtPartFrom(ddiData.data, at, art, end);
      if art.Err? {
        return Err(art.error);
      }
      r := Ok((art.value, (at, end)));
    }

    /** The VQM step of `read`: `vqm_data` becomes `None`, and stays so unless the mark is found and the block read. */
    method LoadVqm() returns (r: Outcome)
      requires ddiData != null && ddiData.data == ddiBytes
      modifies this, ddiData
      ensures ddiData == old(ddiData) && ddiData.data == ddiBytes
      ensures staData == old(staData) && artData == old(artData) && dataDict == old(dataDict)
      ensures VqmPart(ddiBytes).Err? ==> r == Fail(VqmPart(ddiBytes).error) && vqmData == None && offsetMap == old(offsetMap)
      ensures VqmPart(ddiBytes) == Ok(None) ==> r == Pass && vqmData == None && offsetMap == old(offsetMap)
      ensures VqmPart(ddiBytes).Ok? && VqmPart(ddiBytes).value.Some? ==>
                var (vqm, range) := VqmPart(ddiBytes).value.value;
                r == Pass && vqmData == Some(vqm) && offsetMap == Put(old(offsetMap), "vqm", range)
    {
      var at := Find(ddiBytes, VqmMark());
      vqmData := None;
      if at == -1 {
        return Pass;
      }
      var _ := ddiData.Seek(at);
      var vqm := ReadVqm();
      if vqm.Err? {
        return Fail(vqm.error);
      }
      var end := ddiData.Tell();
      vqmData := Some(vqm.value);
      offsetMap := Put(offsetMap, "vqm", (at, end));
      r := Pass;
    }

    /** The flattening into `ddi_data_dict` at the end of `read`. */
    method BuildDataDict()
      modifies this
      ensures ddiData == old(ddiData) && staData == old(staData) && artData == old(artData)
      ensures vqmData == old(vqmData) && offsetMap == old(offsetMap)
      ensures dataDict == DataDictOf(staData, artData, vqmData)
    {
      var vqm: Option<seq<Sample>> := None;
      if vqmData.Some? {
        var samples := CollectSamples(vqmData.value, VqmSample);
        assert samples == MapValues(vqmData.value, VqmSample);
        vqm := Some(samples);
      }
      var sta := BuildStaDict(staData);
      var art := BuildArtDict(artData);
      dataDict := DataDict(vqm, sta, art);
    }

    /**
     * `read`: a fresh stream over the index bytes, the DBV, STA, ART and VQM
     * blocks in that order, then the flat view. On success every field holds
     * what `DecodeIndex` describes; otherwise the first exception is reported.
     */
    method Read() returns (r: Outcome)
      modifies this
      ensures ddiData != null && fresh(ddiData) && ddiData.data == ddiBytes
      ensures DecodeIndex(ddiBytes).Err? ==> r == Fail(DecodeIndex(ddiBytes).error)
      ensures DecodeIndex(ddiBytes).Ok? ==>
                var x := DecodeIndex(ddiBytes).value;
                && r == Pass
                && staData == x.sta && artData == x.art
                && vqmData == (if x.vqm.Some? then Some(x.vqm.value.0) else None)
                && offsetMap == RecordRanges(old(offsetMap), x)
                && dataDict == DataDictOf(staData, artData, vqmData)
    {
      ddiData := new Stream(ddiBytes);
      r := LoadDbv();
      if r.Fail? {
        return;
      }
      ghost var dbv := DbvPart(ddiBytes).value;
      r := LoadSta();
      if r.Fail? {
        assert DecodeIndex(ddiBytes) == Err(StaPart(ddiBytes).error);
        return;
      }
      ghost var sta := StaPart(ddiBytes).value;
      r := LoadArt();
      if r.Fail? {
        assert DecodeIndex(ddiBytes) == Err(ArtPart(ddiBytes).error);
        return;
      }
      ghost var art := ArtPart(ddiBytes).value;
      r := LoadVqm();
      if r.Fail? {
        assert DecodeIndex(ddiBytes) == Err(VqmPart(ddiBytes).error);
        return;
      }
      ghost var x := Index(dbv, sta.0, sta.1, art.0, art.1, VqmPart(ddiBytes).value);
      assert DecodeIndex(ddiBytes) == Ok(x);
      BuildDataDict();
    }
  }
}
