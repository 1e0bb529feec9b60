/**
 * The copy loops of the repacker's `main`, over in-memory streams: the index
 * bytes (`ddi_data`), the growing ddb (written only at its end, as a file
 * opened for writing is) and one donor file at a time. Each method is proved
 * to do exactly what the description of the same step in `Pack` says.
 */
module PackMain {
  import opened Wrappers
  import opened Bytes
  import opened Streams
  import opened Refs
  import opened DdiDict
  import opened Dict
  import opened Text
  import opened DdiFormat
  import opened Pack
  import Mixins
  import DdiModel
  import Utf8

  /**
   * A copy did what its description says: the same exception, or the same
   * index and ddb.
   */
  predicate Did(o: Outcome, spec: Result<Packed>, ddi: seq<byte>, ddb: seq<byte>) {
    match spec
    case Err(e) => o == Fail(e)
    case Ok(q) => o == Pass && ddi == q.ddi && ddb == q.ddb
  }

  /**
   * Seek to a chunk in the donor, check its tag and read its length; the
   * chunk is then that slice of the donor's bytes (not of the stream).
   */
  method ReadChunk(src: Stream, off: nat, tag: seq<byte>, text: string, broken: string) returns (r: Result<seq<byte>>)
    modifies src
    ensures src.data == old(src.data)
    ensures r == Chunk(old(src.data), off, tag, text, broken)
  {
    var seek := src.Seek(off);
    var hed := src.Read(4);
    var o := Mixins.CheckHeader(hed, tag, text, Mixins.ByText, broken);
    if o.Fail? {
      return Err(o.error);
    }
    var len := src.Read(4);
    ReadOn(src.data, off, 4);
    r := Ok(PySlice(src.data, off, off + Le(len)));
  }

  /** A second read of `n` bytes reads from `pos + n` on, also when the first one stopped short at the end. */
  lemma ReadOn(buf: seq<byte>, pos: nat, n: nat)
    ensures Span(buf, pos + |Span(buf, pos, n)|, n) == Span(buf, pos + n, n)
  {
  }

  /** Seek in the index and write an offset as 8 little-endian bytes, or fail as `to_bytes` does. */
  method PatchTo(ddi: Stream, pos: nat, v: int, ghost d: Result<seq<byte>>) returns (o: Outcome)
    requires d == Patch(ddi.data, pos, v)
    modifies ddi
    ensures d.Err? ==> o == Fail(d.error)
    ensures d.Ok? ==> o == Pass && ddi.data == d.value
  {
    var b := ToLe(v, 8);
    if b.Err? {
      return Fail(b.error);
    }
    var seek := ddi.Seek(pos);
    ddi.Write(b.value);
    o := Pass;
  }

  /** Append to the ddb, whose cursor is always at its end. */
  method Append(ddb: Stream, b: seq<byte>)
    requires ddb.pos == |ddb.data|
    modifies ddb
    ensures ddb.data == old(ddb.data) + b && ddb.pos == |ddb.data|
  {
    ddb.Write(b);
  }

  /** A step in the shape `Emit` describes: read a chunk, append it, patch the index. */
  lemma DidEmit(o: Outcome, c: Result<seq<byte>>, d: Result<seq<byte>>, p: Packed, ddi: seq<byte>, ddb: seq<byte>)
    requires c.Err? ==> o == Fail(c.error)
    requires c.Ok? ==> ddb == p.ddb + c.value && (d.Err? ==> o == Fail(d.error)) && (d.Ok? ==> o == Pass && ddi == d.value)
    ensures Did(o, Emit(c, d, p), ddi, ddb)
  {
  }

  /**
   * One chunk: read it from the donor, append it to the ddb, and write where
   * it now starts (shifted by `delta`) into the index at `pos`.
   */
  method CopyChunkTo(src: Stream, off: nat, tag: seq<byte>, text: string, broken: string,
                     pos: nat, delta: int, ddi: Stream, ddb: Stream) returns (o: Outcome)
    requires src != ddi && src != ddb && ddi != ddb
    requires ddb.pos == |ddb.data|
    modifies src, ddi, ddb
    ensures src.data == old(src.data)
    ensures Did(o, CopyChunk(old(src.data), off, tag, text, broken, pos, delta, Packed(old(ddi.data), old(ddb.data))), ddi.data, ddb.data)
    ensures ddb.pos == |ddb.data|
  {
    ghost var p := Packed(ddi.data, ddb.data);
    ghost var d := Patch(p.ddi, pos, |p.ddb| + delta);
    var start := ddb.Tell();
    var c := ReadChunk(src, off, tag, text, broken);
    if c.Err? {
      o := Fail(c.error);
    } else {
      Append(ddb, c.value);
      o := PatchTo(ddi, pos, start + delta, d);
    }
    DidEmit(o, c, d, p, ddi.data, ddb.data);
  }

  /**
   * An articulation sound: seek to it (a negative offset raises), read it as a
   * `SND ` chunk, and check again that the bytes read start with `SND `.
   */
  method ReadSound(src: Stream, off: int, broken: string) returns (r: Result<seq<byte>>)
    modifies src
    ensures src.data == old(src.data)
    ensures r == SoundChunk(old(src.data), off, broken)
  {
    var seek := src.Seek(off);
    if seek.Fail? {
      return Err(seek.error);
    }
    r := ReadChunk(src, off, Mixins.SndTag, "SND ", broken);
    if r.Ok? {
      var o := Mixins.CheckHeader(PySlice(r.value, 0, 4), Mixins.SndTag, "SND ", Mixins.ByText, broken);
      if o.Fail? {
        r := Err(o.error);
      }
    }
  }

  /** Seek in the index and write two offsets, 8 little-endian bytes each, one after the other. */
  method Patch2To(ddi: Stream, pos: nat, v: int, w: int, ghost d: Result<seq<byte>>) returns (o: Outcome)
    requires d == Patch2(ddi.data, pos, v, w)
    modifies ddi
    ensures d.Err? ==> o == Fail(d.error)
    ensures d.Ok? ==> o == Pass && ddi.data == d.value
  {
    ghost var before := ddi.data;
    var b1 := ToLe(v, 8);
    if b1.Err? {
      return Fail(b1.error);
    }
    var seek := ddi.Seek(pos);
    ddi.Write(b1.value);
    var b2 := ToLe(w, 8);
    if b2.Err? {
      return Fail(b2.error);
    }
    ddi.Write(b2.value);
    OverwriteConcat(before, pos, b1.value, b2.value);
    o := Pass;
  }

  /** An articulation sound is copied in the shape `Emit` describes. */
  lemma DidArtSound(o: Outcome, file: seq<byte>, broken: string, snd: SndRef, second: SndRef, p: Packed,
                    c: Result<seq<byte>>, d: Result<seq<byte>>, ddi: seq<byte>, ddb: seq<byte>)
    requires c == SoundChunk(file, snd.offset, broken)
    requires d == Patch2(p.ddi, snd.pos, |p.ddb| + 0x12, |p.ddb| + 0x12 + (second.offset - snd.offset))
    requires Did(o, Emit(c, d, p), ddi, ddb)
    ensures Did(o, ArtSound(file, broken, snd, second, p), ddi, ddb)
  {
    ArtSoundIsEmit(file, broken, snd, second, p, c, d);
  }

  lemma ArtSoundIsEmit(file: seq<byte>, broken: string, snd: SndRef, second: SndRef, p: Packed, c: Result<seq<byte>>, d: Result<seq<byte>>)
    requires c == SoundChunk(file, snd.offset, broken)
    requires d == Patch2(p.ddi, snd.pos, |p.ddb| + 0x12, |p.ddb| + 0x12 + (second.offset - snd.offset))
    ensures ArtSound(file, broken, snd, second, p) == Emit(c, d, p)
  {
  }

  /**
   * An articulation sound copied: appended to the ddb, and two index fields
   * written one after the other: where the sound's data starts in the ddb
   * (0x12 past the chunk) and that plus the distance to its `snd_start`.
   */
  method CopyArtSoundTo(src: Stream, broken: string, snd: SndRef, second: SndRef, ddi: Stream, ddb: Stream) returns (o: Outcome)
    requires src != ddi && src != ddb && ddi != ddb
    requires ddb.pos == |ddb.data|
    modifies src, ddi, ddb
    ensures src.data == old(src.data)
    ensures Did(o, ArtSound(old(src.data), broken, snd, second, Packed(old(ddi.data), old(ddb.data))), ddi.data, ddb.data)
    ensures ddb.pos == |ddb.data|
  {
    ghost var p := Packed(ddi.data, ddb.data);
    ghost var p0 := src.data;
    ghost var d := Patch2(p.ddi, snd.pos, |p.ddb| + 0x12, |p.ddb| + 0x12 + (second.offset - snd.offset));
    var offset2Delta := second.offset - snd.offset;
    var c := ReadSound(src, snd.offset, broken);
    if c.Err? {
      o := Fail(c.error);
    } else {
      var ddbSndOffset := ddb.Tell();
      ddbSndOffset := ddbSndOffset + 0x12;
      Append(ddb, c.value);
      o := Patch2To(ddi, snd.pos, ddbSndOffset, ddbSndOffset + offset2Delta, d);
    }
    DidEmit(o, c, d, p, ddi.data, ddb.data);
    DidArtSound(o, p0, broken, snd, second, p, c, d, ddi.data, ddb.data);
  }

  /** `for epr_info in item["epr"]`: each frame copied in turn; the first failure ends the loop. */
  method CopyEprsTo(src: Stream, broken: string, eprs: seq<Ref>, ddi: Stream, ddb: Stream) returns (o: Outcome)
    requires src != ddi && src != ddb && ddi != ddb
    requires ddb.pos == |ddb.data|
    modifies src, ddi, ddb
    ensures src.data == old(src.data)
    ensures Did(o, CopyEprs(old(src.data), broken, eprs, Packed(old(ddi.data), old(ddb.data))), ddi.data, ddb.data)
    ensures ddb.pos == |ddb.data|
  {
    ghost var file := src.data;
    ghost var p := Packed(ddi.data, ddb.data);
    ghost var step := EprStep(file, broken);
    assert eprs[..0] == [];
    o := Pass;
    var i := 0;
    while i < |eprs|
      invariant i <= |eprs|
      invariant src.data == file && ddb.pos == |ddb.data|
      invariant o == Pass && Fold(step, eprs[..i], p) == Ok(Packed(ddi.data, ddb.data))
    {
      ghost var q := Packed(ddi.data, ddb.data);
      var r := eprs[i];
      o := CopyChunkTo(src, r.value, Mixins.Frm2Tag, "FRM2", broken, r.pos, 0, ddi, ddb);
      FoldAdvance(step, eprs, p, i, q);
      if o.Fail? {
        FoldStops(step, eprs, p, i + 1);
        return;
      }
      i := i + 1;
    }
    FoldDone(step, eprs, p);
  }

  /** One articulation sample: its eprs, then its sound with the sample's `snd_start`. */
  method CopyArtSampleTo(src: Stream, broken: string, s: Sample, ddi: Stream, ddb: Stream) returns (o: Outcome)
    requires src != ddi && src != ddb && ddi != ddb
    requires ddb.pos == |ddb.data|
    modifies src, ddi, ddb
    ensures src.data == old(src.data)
    ensures Did(o, CopyArtSample(old(src.data), broken, s, Packed(old(ddi.data), old(ddb.data))), ddi.data, ddb.data)
    ensures ddb.pos == |ddb.data|
  {
    o := CopyEprsTo(src, broken, s.epr, ddi, ddb);
    if o.Fail? {
      return;
    }
    match s.sndStart
    case None =>
      o := Fail(Missing("snd_start"));
    case Some(second) =>
      o := CopyArtSoundTo(src, broken, s.snd, second, ddi, ddb);
  }

  /** One stationary sample: its eprs, then its sound from offset 0x3d. */
  method CopyStaSampleTo(src: Stream, broken: string, s: Sample, ddi: Stream, ddb: Stream) returns (o: Outcome)
    requires src != ddi && src != ddb && ddi != ddb
    requires ddb.pos == |ddb.data|
    modifies src, ddi, ddb
    ensures src.data == old(src.data)
    ensures Did(o, CopyStaSample(old(src.data), broken, s, Packed(old(ddi.data), old(ddb.data))), ddi.data, ddb.data)
    ensures ddb.pos == |ddb.data|
  {
    o := CopyEprsTo(src, broken, s.epr, ddi, ddb);
    if o.Fail? {
      return;
    }
    var realSndOffset := StaSndOffset;
    o := CopyChunkTo(src, realSndOffset, Mixins.SndTag, "SND ", broken, s.snd.pos, s.snd.offset - realSndOffset, ddi, ddb);
  }

  /**
   * The articulation file of a key, built as `main` builds it: split on
   * spaces, each phoneme escaped; with any other count there is no file name.
   */
  method ArtFileOf(singer: string, key: string) returns (path: Option<string>)
    ensures path == ArtFile(singer, key)
  {
    var phonemes := Split(key, ' ');
    if |phonemes| == 3 {
      var e0 := EscapeFilename(phonemes[0]);
      var e1 := EscapeFilename(phonemes[1]);
      var e2 := EscapeFilename(phonemes[2]);
      path := Some(singer + "/voice/articulation/" + e0 + "/" + e1 + "/" + e2);
    } else if |phonemes| == 2 {
      var e0 := EscapeFilename(phonemes[0]);
      var e1 := EscapeFilename(phonemes[1]);
      path := Some(singer + "/voice/articulation/" + e0 + "/" + e1);
    } else {
      path := None;
    }
  }

  /**
   * One item of `ddi_data_dict['art']`: find its file in the voice tree, then
   * copy each of its samples from that file.
   */
  method CopyArtItemTo(files: seq<(string, seq<byte>)>, singer: string, item: (string, seq<Sample>), ddi: Stream, ddb: Stream)
      returns (o: Outcome)
    requires ddi != ddb
    requires ddb.pos == |ddb.data|
    modifies ddi, ddb
    ensures Did(o, CopyArtItem(files, singer, item, Packed(old(ddi.data), old(ddb.data))), ddi.data, ddb.data)
    ensures ddb.pos == |ddb.data|
  {
    var artFile := ArtFileOf(singer, item.0);
    if artFile.None? {
      return Fail(Missing("art_file"));
    }
    var path := artFile.value;
    var artBytes := Lookup(files, path);
    if artBytes.None? {
      return Fail(Raised(NotFound("Articulation", path)));
    }
    var broken := IsBroken("Articulation", path);
    var artData := new Stream(artBytes.value);
    ghost var p := Packed(ddi.data, ddb.data);
    ghost var step := ArtSampleStep(artBytes.value, broken);
    assert item.1[..0] == [];
    o := Pass;
    var i := 0;
    while i < |item.1|
      invariant i <= |item.1|
      invariant artData.data == artBytes.value && ddb.pos == |ddb.data|
      invariant o == Pass && Fold(step, item.1[..i], p) == Ok(Packed(ddi.data, ddb.data))
    {
      ghost var q := Packed(ddi.data, ddb.data);
      o := CopyArtSampleTo(artData, broken, item.1[i], ddi, ddb);
      FoldAdvance(step, item.1, p, i, q);
      if o.Fail? {
        FoldStops(step, item.1, p, i + 1);
        return;
      }
      i := i + 1;
    }
    FoldDone(step, item.1, p);
  }

  /** The `i`-th sample of a phoneme, from its own file in the voice tree. */
  method CopyStaSampleAtTo(files: seq<(string, seq<byte>)>, singer: string, phoneme: string, i: nat, s: Sample,
                           ddi: Stream, ddb: Stream) returns (o: Outcome)
    requires ddi != ddb
    requires ddb.pos == |ddb.data|
    modifies ddi, ddb
    ensures Did(o, CopyStaSampleAt(files, singer, phoneme, i, s, Packed(old(ddi.data), old(ddb.data))), ddi.data, ddb.data)
    ensures ddb.pos == |ddb.data|
  {
    var e0 := EscapeFilename(phoneme);
    var e1 := EscapeFilename(IntToDecimal(i));
    var path := singer + "/voice/stationary/normal/" + e0 + "/" + e1;
    var staBytes := Lookup(files, path);
    if staBytes.None? {
      return Fail(Raised(NotFound("Stationary", path)));
    }
    var staData := new Stream(staBytes.value);
    o := CopyStaSampleTo(staData, IsBroken("Stationary", path), s, ddi, ddb);
  }

  /** One item of `ddi_data_dict['sta']`: its samples in order, each from its own file. */
  method CopyStaItemTo(files: seq<(string, seq<byte>)>, singer: string, item: (string, seq<Sample>), ddi: Stream, ddb: Stream)
      returns (o: Outcome)
    requires ddi != ddb
    requires ddb.pos == |ddb.data|
    modifies ddi, ddb
    ensures Did(o, CopyStaItem(files, singer, item, Packed(old(ddi.data), old(ddb.data))), ddi.data, ddb.data)
    ensures ddb.pos == |ddb.data|
  {
    ghost var p := Packed(ddi.data, ddb.data);
    ghost var step := StaSampleStep(files, singer, item.0);
    assert item.1[..0] == [];
    o := Pass;
    var i := 0;
    while i < |item.1|
      invariant i <= |item.1|
      invariant ddb.pos == |ddb.data|
      invariant o == Pass && Fold(step, item.1[..i], p) == Ok(Packed(ddi.data, ddb.data))
    {
      ghost var q := Packed(ddi.data, ddb.data);
      o := CopyStaSampleAtTo(files, singer, item.0, i, item.1[i], ddi, ddb);
      FoldAdvance(step, item.1, p, i, q);
      if o.Fail? {
        FoldStops(step, item.1, p, i + 1);
        return;
      }
      i := i + 1;
    }
    FoldDone(step, item.1, p);
  }

  /** `for cvvc, art_items in ddi_data_dict["art"].items()`: each item in turn; the first failure ends the loop. */
  method CopyArtItemsTo(files: seq<(string, seq<byte>)>, singer: string, items: seq<(string, seq<Sample>)>, ddi: Stream, ddb: Stream)
      returns (o: Outcome)
    requires ddi != ddb
    requires ddb.pos == |ddb.data|
    modifies ddi, ddb
    ensures Did(o, Fold(ArtItemStep(files, singer), items, Packed(old(ddi.data), old(ddb.data))), ddi.data, ddb.data)
    ensures ddb.pos == |ddb.data|
  {
    ghost var p := Packed(ddi.data, ddb.data);
    ghost var step := ArtItemStep(files, singer);
    assert items[..0] == [];
    o := Pass;
    var i := 0;
    while i < |items|
      invariant i <= |items|
      invariant ddb.pos == |ddb.data|
      invariant o == Pass && Fold(step, items[..i], p) == Ok(Packed(ddi.data, ddb.data))
    {
      ghost var q := Packed(ddi.data, ddb.data);
      o := CopyArtItemTo(files, singer, items[i], ddi, ddb);
      FoldAdvance(step, items, p, i, q);
      if o.Fail? {
        FoldStops(step, items, p, i + 1);
        return;
      }
      i := i + 1;
    }
    FoldDone(step, items, p);
  }

  /** `for phoneme, sta_items in ddi_data_dict["sta"].items()`: each item in turn; the first failure ends the loop. */
  method CopyStaItemsTo(files: seq<(string, seq<byte>)>, singer: string, items: seq<(string, seq<Sample>)>, ddi: Stream, ddb: Stream)
      returns (o: Outcome)
    requires ddi != ddb
    requires ddb.pos == |ddb.data|
    modifies ddi, ddb
    ensures Did(o, Fold(StaItemStep(files, singer), items, Packed(old(ddi.data), old(ddb.data))), ddi.data, ddb.data)
    ensures ddb.pos == |ddb.data|
  {
    ghost var p := Packed(ddi.data, ddb.data);
    ghost var step := StaItemStep(files, singer);
    assert items[..0] == [];
    o := Pass;
    var i := 0;
    while i < |items|
      invariant i <= |items|
      invariant ddb.pos == |ddb.data|
      invariant o == Pass && Fold(step, items[..i], p) == Ok(Packed(ddi.data, ddb.data))
    {
      ghost var q := Packed(ddi.data, ddb.data);
      o := CopyStaItemTo(files, singer, items[i], ddi, ddb);
      FoldAdvance(step, items, p, i, q);
      if o.Fail? {
        FoldStops(step, items, p, i + 1);
        return;
      }
      i := i + 1;
    }
    FoldDone(step, items, p);
  }

  /** The two loops of `main`, into a ddb that starts empty. */
  method PackDdbTo(files: seq<(string, seq<byte>)>, singer: string, d: DataDict, ddi: Stream, ddb: Stream) returns (o: Outcome)
    requires ddi != ddb
    requires ddb.data == [] && ddb.pos == 0
    modifies ddi, ddb
    ensures Did(o, PackDdb(files, singer, d, old(ddi.data)), ddi.data, ddb.data)
  {
    o := CopyArtItemsTo(files, singer, d.art, ddi, ddb);
    if o.Pass? {
      o := CopyStaItemsTo(files, singer, d.sta, ddi, ddb);
    }
  }

  /**
   * `main` after the paths: the index bytes as a stream, the index read into
   * its model, then the new ddb and the patched index; or the first exception.
   */
  method RepackTo(files: seq<(string, seq<byte>)>, singer: string, ddiBytes: seq<byte>) returns (r: Result<Packed>)
    ensures r == Repack(files, singer, ddiBytes)
  {
    var ddiData := new Stream(ddiBytes);
    var model := new DdiModel.DDIModel(ddiBytes);
    var o := model.Read();
    if o.Fail? {
      return Err(o.error);
    }
    r := RepackFrom(files, singer, ddiData, model.dataDict);
  }

  /** `main` after the index's model is read: the repack of its data dictionary, into a fresh ddb. */
  method RepackFrom(files: seq<(string, seq<byte>)>, singer: string, ddiData: Stream, d: DataDict) returns (r: Result<Packed>)
    modifies ddiData
    ensures r == PackDdb(files, singer, d, old(ddiData.data))
  {
    var ddb := new Stream([]);
    var o := PackDdbTo(files, singer, d, ddiData, ddb);
    if o.Fail? {
      return Err(o.error);
    }
    r := Ok(Packed(ddiData.data, ddb.data));
  }
}
