/**
 * The mixers of mixins_ddb.py. Both copy sound data from a donor voicebank
 * (its ddb file, read through a stream) onto the end of the target's ddb
 * output, rebase every copied offset to where the copy was written, encode the
 * rebased samples as a VQM block (`_create_vqm_stream`, module VqmStream) and
 * splice that block into the target's index:
 *   `mixins_vqm`     copies the donor's growl (VQM) samples;
 *   `mixins_sta2vqm` turns the stationary samples of one donor phoneme into
 *                    growl samples, keeping the first 100 frames of each.
 * When the target has no VQM block yet, the block goes in front of the index's
 * closing footer and the DBV block count is bumped by one; otherwise the old
 * block's byte range is replaced.
 *
 * The output stream is modelled by its bytes and cursor (`Out`); each copy is
 * a `write` at the cursor, and the new offset of a copy is the cursor before it.
 */
module Mixins {
  import opened Wrappers
  import opened Bytes
  import opened Streams
  import opened Text
  import opened Refs
  import opened Dict
  import opened DdiFormat
  import opened VqmStream
  import DdiUtils
  import DdiModel
  import Utf8

  /** `ddi_footer`: the count 5 and the text `voice` that close an index file. */
  const DdiFooter: seq<byte> := [0x05, 0x00, 0x00, 0x00, 0x76, 0x6F, 0x69, 0x63, 0x65]

  const Frm2Tag: seq<byte> := [0x46, 0x52, 0x4D, 0x32]
  const SndTag: seq<byte> := [0x53, 0x4E, 0x44, 0x20]

  /** The message of every exception raised for a donor frame or sound without its tag. */
  const Broken := "Mixins DDB file is broken"

  /** The `unknown1` dump every growl made from a stationary sample carries. */
  const StaUnknown1 := "2c fb b7 5b 72 93 e2 3f 01 00"

  /** A stationary sample becomes a growl only with at least this many frames, and keeps this many. */
  const StaFrames := 100

  /** The DBV block's count field lies this far into the block. */
  const DbvCountOffset := 0x18

  /** `reverse_search`'s window when `stream_reverse_search` is given no limit: 10 MiB. */
  const StreamSearchLimit := 10 * 1024 * 1024

  // ------------------------------------------------------------- byte_replace

  /** `byte_replace`: `src[:offset] + replace + src[offset + override_len:]`, with Python's slice rules. */
  function ByteReplace(src: seq<byte>, offset: int, overrideLen: int, rep: seq<byte>): seq<byte> {
    PySlice(src, 0, offset) + rep + PySlice(src, offset + overrideLen, |src|)
  }

  /**
   * Within bounds, the bytes before `offset` are kept, the replacement sits at
   * `offset`, and the bytes after the overridden range follow it.
   */
  lemma {:induction false} ByteReplaceLayout(src: seq<byte>, offset: int, n: int, rep: seq<byte>)
    requires 0 <= offset && 0 <= n && offset + n <= |src|
    ensures var r := ByteReplace(src, offset, n, rep);
      && |r| == |src| - n + |rep|
      && r[..offset] == src[..offset]
      && r[offset..offset + |rep|] == rep
      && r[offset + |rep|..] == src[offset + n..]
  {
    var r := ByteReplace(src, offset, n, rep);
    assert PySlice(src, 0, offset) == src[..offset];
    assert PySlice(src, offset + n, |src|) == src[offset + n..];
    assert r == src[..offset] + rep + src[offset + n..];
  }

  /** With nothing overridden, the replacement is inserted and nothing else changes. */
  lemma {:induction false} ByteReplaceInserts(src: seq<byte>, offset: int, rep: seq<byte>)
    requires 0 <= offset <= |src|
    ensures ByteReplace(src, offset, 0, rep) == src[..offset] + rep + src[offset..]
  {
    assert PySlice(src, 0, offset) == src[..offset];
    assert PySlice(src, offset, |src|) == src[offset..];
  }

  /** Replacing the new bytes by the overridden ones gives the source back. */
  lemma {:induction false} ByteReplaceUndo(src: seq<byte>, offset: int, n: int, rep: seq<byte>)
    requires 0 <= offset && 0 <= n && offset + n <= |src|
    ensures ByteReplace(ByteReplace(src, offset, n, rep), offset, |rep|, src[offset..offset + n]) == src
  {
    var r := ByteReplace(src, offset, n, rep);
    ByteReplaceLayout(src, offset, n, rep);
    ByteReplaceLayout(r, offset, |rep|, src[offset..offset + n]);
    var u := ByteReplace(r, offset, |rep|, src[offset..offset + n]);
    assert u == r[..offset] + src[offset..offset + n] + r[offset + |rep|..];
    assert src == src[..offset] + src[offset..offset + n] + src[offset + n..];
  }

  /**
   * When `find` misses the footer it gives -1, and the block is spliced in
   * before the last byte of the index rather than at its end.
   */
  lemma {:induction false} ByteReplaceAtMinusOne(src: seq<byte>, rep: seq<byte>)
    requires |src| > 0
    ensures ByteReplace(src, -1, 0, rep) == src[..|src| - 1] + rep + src[|src| - 1..]
  {
    assert PySlice(src, 0, -1) == src[..|src| - 1];
    assert PySlice(src, -1, |src|) == src[|src| - 1..];
  }

  // ------------------------------------------------------------- reading the donor

  /** How a header is compared with its tag: `mixins_vqm` decodes it, `mixins_sta2vqm` compares the bytes. */
  datatype Check = ByText | ByBytes

  /** `hed.decode() != tag` or `hed != tag`, raising `broken` ("Mixins DDB file is broken" here) when they differ. */
  function CheckHeader(hed: seq<byte>, tag: seq<byte>, text: string, check: Check, broken: string := Broken): Outcome {
    match check
    case ByBytes => Need(hed == tag, Raised(broken))
    case ByText =>
      match Utf8.Decode(hed)
      case Err(e) => Fail(e)
      case Ok(s) => Need(s == text, Raised(broken))
  }

  /** Either way, a header passes exactly when it is the tag's bytes. */
  lemma {:induction false} CheckHeaderPasses(hed: seq<byte>, tag: seq<byte>, text: string, check: Check, broken: string := Broken)
    requires Utf8.Encode(text) == tag && Utf8.IsAscii(text)
    ensures CheckHeader(hed, tag, text, check, broken).Pass? <==> hed == tag
  {
    Utf8.DecodeEncode(text);
    if check == ByText && Utf8.Decode(hed) == Ok(text) {
      Utf8.DecodeAscii(hed, text);
    }
  }

  lemma TagsAreText()
    ensures Utf8.Encode("FRM2") == Frm2Tag && Utf8.IsAscii("FRM2")
    ensures Utf8.Encode("SND ") == SndTag && Utf8.IsAscii("SND ")
  {
  }

  /** The 4-byte length that follows a tag at `off`, as `int.from_bytes(read(4))` gives it. */
  function LengthAt(donor: seq<byte>, off: nat): nat {
    Le(Span(donor, off + 4, 4))
  }

  /**
   * One epr frame: seek to it, check `FRM2`, read its length, seek back and
   * read that many bytes (fewer at the end of the file).
   */
  function FrameAt(donor: seq<byte>, off: int, check: Check): Result<seq<byte>> {
    if off < 0 then Err(BadSeek)
    else
      var o := CheckHeader(Span(donor, off, 4), Frm2Tag, "FRM2", check);
      if o.Fail? then Err(o.error)
      else Ok(Span(donor, off, LengthAt(donor, off)))
  }

  /**
   * A frame is copied exactly when its offset holds `FRM2`, and what is copied
   * is the frame's own length of bytes from there, as far as the file goes.
   */
  lemma {:induction false} FrameAtLayout(donor: seq<byte>, off: int, check: Check)
    ensures FrameAt(donor, off, check).Ok? <==> MatchAt(donor, Frm2Tag, off)
    ensures FrameAt(donor, off, check).Ok? ==>
      var f := FrameAt(donor, off, check).value;
      && |f| == Min(LengthAt(donor, off), |donor| - off)
      && f == donor[off..off + |f|]
  {
    if off >= 0 {
      TagsAreText();
      CheckHeaderPasses(Span(donor, off, 4), Frm2Tag, "FRM2", check);
    }
  }

  /**
   * `mixins_vqm`'s sound: seek, check `SND `, read its length, seek back, read
   * that many bytes and check again that they start with `SND `.
   */
  function VqmSoundAt(donor: seq<byte>, off: int): Result<seq<byte>> {
    if off < 0 then Err(BadSeek)
    else
      var o := CheckHeader(Span(donor, off, 4), SndTag, "SND ", ByText);
      if o.Fail? then Err(o.error)
      else
        var b := Span(donor, off, LengthAt(donor, off));
        var o2 := CheckHeader(PySlice(b, 0, 4), SndTag, "SND ", ByText);
        if o2.Fail? then Err(o2.error) else Ok(b)
  }

  /** A growl's sound is copied exactly when its offset holds `SND ` and its length covers the tag. */
  lemma {:induction false} VqmSoundAtLayout(donor: seq<byte>, off: int)
    ensures VqmSoundAt(donor, off).Ok? <==> MatchAt(donor, SndTag, off) && LengthAt(donor, off) >= 4
    ensures VqmSoundAt(donor, off).Ok? ==>
      var b := VqmSoundAt(donor, off).value;
      && |b| == Min(LengthAt(donor, off), |donor| - off)
      && b == donor[off..off + |b|]
  {
    if off >= 0 {
      if MatchAt(donor, SndTag, off) && LengthAt(donor, off) >= 4 {
        VqmSoundAtPasses(donor, off);
      } else {
        VqmSoundAtFails(donor, off);
      }
    }
  }

  /** A well-formed sound passes both checks and is read up to its length. */
  lemma VqmSoundAtPasses(donor: seq<byte>, off: nat)
    requires MatchAt(donor, SndTag, off) && LengthAt(donor, off) >= 4
    ensures off + 4 <= |donor|
    ensures VqmSoundAt(donor, off) == Ok(donor[off..Min(off + LengthAt(donor, off), |donor|)])
  {
    TagsAreText();
    assert |SndTag| == 4 && off + 4 <= |donor|;
    CheckHeaderPasses(Span(donor, off, 4), SndTag, "SND ", ByText);
    var b := Span(donor, off, LengthAt(donor, off));
    CheckHeaderPasses(PySlice(b, 0, 4), SndTag, "SND ", ByText);
    assert b == donor[off..Min(off + LengthAt(donor, off), |donor|)];
    assert PySlice(b, 0, 4) == b[..4];
    assert b[..4] == donor[off..off + 4];
  }

  /** A missing tag or a length below the tag's own fails one of the checks. */
  lemma VqmSoundAtFails(donor: seq<byte>, off: nat)
    requires !(MatchAt(donor, SndTag, off) && LengthAt(donor, off) >= 4)
    ensures VqmSoundAt(donor, off).Err?
  {
    TagsAreText();
    CheckHeaderPasses(Span(donor, off, 4), SndTag, "SND ", ByText);
    var b := Span(donor, off, LengthAt(donor, off));
    CheckHeaderPasses(PySlice(b, 0, 4), SndTag, "SND ", ByText);
    if |b| < 4 {
      assert |PySlice(b, 0, 4)| < 4;
    }
  }

  /**
   * `mixins_sta2vqm`'s sound: the nearest `SND ` tag before the sample's
   * offset (`stream_reverse_search` with its 10 MiB window), a seek there
   * (which fails when nothing was found), the tag check, the length, the read.
   */
  function StaSoundAt(donor: seq<byte>, off: int): Result<seq<byte>> {
    var found := DdiUtils.StreamReverseSearch(donor, SndTag, off, -1);
    if found < 0 then Err(BadSeek)
    else
      var o := CheckHeader(Span(donor, found, 4), SndTag, "SND ", ByBytes);
      if o.Fail? then Err(o.error)
      else Ok(Span(donor, found, LengthAt(donor, found)))
  }

  /**
   * The tag check after the backwards search never fails: the sound is read
   * exactly when the search finds a tag, and it is read from that tag.
   */
  lemma {:induction false} StaSoundAtLayout(donor: seq<byte>, off: int)
    ensures var found := DdiUtils.StreamReverseSearch(donor, SndTag, off, -1);
      && (StaSoundAt(donor, off).Ok? <==> found != -1)
      && (found != -1 ==>
            && MatchAt(donor, SndTag, found)
            && var b := StaSoundAt(donor, off).value;
               b == donor[found..found + |b|] && |b| == Min(LengthAt(donor, found), |donor| - found))
  {
    var found := DdiUtils.StreamReverseSearch(donor, SndTag, off, -1);
    if found != -1 {
      assert |PySlice(donor, found, found + 4)| == 4;
      assert PySlice(donor, found, found + 4) == donor[found..found + 4];
      TagsAreText();
      CheckHeaderPasses(Span(donor, found, 4), SndTag, "SND ", ByBytes);
    }
  }

  // ------------------------------------------------------------- appending to the output

  /** The output ddb: its bytes and its cursor. */
  datatype Out = Out(data: seq<byte>, pos: nat)

  /** `output_stream.write(b)`. */
  function Emit(o: Out, b: seq<byte>): Out {
    Out(Overwrite(o.data, o.pos, b), o.pos + |b|)
  }

  /** The pieces written one after another from `o`. */
  function EmitAll(o: Out, bs: seq<seq<byte>>): Out
    decreases |bs|
  {
    if |bs| == 0 then o else Emit(EmitAll(o, bs[..|bs| - 1]), bs[|bs| - 1])
  }

  /** The pieces joined. */
  function Joined(bs: seq<seq<byte>>): seq<byte>
    decreases |bs|
  {
    if |bs| == 0 then [] else Joined(bs[..|bs| - 1]) + bs[|bs| - 1]
  }

  /** The total length of the pieces. */
  function Lens(bs: seq<seq<byte>>): nat
    decreases |bs|
  {
    if |bs| == 0 then 0 else Lens(bs[..|bs| - 1]) + |bs[|bs| - 1]|
  }

  lemma {:induction false} LensJoined(bs: seq<seq<byte>>)
    ensures Lens(bs) == |Joined(bs)|
    decreases |bs|
  {
    if |bs| > 0 {
      LensJoined(bs[..|bs| - 1]);
    }
  }

  /** Where each piece starts when the pieces are written one after another from `p`. */
  function Offsets(p: nat, bs: seq<seq<byte>>): (r: seq<nat>)
    ensures |r| == |bs|
    decreases |bs|
  {
    if |bs| == 0 then [] else Offsets(p, bs[..|bs| - 1]) + [p + Lens(bs[..|bs| - 1])]
  }

  /** One more piece: written at the cursor, starting where the others end. */
  lemma {:induction false} EmitAllSnoc(o: Out, bs: seq<seq<byte>>, b: seq<byte>)
    ensures EmitAll(o, bs + [b]) == Emit(EmitAll(o, bs), b)
    ensures Joined(bs + [b]) == Joined(bs) + b
    ensures Lens(bs + [b]) == Lens(bs) + |b|
    ensures Offsets(o.pos, bs + [b]) == Offsets(o.pos, bs) + [o.pos + Lens(bs)]
  {
    assert (bs + [b])[..|bs|] == bs;
  }

  /** The cursor moves by the total length written. */
  lemma {:induction false} EmitAllPos(o: Out, bs: seq<seq<byte>>)
    ensures EmitAll(o, bs).pos == o.pos + Lens(bs)
    decreases |bs|
  {
    if |bs| > 0 {
      EmitAllPos(o, bs[..|bs| - 1]);
    }
  }

  /** Writing from the end of the data appends: the pieces land one after another. */
  lemma {:induction false} EmitAllAppends(o: Out, bs: seq<seq<byte>>)
    requires o.pos == |o.data|
    ensures EmitAll(o, bs) == Out(o.data + Joined(bs), o.pos + Lens(bs))
    decreases |bs|
  {
    if |bs| > 0 {
      var init := bs[..|bs| - 1];
      EmitAllAppends(o, init);
      LensJoined(init);
      assert o.data + Joined(init) + bs[|bs| - 1] == o.data + Joined(bs);
    }
  }

  lemma {:induction false} JoinedAppend(a: seq<seq<byte>>, b: seq<seq<byte>>)
    ensures Joined(a + b) == Joined(a) + Joined(b)
    decreases |b|
  {
    if |b| == 0 {
      assert a + b == a;
    } else {
      var b' := b[..|b| - 1];
      assert (a + b)[..|a + b| - 1] == a + b';
      JoinedAppend(a, b');
    }
  }

  /** The `k`-th piece starts after the pieces before it. */
  lemma {:induction false} OffsetsAt(p: nat, bs: seq<seq<byte>>, k: nat)
    requires k < |bs|
    ensures Offsets(p, bs)[k] == p + Lens(bs[..k])
    decreases |bs|
  {
    var init := bs[..|bs| - 1];
    if k < |bs| - 1 {
      OffsetsAt(p, init, k);
      assert init[..k] == bs[..k];
    }
  }

  /** Consecutive pieces are contiguous: each starts where the one before it ends. */
  lemma {:induction false} OffsetsContiguous(p: nat, bs: seq<seq<byte>>, k: nat)
    requires k + 1 < |bs|
    ensures Offsets(p, bs)[0] == p
    ensures Offsets(p, bs)[k + 1] == Offsets(p, bs)[k] + |bs[k]|
  {
    OffsetsAt(p, bs, 0);
    OffsetsAt(p, bs, k);
    OffsetsAt(p, bs, k + 1);
    assert bs[..k + 1][..k] == bs[..k];
  }

  /** In the joined pieces, each piece sits at its offset. */
  lemma {:induction false} JoinedAt(p: nat, bs: seq<seq<byte>>, k: nat)
    requires k < |bs|
    ensures var s := Offsets(p, bs)[k] - p; 0 <= s && s + |bs[k]| <= |Joined(bs)| && Joined(bs)[s..s + |bs[k]|] == bs[k]
  {
    OffsetsAt(p, bs, k);
    LensJoined(bs[..k]);
    assert bs == bs[..k] + [bs[k]] + bs[k + 1..];
    JoinedAppend(bs[..k] + [bs[k]], bs[k + 1..]);
    JoinedAppend(bs[..k], [bs[k]]);
    assert Joined([bs[k]]) == bs[k] by { var one: seq<seq<byte>> := [bs[k]]; assert one[..0] == []; }
  }

  // ------------------------------------------------------------- loops that stop at the first exception

  /** Each item read in order, or the exception of the first read that fails. */
  function ReadAll<X, T>(read: X -> Result<T>, xs: seq<X>): (r: Result<seq<T>>)
    ensures r.Ok? ==> |r.value| == |xs|
    decreases |xs|
  {
    if |xs| == 0 then Ok([])
    else
      var init :- ReadAll(read, xs[..|xs| - 1]);
      var y :- read(xs[|xs| - 1]);
      Ok(init + [y])
  }

  /** Every value read is what its own read gives. */
  lemma {:induction false} ReadAllEach<X, T>(read: X -> Result<T>, xs: seq<X>)
    requires ReadAll(read, xs).Ok?
    ensures forall j :: 0 <= j < |xs| ==> read(xs[j]) == Ok(ReadAll(read, xs).value[j])
    decreases |xs|
  {
    if |xs| > 0 {
      var init := xs[..|xs| - 1];
      ReadAllEach(read, init);
      assert forall j :: 0 <= j < |init| ==> init[j] == xs[j];
    }
  }

  /** One more item: the values so far, then its own. */
  lemma {:induction false} ReadAllStep<X, T>(read: X -> Result<T>, xs: seq<X>, j: nat)
    requires j < |xs|
    ensures ReadAll(read, xs[..j + 1]) ==
      (match ReadAll(read, xs[..j])
       case Err(e) => Err(e)
       case Ok(init) =>
         match read(xs[j])
         case Err(e) => Err(e)
         case Ok(y) => Ok(init + [y]))
  {
    assert xs[..j + 1][..j] == xs[..j];
  }

  /** Once a prefix fails, the whole loop fails the same way. */
  lemma {:induction false} ReadAllPrefix<X, T>(read: X -> Result<T>, xs: seq<X>, n: nat)
    requires n <= |xs| && ReadAll(read, xs[..n]).Err?
    ensures ReadAll(read, xs) == ReadAll(read, xs[..n])
    decreases |xs|
  {
    if n < |xs| {
      var init := xs[..|xs| - 1];
      assert init[..n] == xs[..n];
      ReadAllPrefix(read, init, n);
    } else {
      assert xs[..n] == xs;
    }
  }

  /** The loop fails exactly when some read fails. */
  lemma {:induction false} ReadAllFails<X, T>(read: X -> Result<T>, xs: seq<X>)
    ensures ReadAll(read, xs).Err? <==> exists j :: 0 <= j < |xs| && read(xs[j]).Err?
    decreases |xs|
  {
    if |xs| > 0 {
      var n := |xs| - 1;
      var init := xs[..n];
      ReadAllFails(read, init);
      if exists j :: 0 <= j < |init| && read(init[j]).Err? {
        var j :| 0 <= j < |init| && read(init[j]).Err?;
        assert read(xs[j]).Err?;
      }
      if exists j :: 0 <= j < |xs| && read(xs[j]).Err? {
        var j :| 0 <= j < |xs| && read(xs[j]).Err?;
        if j < n {
          assert read(init[j]).Err?;
        }
      }
    }
  }

  /**
   * A loop that builds one growl sample per item and writes to the output as
   * it goes: `step` is given the item, the number of samples built so far and
   * the output; the loop stops at the first exception.
   */
  function Build<X>(step: (X, nat, Out) -> Result<(Out, VqmMeta)>, xs: seq<X>, o: Out, metas: seq<VqmMeta>)
    : Result<(Out, seq<VqmMeta>)>
    decreases |xs|
  {
    if |xs| == 0 then Ok((o, metas))
    else
      var e :- step(xs[0], |metas|, o);
      Build(step, xs[1..], e.0, metas + [e.1])
  }

  /** The loop's first turn, then the rest. */
  lemma {:induction false} BuildCons<X>(step: (X, nat, Out) -> Result<(Out, VqmMeta)>, x: X, xs: seq<X>, o: Out, metas: seq<VqmMeta>)
    ensures Build(step, [x] + xs, o, metas) ==
      (match step(x, |metas|, o)
       case Err(e) => Err(e)
       case Ok(e) => Build(step, xs, e.0, metas + [e.1]))
  {
    assert ([x] + xs)[0] == x && ([x] + xs)[1..] == xs;
  }

  /**
   * When every sample a step builds has some property of its item and number,
   * the loop appends one sample per item, in order, each with that property.
   */
  lemma {:induction false} BuildMetas<X>(step: (X, nat, Out) -> Result<(Out, VqmMeta)>, prop: (X, nat, VqmMeta) -> bool,
                                         xs: seq<X>, o: Out, metas: seq<VqmMeta>)
    requires forall x, n, o' :: step(x, n, o').Ok? ==> prop(x, n, step(x, n, o').value.1)
    requires Build(step, xs, o, metas).Ok?
    ensures var ms := Build(step, xs, o, metas).value.1;
      && |ms| == |metas| + |xs| && ms[..|metas|] == metas
      && forall i :: 0 <= i < |xs| ==> prop(xs[i], |metas| + i, ms[|metas| + i])
    decreases |xs|
  {
    if |xs| > 0 {
      var e := step(xs[0], |metas|, o).value;
      BuildMetas(step, prop, xs[1..], e.0, metas + [e.1]);
      var ms := Build(step, xs, o, metas).value.1;
      assert ms[..|metas| + 1] == metas + [e.1];
      assert ms[..|metas|] == ms[..|metas| + 1][..|metas|];
      forall i | 0 <= i < |xs|
        ensures prop(xs[i], |metas| + i, ms[|metas| + i])
      {
        if i > 0 {
          assert xs[i] == xs[1..][i - 1];
          assert |metas + [e.1]| + (i - 1) == |metas| + i;
        }
      }
    }
  }

  /** When a step fails exactly on the bad items, the loop fails exactly when some item is bad. */
  lemma {:induction false} BuildFails<X>(step: (X, nat, Out) -> Result<(Out, VqmMeta)>, bad: X -> bool,
                                         xs: seq<X>, o: Out, metas: seq<VqmMeta>)
    requires forall x, n, o' :: step(x, n, o').Err? <==> bad(x)
    ensures Build(step, xs, o, metas).Err? <==> exists i :: 0 <= i < |xs| && bad(xs[i])
    decreases |xs|
  {
    if |xs| > 0 {
      var e := step(xs[0], |metas|, o);
      if e.Ok? {
        BuildFails(step, bad, xs[1..], e.value.0, metas + [e.value.1]);
        if exists i :: 0 <= i < |xs[1..]| && bad(xs[1..][i]) {
          var i :| 0 <= i < |xs[1..]| && bad(xs[1..][i]);
          assert bad(xs[i + 1]);
        }
        if exists i :: 0 <= i < |xs| && bad(xs[i]) {
          var i :| 0 <= i < |xs| && bad(xs[i]);
          assert i > 0 && bad(xs[1..][i - 1]);
        }
      }
    }
  }

  // ------------------------------------------------------------- copying frames

  /** The reader of one epr frame. */
  function FrameReader(donor: seq<byte>, check: Check): Ref -> Result<seq<byte>> {
    (r: Ref) => FrameAt(donor, r.value, check)
  }

  /** The frames at the given epr offsets, read in order, or the exception of the first one that fails. */
  function Frames(donor: seq<byte>, refs: seq<Ref>, check: Check): Result<seq<seq<byte>>> {
    ReadAll(FrameReader(donor, check), refs)
  }

  /**
   * The epr loop: the frames written one after another from the cursor, and
   * for each, where it starts in the output.
   */
  function CopyFrames(donor: seq<byte>, refs: seq<Ref>, check: Check, o: Out): Result<(Out, seq<nat>)> {
    var fs :- Frames(donor, refs, check);
    Ok((EmitAll(o, fs), Offsets(o.pos, fs)))
  }

  /** The epr loop raises exactly when some offset does not hold `FRM2`. */
  lemma {:induction false} FramesFail(donor: seq<byte>, refs: seq<Ref>, check: Check)
    ensures Frames(donor, refs, check).Err? <==> exists j :: 0 <= j < |refs| && !MatchAt(donor, Frm2Tag, refs[j].value)
  {
    ReadAllFails(FrameReader(donor, check), refs);
    forall j | 0 <= j < |refs|
      ensures FrameReader(donor, check)(refs[j]).Err? <==> !MatchAt(donor, Frm2Tag, refs[j].value)
    {
      FrameAtLayout(donor, refs[j].value, check);
    }
  }

  /**
   * What the epr loop writes is each frame read at its offset (its bytes are
   * given by `FrameAtLayout`), the copies back to back from the cursor.
   */
  lemma {:induction false} CopyFramesCopies(donor: seq<byte>, refs: seq<Ref>, check: Check, o: Out, k: nat)
    requires CopyFrames(donor, refs, check, o).Ok? && k < |refs|
    ensures var fs := Frames(donor, refs, check).value;
      && |fs| == |refs| && FrameAt(donor, refs[k].value, check) == Ok(fs[k])
      && CopyFrames(donor, refs, check, o).value.1[k] == o.pos + Lens(fs[..k])
  {
    var fs := Frames(donor, refs, check).value;
    ReadAllEach(FrameReader(donor, check), refs);
    OffsetsAt(o.pos, fs, k);
  }

  // ------------------------------------------------------------- mixins_vqm

  /** One donor growl: its frames, then its sound, then the sample that points at the copies. */
  function VqmEntry(donor: seq<byte>, k: int, v: Vqmp, o: Out): Result<(Out, VqmMeta)> {
    var c :- CopyFrames(donor, v.epr, ByText, o);
    var snd :- VqmSoundAt(donor, v.snd.offset);
    Ok((Emit(c.0, snd),
        VqmMeta(IntToDecimal(k), c.1, v.snd.id, c.0.pos, v.unknown1,
                v.floats.pitch1, v.floats.pitch2, v.floats.unknown2, v.floats.unknown3, v.floats.dynamics)))
  }

  function VqmStep(donor: seq<byte>): ((int, Vqmp), nat, Out) -> Result<(Out, VqmMeta)> {
    (x: (int, Vqmp), n: nat, o: Out) => VqmEntry(donor, x.0, x.1, o)
  }

  /** `for vqm_idx, vqm_info in mixins_ddi_model.vqm_data.items()`. */
  function VqmEntries(donor: seq<byte>, vqm: seq<(int, Vqmp)>, o: Out): Result<(Out, seq<VqmMeta>)> {
    Build(VqmStep(donor), vqm, o, [])
  }

  /** The growl sample built for a donor growl keeps its index, sound id, `unknown1`, floats and frame count. */
  predicate CarriesVqm(k: int, v: Vqmp, m: VqmMeta) {
    && m.idx == IntToDecimal(k) && m.sndId == v.snd.id && |m.epr| == |v.epr| && m.unknown1 == v.unknown1
    && m.pitch1 == v.floats.pitch1 && m.pitch2 == v.floats.pitch2 && m.unknown2 == v.floats.unknown2
    && m.unknown3 == v.floats.unknown3 && m.dynamics == v.floats.dynamics
  }

  /**
   * One growl's frames and sound are copied in order from the cursor: the
   * frames start at the cursor, each after the last, and the sound right after
   * the frames; the sample records those positions.
   */
  lemma {:induction false} VqmEntryCopies(donor: seq<byte>, k: int, v: Vqmp, o: Out)
    requires VqmEntry(donor, k, v, o).Ok?
    ensures Frames(donor, v.epr, ByText).Ok?
    ensures var e := VqmEntry(donor, k, v, o).value;
      var fs := Frames(donor, v.epr, ByText).value;
      && CarriesVqm(k, v, e.1)
      && e.1.epr == Offsets(o.pos, fs)
      && e.1.snd == o.pos + Lens(fs)
      && (o.pos == |o.data| ==> e.0.data == o.data + Joined(fs) + VqmSoundAt(donor, v.snd.offset).value)
  {
    var fs := Frames(donor, v.epr, ByText).value;
    EmitAllPos(o, fs);
    if o.pos == |o.data| {
      VqmEntryAppends(o, fs, VqmSoundAt(donor, v.snd.offset).value);
    }
  }

  /** Frames then a sound, written from the end of the data, are appended in that order. */
  lemma {:induction false} VqmEntryAppends(o: Out, fs: seq<seq<byte>>, snd: seq<byte>)
    requires o.pos == |o.data|
    ensures Emit(EmitAll(o, fs), snd).data == o.data + Joined(fs) + snd
  {
    EmitAllAppends(o, fs);
    LensJoined(fs);
  }

  /** Whether a donor growl cannot be copied: a frame offset without `FRM2`, or a sound without `SND ` and its header. */
  predicate VqmBroken(donor: seq<byte>, v: Vqmp) {
    || (exists j :: 0 <= j < |v.epr| && !MatchAt(donor, Frm2Tag, v.epr[j].value))
    || !(MatchAt(donor, SndTag, v.snd.offset) && LengthAt(donor, v.snd.offset) >= 4)
  }

  lemma {:induction false} VqmEntryFails(donor: seq<byte>, k: int, v: Vqmp, o: Out)
    ensures VqmEntry(donor, k, v, o).Err? <==> VqmBroken(donor, v)
  {
    FramesFail(donor, v.epr, ByText);
    VqmSoundAtLayout(donor, v.snd.offset);
  }

  /** Each growl sample built carries the fields of the donor growl at the same place. */
  predicate AllCarryVqm(vqm: seq<(int, Vqmp)>, ms: seq<VqmMeta>) {
    |ms| == |vqm| && forall i :: 0 <= i < |vqm| ==> CarriesVqm(vqm[i].0, vqm[i].1, ms[i])
  }

  /** The growl loop builds one sample per donor growl, in order, each carrying its donor's fields. */
  lemma {:induction false} VqmEntriesMetas(donor: seq<byte>, vqm: seq<(int, Vqmp)>, o: Out)
    requires VqmEntries(donor, vqm, o).Ok?
    ensures AllCarryVqm(vqm, VqmEntries(donor, vqm, o).value.1)
  {
    var step := VqmStep(donor);
    var prop := (x: (int, Vqmp), n: nat, m: VqmMeta) => CarriesVqm(x.0, x.1, m);
    forall x, n, o' | step(x, n, o').Ok?
      ensures prop(x, n, step(x, n, o').value.1)
    {
      VqmEntryCopies(donor, x.0, x.1, o');
    }
    BuildMetas(step, prop, vqm, o, []);
  }

  /** The growl loop raises exactly when some donor growl cannot be copied. */
  lemma {:induction false} VqmEntriesFail(donor: seq<byte>, vqm: seq<(int, Vqmp)>, o: Out)
    ensures VqmEntries(donor, vqm, o).Err? <==> exists i :: 0 <= i < |vqm| && VqmBroken(donor, vqm[i].1)
  {
    var step := VqmStep(donor);
    var bad := (x: (int, Vqmp)) => VqmBroken(donor, x.1);
    forall x, n, o'
      ensures step(x, n, o').Err? <==> bad(x)
    {
      VqmEntryFails(donor, x.0, x.1, o');
    }
    BuildFails(step, bad, vqm, o, []);
  }

  // ------------------------------------------------------------- mixins_sta2vqm

  /** The first stationary unit, in index order, whose phoneme is the one asked for. */
  function FindStau(sta: seq<(nat, Stau)>, phoneme: string): (r: Option<Stau>)
    ensures r.None? <==> forall i :: 0 <= i < |sta| ==> sta[i].1.phoneme != phoneme
    ensures r.Some? ==> r.value.phoneme == phoneme
  {
    if |sta| == 0 then None
    else if sta[0].1.phoneme == phoneme then Some(sta[0].1)
    else
      var r := FindStau(sta[1..], phoneme);
      assert forall i :: 1 <= i < |sta| ==> sta[i] == sta[1..][i - 1];
      r
  }

  /** The unit found is the first with that phoneme. */
  lemma {:induction false} FindStauFirst(sta: seq<(nat, Stau)>, phoneme: string) returns (i: nat)
    requires FindStau(sta, phoneme).Some?
    ensures i < |sta| && sta[i].1 == FindStau(sta, phoneme).value
    ensures forall j :: 0 <= j < i ==> sta[j].1.phoneme != phoneme
  {
    if sta[0].1.phoneme == phoneme {
      i := 0;
    } else {
      var i' := FindStauFirst(sta[1..], phoneme);
      i := i' + 1;
      assert sta[i] == sta[1..][i'];
      forall j | 0 <= j < i
        ensures sta[j].1.phoneme != phoneme
      {
        if j > 0 {
          assert sta[j] == sta[1..][j - 1];
        }
      }
    }
  }

  /** `epr_list[0:100]`. */
  function FirstFrames(st: Stap): (r: seq<Ref>)
    ensures |r| == Min(StaFrames, |st.epr|) && r == st.epr[..|r|]
  {
    st.epr[..Min(StaFrames, |st.epr|)]
  }

  /** One stationary sample: its first 100 frames, its sound, and the growl numbered `n` built from them. */
  function StaEntry(donor: seq<byte>, st: Stap, n: nat, o: Out): Result<(Out, VqmMeta)> {
    var c :- CopyFrames(donor, FirstFrames(st), ByBytes, o);
    var snd :- StaSoundAt(donor, st.snd.offset);
    Ok((Emit(c.0, snd),
        VqmMeta(IntToDecimal(n), c.1, st.snd.id, c.0.pos, StaUnknown1,
                st.floats.pitch1, st.floats.pitch2, st.floats.unknown2, st.floats.unknown3, st.floats.dynamics)))
  }

  function StaStep(donor: seq<byte>): (Stap, nat, Out) -> Result<(Out, VqmMeta)> {
    (st: Stap, n: nat, o: Out) => StaEntry(donor, st, n, o)
  }

  /** The samples the stap loop keeps, in order: those with at least 100 frames. */
  function Kept(staps: seq<(string, Stap)>): (r: seq<Stap>)
    ensures forall i :: 0 <= i < |r| ==> |r[i].epr| >= StaFrames
  {
    if |staps| == 0 then []
    else if |staps[0].1.epr| < StaFrames then Kept(staps[1..])
    else [staps[0].1] + Kept(staps[1..])
  }

  /** The stap loop: samples with fewer than 100 frames are passed over, the rest become growls numbered from 0. */
  function StaEntries(donor: seq<byte>, staps: seq<(string, Stap)>, o: Out): Result<(Out, seq<VqmMeta>)> {
    Build(StaStep(donor), Kept(staps), o, [])
  }

  /** A growl made from a stationary sample, numbered `n`. */
  predicate CarriesSta(n: nat, st: Stap, m: VqmMeta) {
    && m.idx == IntToDecimal(n) && m.sndId == st.snd.id && |m.epr| == Min(StaFrames, |st.epr|) && m.unknown1 == StaUnknown1
    && m.pitch1 == st.floats.pitch1 && m.pitch2 == st.floats.pitch2 && m.unknown2 == st.floats.unknown2
    && m.unknown3 == st.floats.unknown3 && m.dynamics == st.floats.dynamics
  }

  lemma {:induction false} StaEntryCarries(donor: seq<byte>, st: Stap, n: nat, o: Out)
    requires StaEntry(donor, st, n, o).Ok?
    ensures CarriesSta(n, st, StaEntry(donor, st, n, o).value.1)
  {
  }

  /**
   * The stap loop builds one growl per kept sample, in order, numbered 0, 1,
   * 2, ..., each with exactly 100 frames.
   */
  lemma {:induction false} StaEntriesMetas(donor: seq<byte>, staps: seq<(string, Stap)>, o: Out)
    requires StaEntries(donor, staps, o).Ok?
    ensures var ms := StaEntries(donor, staps, o).value.1; var kept := Kept(staps);
      && |ms| == |kept|
      && forall i :: 0 <= i < |kept| ==> CarriesSta(i, kept[i], ms[i]) && |ms[i].epr| == StaFrames
  {
    var step := StaStep(donor);
    var prop := (st: Stap, n: nat, m: VqmMeta) => CarriesSta(n, st, m);
    forall st, n, o' | step(st, n, o').Ok?
      ensures prop(st, n, step(st, n, o').value.1)
    {
      StaEntryCarries(donor, st, n, o');
    }
    BuildMetas(step, prop, Kept(staps), o, []);
  }

  /** Whether a stationary sample cannot be copied: one of its first 100 frames lacks `FRM2`, or no `SND ` precedes its sound. */
  predicate StaBroken(donor: seq<byte>, st: Stap) {
    || (exists j :: 0 <= j < StaFrames && j < |st.epr| && !MatchAt(donor, Frm2Tag, st.epr[j].value))
    || DdiUtils.StreamReverseSearch(donor, SndTag, st.snd.offset, -1) == -1
  }

  lemma {:induction false} StaEntryFails(donor: seq<byte>, st: Stap, n: nat, o: Out)
    ensures StaEntry(donor, st, n, o).Err? <==> StaBroken(donor, st)
  {
    var refs := FirstFrames(st);
    FramesFail(donor, refs, ByBytes);
    StaSoundAtLayout(donor, st.snd.offset);
    assert forall j :: 0 <= j < |refs| ==> refs[j] == st.epr[j];
  }

  /** Whether some of the samples cannot be copied. */
  predicate AnyStaBroken(donor: seq<byte>, kept: seq<Stap>) {
    exists i :: 0 <= i < |kept| && StaBroken(donor, kept[i])
  }

  /** The stap loop raises exactly when some kept sample cannot be copied; the samples passed over never matter. */
  lemma {:induction false} StaEntriesFail(donor: seq<byte>, staps: seq<(string, Stap)>, o: Out)
    ensures StaEntries(donor, staps, o).Err? <==> AnyStaBroken(donor, Kept(staps))
  {
    var kept := Kept(staps);
    StaBuildFails(donor, kept, o);
    assert StaEntries(donor, staps, o) == Build(StaStep(donor), kept, o, []);
  }

  lemma {:induction false} StaBuildFails(donor: seq<byte>, kept: seq<Stap>, o: Out)
    ensures Build(StaStep(donor), kept, o, []).Err? <==> AnyStaBroken(donor, kept)
  {
    var step := StaStep(donor);
    var bad := (st: Stap) => StaBroken(donor, st);
    forall st, n, o'
      ensures step(st, n, o').Err? <==> bad(st)
    {
      StaEntryFails(donor, st, n, o');
    }
    BuildFails(step, bad, kept, o, []);
  }

  // ------------------------------------------------------------- the index splice

  /** The DBV count bumped by one, written back as 4 little-endian bytes (which overflows at 2^32). */
  function BumpDbv(ddi: seq<byte>, dbvAt: nat): Result<seq<byte>> {
    var at := dbvAt + DbvCountOffset;
    var b :- ToLe(Le(Span(ddi, at, 4)) + 1, 4);
    Ok(Overwrite(ddi, at, b))
  }

  /**
   * Inside the index, the bump adds exactly one to the 4-byte count and changes
   * no other byte; it fails only when the count is already 2^32 - 1.
   */
  lemma {:induction false} BumpDbvCounts(ddi: seq<byte>, dbvAt: nat)
    requires dbvAt + DbvCountOffset + 4 <= |ddi|
    ensures var at := dbvAt + DbvCountOffset;
      && (BumpDbv(ddi, dbvAt).Err? <==> Le(ddi[at..at + 4]) == 0xFFFF_FFFF)
      && (BumpDbv(ddi, dbvAt).Ok? ==>
            var r := BumpDbv(ddi, dbvAt).value;
            && |r| == |ddi| && Le(r[at..at + 4]) == Le(ddi[at..at + 4]) + 1
            && forall i :: 0 <= i < |ddi| && (i < at || i >= at + 4) ==> r[i] == ddi[i])
  {
    var at := dbvAt + DbvCountOffset;
    LeBound(ddi[at..at + 4]);
    assert Pow256(4) == 0x1_0000_0000;
  }

  /**
   * The new block replaces the old block's range when the target has one;
   * otherwise it goes where `find` puts the footer, after the DBV bump.
   */
  function Splice(ddi: seq<byte>, x: Index, block: seq<byte>): Result<seq<byte>> {
    if x.vqm.Some? then
      var range := x.vqm.value.1;
      Ok(ByteReplace(ddi, range.0, range.1 as int - range.0, block))
    else
      var at := Find(ddi, DdiFooter);
      var bumped :- BumpDbv(ddi, x.dbv.0);
      Ok(ByteReplace(bumped, at, 0, block))
  }

  /** With a VQM block in the target, the old range gives way to the new block and nothing else changes. */
  lemma {:induction false} SpliceReplaces(ddi: seq<byte>, x: Index, block: seq<byte>)
    requires x.vqm.Some? && x.vqm.value.1.0 <= x.vqm.value.1.1 <= |ddi|
    ensures var (start, end) := x.vqm.value.1;
      Splice(ddi, x, block) == Ok(ddi[..start] + block + ddi[end..])
  {
    var (start, end) := x.vqm.value.1;
    assert PySlice(ddi, 0, start) == ddi[..start];
    assert PySlice(ddi, end, |ddi|) == ddi[end..];
  }

  /**
   * Without one, the block is inserted in front of the footer, and the only
   * other change is the DBV count, one higher.
   */
  lemma {:induction false} SpliceInserts(ddi: seq<byte>, x: Index, block: seq<byte>)
    requires x.vqm.None? && Find(ddi, DdiFooter) != -1
    requires x.dbv.0 + DbvCountOffset + 4 <= |ddi| && BumpDbv(ddi, x.dbv.0).Ok?
    ensures var at := Find(ddi, DdiFooter); var bumped := BumpDbv(ddi, x.dbv.0).value;
      && 0 <= at && |bumped| == |ddi|
      && Splice(ddi, x, block) == Ok(bumped[..at] + block + bumped[at..])
  {
    var at := Find(ddi, DdiFooter);
    var bumped := BumpDbv(ddi, x.dbv.0).value;
    BumpDbvCounts(ddi, x.dbv.0);
    ByteReplaceInserts(bumped, at, block);
  }

  /** The new index: the samples encoded as a VQM block and spliced in. */
  function NewIndex(ddi: seq<byte>, x: Index, metas: seq<VqmMeta>): Result<seq<byte>> {
    var block :- VqmStreamBytes(metas);
    Splice(ddi, x, block)
  }

  // ------------------------------------------------------------- the prompt
  // `choice` is the answer as `input().strip().lower()` returns it: already
  // trimmed and lower-cased.

  /**
   * `choice != "y" or choice != ""` as written: the test that stops a mixer
   * when the target already has a VQM block. No answer passes it.
   */
  predicate StopsAsWritten(choice: string) {
    choice != "y" || choice != ""
  }

  /** Even the two answers the prompt `(Y/n)` offers for going on stop the mixer as written. */
  lemma StopsAsWrittenAlways(choice: string)
    ensures StopsAsWritten(choice)
    ensures StopsAsWritten("y") && StopsAsWritten("")
  {
  }

  /** The test as evidently intended: stop unless the answer is `y` or empty (the default). */
  predicate Stops(choice: string) {
    choice != "y" && choice != ""
  }

  lemma StopsOnlyOnNo(choice: string)
    ensures Stops(choice) <==> !(choice == "y" || choice == "")
    ensures !Stops("y") && !Stops("") && Stops("n")
  {
  }

  /**
   * Which of the two tests a mixer applies at the prompt: the program's own
   * (`StopsAsWritten`) or the evidently intended one (`Stops`).
   */
  datatype PromptTest = AsWritten | Intended

  predicate Halts(test: PromptTest, choice: string) {
    if test.AsWritten? then StopsAsWritten(choice) else Stops(choice)
  }

  // ------------------------------------------------------------- the mixers

  /**
   * `mixins_vqm`: the result is `None` when the mixer stops at the prompt, the
   * new index otherwise; with it, the output ddb after the copies. `choice` is
   * the answer as the program reads it, `input().strip().lower()`, and `test`
   * the stop test applied to it.
   */
  function MixVqm(srcDdi: seq<byte>, mixVqm: Option<seq<(int, Vqmp)>>, donor: seq<byte>, o: Out, choice: string, test: PromptTest)
    : Result<(Option<seq<byte>>, Out)>
  {
    if mixVqm.None? then Err(Raised("Mixins DDI doesn't have vqm stream."))
    else
      var x :- DecodeIndex(srcDdi);
      MixVqmFrom(srcDdi, x, mixVqm.value, donor, o, choice, test)
  }

  /** `mixins_vqm` once the target's index `x` is read. */
  function MixVqmFrom(srcDdi: seq<byte>, x: Index, vqm: seq<(int, Vqmp)>, donor: seq<byte>, o: Out, choice: string, test: PromptTest)
    : Result<(Option<seq<byte>>, Out)>
  {
    if x.vqm.Some? && Halts(test, choice) then Ok((None, o))
    else
      var e :- VqmEntries(donor, vqm, o);
      var dst :- NewIndex(srcDdi, x, e.1);
      Ok((Some(dst), e.0))
  }

  /** `mixins_sta2vqm`, with the same results. */
  function MixSta2Vqm(srcDdi: seq<byte>, mixSta: seq<(nat, Stau)>, donor: seq<byte>, o: Out, choice: string, test: PromptTest, phoneme: string)
    : Result<(Option<seq<byte>>, Out)>
  {
    var x :- DecodeIndex(srcDdi);
    MixSta2VqmFrom(srcDdi, x, mixSta, donor, o, choice, test, phoneme)
  }

  /** `mixins_sta2vqm` once the target's index `x` is read. */
  function MixSta2VqmFrom(srcDdi: seq<byte>, x: Index, mixSta: seq<(nat, Stau)>, donor: seq<byte>, o: Out, choice: string, test: PromptTest, phoneme: string)
    : Result<(Option<seq<byte>>, Out)>
  {
    if x.vqm.Some? && Halts(test, choice) then Ok((None, o))
    else
      match FindStau(mixSta, phoneme)
      case None => Err(Raised("Mixins DDI doesn't have stationary entry for phoneme \"" + phoneme + "\""))
      case Some(stau) =>
        var e :- StaEntries(donor, stau.staps, o);
        var dst :- NewIndex(srcDdi, x, e.1);
        Ok((Some(dst), e.0))
  }

  /**
   * Once the mixer goes on past the prompt, `mixins_vqm` hands the encoder one
   * sample per donor growl, each keeping its donor's fields, and raises
   * whenever some donor growl is broken.
   */
  lemma {:induction false} MixVqmSamples(srcDdi: seq<byte>, x: Index, vqm: seq<(int, Vqmp)>, donor: seq<byte>, o: Out, choice: string, test: PromptTest)
    requires !(x.vqm.Some? && Halts(test, choice))
    ensures (exists i :: 0 <= i < |vqm| && VqmBroken(donor, vqm[i].1)) ==> MixVqmFrom(srcDdi, x, vqm, donor, o, choice, test).Err?
    ensures VqmEntries(donor, vqm, o).Ok? ==>
      && MixVqmFrom(srcDdi, x, vqm, donor, o, choice, test)
         == (var e := VqmEntries(donor, vqm, o).value;
             match NewIndex(srcDdi, x, e.1)
             case Err(err) => Err(err)
             case Ok(dst) => Ok((Some(dst), e.0)))
      && AllCarryVqm(vqm, VqmEntries(donor, vqm, o).value.1)
  {
    VqmEntriesFail(donor, vqm, o);
    if VqmEntries(donor, vqm, o).Ok? {
      VqmEntriesMetas(donor, vqm, o);
    }
  }

  /**
   * With the target already holding a VQM block, `mixins_vqm` stops at the
   * prompt exactly when the test it applies says so: under the intended test
   * when the answer is neither `y` nor empty (StopsOnlyOnNo).
   */
  lemma {:induction false} VqmStopsAtPrompt(srcDdi: seq<byte>, x: Index, vqm: seq<(int, Vqmp)>, donor: seq<byte>, o: Out, choice: string, test: PromptTest)
    requires x.vqm.Some?
    ensures MixVqmFrom(srcDdi, x, vqm, donor, o, choice, test) == Ok((None, o)) <==> Halts(test, choice)
  {
  }

  /** The same prompt stops `mixins_sta2vqm`, before it looks for the phoneme. */
  lemma {:induction false} StaStopsAtPrompt(srcDdi: seq<byte>, x: Index, mixSta: seq<(nat, Stau)>, donor: seq<byte>,
                                            o: Out, choice: string, test: PromptTest, phoneme: string)
    requires x.vqm.Some?
    ensures MixSta2VqmFrom(srcDdi, x, mixSta, donor, o, choice, test, phoneme) == Ok((None, o)) <==> Halts(test, choice)
  {
  }

  /**
   * As written, a target that already holds a VQM block stops both mixers at
   * the prompt whatever the answer: neither copies a sample nor builds an index.
   */
  lemma {:induction false} AsWrittenMixersAlwaysStop(srcDdi: seq<byte>, x: Index, vqm: seq<(int, Vqmp)>, mixSta: seq<(nat, Stau)>,
                                                     donor: seq<byte>, o: Out, choice: string, phoneme: string)
    requires x.vqm.Some?
    ensures MixVqmFrom(srcDdi, x, vqm, donor, o, choice, AsWritten) == Ok((None, o))
    ensures MixSta2VqmFrom(srcDdi, x, mixSta, donor, o, choice, AsWritten, phoneme) == Ok((None, o))
  {
    StopsAsWrittenAlways(choice);
  }

  /**
   * Past the prompt, `mixins_sta2vqm` raises when no unit has the phoneme asked
   * for; otherwise it takes the first unit that has it, raises whenever some
   * kept sample is broken, and hands the encoder one growl per kept sample,
   * numbered from 0.
   */
  lemma {:induction false} MixStaSamples(srcDdi: seq<byte>, x: Index, mixSta: seq<(nat, Stau)>, donor: seq<byte>, o: Out, choice: string, test: PromptTest, phoneme: string)
    requires !(x.vqm.Some? && Halts(test, choice))
    ensures FindStau(mixSta, phoneme).None? ==> MixSta2VqmFrom(srcDdi, x, mixSta, donor, o, choice, test, phoneme)
                                                == Err(Raised("Mixins DDI doesn't have stationary entry for phoneme \"" + phoneme + "\""))
    ensures FindStau(mixSta, phoneme).Some? ==>
      var stau := FindStau(mixSta, phoneme).value;
      && (AnyStaBroken(donor, Kept(stau.staps)) ==> MixSta2VqmFrom(srcDdi, x, mixSta, donor, o, choice, test, phoneme).Err?)
      && (StaEntries(donor, stau.staps, o).Ok? ==>
            var ms := StaEntries(donor, stau.staps, o).value.1;
            && |ms| == |Kept(stau.staps)|
            && forall i :: 0 <= i < |ms| ==> CarriesSta(i, Kept(stau.staps)[i], ms[i]) && |ms[i].epr| == StaFrames)
  {
    if FindStau(mixSta, phoneme).Some? {
      var stau := FindStau(mixSta, phoneme).value;
      StaEntriesFail(donor, stau.staps, o);
      if StaEntries(donor, stau.staps, o).Ok? {
        StaEntriesMetas(donor, stau.staps, o);
      }
    }
  }

  // ------------------------------------------------------------- the same, on streams

  /** The output stream agrees with a loop's description: the same exception, or the same result with the stream where it says. */
  predicate Copied<T(==)>(r: Result<T>, spec: Result<(Out, T)>, out: Stream)
    reads out
  {
    match spec
    case Err(e) => r == Err(e)
    case Ok(v) => r == Ok(v.1) && out.data == v.0.data && out.pos == v.0.pos
  }

  /** One frame read from the donor stream. */
  method CopyFrame(donor: Stream, off: int, check: Check) returns (r: Result<seq<byte>>)
    modifies donor
    ensures donor.data == old(donor.data)
    ensures r == FrameAt(old(donor.data), off, check)
  {
    var s := donor.Seek(off);
    if s.Fail? {
      return Err(s.error);
    }
    var hed := donor.Read(4);
    var o := CheckHeader(hed, Frm2Tag, "FRM2", check);
    if o.Fail? {
      return Err(o.error);
    }
    var len := donor.Read(4);
    s := donor.Seek(off);
    var frame := donor.Read(Le(len));
    r := Ok(frame);
  }

  /** After `j` offsets, the epr loop has read `fs` and written them from `o0`, `offs` recording where. */
  ghost predicate FramesSoFar(donor: seq<byte>, refs: seq<Ref>, check: Check, o0: Out, j: nat, fs: seq<seq<byte>>, o: Out, offs: seq<nat>) {
    j <= |refs| && ReadAll(FrameReader(donor, check), refs[..j]) == Ok(fs) && o == EmitAll(o0, fs) && offs == Offsets(o0.pos, fs)
  }

  lemma {:induction false} FramesSoFarStep(donor: seq<byte>, refs: seq<Ref>, check: Check, o0: Out, j: nat, fs: seq<seq<byte>>, o: Out,
                                           offs: seq<nat>, f: seq<byte>)
    requires FramesSoFar(donor, refs, check, o0, j, fs, o, offs) && j < |refs| && FrameAt(donor, refs[j].value, check) == Ok(f)
    ensures FramesSoFar(donor, refs, check, o0, j + 1, fs + [f], Emit(o, f), offs + [o.pos])
  {
    var rd := FrameReader(donor, check);
    assert rd(refs[j]) == Ok(f);
    ReadAllStep(rd, refs, j);
    assert ReadAll(rd, refs[..j + 1]) == Ok(fs + [f]);
    EmitAllSnoc(o0, fs, f);
    EmitAllPos(o0, fs);
    assert Emit(o, f) == EmitAll(o0, fs + [f]);
    OffsetsStep(Offsets(o0.pos, fs + [f]), Offsets(o0.pos, fs), offs, o0.pos + Lens(fs), o.pos);
  }

  lemma OffsetsStep(a: seq<nat>, b: seq<nat>, offs: seq<nat>, c: nat, p: nat)
    requires a == b + [c] && offs == b && p == c
    ensures a == offs + [p]
  {
  }

  lemma {:induction false} FramesSoFarFail(donor: seq<byte>, refs: seq<Ref>, check: Check, o0: Out, j: nat, fs: seq<seq<byte>>, o: Out,
                                           offs: seq<nat>)
    requires FramesSoFar(donor, refs, check, o0, j, fs, o, offs) && j < |refs| && FrameAt(donor, refs[j].value, check).Err?
    ensures CopyFrames(donor, refs, check, o0) == Err(FrameAt(donor, refs[j].value, check).error)
  {
    ReadAllStep(FrameReader(donor, check), refs, j);
    ReadAllPrefix(FrameReader(donor, check), refs, j + 1);
  }

  lemma {:induction false} FramesSoFarDone(donor: seq<byte>, refs: seq<Ref>, check: Check, o0: Out, fs: seq<seq<byte>>, o: Out, offs: seq<nat>)
    requires FramesSoFar(donor, refs, check, o0, |refs|, fs, o, offs)
    ensures CopyFrames(donor, refs, check, o0) == Ok((o, offs))
  {
    assert refs[..|refs|] == refs;
  }

  /** The epr loop, writing each frame to the output at its cursor. */
  method CopyFramesTo(donor: Stream, out: Stream, refs: seq<Ref>, check: Check) returns (r: Result<seq<nat>>)
    requires donor != out
    modifies donor, out
    ensures donor.data == old(donor.data)
    ensures Copied(r, CopyFrames(old(donor.data), refs, check, Out(old(out.data), old(out.pos))), out)
  {
    ghost var buf := donor.data;
    ghost var o0 := Out(out.data, out.pos);
    ghost var fs: seq<seq<byte>> := [];
    var offs: seq<nat> := [];
    var j := 0;
    assert refs[..0] == [];
    while j < |refs|
      invariant donor.data == buf && FramesSoFar(buf, refs, check, o0, j, fs, Out(out.data, out.pos), offs)
    {
      var at := out.Tell();
      var f := CopyFrame(donor, refs[j].value, check);
      if f.Err? {
        FramesSoFarFail(buf, refs, check, o0, j, fs, Out(out.data, out.pos), offs);
        return Err(f.error);
      }
      FramesSoFarStep(buf, refs, check, o0, j, fs, Out(out.data, out.pos), offs, f.value);
      out.Write(f.value);
      offs := offs + [at];
      fs := fs + [f.value];
      j := j + 1;
    }
    FramesSoFarDone(buf, refs, check, o0, fs, Out(out.data, out.pos), offs);
    r := Ok(offs);
  }

  /** `mixins_vqm`'s sound read from the donor stream. */
  method CopyVqmSound(donor: Stream, off: int) returns (r: Result<seq<byte>>)
    modifies donor
    ensures donor.data == old(donor.data)
    ensures r == VqmSoundAt(old(donor.data), off)
  {
    var s := donor.Seek(off);
    if s.Fail? {
      return Err(s.error);
    }
    var hed := donor.Read(4);
    var o := CheckHeader(hed, SndTag, "SND ", ByText);
    if o.Fail? {
      return Err(o.error);
    }
    var len := donor.Read(4);
    s := donor.Seek(off);
    var b := donor.Read(Le(len));
    o := CheckHeader(PySlice(b, 0, 4), SndTag, "SND ", ByText);
    if o.Fail? {
      return Err(o.error);
    }
    r := Ok(b);
  }

  /** `mixins_sta2vqm`'s sound: the backwards search, then the read from the tag found. */
  method CopyStaSound(donor: Stream, off: int) returns (r: Result<seq<byte>>)
    modifies donor
    ensures donor.data == old(donor.data)
    ensures r == StaSoundAt(old(donor.data), off)
  {
    var found := DdiUtils.ReverseSearchLoop(donor.data, SndTag, off, StreamSearchLimit);
    var s := donor.Seek(found);
    if s.Fail? {
      return Err(s.error);
    }
    var hed := donor.Read(4);
    var o := CheckHeader(hed, SndTag, "SND ", ByBytes);
    if o.Fail? {
      return Err(o.error);
    }
    var len := donor.Read(4);
    s := donor.Seek(found);
    var b := donor.Read(Le(len));
    r := Ok(b);
  }

  /** One donor growl copied to the output. */
  method MixVqmEntry(donor: Stream, out: Stream, k: int, v: Vqmp) returns (r: Result<VqmMeta>)
    requires donor != out
    modifies donor, out
    ensures donor.data == old(donor.data)
    ensures Copied(r, VqmEntry(old(donor.data), k, v, Out(old(out.data), old(out.pos))), out)
  {
    var eprs := CopyFramesTo(donor, out, v.epr, ByText);
    if eprs.Err? {
      return Err(eprs.error);
    }
    var snd := CopyVqmSound(donor, v.snd.offset);
    if snd.Err? {
      return Err(snd.error);
    }
    var at := out.Tell();
    out.Write(snd.value);
    r := Ok(VqmMeta(IntToDecimal(k), eprs.value, v.snd.id, at, v.unknown1,
                    v.floats.pitch1, v.floats.pitch2, v.floats.unknown2, v.floats.unknown3, v.floats.dynamics));
  }

  /** The growl loop of `mixins_vqm`. */
  method MixVqmEntries(donor: Stream, out: Stream, vqm: seq<(int, Vqmp)>) returns (r: Result<seq<VqmMeta>>)
    requires donor != out
    modifies donor, out
    ensures donor.data == old(donor.data)
    ensures Copied(r, VqmEntries(old(donor.data), vqm, Out(old(out.data), old(out.pos))), out)
  {
    ghost var buf := donor.data;
    ghost var step := VqmStep(buf);
    ghost var o0 := Out(out.data, out.pos);
    var metas: seq<VqmMeta> := [];
    var i := 0;
    while i < |vqm|
      invariant 0 <= i <= |vqm| && donor.data == buf
      invariant Build(step, vqm, o0, []) == Build(step, vqm[i..], Out(out.data, out.pos), metas)
    {
      assert vqm[i..] == [vqm[i]] + vqm[i + 1..];
      BuildCons(step, vqm[i], vqm[i + 1..], Out(out.data, out.pos), metas);
      var m := MixVqmEntry(donor, out, vqm[i].0, vqm[i].1);
      if m.Err? {
        return Err(m.error);
      }
      metas := metas + [m.value];
      i := i + 1;
    }
    r := Ok(metas);
  }

  /** One kept stationary sample copied to the output as the growl numbered `n`. */
  method MixStaEntry(donor: Stream, out: Stream, st: Stap, n: nat) returns (r: Result<VqmMeta>)
    requires donor != out
    modifies donor, out
    ensures donor.data == old(donor.data)
    ensures Copied(r, StaEntry(old(donor.data), st, n, Out(old(out.data), old(out.pos))), out)
  {
    var eprs := CopyFramesTo(donor, out, FirstFrames(st), ByBytes);
    if eprs.Err? {
      return Err(eprs.error);
    }
    var snd := CopyStaSound(donor, st.snd.offset);
    if snd.Err? {
      return Err(snd.error);
    }
    var at := out.Tell();
    out.Write(snd.value);
    r := Ok(VqmMeta(IntToDecimal(n), eprs.value, st.snd.id, at, StaUnknown1,
                    st.floats.pitch1, st.floats.pitch2, st.floats.unknown2, st.floats.unknown3, st.floats.dynamics));
  }

  /** Passing over a short sample keeps nothing; a long one is kept first. */
  lemma {:induction false} KeptStep(staps: seq<(string, Stap)>, i: nat)
    requires i < |staps|
    ensures |staps[i].1.epr| < StaFrames ==> Kept(staps[i..]) == Kept(staps[i + 1..])
    ensures |staps[i].1.epr| >= StaFrames ==> Kept(staps[i..]) == [staps[i].1] + Kept(staps[i + 1..])
  {
    assert staps[i..][0] == staps[i] && staps[i..][1..] == staps[i + 1..];
  }

  /** The stap loop of `mixins_sta2vqm`, with its counter `vqm_idx`. */
  method MixStaEntries(donor: Stream, out: Stream, staps: seq<(string, Stap)>) returns (r: Result<seq<VqmMeta>>)
    requires donor != out
    modifies donor, out
    ensures donor.data == old(donor.data)
    ensures Copied(r, StaEntries(old(donor.data), staps, Out(old(out.data), old(out.pos))), out)
  {
    ghost var buf := donor.data;
    ghost var step := StaStep(buf);
    ghost var o0 := Out(out.data, out.pos);
    var metas: seq<VqmMeta> := [];
    var vqmIdx := 0;
    var i := 0;
    while i < |staps|
      invariant 0 <= i <= |staps| && donor.data == buf && vqmIdx == |metas|
      invariant Build(step, Kept(staps), o0, []) == Build(step, Kept(staps[i..]), Out(out.data, out.pos), metas)
    {
      KeptStep(staps, i);
      if |staps[i].1.epr| < StaFrames {
        i := i + 1;
        continue;
      }
      BuildCons(step, staps[i].1, Kept(staps[i + 1..]), Out(out.data, out.pos), metas);
      var m := MixStaEntry(donor, out, staps[i].1, vqmIdx);
      if m.Err? {
        return Err(m.error);
      }
      metas := metas + [m.value];
      vqmIdx := vqmIdx + 1;
      i := i + 1;
    }
    assert staps[i..] == [];
    r := Ok(metas);
  }

  /** The DBV count bumped through the index's own stream: seek, read, seek back, write. */
  method BumpDbvCount(s: Stream, dbvAt: nat) returns (r: Outcome)
    modifies s
    ensures var b := BumpDbv(old(s.data), dbvAt);
      && (b.Err? ==> r == Fail(b.error))
      && (b.Ok? ==> r == Pass && s.data == b.value)
  {
    var at := dbvAt + DbvCountOffset;
    var _ := s.Seek(at);
    var count := s.Read(4);
    ghost var ddi := s.data;
    assert count == Span(ddi, at, 4);
    var b := ToLe(Le(count) + 1, 4);
    if b.Err? {
      return Fail(b.error);
    }
    var _ := s.Seek(at);
    s.Write(b.value);
    assert s.data == Overwrite(ddi, at, b.value);
    r := Pass;
  }

  /** The offsets `read` records, looked up as `offset_map[...]`. */
  lemma RangesLookup(x: Index)
    ensures Lookup(RecordRanges([], x), "dbv") == Some(x.dbv)
    ensures x.vqm.Some? ==> Lookup(RecordRanges([], x), "vqm") == Some(x.vqm.value.1)
  {
    var m1 := Put([], "dbv", x.dbv);
    var m2 := Put(m1, "sta", x.staRange);
    var m := Put(m2, "art", x.artRange);
    PutLookup([], "dbv", x.dbv);
    PutLookup(m1, "sta", x.staRange);
    PutLookup(m2, "art", x.artRange);
    if x.vqm.Some? {
      PutLookup(m, "vqm", x.vqm.value.1);
    }
  }

  /** The new index from the target's decoded model and its stream: encode, then splice. */
  method CreateIndex(srcDdi: seq<byte>, src: DdiModel.DDIModel, metas: seq<VqmMeta>, ghost x: Index) returns (r: Result<seq<byte>>)
    requires ReadAs(src, srcDdi, x)
    modifies src.ddiData
    ensures r == NewIndex(srcDdi, x, metas)
  {
    var block := CreateVqmStream(metas);
    if block.Err? {
      return Err(block.error);
    }
    RangesLookup(x);
    if src.dataDict.vqm.Some? {
      var range := Lookup(src.offsetMap, "vqm").value;
      r := Ok(ByteReplace(srcDdi, range.0, range.1 as int - range.0, block.value));
    } else {
      var at := Find(srcDdi, DdiFooter);
      var dbv := Lookup(src.offsetMap, "dbv").value;
      var bumped := BumpDbvCount(src.ddiData, dbv.0);
      if bumped.Fail? {
        return Err(bumped.error);
      }
      r := Ok(ByteReplace(src.ddiData.GetValue(), at, 0, block.value));
    }
  }

  /** A mixer's description with the output first, as `Copied` reads it. */
  function Swap<A>(spec: Result<(A, Out)>): Result<(Out, A)> {
    match spec
    case Err(e) => Err(e)
    case Ok(v) => Ok((v.1, v.0))
  }

  /** What `mixins_vqm` and `mixins_sta2vqm` know of the target once its model has read the index `x`. */
  predicate ReadAs(src: DdiModel.DDIModel, srcDdi: seq<byte>, x: Index)
    reads src, src.ddiData
  {
    && src.ddiData != null && src.ddiData.data == srcDdi
    && src.offsetMap == RecordRanges([], x) && (src.dataDict.vqm.Some? <==> x.vqm.Some?)
  }

  /**
   * `mixins_vqm`. `mixVqm` is the donor model's `vqm_data` (`None` exactly when
   * its `ddi_data_dict` has no `vqm`), `choice` the answer to the prompt.
   */
  method MixinsVqm(srcDdi: seq<byte>, out: Stream, mixVqm: Option<seq<(int, Vqmp)>>, donor: Stream, choice: string, test: PromptTest)
    returns (r: Result<Option<seq<byte>>>)
    requires donor != out
    modifies donor, out
    ensures donor.data == old(donor.data)
    ensures Copied(r, Swap(MixVqm(srcDdi, mixVqm, old(donor.data), Out(old(out.data), old(out.pos)), choice, test)), out)
  {
    if mixVqm.None? {
      return Err(Raised("Mixins DDI doesn't have vqm stream."));
    }
    var src := new DdiModel.DDIModel(srcDdi);
    var rd := src.Read();
    if rd.Fail? {
      return Err(rd.error);
    }
    ghost var x := DecodeIndex(srcDdi).value;
    r := MixinsVqmFrom(srcDdi, src, x, out, mixVqm.value, donor, choice, test);
  }

  /** `mixins_vqm` after the target's model is read. */
  method MixinsVqmFrom(srcDdi: seq<byte>, src: DdiModel.DDIModel, ghost x: Index, out: Stream, vqm: seq<(int, Vqmp)>, donor: Stream,
                       choice: string, test: PromptTest) returns (r: Result<Option<seq<byte>>>)
    requires donor != out && ReadAs(src, srcDdi, x) && src.ddiData != donor && src.ddiData != out
    modifies donor, out, src.ddiData
    ensures donor.data == old(donor.data)
    ensures Copied(r, Swap(MixVqmFrom(srcDdi, x, vqm, old(donor.data), Out(old(out.data), old(out.pos)), choice, test)), out)
  {
    if src.dataDict.vqm.Some? && Halts(test, choice) {
      return Ok(None);
    }
    var metas := MixVqmEntries(donor, out, vqm);
    if metas.Err? {
      return Err(metas.error);
    }
    var dst := CreateIndex(srcDdi, src, metas.value, x);
    if dst.Err? {
      return Err(dst.error);
    }
    r := Ok(Some(dst.value));
  }

  /** `mixins_sta2vqm`. `mixSta` is the donor model's `sta_data`. */
  method MixinsSta2Vqm(srcDdi: seq<byte>, out: Stream, mixSta: seq<(nat, Stau)>, donor: Stream, choice: string, test: PromptTest, phoneme: string)
    returns (r: Result<Option<seq<byte>>>)
    requires donor != out
    modifies donor, out
    ensures donor.data == old(donor.data)
    ensures Copied(r, Swap(MixSta2Vqm(srcDdi, mixSta, old(donor.data), Out(old(out.data), old(out.pos)), choice, test, phoneme)), out)
  {
    var src := new DdiModel.DDIModel(srcDdi);
    var rd := src.Read();
    if rd.Fail? {
      return Err(rd.error);
    }
    ghost var x := DecodeIndex(srcDdi).value;
    r := MixinsSta2VqmFrom(srcDdi, src, x, out, mixSta, donor, choice, test, phoneme);
  }

  /** `mixins_sta2vqm` after the target's model is read. */
  method MixinsSta2VqmFrom(srcDdi: seq<byte>, src: DdiModel.DDIModel, ghost x: Index, out: Stream, mixSta: seq<(nat, Stau)>,
                           donor: Stream, choice: string, test: PromptTest, phoneme: string) returns (r: Result<Option<seq<byte>>>)
    requires donor != out && ReadAs(src, srcDdi, x) && src.ddiData != donor && src.ddiData != out
    modifies donor, out, src.ddiData
    ensures donor.data == old(donor.data)
    ensures Copied(r, Swap(MixSta2VqmFrom(srcDdi, x, mixSta, old(donor.data), Out(old(out.data), old(out.pos)), choice, test, phoneme)), out)
  {
    if src.dataDict.vqm.Some? && Halts(test, choice) {
      return Ok(None);
    }
    var stau := FindStau(mixSta, phoneme);
    if stau.None? {
      return Err(Raised("Mixins DDI doesn't have stationary entry for phoneme \"" + phoneme + "\""));
    }
    var metas := MixStaEntries(donor, out, stau.value.staps);
    if metas.Err? {
      return Err(metas.error);
    }
    var dst := CreateIndex(srcDdi, src, metas.value, x);
    if dst.Err? {
      return Err(dst.error);
    }
    r := Ok(Some(dst.value));
  }
}
