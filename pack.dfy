/**
 * The repacker (`pack_ddb.py`): every epr frame and sound that the index's
 * data dictionary names is copied from the voice tree's files to a fresh ddb,
 * one after another, and the index is patched in place at the recorded field
 * positions with the new 8-byte little-endian offsets.
 *
 * The voice tree is a parameter `files` (path to bytes); the ddb being written
 * is a stream whose cursor stays at its end; the index being patched is a
 * stream over the original index bytes. Each loop is a method proved against a
 * fold over values (`Fold`), and each step's layout is a lemma about the step.
 */
module Pack {
  import opened Wrappers
  import opened Bytes
  import opened Streams
  import opened Text
  import opened Refs
  import opened Dict
  import opened DdiFormat
  import opened DdiDict
  import Mixins
  import Utf8
  import DdiModel

  // ------------------------------------------------------------- escape_filename

  predicate IsLower(c: char) { 'a' <= c <= 'z' }

  /** One character of `escape_filename`: `a`-`z` as it is, anything else as `%` + its code point in decimal + `%`. */
  function EscapeChar(c: char): (r: string)
    ensures |r| >= 1
  {
    if IsLower(c) then [c] else "%" + IntToDecimal(c as int) + "%"
  }

  /** The pieces `f` makes of the characters of `s`, concatenated from the left. */
  function ConcatMap(f: char -> string, s: string): string
    decreases |s|
  {
    if |s| == 0 then "" else ConcatMap(f, s[..|s| - 1]) + f(s[|s| - 1])
  }

  /** One more character is one more piece. */
  lemma ConcatMapStep(f: char -> string, s: string, i: nat)
    requires i < |s|
    ensures ConcatMap(f, s[..i + 1]) == ConcatMap(f, s[..i]) + f(s[i])
  {
    assert s[..i + 1][..i] == s[..i];
  }

  /** The pieces of a concatenation are the pieces of each part. */
  lemma {:induction false} ConcatMapAppend(f: char -> string, a: string, b: string)
    ensures ConcatMap(f, a + b) == ConcatMap(f, a) + ConcatMap(f, b)
    decreases |b|
  {
    if |b| == 0 {
      assert a + b == a;
    } else {
      var b' := b[..|b| - 1];
      ConcatMapAppend(f, a, b');
      ConcatMapStep(f, a + b, |a + b| - 1);
      assert (a + b)[..|a + b| - 1] == a + b';
      ConcatMapStep(f, b, |b| - 1);
      assert b[..|b|] == b;
      assert (a + b)[..|a + b|] == a + b;
    }
  }

  /** `escape_filename`, character by character from the left. */
  function Escape(s: string): string {
    ConcatMap(EscapeChar, s)
  }

  method EscapeFilename(filename: string) returns (escaped: string)
    ensures escaped == Escape(filename)
  {
    escaped := "";
    var i := 0;
    while i < |filename|
      invariant 0 <= i <= |filename| && escaped == Escape(filename[..i])
    {
      ConcatMapStep(EscapeChar, filename, i);
      if 'a' <= filename[i] <= 'z' {
        escaped := escaped + [filename[i]];
      } else {
        escaped := escaped + "%" + IntToDecimal(filename[i] as int) + "%";
      }
      i := i + 1;
    }
    assert filename[..i] == filename;
  }

  /** Escaping is done piece by piece. */
  lemma EscapeAppend(a: string, b: string)
    ensures Escape(a + b) == Escape(a) + Escape(b)
  {
    ConcatMapAppend(EscapeChar, a, b);
  }

  /** A name made only of `a`-`z` is its own escape. */
  lemma {:induction false} EscapeLowerIdentity(s: string)
    requires forall i :: 0 <= i < |s| ==> IsLower(s[i])
    ensures Escape(s) == s
    decreases |s|
  {
    if |s| > 0 {
      EscapeLowerIdentity(s[..|s| - 1]);
    }
  }

  /**
   * The escape is never shorter than the name, and is exactly as long only
   * when every character is in `a`-`z` (any other grows to at least three).
   */
  lemma {:induction false} EscapeLength(s: string)
    ensures |Escape(s)| >= |s|
    ensures |Escape(s)| == |s| <==> forall i :: 0 <= i < |s| ==> IsLower(s[i])
    decreases |s|
  {
    if |s| > 0 {
      var init := s[..|s| - 1];
      EscapeLength(init);
      if |Escape(s)| == |s| {
        assert IsLower(s[|s| - 1]);
        forall i | 0 <= i < |s|
          ensures IsLower(s[i])
        {
          if i < |s| - 1 {
            assert s[i] == init[i];
          }
        }
      }
    }
  }

  /** The first position of `c` in `s`, or `|s|`. */
  function IndexOf(s: string, c: char): (r: nat)
    ensures r <= |s| && (r < |s| ==> s[r] == c) && forall i :: 0 <= i < r ==> s[i] != c
    decreases |s|
  {
    if |s| == 0 then 0 else if s[0] == c then 0 else 1 + IndexOf(s[1..], c)
  }

  lemma {:induction false} IndexOfAfter(p: string, c: char, rest: string)
    requires forall i :: 0 <= i < |p| ==> p[i] != c
    ensures IndexOf(p + [c] + rest, c) == |p|
    decreases |p|
  {
    if |p| > 0 {
      assert (p + [c] + rest)[1..] == p[1..] + [c] + rest;
      IndexOfAfter(p[1..], c, rest);
    }
  }

  /** Whether `n` is the code point of a character. */
  predicate IsCodePoint(n: int) {
    0 <= n < 0xD800 || 0xE000 <= n < 0x11_0000
  }

  /**
   * Reading an escaped name back: `a`-`z` stand for themselves, `%` digits `%`
   * for the character with that code point; anything else is not an escape.
   */
  function Unescape(t: string): Option<string>
    decreases |t|
  {
    if |t| == 0 then Some("")
    else if IsLower(t[0]) then
      match Unescape(t[1..])
      case None => None
      case Some(s) => Some([t[0]] + s)
    else if t[0] == '%' then
      var k := IndexOf(t[1..], '%');
      if k == 0 || k == |t| - 1 || !(forall i :: 1 <= i < 1 + k ==> IsDigit(t[i])) then None
      else
        var n := DigitsValue(t[1..1 + k]);
        if !IsCodePoint(n) then None
        else
          match Unescape(t[k + 2..])
          case None => None
          case Some(s) => Some([n as char] + s)
    else None
  }

  /** Reading back `%` digits `%`: the character the digits number, then the rest. */
  lemma UnescapePercent(d: string, rest: string)
    requires |d| >= 1 && forall i :: 0 <= i < |d| ==> IsDigit(d[i])
    requires IsCodePoint(DigitsValue(d))
    ensures Unescape("%" + d + "%" + rest)
         == match Unescape(rest) case None => None case Some(s) => Some([DigitsValue(d) as char] + s)
  {
    var t := "%" + d + "%" + rest;
    assert t[1..] == d + ['%'] + rest;
    IndexOfAfter(d, '%', rest);
    assert t[1..1 + |d|] == d;
    assert t[|d| + 2..] == rest;
  }

  /** Reading back a character written as `%` code point `%`. */
  lemma UnescapeCodePoint(c: char, rest: string)
    requires !IsLower(c)
    ensures Unescape(EscapeChar(c) + rest) == match Unescape(rest) case None => None case Some(s) => Some([c] + s)
  {
    var d := Digits(c as int);
    assert EscapeChar(c) + rest == "%" + d + "%" + rest;
    DigitsValueOfDigits(c as int);
    UnescapePercent(d, rest);
  }

  /** Reading back one escaped character, then the rest. */
  lemma UnescapeChar(c: char, rest: string)
    ensures Unescape(EscapeChar(c) + rest) == match Unescape(rest) case None => None case Some(s) => Some([c] + s)
  {
    if IsLower(c) {
      assert (EscapeChar(c) + rest)[1..] == rest;
    } else {
      UnescapeCodePoint(c, rest);
    }
  }

  /** Escaped names can be read back: the escape loses nothing. */
  lemma {:induction false} UnescapeEscape(s: string)
    ensures Unescape(Escape(s)) == Some(s)
    decreases |s|
  {
    if |s| > 0 {
      EscapeAppend([s[0]], s[1..]);
      assert [s[0]] + s[1..] == s;
      var one: string := [s[0]];
      assert one[..0] == "";
      ConcatMapStep(EscapeChar, one, 0);
      assert one[..1] == one;
      assert Escape(one) == EscapeChar(s[0]);
      UnescapeChar(s[0], Escape(s[1..]));
      UnescapeEscape(s[1..]);
    }
  }

  // ------------------------------------------------------------- the pieces copied

  /** The repacker's output so far: the index with its patched fields and the new ddb. */
  datatype Packed = Packed(ddi: seq<byte>, ddb: seq<byte>)

  /** `ddi_data.seek(pos); ddi_data.write(v.to_bytes(8, byteorder="little"))`. */
  function Patch(ddi: seq<byte>, pos: nat, v: int): Result<seq<byte>> {
    var b :- ToLe(v, 8);
    Ok(Overwrite(ddi, pos, b))
  }

  /**
   * A patch fails exactly when the value does not fit in 8 unsigned bytes;
   * otherwise the 8 bytes at `pos` read back as the value, and inside the
   * index the length and every other byte stay as they were.
   */
  lemma {:induction false} PatchLayout(ddi: seq<byte>, pos: nat, v: int)
    ensures Patch(ddi, pos, v).Ok? <==> 0 <= v < Pow256(8)
    ensures Patch(ddi, pos, v).Ok? ==>
      var r := Patch(ddi, pos, v).value;
      && |r| >= |ddi| && pos + 8 <= |r| && Le(r[pos..pos + 8]) == v
      && (pos + 8 <= |ddi| ==> |r| == |ddi|)
  {
  }

  /** A patch leaves every other byte of the index as it was. */
  lemma PatchKeeps(ddi: seq<byte>, pos: nat, v: int, i: nat)
    requires Patch(ddi, pos, v).Ok? && i < |ddi| && (i < pos || i >= pos + 8)
    ensures Patch(ddi, pos, v).value[i] == ddi[i]
  {
  }

  /** The message of a missing or broken articulation or stationary file. */
  function NotFound(kind: string, path: string): string {
    kind + " file \"" + path + "\" not found"
  }

  function IsBroken(kind: string, path: string): string {
    kind + " file \"" + path + "\" is broken"
  }

  /**
   * A tagged chunk of a voice file (an epr frame or a sound): seek to it,
   * check its 4-byte tag, read the length that follows, and slice that many
   * bytes of the file from the offset.
   */
  function Chunk(file: seq<byte>, off: nat, tag: seq<byte>, text: string, broken: string): Result<seq<byte>> {
    var o := Mixins.CheckHeader(Span(file, off, 4), tag, text, Mixins.ByText, broken);
    if o.Fail? then Err(o.error)
    else Ok(PySlice(file, off, off + Mixins.LengthAt(file, off)))
  }

  /** `s[i:i + n]` from a start inside `s`: the elements from `i` on, at most `n` of them. */
  lemma PySliceFrom<T>(s: seq<T>, i: nat, n: nat)
    requires i <= |s|
    ensures PySlice(s, i, i + n) == s[i..Min(i + n, |s|)]
  {
  }

  /**
   * A chunk is read exactly when its offset holds the tag, and it is the
   * file's bytes from the offset, as many as the length after the tag says
   * (fewer at the end of the file).
   */
  lemma {:induction false} ChunkLayout(file: seq<byte>, off: nat, tag: seq<byte>, text: string, broken: string)
    requires |tag| == 4 && Utf8.Encode(text) == tag && Utf8.IsAscii(text)
    ensures Chunk(file, off, tag, text, broken).Ok? <==> MatchAt(file, tag, off)
    ensures Chunk(file, off, tag, text, broken).Ok? ==>
      var f := Chunk(file, off, tag, text, broken).value;
      |f| == Min(Mixins.LengthAt(file, off), |file| - off) && f == file[off..off + |f|]
  {
    Mixins.CheckHeaderPasses(Span(file, off, 4), tag, text, Mixins.ByText, broken);
    if MatchAt(file, tag, off) {
      PySliceFrom(file, off, Mixins.LengthAt(file, off));
    }
  }

  /**
   * One copy step: the chunk read from the voice file is appended to the ddb
   * and the patched index replaces the old one; a failed read is reported
   * before a failed patch, as the file is read before the index is written.
   */
  function Emit(chunk: Result<seq<byte>>, ddi: Result<seq<byte>>, p: Packed): Result<Packed> {
    var b :- chunk;
    var d :- ddi;
    Ok(Packed(d, p.ddb + b))
  }

  /** A step that succeeds read its chunk and patched the index, and appended the one to the ddb. */
  lemma EmitParts(chunk: Result<seq<byte>>, ddi: Result<seq<byte>>, p: Packed)
    requires Emit(chunk, ddi, p).Ok?
    ensures chunk.Ok? && ddi.Ok? && Emit(chunk, ddi, p).value == Packed(ddi.value, p.ddb + chunk.value)
  {
  }

  /**
   * Copy a tagged chunk: append it to the ddb and patch the index field at
   * `pos` with the chunk's ddb position shifted by `delta`.
   */
  function CopyChunk(file: seq<byte>, off: nat, tag: seq<byte>, text: string, broken: string, pos: nat, delta: int, p: Packed): Result<Packed> {
    Emit(Chunk(file, off, tag, text, broken), Patch(p.ddi, pos, |p.ddb| + delta), p)
  }

  /** A chunk is copied exactly when its offset holds the tag and the shifted position fits in 8 bytes. */
  lemma {:induction false} CopyChunkOk(file: seq<byte>, off: nat, tag: seq<byte>, text: string, broken: string, pos: nat, delta: int, p: Packed)
    requires |tag| == 4 && Utf8.Encode(text) == tag && Utf8.IsAscii(text)
    ensures CopyChunk(file, off, tag, text, broken, pos, delta, p).Ok? <==>
      MatchAt(file, tag, off) && 0 <= |p.ddb| + delta < Pow256(8)
  {
    ChunkLayout(file, off, tag, text, broken);
    PatchLayout(p.ddi, pos, |p.ddb| + delta);
  }

  /**
   * A copied chunk: the ddb grows by the file's bytes from the offset, and the
   * index field is patched with the old ddb length + `delta`.
   */
  lemma {:induction false} CopyChunkLayout(file: seq<byte>, off: nat, tag: seq<byte>, text: string, broken: string, pos: nat, delta: int, p: Packed)
    requires |tag| == 4 && Utf8.Encode(text) == tag && Utf8.IsAscii(text)
    requires CopyChunk(file, off, tag, text, broken, pos, delta, p).Ok?
    ensures MatchAt(file, tag, off)
    ensures CopyChunk(file, off, tag, text, broken, pos, delta, p).value.ddb ==
      p.ddb + file[off..off + Min(Mixins.LengthAt(file, off), |file| - off)]
    ensures CopyChunk(file, off, tag, text, broken, pos, delta, p).value.ddi == Patch(p.ddi, pos, |p.ddb| + delta).value
  {
    var c := Chunk(file, off, tag, text, broken);
    var d := Patch(p.ddi, pos, |p.ddb| + delta);
    assert CopyChunk(file, off, tag, text, broken, pos, delta, p) == Emit(c, d, p);
    EmitParts(c, d, p);
    ChunkLayout(file, off, tag, text, broken);
  }

  /** One epr: its `FRM2` frame appended to the ddb, and the index field patched with where it starts there. */
  function CopyEpr(file: seq<byte>, broken: string, r: Ref, p: Packed): Result<Packed> {
    CopyChunk(file, r.value, Mixins.Frm2Tag, "FRM2", broken, r.pos, 0, p)
  }

  /**
   * An epr is copied exactly when its offset holds `FRM2` (and the ddb is still
   * addressable in 8 bytes). The ddb grows by the file's bytes from the offset,
   * and the index field is patched with the ddb length before the append, so
   * it reads back as the position of the frame in the new ddb.
   */
  lemma {:induction false} CopyEprLayout(file: seq<byte>, broken: string, r: Ref, p: Packed)
    ensures CopyEpr(file, broken, r, p).Ok? <==> MatchAt(file, Mixins.Frm2Tag, r.value) && |p.ddb| < Pow256(8)
    ensures CopyEpr(file, broken, r, p).Ok? ==>
      var q := CopyEpr(file, broken, r, p).value;
      var n := Min(Mixins.LengthAt(file, r.value), |file| - r.value);
      && q.ddb == p.ddb + file[r.value..r.value + n]
      && q.ddi == Patch(p.ddi, r.pos, |p.ddb|).value && Le(q.ddi[r.pos..r.pos + 8]) == |p.ddb|
  {
    Mixins.TagsAreText();
    CopyChunkOk(file, r.value, Mixins.Frm2Tag, "FRM2", broken, r.pos, 0, p);
    if CopyChunk(file, r.value, Mixins.Frm2Tag, "FRM2", broken, r.pos, 0, p).Ok? {
      CopyChunkLayout(file, r.value, Mixins.Frm2Tag, "FRM2", broken, r.pos, 0, p);
      PatchLayout(p.ddi, r.pos, |p.ddb|);
    }
  }

  /**
   * `ddi_data.seek(pos)` and two 8-byte little-endian writes, `v` then `w`:
   * one write of the 16 bytes once both fit.
   */
  function Patch2(ddi: seq<byte>, pos: nat, v: int, w: int): Result<seq<byte>> {
    var b1 :- ToLe(v, 8);
    var b2 :- ToLe(w, 8);
    Ok(Overwrite(ddi, pos, b1 + b2))
  }

  /** Two patches succeed exactly when both values fit, and then the 16 bytes read back as the two values. */
  lemma {:induction false} Patch2Layout(ddi: seq<byte>, pos: nat, v: int, w: int)
    ensures Patch2(ddi, pos, v, w).Ok? <==> 0 <= v < Pow256(8) && 0 <= w < Pow256(8)
    ensures Patch2(ddi, pos, v, w).Ok? ==>
      var r := Patch2(ddi, pos, v, w).value;
      && pos + 16 <= |r| && Le(r[pos..pos + 8]) == v && Le(r[pos + 8..pos + 16]) == w
  {
    if 0 <= v < Pow256(8) && 0 <= w < Pow256(8) {
      var b1 := ToLe(v, 8).value;
      var b2 := ToLe(w, 8).value;
      var r := Overwrite(ddi, pos, b1 + b2);
      assert r[pos..pos + 16] == b1 + b2;
      assert r[pos..pos + 8] == b1;
      assert r[pos + 8..pos + 16] == b2;
    }
  }

  /**
   * An articulation sample's sound bytes: seek to the offset (a negative one
   * fails the seek), read the `SND ` chunk there, and check that the slice
   * itself starts with `SND `.
   */
  function SoundChunk(file: seq<byte>, off: int, broken: string): Result<seq<byte>> {
    if off < 0 then Err(BadSeek)
    else
      var b :- Chunk(file, off, Mixins.SndTag, "SND ", broken);
      var o := Mixins.CheckHeader(PySlice(b, 0, 4), Mixins.SndTag, "SND ", Mixins.ByText, broken);
      if o.Fail? then Err(o.error) else Ok(b)
  }

  /**
   * The second `SND ` check, on the first 4 bytes of a sound chunk read from
   * an offset that holds the tag, passes exactly when the chunk's length
   * covers the tag.
   */
  lemma {:induction false} SoundStartsWithTag(file: seq<byte>, off: nat, b: seq<byte>, broken: string)
    requires MatchAt(file, Mixins.SndTag, off)
    requires |b| == Min(Mixins.LengthAt(file, off), |file| - off) && b == file[off..off + |b|]
    ensures Mixins.CheckHeader(PySlice(b, 0, 4), Mixins.SndTag, "SND ", Mixins.ByText, broken).Pass? <==>
      Mixins.LengthAt(file, off) >= 4
  {
    Mixins.TagsAreText();
    Mixins.CheckHeaderPasses(PySlice(b, 0, 4), Mixins.SndTag, "SND ", Mixins.ByText, broken);
    if |b| >= 4 {
      assert PySlice(b, 0, 4) == b[..4] == file[off..off + 4];
    } else {
      assert |PySlice(b, 0, 4)| < 4;
    }
  }

  /**
   * A sound chunk is read exactly when its offset holds `SND ` with a length
   * that covers the tag, and it is the file's bytes from the offset, as many
   * as that length says (fewer at the end of the file).
   */
  lemma {:induction false} SoundChunkLayout(file: seq<byte>, off: int, broken: string)
    ensures SoundChunk(file, off, broken).Ok? <==>
      off >= 0 && MatchAt(file, Mixins.SndTag, off) && Mixins.LengthAt(file, off) >= 4
    ensures SoundChunk(file, off, broken).Ok? ==>
      var b := SoundChunk(file, off, broken).value;
      off >= 0 && |b| == Min(Mixins.LengthAt(file, off), |file| - off) && b == file[off..off + |b|]
  {
    if off >= 0 {
      Mixins.TagsAreText();
      ChunkLayout(file, off, Mixins.SndTag, "SND ", broken);
      var c := Chunk(file, off, Mixins.SndTag, "SND ", broken);
      if c.Ok? {
        SoundStartsWithTag(file, off, c.value, broken);
      }
    }
  }

  /**
   * An articulation sample's sound: read its sound chunk, append it, and patch the index field with its
   * ddb position + 0x12 and the field after that with the same shifted by the
   * original distance from `snd` to the second offset.
   */
  function ArtSound(file: seq<byte>, broken: string, snd: SndRef, second: SndRef, p: Packed): Result<Packed> {
    Emit(SoundChunk(file, snd.offset, broken), Patch2(p.ddi, snd.pos, |p.ddb| + 0x12, |p.ddb| + 0x12 + (second.offset - snd.offset)), p)
  }

  /**
   * An articulation sound is copied exactly when its offset holds `SND ` with a
   * length that covers the tag, and both new offsets fit in 8 bytes.
   */
  lemma {:induction false} ArtSoundOk(file: seq<byte>, broken: string, snd: SndRef, second: SndRef, p: Packed)
    ensures ArtSound(file, broken, snd, second, p).Ok? <==>
      && snd.offset >= 0 && MatchAt(file, Mixins.SndTag, snd.offset) && Mixins.LengthAt(file, snd.offset) >= 4
      && |p.ddb| + 0x12 < Pow256(8) && 0 <= |p.ddb| + 0x12 + (second.offset - snd.offset) < Pow256(8)
  {
    SoundChunkLayout(file, snd.offset, broken);
    Patch2Layout(p.ddi, snd.pos, |p.ddb| + 0x12, |p.ddb| + 0x12 + (second.offset - snd.offset));
  }

  /**
   * A copied articulation sound: the ddb grows by the file's bytes from the
   * offset, and the index is patched at the field with the sound's ddb
   * position + 0x12 and at the next field with that value plus the original
   * distance to the second offset (`Patch2Layout` says how they read back).
   */
  lemma {:induction false} ArtSoundLayout(file: seq<byte>, broken: string, snd: SndRef, second: SndRef, p: Packed)
    requires ArtSound(file, broken, snd, second, p).Ok?
    ensures snd.offset >= 0 && MatchAt(file, Mixins.SndTag, snd.offset)
    ensures var q := ArtSound(file, broken, snd, second, p).value;
      var n := Min(Mixins.LengthAt(file, snd.offset), |file| - snd.offset);
      q.ddb == p.ddb + file[snd.offset..snd.offset + n]
    ensures ArtSound(file, broken, snd, second, p).value.ddi ==
      Patch2(p.ddi, snd.pos, |p.ddb| + 0x12, |p.ddb| + 0x12 + (second.offset - snd.offset)).value
  {
    var c := SoundChunk(file, snd.offset, broken);
    var d := Patch2(p.ddi, snd.pos, |p.ddb| + 0x12, |p.ddb| + 0x12 + (second.offset - snd.offset));
    assert ArtSound(file, broken, snd, second, p) == Emit(c, d, p);
    EmitParts(c, d, p);
    SoundChunkLayout(file, snd.offset, broken);
  }

  /** Where every stationary file keeps its sound. */
  const StaSndOffset: nat := 0x3d

  /**
   * A stationary sample's sound: always the `SND ` chunk at file offset 0x3d,
   * appended, and the index field patched with its ddb position shifted by how
   * far the original offset lay from 0x3d.
   */
  function StaSound(file: seq<byte>, broken: string, snd: SndRef, p: Packed): Result<Packed> {
    CopyChunk(file, StaSndOffset, Mixins.SndTag, "SND ", broken, snd.pos, snd.offset - StaSndOffset, p)
  }

  /**
   * A stationary sound is copied exactly when offset 0x3d holds `SND ` and the
   * new offset fits in 8 bytes; what is appended is the file from 0x3d on, as
   * long as its length field says, and the index field then reads back as the
   * ddb position + (snd_offset - 0x3d).
   */
  lemma {:induction false} StaSoundLayout(file: seq<byte>, broken: string, snd: SndRef, p: Packed)
    ensures StaSound(file, broken, snd, p).Ok? <==>
      MatchAt(file, Mixins.SndTag, StaSndOffset) && 0 <= |p.ddb| + (snd.offset - StaSndOffset) < Pow256(8)
    ensures StaSound(file, broken, snd, p).Ok? ==>
      var q := StaSound(file, broken, snd, p).value;
      var n := Min(Mixins.LengthAt(file, StaSndOffset), |file| - StaSndOffset);
      && q.ddb == p.ddb + file[StaSndOffset..StaSndOffset + n]
      && Le(q.ddi[snd.pos..snd.pos + 8]) == |p.ddb| + (snd.offset - StaSndOffset)
  {
    Mixins.TagsAreText();
    CopyChunkOk(file, StaSndOffset, Mixins.SndTag, "SND ", broken, snd.pos, snd.offset - StaSndOffset, p);
    if CopyChunk(file, StaSndOffset, Mixins.SndTag, "SND ", broken, snd.pos, snd.offset - StaSndOffset, p).Ok? {
      CopyChunkLayout(file, StaSndOffset, Mixins.SndTag, "SND ", broken, snd.pos, snd.offset - StaSndOffset, p);
      PatchLayout(p.ddi, snd.pos, |p.ddb| + (snd.offset - StaSndOffset));
    }
  }

  // ------------------------------------------------------------- the loops

  /**
   * A `for` loop of copy steps from the left: each step sees its index, its
   * element and what the earlier ones produced; the first exception ends it.
   */
  function Fold<X>(step: (nat, X, Packed) -> Result<Packed>, xs: seq<X>, p: Packed): Result<Packed>
    decreases |xs|
  {
    if |xs| == 0 then Ok(p)
    else
      var q :- Fold(step, xs[..|xs| - 1], p);
      step(|xs| - 1, xs[|xs| - 1], q)
  }

  /** After `i` elements produced `q`, the next one is one more step from `q`. */
  lemma FoldAdvance<X>(step: (nat, X, Packed) -> Result<Packed>, xs: seq<X>, p: Packed, i: nat, q: Packed)
    requires i < |xs| && Fold(step, xs[..i], p) == Ok(q)
    ensures Fold(step, xs[..i + 1], p) == step(i, xs[i], q)
  {
    assert xs[..i + 1][..i] == xs[..i];
  }

  /** An exception after the first `j` elements is the loop's exception: the rest never run. */
  lemma {:induction false} FoldStops<X>(step: (nat, X, Packed) -> Result<Packed>, xs: seq<X>, p: Packed, j: nat)
    requires j <= |xs| && Fold(step, xs[..j], p).Err?
    ensures Fold(step, xs, p) == Fold(step, xs[..j], p)
    decreases |xs|
  {
    if j == |xs| {
      assert xs[..j] == xs;
    } else {
      var init := xs[..|xs| - 1];
      assert init[..j] == xs[..j];
      FoldStops(step, init, p, j);
    }
  }

  /** The whole sequence is the last prefix. */
  lemma FoldDone<X>(step: (nat, X, Packed) -> Result<Packed>, xs: seq<X>, p: Packed)
    ensures Fold(step, xs[..|xs|], p) == Fold(step, xs, p)
  {
    assert xs[..|xs|] == xs;
  }

  /**
   * What a step may do to the output: the ddb is only appended to, so every
   * offset already patched into the index still points at the bytes written
   * there, and the index never shrinks.
   */
  predicate Extends(p: Packed, q: Packed) {
    |p.ddb| <= |q.ddb| && q.ddb[..|p.ddb|] == p.ddb && |p.ddi| <= |q.ddi|
  }

  lemma ExtendsTrans(p: Packed, q: Packed, r: Packed)
    requires Extends(p, q) && Extends(q, r)
    ensures Extends(p, r)
  {
    assert r.ddb[..|p.ddb|] == r.ddb[..|q.ddb|][..|p.ddb|];
  }

  /** Steps that only extend make a loop that only extends. */
  lemma {:induction false} FoldExtends<X>(step: (nat, X, Packed) -> Result<Packed>, xs: seq<X>, p: Packed)
    requires forall i, x, q :: step(i, x, q).Ok? ==> Extends(q, step(i, x, q).value)
    ensures Fold(step, xs, p).Ok? ==> Extends(p, Fold(step, xs, p).value)
    decreases |xs|
  {
    if |xs| > 0 {
      FoldExtends(step, xs[..|xs| - 1], p);
      var f := Fold(step, xs[..|xs| - 1], p);
      if f.Ok? && step(|xs| - 1, xs[|xs| - 1], f.value).Ok? {
        ExtendsTrans(p, f.value, step(|xs| - 1, xs[|xs| - 1], f.value).value);
      }
    } else {
      assert p.ddb[..|p.ddb|] == p.ddb;
    }
  }

  /** Copying a chunk appends to the ddb and patches inside or past the end of the index. */
  lemma CopyChunkExtends(file: seq<byte>, off: nat, tag: seq<byte>, text: string, broken: string, pos: nat, delta: int, p: Packed)
    requires |tag| == 4 && Utf8.Encode(text) == tag && Utf8.IsAscii(text)
    ensures CopyChunk(file, off, tag, text, broken, pos, delta, p).Ok? ==>
      Extends(p, CopyChunk(file, off, tag, text, broken, pos, delta, p).value)
  {
    if CopyChunk(file, off, tag, text, broken, pos, delta, p).Ok? {
      CopyChunkLayout(file, off, tag, text, broken, pos, delta, p);
      PatchLayout(p.ddi, pos, |p.ddb| + delta);
    }
  }

  lemma ArtSoundExtends(file: seq<byte>, broken: string, snd: SndRef, second: SndRef, p: Packed)
    ensures ArtSound(file, broken, snd, second, p).Ok? ==> Extends(p, ArtSound(file, broken, snd, second, p).value)
  {
    if ArtSound(file, broken, snd, second, p).Ok? {
      ArtSoundLayout(file, broken, snd, second, p);
      Patch2Layout(p.ddi, snd.pos, |p.ddb| + 0x12, |p.ddb| + 0x12 + (second.offset - snd.offset));
    }
  }

  /** The epr loop of one sample. */
  function EprStep(file: seq<byte>, broken: string): (nat, Ref, Packed) -> Result<Packed> {
    (i, r, q) => CopyEpr(file, broken, r, q)
  }

  function CopyEprs(file: seq<byte>, broken: string, eprs: seq<Ref>, p: Packed): Result<Packed> {
    Fold(EprStep(file, broken), eprs, p)
  }

  lemma CopyEprsExtends(file: seq<byte>, broken: string, eprs: seq<Ref>, p: Packed)
    ensures CopyEprs(file, broken, eprs, p).Ok? ==> Extends(p, CopyEprs(file, broken, eprs, p).value)
  {
    forall i, r, q | EprStep(file, broken)(i, r, q).Ok?
      ensures Extends(q, EprStep(file, broken)(i, r, q).value)
    {
      Mixins.TagsAreText();
      CopyChunkExtends(file, r.value, Mixins.Frm2Tag, "FRM2", broken, r.pos, 0, q);
    }
    FoldExtends(EprStep(file, broken), eprs, p);
  }

  // ------------------------------------------------------------- articulation samples

  /**
   * One articulation sample: its eprs, then its sound, whose second offset is
   * the sample's `snd_start` (a sample without one is a KeyError).
   */
  function CopyArtSample(file: seq<byte>, broken: string, s: Sample, p: Packed): Result<Packed> {
    var q :- CopyEprs(file, broken, s.epr, p);
    match s.sndStart
    case None => Err(Missing("snd_start"))
    case Some(second) => ArtSound(file, broken, s.snd, second, q)
  }

  /**
   * The articulation sample as the repacker has it: after the eprs it looks
   * the second offset up under `snd_cutoff`, a key no sample of
   * `ddi_data_dict` carries, so the lookup raises a KeyError.
   */
  function CopyArtSampleAsWritten(file: seq<byte>, broken: string, s: Sample, p: Packed): Result<Packed> {
    var q :- CopyEprs(file, broken, s.epr, p);
    Err(Missing("snd_cutoff"))
  }

  /** As written, no articulation sample is ever copied: after its eprs it always raises. */
  lemma ArtSampleAsWrittenFails(file: seq<byte>, broken: string, s: Sample, p: Packed)
    ensures CopyArtSampleAsWritten(file, broken, s, p).Err?
    ensures CopyEprs(file, broken, s.epr, p).Ok? ==> CopyArtSampleAsWritten(file, broken, s, p) == Err(Missing("snd_cutoff"))
  {
  }

  /**
   * A copied articulation sample: its eprs and then its sound were copied,
   * each appending to the ddb.
   */
  lemma CopyArtSampleExtends(file: seq<byte>, broken: string, s: Sample, p: Packed)
    ensures CopyArtSample(file, broken, s, p).Ok? ==> Extends(p, CopyArtSample(file, broken, s, p).value)
  {
    CopyEprsExtends(file, broken, s.epr, p);
    var e := CopyEprs(file, broken, s.epr, p);
    if e.Ok? && s.sndStart.Some? {
      ArtSoundExtends(file, broken, s.snd, s.sndStart.value, e.value);
      if CopyArtSample(file, broken, s, p).Ok? {
        ExtendsTrans(p, e.value, CopyArtSample(file, broken, s, p).value);
      }
    }
  }

  function ArtSampleStep(file: seq<byte>, broken: string): (nat, Sample, Packed) -> Result<Packed> {
    (i, s, q) => CopyArtSample(file, broken, s, q)
  }

  /**
   * The articulation file of a key: two or three space-separated phonemes,
   * each escaped, as directories under `voice/articulation` of the singer.
   * Any other count leaves the name unbound.
   */
  function ArtFile(singer: string, key: string): Option<string> {
    var ph := Split(key, ' ');
    if |ph| == 3 then Some(singer + "/voice/articulation/" + Escape(ph[0]) + "/" + Escape(ph[1]) + "/" + Escape(ph[2]))
    else if |ph| == 2 then Some(singer + "/voice/articulation/" + Escape(ph[0]) + "/" + Escape(ph[1]))
    else None
  }

  /**
   * One item of `ddi_data_dict['art']`: its file must exist in the voice
   * tree, and then each of its samples is copied from that file.
   */
  function CopyArtItem(files: seq<(string, seq<byte>)>, singer: string, item: (string, seq<Sample>), p: Packed): Result<Packed> {
    match ArtFile(singer, item.0)
    case None => Err(Missing("art_file"))
    case Some(path) =>
      match Lookup(files, path)
      case None => Err(Raised(NotFound("Articulation", path)))
      case Some(file) => Fold(ArtSampleStep(file, IsBroken("Articulation", path)), item.1, p)
  }

  function ArtItemStep(files: seq<(string, seq<byte>)>, singer: string): (nat, (string, seq<Sample>), Packed) -> Result<Packed> {
    (i, item, q) => CopyArtItem(files, singer, item, q)
  }

  // ------------------------------------------------------------- stationary samples

  /** The stationary file of the `i`-th sample of a phoneme: both escaped, under `voice/stationary/normal`. */
  function StaFile(singer: string, phoneme: string, i: nat): string {
    singer + "/voice/stationary/normal/" + Escape(phoneme) + "/" + Escape(IntToDecimal(i))
  }

  /** One stationary sample: its eprs, then its sound from offset 0x3d. */
  function CopyStaSample(file: seq<byte>, broken: string, s: Sample, p: Packed): Result<Packed> {
    var q :- CopyEprs(file, broken, s.epr, p);
    StaSound(file, broken, s.snd, q)
  }

  /** The `i`-th sample of a phoneme, from its own file, which must exist in the voice tree. */
  function CopyStaSampleAt(files: seq<(string, seq<byte>)>, singer: string, phoneme: string, i: nat, s: Sample, p: Packed): Result<Packed> {
    var path := StaFile(singer, phoneme, i);
    match Lookup(files, path)
    case None => Err(Raised(NotFound("Stationary", path)))
    case Some(file) => CopyStaSample(file, IsBroken("Stationary", path), s, p)
  }

  function StaSampleStep(files: seq<(string, seq<byte>)>, singer: string, phoneme: string): (nat, Sample, Packed) -> Result<Packed> {
    (i: nat, s: Sample, q: Packed) => CopyStaSampleAt(files, singer, phoneme, i, s, q)
  }

  /** One item of `ddi_data_dict['sta']`: its samples in order. */
  function CopyStaItem(files: seq<(string, seq<byte>)>, singer: string, item: (string, seq<Sample>), p: Packed): Result<Packed> {
    Fold(StaSampleStep(files, singer, item.0), item.1, p)
  }

  function StaItemStep(files: seq<(string, seq<byte>)>, singer: string): (nat, (string, seq<Sample>), Packed) -> Result<Packed> {
    (i, item, q) => CopyStaItem(files, singer, item, q)
  }

  // ------------------------------------------------------------- the whole repack

  /**
   * The repack proper: every articulation item, then every stationary item,
   * into a ddb that starts empty, patching the index bytes as it goes.
   */
  function PackDdb(files: seq<(string, seq<byte>)>, singer: string, d: DataDict, ddi: seq<byte>): Result<Packed> {
    var q :- Fold(ArtItemStep(files, singer), d.art, Packed(ddi, []));
    Fold(StaItemStep(files, singer), d.sta, q)
  }

  /** `main` after the paths: read the index's model, then repack its data dictionary. */
  function Repack(files: seq<(string, seq<byte>)>, singer: string, ddiBytes: seq<byte>): Result<Packed> {
    var x :- DecodeIndex(ddiBytes);
    PackDdb(files, singer, DataDictOf(x.sta, x.art, if x.vqm.Some? then Some(x.vqm.value.0) else None), ddiBytes)
  }

  // ------------------------------------------------------------- the ddb only grows

  /** Every copy appends to the ddb and never shortens the index, item after item. */
  lemma CopyStaSampleExtends(file: seq<byte>, broken: string, s: Sample, p: Packed)
    ensures CopyStaSample(file, broken, s, p).Ok? ==> Extends(p, CopyStaSample(file, broken, s, p).value)
  {
    CopyEprsExtends(file, broken, s.epr, p);
    var e := CopyEprs(file, broken, s.epr, p);
    if e.Ok? {
      Mixins.TagsAreText();
      CopyChunkExtends(file, StaSndOffset, Mixins.SndTag, "SND ", broken, s.snd.pos, s.snd.offset - StaSndOffset, e.value);
      if CopyStaSample(file, broken, s, p).Ok? {
        ExtendsTrans(p, e.value, CopyStaSample(file, broken, s, p).value);
      }
    }
  }

  lemma CopyArtItemExtends(files: seq<(string, seq<byte>)>, singer: string, item: (string, seq<Sample>), p: Packed)
    ensures CopyArtItem(files, singer, item, p).Ok? ==> Extends(p, CopyArtItem(files, singer, item, p).value)
  {
    var path := ArtFile(singer, item.0);
    if path.Some? && Lookup(files, path.value).Some? {
      var step := ArtSampleStep(Lookup(files, path.value).value, IsBroken("Articulation", path.value));
      forall i, s, q | step(i, s, q).Ok?
        ensures Extends(q, step(i, s, q).value)
      {
        CopyArtSampleExtends(Lookup(files, path.value).value, IsBroken("Articulation", path.value), s, q);
      }
      FoldExtends(step, item.1, p);
    }
  }

  lemma CopyStaItemExtends(files: seq<(string, seq<byte>)>, singer: string, item: (string, seq<Sample>), p: Packed)
    ensures CopyStaItem(files, singer, item, p).Ok? ==> Extends(p, CopyStaItem(files, singer, item, p).value)
  {
    var step := StaSampleStep(files, singer, item.0);
    forall i, s, q | step(i, s, q).Ok?
      ensures Extends(q, step(i, s, q).value)
    {
      var path := StaFile(singer, item.0, i);
      if Lookup(files, path).Some? {
        CopyStaSampleExtends(Lookup(files, path).value, IsBroken("Stationary", path), s, q);
      }
    }
    FoldExtends(step, item.1, p);
  }

  /**
   * Patching never shortens the index: the repacked index is at least as long
   * as the original. (That each chunk is appended after the ones before it is
   * stated step by step by CopyArtItemExtends, CopyStaItemExtends and FoldExtends.)
   */
  lemma PackDdbExtends(files: seq<(string, seq<byte>)>, singer: string, d: DataDict, ddi: seq<byte>)
    ensures PackDdb(files, singer, d, ddi).Ok? ==> |PackDdb(files, singer, d, ddi).value.ddi| >= |ddi|
  {
    var arts := ArtItemStep(files, singer);
    var stas := StaItemStep(files, singer);
    forall i, item, q | arts(i, item, q).Ok?
      ensures Extends(q, arts(i, item, q).value)
    {
      CopyArtItemExtends(files, singer, item, q);
    }
    forall i, item, q | stas(i, item, q).Ok?
      ensures Extends(q, stas(i, item, q).value)
    {
      CopyStaItemExtends(files, singer, item, q);
    }
    var p := Packed(ddi, []);
    FoldExtends(arts, d.art, p);
    if Fold(arts, d.art, p).Ok? {
      FoldExtends(stas, d.sta, Fold(arts, d.art, p).value);
      if PackDdb(files, singer, d, ddi).Ok? {
        ExtendsTrans(p, Fold(arts, d.art, p).value, PackDdb(files, singer, d, ddi).value);
      }
    }
  }
}
