/**
 * The sound extractor: the file names it gives the sounds it finds
 * (X-SAMPA escaping, the flat and the devkit naming styles) and the dump of
 * every sound the decoded index points at, read from the ddb file.
 *
 * The pitch part of a name (`pit+1.23`) is the `%.2f` rendering of a float;
 * the model receives it through the parameter `pitText`, the rendering of a
 * sample's 4-byte pitch field.
 */
module ExtractWav {
  import opened Wrappers
  import opened Bytes
  import opened Text
  import opened Hex
  import opened Streams
  import opened Refs
  import opened DdiFormat
  import opened DdiDict
  import Utf8
  import DdiUtils

  // ------------------------------------------------------------- X-SAMPA escaping

  /** `s.replace(a, b)` for single characters. */
  function Swap(s: string, a: char, b: char): string {
    ReplaceAll(s, [a], [b])
  }

  /** The characters a file name cannot hold comfortably. */
  predicate IsReserved(c: char) {
    c == '\\' || c == '/' || c == '?' || c == ':' || c == '<' || c == '>'
  }

  /** The characters standing in for the reserved ones. */
  predicate IsStandIn(c: char) {
    c == '-' || c == '~' || c == '!' || c == ';' || c == '(' || c == ')'
  }

  function EscapeChar(c: char): char {
    if c == '\\' then '-'
    else if c == '/' then '~'
    else if c == '?' then '!'
    else if c == ':' then ';'
    else if c == '<' then '('
    else if c == '>' then ')'
    else c
  }

  function UnescapeChar(c: char): char {
    if c == '-' then '\\'
    else if c == '~' then '/'
    else if c == '!' then '?'
    else if c == ';' then ':'
    else if c == '(' then '<'
    else if c == ')' then '>'
    else c
  }

  /** `escape_xsampa`: "Sil" becomes "sil", then each reserved character its stand-in. */
  function EscapeXsampa(s: string): string {
    var t := ReplaceAll(s, "Sil", "sil");
    Swap(Swap(Swap(Swap(Swap(Swap(t, '\\', '-'), '/', '~'), '?', '!'), ':', ';'), '<', '('), '>', ')')
  }

  /** `unescape_xsampa`: each stand-in back to its reserved character. */
  function UnescapeXsampa(s: string): string {
    Swap(Swap(Swap(Swap(Swap(Swap(s, '-', '\\'), '~', '/'), '!', '?'), ';', ':'), '(', '<'), ')', '>')
  }

  /** Six single-character replacements in a row: each position is rewritten on its own. */
  lemma {:induction false} SwapPointwise(s: string, a: char, b: char)
    ensures |Swap(s, a, b)| == |s|
    ensures forall i :: 0 <= i < |s| ==> Swap(s, a, b)[i] == if s[i] == a then b else s[i]
  {
    ReplaceCharPointwise(s, a, b);
  }

  /** After the "Sil" step, escaping maps each character through `EscapeChar`. */
  lemma {:induction false} EscapePointwise(s: string)
    ensures var t := ReplaceAll(s, "Sil", "sil"); var r := EscapeXsampa(s);
      |r| == |t| && forall i :: 0 <= i < |t| ==> r[i] == EscapeChar(t[i])
  {
    var t := ReplaceAll(s, "Sil", "sil");
    var t1 := Swap(t, '\\', '-');
    var t2 := Swap(t1, '/', '~');
    var t3 := Swap(t2, '?', '!');
    var t4 := Swap(t3, ':', ';');
    var t5 := Swap(t4, '<', '(');
    SwapPointwise(t, '\\', '-');
    SwapPointwise(t1, '/', '~');
    SwapPointwise(t2, '?', '!');
    SwapPointwise(t3, ':', ';');
    SwapPointwise(t4, '<', '(');
    SwapPointwise(t5, '>', ')');
  }

  /** Unescaping maps each character through `UnescapeChar`. */
  lemma {:induction false} UnescapePointwise(s: string)
    ensures var r := UnescapeXsampa(s);
      |r| == |s| && forall i :: 0 <= i < |s| ==> r[i] == UnescapeChar(s[i])
  {
    var t1 := Swap(s, '-', '\\');
    var t2 := Swap(t1, '~', '/');
    var t3 := Swap(t2, '!', '?');
    var t4 := Swap(t3, ';', ':');
    var t5 := Swap(t4, '(', '<');
    SwapPointwise(s, '-', '\\');
    SwapPointwise(t1, '~', '/');
    SwapPointwise(t2, '!', '?');
    SwapPointwise(t3, ';', ':');
    SwapPointwise(t4, '(', '<');
    SwapPointwise(t5, ')', '>');
  }

  /** An escaped name holds none of `\ / ? : < >`. */
  lemma {:induction false} EscapeClean(s: string)
    ensures forall i :: 0 <= i < |EscapeXsampa(s)| ==> !IsReserved(EscapeXsampa(s)[i])
  {
    EscapePointwise(s);
  }

  /** Unescaping undoes escaping for names without stand-ins and without "Sil". */
  lemma {:induction false} UnescapeEscape(s: string)
    requires forall i :: 0 <= i < |s| ==> !IsStandIn(s[i])
    requires !Contains(s, "Sil")
    ensures UnescapeXsampa(EscapeXsampa(s)) == s
  {
    ReplaceAbsent(s, "Sil", "sil");
    EscapePointwise(s);
    var e := EscapeXsampa(s);
    UnescapePointwise(e);
    var u := UnescapeXsampa(e);
    assert forall i :: 0 <= i < |s| ==> u[i] == UnescapeChar(EscapeChar(s[i]));
  }

  /** "Sil" is the one name escaping changes by more than its reserved characters. */
  lemma {:induction false} EscapeSil(s: string)
    requires |s| == 3 && s[0] == 'S' && s[1] == 'i' && s[2] == 'l'
    ensures var r := EscapeXsampa(s); |r| == 3 && r[0] == 's' && r[1] == 'i' && r[2] == 'l'
  {
    var t := ReplaceAll(s, "Sil", "sil");
    assert s[..3] == "Sil";
    assert t == "sil" + ReplaceAll(s[3..], "Sil", "sil");
    assert |s[3..]| == 0;
    EscapePointwise(s);
  }

  // ------------------------------------------------------------- file names

  /** The `--filename_style` choices. */
  datatype Style = Flat | Devkit

  /** `[escape_xsampa(p) for p in phonemes]`. */
  function EscapeAll(phonemes: seq<string>): (r: seq<string>)
    ensures |r| == |phonemes| && forall i :: 0 <= i < |r| ==> r[i] == EscapeXsampa(phonemes[i])
  {
    if |phonemes| == 0 then [] else [EscapeXsampa(phonemes[0])] + EscapeAll(phonemes[1..])
  }

  /** A devkit path segment: the escaped name, `#`, and the spaced hex of its UTF-8 bytes. */
  function Segment(e: string): string {
    e + "#" + BytesToStr(Utf8.Encode(e), true)
  }

  function Segments(escaped: seq<string>): (r: seq<string>)
    ensures |r| == |escaped| && forall i :: 0 <= i < |r| ==> r[i] == Segment(escaped[i])
  {
    if |escaped| == 0 then [] else [Segment(escaped[0])] + Segments(escaped[1..])
  }

  /** The flat-style prefix, chosen by the number of phonemes. */
  function FlatPrefix(phonemes: seq<string>): string {
    if |phonemes| == 1 then (if phonemes[0] == "growl" then "growl" else "sta")
    else if |phonemes| == 2 then "art"
    else if |phonemes| == 3 then "tri"
    else ""
  }

  /** The devkit-style root directory, chosen by the number of phonemes. */
  function DevkitRoot(phonemes: seq<string>): string {
    if |phonemes| == 1 then (if phonemes[0] == "growl" then "vqm/growl" else "stationary")
    else if |phonemes| == 2 then "articulation"
    else if |phonemes| == 3 then "triphoneme"
    else ""
  }

  /** `create_file_name`: the name, relative to the destination directory, of a dumped sound. */
  function CreateFileName(phonemes: seq<string>, style: Style, offset: int, pitText: string): string {
    var hex := HexFill(offset, 8);
    var escaped := EscapeAll(phonemes);
    match style
    case Flat =>
      if |phonemes| == 0 then "unknown_" + hex + ".wav"
      else FlatPrefix(phonemes) + "_[" + Join(escaped, "-") + "]_" + pitText + "_" + hex + ".wav"
    case Devkit =>
      if |phonemes| == 0 then "unknown/" + hex + ".wav"
      else DevkitRoot(phonemes) + "/" + Join(Segments(escaped), "/") + "/" + pitText + "_" + hex + ".wav"
  }

  /** The offset is written as at least 8 lowercase hex digits that read back as the offset. */
  lemma {:induction false} OffsetHex(offset: nat)
    ensures |HexFill(offset, 8)| >= 8 && ParseHex(HexFill(offset, 8)) == Ok(offset)
    ensures forall i :: 0 <= i < |HexFill(offset, 8)| ==> IsLowerHex(HexFill(offset, 8)[i])
  {
    ParseHexFill(offset, 8);
    HexFormatsAreHexText(offset, 8);
    var d := HexDigits(offset);
    assert HexFill(offset, 8) == PadLeft(d, '0', 8) by {
      assert "" + d == d;
    }
    forall i | 0 <= i < |HexFill(offset, 8)|
      ensures IsLowerHex(HexFill(offset, 8)[i])
    {
      var s := HexFill(offset, 8);
      if |d| < 8 && i < 8 - |d| {
        assert s[i] == '0';
      } else if |d| < 8 {
        assert s[i] == d[i - (8 - |d|)];
      } else {
        assert s[i] == d[i];
      }
    }
  }

  /** No character of the spaced hex dump is a `/`. */
  lemma {:induction false} HexDumpHasNoSlash(data: seq<byte>)
    ensures '/' !in BytesToStr(data, true)
  {
    var pieces := Hex2Pieces(data);
    forall i | 0 <= i < |pieces|
      ensures '/' !in pieces[i]
    {
      assert pieces[i] == Hex2(data[i]);
    }
    JoinExcludes(pieces, " ", '/');
  }

  /**
   * A devkit name splits on `/` into the root's parts, one segment per phoneme and
   * the file itself, so the escaped phonemes are recovered from the path.
   */
  lemma {:induction false} DevkitNameParts(phonemes: seq<string>, offset: int, pitText: string)
    requires 1 <= |phonemes| <= 3
    requires '/' !in pitText
    ensures Split(CreateFileName(phonemes, Devkit, offset, pitText), '/')
        == Split(DevkitRoot(phonemes), '/') + Segments(EscapeAll(phonemes)) + [pitText + "_" + HexFill(offset, 8) + ".wav"]
  {
    var segs := Segments(EscapeAll(phonemes));
    var file := pitText + "_" + HexFill(offset, 8) + ".wav";
    var root := DevkitRoot(phonemes);
    SegmentsHaveNoSlash(phonemes, segs);
    FileHasNoSlash(offset, pitText);
    SplitPath(root, segs, file);
    DevkitNameShape(phonemes, offset, pitText);
  }

  lemma {:induction false} DevkitNameShape(phonemes: seq<string>, offset: int, pitText: string)
    requires 1 <= |phonemes|
    ensures CreateFileName(phonemes, Devkit, offset, pitText)
      == DevkitRoot(phonemes) + "/" + Join(Segments(EscapeAll(phonemes)), "/") + "/" + (pitText + "_" + HexFill(offset, 8) + ".wav")
  {
  }

  /** Splitting `root/seg/.../file` on `/` gives the root's parts, the segments and the file. */
  lemma {:induction false} SplitPath(root: string, segs: seq<string>, file: string)
    requires |segs| >= 1
    requires forall i :: 0 <= i < |segs| ==> '/' !in segs[i]
    requires '/' !in file
    ensures Split(root + "/" + Join(segs, "/") + "/" + file, '/') == Split(root, '/') + segs + [file]
  {
    var rootParts := Split(root, '/');
    JoinSplit(root, '/');
    JoinConcat(segs, [file], "/");
    var rest := segs + [file];
    JoinConcat(rootParts, rest, "/");
    var all := rootParts + segs + [file];
    assert all == rootParts + rest;
    assert root + "/" + Join(segs, "/") + "/" + file == Join(all, "/");
    forall i | 0 <= i < |all|
      ensures '/' !in all[i]
    {
      if i < |rootParts| {
        assert all[i] == rootParts[i];
      } else if i < |rootParts| + |segs| {
        assert all[i] == segs[i - |rootParts|];
      }
    }
    SplitJoin(all, '/');
  }

  /** No devkit segment holds a `/`: escaping removed it from the name, and hex has none. */
  lemma {:induction false} SegmentsHaveNoSlash(phonemes: seq<string>, segs: seq<string>)
    requires segs == Segments(EscapeAll(phonemes))
    ensures forall i :: 0 <= i < |segs| ==> '/' !in segs[i]
  {
    var escaped := EscapeAll(phonemes);
    forall i | 0 <= i < |segs|
      ensures '/' !in segs[i]
    {
      EscapeClean(phonemes[i]);
      HexDumpHasNoSlash(Utf8.Encode(escaped[i]));
      assert segs[i] == escaped[i] + "#" + BytesToStr(Utf8.Encode(escaped[i]), true);
    }
  }

  lemma {:induction false} FileHasNoSlash(offset: int, pitText: string)
    requires '/' !in pitText
    ensures '/' !in pitText + "_" + HexFill(offset, 8) + ".wav"
  {
    var hex := HexFill(offset, 8);
    HexFormatsAreHexText(offset, 8);
    forall k | 0 <= k < |hex|
      ensures hex[k] != '/'
    {
    }
  }

  /**
   * The hex dump in a devkit segment reads back (`str_to_bytes`, then UTF-8) as the
   * escaped phoneme in front of its `#`.
   */
  lemma {:induction false} SegmentReadsBack(p: string)
    requires |p| > 0
    ensures var e := EscapeXsampa(p);
      StrToBytes(BytesToStr(Utf8.Encode(e), true)) == Ok(Utf8.Encode(e)) && Utf8.Decode(Utf8.Encode(e)) == Ok(e)
  {
    var e := EscapeXsampa(p);
    EscapePointwise(p);
    ReplaceLength(p);
    StrToBytesRoundTrip(Utf8.Encode(e));
    Utf8.DecodeEncode(e);
  }

  /** Rewriting "Sil" as "sil" keeps a name non-empty. */
  lemma {:induction false} ReplaceLength(s: string)
    requires |s| > 0
    ensures |ReplaceAll(s, "Sil", "sil")| > 0
  {
    if |s| >= 3 && s[..3] == "Sil" {
    } else if |s| >= 3 {
    }
  }

  /** Joining two non-empty lists is joining their joins. */
  lemma {:induction false} JoinConcat(a: seq<string>, b: seq<string>, sep: string)
    requires |a| >= 1 && |b| >= 1
    ensures Join(a + b, sep) == Join(a, sep) + sep + Join(b, sep)
  {
    if |a| == 1 {
      assert (a + b)[1..] == b;
    } else {
      assert (a + b)[1..] == a[1..] + b;
      JoinConcat(a[1..], b, sep);
    }
  }

  /**
   * A flat name is the prefix, the escaped phonemes joined by `-` in brackets, the
   * pitch and the offset; when no phoneme holds `-` or `\`, the bracketed part
   * splits back into the escaped phonemes.
   */
  lemma {:induction false} FlatNameParts(phonemes: seq<string>, offset: int, pitText: string)
    requires 1 <= |phonemes|
    requires forall i :: 0 <= i < |phonemes| ==> '-' !in phonemes[i] && '\\' !in phonemes[i]
    ensures var inner := Join(EscapeAll(phonemes), "-");
      && CreateFileName(phonemes, Flat, offset, pitText)
         == FlatPrefix(phonemes) + "_[" + inner + "]_" + pitText + "_" + HexFill(offset, 8) + ".wav"
      && Split(inner, '-') == EscapeAll(phonemes)
  {
    var escaped := EscapeAll(phonemes);
    forall i | 0 <= i < |escaped|
      ensures '-' !in escaped[i]
    {
      EscapedHasNoDash(phonemes[i]);
    }
    SplitJoin(escaped, '-');
  }

  /** A name without `-` and `\` has no `-` once escaped. */
  lemma {:induction false} EscapedHasNoDash(p: string)
    requires '-' !in p && '\\' !in p
    ensures '-' !in EscapeXsampa(p)
  {
    var t := ReplaceAll(p, "Sil", "sil");
    var e := EscapeXsampa(p);
    EscapePointwise(p);
    SilKeepsChar(p, '-');
    SilKeepsChar(p, '\\');
    forall k | 0 <= k < |t|
      ensures e[k] != '-'
    {
      assert t[k] != '-' && t[k] != '\\';
    }
  }

  /** Rewriting "Sil" as "sil" adds no character other than `s`. */
  lemma {:induction false} SilKeepsChar(s: string, c: char)
    requires c !in s && c != 's'
    ensures c !in ReplaceAll(s, "Sil", "sil")
  {
    if |s| >= 3 {
      if s[..3] == "Sil" {
        assert c != s[1] && c != s[2];
        assert "Sil" == ['S', 'i', 'l'] && "sil" == ['s', 'i', 'l'];
        SilKeepsChar(s[3..], c);
      } else {
        SilKeepsChar(s[1..], c);
      }
    }
  }

  /** The flat prefix and the devkit root are chosen alike, and tell the kinds of sound apart. */
  lemma KindMarks(phonemes: seq<string>)
    requires 1 <= |phonemes| <= 3
    ensures FlatPrefix(phonemes) == "growl" <==> DevkitRoot(phonemes) == "vqm/growl"
    ensures FlatPrefix(phonemes) == "growl" <==> phonemes == ["growl"]
    ensures FlatPrefix(phonemes) == "sta" <==> (|phonemes| == 1 && phonemes[0] != "growl")
    ensures FlatPrefix(phonemes) == "art" <==> |phonemes| == 2
    ensures FlatPrefix(phonemes) == "tri" <==> |phonemes| == 3
  {
  }

  // ------------------------------------------------------------- dumping sounds

  /** The tag `SND ` a sound record starts with. */
  const SndTag: seq<byte> := [0x53, 0x4E, 0x44, 0x20]

  /** What a wave file receives: the channel count, the frame rate and the frames. */
  datatype Sound = Sound(channels: nat, rate: nat, frames: seq<byte>)

  /** A dumped sound and the name of its file. */
  datatype Dump = Dump(name: string, sound: Sound)

  /** The sounds dumped so far and `snd_pos_list`, the offsets recorded for them. */
  datatype Extracted = Extracted(dumps: seq<Dump>, positions: seq<int>)

  /**
   * The record after a sound's tag, read at `p`: the 4-byte length, the 4-byte rate,
   * the 2-byte channel count, 4 unknown bytes, then `length - 18` bytes of frames.
   * The ddb is a buffered file, whose `read` takes -1 to mean "to the end of the
   * file" and raises for any smaller count, so a length field below 17 fails.
   * Also gives the cursor after the record.
   */
  function ReadSoundAt(buf: seq<byte>, p: nat): (r: Result<(Sound, nat)>)
    ensures r.Err? <==> ShortSound(buf, p)
  {
    var (length, p1) := TakeUint(buf, p, 4);
    var (rate, p2) := TakeUint(buf, p1, 4);
    var (channels, p3) := TakeUint(buf, p2, 2);
    var (_, p4) := TakeUint(buf, p3, 4);
    if ShortSound(buf, p) then Err(BadRead)
    else
      var (frames, p5) := Take(buf, p4, length - 18);
      Ok((Sound(channels, rate, frames), p5))
  }

  /** Whether the length field read at `p` is too small for the file's `read`. */
  predicate ShortSound(buf: seq<byte>, p: nat) {
    TakeUint(buf, p, 4).0 < 17
  }

  /** Reads a sound's record at the cursor. */
  method ReadSound(ddb: Stream) returns (r: Result<Sound>)
    modifies ddb
    ensures ddb.data == old(ddb.data)
    ensures r.Ok? <==> ReadSoundAt(old(ddb.data), old(ddb.pos)).Ok?
    ensures r.Ok? ==> (r.value, ddb.pos) == ReadSoundAt(old(ddb.data), old(ddb.pos)).value
    ensures r.Err? ==> ReadSoundAt(old(ddb.data), old(ddb.pos)) == Err(r.error)
  {
    var lengthBytes := ddb.Read(4);
    var rateBytes := ddb.Read(4);
    var channelBytes := ddb.Read(2);
    var unknown := ddb.Read(4);
    var length: int := Le(lengthBytes);
    if length < 17 {
      return Err(BadRead);
    }
    var frames := ddb.Read(length - 18);
    r := Ok(Sound(Le(channelBytes), Le(rateBytes), frames));
  }

  /**
   * The 18-byte header: a sound whose tag is at `tag` and whose length field holds
   * at least 18 takes exactly `length` bytes from its tag, its frames being the
   * last `length - 18` of them.
   */
  lemma {:induction false} SoundLayout(buf: seq<byte>, tag: nat, length: nat)
    requires tag + 18 <= |buf| && length == Le(buf[tag + 4..tag + 8])
    requires 18 <= length && tag + length <= |buf|
    ensures ReadSoundAt(buf, tag + 4)
      == Ok((Sound(Le(buf[tag + 12..tag + 14]), Le(buf[tag + 8..tag + 12]), buf[tag + 18..tag + length]), tag + length))
  {
    assert TakeUint(buf, tag + 4, 4) == (length, tag + 8);
    assert !ShortSound(buf, tag + 4);
    assert TakeUint(buf, tag + 8, 4) == (Le(buf[tag + 8..tag + 12]), tag + 12);
    assert TakeUint(buf, tag + 12, 2) == (Le(buf[tag + 12..tag + 14]), tag + 14);
    assert TakeUint(buf, tag + 14, 4).1 == tag + 18;
    assert Take(buf, tag + 18, length - 18) == (buf[tag + 18..tag + length], tag + length);
  }

  /** A length field of 17 asks `read` for -1 bytes, which takes every byte to the end of the file. */
  lemma {:induction false} SoundShortLength(buf: seq<byte>, tag: nat)
    requires tag + 18 <= |buf| && Le(buf[tag + 4..tag + 8]) == 17
    ensures ReadSoundAt(buf, tag + 4).Ok?
    ensures ReadSoundAt(buf, tag + 4).value.0.frames == buf[tag + 18..]
    ensures ReadSoundAt(buf, tag + 4).value.1 == |buf|
  {
    assert TakeUint(buf, tag + 4, 4) == (17, tag + 8);
    assert TakeUint(buf, tag + 8, 4).1 == tag + 12;
    assert TakeUint(buf, tag + 12, 2).1 == tag + 14;
    assert TakeUint(buf, tag + 14, 4).1 == tag + 18;
  }

  /** A length field below 17 asks `read` for fewer than -1 bytes, and the read raises. */
  lemma {:induction false} SoundTooShort(buf: seq<byte>, tag: nat)
    requires tag + 8 <= |buf| && Le(buf[tag + 4..tag + 8]) < 17
    ensures ReadSoundAt(buf, tag + 4) == Err(BadRead)
  {
    assert TakeUint(buf, tag + 4, 4).0 == Le(buf[tag + 4..tag + 8]);
  }

  /**
   * Whether dumping the indexed sound at `offset` raises: `seek` refuses a negative
   * offset, and a tagged record whose length field is below 17 makes `read` raise.
   */
  predicate IndexedBroken(buf: seq<byte>, offset: int) {
    offset < 0 || (Span(buf, offset, 4) == SndTag && ShortSound(buf, offset + 4))
  }

  /**
   * One indexed sound (an articulation sample or a VQM entry): seek to its offset,
   * skip it unless the tag is there, else dump its record and record its offset.
   * A negative offset makes `seek` raise; a length field below 17 makes `read` raise.
   */
  function IndexedStep(buf: seq<byte>, phonemes: seq<string>, offset: int, pitch: F32,
                       style: Style, pitText: F32 -> string, acc: Extracted): (r: Result<Extracted>)
    ensures r.Err? <==> IndexedBroken(buf, offset)
    ensures r.Ok? && Span(buf, offset, 4) == SndTag ==>
      && ReadSoundAt(buf, offset + 4).Ok?
      && r.value == Extracted(acc.dumps + [Dump(CreateFileName(phonemes, style, offset, pitText(pitch)),
                                                ReadSoundAt(buf, offset + 4).value.0)],
                              acc.positions + [offset])
    ensures r.Ok? && Span(buf, offset, 4) != SndTag ==> r.value == acc
  {
    var name := CreateFileName(phonemes, style, offset, pitText(pitch));
    if offset < 0 then Err(BadSeek)
    else if Span(buf, offset, 4) != SndTag then Ok(acc)
    else
      var snd :- ReadSoundAt(buf, offset + 4);
      Ok(Extracted(acc.dumps + [Dump(name, snd.0)], acc.positions + [offset]))
  }

  /** The samples of one articulation, in order. */
  function ArtItems(buf: seq<byte>, phonemes: seq<string>, items: seq<Sample>, style: Style,
                    pitText: F32 -> string, acc: Extracted): Result<Extracted>
  {
    if |items| == 0 then Ok(acc)
    else
      var a :- IndexedStep(buf, phonemes, items[0].snd.offset, items[0].pitch, style, pitText, acc);
      ArtItems(buf, phonemes, items[1..], style, pitText, a)
  }

  /** Every articulation of the data dictionary, its key split into phonemes. */
  function ArtEntries(buf: seq<byte>, art: seq<(string, seq<Sample>)>, style: Style,
                      pitText: F32 -> string, acc: Extracted): Result<Extracted>
  {
    if |art| == 0 then Ok(acc)
    else
      var a :- ArtItems(buf, Split(art[0].0, ' '), art[0].1, style, pitText, acc);
      ArtEntries(buf, art[1..], style, pitText, a)
  }

  /** The limit of the backwards search for a stationary's tag. */
  const StaSearchLimit: int := 0x8000

  /**
   * One stationary sample: search backwards from its offset for the tag (within
   * 0x8000 bytes), skip it when there is none, else dump the record after the tag
   * and record the position of the tag.
   */
  function StaStep(buf: seq<byte>, phoneme: string, st: Stap, style: Style,
                   pitText: F32 -> string, acc: Extracted): Result<Extracted>
  {
    var offset := st.snd.offset;
    var found := DdiUtils.StreamReverseSearch(buf, SndTag, offset, StaSearchLimit);
    if found == -1 then Ok(acc)
    else
      var name := CreateFileName([phoneme], style, offset, pitText(st.floats.pitch1));
      var snd :- ReadSoundAt(buf, found + 4);
      Ok(Extracted(acc.dumps + [Dump(name, snd.0)], acc.positions + [found]))
  }

  /** The same step as the extractor is written: it records the sample's offset, not the tag's. */
  function StaStepAsWritten(buf: seq<byte>, phoneme: string, st: Stap, style: Style,
                            pitText: F32 -> string, acc: Extracted): Result<Extracted>
  {
    var offset := st.snd.offset;
    var found := DdiUtils.StreamReverseSearch(buf, SndTag, offset, StaSearchLimit);
    if found == -1 then Ok(acc)
    else
      var name := CreateFileName([phoneme], style, offset, pitText(st.floats.pitch1));
      var snd :- ReadSoundAt(buf, found + 4);
      Ok(Extracted(acc.dumps + [Dump(name, snd.0)], acc.positions + [offset]))
  }

  /** The stationary samples of one unit, in order. */
  function StaItems(buf: seq<byte>, phoneme: string, staps: seq<(string, Stap)>, style: Style,
                    pitText: F32 -> string, acc: Extracted): Result<Extracted>
  {
    if |staps| == 0 then Ok(acc)
    else
      var a :- StaStep(buf, phoneme, staps[0].1, style, pitText, acc);
      StaItems(buf, phoneme, staps[1..], style, pitText, a)
  }

  /** Every stationary unit of the decoded index. */
  function StaEntries(buf: seq<byte>, sta: seq<(nat, Stau)>, style: Style,
                      pitText: F32 -> string, acc: Extracted): Result<Extracted>
  {
    if |sta| == 0 then Ok(acc)
    else
      var a :- StaItems(buf, sta[0].1.phoneme, sta[0].1.staps, style, pitText, acc);
      StaEntries(buf, sta[1..], style, pitText, a)
  }

  /** Every VQM entry, named as a growl. */
  function VqmEntries(buf: seq<byte>, vqm: seq<(int, Vqmp)>, style: Style,
                      pitText: F32 -> string, acc: Extracted): Result<Extracted>
  {
    if |vqm| == 0 then Ok(acc)
    else
      var a :- IndexedStep(buf, ["growl"], vqm[0].1.snd.offset, vqm[0].1.floats.pitch1, style, pitText, acc);
      VqmEntries(buf, vqm[1..], style, pitText, a)
  }

  /**
   * Every indexed sound: the articulations of the data dictionary, the stationary
   * units, then the VQM entries when the data dictionary has a `vqm` entry.
   */
  function Extract(buf: seq<byte>, art: seq<(string, seq<Sample>)>, sta: seq<(nat, Stau)>,
                   vqm: Option<seq<(int, Vqmp)>>, style: Style, pitText: F32 -> string): Result<Extracted>
  {
    var a :- ArtEntries(buf, art, style, pitText, Extracted([], []));
    var b :- StaEntries(buf, sta, style, pitText, a);
    if vqm.Some? then VqmEntries(buf, vqm.value, style, pitText, b) else Ok(b)
  }

  // ------------------------------------------------------------- what the dump promises

  /**
   * Every recorded offset holds a tag, and the sound dumped with it is the record
   * after that tag; there is one recorded offset per dumped sound.
   */
  predicate Faithful(buf: seq<byte>, acc: Extracted) {
    && |acc.dumps| == |acc.positions|
    && forall k :: 0 <= k < |acc.positions| ==> Recorded(buf, acc.dumps[k], acc.positions[k])
  }

  /** A dump recorded at `p`: the tag sits at `p` and the sound is the record after it. */
  predicate Recorded(buf: seq<byte>, d: Dump, p: int) {
    && MatchAt(buf, SndTag, p)
    && ReadSoundAt(buf, p + 4).Ok?
    && d.sound == ReadSoundAt(buf, p + 4).value.0
  }

  /** The four bytes `read(4)` gives at a non-negative offset are the tag only where the tag sits. */
  lemma {:induction false} SpanTag(buf: seq<byte>, p: nat)
    requires Span(buf, p, 4) == SndTag
    ensures MatchAt(buf, SndTag, p)
  {
  }

  /** Where the backwards search stops, the tag sits. */
  lemma {:induction false} FoundTag(buf: seq<byte>, p: int)
    requires p >= 1 && DdiUtils.SliceMatches(buf, SndTag, p)
    ensures MatchAt(buf, SndTag, p)
  {
    var a := SliceIndex(p, |buf|);
    var b := SliceIndex(p + 4, |buf|);
    assert |PySlice(buf, p, p + 4)| == 4;
    assert a < b && b - a == 4;
  }

  /** Recording one more tagged sound keeps the dump faithful. */
  lemma {:induction false} FaithfulAppend(buf: seq<byte>, acc: Extracted, d: Dump, p: int)
    requires Faithful(buf, acc) && Recorded(buf, d, p)
    ensures Faithful(buf, Extracted(acc.dumps + [d], acc.positions + [p]))
  {
    var ds := acc.dumps + [d];
    var ps := acc.positions + [p];
    forall k | 0 <= k < |ps|
      ensures Recorded(buf, ds[k], ps[k])
    {
      if k < |acc.positions| {
        assert ps[k] == acc.positions[k] && ds[k] == acc.dumps[k];
      }
    }
  }

  lemma {:induction false} IndexedStepFaithful(buf: seq<byte>, phonemes: seq<string>, offset: int, pitch: F32,
                                               style: Style, pitText: F32 -> string, acc: Extracted)
    requires Faithful(buf, acc) && IndexedStep(buf, phonemes, offset, pitch, style, pitText, acc).Ok?
    ensures Faithful(buf, IndexedStep(buf, phonemes, offset, pitch, style, pitText, acc).value)
  {
    if Span(buf, offset, 4) == SndTag {
      SpanTag(buf, offset);
      var d := Dump(CreateFileName(phonemes, style, offset, pitText(pitch)), ReadSoundAt(buf, offset + 4).value.0);
      FaithfulAppend(buf, acc, d, offset);
    }
  }

  lemma {:induction false} StaStepFaithful(buf: seq<byte>, phoneme: string, st: Stap, style: Style,
                                           pitText: F32 -> string, acc: Extracted)
    requires Faithful(buf, acc) && StaStep(buf, phoneme, st, style, pitText, acc).Ok?
    ensures Faithful(buf, StaStep(buf, phoneme, st, style, pitText, acc).value)
  {
    var found := DdiUtils.StreamReverseSearch(buf, SndTag, st.snd.offset, StaSearchLimit);
    if found != -1 {
      FoundTag(buf, found);
      var d := Dump(CreateFileName([phoneme], style, st.snd.offset, pitText(st.floats.pitch1)), ReadSoundAt(buf, found + 4).value.0);
      FaithfulAppend(buf, acc, d, found);
    }
  }

  lemma {:induction false} ArtItemsFaithful(buf: seq<byte>, phonemes: seq<string>, items: seq<Sample>, style: Style,
                                            pitText: F32 -> string, acc: Extracted)
    requires Faithful(buf, acc) && ArtItems(buf, phonemes, items, style, pitText, acc).Ok?
    ensures Faithful(buf, ArtItems(buf, phonemes, items, style, pitText, acc).value)
  {
    if |items| > 0 {
      IndexedStepFaithful(buf, phonemes, items[0].snd.offset, items[0].pitch, style, pitText, acc);
      var a := IndexedStep(buf, phonemes, items[0].snd.offset, items[0].pitch, style, pitText, acc).value;
      ArtItemsFaithful(buf, phonemes, items[1..], style, pitText, a);
    }
  }

  lemma {:induction false} ArtEntriesFaithful(buf: seq<byte>, art: seq<(string, seq<Sample>)>, style: Style,
                                              pitText: F32 -> string, acc: Extracted)
    requires Faithful(buf, acc) && ArtEntries(buf, art, style, pitText, acc).Ok?
    ensures Faithful(buf, ArtEntries(buf, art, style, pitText, acc).value)
  {
    if |art| > 0 {
      ArtItemsFaithful(buf, Split(art[0].0, ' '), art[0].1, style, pitText, acc);
      var a := ArtItems(buf, Split(art[0].0, ' '), art[0].1, style, pitText, acc).value;
      ArtEntriesFaithful(buf, art[1..], style, pitText, a);
    }
  }

  lemma {:induction false} StaItemsFaithful(buf: seq<byte>, phoneme: string, staps: seq<(string, Stap)>, style: Style,
                                            pitText: F32 -> string, acc: Extracted)
    requires Faithful(buf, acc) && StaItems(buf, phoneme, staps, style, pitText, acc).Ok?
    ensures Faithful(buf, StaItems(buf, phoneme, staps, style, pitText, acc).value)
  {
    if |staps| > 0 {
      StaStepFaithful(buf, phoneme, staps[0].1, style, pitText, acc);
      var a := StaStep(buf, phoneme, staps[0].1, style, pitText, acc).value;
      StaItemsFaithful(buf, phoneme, staps[1..], style, pitText, a);
    }
  }

  lemma {:induction false} StaEntriesFaithful(buf: seq<byte>, sta: seq<(nat, Stau)>, style: Style,
                                              pitText: F32 -> string, acc: Extracted)
    requires Faithful(buf, acc) && StaEntries(buf, sta, style, pitText, acc).Ok?
    ensures Faithful(buf, StaEntries(buf, sta, style, pitText, acc).value)
  {
    if |sta| > 0 {
      StaItemsFaithful(buf, sta[0].1.phoneme, sta[0].1.staps, style, pitText, acc);
      var a := StaItems(buf, sta[0].1.phoneme, sta[0].1.staps, style, pitText, acc).value;
      StaEntriesFaithful(buf, sta[1..], style, pitText, a);
    }
  }

  lemma {:induction false} VqmEntriesFaithful(buf: seq<byte>, vqm: seq<(int, Vqmp)>, style: Style,
                                              pitText: F32 -> string, acc: Extracted)
    requires Faithful(buf, acc) && VqmEntries(buf, vqm, style, pitText, acc).Ok?
    ensures Faithful(buf, VqmEntries(buf, vqm, style, pitText, acc).value)
  {
    if |vqm| > 0 {
      IndexedStepFaithful(buf, ["growl"], vqm[0].1.snd.offset, vqm[0].1.floats.pitch1, style, pitText, acc);
      var a := IndexedStep(buf, ["growl"], vqm[0].1.snd.offset, vqm[0].1.floats.pitch1, style, pitText, acc).value;
      VqmEntriesFaithful(buf, vqm[1..], style, pitText, a);
    }
  }

  /**
   * Every sound the extractor dumps is the record after a tag at the offset it
   * records for it, so the later scan for unindexed sounds can skip exactly these.
   */
  lemma {:induction false} ExtractFaithful(buf: seq<byte>, art: seq<(string, seq<Sample>)>, sta: seq<(nat, Stau)>,
                                           vqm: Option<seq<(int, Vqmp)>>, style: Style, pitText: F32 -> string)
    requires Extract(buf, art, sta, vqm, style, pitText).Ok?
    ensures Faithful(buf, Extract(buf, art, sta, vqm, style, pitText).value)
  {
    ArtEntriesFaithful(buf, art, style, pitText, Extracted([], []));
    var a := ArtEntries(buf, art, style, pitText, Extracted([], [])).value;
    StaEntriesFaithful(buf, sta, style, pitText, a);
    if vqm.Some? {
      VqmEntriesFaithful(buf, vqm.value, style, pitText, StaEntries(buf, sta, style, pitText, a).value);
    }
  }

  /** Whether some sample's sound cannot be dumped (see `IndexedBroken`). */
  predicate BrokenSample(buf: seq<byte>, items: seq<Sample>) {
    exists j :: 0 <= j < |items| && IndexedBroken(buf, items[j].snd.offset)
  }

  predicate BrokenArt(buf: seq<byte>, art: seq<(string, seq<Sample>)>) {
    exists i :: 0 <= i < |art| && BrokenSample(buf, art[i].1)
  }

  predicate BrokenVqm(buf: seq<byte>, vqm: seq<(int, Vqmp)>) {
    exists i :: 0 <= i < |vqm| && IndexedBroken(buf, vqm[i].1.snd.offset)
  }

  /** Whether a stationary sample's tag is found and its length field is below 17. */
  predicate BrokenStap(buf: seq<byte>, st: Stap) {
    var found := DdiUtils.StreamReverseSearch(buf, SndTag, st.snd.offset, StaSearchLimit);
    found != -1 && ShortSound(buf, found + 4)
  }

  predicate BrokenStaps(buf: seq<byte>, staps: seq<(string, Stap)>) {
    exists j :: 0 <= j < |staps| && BrokenStap(buf, staps[j].1)
  }

  predicate BrokenSta(buf: seq<byte>, sta: seq<(nat, Stau)>) {
    exists i :: 0 <= i < |sta| && BrokenStaps(buf, sta[i].1.staps)
  }

  lemma {:induction false} BrokenSampleCons(buf: seq<byte>, items: seq<Sample>)
    requires |items| > 0
    ensures BrokenSample(buf, items) <==> IndexedBroken(buf, items[0].snd.offset) || BrokenSample(buf, items[1..])
  {
    if BrokenSample(buf, items[1..]) {
      var j :| 0 <= j < |items[1..]| && IndexedBroken(buf, items[1..][j].snd.offset);
      assert items[1..][j] == items[j + 1];
    }
    if BrokenSample(buf, items) && !IndexedBroken(buf, items[0].snd.offset) {
      var j :| 0 <= j < |items| && IndexedBroken(buf, items[j].snd.offset);
      assert j > 0 && items[1..][j - 1] == items[j];
    }
  }

  /** An articulation's dump fails exactly when one of its samples cannot be dumped. */
  lemma {:induction false} ArtItemsFail(buf: seq<byte>, phonemes: seq<string>, items: seq<Sample>, style: Style,
                                        pitText: F32 -> string, acc: Extracted)
    ensures ArtItems(buf, phonemes, items, style, pitText, acc).Err? <==> BrokenSample(buf, items)
  {
    if |items| > 0 {
      BrokenSampleCons(buf, items);
      var step := IndexedStep(buf, phonemes, items[0].snd.offset, items[0].pitch, style, pitText, acc);
      if step.Ok? {
        ArtItemsFail(buf, phonemes, items[1..], style, pitText, step.value);
      }
    }
  }

  lemma {:induction false} ArtEntriesFail(buf: seq<byte>, art: seq<(string, seq<Sample>)>, style: Style,
                                          pitText: F32 -> string, acc: Extracted)
    ensures ArtEntries(buf, art, style, pitText, acc).Err? <==> BrokenArt(buf, art)
  {
    if |art| > 0 {
      ArtItemsFail(buf, Split(art[0].0, ' '), art[0].1, style, pitText, acc);
      var a := ArtItems(buf, Split(art[0].0, ' '), art[0].1, style, pitText, acc);
      if a.Ok? {
        ArtEntriesFail(buf, art[1..], style, pitText, a.value);
        if BrokenArt(buf, art[1..]) {
          var i :| 0 <= i < |art[1..]| && BrokenSample(buf, art[1..][i].1);
          assert art[1..][i] == art[i + 1];
        }
        if BrokenArt(buf, art) {
          var i :| 0 <= i < |art| && BrokenSample(buf, art[i].1);
          assert i > 0 && art[1..][i - 1] == art[i];
        }
      }
    }
  }

  lemma {:induction false} BrokenVqmCons(buf: seq<byte>, vqm: seq<(int, Vqmp)>)
    requires |vqm| > 0
    ensures BrokenVqm(buf, vqm) <==> IndexedBroken(buf, vqm[0].1.snd.offset) || BrokenVqm(buf, vqm[1..])
  {
    if BrokenVqm(buf, vqm[1..]) {
      var i :| 0 <= i < |vqm[1..]| && IndexedBroken(buf, vqm[1..][i].1.snd.offset);
      assert vqm[1..][i] == vqm[i + 1];
    }
    if BrokenVqm(buf, vqm) && !IndexedBroken(buf, vqm[0].1.snd.offset) {
      var i :| 0 <= i < |vqm| && IndexedBroken(buf, vqm[i].1.snd.offset);
      assert i > 0 && vqm[1..][i - 1] == vqm[i];
    }
  }

  lemma {:induction false} VqmEntriesFail(buf: seq<byte>, vqm: seq<(int, Vqmp)>, style: Style,
                                          pitText: F32 -> string, acc: Extracted)
    ensures VqmEntries(buf, vqm, style, pitText, acc).Err? <==> BrokenVqm(buf, vqm)
  {
    if |vqm| > 0 {
      BrokenVqmCons(buf, vqm);
      var step := IndexedStep(buf, ["growl"], vqm[0].1.snd.offset, vqm[0].1.floats.pitch1, style, pitText, acc);
      if step.Ok? {
        VqmEntriesFail(buf, vqm[1..], style, pitText, step.value);
      }
    }
  }

  /** A stationary sample fails exactly when its tag is found and its length field is below 17. */
  lemma {:induction false} StaStepFail(buf: seq<byte>, phoneme: string, st: Stap, style: Style,
                                       pitText: F32 -> string, acc: Extracted)
    ensures StaStep(buf, phoneme, st, style, pitText, acc).Err? <==> BrokenStap(buf, st)
  {
  }

  lemma {:induction false} BrokenStapsCons(buf: seq<byte>, staps: seq<(string, Stap)>)
    requires |staps| > 0
    ensures BrokenStaps(buf, staps) <==> BrokenStap(buf, staps[0].1) || BrokenStaps(buf, staps[1..])
  {
    if BrokenStaps(buf, staps[1..]) {
      var j :| 0 <= j < |staps[1..]| && BrokenStap(buf, staps[1..][j].1);
      assert staps[1..][j] == staps[j + 1];
    }
    if BrokenStaps(buf, staps) && !BrokenStap(buf, staps[0].1) {
      var j :| 0 <= j < |staps| && BrokenStap(buf, staps[j].1);
      assert j > 0 && staps[1..][j - 1] == staps[j];
    }
  }

  lemma {:induction false} StaItemsFail(buf: seq<byte>, phoneme: string, staps: seq<(string, Stap)>, style: Style,
                                        pitText: F32 -> string, acc: Extracted)
    ensures StaItems(buf, phoneme, staps, style, pitText, acc).Err? <==> BrokenStaps(buf, staps)
  {
    if |staps| > 0 {
      BrokenStapsCons(buf, staps);
      StaStepFail(buf, phoneme, staps[0].1, style, pitText, acc);
      var step := StaStep(buf, phoneme, staps[0].1, style, pitText, acc);
      if step.Ok? {
        StaItemsFail(buf, phoneme, staps[1..], style, pitText, step.value);
      }
    }
  }

  lemma {:induction false} StaEntriesFail(buf: seq<byte>, sta: seq<(nat, Stau)>, style: Style,
                                          pitText: F32 -> string, acc: Extracted)
    ensures StaEntries(buf, sta, style, pitText, acc).Err? <==> BrokenSta(buf, sta)
  {
    if |sta| > 0 {
      StaItemsFail(buf, sta[0].1.phoneme, sta[0].1.staps, style, pitText, acc);
      var a := StaItems(buf, sta[0].1.phoneme, sta[0].1.staps, style, pitText, acc);
      if a.Ok? {
        StaEntriesFail(buf, sta[1..], style, pitText, a.value);
        if BrokenSta(buf, sta[1..]) {
          var i :| 0 <= i < |sta[1..]| && BrokenStaps(buf, sta[1..][i].1.staps);
          assert sta[1..][i] == sta[i + 1];
        }
        if BrokenSta(buf, sta) {
          var i :| 0 <= i < |sta| && BrokenStaps(buf, sta[i].1.staps);
          assert i > 0 && sta[1..][i - 1] == sta[i];
        }
      }
    }
  }

  /**
   * The dump stops with an exception exactly when some sound cannot be dumped: an
   * articulation sample or a VQM entry (when they are dumped) at a negative offset,
   * or a tagged articulation, stationary or VQM sound whose length field is below 17.
   */
  lemma {:induction false} ExtractFails(buf: seq<byte>, art: seq<(string, seq<Sample>)>, sta: seq<(nat, Stau)>,
                                        vqm: Option<seq<(int, Vqmp)>>, style: Style, pitText: F32 -> string)
    ensures Extract(buf, art, sta, vqm, style, pitText).Err?
      <==> BrokenArt(buf, art) || BrokenSta(buf, sta) || (vqm.Some? && BrokenVqm(buf, vqm.value))
  {
    ArtEntriesFail(buf, art, style, pitText, Extracted([], []));
    var a := ArtEntries(buf, art, style, pitText, Extracted([], []));
    if a.Ok? {
      StaEntriesFail(buf, sta, style, pitText, a.value);
      var b := StaEntries(buf, sta, style, pitText, a.value);
      if b.Ok? && vqm.Some? {
        VqmEntriesFail(buf, vqm.value, style, pitText, b.value);
      }
    }
  }

  /** The offsets of the samples whose offset holds a tag, in order. */
  function TaggedOffsets(buf: seq<byte>, items: seq<Sample>): seq<int> {
    if |items| == 0 then []
    else
      var off := items[0].snd.offset;
      (if off >= 0 && Span(buf, off, 4) == SndTag then [off] else []) + TaggedOffsets(buf, items[1..])
  }

  /** One step records the offset exactly when it holds a tag. */
  lemma {:induction false} IndexedStepPositions(buf: seq<byte>, phonemes: seq<string>, offset: int, pitch: F32,
                                                style: Style, pitText: F32 -> string, acc: Extracted)
    requires IndexedStep(buf, phonemes, offset, pitch, style, pitText, acc).Ok?
    ensures IndexedStep(buf, phonemes, offset, pitch, style, pitText, acc).value.positions
      == acc.positions + (if offset >= 0 && Span(buf, offset, 4) == SndTag then [offset] else [])
  {
  }

  /** An articulation dumps exactly its samples whose offset holds a tag, in order. */
  lemma {:induction false} ArtItemsPositions(buf: seq<byte>, phonemes: seq<string>, items: seq<Sample>, style: Style,
                                             pitText: F32 -> string, acc: Extracted)
    requires ArtItems(buf, phonemes, items, style, pitText, acc).Ok?
    ensures ArtItems(buf, phonemes, items, style, pitText, acc).value.positions == acc.positions + TaggedOffsets(buf, items)
  {
    if |items| > 0 {
      var off := items[0].snd.offset;
      var step := IndexedStep(buf, phonemes, off, items[0].pitch, style, pitText, acc);
      ArtItemsAdvance(buf, phonemes, items, 0, style, pitText, acc, step);
      assert items[0..] == items;
      IndexedStepPositions(buf, phonemes, off, items[0].pitch, style, pitText, acc);
      ArtItemsPositions(buf, phonemes, items[1..], style, pitText, step.value);
      var head := if off >= 0 && Span(buf, off, 4) == SndTag then [off] else [];
      assert TaggedOffsets(buf, items) == head + TaggedOffsets(buf, items[1..]);
      assert acc.positions + head + TaggedOffsets(buf, items[1..]) == acc.positions + (head + TaggedOffsets(buf, items[1..]));
    }
  }

  /**
   * As written, a stationary sound found at `found` is recorded under the sample's
   * own offset, which lies at least 4 bytes after the tag: the recorded offset is
   * never where the tag is, so the scan for unindexed sounds dumps it again.
   */
  lemma {:induction false} StaStepAsWrittenMisses(buf: seq<byte>, phoneme: string, st: Stap, style: Style,
                                                  pitText: F32 -> string, acc: Extracted)
    requires DdiUtils.StreamReverseSearch(buf, SndTag, st.snd.offset, StaSearchLimit) != -1
    ensures var found := DdiUtils.StreamReverseSearch(buf, SndTag, st.snd.offset, StaSearchLimit);
      var r := StaStepAsWritten(buf, phoneme, st, style, pitText, acc);
      && MatchAt(buf, SndTag, found)
      && (r.Ok? <==> !ShortSound(buf, found + 4))
      && (r.Ok? ==> r.value.positions == acc.positions + [st.snd.offset])
      && st.snd.offset >= found + 4
  {
    var found := DdiUtils.StreamReverseSearch(buf, SndTag, st.snd.offset, StaSearchLimit);
    FoundTag(buf, found);
  }

  /** The corrected step dumps the same sound and records the tag's own position. */
  lemma {:induction false} StaStepRecordsTag(buf: seq<byte>, phoneme: string, st: Stap, style: Style,
                                             pitText: F32 -> string, acc: Extracted)
    requires DdiUtils.StreamReverseSearch(buf, SndTag, st.snd.offset, StaSearchLimit) != -1
    ensures var found := DdiUtils.StreamReverseSearch(buf, SndTag, st.snd.offset, StaSearchLimit);
      var r := StaStep(buf, phoneme, st, style, pitText, acc);
      var w := StaStepAsWritten(buf, phoneme, st, style, pitText, acc);
      && MatchAt(buf, SndTag, found)
      && (r.Ok? <==> w.Ok?)
      && (r.Ok? ==> r.value.positions == acc.positions + [found] && r.value.dumps == w.value.dumps)
  {
    var found := DdiUtils.StreamReverseSearch(buf, SndTag, st.snd.offset, StaSearchLimit);
    FoundTag(buf, found);
  }

  // ------------------------------------------------------------- the dump loops

  /** One indexed sound, read through the ddb file's cursor. */
  method DumpIndexed(ddb: Stream, phonemes: seq<string>, offset: int, pitch: F32, style: Style,
                     pitText: F32 -> string, acc: Extracted) returns (r: Result<Extracted>)
    modifies ddb
    ensures ddb.data == old(ddb.data)
    ensures r == IndexedStep(old(ddb.data), phonemes, offset, pitch, style, pitText, acc)
  {
    var name := CreateFileName(phonemes, style, offset, pitText(pitch));
    var sought := ddb.Seek(offset);
    if sought.Fail? {
      return Err(sought.error);
    }
    var ident := ddb.Read(4);
    if ident != SndTag {
      return Ok(acc);
    }
    var snd := ReadSound(ddb);
    if snd.Err? {
      return Err(snd.error);
    }
    r := Ok(Extracted(acc.dumps + [Dump(name, snd.value)], acc.positions + [offset]));
  }

  /** The samples of one articulation, in order. */
  method DumpArtItems(ddb: Stream, phonemes: seq<string>, items: seq<Sample>, style: Style,
                      pitText: F32 -> string, acc0: Extracted) returns (r: Result<Extracted>)
    modifies ddb
    ensures ddb.data == old(ddb.data)
    ensures r == ArtItems(old(ddb.data), phonemes, items, style, pitText, acc0)
  {
    ghost var buf := ddb.data;
    var acc := acc0;
    var j := 0;
    while j < |items|
      invariant 0 <= j <= |items| && ddb.data == buf
      invariant ArtItems(buf, phonemes, items, style, pitText, acc0) == ArtItems(buf, phonemes, items[j..], style, pitText, acc)
    {
      var step := DumpIndexed(ddb, phonemes, items[j].snd.offset, items[j].pitch, style, pitText, acc);
      ArtItemsAdvance(buf, phonemes, items, j, style, pitText, acc, step);
      if step.Err? {
        return Err(step.error);
      }
      acc := step.value;
      j := j + 1;
    }
    r := Ok(acc);
  }

  /** The articulation loop: every sample of every articulation, in dictionary order. */
  method DumpArticulations(ddb: Stream, art: seq<(string, seq<Sample>)>, style: Style,
                           pitText: F32 -> string, acc0: Extracted) returns (r: Result<Extracted>)
    modifies ddb
    ensures ddb.data == old(ddb.data)
    ensures r == ArtEntries(old(ddb.data), art, style, pitText, acc0)
  {
    ghost var buf := ddb.data;
    var acc := acc0;
    var i := 0;
    while i < |art|
      invariant 0 <= i <= |art| && ddb.data == buf
      invariant ArtEntries(buf, art, style, pitText, acc0) == ArtEntries(buf, art[i..], style, pitText, acc)
    {
      var step := DumpArtItems(ddb, Split(art[i].0, ' '), art[i].1, style, pitText, acc);
      ArtEntriesAdvance(buf, art, i, style, pitText, acc, step);
      if step.Err? {
        return Err(step.error);
      }
      acc := step.value;
      i := i + 1;
    }
    r := Ok(acc);
  }

  lemma {:induction false} ArtEntriesAdvance(buf: seq<byte>, art: seq<(string, seq<Sample>)>, i: nat,
                                             style: Style, pitText: F32 -> string, acc: Extracted, step: Result<Extracted>)
    requires i < |art|
    requires step == ArtItems(buf, Split(art[i].0, ' '), art[i].1, style, pitText, acc)
    ensures step.Err? ==> ArtEntries(buf, art[i..], style, pitText, acc) == Err(step.error)
    ensures step.Ok? ==> ArtEntries(buf, art[i..], style, pitText, acc) == ArtEntries(buf, art[i + 1..], style, pitText, step.value)
  {
    assert art[i..][0] == art[i] && art[i..][1..] == art[i + 1..];
  }

  lemma {:induction false} ArtItemsAdvance(buf: seq<byte>, phonemes: seq<string>, items: seq<Sample>, j: nat,
                                           style: Style, pitText: F32 -> string, acc: Extracted, step: Result<Extracted>)
    requires j < |items|
    requires step == IndexedStep(buf, phonemes, items[j].snd.offset, items[j].pitch, style, pitText, acc)
    ensures step.Err? ==> ArtItems(buf, phonemes, items[j..], style, pitText, acc) == Err(step.error)
    ensures step.Ok? ==> ArtItems(buf, phonemes, items[j..], style, pitText, acc)
                         == ArtItems(buf, phonemes, items[j + 1..], style, pitText, step.value)
  {
    assert items[j..][0] == items[j] && items[j..][1..] == items[j + 1..];
  }

  lemma {:induction false} VqmEntriesAdvance(buf: seq<byte>, vqm: seq<(int, Vqmp)>, i: nat,
                                             style: Style, pitText: F32 -> string, acc: Extracted, step: Result<Extracted>)
    requires i < |vqm|
    requires step == IndexedStep(buf, ["growl"], vqm[i].1.snd.offset, vqm[i].1.floats.pitch1, style, pitText, acc)
    ensures step.Err? ==> VqmEntries(buf, vqm[i..], style, pitText, acc) == Err(step.error)
    ensures step.Ok? ==> VqmEntries(buf, vqm[i..], style, pitText, acc) == VqmEntries(buf, vqm[i + 1..], style, pitText, step.value)
  {
    assert vqm[i..][0] == vqm[i] && vqm[i..][1..] == vqm[i + 1..];
  }

  /** One stationary sample: the backwards search for its tag, then the record after it. */
  method DumpStationary(ddb: Stream, phoneme: string, st: Stap, style: Style,
                        pitText: F32 -> string, acc: Extracted) returns (r: Result<Extracted>)
    modifies ddb
    ensures ddb.data == old(ddb.data)
    ensures r == StaStep(old(ddb.data), phoneme, st, style, pitText, acc)
  {
    var offset := st.snd.offset;
    var name := CreateFileName([phoneme], style, offset, pitText(st.floats.pitch1));
    var found := DdiUtils.ReverseSearchLoop(ddb.data, SndTag, offset, StaSearchLimit);
    if found == -1 {
      return Ok(acc);
    }
    var sought := ddb.Seek(found + 4);
    var snd := ReadSound(ddb);
    if snd.Err? {
      return Err(snd.error);
    }
    r := Ok(Extracted(acc.dumps + [Dump(name, snd.value)], acc.positions + [found]));
  }

  /** The samples of one stationary unit, in order. */
  method DumpStaItems(ddb: Stream, phoneme: string, staps: seq<(string, Stap)>, style: Style,
                      pitText: F32 -> string, acc0: Extracted) returns (r: Result<Extracted>)
    modifies ddb
    ensures ddb.data == old(ddb.data)
    ensures r == StaItems(old(ddb.data), phoneme, staps, style, pitText, acc0)
  {
    ghost var buf := ddb.data;
    var acc := acc0;
    var j := 0;
    while j < |staps|
      invariant 0 <= j <= |staps| && ddb.data == buf
      invariant StaItems(buf, phoneme, staps, style, pitText, acc0) == StaItems(buf, phoneme, staps[j..], style, pitText, acc)
    {
      var step := DumpStationary(ddb, phoneme, staps[j].1, style, pitText, acc);
      StaItemsAdvance(buf, phoneme, staps, j, style, pitText, acc, step);
      if step.Err? {
        return Err(step.error);
      }
      acc := step.value;
      j := j + 1;
    }
    r := Ok(acc);
  }

  /** The stationary loop: every sample of every unit, in index order. */
  method DumpStationaries(ddb: Stream, sta: seq<(nat, Stau)>, style: Style,
                          pitText: F32 -> string, acc0: Extracted) returns (r: Result<Extracted>)
    modifies ddb
    ensures ddb.data == old(ddb.data)
    ensures r == StaEntries(old(ddb.data), sta, style, pitText, acc0)
  {
    ghost var buf := ddb.data;
    var acc := acc0;
    var i := 0;
    while i < |sta|
      invariant 0 <= i <= |sta| && ddb.data == buf
      invariant StaEntries(buf, sta, style, pitText, acc0) == StaEntries(buf, sta[i..], style, pitText, acc)
    {
      var step := DumpStaItems(ddb, sta[i].1.phoneme, sta[i].1.staps, style, pitText, acc);
      StaEntriesAdvance(buf, sta, i, style, pitText, acc, step);
      if step.Err? {
        return Err(step.error);
      }
      acc := step.value;
      i := i + 1;
    }
    r := Ok(acc);
  }

  lemma {:induction false} StaItemsAdvance(buf: seq<byte>, phoneme: string, staps: seq<(string, Stap)>, j: nat,
                                           style: Style, pitText: F32 -> string, acc: Extracted, step: Result<Extracted>)
    requires j < |staps|
    requires step == StaStep(buf, phoneme, staps[j].1, style, pitText, acc)
    ensures step.Err? ==> StaItems(buf, phoneme, staps[j..], style, pitText, acc) == Err(step.error)
    ensures step.Ok? ==> StaItems(buf, phoneme, staps[j..], style, pitText, acc)
                         == StaItems(buf, phoneme, staps[j + 1..], style, pitText, step.value)
  {
    assert staps[j..][0] == staps[j] && staps[j..][1..] == staps[j + 1..];
  }

  lemma {:induction false} StaEntriesAdvance(buf: seq<byte>, sta: seq<(nat, Stau)>, i: nat,
                                             style: Style, pitText: F32 -> string, acc: Extracted, step: Result<Extracted>)
    requires i < |sta|
    requires step == StaItems(buf, sta[i].1.phoneme, sta[i].1.staps, style, pitText, acc)
    ensures step.Err? ==> StaEntries(buf, sta[i..], style, pitText, acc) == Err(step.error)
    ensures step.Ok? ==> StaEntries(buf, sta[i..], style, pitText, acc) == StaEntries(buf, sta[i + 1..], style, pitText, step.value)
  {
    assert sta[i..][0] == sta[i] && sta[i..][1..] == sta[i + 1..];
  }

  /** The VQM loop: every entry, in index order, named as a growl. */
  method DumpGrowls(ddb: Stream, vqm: seq<(int, Vqmp)>, style: Style,
                    pitText: F32 -> string, acc0: Extracted) returns (r: Result<Extracted>)
    modifies ddb
    ensures ddb.data == old(ddb.data)
    ensures r == VqmEntries(old(ddb.data), vqm, style, pitText, acc0)
  {
    ghost var buf := ddb.data;
    var acc := acc0;
    var i := 0;
    while i < |vqm|
      invariant 0 <= i <= |vqm| && ddb.data == buf
      invariant VqmEntries(buf, vqm, style, pitText, acc0) == VqmEntries(buf, vqm[i..], style, pitText, acc)
    {
      var step := DumpIndexed(ddb, ["growl"], vqm[i].1.snd.offset, vqm[i].1.floats.pitch1, style, pitText, acc);
      VqmEntriesAdvance(buf, vqm, i, style, pitText, acc, step);
      if step.Err? {
        return Err(step.error);
      }
      acc := step.value;
      i := i + 1;
    }
    r := Ok(acc);
  }

  /**
   * The extractor's dump of indexed sounds: articulations, stationaries, then the
   * VQM entries when there are any, all read from the ddb file through one cursor.
   */
  method ExtractIndexed(ddb: Stream, art: seq<(string, seq<Sample>)>, sta: seq<(nat, Stau)>,
                        vqm: Option<seq<(int, Vqmp)>>, style: Style, pitText: F32 -> string)
    returns (r: Result<Extracted>)
    modifies ddb
    ensures ddb.data == old(ddb.data)
    ensures r == Extract(old(ddb.data), art, sta, vqm, style, pitText)
  {
    var a := DumpArticulations(ddb, art, style, pitText, Extracted([], []));
    if a.Err? {
      return a;
    }
    var b := DumpStationaries(ddb, sta, style, pitText, a.value);
    if b.Err? || vqm.None? {
      return b;
    }
    r := DumpGrowls(ddb, vqm.value, style, pitText, b.value);
  }
}
