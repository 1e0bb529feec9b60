/**
 * The text files written next to an extracted sound: the transcription, the
 * segmentation table (`.seg`) and the articulation segmentation (`.as0`).
 *
 * Times and boundaries reach these builders as the text their `%.6f` / `%.9f`
 * formatting produces; the formatting of floating-point numbers itself is not
 * modelled, so a row carries its times already rendered.
 */
module Seg {
  import opened Wrappers
  import opened Text

  /** One row of a segmentation: the phoneme and its begin and end times, rendered with `%.6f`. */
  datatype SegRow = SegRow(phoneme: string, begin: string, end: string)

  /** `"%.6f" % 0`. */
  const ZeroTime: string := "0.000000"

  /** The phoneme names of the rows, in order. */
  function Names(rows: seq<SegRow>): (r: seq<string>)
    ensures |r| == |rows| && forall i :: 0 <= i < |rows| ==> r[i] == rows[i].phoneme
  {
    if |rows| == 0 then [] else Names(rows[..|rows| - 1]) + [rows[|rows| - 1].phoneme]
  }

  /** The two lines of a transcription: the names, then the same names in brackets. */
  function TranscriptionText(rows: seq<SegRow>): string {
    var line := Join(Names(rows), " ");
    Join([line, "[" + line + "]"], "\n")
  }

  /** `generate_transcription`: collects the phoneme names in a loop, then joins the two lines. */
  method GenerateTranscription(rows: seq<SegRow>) returns (r: string)
    ensures r == TranscriptionText(rows)
  {
    var names: seq<string> := [];
    var i := 0;
    while i < |rows|
      invariant 0 <= i <= |rows|
      invariant names == Names(rows[..i])
    {
      assert rows[..i + 1][..i] == rows[..i];
      names := names + [rows[i].phoneme];
      i := i + 1;
    }
    assert rows[..i] == rows;
    var line := Join(names, " ");
    r := Join([line, "[" + line + "]"], "\n");
  }

  /** `sep.join(parts + [last]) == sep.join(parts) + sep + last`. */
  lemma {:induction false} JoinAppend(parts: seq<string>, last: string, sep: string)
    requires |parts| >= 1
    ensures Join(parts + [last], sep) == Join(parts, sep) + sep + last
  {
    if |parts| > 1 {
      assert (parts + [last])[1..] == parts[1..] + [last];
      JoinAppend(parts[1..], last, sep);
    }
  }

  /** A transcription is exactly two lines: the names and the bracketed names. */
  lemma {:induction false} TranscriptionLines(rows: seq<SegRow>)
    requires forall i :: 0 <= i < |rows| ==> '\n' !in rows[i].phoneme
    ensures var line := Join(Names(rows), " ");
      Split(TranscriptionText(rows), '\n') == [line, "[" + line + "]"]
  {
    var names := Names(rows);
    var line := Join(names, " ");
    JoinExcludes(names, " ", '\n');
    var bracketed := "[" + line + "]";
    assert '\n' !in bracketed;
    var pair := [line, bracketed];
    assert pair[1..] == [bracketed];
    SplitJoin(pair, '\n');
  }

  lemma {:induction false} DecimalNoNewline(n: int)
    ensures '\n' !in "nPhonemes " + IntToDecimal(n)
  {
  }

  /** One line of the table: name and the two times, separated by two tabs each. */
  function RowLine(name: string, begin: string, end: string): string {
    name + "\t\t" + begin + "\t\t" + end
  }

  /** `"unknown"` labels the silences of a stationary, `"Sil"` those of an articulation. */
  function SilLabel(isSta: bool): string {
    if isSta then "unknown" else "Sil"
  }

  /** The four header lines of a `.seg` file describing `n` phonemes. */
  function SegHeader(n: nat, isSta: bool): seq<string> {
    [ "nPhonemes " + IntToDecimal(n + 2),
      "articulationsAreStationaries = " + (if isSta then "1" else "0"),
      "phoneme\t\tBeginTime\t\tEndTime",
      Repeat('=', 51) ]
  }

  /** The table lines of the rows, one per row, in order. */
  function RowLines(rows: seq<SegRow>): (r: seq<string>)
    ensures |r| == |rows|
    ensures forall i :: 0 <= i < |rows| ==> r[i] == RowLine(rows[i].phoneme, rows[i].begin, rows[i].end)
  {
    if |rows| == 0 then []
    else RowLines(rows[..|rows| - 1]) + [RowLine(rows[|rows| - 1].phoneme, rows[|rows| - 1].begin, rows[|rows| - 1].end)]
  }

  /** All lines of a `.seg` file: header, leading silence, the rows, trailing silence. */
  function SegLines(rows: seq<SegRow>, wavLength: string, isSta: bool): seq<string>
    requires |rows| > 0
  {
    var sil := SilLabel(isSta);
    SegHeader(|rows|, isSta)
      + [RowLine(sil, ZeroTime, rows[0].begin)]
      + RowLines(rows)
      + [RowLine(sil, rows[|rows| - 1].end, wavLength)]
  }

  /** The `.seg` text: the lines joined by newlines, with a final newline; an empty list is an IndexError. */
  function SegText(rows: seq<SegRow>, wavLength: string, isSta: bool): Result<string> {
    if |rows| == 0 then Err(IndexOutOfRange)
    else Ok(Join(SegLines(rows, wavLength, isSta), "\n") + "\n")
  }

  /**
   * `generate_seg`: the header, a silence up to the first begin time, one row per
   * phoneme appended in a loop that remembers the last end time, and a silence from
   * that end time to the length of the sound.
   */
  method GenerateSeg(rows: seq<SegRow>, wavLength: string, isSta: bool) returns (r: Result<string>)
    ensures r == SegText(rows, wavLength, isSta)
  {
    var sil := SilLabel(isSta);
    var content := SegHeader(|rows|, isSta);
    if |rows| == 0 {
      return Err(IndexOutOfRange);
    }
    content := content + [RowLine(sil, ZeroTime, rows[0].begin)];
    ghost var head := content;
    var endTime := ZeroTime;
    var i := 0;
    while i < |rows|
      invariant 0 <= i <= |rows|
      invariant content == head + RowLines(rows[..i])
      invariant i > 0 ==> endTime == rows[i - 1].end
    {
      assert rows[..i + 1][..i] == rows[..i];
      content := content + [RowLine(rows[i].phoneme, rows[i].begin, rows[i].end)];
      endTime := rows[i].end;
      i := i + 1;
    }
    assert rows[..i] == rows;
    content := content + [RowLine(sil, endTime, wavLength)];
    r := Ok(Join(content, "\n") + "\n");
  }

  /**
   * The `.seg` text has exactly 4 + n + 2 lines and ends in a newline: split on
   * newlines it gives the header, the silence up to the first begin, the n rows,
   * the silence from the last end to the sound's length, and an empty remainder.
   */
  lemma {:induction false} SegTextLines(rows: seq<SegRow>, wavLength: string, isSta: bool)
    requires |rows| > 0
    requires forall i :: 0 <= i < |rows| ==> '\n' !in RowLine(rows[i].phoneme, rows[i].begin, rows[i].end)
    requires '\n' !in RowLine(SilLabel(isSta), rows[|rows| - 1].end, wavLength)
    requires '\n' !in rows[0].begin
    ensures var n := |rows|; var ls := Split(SegText(rows, wavLength, isSta).value, '\n');
      && |ls| == 4 + n + 2 + 1 && ls[4 + n + 2] == ""
      && ls[0] == "nPhonemes " + IntToDecimal(n + 2)
      && ls[1] == "articulationsAreStationaries = " + (if isSta then "1" else "0")
      && ls[4] == RowLine(SilLabel(isSta), ZeroTime, rows[0].begin)
      && (forall i :: 0 <= i < n ==> ls[5 + i] == RowLine(rows[i].phoneme, rows[i].begin, rows[i].end))
      && ls[5 + n] == RowLine(SilLabel(isSta), rows[n - 1].end, wavLength)
  {
    var lines := SegLines(rows, wavLength, isSta);
    JoinAppend(lines, "", "\n");
    var all := lines + [""];
    SegLinesLayout(rows, wavLength, isSta);
    assert SegText(rows, wavLength, isSta).value == Join(all, "\n");
    SplitJoin(all, '\n');
  }

  /** The pieces of a `.seg` text with its empty remainder, none holding a newline. */
  lemma {:induction false} SegLinesLayout(rows: seq<SegRow>, wavLength: string, isSta: bool)
    requires |rows| > 0
    requires forall i :: 0 <= i < |rows| ==> '\n' !in RowLine(rows[i].phoneme, rows[i].begin, rows[i].end)
    requires '\n' !in RowLine(SilLabel(isSta), rows[|rows| - 1].end, wavLength)
    requires '\n' !in rows[0].begin
    ensures var n := |rows|; var all := SegLines(rows, wavLength, isSta) + [""];
      && |all| == 4 + n + 2 + 1 && all[4 + n + 2] == ""
      && all[0] == "nPhonemes " + IntToDecimal(n + 2)
      && all[1] == "articulationsAreStationaries = " + (if isSta then "1" else "0")
      && all[4] == RowLine(SilLabel(isSta), ZeroTime, rows[0].begin)
      && (forall i :: 0 <= i < n ==> all[5 + i] == RowLine(rows[i].phoneme, rows[i].begin, rows[i].end))
      && all[5 + n] == RowLine(SilLabel(isSta), rows[n - 1].end, wavLength)
      && (forall i :: 0 <= i < |all| ==> '\n' !in all[i])
  {
    var n := |rows|;
    var h := SegHeader(n, isSta);
    var first := RowLine(SilLabel(isSta), ZeroTime, rows[0].begin);
    var last := RowLine(SilLabel(isSta), rows[n - 1].end, wavLength);
    var rl := RowLines(rows);
    var all := h + [first] + rl + [last, ""];
    assert SegLines(rows, wavLength, isSta) + [""] == all;
    HeaderNoNewline(n, isSta);
    assert '\n' !in first by {
      assert first == SilLabel(isSta) + "\t\t" + ZeroTime + "\t\t" + rows[0].begin;
    }
    PiecesNoNewline(h, first, rl, last);
    forall i | 0 <= i < n
      ensures all[5 + i] == RowLine(rows[i].phoneme, rows[i].begin, rows[i].end)
    {
      assert all[5 + i] == rl[i];
    }
  }

  lemma {:induction false} HeaderNoNewline(n: nat, isSta: bool)
    ensures forall i :: 0 <= i < 4 ==> '\n' !in SegHeader(n, isSta)[i]
  {
    DecimalNoNewline(n + 2);
    var h := SegHeader(n, isSta);
    assert '\n' !in h[1] by {
      assert '\n' !in "articulationsAreStationaries = ";
    }
    assert '\n' !in h[2];
    assert '\n' !in h[3];
  }

  lemma {:induction false} PiecesNoNewline(h: seq<string>, first: string, rl: seq<string>, last: string)
    requires |h| == 4 && forall i :: 0 <= i < 4 ==> '\n' !in h[i]
    requires '\n' !in first && '\n' !in last
    requires forall i :: 0 <= i < |rl| ==> '\n' !in rl[i]
    ensures var all := h + [first] + rl + [last, ""];
      forall i :: 0 <= i < |all| ==> '\n' !in all[i]
  {
    var all := h + [first] + rl + [last, ""];
    forall i | 0 <= i < |all|
      ensures '\n' !in all[i]
    {
      if i < 4 {
        assert all[i] == h[i];
      } else if i == 4 {
        assert all[i] == first;
      } else if i < 5 + |rl| {
        assert all[i] == rl[i - 5];
      } else if i == 5 + |rl| {
        assert all[i] == last;
      } else {
        assert all[i] == "";
      }
    }
  }

  /** `str(flag).lower()`. */
  function BoolText(b: bool): string {
    if b then "true" else "false"
  }

  /** A phoneme is unvoiced when the caller lists it or it is one of Sil, Asp and `?`. */
  predicate IsUnvoiced(p: string, unvoiced: seq<string>) {
    p in unvoiced || p in ["Sil", "Asp", "?"]
  }

  /** The flags appended for the phoneme at index `j`: two for the middle of a triphoneme, else one. */
  function FlagGroup(phonemes: seq<string>, unvoiced: seq<string>, j: nat): seq<string>
    requires j < |phonemes|
  {
    var f := BoolText(!IsUnvoiced(phonemes[j], unvoiced));
    if |phonemes| == 3 && j == 1 then [f, f] else [f]
  }

  /** The flags of the first `i` phonemes. */
  function FlagsUpTo(phonemes: seq<string>, unvoiced: seq<string>, i: nat): seq<string>
    requires i <= |phonemes|
  {
    if i == 0 then [] else FlagsUpTo(phonemes, unvoiced, i - 1) + FlagGroup(phonemes, unvoiced, i - 1)
  }

  /** The text of an articulation segmentation; `wavSamples / 2` is the floor of the half. */
  function ArtSegText(phonemes: seq<string>, boundaries: seq<string>, wavSamples: int, flags: seq<string>): string {
    Join(ArtSegParts(phonemes, boundaries, wavSamples, flags), "\n")
  }

  /** The ten lines of the articulation segmentation, before they are joined. */
  function ArtSegParts(phonemes: seq<string>, boundaries: seq<string>, wavSamples: int, flags: seq<string>): seq<string> {
    [ "nphone art segmentation",
      "{",
      "\tphns: [\"" + Join(phonemes, "\", \"") + "\"];",
      "\tcut offset: 0;",
      "\tcut length: " + IntToDecimal(wavSamples / 2) + ";",
      "\tboundaries: [" + Join(boundaries, ", ") + "];",
      "\trevised: false;",
      "\tvoiced: [" + Join(flags, ", ") + "];",
      "};",
      "" ]
  }

  /**
   * `generate_articulation_seg`: the fixed lines, then the voiced flags collected in a
   * loop. The boundaries arrive already rendered with `%.9f`.
   */
  method GenerateArticulationSeg(phonemes: seq<string>, boundaries: seq<string>, wavSamples: int,
                                 unvoiced: seq<string>) returns (r: string)
    ensures r == ArtSegText(phonemes, boundaries, wavSamples, FlagsUpTo(phonemes, unvoiced, |phonemes|))
  {
    var voiced: seq<string> := [];
    var isTriphoneme := |phonemes| == 3;
    var i := 0;
    while i < |phonemes|
      invariant 0 <= i <= |phonemes|
      invariant voiced == FlagsUpTo(phonemes, unvoiced, i)
    {
      var isUnvoiced := phonemes[i] in unvoiced || phonemes[i] in ["Sil", "Asp", "?"];
      voiced := voiced + [BoolText(!isUnvoiced)];
      if isTriphoneme && i == 1 {
        voiced := voiced + [BoolText(!isUnvoiced)];
      }
      i := i + 1;
    }
    r := ArtSegText(phonemes, boundaries, wavSamples, voiced);
  }

  /** Where the flag of phoneme `j` sits: one further right after a triphoneme's middle. */
  function FlagIndex(n: nat, j: nat): nat {
    if n == 3 && j == 2 then 3 else j
  }

  /**
   * One flag per phoneme plus a duplicate for the middle phoneme of a triphoneme;
   * each phoneme's flag is "false" exactly when it is unvoiced.
   */
  lemma {:induction false} FlagsLayout(phonemes: seq<string>, unvoiced: seq<string>, i: nat)
    requires i <= |phonemes|
    ensures var fs := FlagsUpTo(phonemes, unvoiced, i);
      && |fs| == i + (if |phonemes| == 3 && i >= 2 then 1 else 0)
      && (forall j :: 0 <= j < i ==> fs[FlagIndex(|phonemes|, j)] == BoolText(!IsUnvoiced(phonemes[j], unvoiced)))
      && (forall j :: 0 <= j < i ==> (fs[FlagIndex(|phonemes|, j)] == "false" <==> IsUnvoiced(phonemes[j], unvoiced)))
      && (|phonemes| == 3 && i >= 2 ==> fs[2] == fs[1])
  {
    if i > 0 {
      FlagsLayout(phonemes, unvoiced, i - 1);
    }
  }

  /**
   * The articulation segmentation is ten lines, the last one empty; the cut length
   * line holds the exact floor of half the sample count, for odd and negative counts
   * too. Python's float division agrees with it only while the count's magnitude
   * is at most 2^53.
   */
  lemma {:induction false} ArtSegLines(phonemes: seq<string>, boundaries: seq<string>, wavSamples: int, flags: seq<string>, half: int)
    requires forall i :: 0 <= i < |phonemes| ==> '\n' !in phonemes[i]
    requires forall i :: 0 <= i < |boundaries| ==> '\n' !in boundaries[i]
    requires forall i :: 0 <= i < |flags| ==> '\n' !in flags[i]
    requires 2 * half <= wavSamples < 2 * half + 2
    ensures var ls := Split(ArtSegText(phonemes, boundaries, wavSamples, flags), '\n');
      && |ls| == 10 && ls[9] == ""
      && ls[2] == "\tphns: [\"" + Join(phonemes, "\", \"") + "\"];"
      && ls[4] == "\tcut length: " + IntToDecimal(half) + ";"
      && ls[7] == "\tvoiced: [" + Join(flags, ", ") + "];"
  {
    assert wavSamples / 2 == half;
    ArtSegPartsClean(phonemes, boundaries, wavSamples, flags);
    SplitJoin(ArtSegParts(phonemes, boundaries, wavSamples, flags), '\n');
  }

  /** The fixed text of the articulation segmentation has no line break. */
  lemma FixedArtLinesClean()
    ensures '\n' !in "nphone art segmentation" && '\n' !in "{" && '\n' !in "\tcut offset: 0;"
    ensures '\n' !in "\trevised: false;" && '\n' !in "};"
    ensures '\n' !in "\tphns: [\"" && '\n' !in "\"];" && '\n' !in "\tcut length: " && '\n' !in ";"
    ensures '\n' !in "\tboundaries: [" && '\n' !in "];" && '\n' !in "\tvoiced: ["
  {
  }

  /** No line of the articulation segmentation holds a line break when no input does. */
  lemma ArtSegPartsClean(phonemes: seq<string>, boundaries: seq<string>, wavSamples: int, flags: seq<string>)
    requires forall i :: 0 <= i < |phonemes| ==> '\n' !in phonemes[i]
    requires forall i :: 0 <= i < |boundaries| ==> '\n' !in boundaries[i]
    requires forall i :: 0 <= i < |flags| ==> '\n' !in flags[i]
    ensures var ls := ArtSegParts(phonemes, boundaries, wavSamples, flags);
      |ls| == 10 && forall i :: 0 <= i < |ls| ==> '\n' !in ls[i]
  {
    JoinExcludes(phonemes, "\", \"", '\n');
    JoinExcludes(boundaries, ", ", '\n');
    JoinExcludes(flags, ", ", '\n');
    var ls := ArtSegParts(phonemes, boundaries, wavSamples, flags);
    FixedArtLinesClean();
    DecimalClean(wavSamples / 2);
    forall i | 0 <= i < |ls|
      ensures '\n' !in ls[i]
    {
    }
  }
}
