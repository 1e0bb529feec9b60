/**
 * The text forms the decoder gives the offsets it reads from a ddi file, and
 * the way the tools read them back (`split` then `int(..., 16)`):
 *   an epr entry  `f'{pos:0>8x}={value:0>8x}'`
 *   a sound entry `f'{pos:0>8x}={offset:016x}_{id:08x}'`
 * The model keeps these entries as the structured values `Ref` and `SndRef`;
 * the round trips below show the text form carries exactly the same numbers.
 */
module Refs {
  import opened Wrappers
  import opened Text
  import opened Hex

  /** An 8-byte offset field of the ddi: where it is (`pos`) and what it holds. */
  datatype Ref = Ref(pos: nat, value: nat)

  /**
   * A sound reference: the ddi position of its 8-byte offset field, the sound
   * offset as the decoder reports it (negative when an articulation field holds
   * less than 0x12) and the 4-byte sound identifier.
   */
  datatype SndRef = SndRef(pos: nat, offset: int, id: nat)

  function FormatRef(r: Ref): string {
    HexFill(r.pos, 8) + "=" + HexFill(r.value, 8)
  }

  /** `pos, value = s.split("=")` then `int(pos, 16)`, `int(value, 16)`. */
  function ParseRef(s: string): (r: Result<(int, int)>) {
    var parts := Split(s, '=');
    if |parts| != 2 then Err(BadLiteral)
    else
      var pos :- ParseHex(parts[0]);
      var value :- ParseHex(parts[1]);
      Ok((pos, value))
  }

  function FormatSnd(r: SndRef): string {
    HexFill(r.pos, 8) + "=" + HexZero(r.offset, 16) + "_" + HexZero(r.id, 8)
  }

  /** `pos, name = s.split("=")`, `offset, id = name.split("_")`, each read with `int(..., 16)`. */
  function ParseSnd(s: string): (r: Result<(int, int, int)>) {
    var parts := Split(s, '=');
    if |parts| != 2 then Err(BadLiteral)
    else
      var name := Split(parts[1], '_');
      if |name| != 2 then Err(BadLiteral)
      else
        var pos :- ParseHex(parts[0]);
        var offset :- ParseHex(name[0]);
        var id :- ParseHex(name[1]);
        Ok((pos, offset, id))
  }

  lemma {:induction false} HexTextExcludes(s: string, c: char)
    requires HexText(s) && c != '-' && !IsLowerHex(c)
    ensures c !in s
  {
    forall i | 0 <= i < |s|
      ensures s[i] != c
    {
    }
  }

  /** Reading an epr entry's text gives back its position and value. */
  lemma {:induction false} ParseFormatRef(r: Ref)
    ensures ParseRef(FormatRef(r)) == Ok((r.pos as int, r.value as int))
  {
    var a := HexFill(r.pos, 8);
    var b := HexFill(r.value, 8);
    HexFormatsAreHexText(r.pos, 8);
    HexFormatsAreHexText(r.value, 8);
    HexTextExcludes(a, '=');
    HexTextExcludes(b, '=');
    assert Join([a, b], "=") == FormatRef(r);
    SplitJoin([a, b], '=');
    ParseHexFill(r.pos, 8);
    ParseHexFill(r.value, 8);
  }

  /** Reading a sound entry's text gives back its position, offset and identifier. */
  lemma {:induction false} ParseFormatSnd(r: SndRef)
    ensures ParseSnd(FormatSnd(r)) == Ok((r.pos as int, r.offset, r.id as int))
  {
    var a := HexFill(r.pos, 8);
    var b := HexZero(r.offset, 16);
    var c := HexZero(r.id, 8);
    HexFormatsAreHexText(r.pos, 8);
    HexFormatsAreHexText(r.offset, 16);
    HexFormatsAreHexText(r.id, 8);
    HexTextExcludes(a, '=');
    HexTextExcludes(b, '=');
    HexTextExcludes(c, '=');
    HexTextExcludes(b, '_');
    HexTextExcludes(c, '_');
    var tail := b + "_" + c;
    forall i | 0 <= i < |tail|
      ensures tail[i] != '='
    {
      if i < |b| {
        assert tail[i] == b[i];
      } else if i > |b| {
        assert tail[i] == c[i - |b| - 1];
      }
    }
    assert Join([a, tail], "=") == FormatSnd(r);
    SplitJoin([a, tail], '=');
    assert Join([b, c], "_") == tail;
    SplitJoin([b, c], '_');
    ParseHexFill(r.pos, 8);
    ParseHexZero(r.offset, 16);
    ParseHexZero(r.id, 8);
  }
}
