# ddb-tools core, modelled in Dafny

ddb-tools reads and rewrites the voicebanks of a singing synthesiser. A
voicebank is a `.ddi` binary index that points, by 8-byte little-endian
offsets, into a `.ddb` binary blob of epr frames (`FRM2` chunks) and sounds
(`SND ` chunks). This project models the byte-level core of the tools and
proves what it promises.

| module | models |
|---|---|
| `Wrappers` | the exceptions the Python code raises, as `Result`/`Outcome` values |
| `Bytes`, `Streams` | little-endian integers, Python slicing, `bytes.find`, and `io.BytesIO` as a class over a byte sequence with a cursor |
| `Text`, `Utf8`, `Hex` | `join`/`split`/`replace`, decimal text, strict UTF-8, and the hex dumps `bytes_to_str`/`str_to_bytes` |
| `Dict` | Python dictionaries as insertion-ordered item sequences, and sorting by key |
| `DdiUtils` | `read_str`, `str_to_data`, `read_arr`, `reverse_search` and `stream_reverse_search` over a byte sequence |
| `BinaryStruct` | the field classes `RawData`, `Int` (`Int16`/`Int32`/`Int64`) and `VString`, with their recorded offset and `overwrite` |
| `Refs` | the text forms of recorded epr and sound offsets, and their round trips |
| `DdiFormat` | the DBV, STA, ART and VQM block layouts as pure functions of the index bytes and a cursor |
| `DdiModel` | the `DDIModel` decoder class, method by method, proved to agree with `DdiFormat` |
| `DdiDict` | the flattening into `ddi_data_dict` (`sta`, `art`, `vqm`) |
| `VqmStream` | the VQM block encoder `_create_vqm_stream`, proved to decode back through `read_vqm` |
| `Mixins` | `byte_replace`, `mixins_vqm` and `mixins_sta2vqm`: donor sounds appended and rebased, and the VQM block spliced into the index |
| `Pack`, `PackMain` | `escape_filename` and the repacker's append-and-patch loops, as a specification and as methods over streams |
| `ExtractWav` | X-SAMPA escaping, the file names of extracted sounds, and the dump of every indexed sound |
| `Seg` | the transcription, `.seg` and `.as0` text builders |

Streams and files are in-memory byte sequences with a cursor. A voice tree
or a donor bank is a `files` map from path to bytes. Floating-point fields
are kept as opaque 4- or 8-byte payloads. Where the tools print a float, the
model receives the rendered text as a parameter. Each Python `for` loop that
builds state is a Dafny method with loop invariants. The method is proved
equal to a fold over values, and the properties are proved about that fold.

The ddb that `extract_wav.py` dumps is opened with `open(path, 'rb')`, a
buffered file rather than a `BytesIO`. On such a file `read(n)` with n below
-1 raises ValueError, and `read(-1)` reads to the end of the file.
`ExtractWav.ReadSoundAt` follows that rule for the payload read
`read(snd_length - 18)`.

## Model

| member | source | states |
|---|---|---|
| BinaryStruct.AsciiDecode | utils/binary_struct.py:101 | `decode('ascii')`: succeeds exactly when every byte is below 0x80, char i is byte i; otherwise a decoding error |
| BinaryStruct.AsciiEncode | utils/binary_struct.py:110 | `encode('ascii')`: succeeds exactly when every char is below 0x80, byte i is char i; otherwise an encoding error |
| BinaryStruct.AsciiRoundTrip | utils/binary_struct.py:99-110 | decoding the ASCII encoding of a string gives the string back |
| BinaryStruct.VStringRead | utils/binary_struct.py:104-107 | a VString read takes a 4-byte little-endian size, then that many bytes, and ends right after them |
| BinaryStruct.VStringBytes | utils/binary_struct.py:109-110 | serialising succeeds iff the text is ASCII and its length fits 32 bits; the bytes are the length prefix followed by the ASCII text |
| BinaryStruct.VStringRoundTrip | utils/binary_struct.py:99-110 | reading a serialised VString inside any surrounding bytes gives back its size, text and end position |
| BinaryStruct.RawData.constructor | utils/binary_struct.py:13-18 | a new field has offset 0, the given length and no value |
| BinaryStruct.RawData.Parse | utils/binary_struct.py:20-21 | parsing stores the bytes as the value and changes nothing else |
| BinaryStruct.RawData.ParseFromFile | utils/binary_struct.py:23-26 | records the file position as the offset, stores the next `data_len` bytes (fewer at end of file) and advances the file past them |
| BinaryStruct.RawData.Serialize | utils/binary_struct.py:28-29 | a raw field cannot be serialised: always the not-implemented error |
| BinaryStruct.RawData.WriteToFile | utils/binary_struct.py:31-32 | writing a raw field fails with not-implemented and leaves the file and position unchanged |
| BinaryStruct.RawData.Overwrite | utils/binary_struct.py:34-36 | seeks to the recorded offset, then fails with not-implemented, data unchanged |
| BinaryStruct.Int.constructor | utils/binary_struct.py:42-43 | an integer field of the given width, offset 0, no value |
| BinaryStruct.Int.Int16 | utils/binary_struct.py:52-54 | an integer field 2 bytes wide |
| BinaryStruct.Int.Int32 | utils/binary_struct.py:57-59 | an integer field 4 bytes wide |
| BinaryStruct.Int.Int64 | utils/binary_struct.py:62-64 | an integer field 8 bytes wide |
| BinaryStruct.Int.Parse | utils/binary_struct.py:45-46 | the value is the little-endian number of the bytes |
| BinaryStruct.Int.ParseFromFile | utils/binary_struct.py:23-26 | records the offset and reads `data_len` bytes as a little-endian number, advancing the file |
| BinaryStruct.Int.Serialize | utils/binary_struct.py:48-49 | `to_bytes`: with no value an error; otherwise Ok iff 0 <= value < 256^width, giving `width` bytes that read back as the value |
| BinaryStruct.Int.WriteToFile | utils/binary_struct.py:31-32 | writes the serialised bytes at the position with BytesIO semantics and advances by the width, or fails without writing |
| BinaryStruct.Int.Overwrite | utils/binary_struct.py:34-36 | writes the serialised bytes at the recorded offset and leaves the cursor just after them, or fails without writing |
| BinaryStruct.IntRewriteIdentity | utils/binary_struct.py:23-49 | the bytes an integer field was read from re-serialise to themselves, so writing them back in place leaves the file unchanged |
| BinaryStruct.VString.constructor | utils/binary_struct.py:96-97 | a string field of length 0, offset 0, no value |
| BinaryStruct.VString.Parse | utils/binary_struct.py:99-102 | the 4-byte size, then that many bytes decoded as ASCII: on success sets the value and length 4 + size; a non-ASCII payload fails and changes nothing |
| BinaryStruct.VString.ParseFromFile | utils/binary_struct.py:104-107 | as written: reads size and text from the file, sets value and length, and leaves the recorded offset unchanged |
| BinaryStruct.VString.ParseFromFileRecorded | utils/binary_struct.py:104-107 | corrected: the same read, with the recorded offset set to the starting file position |
| BinaryStruct.VString.Serialize | utils/binary_struct.py:109-110 | with no value an error; otherwise the 4-byte length followed by the ASCII text, or an encoding error |
| BinaryStruct.VString.WriteToFile | utils/binary_struct.py:31-32 | writes the serialised string at the file position and moves the cursor past it, or fails without writing |
| BinaryStruct.VString.Overwrite | utils/binary_struct.py:34-36 | writes the serialised string at the recorded offset and leaves the cursor just after it |
| BinaryStruct.VStringRewriteIdentity | utils/binary_struct.py:104-110 | with the offset recorded, a well-formed string re-serialises to the bytes it was read from, and overwriting there leaves the file unchanged |
| BinaryStruct.VStringBytesOfRead | utils/binary_struct.py:104-110 | the bytes a VString read consumed are exactly its serialisation |
| BinaryStruct.AsWrittenRewriteMisplaced | utils/binary_struct.py:104-107 | counterexample: in 41 01 00 00 00 61 the string "a" sits at 1, and writing it back at the unrecorded offset 0 changes the file |
| Bytes.LeBytes | utils/binary_struct.py:45-46 | the n little-endian bytes of a value below 256^n: exactly n bytes |
| Bytes.ToLe | utils/binary_struct.py:48-49 | `to_bytes(n, 'little')`: succeeds iff 0 <= v < 256^n; the n bytes read back as v |
| Bytes.LeRoundTrip | utils/binary_struct.py:45-49 | decoding the little-endian bytes of v gives v back |
| Bytes.LeBound | utils/binary_struct.py:45-46 | a little-endian number of n bytes is below 256^n |
| Bytes.LeBytesOfLe | utils/binary_struct.py:45-49 | re-encoding the number of n bytes gives the same n bytes |
| Bytes.Span | utils/binary_struct.py:25 | `read(n)` at a position: empty past the end, the rest for a negative n, otherwise the next min(n, remaining) bytes |
| Bytes.Overwrite | utils/binary_struct.py:31-36 | BytesIO `write` at a position: the bytes land there, the file grows only as needed and never shrinks, every other byte is kept, and a write at the end appends |
| Bytes.OverwritePads | utils/binary_struct.py:34-36 | a write past the end leaves zero bytes in the gap |
| Bytes.OverwriteConcat | pack_ddb.py:158-160 | two consecutive writes equal one write of their concatenation |
| Bytes.OverwriteSame | utils/binary_struct.py:34-36 | writing back the bytes already at a position changes nothing |
| Bytes.SliceIndex | pack_ddb.py:119 | a slice bound clamped into 0..len; in-range bounds are kept |
| Bytes.PySlice | pack_ddb.py:119 | Python slicing `b[i:j]` with its clamping; for in-range bounds exactly the bytes between them |
| Bytes.Find | utils/ddi_utils.py:111 | `bytes.find`: -1 when the pattern occurs nowhere, otherwise a position where it occurs with no earlier occurrence |
| Bytes.FindFrom | utils/ddi_utils.py:111 | `find` from a start position: -1 when no occurrence at or after it, otherwise the first such occurrence |
| Utf8.EncodeChar | utils/ddi_utils.py:37 | one code point encodes to 1 to 4 bytes, and to one byte exactly when it is below 0x80 |
| Utf8.Encode | utils/ddi_utils.py:37 | `str.encode()`: the concatenated encodings, never fewer bytes than chars |
| Utf8.DecodeChar | utils/ddi_utils.py:33 | decodes one well-formed sequence, rejecting malformed, overlong and surrogate forms; a success consumes between 1 and all of the bytes |
| Utf8.Decode | utils/ddi_utils.py:33 | `bytes.decode()`: the string, never longer than the bytes, or a decoding error |
| Utf8.DecodeEncodeChar | utils/ddi_utils.py:31-37 | decoding a char's encoding followed by anything gives the char and consumes exactly its encoding |
| Utf8.DecodeEncode | utils/ddi_utils.py:31-37 | decoding the encoding of any string gives the string back |
| Utf8.EncodeAsciiLength | utils/ddi_utils.py:35-37 | an ASCII string encodes to as many bytes as it has chars |
| Utf8.EncodeNonAsciiLonger | utils/ddi_utils.py:35-37 | a string with a non-ASCII char encodes to more bytes than it has chars |
| Utf8.DecodeAsciiChar | utils/ddi_utils.py:33 | a decoded char below 0x80 came from exactly one equal byte |
| Utf8.DecodeAscii | utils/ddi_utils.py:33 | bytes that decode to ASCII text are exactly that text's encoding |
| Text.Join | utils/seg_utils.py:22 | `sep.join`: one piece joins to itself |
| Text.Split | pack_ddb.py:85 | `str.split(sep)`: at least one piece, and no piece contains the separator |
| Text.SplitNoSeparator | pack_ddb.py:85 | a string without the separator splits into just itself |
| Text.SplitAfterPiece | pack_ddb.py:85 | splitting a piece, separator and rest gives the piece followed by the split of the rest |
| Text.SplitJoin | pack_ddb.py:85 | splitting a join of separator-free pieces gives the pieces back |
| Text.JoinSplit | pack_ddb.py:85 | joining the pieces of a split gives the string back |
| Text.JoinExcludes | utils/seg_utils.py:22 | a join of pieces without a char, with a separator without it, does not contain it |
| Text.ReplaceAbsent | extract_wav.py:21 | `str.replace` of a pattern that does not occur leaves the string unchanged |
| Text.ReplaceCharPointwise | extract_wav.py:22-29 | replacing one char by another keeps the length and changes exactly those positions |
| Text.Repeat | extract_wav.py:79 | n copies of a char |
| Text.PadLeft | extract_wav.py:79 | format fill: a string at least w long is unchanged; a shorter one becomes w long, ending with the string |
| Text.Digits | pack_ddb.py:17 | the decimal digits of a natural number: at least one, all digits |
| Text.DigitsValueOfDigits | pack_ddb.py:17 | the digits of n read back as n |
| Text.IntToDecimal | utils/seg_utils.py:33 | `str(int)`/`%d`: a non-empty rendering, minus sign for negatives |
| Text.ParseIntDecimal | utils/ddi_utils.py:646 | `int(str(n)) == n` for every integer n |
| Text.ParseIntUnsigned | utils/ddi_utils.py:646 | `int(s)` of plain digits is their value |
| Text.ParseIntNegated | utils/ddi_utils.py:646 | `int("-" + s)` of digits is the negated value |
| Text.ParseInt | utils/ddi_utils.py:646 | no contract of its own: `int(s)` on an optional sign and ASCII digits, a ValueError on anything else; ParseIntDecimal, ParseIntUnsigned and ParseIntNegated state what it reads |
| Text.LexLessIrreflexive | utils/ddi_utils.py:429-430 | no string sorts before itself |
| Text.LexLessTransitive | utils/ddi_utils.py:429-430 | string ordering is transitive |
| Text.LexLessTotal | utils/ddi_utils.py:429-430 | any two different strings are ordered one way or the other |
| Hex.HexDigits | extract_wav.py:79 | format `x` of a natural number: at least one lowercase hex digit |
| Hex.HexValueOfDigits | mixins_ddb.py:170-171 | the hex digits of n have value n |
| Hex.HexValueZeros | mixins_ddb.py:170-171 | a run of '0' digits has value 0 |
| Hex.HexValueLeadingZeros | mixins_ddb.py:170-171 | leading zeros do not change a hex value |
| Hex.PadZerosValue | mixins_ddb.py:170-171 | zero padding keeps a hex value |
| Hex.HexFillZeroAgree | utils/ddi_utils.py:413 | for non-negative numbers `{:0>8x}` and `{:08x}`-style zero padding give the same text |
| Hex.ParseHex | mixins_ddb.py:170-171 | the modelled subset of `int(s, 16)` (an optional sign, then hex digits): empty text never parses |
| Hex.ParseHexUnsigned | mixins_ddb.py:170-171 | `int(p, 16)` of hex digits is their value |
| Hex.ParseHexNegated | mixins_ddb.py:170-171 | `int("-" + p, 16)` is the negated value |
| Hex.ParseHexZero | utils/ddi_utils.py:548 | zero-padded hex of any integer, negative included, parses back to it |
| Hex.ParseHexZeroNegative | utils/ddi_utils.py:548 | a negative value rendered with `{:016x}` (a sound offset minus 0x12) still parses back to itself |
| Hex.ParseHexFill | utils/ddi_utils.py:413 | `{:0>8x}` text of a non-negative number parses back to it |
| Hex.HexFillNegativeUnreadable | utils/ddi_utils.py:413 | `{:0>8x}` of a negative number that needs padding puts zeros before the sign, and `int(.., 16)` rejects it |
| Hex.HexFormatsAreHexText | utils/ddi_utils.py:413 | both formats produce only lowercase hex digits and minus signs |
| Hex.HexFill | utils/ddi_utils.py:413 | no contract of its own: `f'{x:0>{w}x}'`, zeros filled in left of the sign; ParseHexFill, HexFillZeroAgree and HexFillNegativeUnreadable state what it writes |
| Hex.HexZero | utils/ddi_utils.py:548 | no contract of its own: `f'{x:0{w}x}'`, zeros between the sign and the digits; ParseHexZero and ParseHexZeroNegative state that `int(..., 16)` reads it back |
| Hex.Hex2 | utils/ddi_utils.py:24 | `{:02x}` of one byte: exactly two lowercase hex digits |
| Hex.Hex2IsZeroPadded | utils/ddi_utils.py:24 | the two digits are the width-2 zero-padded rendering |
| Hex.ParseHex2 | utils/ddi_utils.py:28-29 | `int(.., 16)` of a byte's two digits gives the byte |
| Hex.Hex2Pieces | utils/ddi_utils.py:24 | one two-digit piece per byte, in order |
| Hex.BytesToStrLayout | utils/ddi_utils.py:22-26 | `bytes_to_str`: 3n-1 chars for n > 0 bytes, byte i's two digits at 3i, a space between pairs |
| Hex.BytesToStrCompactLayout | utils/ddi_utils.py:22-26 | the compact form: 2n chars, byte i's digits at 2i |
| Hex.BytesToStr | utils/ddi_utils.py:22-26 | no contract of its own: two lowercase digits per byte, joined by a space or nothing; BytesToStrLayout and BytesToStrCompactLayout state the layout |
| Hex.ParseBytePieces | utils/ddi_utils.py:28-29 | `str_to_bytes` on the pieces: one byte per piece, or an error |
| Hex.ParsePiecesOfBytes | utils/ddi_utils.py:22-29 | parsing the pieces of a byte string gives the bytes back |
| Hex.StrToBytesRoundTrip | utils/ddi_utils.py:22-29 | `str_to_bytes(bytes_to_str(b)) == b` for every non-empty b |
| Hex.StrToBytesEmpty | utils/ddi_utils.py:28-29 | `str_to_bytes("")` fails, because `int("", 16)` raises |
| Hex.StrToBytes | utils/ddi_utils.py:28-29 | no contract of its own: one byte per space-separated piece; StrToBytesRoundTrip and StrToBytesEmpty state what it does |
| Refs.ParseFormatRef | utils/ddi_utils.py:410-413 | the epr reference text "pos=offset" (hex) parses back to exactly that position and offset |
| Refs.ParseFormatSnd | utils/ddi_utils.py:546-548 | the sound reference text "pos=offset_id" (hex) parses back to exactly that position, offset and id |
| Refs.FormatSnd | utils/ddi_utils.py:546-548 | no contract of its own: "pos=offset_id" with 8, 16 and 8 hex digits; ParseFormatSnd states its round trip |
| Refs.ParseSnd | mixins_ddb.py:188-193 | no contract of its own: split at "=" then at "_", each piece read with `int(..., 16)`; ParseFormatSnd states its round trip |
| Refs.FormatRef | utils/ddi_utils.py:410-413 | no contract of its own: "pos=value" in 8-digit hex; ParseFormatRef states its round trip |
| Refs.ParseRef | mixins_ddb.py:167-171 | no contract of its own: split at "=", then both halves as hex; ParseFormatRef states its round trip |
| Streams.Stream.constructor | utils/ddi_utils.py:100 | a BytesIO over the bytes, positioned at 0 |
| Streams.Stream.Tell | pack_ddb.py:105 | `tell()` returns the position |
| Streams.Stream.Seek | pack_ddb.py:110 | `seek` to a non-negative position moves there; a negative one fails and leaves the stream unchanged |
| Streams.Stream.Read | utils/binary_struct.py:25 | `read(n)` returns the next min(n, remaining) bytes, leaves the data unchanged and advances past them |
| Streams.Stream.Write | pack_ddb.py:123 | `write` overwrites at the position with BytesIO semantics and advances past the bytes |
| Streams.Stream.ReadString | utils/ddi_utils.py:31-33 | `read_str` through the cursor returns what the pure reader does and stops where it stops; the data is unchanged |
| Streams.Take | utils/binary_struct.py:25 | the bytes a read returns and the position after it, never past the end |
| Streams.TakeUint | utils/ddi_utils.py:32 | `int.from_bytes(read(n), 'little')` and the position after it; n bytes on when they are there |
| Streams.ReadStr | utils/ddi_utils.py:31-33 | `read_str`: a 4-byte length, then that many bytes decoded as UTF-8; on success it ends inside the buffer |
| Streams.ReadStrOfFields | utils/ddi_utils.py:31-33 | a length prefix followed by a well-formed UTF-8 encoding reads back as the decoded string, ending after it |
| Streams.ExpectTag | utils/ddi_utils.py:40 | the tag assertion passes only when there are at least as many bytes as the tag |
| Streams.ExpectStr | utils/ddi_utils.py:434 | an asserted string; on success it ends inside the buffer |
| Dict.Lookup | utils/ddi_utils.py:427 | `d.get(k)`: None exactly when the key is absent; a found value is an entry of the dict |
| Dict.PutLookup | utils/ddi_utils.py:428 | after assigning a key, looking it up gives the new value, and other keys are unaffected |
| Dict.PutOrder | utils/ddi_utils.py:220 | assigning an existing key keeps the key order; a new key is appended at the end |
| Dict.PutDistinct | utils/ddi_utils.py:428 | assignment keeps keys distinct |
| Dict.SortedKeysDistinct | utils/ddi_utils.py:429-430 | keys sorted by a strict total order are distinct |
| Dict.Insert | utils/ddi_utils.py:429-430 | inserting adds exactly that entry to the list's multiset |
| Dict.InsertSorted | utils/ddi_utils.py:429-430 | inserting a new key into a sorted list keeps it sorted |
| Dict.SortByKey | utils/ddi_utils.py:429-430 | `sorted(d.items())`: sorted, same length, and a permutation of the entries |
| Dict.SortByKeyLookup | utils/ddi_utils.py:429-430 | sorting a dict with distinct keys does not change what any key maps to |
| Dict.SortByKeyMembers | utils/ddi_utils.py:429-430 | the sorted dict has exactly the entries of the original |
| Dict.SortByKeySource | utils/ddi_utils.py:429-430 | each sorted entry is some entry of the original |
| Dict.SortByKeyHasKey | utils/ddi_utils.py:429-430 | the sorted dict has exactly the keys of the original |
| Dict.LookupDistinct | utils/ddi_utils.py:427-428 | with distinct keys, (k, v) is an entry iff looking up k gives v |
| Dict.PutMembers | utils/ddi_utils.py:428 | after assignment every entry was there before or is the new one |
| Dict.PutKeys | utils/ddi_utils.py:428 | assignment adds its key to the keys and nothing else |
| Dict.NatLessIsStrictTotal | utils/ddi_utils.py:433 | integer keys are strictly totally ordered |
| DdiUtils.StrToData | utils/ddi_utils.py:35-37 | corrected `str_to_data`: fails only when the UTF-8 length does not fit 32 bits; the 4-byte prefix holds the UTF-8 byte length and the UTF-8 bytes follow |
| DdiUtils.StrToDataAsWritten | utils/ddi_utils.py:35-37 | as written: succeeds iff the char count fits 32 bits, with the char count as prefix |
| DdiUtils.ReadStrOfStrToData | utils/ddi_utils.py:31-37 | `read_str` of the corrected `str_to_data`, inside any surrounding bytes, gives the string back and ends right after it |
| DdiUtils.StrToDataAscii | utils/ddi_utils.py:31-37 | for ASCII text the version as written equals the corrected one and reads back |
| DdiUtils.StrToDataAsWrittenNonAscii | utils/ddi_utils.py:35-37 | counterexample: "é" gives prefix 1 over two bytes and `read_str` then fails to decode; the correct prefix is 2 |
| DdiUtils.StrToDataAsWrittenShort | utils/ddi_utils.py:35-37 | for any non-ASCII string the prefix as written is less than the number of bytes that follow |
| DdiUtils.ReadArr | utils/ddi_utils.py:39-43 | `read_arr`: on success the tag is "ARR ", the 8-byte field is 1, the 4 bytes after it are returned and 20 bytes are consumed; these bytes present always succeed |
| DdiUtils.ReverseSearchFrom | utils/ddi_utils.py:45-55 | searching back from i: -1 when nothing in the window up to i matches, otherwise a match with no later match up to i |
| DdiUtils.ReverseSearch | utils/ddi_utils.py:45-55 | `reverse_search`: -1 when nothing in the window matches, otherwise the last match at a position 0 < r <= offset - len |
| DdiUtils.ReverseSearchLoop | utils/ddi_utils.py:45-55 | the loop returns what the reverse search specifies |
| DdiUtils.ReverseSearchDefaultWindow | utils/ddi_utils.py:46-47 | with the default limit every position from 1 to the start is in the window |
| DdiUtils.StreamReverseSearch | utils/ddi_utils.py:57-68 | no contract of its own: `stream_reverse_search` over the file's bytes, with the 10 MiB window when the limit is -1; the contract of ReverseSearch and ReverseSearchDefaultWindow state what it finds |
| DdiFormat.Skip | utils/ddi_utils.py:355 | a discarded read moves forward by at most n bytes, by exactly n when they are there, and never past the end |
| DdiFormat.NeedUint | utils/ddi_utils.py:353 | an asserted integer field: Ok iff its little-endian value is the expected one, and then the position moves past the bytes read |
| DdiFormat.NeedTag | utils/ddi_utils.py:354 | an asserted tag: on success the four bytes at the position decode to the tag and the position moves by 4 |
| DdiFormat.NeedBytes | utils/ddi_utils.py:378 | asserted constant bytes: Ok iff they come next, and then the position moves past them |
| DdiFormat.TakeF32 | utils/ddi_utils.py:389 | a 32-bit float field, kept as its 4 raw bytes: Ok iff 4 bytes remain |
| DdiFormat.TakeFloats | utils/ddi_utils.py:389-393 | the five float fields in order: Ok iff 20 bytes remain, ending 20 bytes on |
| DdiFormat.TakeDump | utils/ddi_utils.py:388 | the hex dump of the next bytes ends where a discarded read of them would |
| DdiFormat.EprsFrom | utils/ddi_utils.py:409-413 | `count` refs; each ref's value is the 8-byte little-endian integer at its position; when they fit, ref i sits at pos + 8i and the read ends at pos + 8*count |
| DdiFormat.ParseEprBlock | utils/ddi_utils.py:406-416 | an epr block fails only on an assertion; on success it ends 10 + 8*count bytes after its start, inside the buffer |
| DdiFormat.EprBlockLayout | utils/ddi_utils.py:406-416 | a parsed block: the 4-byte count equals the number of refs, ref i is recorded at pos+4+8i with the integer found there, the rate is the 4 bytes before the end, and the block ends with 01 00 |
| DdiFormat.EprsFull | utils/ddi_utils.py:407-415 | when the block fits, every ref is at its slot and holds the integer at that slot |
| DdiFormat.StringLessIsStrictTotal | utils/ddi_utils.py:429-430 | string keys are strictly totally ordered |
| DdiFormat.ParseStapHead | utils/ddi_utils.py:381-404 | the fixed head of a stationary part; on success it ends after its start, inside the buffer |
| DdiFormat.ParseStapTail | utils/ddi_utils.py:417-426 | the sound reference and index string; on success it ends inside the buffer |
| DdiFormat.ParseStap | utils/ddi_utils.py:381-428 | one stationary part; on success it ends after its start, inside the buffer |
| DdiFormat.ParseStaps | utils/ddi_utils.py:380-428 | `count` parts appended to the dict: the earlier entries are kept, exactly `count` new ones, keys stay distinct (a duplicate index is an error) |
| DdiFormat.ParseStauHead | utils/ddi_utils.py:371-379 | the head of a stationary unit; on success it ends inside the buffer |
| DdiFormat.ParseStau | utils/ddi_utils.py:370-431 | a stationary unit whose parts come out sorted by index |
| DdiFormat.PutStau | utils/ddi_utils.py:432 | storing a unit with sorted parts keeps keys distinct and every unit's parts sorted |
| DdiFormat.ParseStaus | utils/ddi_utils.py:370-432 | all units: keys stay distinct and every unit's parts stay sorted |
| DdiFormat.ExpectPair | utils/ddi_utils.py:434-435 | the two length-prefixed strings read are exactly the expected ones, and the read ends after the second |
| DdiFormat.SortStausKeepsStapsSorted | utils/ddi_utils.py:433 | sorting the units by index keeps each unit's parts sorted |
| DdiFormat.ParseStaHeader | utils/ddi_utils.py:362-369 | the STA header fields; on success it ends inside the buffer |
| DdiFormat.ParseSta | utils/ddi_utils.py:360-436 | `read_sta`: units sorted by integer index, each with its parts sorted, or an error |
| DdiFormat.StaEndsWithTrailer | utils/ddi_utils.py:434-435 | a successful STA read ends right after the strings "normal" and "stationary" |
| DdiFormat.ParseArtpHead | utils/ddi_utils.py:487-516 | the fixed head of an articulation part; on success it ends inside the buffer |
| DdiFormat.ParseArtpEprs | utils/ddi_utils.py:517-541 | the try/except: the epr block at the position if it parses, otherwise the block read again four bytes further on |
| DdiFormat.ParseArtpTail | utils/ddi_utils.py:543-578 | the two sound references and the index; on success it ends inside the buffer |
| DdiFormat.ParseArtp | utils/ddi_utils.py:486-581 | one articulation part; on success it ends after its start, inside the buffer |
| DdiFormat.ParseArtps | utils/ddi_utils.py:486-583 | `count` parts appended to the dict: the earlier entries are kept, exactly `count` new ones, keys stay distinct |
| DdiFormat.ParseArtuHead | utils/ddi_utils.py:476-485 | the head of an articulation unit; on success it ends inside the buffer |
| DdiFormat.ParseArtu | utils/ddi_utils.py:476-585 | an articulation unit whose parts come out sorted by index |
| DdiFormat.SortArtusKeepsSorted | utils/ddi_utils.py:586-587 | sorting units by index keeps each unit's parts sorted |
| DdiFormat.SortArtsKeepsSorted | utils/ddi_utils.py:588-589 | sorting blocks by index keeps each block's contents sorted |
| DdiFormat.PutArtu | utils/ddi_utils.py:585 | storing a unit with sorted parts keeps keys distinct and every unit sorted |
| DdiFormat.PutArt | utils/ddi_utils.py:472 | storing a sorted block keeps keys distinct and every block sorted |
| DdiFormat.ParseArtBlockHead | utils/ddi_utils.py:460-464 | the head of an articulation block; on success it ends after its start, inside the buffer |
| DdiFormat.ParseArtBlock | utils/ddi_utils.py:458-595 | `read_art_block`, recursively: on success its units and nested blocks are sorted at every level, and it ends after its start inside the buffer |
| DdiFormat.ParseArtEntry | utils/ddi_utils.py:467-475 | one entry, a nested block or a unit by its tag, sorted at every level |
| DdiFormat.PutEntry | utils/ddi_utils.py:471-472 | a unit goes to the unit dict, a block to the block dict, keeping both distinct and sorted |
| DdiFormat.ParseArtEntries | utils/ddi_utils.py:466-585 | all entries of a block: both dicts keep distinct keys and sorted contents |
| DdiFormat.ParseArtLoop | utils/ddi_utils.py:443-452 | the top-level blocks: distinct keys, sorted contents |
| DdiFormat.ParseArtHeader | utils/ddi_utils.py:441-442 | the ART header; on success it ends inside the buffer |
| DdiFormat.ParseArt | utils/ddi_utils.py:439-455 | `read_art`: blocks sorted by index, sorted at every level, or an error |
| DdiFormat.ParseVqmpHead | utils/ddi_utils.py:618-631 | the fixed head of a growl part; on success it ends after its start, inside the buffer |
| DdiFormat.ParseVqmpTail | utils/ddi_utils.py:641-647 | the sound reference and index string; on success it ends inside the buffer |
| DdiFormat.ParseVqmp | utils/ddi_utils.py:617-647 | one growl part; on success it ends after its start, inside the buffer |
| DdiFormat.ParseVqmps | utils/ddi_utils.py:616-647 | `count` growl parts into a dict with distinct keys |
| DdiFormat.ParseVqmTag | utils/ddi_utils.py:601-607 | the VQM tag and asserted fields: 36 bytes |
| DdiFormat.ParseVqmuHeader | utils/ddi_utils.py:609-614 | the VQMu header: its count is the integer in bytes 16-20, and it ends 20 bytes on |
| DdiFormat.ParseVqmHeader | utils/ddi_utils.py:601-614 | both headers: the count is the integer in bytes 52-56, and they end 56 bytes on |
| DdiFormat.ParseVqmCounts | utils/ddi_utils.py:614-615 | the two part counts; on success it ends inside the buffer |
| DdiFormat.ParseVqm | utils/ddi_utils.py:598-650 | `read_vqm`: growl parts under distinct indices, or an error |
| DdiFormat.VqmEndsWithTrailer | utils/ddi_utils.py:648-649 | a successful VQM read ends right after the strings "GROWL" and "vqm" |
| DdiFormat.VqmCountsMustAgree | utils/ddi_utils.py:614-615 | when the count in the VQMu header and the second count differ, the read fails |
| DdiFormat.ParseDbv | utils/ddi_utils.py:352-357 | `read_dbv`: on success the first 8 bytes are zero and the read ends inside the buffer |
| DdiFormat.ArrBlockStart | utils/ddi_utils.py:146-147 | where `read` seeks for a block: 8 bytes before the last "ARR " that precedes the first zero-field-plus-tag mark; when non-negative, "ARR " sits 8 bytes further on |
| DdiFormat.DbvPart | utils/ddi_utils.py:139-143 | the DBV section starts at the first zero-field-plus-"DBV " mark; no mark means a seek to -1, an error |
| DdiFormat.StaPart | utils/ddi_utils.py:145-150 | the STA section starts at its ARR block; a negative start is an error; the units come out sorted |
| DdiFormat.ArtPart | utils/ddi_utils.py:159-164 | the ART section starts at its ARR block; a negative start is an error; the blocks come out sorted |
| DdiFormat.StaPartFrom | utils/ddi_utils.py:146-150 | reading STA at the located start gives exactly the STA section, error included |
| DdiFormat.ArtPartFrom | utils/ddi_utils.py:160-164 | reading ART at the located start gives exactly the ART section, error included |
| DdiFormat.VqmPart | utils/ddi_utils.py:173-179 | the VQM section is absent iff the VQM mark occurs nowhere; when present it starts at a mark and its keys are distinct |
| DdiFormat.RecordRanges | utils/ddi_utils.py:143-179 | no contract of its own: `offset_map` entries for dbv, sta, art and, when present, vqm; DdiModel.DDIModel.Read ties `offsetMap` to it and Mixins.RangesLookup states what it looks up |
| DdiFormat.DecodeIndex | utils/ddi_utils.py:100-186 | the whole index: DBV at its mark, STA and ART sorted, VQM absent iff no mark, and a missing DBV mark fails the whole read |
| DdiModel.FindArrBlock | utils/ddi_utils.py:146-147 | the cursor search finds the specified ARR block start |
| DdiModel.EprsStep | utils/ddi_utils.py:409-413 | reading n refs is one ref at the position followed by n-1 refs |
| DdiModel.EprBlockParts | utils/ddi_utils.py:406-416 | the block is its count, its refs and its rate, read in that order |
| DdiModel.ArtpsStep | utils/ddi_utils.py:486-581 | one part read: a failure fails the loop, a duplicate index is an error, otherwise the part is stored and the loop goes on |
| DdiModel.VqmpsAdvance | utils/ddi_utils.py:616-647 | one growl part read: a failure fails the loop, otherwise the part is stored and the loop goes on |
| DdiModel.ArtEntriesAdvance | utils/ddi_utils.py:466-585 | one entry read: a failure fails the loop, otherwise it is stored and the loop goes on |
| DdiModel.DDIModel.constructor | utils/ddi_utils.py:73-81 | a model over the bytes with no stream yet, empty sections, empty offset map, empty data dict, and vqm data present but empty |
| DdiModel.DDIModel.ReadDbv | utils/ddi_utils.py:352-357 | the cursor read returns what the DBV parser does and stops where it stops |
| DdiModel.DDIModel.ReadEprBlock | utils/ddi_utils.py:406-416 | the cursor read returns what the epr block parser does and stops where it stops |
| DdiModel.DDIModel.ReadStap | utils/ddi_utils.py:381-428 | the cursor read returns what the stationary part parser does |
| DdiModel.DDIModel.ReadStaps | utils/ddi_utils.py:380-428 | the loop returns what the parser does for all parts |
| DdiModel.DDIModel.ReadStau | utils/ddi_utils.py:370-432 | the cursor read returns what the unit parser does |
| DdiModel.DDIModel.ReadStaus | utils/ddi_utils.py:369-432 | the loop returns what the parser does for all units |
| DdiModel.DDIModel.ReadTrailer | utils/ddi_utils.py:434-435 | the cursor read passes exactly when the trailer check does |
| DdiModel.DDIModel.ReadSta | utils/ddi_utils.py:360-436 | `read_sta` through the cursor returns what the STA parser does |
| DdiModel.DDIModel.ReadArtp | utils/ddi_utils.py:487-581 | the cursor read returns what the articulation part parser does |
| DdiModel.DDIModel.ReadArtps | utils/ddi_utils.py:485-583 | the loop returns what the parser does for all parts |
| DdiModel.DDIModel.ReadArtu | utils/ddi_utils.py:476-585 | the cursor read returns what the unit parser does |
| DdiModel.DDIModel.ReadArtEntry | utils/ddi_utils.py:467-585 | the cursor read returns what the entry parser does |
| DdiModel.DDIModel.ReadArtEntries | utils/ddi_utils.py:466-587 | the loop returns what the parser does for all entries |
| DdiModel.DDIModel.ReadArtBlock | utils/ddi_utils.py:458-595 | `read_art_block` through the cursor, recursively, returns what the block parser does |
| DdiModel.DDIModel.ReadArtLoop | utils/ddi_utils.py:443-452 | the loop returns what the parser does for the top-level blocks |
| DdiModel.DDIModel.ReadArtEnd | utils/ddi_utils.py:445-449 | when the 8-byte field opens no block, the cursor goes back 8 bytes and the read returns what the parser does: the blocks so far after `articulation`, or the seek, decode or assertion error |
| DdiModel.DDIModel.ReadArt | utils/ddi_utils.py:439-455 | `read_art` through the cursor returns what the ART parser does |
| DdiModel.DDIModel.ReadVqmp | utils/ddi_utils.py:617-647 | the cursor read returns what the growl part parser does |
| DdiModel.DDIModel.ReadVqmps | utils/ddi_utils.py:616-647 | the loop returns what the parser does for all parts |
| DdiModel.DDIModel.ReadVqm | utils/ddi_utils.py:598-650 | `read_vqm` through the cursor returns what the VQM parser does |
| DdiModel.DDIModel.LoadDbv | utils/ddi_utils.py:139-143 | on success records the DBV range under "dbv"; on failure changes nothing; the other fields are kept |
| DdiModel.DDIModel.LoadSta | utils/ddi_utils.py:145-150 | on success stores the STA units and records their range under "sta"; on failure changes nothing |
| DdiModel.DDIModel.ReadStaPart | utils/ddi_utils.py:146-149 | the cursor read at the found start gives the STA section |
| DdiModel.DDIModel.LoadArt | utils/ddi_utils.py:159-164 | on success stores the ART blocks and records their range under "art"; on failure changes nothing |
| DdiModel.DDIModel.ReadArtPart | utils/ddi_utils.py:160-163 | the cursor read at the found start gives the ART section |
| DdiModel.DDIModel.LoadVqm | utils/ddi_utils.py:173-179 | when the mark is absent the vqm data becomes None and no range is recorded; otherwise the growls and their "vqm" range are stored |
| DdiModel.DDIModel.BuildDataDict | utils/ddi_utils.py:189-239 | the data dict is built from the stored sections and nothing else changes |
| DdiModel.DDIModel.Read | utils/ddi_utils.py:83-239 | `read()`: fails exactly when the whole-index decoder does; otherwise every section, the offset map and the data dict are the decoder's |
| DdiDict.CollectSamples | utils/ddi_utils.py:209-210 | one sample per part, in order |
| DdiDict.StaSample | utils/ddi_utils.py:210 | no contract of its own: a stationary sample's snd, epr list and pitch1, with no start sound; CollectSamples and DataDictOf state where it is used |
| DdiDict.VqmSample | utils/ddi_utils.py:203 | no contract of its own: a growl's snd, epr list and pitch1, with no start sound; DataDictOf states where it is used |
| DdiDict.ArtSample | utils/ddi_utils.py:222-225 | no contract of its own: an articulation sample's snd, snd_start, epr list and pitch1; ArtSamplesHaveStart states that every articulation sample keeps its start sound |
| DdiDict.PutStaus | utils/ddi_utils.py:206-211 | storing units by phoneme keeps keys distinct |
| DdiDict.StaDict | utils/ddi_utils.py:206-213 | the "sta" dict is sorted by phoneme |
| DdiDict.PutStausKeys | utils/ddi_utils.py:207-211 | a key is present iff it was before or is some unit's phoneme |
| DdiDict.PutStausItems | utils/ddi_utils.py:207-211 | every entry was there before or comes from a unit |
| DdiDict.StaDictKeys | utils/ddi_utils.py:206-213 | the "sta" keys are exactly the units' phonemes, and every entry comes from a unit |
| DdiDict.BuildStaDict | utils/ddi_utils.py:206-213 | the loop builds the specified "sta" dict |
| DdiDict.PutUnits | utils/ddi_utils.py:218-225 | storing a block's units keeps keys distinct |
| DdiDict.PutSubBlocks | utils/ddi_utils.py:227-237 | storing nested blocks' units keeps keys distinct |
| DdiDict.PutBlocks | utils/ddi_utils.py:216-237 | storing all blocks' units keeps keys distinct |
| DdiDict.ArtDict | utils/ddi_utils.py:215-239 | the "art" dict is sorted by key |
| DdiDict.PutUnitsKeys | utils/ddi_utils.py:218-220 | a key is present iff it was before or is "phoneme next" for a unit of the block |
| DdiDict.PutUnitsItems | utils/ddi_utils.py:218-225 | every entry was there before or holds a unit's samples under its key |
| DdiDict.PutSubBlocksKeys | utils/ddi_utils.py:229-232 | a key is present iff it was before or is a three-phoneme key of a nested unit |
| DdiDict.PutSubBlocksItems | utils/ddi_utils.py:229-237 | every entry was there before or holds a nested unit's samples |
| DdiDict.PutBlocksKeys | utils/ddi_utils.py:216-237 | a key is present iff it was before or is a two- or three-phoneme key of the section |
| DdiDict.PairKeyCons | utils/ddi_utils.py:219 | two-phoneme keys of a list of blocks are those of the first block or of the rest |
| DdiDict.TripleKeyCons | utils/ddi_utils.py:231 | three-phoneme keys of a list of blocks are those of the first block or of the rest |
| DdiDict.PutBlocksItems | utils/ddi_utils.py:216-237 | every entry was there before or comes from a unit of the section |
| DdiDict.ArtDictKeys | utils/ddi_utils.py:215-239 | the "art" keys are exactly the two- and three-phoneme keys of the section |
| DdiDict.ArtDictItems | utils/ddi_utils.py:215-239 | every "art" entry comes from a unit of the section |
| DdiDict.UnitSamplesHaveStart | utils/ddi_utils.py:222-225 | every articulation sample carries a start sound reference |
| DdiDict.ArtSamplesHaveStart | utils/ddi_utils.py:222-237 | every sample in the "art" dict carries a start sound reference, so `snd_start` is always there |
| DdiDict.SortedItemIn | utils/ddi_utils.py:238-239 | a sorted entry is an entry of the unsorted dict |
| DdiDict.PutUnitsLoop | utils/ddi_utils.py:218-225 | the loop stores a block's units as specified |
| DdiDict.PutSubBlocksLoop | utils/ddi_utils.py:227-237 | the loop stores the nested units as specified |
| DdiDict.BuildArtDict | utils/ddi_utils.py:215-239 | the loop builds the specified "art" dict |
| DdiDict.DataDictOf | utils/ddi_utils.py:189-239 | "sta" and "art" are sorted; "vqm" is present iff the section is, with one sample per growl in order |
| VqmStream.ConstantNumbers | mixins_ddb.py:96-99 | the constant fields decode to 0, 1 and the 44100 Hz rate |
| VqmStream.TagVqmDecodes | mixins_ddb.py:95 | the written tag decodes to "VQM " |
| VqmStream.TagVqmuDecodes | mixins_ddb.py:102 | the written tag decodes to "VQMu" |
| VqmStream.TagVqmpDecodes | mixins_ddb.py:111 | the written tag decodes to "VQMp" |
| VqmStream.TrailerEncodes | mixins_ddb.py:138-139 | the trailer strings encode |
| VqmStream.U64s | mixins_ddb.py:126-127 | a list of 8-byte little-endian integers: Ok iff all fit, 8 bytes each |
| VqmStream.U64sSnoc | mixins_ddb.py:126-127 | one more integer appends its 8 bytes |
| VqmStream.U64sAt | mixins_ddb.py:127 | the 8 bytes at 8i read back as element i |
| VqmStream.VqmpHead | mixins_ddb.py:110-124 | no contract of its own: a record's fixed fields, 10-byte dump and floats up to `00000000 FFFFFFFF`; WriteVqmpHead states that the writer emits it and ParseVqmpHeadAt that the reader reads it back |
| VqmStream.EprBlockBytes | mixins_ddb.py:125-131 | no contract of its own: the epr count, the 8-byte offsets and `44 AC 00 00 01 00`, or the overflow error; WriteEprBlock and ParseEprBlockOf state it |
| VqmStream.VqmpRecord | mixins_ddb.py:110-136 | no contract of its own: one `VQMp` record or the first error raised while writing it; VqmpRecordsSnoc, VqmpRecordsFirstErr and ParseVqmpOf state it |
| VqmStream.VqmpRecords | mixins_ddb.py:109-136 | no contract of its own: the records in list order, the first failing one deciding the error; VqmpRecordsStep, VqmpRecordsFirstErr and StreamLayout state it |
| VqmStream.VqmHeader | mixins_ddb.py:94-107 | no contract of its own: the `VQM ` and `VQMu` headers with the sample count written twice; WriteVqmHeader, LayoutHeader and ParseVqmCountsAt state it |
| VqmStream.VqmpRecordsSnoc | mixins_ddb.py:109-136 | one more growl part appends its record |
| VqmStream.VqmpRecordsStep | mixins_ddb.py:109-136 | the records of a prefix grow one record at a time |
| VqmStream.VqmpRecordsFirstErr | mixins_ddb.py:109-136 | the records fail with the first failing part's error |
| VqmStream.Append | mixins_ddb.py:94 | a write at the end appends |
| VqmStream.WriteVqmpHead | mixins_ddb.py:110-121 | writes a part's fixed head |
| VqmStream.WriteU64s | mixins_ddb.py:126-127 | writes the offsets, or fails with overflow without writing |
| VqmStream.WriteEprBlock | mixins_ddb.py:124-127 | writes the epr block, or fails |
| VqmStream.WriteVqmpTail | mixins_ddb.py:130-136 | writes the sound reference and index, or fails |
| VqmStream.WriteVqmp | mixins_ddb.py:110-136 | writes a whole part record, or fails with its error |
| VqmStream.WriteVqmHeader | mixins_ddb.py:94-107 | writes the VQM and VQMu headers with the count |
| VqmStream.WriteNextVqmp | mixins_ddb.py:109-136 | after part i the output is the header and the first i+1 records |
| VqmStream.WriteVqmps | mixins_ddb.py:109-136 | writes all part records, or fails with the first error |
| VqmStream.CreateVqmStream | mixins_ddb.py:91-141 | `_create_vqm_stream` writes exactly the specified stream bytes, or fails with the first overflow |
| VqmStream.VqmStreamBytes | mixins_ddb.py:91-141 | no contract of its own: the bytes `_create_vqm_stream` writes; CreateVqmStream computes them and ParseVqmOfStream reads them back |
| VqmStream.VqmpTail | mixins_ddb.py:130-136 | no contract of its own: the sound reference, 16 0xFF bytes and the index string; TailFieldsAt and ParseVqmpTailOf read it back |
| VqmStream.ReadStrAt | utils/ddi_utils.py:31-33 | a written string reads back |
| VqmStream.EprRefs | mixins_ddb.py:126-127 | the refs the reader records for the written offsets |
| VqmStream.ParseVqmpOpening | mixins_ddb.py:110-114 | the written opening passes the reader's assertions |
| VqmStream.ParseVqmpFloats | mixins_ddb.py:116-124 | the written floats read back |
| VqmStream.ParseVqmpHeadAt | mixins_ddb.py:110-124 | the written head reads back |
| VqmStream.U64sFields | mixins_ddb.py:126-127 | each written offset sits at its 8-byte slot |
| VqmStream.EprFieldsAt | mixins_ddb.py:124-131 | the written epr block's fields sit where the reader looks |
| VqmStream.ParseEprBlockOf | mixins_ddb.py:124-131 | the written epr block reads back with its offsets and rate 44100 |
| VqmStream.ParseEprBlockAt | mixins_ddb.py:124-131 | the same, at any position of a larger buffer |
| VqmStream.TailFieldsAt | mixins_ddb.py:132-136 | the written tail's fields sit where the reader looks |
| VqmStream.ParseVqmpTailOf | utils/ddi_utils.py:641-646 | the written tail reads back as the sound reference and index |
| VqmStream.ParseVqmpOf | utils/ddi_utils.py:617-647 | a written record reads back as its part |
| VqmStream.VqmpOf | mixins_ddb.py:110-136 | the part the reader sees: the written epr offsets are preserved in order |
| VqmStream.ParseFieldsAt | mixins_ddb.py:110-136 | a written record parses with its index and part and ends after the record |
| VqmStream.VqmpOfAt | mixins_ddb.py:110-136 | the part read back, field by field |
| VqmStream.RecordHeadAt | mixins_ddb.py:110-124 | the head of a written record reads back |
| VqmStream.BlockBytesAt | mixins_ddb.py:124-131 | the epr block bytes sit after the head |
| VqmStream.RecordBlockAt | mixins_ddb.py:124-131 | the epr block of a written record reads back |
| VqmStream.RecordTailAt | mixins_ddb.py:132-136 | the tail of a written record reads back |
| VqmStream.TailBytesAt | mixins_ddb.py:132-136 | the tail bytes sit after the block |
| VqmStream.ParseTailAt | mixins_ddb.py:132-136 | the tail reads back at its position |
| VqmStream.FieldsForFit | mixins_ddb.py:110-136 | the record of a part is made of its fields |
| VqmStream.FieldsList | mixins_ddb.py:109-136 | the fields of every part |
| VqmStream.RecordsOfList | mixins_ddb.py:109-136 | the records are the concatenated field bytes |
| VqmStream.FieldBytesSize | mixins_ddb.py:110-136 | a record's size from its fields |
| VqmStream.Starts | mixins_ddb.py:109-136 | the start position of every record, beginning at the first |
| VqmStream.IdxOf | mixins_ddb.py:136 | the index each record carries |
| VqmStream.VqmpsOf | mixins_ddb.py:109-136 | the part each record reads back as |
| VqmStream.ParseChain | utils/ddi_utils.py:616-647 | reading consecutive records stores each part under its index |
| VqmStream.RecordsReadAll | mixins_ddb.py:109-136 | every written record reads back and the last ends at the end of the records |
| VqmStream.RecordReads | mixins_ddb.py:110-136 | one written record reads back |
| VqmStream.ParseRecordsAt | mixins_ddb.py:106-136 | the reader's loop over written records succeeds, stores every part by index in order and ends after the last record |
| VqmStream.ParseVqmpsStep | utils/ddi_utils.py:616-647 | one step of the reader's loop |
| VqmStream.VqmOpeningAt | utils/ddi_utils.py:601-604 | the first 20 bytes `_create_vqm_stream` writes pass the first four assertions of `read_vqm` |
| VqmStream.VqmClosingAt | utils/ddi_utils.py:605-607 | the next 16 bytes pass the next three assertions |
| VqmStream.ParseVqmTagAt | utils/ddi_utils.py:601-607 | the written `VQM ` header passes every assertion on it and ends 36 bytes on |
| VqmStream.ParseVqmuAt | utils/ddi_utils.py:609-614 | the written `VQMu` header passes its assertions and reads the sample count |
| VqmStream.ParseVqmCountsAt | utils/ddi_utils.py:601-615 | both headers and the second copy of the count read back: the count, and the samples start 60 bytes on |
| VqmStream.FieldsListFit | mixins_ddb.py:109-136 | the fields of encodable parts fit them, part by part |
| VqmStream.GrowlData | mixins_ddb.py:138 | `str_to_data("GROWL")` is the length 5 then the five letters |
| VqmStream.VqmData | mixins_ddb.py:139 | `str_to_data("vqm")` is the length 3 then the three letters |
| VqmStream.TrailerData | mixins_ddb.py:138-139 | the two closing strings together are the 16 trailer bytes |
| VqmStream.TrailerAt | utils/ddi_utils.py:648-649 | the written trailer passes both closing assertions and ends 16 bytes on |
| VqmStream.StreamLayout | mixins_ddb.py:91-141 | the written block is the headers with the count, the records, then the trailer |
| VqmStream.LayoutHeader | utils/ddi_utils.py:601-615 | the headers at the front of a written block read back |
| VqmStream.LayoutRecords | utils/ddi_utils.py:616-647 | the records in the middle of a written block read back, every part stored under its index in order |
| VqmStream.LayoutTrailer | utils/ddi_utils.py:648-649 | the trailer at the end of a written block reads back |
| VqmStream.ParseVqmSteps | utils/ddi_utils.py:598-650 | `read_vqm` is the header read, the record loop and the trailer read, one after the other |
| VqmStream.ParseVqmLayout | utils/ddi_utils.py:598-650 | `read_vqm` over headers, records and trailer laid out in a row returns every part under its index and ends after the trailer |
| VqmStream.ParseVqmOfStream | mixins_ddb.py:91-141 | `read_vqm` over the block `_create_vqm_stream` writes, wherever it sits, passes every assertion, returns each encodable part under its index in list order and ends exactly at the end of the block |
| Mixins.ByteReplaceLayout | mixins_ddb.py:35-36 | `byte_replace`: the bytes before the offset, then the replacement, then the bytes after the replaced span |
| Mixins.ByteReplaceInserts | mixins_ddb.py:35-36 | replacing zero bytes inserts the replacement at the offset |
| Mixins.ByteReplaceUndo | mixins_ddb.py:35-36 | replacing the new bytes by the old ones restores the source |
| Mixins.ByteReplaceAtMinusOne | mixins_ddb.py:248 | with offset -1 (the footer `find` failed) the block goes in before the last byte instead of failing |
| Mixins.ByteReplace | mixins_ddb.py:35-36 | no contract of its own: Python slicing around the replacement; ByteReplaceLayout, ByteReplaceInserts, ByteReplaceUndo and ByteReplaceAtMinusOne state what it does |
| Mixins.CheckHeader | mixins_ddb.py:175-177 | no contract of its own: the tag check, decoded in `mixins_vqm` and byte-wise in `mixins_sta2vqm` (lines 299-301); CheckHeaderPasses states when it passes |
| Mixins.CheckHeaderPasses | mixins_ddb.py:175-177 | the four-byte header check passes iff the bytes are the tag |
| Mixins.TagsAreText | mixins_ddb.py:175-176 | "FRM2" and "SND " are ASCII texts whose encodings are the tags |
| Mixins.FrameAt | mixins_ddb.py:173-182 | no contract of its own: an epr frame read from the donor ddb, a negative offset failing the seek; FrameAtLayout states it |
| Mixins.VqmSoundAt | mixins_ddb.py:195-211 | no contract of its own: `mixins_vqm`'s sound with both `SND ` checks; VqmSoundAtLayout, VqmSoundAtPasses and VqmSoundAtFails state it |
| Mixins.FrameAtLayout | mixins_ddb.py:173-184 | a frame is read iff "FRM2" sits at the offset; it is the bytes from the offset, as many as its length field says (fewer at end of file) |
| Mixins.VqmSoundAtLayout | mixins_ddb.py:195-211 | a growl sound is read iff "SND " sits at the offset with a length of at least 4; it is the bytes of that length from the offset |
| Mixins.VqmSoundAtPasses | mixins_ddb.py:195-211 | with "SND " at the offset and a length of at least 4 both header checks pass; the result is the bytes of that length from the offset, cut at the end of the file |
| Mixins.VqmSoundAtFails | mixins_ddb.py:195-211 | without "SND " at the offset, or with a length below 4, one of the two header checks raises |
| Mixins.StaSoundAt | mixins_ddb.py:320-331 | no contract of its own: `mixins_sta2vqm`'s sound found by reverse search; StaSoundAtLayout states it |
| Mixins.StaSoundAtLayout | mixins_ddb.py:320-331 | the stationary sound is read iff a backwards search from the sample offset finds "SND "; it is the bytes of its length from the tag found |
| Mixins.Offsets | mixins_ddb.py:168 | one output offset per copied frame |
| Mixins.EmitAllSnoc | mixins_ddb.py:184 | one more frame is appended after the others and its offset is the previous end |
| Mixins.EmitAllPos | mixins_ddb.py:168 | after copying, the position moved by the total length |
| Mixins.EmitAllAppends | mixins_ddb.py:184 | copying at the end of the output appends the frames in order |
| Mixins.OffsetsAt | mixins_ddb.py:168 | frame k's offset is the start plus the lengths of the frames before it |
| Mixins.OffsetsContiguous | mixins_ddb.py:168-186 | the first offset is the start and each next offset is the previous one plus its frame's length |
| Mixins.JoinedAt | mixins_ddb.py:184-186 | frame k sits at its recorded offset in the output |
| Mixins.ReadAll | mixins_ddb.py:166-186 | reading every ref gives one result per ref, or an error |
| Mixins.ReadAllEach | mixins_ddb.py:166-186 | each result is what reading its ref gives |
| Mixins.ReadAllStep | mixins_ddb.py:166-186 | one more ref extends the results by its read |
| Mixins.ReadAllPrefix | mixins_ddb.py:166-186 | a failing prefix fails the whole list the same way |
| Mixins.ReadAllFails | mixins_ddb.py:166-186 | reading all refs fails iff some ref's read fails |
| Mixins.BuildCons | mixins_ddb.py:164-224 | the entry loop handles its first entry, then the rest |
| Mixins.BuildMetas | mixins_ddb.py:164-224 | every built record has any property each single step guarantees |
| Mixins.BuildFails | mixins_ddb.py:164-224 | the entry loop fails iff some entry is bad |
| Mixins.FramesFail | mixins_ddb.py:175-177 | copying frames fails iff some ref does not point at "FRM2" |
| Mixins.CopyFrames | mixins_ddb.py:166-186 | no contract of its own: the epr loop, frames written one after another and their output offsets; CopyFramesCopies and FramesFail state it |
| Mixins.CopyFramesCopies | mixins_ddb.py:166-186 | frame k is the frame at ref k, and its recorded output offset is the start plus the earlier frames' lengths |
| Mixins.VqmEntry | mixins_ddb.py:165-224 | no contract of its own: one donor growl, its frames then its sound then its sample; VqmEntryCopies, VqmEntryAppends and VqmEntryFails state it |
| Mixins.VqmEntryCopies | mixins_ddb.py:165-224 | a copied growl's record keeps its fields, its epr offsets are where its frames were written, its sound offset follows them, and the output is frames then sound |
| Mixins.VqmEntryAppends | mixins_ddb.py:184 | frames then sound are appended in order |
| Mixins.VqmEntryFails | mixins_ddb.py:175-209 | copying one growl fails iff its donor data is broken |
| Mixins.VqmEntries | mixins_ddb.py:164-224 | no contract of its own: the loop over the donor's growls; VqmEntriesMetas and VqmEntriesFail state it |
| Mixins.VqmEntriesMetas | mixins_ddb.py:164-224 | every new growl record carries its donor entry's fields |
| Mixins.VqmEntriesFail | mixins_ddb.py:164-224 | copying growls fails iff some donor entry is broken |
| Mixins.FindStau | mixins_ddb.py:270-277 | the unit with the phoneme; none iff no unit has it |
| Mixins.FindStauFirst | mixins_ddb.py:271-274 | it is the first unit with the phoneme |
| Mixins.FirstFrames | mixins_ddb.py:290 | the first min(100, n) frames of a part, in order |
| Mixins.Kept | mixins_ddb.py:286-288 | only parts with at least 100 frames are kept |
| Mixins.StaEntry | mixins_ddb.py:282-347 | no contract of its own: one stationary sample's first 100 frames, its sound and the growl built from them; StaEntryCarries and StaEntryFails state it |
| Mixins.StaEntries | mixins_ddb.py:281-349 | no contract of its own: the stap loop, samples with fewer than 100 frames passed over; StaEntriesMetas and StaEntriesFail state it |
| Mixins.StaEntryCarries | mixins_ddb.py:336-347 | a new record carries its number and the part's fields |
| Mixins.StaEntriesMetas | mixins_ddb.py:281-349 | one record per kept part, record i numbered i with exactly 100 frames |
| Mixins.StaEntryFails | mixins_ddb.py:297-326 | one stationary part fails iff its donor data is broken |
| Mixins.StaEntriesFail | mixins_ddb.py:281-334 | copying the parts fails iff some kept part is broken |
| Mixins.StaBuildFails | mixins_ddb.py:281-334 | the loop over kept parts fails iff one is broken |
| Mixins.BumpDbvCounts | mixins_ddb.py:238-244 | the 4-byte DBV count is incremented, an error exactly when it is 0xFFFFFFFF, and every other byte is kept |
| Mixins.SpliceReplaces | mixins_ddb.py:231-233 | an existing vqm section is replaced by the new stream, bytes outside it kept |
| Mixins.SpliceInserts | mixins_ddb.py:234-248 | without one, the stream is inserted before the footer of the index with its DBV count bumped |
| Mixins.BumpDbv | mixins_ddb.py:238-244 | no contract of its own: the DBV count plus one; BumpDbvCounts states it |
| Mixins.Splice | mixins_ddb.py:230-248 | no contract of its own: the new block in place of the old range, or before the footer with the count bumped; SpliceReplaces and SpliceInserts state it |
| Mixins.NewIndex | mixins_ddb.py:226-250 | no contract of its own: the written block spliced into the index; ParseVqmOfStream, SpliceReplaces and SpliceInserts state what the result holds |
| Mixins.StopsAsWrittenAlways | mixins_ddb.py:160-161 | as written the prompt stops on every answer, "y" and "" included |
| Mixins.StopsOnlyOnNo | mixins_ddb.py:158-161 | corrected: it stops iff the answer is neither "y" nor empty |
| Mixins.StopsAsWritten | mixins_ddb.py:160-161 | no contract of its own: the test as written; StopsAsWrittenAlways states that every answer stops |
| Mixins.Stops | mixins_ddb.py:158-161 | no contract of its own: the test as intended; StopsOnlyOnNo states which answers stop |
| Mixins.MixVqmSamples | mixins_ddb.py:144-250 | `mixins_vqm` past the prompt (no vqm section, or the test lets it go on): any broken donor growl fails it; otherwise the result is the new index built from the copied records, each carrying its donor's fields |
| Mixins.VqmStopsAtPrompt | mixins_ddb.py:156-161 | with an existing vqm section the growl mix does nothing iff the chosen prompt test stops on the answer, as written (always) or as intended (neither "y" nor empty) |
| Mixins.StaStopsAtPrompt | mixins_ddb.py:262-267 | the same for the stationary mix, under either prompt test |
| Mixins.AsWrittenMixersAlwaysStop | mixins_ddb.py:156-161 | with the test as written, both mixers return without output whenever the target has a vqm section, whatever the answer |
| Mixins.MixStaSamples | mixins_ddb.py:253-374 | `mixins_sta2vqm` past the prompt: a missing phoneme raises; a broken kept part fails; otherwise one record per kept part, numbered in order, 100 frames each |
| Mixins.MixVqm | mixins_ddb.py:144-250 | no contract of its own: `mixins_vqm` over the target bytes; VqmStopsAtPrompt, AsWrittenMixersAlwaysStop and MixVqmSamples state its outcomes, MixinsVqm is the method that performs it |
| Mixins.MixSta2Vqm | mixins_ddb.py:253-374 | no contract of its own: `mixins_sta2vqm` over the target bytes; StaStopsAtPrompt, AsWrittenMixersAlwaysStop and MixStaSamples state its outcomes, MixinsSta2Vqm is the method that performs it |
| Mixins.CopyFrame | mixins_ddb.py:173-184 | reads one frame as specified; donor unchanged |
| Mixins.FramesSoFarStep | mixins_ddb.py:166-186 | the loop invariant holds after one more frame |
| Mixins.FramesSoFarFail | mixins_ddb.py:166-186 | a failing frame ends the loop with its error |
| Mixins.FramesSoFarDone | mixins_ddb.py:166-186 | at the end the loop's result is the specified copy |
| Mixins.CopyFramesTo | mixins_ddb.py:166-186 | the loop copies the frames as specified |
| Mixins.CopyVqmSound | mixins_ddb.py:195-211 | reads the growl sound as specified |
| Mixins.CopyStaSound | mixins_ddb.py:320-334 | reads the stationary sound as specified |
| Mixins.MixVqmEntry | mixins_ddb.py:164-224 | copies one growl as specified |
| Mixins.MixVqmEntries | mixins_ddb.py:164-224 | the loop copies all growls as specified |
| Mixins.MixStaEntry | mixins_ddb.py:282-347 | copies one stationary part as specified |
| Mixins.KeptStep | mixins_ddb.py:286-288 | a part under 100 frames is skipped, a longer one kept |
| Mixins.MixStaEntries | mixins_ddb.py:281-349 | the loop copies all kept parts as specified |
| Mixins.BumpDbvCount | mixins_ddb.py:238-244 | increments the DBV count in place as specified, or fails without writing |
| Mixins.RangesLookup | mixins_ddb.py:232-239 | the recorded ranges give the dbv range and, when present, the vqm range |
| Mixins.CreateIndex | mixins_ddb.py:227-248 | builds the new index as specified |
| Mixins.MixinsVqm | mixins_ddb.py:144-250 | reads the source index and performs the whole growl mix as specified, under the prompt test it is given (as written or as intended) |
| Mixins.MixinsVqmFrom | mixins_ddb.py:163-250 | the growl mix once the source index is read, under the given prompt test |
| Mixins.MixinsSta2Vqm | mixins_ddb.py:253-374 | reads the source index and performs the whole stationary mix as specified, under the prompt test it is given (as written or as intended) |
| Mixins.MixinsSta2VqmFrom | mixins_ddb.py:269-374 | the stationary mix once the source index is read, under the given prompt test |
| Pack.EscapeChar | pack_ddb.py:14-17 | a lowercase letter stays; anything else becomes %code% |
| Pack.EscapeFilename | pack_ddb.py:11-19 | the loop computes the escaped name |
| Pack.EscapeAppend | pack_ddb.py:13-17 | escaping distributes over concatenation |
| Pack.EscapeLowerIdentity | pack_ddb.py:13-17 | all-lowercase names are unchanged |
| Pack.EscapeLength | pack_ddb.py:13-17 | escaping never shortens, and keeps the length iff all chars are lowercase |
| Pack.Escape | pack_ddb.py:11-19 | no contract of its own: `escape_filename` char by char; EscapeChar, EscapeAppend, EscapeLowerIdentity and EscapeLength state it |
| Pack.IndexOf | pack_ddb.py:17 | the first position of a char |
| Pack.UnescapePercent | pack_ddb.py:17 | a piece "%digits%" decodes to the char whose code is those digits |
| Pack.UnescapeCodePoint | pack_ddb.py:17 | an escaped char decodes back |
| Pack.UnescapeChar | pack_ddb.py:14-17 | any escaped char decodes back |
| Pack.Unescape | pack_ddb.py:11-19 | no contract of its own: the inverse reading of escaped names, the partner of Escape; UnescapeEscape states the round trip |
| Pack.UnescapeEscape | pack_ddb.py:11-19 | escaping is invertible, so different names give different files |
| Pack.PatchLayout | pack_ddb.py:122-123 | patching an 8-byte offset succeeds iff 0 <= v < 2^64; the 8 bytes at pos then read back as v and the ddi does not shrink (its length is kept when pos+8 fits) |
| Pack.PatchKeeps | pack_ddb.py:122-123 | every byte outside the patched 8 stays |
| Pack.Patch | pack_ddb.py:122-123 | no contract of its own: an 8-byte little-endian write into the index, or the overflow error; PatchLayout and PatchKeeps state it |
| Pack.PySliceFrom | pack_ddb.py:119 | a slice from i takes up to n bytes |
| Pack.Chunk | pack_ddb.py:110-119 | no contract of its own: a tagged chunk of a voice file, its tag checked and its length read; ChunkLayout states it |
| Pack.ChunkLayout | pack_ddb.py:110-119 | a chunk read succeeds iff its tag sits at the offset; it is the bytes of its length |
| Pack.EmitParts | pack_ddb.py:119-123 | an emit appends the chunk and applies the patch |
| Pack.CopyChunkOk | pack_ddb.py:103-123 | a chunk copy succeeds iff the tag is at the offset and the new ddb offset plus delta fits in 64 bits |
| Pack.CopyChunkLayout | pack_ddb.py:103-123 | the chunk bytes (the length field's worth, or the rest of the file) are appended to the ddb and the ddi slot is patched to the old ddb length plus delta |
| Pack.CopyEprLayout | pack_ddb.py:103-123 | an epr copy succeeds iff "FRM2" is at the offset and the ddb length fits; the frame is appended and its ddi slot reads the ddb length before the append |
| Pack.CopyEpr | pack_ddb.py:103-123 | no contract of its own: one epr frame appended and its index field patched; CopyEprLayout states it |
| Pack.Patch2Layout | pack_ddb.py:158-160 | two consecutive 8-byte patches succeed iff both values fit |
| Pack.Patch2 | pack_ddb.py:158-160 | no contract of its own: two 8-byte little-endian writes from one index position; Patch2Layout states it |
| Pack.SoundStartsWithTag | pack_ddb.py:149-153 | the second header check passes iff the length field is at least 4 |
| Pack.SoundChunkLayout | pack_ddb.py:139-153 | a sound is read iff the offset is non-negative, "SND " is there and the length field is at least 4; the result is the chunk's bytes |
| Pack.SoundChunk | pack_ddb.py:139-153 | no contract of its own: an articulation sample's sound chunk, its start checked for `SND `; SoundChunkLayout and SoundStartsWithTag state it |
| Pack.ArtSoundOk | pack_ddb.py:125-160 | an articulation sound copy succeeds iff the sound is there and both new offsets (ddb length + 0x12, and that plus the cutoff delta) fit |
| Pack.ArtSoundLayout | pack_ddb.py:137-160 | the sound is appended; the ddi gets the ddb length + 0x12 and that plus the distance from the sound to its second offset |
| Pack.ArtSound | pack_ddb.py:125-160 | no contract of its own: the sound appended and both index fields patched; ArtSoundOk, ArtSoundLayout and ArtSoundExtends state it |
| Pack.StaSoundLayout | pack_ddb.py:204-222 | succeeds iff "SND " is at 0x3d and the new offset fits; the sound from 0x3d is appended and the ddi gets the ddb length plus the sample's distance from 0x3d |
| Pack.StaSound | pack_ddb.py:198-222 | no contract of its own: the `SND ` chunk at 0x3d appended and the index field patched with the shifted position; StaSoundLayout states it |
| Pack.FoldAdvance | pack_ddb.py:99-123 | the loops advance one item at a time |
| Pack.FoldStops | pack_ddb.py:99-123 | a failing item stops the loop |
| Pack.FoldDone | pack_ddb.py:99-123 | the whole list is folded |
| Pack.ExtendsTrans | pack_ddb.py:83-222 | the ddb only grows |
| Pack.FoldExtends | pack_ddb.py:83-222 | a fold of growing steps grows |
| Pack.CopyChunkExtends | pack_ddb.py:103-123 | a chunk copy only appends to the ddb |
| Pack.ArtSoundExtends | pack_ddb.py:125-160 | a sound copy only appends to the ddb |
| Pack.CopyEprsExtends | pack_ddb.py:103-123 | epr copies only append |
| Pack.ArtSampleAsWrittenFails | pack_ddb.py:128 | as written every articulation sample fails looking up "snd_cutoff" |
| Pack.CopyArtSampleExtends | pack_ddb.py:99-160 | corrected: the articulation sample copy only appends |
| Pack.CopyArtSample | pack_ddb.py:99-160 | corrected, no contract of its own: the eprs, then the sound with `snd_start` as second offset; CopyArtSampleExtends states that it only appends |
| Pack.CopyArtSampleAsWritten | pack_ddb.py:124-130 | as written, no contract of its own: after the eprs the `snd_cutoff` lookup fails; ArtSampleAsWrittenFails states it |
| Pack.CopyStaSampleExtends | pack_ddb.py:176-222 | a stationary sample copy only appends |
| Pack.CopyArtItemExtends | pack_ddb.py:84-160 | corrected (see Findings): an articulation key copy only appends |
| Pack.ArtFile | pack_ddb.py:85-89 | no contract of its own: the escaped two- or three-part path under voice/articulation, none for any other count (see Left out); PackMain.ArtFileOf computes it part by part and UnescapeEscape states that each escaped part reads back |
| Pack.CopyArtItem | pack_ddb.py:84-160 | corrected (see Findings): no contract of its own: the file looked up, then each sample copied; CopyArtItemExtends and PackMain.CopyArtItemTo state it |
| Pack.CopyStaItemExtends | pack_ddb.py:162-222 | a stationary key copy only appends |
| Pack.StaFile | pack_ddb.py:166 | no contract of its own: voice/stationary/normal with the escaped phoneme and the escaped sample number; CopyStaSampleAt reads the sample from it, and PackMain.CopyStaSampleAtTo states the method's effect through CopyStaSampleAt |
| Pack.CopyStaSampleAt | pack_ddb.py:163-222 | no contract of its own: the `i`-th stationary sample copied from its own file; CopyStaSampleExtends and PackMain.CopyStaSampleAtTo state it |
| Pack.CopyStaItem | pack_ddb.py:162-222 | no contract of its own: the samples of one phoneme in order; CopyStaItemExtends and PackMain.CopyStaItemTo state it |
| Pack.PackDdbExtends | pack_ddb.py:83-222 | the ddi never shrinks |
| PackMain.ReadChunk | pack_ddb.py:110-119 | reads a chunk, leaving the source bytes unchanged, with the result of the chunk specification |
| PackMain.ReadOn | pack_ddb.py:116 | consecutive reads read consecutive bytes |
| PackMain.PatchTo | pack_ddb.py:122-123 | patches the ddi in place to the specified bytes, or reports the patch error |
| PackMain.Append | pack_ddb.py:119 | appends to the ddb |
| PackMain.DidEmit | pack_ddb.py:119-123 | append then patch is the specified emit |
| PackMain.CopyChunkTo | pack_ddb.py:103-123 | the in-place copy leaves the source unchanged, ends with the ddi and ddb the chunk copy specifies (or its error), and keeps the ddb cursor at its end |
| PackMain.ReadSound | pack_ddb.py:139-153 | reads a sound chunk without changing the source, with the result of the sound specification |
| PackMain.Patch2To | pack_ddb.py:158-160 | two patches in place |
| PackMain.DidArtSound | pack_ddb.py:125-160 | the method's steps are the specified sound copy |
| PackMain.ArtSoundIsEmit | pack_ddb.py:125-160 | a sound copy is one emit |
| PackMain.CopyArtSoundTo | pack_ddb.py:125-160 | the in-place articulation sound copy ends with the ddi and ddb the specification gives, or its error |
| PackMain.CopyEprsTo | pack_ddb.py:103-123 | the in-place loop over eprs ends with the state the epr fold specifies, or its first error |
| PackMain.CopyArtSampleTo | pack_ddb.py:99-160 | one articulation sample copied in place, as the corrected specification gives |
| PackMain.CopyStaSampleTo | pack_ddb.py:176-222 | one stationary sample copied in place as specified |
| PackMain.ArtFileOf | pack_ddb.py:85-89 | the articulation file path of a key |
| PackMain.CopyArtItemTo | pack_ddb.py:84-160 | corrected (see Findings): one articulation key copied in place as specified, including the missing-file error |
| PackMain.CopyStaSampleAtTo | pack_ddb.py:163-222 | stationary sample i copied in place as specified |
| PackMain.CopyStaItemTo | pack_ddb.py:162-222 | one stationary key copied in place as specified |
| PackMain.CopyArtItemsTo | pack_ddb.py:84-160 | corrected (see Findings): the loop over articulation keys ends in the state the fold specifies |
| PackMain.CopyStaItemsTo | pack_ddb.py:162-222 | the loop over stationary keys ends in the state the fold specifies |
| PackMain.PackDdbTo | pack_ddb.py:83-222 | corrected (see Findings): starting from an empty ddb, the method ends with the patched ddi and ddb of the packing specification, or its error |
| PackMain.RepackTo | pack_ddb.py:61-222 | corrected (see Findings): reading the index then packing gives exactly the repack specification |
| PackMain.RepackFrom | pack_ddb.py:83-222 | the repack from an already read index |
| Pack.PackDdb | pack_ddb.py:83-222 | corrected (see Findings): no contract of its own: the fold over articulation keys, then stationary keys; FoldExtends and the Copy...Extends lemmas state that it only appends, PackMain.PackDdbTo is the method that performs it |
| Pack.Repack | pack_ddb.py:61-222 | corrected (see Findings): no contract of its own: read the index, then pack its data dictionary; PackMain.RepackTo is the method that performs it |
| ExtractWav.SwapPointwise | extract_wav.py:22-29 | swapping two chars works position by position |
| ExtractWav.EscapePointwise | extract_wav.py:19-30 | `escape_xsampa` maps each reserved char to its replacement |
| ExtractWav.UnescapePointwise | extract_wav.py:33-43 | `unescape_xsampa` maps each replacement back |
| ExtractWav.EscapeClean | extract_wav.py:22-29 | escaped names contain no reserved char |
| ExtractWav.UnescapeEscape | extract_wav.py:19-43 | unescaping an escaped phoneme gives it back |
| ExtractWav.EscapeSil | extract_wav.py:21 | "Sil" becomes "sil" |
| ExtractWav.EscapeXsampa | extract_wav.py:19-30 | no contract of its own: "Sil" to "sil", then each reserved char to its stand-in; EscapePointwise, EscapeClean and UnescapeEscape state what it guarantees |
| ExtractWav.UnescapeXsampa | extract_wav.py:33-43 | no contract of its own: each stand-in back to its reserved char; UnescapePointwise and UnescapeEscape state what it guarantees |
| ExtractWav.EscapeAll | extract_wav.py:80 | each phoneme is escaped |
| ExtractWav.Segments | extract_wav.py:107 | each escaped phoneme becomes one path segment |
| ExtractWav.OffsetHex | extract_wav.py:79 | the offset text is at least 8 lowercase hex digits that read back as the offset |
| ExtractWav.HexDumpHasNoSlash | extract_wav.py:107 | a hex dump has no slash |
| ExtractWav.DevkitNameParts | extract_wav.py:106-121 | a devkit name splits into its root, one segment per phoneme and the file |
| ExtractWav.DevkitNameShape | extract_wav.py:106-121 | the devkit name's layout |
| ExtractWav.SplitPath | extract_wav.py:106-121 | a joined path splits back into its parts |
| ExtractWav.SegmentsHaveNoSlash | extract_wav.py:107 | segments contain no slash |
| ExtractWav.FileHasNoSlash | extract_wav.py:121 | the file part contains no slash |
| ExtractWav.SegmentReadsBack | extract_wav.py:107 | a segment reads back as the phoneme |
| ExtractWav.FlatNameParts | extract_wav.py:90-105 | the flat name is prefix, escaped phonemes joined by "-", pitch and offset |
| ExtractWav.EscapedHasNoDash | extract_wav.py:22-29 | escaped phonemes have no dash, so the join is unambiguous |
| ExtractWav.KindMarks | extract_wav.py:93-120 | the prefix is growl, sta, art or tri exactly by the phoneme list |
| ExtractWav.CreateFileName | extract_wav.py:78-127 | no contract of its own: the flat or devkit name of a dumped sound; FlatNameParts, DevkitNameParts, DevkitNameShape, KindMarks and OffsetHex state its layout |
| ExtractWav.ReadSound | extract_wav.py:167-173 | reads a sound without changing the ddb bytes; it fails with ValueError iff the header layout does (length field below 17), otherwise the sound and cursor are those of the header layout |
| ExtractWav.SoundLayout | extract_wav.py:167-173 | header fields at fixed offsets, payload of length-18 bytes, end at tag + length |
| ExtractWav.SoundTooShort | extract_wav.py:173 | a length field below 17 asks the buffered file's `read` for fewer than -1 bytes, which raises ValueError |
| ExtractWav.SoundShortLength | extract_wav.py:173 | a length field of exactly 17 asks `read` for -1 bytes and takes the rest of the file |
| ExtractWav.ReadSoundAt | extract_wav.py:167-173 | fails exactly when the length field is below 17, where the buffered file's `read(length - 18)` raises ValueError; SoundLayout, SoundShortLength and SoundTooShort state its fields, end and error |
| ExtractWav.IndexedStep | extract_wav.py:150-183 | fails iff the offset is negative (`seek`) or "SND " sits there with a length field below 17 (`read`); otherwise, when "SND " sits there it adds the named dump of that sound and records the offset, and when it does not nothing changes |
| ExtractWav.IndexedStepFaithful | extract_wav.py:161-183 | every recorded dump sits at a "SND " tag |
| ExtractWav.StaStepFaithful | extract_wav.py:198-222 | corrected (a stationary sound recorded at its tag, see Findings): each stationary dump is the sound read at a recorded "SND " tag |
| ExtractWav.ArtItemsFaithful | extract_wav.py:150-183 | each articulation dump is the sound read at a recorded "SND " tag |
| ExtractWav.ArtEntriesFaithful | extract_wav.py:147-183 | the same over all articulation entries |
| ExtractWav.StaItemsFaithful | extract_wav.py:188-222 | corrected (a stationary sound recorded at its tag, see Findings): the same over the stationary items of a key |
| ExtractWav.StaEntriesFaithful | extract_wav.py:186-222 | corrected (a stationary sound recorded at its tag, see Findings): the same over all stationary entries |
| ExtractWav.VqmEntriesFaithful | extract_wav.py:225-259 | the same over all growls |
| ExtractWav.ExtractFaithful | extract_wav.py:145-259 | corrected (a stationary sound recorded at its tag, see Findings): every dump of the whole extraction is the sound read just after a "SND " tag at a recorded position |
| ExtractWav.BrokenSampleCons | extract_wav.py:155-173 | an undumpable sample (negative offset, or tagged with a length field below 17) is the first item or in the rest |
| ExtractWav.ArtItemsFail | extract_wav.py:155-173 | articulation items fail iff some offset is negative or some tagged sample has a length field below 17 |
| ExtractWav.ArtEntriesFail | extract_wav.py:147-173 | articulation entries fail iff some sample of some entry cannot be dumped (negative offset, or a tagged length field below 17) |
| ExtractWav.BrokenVqmCons | extract_wav.py:226-249 | an undumpable growl is the first or in the rest |
| ExtractWav.VqmEntriesFail | extract_wav.py:226-249 | growls fail iff some offset is negative or some tagged growl has a length field below 17 |
| ExtractWav.StaStepFail | extract_wav.py:199-212 | a stationary sample fails iff its tag is found and its length field is below 17 |
| ExtractWav.BrokenStapsCons | extract_wav.py:188-212 | an undumpable stationary sample is the first or in the rest |
| ExtractWav.StaItemsFail | extract_wav.py:188-212 | a unit's stationary samples fail iff one of them has a found tag with a length field below 17 |
| ExtractWav.StaEntriesFail | extract_wav.py:186-212 | all stationary units fail iff some sample of some unit does |
| ExtractWav.ExtractFails | extract_wav.py:145-259 | extraction fails iff an articulation or growl offset is negative, or a tagged articulation, stationary or growl sound has a length field below 17 |
| ExtractWav.IndexedStepPositions | extract_wav.py:183 | the recorded position is the tag offset |
| ExtractWav.ArtItemsPositions | extract_wav.py:150-183 | the positions are the offsets where tags sit |
| ExtractWav.ArtItems | extract_wav.py:150-183 | no contract of its own: the samples of one articulation in order; ArtItemsFaithful, ArtItemsFail and ArtItemsPositions state it |
| ExtractWav.ArtEntries | extract_wav.py:147-183 | no contract of its own: every articulation, its key split into phonemes; ArtEntriesFaithful and ArtEntriesFail state it |
| ExtractWav.StaStepAsWrittenMisses | extract_wav.py:222 | as written the sample's offset is recorded, at least 4 after the real tag; the step fails iff the tagged length field is below 17 |
| ExtractWav.StaStepRecordsTag | extract_wav.py:199-222 | corrected: fails exactly when the as-written step does, and otherwise gives the same dump, recorded at the tag |
| ExtractWav.StaStep | extract_wav.py:186-222 | corrected, no contract of its own: one stationary sample searched back from its offset and recorded at its tag, failing on a length field below 17; StaStepFaithful, StaStepFail and StaStepRecordsTag state what it guarantees |
| ExtractWav.StaStepAsWritten | extract_wav.py:186-222 | as written, no contract of its own: the same step recording the sample's offset, failing on a length field below 17; StaStepAsWrittenMisses states the discrepancy and the failure |
| ExtractWav.StaItems | extract_wav.py:188-222 | corrected (see Findings), no contract of its own: the stationary samples of one unit in order, stopping at the first that raises; StaItemsFaithful and StaItemsFail state it |
| ExtractWav.StaEntries | extract_wav.py:186-222 | corrected (see Findings), no contract of its own: every stationary unit, stopping at the first that raises; StaEntriesFaithful and StaEntriesFail state it |
| ExtractWav.VqmEntries | extract_wav.py:225-259 | no contract of its own: every growl, named as one; VqmEntriesFaithful and VqmEntriesFail state it |
| ExtractWav.Extract | extract_wav.py:145-259 | no contract of its own: the indexed dump over articulations, stationaries and growls; ExtractFaithful and ExtractFails state what it guarantees, ExtractIndexed is the loop that computes it |
| ExtractWav.DumpIndexed | extract_wav.py:153-183 | the method's result, dump list, positions and error, equals the indexed step's |
| ExtractWav.DumpArtItems | extract_wav.py:150-183 | the loop dumps articulation items |
| ExtractWav.DumpArticulations | extract_wav.py:147-183 | the loop dumps all articulations |
| ExtractWav.ArtEntriesAdvance | extract_wav.py:147-183 | one step of the loop |
| ExtractWav.ArtItemsAdvance | extract_wav.py:150-183 | one step of the loop |
| ExtractWav.VqmEntriesAdvance | extract_wav.py:225-259 | one step of the loop |
| ExtractWav.DumpStationary | extract_wav.py:189-222 | corrected (see Findings): the method's result, error included, equals the corrected stationary step's |
| ExtractWav.DumpStaItems | extract_wav.py:188-222 | corrected (a stationary sound recorded at its tag, see Findings): the loop dumps stationary items |
| ExtractWav.DumpStationaries | extract_wav.py:186-222 | corrected (a stationary sound recorded at its tag, see Findings): the loop dumps all stationaries |
| ExtractWav.StaItemsAdvance | extract_wav.py:188-222 | one step of the loop |
| ExtractWav.StaEntriesAdvance | extract_wav.py:186-222 | one step of the loop |
| ExtractWav.DumpGrowls | extract_wav.py:225-259 | the loop dumps all growls |
| ExtractWav.ExtractIndexed | extract_wav.py:145-259 | corrected (a stationary sound recorded at its tag, see Findings): the method's result equals the extraction specification and leaves the ddb bytes unchanged |
| Seg.Names | utils/seg_utils.py:13-15 | the phoneme of each row |
| Seg.GenerateTranscription | utils/seg_utils.py:10-22 | the method's text equals the transcription text, whose lines are proved by TranscriptionLines |
| Seg.TranscriptionLines | utils/seg_utils.py:10-22 | two lines: the phonemes joined by spaces, then the same in brackets |
| Seg.TranscriptionText | utils/seg_utils.py:10-22 | no contract of its own: the transcription text; TranscriptionLines states its two lines |
| Seg.RowLine | utils/seg_utils.py:49-50 | no contract of its own: name and the two times, two tabs apart; RowLines and SegTextLines state the lines it builds |
| Seg.SegHeader | utils/seg_utils.py:32-37 | no contract of its own: the four header lines, the count being the rows plus 2; HeaderNoNewline and SegTextLines state it |
| Seg.RowLines | utils/seg_utils.py:43-50 | one line per row |
| Seg.GenerateSeg | utils/seg_utils.py:25-54 | the method's text equals the segmentation text, whose layout is proved by SegTextLines |
| Seg.SegTextLines | utils/seg_utils.py:25-54 | lines: "nPhonemes n+2", the stationary flag, two fixed lines, an opening Sil/unknown row up to the first begin, one line per row, a closing row from the last end to the wav length, then an empty final piece |
| Seg.SegLinesLayout | utils/seg_utils.py:28-54 | the same layout for the line list, and no line contains a newline |
| Seg.SegLines | utils/seg_utils.py:32-52 | no contract of its own: header, leading silence, the rows, trailing silence; SegLinesLayout states it |
| Seg.SegText | utils/seg_utils.py:25-54 | no contract of its own: the `.seg` text; SegTextLines and SegLinesLayout state its lines |
| Seg.GenerateArticulationSeg | utils/seg_utils.py:57-91 | the method's text equals the articulation text, whose layout is proved by ArtSegLines |
| Seg.IsUnvoiced | utils/seg_utils.py:79-83 | no contract of its own: listed by the caller or one of Sil, Asp, `?`; FlagsLayout states the flags it decides |
| Seg.FlagsUpTo | utils/seg_utils.py:75-86 | no contract of its own: the flags of the first `i` phonemes, the middle one of three flagged twice; FlagsLayout states it |
| Seg.FlagsLayout | utils/seg_utils.py:75-88 | one flag per phoneme, the middle one doubled for triphones; unvoiced iff listed or Sil/Asp/? |
| Seg.ArtSegLines | utils/seg_utils.py:57-91 | 10 lines; the phonemes list, cut length (the exact floor of wav/2, equal to Python's float result up to 2^53, see Left out) and the voiced flags sit on lines 3, 5 and 8 |
| Seg.ArtSegText | utils/seg_utils.py:57-91 | no contract of its own: the `.as0` text, with the cut length halved exactly (see Left out); ArtSegLines and FlagsLayout state its lines |
| Seg.ArtSegPartsClean | utils/seg_utils.py:57-91 | the ten lines of the `.as0` text hold no line break when the phonemes, boundaries and flags hold none |

## Left out

- Command-line handling (`parse_args`, the `main` argument code of each script), printing, `os.makedirs`, `os.remove`, `wave` writing and the final file writes: these are I/O. Python's `wave` module raises on 0 channels or a frame rate of 0; the model leaves these header values unchecked, since it does not write wave files. The model stops at the bytes and texts that would be written.
- `DDIModel.read` with `temp_path`/`cat_only` (YAML dump and load) and `DDIModel.save`: file I/O and serialisation outside the byte core.
- `DDIModel.read_phdc` and `DDIModel.read_tdb`: these are peripheral parsers. The PHDC category heuristics are not part of this model. `DdiFormat.DecodeIndex` decodes the DBV, STA, ART and VQM blocks only.
- `Float32`, `Float64` and the float fields of STA, ART and VQM entries: kept as opaque bytes. Their numeric meaning is not modelled.
- The `%.2f` pitch text of extracted file names and the `%.6f`/`%.9f` times of `utils/seg_utils.py`: floating-point formatting. These are parameters (`pitText`, times already rendered as text).
- `input()` in `mixins_vqm`/`mixins_sta2vqm`: console input. The parameter `choice` is the answer after `.strip().lower()`. The parameter `test` picks the stop test, as written or as intended (see Findings).
- Hex.ParseHex: models `int(s, 16)` only on an optional sign followed by hex digits. It rejects forms Python accepts: surrounding whitespace, `_` between digits, a `0x` prefix and non-ASCII digits. The texts it reads are written by the tools in the plain form.
- Text.ParseInt: models `int(s)` only on an optional sign followed by ASCII decimal digits. It rejects surrounding whitespace, `_` between digits and non-ASCII digits. The index strings it reads are plain decimal.
- Seg.ArtSegText: the cut length is the exact floor of half the sample count. `generate_articulation_seg` (utils/seg_utils.py:65) computes `int(math.floor(wav_samples / 2))` with float division. The two agree while the count's magnitude is at most 2^53. Above that the float rounds: for 2^54 + 3 Python writes 2^53 + 2 and the model 2^53 + 1. A count near 2^1024 makes Python raise `OverflowError`, while the model still renders text. Floating point is not modelled.
- Seg.ArtSegLines: states the cut-length line as the exact half, so it inherits the gap above 2^53 described for Seg.ArtSegText.
- Seg.GenerateArticulationSeg: returns Seg.ArtSegText, so the same gap above 2^53 applies.
- VqmStream.VqmpTail: writes the index string with the corrected `str_to_data`, whose length is the byte count. For the decimal ASCII text `str(idx)` this equals the character count, so it agrees with the code as written (DdiUtils.StrToDataAscii).
- `os.path.exists` and reads of voice-tree files in the repacker: a `files` map. A missing path is an error.
- `stream_reverse_search` over a file handle: modelled over the file's byte sequence, with the same window and limit.
- The unindexed-sound scan in `extract_wav.py` (lines 261-318): it depends on progress printing, `KeyboardInterrupt` and chunked re-seeking of the file. The indexed dump before it is modelled.
- The frame-align bytes of an articulation entry: kept as the opaque bytes found before the next `default` string.
- PackMain.CopyArtItemTo, Pack.ArtFile, Pack.CopyArtItem: a key that has neither 2 nor 3 parts fails with a missing `art_file`. Python would reuse the previous key's `art_file`, or raise `NameError` for the first key.
- Output left behind when an exception is raised part-way (a partly written ddb or wav): each operation returns either its whole result or the error.
- The tools' own `main` functions beyond the loops named in "## Model": the model does not cover `mixins_ddb.py` `main`, or the wav and YAML output of `extract_wav.py` `main`.
- Python's unbounded `int` is Dafny's `int`. Every fixed-width field is checked against its width where Python's `to_bytes` would raise `OverflowError`.

## Findings

| source | as written | input that shows it | evidently intended | confidence | as-written member | corrected member |
|---|---|---|---|---|---|---|
| utils/ddi_utils.py:35-37 | `str_to_data` writes the character count as the length, then the UTF-8 bytes | "é" gives 01 00 00 00 C3 A9; `read_str` reads one byte, C3, which is not valid UTF-8 | the length is the number of encoded bytes | not executed | DdiUtils.StrToDataAsWrittenNonAscii | DdiUtils.ReadStrOfStrToData |
| mixins_ddb.py:160-161 | `choice != "y" or choice != ""` is true for every answer, so the mixer always stops | "y" and "" both stop | stop unless the answer is "y" or empty | not executed | Mixins.AsWrittenMixersAlwaysStop | Mixins.StopsOnlyOnNo |
| pack_ddb.py:128 | the repacker reads `art_item["snd_cutoff"]`, a key `ddi_data_dict` never produces | every articulation sample fails; once its eprs are copied the error is `KeyError` on "snd_cutoff" | the second sound offset is the sample's `snd_start` | not executed | Pack.ArtSampleAsWrittenFails | Pack.CopyArtSampleExtends |
| utils/binary_struct.py:104-107 | `VString.parse_from_file` does not record `offset`, so `overwrite` writes at 0 | buffer 41 01 00 00 00 61 read at position 1, then rewritten | the string is rewritten where it was read | not executed | BinaryStruct.AsWrittenRewriteMisplaced | BinaryStruct.VStringRewriteIdentity |
| extract_wav.py:222 | a stationary sound's position is recorded as `snd_offset`, at least 4 bytes past the `SND ` tag it was read from | any stationary sample found by the backwards search | record `real_snd_offset`, the tag position, so the unindexed scan skips it | not executed | ExtractWav.StaStepAsWrittenMisses | ExtractWav.StaStepRecordsTag |
