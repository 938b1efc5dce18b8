# november-editor core, modelled in Dafny

november-editor is an Electron/React level editor for a 2D platform game.
The game's data is a set of palettes, three graphics sheets, 160 levels and
an overworld. The editor keeps that data in memory as immutable records
(palettes, graphics entries, levels, maps, layers, map objects, goals). It
saves a project as JSON and exports the binary save file the game reads.
The binary format is built from typed blocks (`Uint8`, `Uint16`, `Float32`,
...) written big-endian by a DataView. Text (palette and level names) is
Huffman-coded against a fixed trie. Pixels are packed three bits each.
A small C program reads the same format back: it rebuilds the trie from a
record file, decodes text and prints palettes.

This project models that core:

- the text codec: the TypeScript trie, code map, `encodeText` and `decodeText`, and the C `decode_text` with its trie loader;
- the byte helpers: bit extraction, data-type sizes, and DataView writes and reads;
- palettes: colours, palettes and palette lists, with their encoders and `decodePaletteData`;
- the C `decode_palette`;
- graphics: pixel compression, graphics entries, `loadGraphicsFromData`;
- map objects and their type tables;
- goals and circles, and the 3x3 matrices;
- level maps: `createMap`, `transformMapDataToObject`, `generateDataBytes` and `splitMapBytes`;
- level records: `createLevel`, `encodeLevels` and `loadLevelFromData`;
- the overworld;
- the editor's save/open: `generateExportData`, `onImport` and `onOpen`;
- the tile editor's brush.

Each operation is stated against a specification function. Each
specification function is tied to a partner: an inverse (every encoder
has a decoder round trip), an invariant, or an independent reference
definition.

Modules (one file each):

- `Wrappers`: the `Result`/`Option` types. An exception the source throws is an `Err`. It carries the source's message, or the message the JavaScript engine gives for a runtime `TypeError` (a destructured `null`, an `in` on a primitive, a property of `undefined`). The text of `atob`'s `DOMException` is the one browsers give.
- `Bytes`: bits, data-type sizes, DataView blocks and reads.
- `Text`: the TypeScript trie codec. `TextTrie` is the trie literal.
- `TextC`: the C trie loader and decoder. `PaletteC` is the C `decode_palette`.
- `Palettes`, `Graphics`, `Objects`, `Goals`, `Circles`, `Mat`: the corresponding TypeScript files.
- `Levels`: the map byte format as values.
- `LevelMaps`: maps whose layers share mutable object arrays, and the imperative readers and writers.
- `LevelData`: the map splitter as a specification.
- `MapSplitter`: the imperative `splitMapBytes`.
- `LevelFile`: level records.
- `Overworld`: the overworld model. `OverworldData` is its byte format.
- `JsNumber`: JavaScript's `parseInt`, `Number()` on strings, and the 32-bit shift and `|` operators.
- `Json`: the JSON values the save file holds, `String()` of them, and what a number setter stores for each.
- `Editor`: `generateExportData` and `onImport`.
- `EditorOpen`: `onOpen`, and the project JSON the editor saves.
- `TileEditor`: the brush of the tile editor.

Inputs the core receives from the platform are parameters:

- `toUpperCase` becomes `upper: char -> char`;
- `atob` and `btoa` become `string -> Option<seq<byte>>` and `seq<byte> -> string`.

Numbers the editor stores are integers. A `Float32` field holds the
integer bit pattern the DataView writes for it. Two places use reals:
`getDataTypeSize` divides a bit count by 8, and the 3x3 matrices hold
real entries.

## Model

| member | source | states |
|---|---|---|
| Bytes.GetBitFromNumber | src/common/bytes.ts:9 | `(n & (1 << b)) >> b` is 0 or 1 for a shift count other than 31 modulo 32, and 0 or -1 for 31, where the mask is the sign bit |
| Bytes.BitFromNumberIsBit | src/common/bytes.ts:9 | for shift counts 0 to 30, `getBitFromNumber(n, b)` is 0 or 1 and is exactly the bit that separates n mod 2^(b+1) from n mod 2^b |
| Bytes.GetBitsFromByte | src/common/bytes.ts:1-7 | `getBitsFromByte` returns eight bits, most significant first: entry j is bit 7-j of n |
| Bytes.GetDataTypeSize | src/common/bytes.ts:11-17 | succeeds exactly when the name is letters followed by digits; the size is the digits' value divided by 8 as a real (so "Uint12" gives 1.5); any other name throws "Invalid data type: " followed by the name |
| Bytes.DataTypeSizes | src/common/bytes.ts:11-17 | every field type the editor writes (Uint8, Uint16, Uint32, Int8, Int16, Float32) has the size `getDataTypeSize` computes from its name |
| Bytes.NoDigitsThrows | src/common/bytes.ts:12-15 | a type name that does not end in a digit is refused |
| Bytes.DecimalString | src/common/levels.ts:353 | a number's string is a non-empty run of decimal digits |
| Bytes.DecimalRoundTrip | src/common/levels.ts:353 | a goal option written with `toString` and read back with `parseInt` is the same non-negative number |
| Bytes.PadToBytes | src/common/text.ts:1338-1341 | the padded bit list has a length that is a multiple of 8, is less than 8 longer, keeps the original bits in front and adds only zeros |
| Bytes.PackBits | src/common/text.ts:1338-1341 | packed bits take the ceiling of their count over 8 bytes |
| Bytes.Unpack | src/common/bytes.ts:1-7 | unpacking gives eight bits per byte |
| Bytes.PackBitsRoundTrip | src/common/text.ts:1338-1350 | unpacking the bytes that padding and chunking produce gives back the bit list followed by its zero padding |
| Bytes.PackedBit | src/common/text.ts:1338-1350 | reading bit j off packed bytes, whatever bytes follow, gives bit j of the packed list |
| Bytes.BigEndian | src/common/levels.ts:266 | a DataView setter of n bytes writes exactly n bytes |
| Bytes.BigEndianRoundTrip | src/common/levels.ts:265-268 | the n bytes a DataView setter writes read back as the value modulo 256^n |
| Bytes.BigEndianOfFromBigEndian | src/common/levels.ts:265-268 | any n bytes are the big-endian writing of the value they read as |
| Bytes.ReadUint | src/common/levels.ts:33-44 | an unsigned DataView read of n bytes succeeds exactly when n bytes are there; its value is below 256^n and the cursor moves past them; otherwise the read fails with the DataView's range error |
| Bytes.ReadField | src/common/levels.ts:221-224 | the getter of a field type succeeds exactly when the type's size in bytes is there and leaves the bytes after them |
| Bytes.SignExtend | src/common/levels.ts:222 | `getInt8` and `getInt16` give a value in the signed range that is the unsigned value or the unsigned value minus 2^width |
| Bytes.ReadWrittenUint | src/common/levels.ts:33-37 | reading back n bytes written big-endian gives the value and the bytes after them, when the value fits |
| Bytes.ReadWrittenField | src/common/levels.ts:221-224 | reading a field back with its getter gives the value its setter wrote, when the value fits the type |
| Bytes.SpliceStart | src/common/levels.ts:122 | the start `splice` uses is never past the end of the list |
| Bytes.RemoveAt | src/common/levels.ts:120-124 | `splice(index, 1)` removes the element at the clamped start, with negative starts counting from the end; a start at the end removes nothing; the others keep their order |
| Bytes.WriteBlocks | src/common/levels.ts:259-270 | the buffer holds exactly the blocks' bytes in order and is as long as their sizes add up to |
| Bytes.SetBytes | src/common/levels.ts:266 | a DataView setter writes its bytes from the offset on and leaves the bytes before and after them unchanged |
| Text.CodeList | src/common/text.ts:1315-1324 | `generateCodeList` fails only with "Trie node has no code." |
| Text.CodeListOfMatching | src/common/text.ts:1315-1324 | for a trie whose leaves carry their own path as code, the list succeeds and every listed code leads from the root to its symbol |
| Text.CodeListMissing | src/common/text.ts:1320-1322 | a reachable leaf without a char or a code makes the list throw "Trie node has no code." |
| Text.SortByLength | src/common/text.ts:1326-1327 | the code-length sort returns a permutation of the list that is sorted by code length |
| Text.InsertSorted | src/common/text.ts:1326-1327 | inserting an entry into a list sorted by code length keeps it sorted |
| Text.CodeMap | src/common/text.ts:1329-1332 | the code map has a key for exactly the symbols in the list, and each key's code comes from an entry for that symbol |
| Text.CodeMapLast | src/common/text.ts:1329-1332 | a symbol listed more than once maps to the code of its last entry |
| Text.CodeMapWalks | src/common/text.ts:1315-1332 | for a trie whose codes are its paths, every code in the resulting map leads from the root to its symbol |
| Text.CharCodes | src/common/text.ts:1335 | the characters' codes are found exactly when every upper-cased character is in the map; there is one code per character, in order |
| Text.EncodeText | src/common/text.ts:1334-1351 | `encodeText` returns the padded bits as Uint8 blocks, and their bytes are the bit list packed eight bits to a byte |
| Text.PadWithZeros | src/common/text.ts:1338-1341 | the padding loop produces the bit list padded to whole bytes |
| Text.SpliceBytes | src/common/text.ts:1343-1349 | splicing eight bits at a time gives one Uint8 block per group of eight bits, in order |
| Text.PadReaches | src/common/text.ts:1339-1341 | (8 - n mod 8) mod 8 zeros bring n bits to a multiple of 8 |
| Text.PadNotYet | src/common/text.ts:1339-1341 | no smaller number of zeros does |
| Text.EncodeSucceedsIff | src/common/text.ts:1334-1351 | with TERMINAL in the map, encoding succeeds exactly when `testCharacters` holds |
| Text.DecodePiece | src/common/text.ts:1355-1374 | `decodePiece` only consumes input: every byte it fetches raises `bytesUsed` by one |
| Text.DecodeText | src/common/text.ts:1353-1390 | empty input throws "No bytes to decode."; on success between 1 and all of the bytes are used, and the remaining bytes are those after them |
| Text.DecodeMessage | src/common/text.ts:1355-1374 | decoding from the root a run of character codes followed by TERMINAL's code yields exactly those characters and stops right after TERMINAL |
| Text.BytesUsedIsCeiling | src/common/text.ts:1361-1364 | after m bits, the decoder has fetched m/8 bytes rounded up |
| Text.DecodeEncoded | src/common/text.ts:1334-1390 | round trip: decoding the encoding of a text, whatever bytes follow, gives the upper-cased text, counts exactly the encoded bytes as used and returns the following bytes untouched |
| Text.DecodePacked | src/common/text.ts:1353-1390 | decoding the packed bits of a message's codes and TERMINAL's code gives the message, the packed length and the rest |
| TextTrie.RootCodesMatch | src/common/text.ts:4-1313 | every internal node of the trie literal is binary, every leaf has a char, and every leaf's code is its path from the root |
| TextC.ParseRecordBytes | import-test/src/text.c:129-133 | a 10-byte record written out and parsed back gives the same code point, frequency, code and children |
| TextC.RecordBytesOfParse | import-test/src/text.c:129-133 | any 10 bytes are the writing of the record they parse as, so the parse loses nothing |
| TextC.ParseTrieBytes | import-test/src/text.c:122-138 | a trie written out record by record parses back to the same nodes in the same order |
| TextC.GenerateTextTrie | import-test/src/text.c:122-138 | the array holds exactly the records of the file in order when its length is a multiple of 10; any other length is the trailing-bytes failure |
| TextC.Utf8 | import-test/src/text.c:23-51 | one, two, three or four bytes by code-point range |
| TextC.Utf8Shape | import-test/src/text.c:23-51 | below 0x200000 the lead byte announces the length and the other bytes are continuation bytes; above it the lead byte is 0xF0 or more; a non-zero code point never gives a zero byte |
| TextC.Utf8RoundTrip | import-test/src/text.c:23-51 | reading the bytes back as UTF-8 gives the code point, for every code point below 0x200000 |
| TextC.Strlen | import-test/src/text.c:80 | `strlen` finds the first NUL of the buffer, with no NUL before it, or reports that there is none |
| TextC.CopyLetter | import-test/src/text.c:95-99 | the copy loop appends the symbol's UTF-8 bytes after those already written, exactly when they fit in the 64-byte buffer |
| TextC.FinishText | import-test/src/text.c:79-94 | at the terminator the text is the bytes written so far, the cursor is one past the current byte and the remaining size is that cursor negated modulo 2^64 |
| TextC.VisitNode | import-test/src/text.c:78-101 | a visit either ends the call with the outcome the as-written decoder gives from that bit, or leaves a node from which following the bit gives that same outcome |
| TextC.DecodeByte | import-test/src/text.c:65-118 | one byte's eight bits either end the call with the as-written outcome or leave a state from which the rest of the input gives that outcome |
| TextC.DecodeText | import-test/src/text.c:53-120 | the loops compute exactly the as-written walk over the input's bits from the root with an empty buffer |
| TextC.CheckedDecodeRoundTrip | import-test/src/text.c:53-120 | for the corrected decoder, decoding an encoded message, whatever bytes follow, gives the message's UTF-8 text, its length in whole bytes as the offset and the count of the following bytes as the remaining size |
| TextC.AsWrittenRoundTrip | import-test/src/text.c:53-120 | as written, decoding an encoded message gives the text but the offset one byte past the byte where the terminator's code ends, and a negated remaining size; a message that ends on a byte boundary with nothing after it makes the decoder read past its input |
| TextC.SizeNegated | import-test/src/text.c:91 | on the single byte 0x80 with a two-node trie the written remaining size is 2^64 - 1 where the corrected one is 0 |
| TextC.AsWrittenSizeNegated | import-test/src/text.c:88-92 | as written the offset lies within the input and the remaining size is always 2^64 minus the offset |
| TextC.CheckedRemaining | import-test/src/text.c:88-92 | for the corrected decoder, offset plus remaining size is the input's length |
| TextC.MissingChildSwallowed | import-test/src/text.c:103-115 | on bytes 0x60 0x7F with a trie missing a child, the written decoder drops the rest of the byte and decodes "A"; the corrected decoder reports the invalid bit |
| TextC.BoundaryOffset | import-test/src/text.c:90-91 | with bytes after the message, the written offset equals the corrected one unless the message's bits end on a byte boundary, where it is one more |
| PaletteC.Word | import-test/src/main.c:35 | the colour word is below 2^16 |
| PaletteC.ColorOf | import-test/src/main.c:38-40 | each channel is a multiple of 8 no larger than 248 |
| PaletteC.SameFieldsAsTypeScript | import-test/src/main.c:38-40 | the C channels equal those `decodeColorChannel` computes from the same word in the TypeScript decoder |
| PaletteC.AlphaBitIgnored | import-test/src/main.c:38-40 | bit 0 of the word changes no channel |
| PaletteC.DecodesEncodedColor | import-test/src/main.c:35-40 | a colour the TypeScript encoder wrote prints as its rounded high colour |
| PaletteC.SameColorAsTypeScript | import-test/src/main.c:35-40 | reading a colour word at a position agrees with the TypeScript decoder's colour of the data from there |
| PaletteC.AsWrittenOffset | import-test/src/main.c:32 | the cursor `decode_text` hands back to the palette loop lies within the input |
| PaletteC.ReadColorsAt | import-test/src/main.c:34-42 | n colour words come with the cursor 2n bytes on, within the input |
| PaletteC.ReadPaletteAt | import-test/src/main.c:31-42 | a palette read has seven colours and moves the cursor forward within the input |
| PaletteC.ReadPalettesAt | import-test/src/main.c:29-43 | n more palettes are appended to those read |
| PaletteC.DecodedPalettes | import-test/src/main.c:23-44 | a successful decode has as many palettes as the first byte says |
| PaletteC.DecodePalette | import-test/src/main.c:23-44 | the loops compute exactly the palettes the count byte announces, or the first failure |
| PaletteC.DecodeNextPalette | import-test/src/main.c:31-42 | one turn of the palette loop keeps the loop's invariant: what is left to read still gives the whole result |
| PaletteC.DecodeOnePalette | import-test/src/main.c:31-42 | the loop body reads exactly one palette from the cursor |
| PaletteC.ReadColorWords | import-test/src/main.c:34-42 | the inner loop reads exactly seven colour words from where the name ended |
| Palettes.RoundToHighColor | src/common/palettes.ts:6 | for a channel in 0..255 the result is a multiple of 8 or 255 and lies within 4 of the channel; it never exceeds 255 |
| Palettes.EncodeColorChannel | src/common/palettes.ts:16-18 | at least five binary digits whose value is the channel divided by 8; exactly five for a channel below 256 |
| Palettes.DecodeColorChannel | src/common/palettes.ts:21-29 | succeeds exactly when the digits' value is at most 31, giving 8 times that value; otherwise the error "Invalid color: " and the value |
| Palettes.ChannelRoundTrip | src/common/palettes.ts:16-29 | a channel in 0..255 encoded and decoded comes back rounded down to a multiple of 8 |
| Palettes.Color.Encode | src/common/palettes.ts:32-45 | the colour is written as one Uint16 block |
| Palettes.EncodeLayout | src/common/palettes.ts:32-45 | the word holds red/8 in bits 15-11, green/8 in bits 10-6, blue/8 in bits 5-1 and always 1 in bit 0, whatever the alpha |
| Palettes.ColorOfWord | src/common/palettes.ts:145-152 | every channel read from a word is a multiple of 8 no larger than 248 |
| Palettes.WordFields | src/common/palettes.ts:145-152 | three 5-bit fields and a bit packed into a word are read back as those fields times 8 and that bit |
| Palettes.HighColor | src/common/palettes.ts:32-45 | a saved colour loads with alpha 1 and each channel rounded down to a multiple of 8 |
| Palettes.Palette.Encode | src/common/palettes.ts:64-65 | a palette encodes exactly when its name does; its bytes are the name's code bits packed into bytes, then the words of colours 1 onwards, colour 0 left out |
| Palettes.Palette.UpdateName | src/common/palettes.ts:76 | only the name changes |
| Palettes.Palette.UpdateColor | src/common/palettes.ts:77-81 | only the colour at the index is replaced; a negative index changes no colour |
| Palettes.ColorBlocks | src/common/palettes.ts:65 | one block per colour |
| Palettes.PaletteList.AddBlankPalette | src/common/palettes.ts:101 | the list gains the blank GRAYSCALE palette at its end and keeps the others |
| Palettes.PaletteList.Encode | src/common/palettes.ts:102-107 | the list encodes exactly when every name does, starting with its count as a Uint8 |
| Palettes.PaletteList.RemovePalette | src/common/palettes.ts:111-115 | exactly the palette at the splice start is dropped and the order is kept; a start past the end changes nothing |
| Palettes.PaletteList.UpdatePalette | src/common/palettes.ts:116-120 | only the palette at the index is replaced; a negative index changes none |
| Palettes.EncodeAll | src/common/palettes.ts:107 | the palettes' blocks exist exactly when every name encodes |
| Palettes.ReadColorIsWord | src/common/palettes.ts:142-156 | reading a colour bit by bit, as `decodePaletteData` does, gives the colour of the word's shifted and masked fields |
| Palettes.ReadColors | src/common/palettes.ts:140-157 | a successful read of n colours yields n colours |
| Palettes.ReadPalettes | src/common/palettes.ts:126-166 | reading n palettes gives n palettes of eight colours each: the transparent one and the seven stored |
| Palettes.DecodedPaletteData | src/common/palettes.ts:126-166 | `decodePaletteData` gives as many palettes as its first byte says, each of eight colours |
| Palettes.DecodePaletteData | src/common/palettes.ts:126-166 | the cursor-moving loop computes exactly the palettes the count byte announces and the bytes after them, or the first error |
| Palettes.ReadSevenColors | src/common/palettes.ts:140-157 | the inner loop reads exactly the seven colours after the name |
| Palettes.DecodeColor | src/common/palettes.ts:142-156 | one pass of the inner loop gives the colour of the word at the cursor |
| Palettes.HighColors | src/common/palettes.ts:32-45 | every colour is replaced by the colour it loads as |
| Palettes.ColorsRoundTrip | src/common/palettes.ts:32-45 | reading back the words of a list of colours gives their loaded colours and leaves the bytes after them |
| Palettes.ReadEncodedColor | src/common/palettes.ts:32-45 | an encoded colour's word reads back as its loaded colour |
| Palettes.PaletteRoundTrip | src/common/palettes.ts:64-65 | a palette with eight colours below 256 and an encodable name loads back with its name upper-cased, colour 0 transparent and the rest rounded to high colour, leaving the following bytes |
| Palettes.LoadedAll | src/common/palettes.ts:126-166 | every palette is replaced by the palette it loads as |
| Palettes.PalettesRoundTrip | src/common/palettes.ts:102-107 | a run of such palettes loads back palette by palette, leaving the following bytes |
| Palettes.PaletteListRoundTrip | src/common/palettes.ts:99-166 | `decodePaletteData` of an encoded list of fewer than 256 such palettes gives back the loaded list and exactly the bytes after it |
| Graphics.GetBitsFromColor | src/common/graphics.ts:6-11 | succeeds exactly for a colour in 0..7, giving three binary digits of that value; otherwise the error "Invalid color: " and the colour |
| Graphics.GetColorFromBits | src/common/graphics.ts:14-20 | succeeds exactly when the digits' value is at most 7 and then returns that value; otherwise the "Invalid color" error |
| Graphics.ThreeBitsAreAColor | src/common/graphics.ts:14-20 | three binary digits always make a colour |
| Graphics.ColorBitsRoundTrip | src/common/graphics.ts:6-20 | the two conversions are inverse in both directions |
| Graphics.FirstInvalid | src/common/graphics.ts:25-26 | the first pixel that is not a colour index, with every pixel before it a colour |
| Graphics.Digits | src/common/graphics.ts:26-29 | three digits per colour |
| Graphics.CompressedPixels | src/common/graphics.ts:22-46 | `compressPixels` succeeds exactly when every pixel is 0..7 and yields ceil(3n/8) bytes for n pixels |
| Graphics.CompressedPadding | src/common/graphics.ts:37-43 | the packed bytes read back as the pixels' digits followed only by zeros, so the last byte's unused bits are 0 |
| Graphics.CompressPixels | src/common/graphics.ts:22-46 | the buffer-and-flush loops compute exactly the packing, or the error of the first pixel that is not a colour |
| Graphics.PushPixel | src/common/graphics.ts:27-34 | pushing one pixel keeps fewer than 8 buffered bits, and flushed bytes plus buffer always hold every bit pushed, in order |
| Graphics.Triples | src/common/graphics.ts:56-60 | a colour 0..7 for every whole three bits |
| Graphics.TriplesOfDigits | src/common/graphics.ts:22-68 | colours are read back from their digits |
| Graphics.DigitsOfTriples | src/common/graphics.ts:22-68 | a bit list of whole triples is the digits of the colours read from it |
| Graphics.DecompressedPixels | src/common/graphics.ts:48-68 | `decompressPixels` succeeds exactly when 8m is a multiple of 3 for m bytes, giving 8m/3 colours; otherwise "Invalid tileset data" |
| Graphics.DecompressedDigits | src/common/graphics.ts:48-68 | the colours' digits are all the bits of the bytes |
| Graphics.DecompressPixels | src/common/graphics.ts:48-68 | the concat-and-splice loops compute exactly the colours, or the error when bits are left over |
| Graphics.LeftOver | src/common/graphics.ts:63-65 | bits left in the buffer are exactly the case the source refuses |
| Graphics.CompressRoundTrip | src/common/graphics.ts:22-68 | pixels whose count is a multiple of 8, such as whole tiles, come back unchanged from packing and unpacking |
| Graphics.FillZero | src/common/graphics.ts:86 | `fill(0, start, end)` zeroes exactly the indices from start to end, clamped, and leaves the others |
| Graphics.GraphicsEntry.constructor | src/common/graphics.ts:70-78 | the entry holds the given dimensions and shares the given pixel array |
| Graphics.GraphicsEntry.ClearTile | src/common/graphics.ts:79-89 | exactly the 8 by 8 block at tile column i mod widthTiles and row i div widthTiles becomes 0, in place; every other pixel keeps its value |
| Graphics.GraphicsEntry.ImportPixels | src/common/graphics.ts:126-145 | inside the tile-origin rectangle clipped to the sheet each pixel takes the matching source pixel unless that is 0; every other pixel keeps its value |
| Graphics.GraphicsEntry.ImportCell | src/common/graphics.ts:133-136 | each loop cell's destination and source indices are in range and are the ones the rectangle maps to each other |
| Graphics.GraphicsEntry.UpdatePixel | src/common/graphics.ts:162-166 | only the pixel at index y times the sheet width plus x changes, to the colour |
| Graphics.GraphicsEntry.Encode | src/common/graphics.ts:111-115 | the entry encodes as its current sheet does |
| Graphics.EncodeSheet | src/common/graphics.ts:111-115 | a sheet encodes exactly when all pixels are colours, as the two dimension bytes followed by the packed pixels |
| Graphics.CreateBlankGraphicsEntry | src/common/graphics.ts:170-174 | a fresh all-zero sheet of w times 8 by h times 8 pixels |
| Graphics.BlankSheet | src/common/graphics.ts:173 | 64wh pixels, all colours |
| Graphics.ReadEntry | src/common/graphics.ts:192-201 | reading one entry consumes at least its two dimension bytes |
| Graphics.ReadEntries | src/common/graphics.ts:191-202 | n more entries are appended to those read, in order |
| Graphics.LoadGraphicsFromData | src/common/graphics.ts:182-208 | the loop reads exactly three entries, blocks, overworld and sprites, and returns the bytes after them, or the first error |
| Graphics.ReadGraphicsEntry | src/common/graphics.ts:193-201 | the loop body reads exactly one entry |
| Graphics.StorablePacking | src/common/graphics.ts:198-199 | a sheet with byte-sized dimensions packs into exactly the number of bytes the loader takes, and they unpack to its pixels |
| Graphics.StorableLayout | src/common/graphics.ts:111-115 | such a sheet's bytes are its two dimension bytes and its packed pixels |
| Graphics.ReadEncodedEntry | src/common/graphics.ts:111-115 | an encoded sheet is read back whole, whatever bytes follow it |
| Graphics.LoadGraphicsRoundTrip | src/common/graphics.ts:182-208 | `loadGraphicsFromData` on the three encoded sheets gives them back in order with exactly the following bytes left |
| Objects.MapObject.GetProp | src/common/objects.ts:983-988 | succeeds exactly for a property the object was created with, giving its value; otherwise the error "Key ... not found in object." |
| Objects.MapObject.Update | src/common/objects.ts:1009 | the new properties override the old, every other property is kept, and the key set is the union |
| Objects.DerivedCoordinates | src/common/objects.ts:990-1007 | right and bottom edges are origin plus size in blocks, tiles and pixels, a block is two tiles and a tile eight pixels |
| Objects.CreatedDefaults | src/common/objects.ts:974-981 | an object created from no properties has type 0 at block (0, 0), is one block square, yet `getProp("width")` throws |
| Objects.ObjectType.Create | src/common/objects.ts:22-27 | `create(x, y)` gives exactly the type's extra properties plus x and y, with the given coordinates |
| Objects.GenerateHighlight | src/common/objects.ts:28-37 | one rectangle at the object's origin: the object's whole rectangle, or a single block for the types that highlight only their origin |
| Objects.TablesWellFormed | src/common/objects.ts:19-971 | every type of the block, sprite and overworld tables creates every field it saves, saves only Uint8 and Uint16 fields, and saves x and y first |
| Objects.GetTypeFactory | src/common/objects.ts:1013-1014 | a sprite layer gets the sprite table and any other layer the block table |
| Objects.OverworldObject | src/common/objects.ts:1018-1029 | succeeds exactly for an index into the overworld table; the object then has that type, the given x and y, and the type's created properties plus "type" |
| Objects.BuildingWidthExtra | src/common/objects.ts:413-419 | a door at or beyond v - 1 moves to v - 2, otherwise nothing changes; an object without a door throws |
| Objects.WidthChangeKeepsDoor | src/common/objects.ts:413-442 | after a width change and its extra update the door is within its maximum, width - 2, and a door that was already inside stays where it was |
| Objects.GroundTiles | src/common/objects.ts:38-72 | Ground has 3w + (2h - 2) times 2w tiles, all inside the object's tile rectangle when its height is at least one |
| Objects.FireHydrantTiles | src/common/objects.ts:138-153 | Fire Hydrant has exactly two double-width tiles in the object's column, inside its highlight |
| Objects.GemTiles | src/common/objects.ts:199-224 | Gem has 2wh tiles, all animated with animation 6 and inside the object |
| Objects.GemRow | src/common/objects.ts:201-221 | one block row of a Gem has two tiles per block |
| Objects.BuildingTiles | src/common/objects.ts:293-379 | Building has four corners, its walls, its inside and four door tiles, 8 + 2(2w - 2) + 2(2h - 2) + (2w - 2)(2h - 2) tiles in all, the last four a column at x = left + 2 door ending on the bottom row; an object without a door throws |
| Objects.DoorTiles | src/common/objects.ts:369-376 | four double-width tiles stacked in the door column, the last on the bottom row |
| Objects.BuildingInsideRow | src/common/objects.ts:357-366 | one inside row has 2w - 2 tiles |
| Objects.FenceTiles | src/common/objects.ts:465-504 | Fence has a top rail tile per block, then five tiles in every third block for each tile row below |
| Objects.FenceTop | src/common/objects.ts:469-476 | the rail tile of block i is double-width, at x + 2i on the top row, with its alternating source column |
| Objects.FenceRow | src/common/objects.ts:478-501 | one row below the rail has five tiles per picket |
| Objects.FencePicket | src/common/objects.ts:479-500 | a picket is five tiles on its row |
| Objects.PlayerTiles | src/common/objects.ts:564-572 | Player is one left-facing sprite twice as tall as wide at the object's origin |
| Objects.BadAppleTiles | src/common/objects.ts:619-628 | Bad Apple is one sprite at the origin, flipped exactly when its direction is 1; an object without a direction throws |
| Objects.GrassTiles | src/common/objects.ts:686-698 | Grass has one grass tile for every tile of the rectangle, all inside it |
| Objects.MarkCorner | src/common/objects.ts:767-775 | in place, every tile already at the object's origin becomes the corner piece and the others are unchanged; the flag says whether there was one |
| Objects.GrassTopTiles | src/common/objects.ts:764-821 | marks the corner in the passed tiles; emits 4 per block after the first, plus 2, or 4 with its own top-left tiles, which it emits exactly when no passed tile sat at the origin |
| Objects.GrassLeftTiles | src/common/objects.ts:876-933 | as Grass Top, down the left edge by height |
| Goals.Defaults | src/common/goals.ts:32-36 | the defaults `reduce` builds have exactly the options' slugs as keys |
| Goals.DefaultsLastWins | src/common/goals.ts:33-36 | a slug takes the default of the last template option that carries it |
| Goals.Goal.GetOption | src/common/goals.ts:44-49 | succeeds exactly for a slug the goal has, giving its value; otherwise the error "Invalid goal option: " and the slug |
| Goals.Goal.UpdateOption | src/common/goals.ts:51 | a goal of the same id in which the slug reads as the new value and every other slug as before |
| Goals.CreateGoal | src/common/goals.ts:27-53 | given options are kept; without them a template with options gives exactly its slugs, and any other id gives no options; the id is kept |
| Goals.ToJsonRoundTrip | src/common/goals.ts:50 | creating a goal from its JSON id and options gives the same goal |
| Goals.KnownGoals | src/common/goals.ts:3-25 | without options goal 1 has amount "10000" and goal 0 none, and goal 2 refuses the amount slug |
| Circles.FirstLevel | src/common/circles.ts:7-9 | the first level of a circle is its level 0 and a multiple of 16 |
| Circles.LastLevel | src/common/circles.ts:11-13 | the last level of a circle is its level 15, 15 after the first |
| Circles.PositionOf | src/common/circles.ts:3-5 | every index below 160 is the number of an in-range game, circle and level |
| Circles.NthLevel | src/common/circles.ts:3-5 | a position with game below 2, circle below 5 and level below 16 numbers a level below 160 |
| Circles.NthLevelInjective | src/common/circles.ts:3-5 | distinct in-range positions have distinct numbers: the position is recovered from its number |
| Circles.CirclesContiguous | src/common/circles.ts:3-13 | the first level of the next circle follows the last level of this one |
| Circles.KnownLevels | test/circles.test.mjs:7-36 | first(1, 0) is 80, last(1, 4) is 159 and nth(1, 1, 5) is 101, as the tests expect |
| Mat.Values.List | src/common/mat.ts:21 | the list has nine entries |
| Mat.Multiply | src/common/mat.ts:5-17 | every entry (i, j) of `mat3Multiply` is row i of the first matrix against column j of the second |
| Mat.ListIsRowMajor | src/common/mat.ts:5-17 | list index 3i + j is entry (i, j) |
| Mat.ScaleIsProduct | src/common/mat.ts:22-29 | `scale(v)` right-multiplies by diag(v0, v1, 1) |
| Mat.TranslateIsProduct | src/common/mat.ts:30-37 | `translate(v)` right-multiplies by the translation by v |
| Mat.IdentityNeutral | src/common/mat.ts:3-19 | the default identity is neutral on both sides of the product |
| Mat.TranslateTwice | src/common/mat.ts:30-37 | two translations make one by the sum |
| Mat.ScaleTwice | src/common/mat.ts:22-29 | two scalings make one by the product |
| Mat.KnownIdentity | test/mat.test.ts:4-9 | `createMat3()` lists the identity, as the tests expect |
| Mat.KnownTranslate | test/mat.test.ts:10-15 | the identity translated by (1, 2) lists as the tests expect |
| Mat.KnownScale | test/mat.test.ts:16-21 | the identity scaled by (2, 3) lists as the tests expect |
| Mat.KnownTranslateScale | test/mat.test.ts:22-27 | translate then scale gives [2,0,1,0,3,2,0,0,1] |
| Mat.KnownScaleTranslate | test/mat.test.ts:28-33 | scale then translate gives [2,0,2,0,3,6,0,0,1] |
| Levels.MapHeaderSize | src/common/levels.ts:46 | the header's blocks add up to 6 bytes |
| Levels.ReadHeader | src/common/levels.ts:33-44 | succeeds exactly on at least 6 bytes: width and height big-endian at 0 and 2, palette at 4, layer count at 5; shorter data is the DataView's range error |
| Levels.HeaderRoundTrip | src/common/levels.ts:19-44 | the header `generateDataList` writes is 6 bytes and reads back as the values written, when they fit their fields |
| Levels.ConvertLayerTypeToByte | src/common/levels.ts:53-62 | succeeds exactly for block and sprite, giving 0 and 1; otherwise "Invalid layer type: " and the type |
| Levels.ConvertByteToLayerType | src/common/levels.ts:64-73 | succeeds exactly for 0 and 1, giving block and sprite; otherwise "Invalid layer type byte: " and the byte |
| Levels.LayerTypeRoundTrip | src/common/levels.ts:53-73 | the two conversions are inverse wherever they succeed |
| Levels.FieldBlocks | src/common/levels.ts:251-252 | the exported fields' blocks exist exactly when the object has every key, one block per field holding the property's value |
| Levels.ObjectBlocks | src/common/levels.ts:249-253 | an object's blocks are its type as a Uint16 then its exported fields; a type outside the table fails as reading `exportData` of undefined |
| Levels.Then | src/common/levels.ts:240-257 | prefixing blocks to a result keeps its success or its error |
| Levels.ReadFields | src/common/levels.ts:220-224 | reading the fields only moves the cursor forward; a failure is the DataView's range error |
| Levels.ReadObject | src/common/levels.ts:214-228 | reading one object only moves the cursor forward |
| Levels.ReadObjects | src/common/levels.ts:200-228 | reading objects up to the terminator only moves the cursor forward |
| Levels.ReadObjectThen | src/common/levels.ts:210-228 | the same after one object's type has been read |
| Levels.ReadLayers | src/common/levels.ts:194-230 | n more layers are appended to those read |
| Levels.ParsedMap | src/common/levels.ts:179-232 | a parsed map has as many layers as header byte 5 says |
| Levels.LoadedObjects | src/common/levels.ts:225 | one rebuilt object per stored object |
| Levels.LoadedLayers | src/common/levels.ts:205 | one rebuilt layer per stored layer |
| Levels.LoadedObjectFields | src/common/levels.ts:216-225 | a rebuilt object keeps its type and every exported value; its other properties are the type's `create(0, 0)` defaults |
| Levels.FieldsRoundTrip | src/common/levels.ts:220-252 | reading back the written fields lays the stored values over the defaults and leaves the cursor after them |
| Levels.TerminatorBytes | src/common/levels.ts:204-256 | the terminator is written as 255 255 and read back as 0xFFFF |
| Levels.SmallTables | src/common/levels.ts:204 | no type table has more than 5 entries, so a stored type is never the terminator |
| Levels.ObjectsRoundTrip | src/common/levels.ts:200-256 | reading back a layer's written objects and terminator rebuilds each object in order and leaves the cursor after the terminator |
| Levels.ObjectRoundTrip | src/common/levels.ts:201-250 | a written object's type reads back, is not the terminator, and leaves the cursor at its fields |
| Levels.LayerRead | src/common/levels.ts:195-256 | reading a written layer off the front of the layers' bytes appends the rebuilt layer and leaves the bytes after it |
| Levels.LayersRoundTrip | src/common/levels.ts:194-257 | reading back the written layers rebuilds each layer in order and leaves the cursor after the last |
| Levels.MapRoundTrip | src/common/levels.ts:179-271 | `transformMapDataToObject` after `generateDataBytes` gives back a map whose fields fit: same header, same layers in order, each object rebuilt by its type |
| LevelMaps.ObjectList.constructor | src/common/levels.ts:77 | a new objects array holding the given objects |
| LevelMaps.LayerValues | src/common/levels.ts:135-139 | one value per layer: its type, the objects its array holds now, and its scroll factor |
| LevelMaps.ValueOf | src/common/levels.ts:114-141 | the map's value has the map's width, height, palette and one layer value per layer |
| LevelMaps.CreateLayer | src/common/levels.ts:75-83 | a new layer of the given type owns a new, empty objects array and has scroll factor 1.0 |
| LevelMaps.DefaultMap | src/common/levels.ts:106-111 | `createMap()` is 20 by 20 blocks with no layers and palette 0 |
| LevelMaps.AddLayer | src/common/levels.ts:113 | the old layers in order, then one new empty layer with a fresh array; width, height and palette unchanged |
| LevelMaps.RemoveLayer | src/common/levels.ts:120-124 | the layer at the splice start is gone and the others keep their order; a start past the end removes nothing |
| LevelMaps.RemoveLayerValue | src/common/levels.ts:120-141 | the new map's value is the old value with that layer removed |
| LevelMaps.SwitchLayers | src/common/levels.ts:125-131 | layers a and b trade places and every other layer stays |
| LevelMaps.SwitchTwice | src/common/levels.ts:125-131 | switching keeps the same layers, and switching the same pair again restores the map |
| LevelMaps.UpdateWidth | src/common/levels.ts:170-172 | only the width changes |
| LevelMaps.UpdateHeight | src/common/levels.ts:167-169 | only the height changes |
| LevelMaps.UpdatePalette | src/common/levels.ts:173-175 | only the palette changes |
| LevelMaps.UpdateScrollX | src/common/levels.ts:160-164 | the layer at index gets the new scroll factor and keeps its type and its objects array; other parts unchanged |
| LevelMaps.ScrollUpdateShares | src/common/levels.ts:160-164 | the updated map holds exactly the old map's objects arrays, so later edits through either show in both |
| LevelMaps.AddObject | src/common/levels.ts:144-148 | an index the map lacks is the "reading 'objects'" error with nothing changed; otherwise the object is pushed onto that layer's shared array (and every layer sharing it), the same map is returned, and with separate arrays the map's value gains the object in that layer only |
| LevelMaps.RemoveObject | src/common/levels.ts:149-153 | a missing layer is the "reading 'objects'" error with nothing changed; otherwise the object at the splice start leaves that shared array and every other array is unchanged |
| LevelMaps.UpdateObject | src/common/levels.ts:154-159 | a missing layer or a missing object is the JS error with nothing changed; otherwise that object is replaced by its `update(changes)` and every other array is unchanged |
| LevelMaps.OptionsStep | src/common/levels.ts:195-199 | fewer than five bytes is the range error; otherwise the reader goes on with the type byte and scroll factor read |
| LevelMaps.TypeStep | src/common/levels.ts:200-213 | the terminator finishes the layer, any other type goes on to the object's data, a short buffer is the range error |
| LevelMaps.DataStep | src/common/levels.ts:214-229 | an object read joins the current layer's objects; a failed read ends the map with its error |
| LevelMaps.ReadObjectData | src/common/levels.ts:220-224 | the field loop succeeds exactly when `ReadFields` does, with its properties and the cursor after the fields |
| LevelMaps.ReadObjectAt | src/common/levels.ts:215-225 | succeeds exactly when `ReadObject` does, with the same object and the cursor moved past it |
| LevelMaps.ReadLayerOptions | src/common/levels.ts:195-199 | succeeds exactly when five bytes remain, and both outcomes agree with the reader's specification |
| LevelMaps.ReadType | src/common/levels.ts:200-213 | succeeds exactly when two bytes remain; the terminator and any other type continue as the specification says |
| LevelMaps.ReadObjectState | src/common/levels.ts:214-229 | the object read continues the reader's specification |
| LevelMaps.SeparateAppend | src/common/levels.ts:205-206 | a finished layer given a new array keeps the layers' arrays distinct |
| LevelMaps.TransformMapDataToObject | src/common/levels.ts:179-232 | the three-state loop succeeds exactly when `ParsedMap` does, fails with its error, and builds a map whose value is `ParsedMap`'s |
| LevelMaps.PushObjects | src/common/levels.ts:249-253 | the blocks pushed for a layer's objects are `ObjectsBlocks`, an unknown type or missing field being its error |
| LevelMaps.PushLayer | src/common/levels.ts:241-256 | the blocks pushed for one layer are `LayerBlocks` of its value |
| LevelMaps.LayerPushed | src/common/levels.ts:240-257 | after each layer the list pushed so far, followed by the rest's blocks, is the map's blocks; an error is the map's error |
| LevelMaps.LayersPushed | src/common/levels.ts:257-270 | once every layer is pushed, writing the list gives `GeneratedBytes` |
| Levels.GeneratedBytes | src/common/levels.ts:234-271 | `generateDataBytes` succeeds exactly when every layer writes out, failing with the first error; its bytes are the header's, then the layers' |
| Levels.GeneratedHeader | src/common/levels.ts:234-240 | the bytes of a map start with its six header bytes: width, height, palette and layer count |
| LevelMaps.GenerateDataBytes | src/common/levels.ts:234-271 | the bytes are `GeneratedBytes` of the map's value, so `Levels.MapRoundTrip` reads them back |
| LevelMaps.GenerateValueBytes | src/common/levels.ts:238-270 | the same for the map's value as read when the loop starts |
| LevelData.TableSizeIs | src/common/levels.ts:307-311 | the bytes skipped for an object of a type are the sum of its exported fields' sizes |
| LevelData.SkipObjects | src/common/levels.ts:293-304 | the splitter's walk over a layer's objects only moves the cursor forward, past at least the terminator |
| LevelData.SkipObjectData | src/common/levels.ts:305-315 | skipping an object's data moves the cursor forward within the buffer |
| LevelData.SkipLayers | src/common/levels.ts:288-316 | skipping layers keeps the cursor within the buffer |
| LevelData.SkipMap | src/common/levels.ts:282-316 | a map the splitter walks is at least its six header bytes long |
| LevelData.SplitFromJoins | src/common/levels.ts:281-325 | the split gives `count` maps, each at least a header long, whose concatenation followed by the remaining bytes is the input after the cursor |
| LevelData.SplitBytes | src/common/levels.ts:273-330 | `splitMapBytes` returns `count` buffers which, joined and followed by the remaining bytes, are its input: no byte is lost or repeated |
| LevelData.SkipObjectsExtends | src/common/levels.ts:293-315 | bytes after a layer's objects do not change where the walk stops |
| LevelData.SkipLayersExtends | src/common/levels.ts:288-316 | bytes after the layers do not change where the walk stops |
| LevelData.SkipMapExtends | src/common/levels.ts:282-316 | bytes after a map do not change where the walk stops |
| LevelData.SkipLayersShifts | src/common/levels.ts:288-316 | bytes before the layers only shift where the walk stops |
| LevelData.SkipMapShifts | src/common/levels.ts:282-316 | bytes before a map only shift where the walk stops |
| LevelData.FieldBytesSize | src/common/levels.ts:252-311 | an object's written fields take exactly the bytes the splitter skips for its type |
| LevelData.SkipsObjectBlocks | src/common/levels.ts:249-315 | the splitter walks a layer's written objects and stops right after their terminator |
| LevelData.SkipsLayerBlocks | src/common/levels.ts:240-316 | the splitter walks the written layers and stops right after the last |
| LevelData.GeneratedSplits | src/common/levels.ts:234-316 | the bytes `generateDataBytes` writes for a map are exactly one map to the splitter |
| LevelData.SplitJoined | src/common/levels.ts:273-330 | maps that each split alone, joined and followed by other bytes, split back into themselves and those bytes |
| MapSplitter.SplitMapBytes | src/common/levels.ts:273-330 | `splitMapBytes` returns exactly `SplitBytes(data, count)`, the walk's error included |
| MapSplitter.SplitWith | src/common/levels.ts:273-330 | the outer loop, for any type tables, returns what the specification `SplitFrom` gives from offset 0, the walk's error included |
| MapSplitter.NextMap | src/common/levels.ts:282-324 | one outer pass cuts off the map the specification finds at the cursor, or fails with its error |
| MapSplitter.ReadMap | src/common/levels.ts:282-316 | the three-state walk ends where `SkipMap` says, or with its error |
| MapSplitter.ReadLayerOptions | src/common/levels.ts:289-292 | the type byte read and the cursor five bytes on continue the walk's specification, with less work left |
| MapSplitter.ReadType | src/common/levels.ts:293-304 | the terminator ends the layer and another type starts an object, as the specification says, with less work left |
| MapSplitter.ReadObjectData | src/common/levels.ts:305-315 | the cursor moves past the object's fields as the specification says, with less work left |
| MapSplitter.SkipFields | src/common/levels.ts:309-311 | the cursor moves on by the fields' total size |
| LevelFile.Level.UpdateGoal | src/common/levels.ts:100 | only the goal is replaced |
| LevelFile.Level.UpdateMaps | src/common/levels.ts:101 | only the maps are replaced |
| LevelFile.Level.UpdateName | src/common/levels.ts:102 | only the name is replaced |
| LevelFile.CreateLevel | src/common/levels.ts:85-104 | each argument left out takes its default: "Unnamed Level", goal 0 with default options, no maps |
| LevelFile.DefaultLevel | src/common/levels.ts:85-89 | the default level has goal 0 with no options and no maps |
| JsNumber.TrimStart | src/common/levels.ts:381 | `parseInt` first drops the leading white space: what is dropped is all white space, and what is kept does not start with it |
| JsNumber.TrimEnd | src/common/levels.ts:266 | `Number()` of a string also drops the trailing white space |
| JsNumber.TrimSpaces | src/common/levels.ts:381 | white space in front of text that does not start with it is exactly what is dropped |
| JsNumber.DigitValue | src/common/levels.ts:381 | a character's digit value is below 10 exactly for a decimal digit, and is then that digit |
| JsNumber.LeadingDigits | src/common/levels.ts:381 | the digits `parseInt` reads are the longest run of the radix's digits at the front |
| JsNumber.LeadingRun | src/common/levels.ts:381 | a run of digits followed by a non-digit is read whole |
| JsNumber.DecimalValue | src/common/levels.ts:381 | a run of decimal digits reads as its decimal value |
| JsNumber.ParseIntSpaces | src/common/levels.ts:381 | `parseInt` ignores leading white space |
| JsNumber.ParseIntString | src/common/levels.ts:353-381 | `parseInt` reads back `${n}` for every integer n, whatever white space precedes it and whatever non-digit text follows it |
| JsNumber.DecimalDigits | src/common/levels.ts:381 | an optional minus and a run of decimal digits parse as the signed decimal value, the rest ignored |
| JsNumber.ParseIntHex | src/common/levels.ts:381 | a `0x` or `0X` prefix makes `parseInt` read hexadecimal digits |
| JsNumber.ParseIntLeadingSpace | src/common/levels.ts:381 | `parseInt("  12")` is 12 |
| JsNumber.ParseIntHexPrefix | src/common/levels.ts:381 | `parseInt("0x10")` is 16 |
| JsNumber.ParseIntTrailingText | src/common/levels.ts:381 | `parseInt("-7px")` is -7 |
| JsNumber.ParseIntNaN | src/common/levels.ts:381 | `parseInt` of "px", "0x" and "" is NaN |
| JsNumber.UnsignedDigits | src/common/levels.ts:266 | `Number()` of a run of decimal digits is its decimal value |
| JsNumber.SignedDigits | src/common/levels.ts:266 | `Number()` of an optional minus and decimal digits is the signed value |
| JsNumber.NumberOfIntString | src/common/levels.ts:266 | `Number()` reads back `${n}` for every integer n |
| JsNumber.NumberSpaced | src/common/levels.ts:266 | `Number()` ignores white space on either side of `${n}` and reads n, for every integer n |
| JsNumber.NumberFraction | src/common/levels.ts:266 | a DataView integer setter stores `Number("-2.7")` as -2, truncated toward zero |
| JsNumber.NumberExponent | src/common/levels.ts:266 | `Number("1e3")` is 1000 |
| JsNumber.NumberNotANumber | src/common/levels.ts:266 | `Number("abc")` is NaN and `Number("")` is 0 |
| JsNumber.NumberHex | src/common/levels.ts:266 | `Number("0x10")` is 16 |
| JsNumber.ToUint32 | src/common/ow.ts:340 | `>>> 0` gives a value below 2^32 |
| JsNumber.ToInt32 | src/common/ow.ts:340 | the 32-bit conversion gives a signed 32-bit value congruent to its input modulo 2^32 |
| JsNumber.OrZero | src/common/ow.ts:340 | `x | 0` is x |
| JsNumber.OrDisjoint | src/common/ow.ts:340 | or-ing a value below 2^k into one whose low k bits are 0 adds them |
| JsNumber.ShiftByteLeft | src/common/ow.ts:340 | `b << 8` of a byte is 256 b |
| JsNumber.OrLowByte | src/common/ow.ts:340 | or-ing a byte into 256 times a byte adds it |
| JsNumber.WordOfShiftOr | src/common/ow.ts:340 | `(a << 8) | b` of two bytes is the big-endian word 256 a + b |
| JsNumber.UnsignedOfSmall | src/common/ow.ts:353 | `x >>> 0` leaves a value from 0 to 2^31 - 1 unchanged |
| JsNumber.ByteSignByShifts | src/common/ow.ts:356 | `(b << 24) >> 24` sign-extends a byte, as `getInt8` does |
| JsNumber.WordSignByShifts | src/common/ow.ts:359 | `(w << 16) >> 16` sign-extends a 16-bit word, as `getInt16` does |
| LevelFile.GoalFieldBlocks | src/common/levels.ts:379-382 | succeeds exactly when the goal has every exported option, one block per field of the field's type; otherwise `getOption`'s error for the first one missing |
| LevelFile.FirstMissing | src/common/goals.ts:44-49 | the error names the first exported option the goal lacks |
| LevelFile.GoalBlocks | src/common/levels.ts:378-382 | the goal's id as a Uint8 then its fields; an id outside the goal table is the lookup's error |
| LevelFile.EncodeLevels | src/common/levels.ts:374-389 | the pushed blocks are `LevelsBlocks` of the levels |
| LevelFile.EncodeLevel | src/common/levels.ts:375-387 | one level's blocks: the name's, the goal's, the map count and the maps' bytes |
| LevelFile.EncodeGoal | src/common/levels.ts:378-382 | the goal's pushed blocks are `GoalBlocks` |
| LevelFile.EncodeMaps | src/common/levels.ts:384-386 | every byte of every map, in order, as Uint8 blocks |
| LevelFile.LevelAfterName | src/common/levels.ts:343-365 | bytes too few for the goal's fields and the map count are an error |
| LevelFile.LevelAfterText | src/common/levels.ts:341-343 | a goal id outside the goal table is the lookup's error |
| LevelFile.LoadLevelFromData | src/common/levels.ts:332-372 | no bytes at all is the decoder's "No bytes to decode." error |
| LevelFile.GoalOptionsRead | src/common/levels.ts:347-382 | reading the written goal fields collects the goal's options for those fields as decimal strings |
| LevelFile.LoadEncodedLevel | src/common/levels.ts:332-389 | loading a level `encodeLevels` wrote, followed by any bytes, gives back its upper-cased name, its goal and its maps and leaves the following bytes |
| Overworld.MapDimensions | src/common/ow.ts:255-261 | the width and height getters agree: a block is two tiles and a tile eight pixels |
| Overworld.Swap | src/common/ow.ts:75-89 | the destructuring swap exchanges two entries of the copy and keeps the others |
| Overworld.MoveDown | src/common/ow.ts:70-80 | an index at or past the last entry throws the "out of bounds" message; -1 throws reading the undefined entry; a smaller index changes nothing |
| Overworld.MoveUp | src/common/ow.ts:81-91 | an index at or before the first entry throws "out of bounds"; one past the end throws on the undefined entry; an inner index swaps with the one before |
| Overworld.MoveDownUp | src/common/ow.ts:70-91 | moving an entry down and then up from its new place restores the list |
| Overworld.RemoveGuarded | src/common/ow.ts:92-99 | the last entry cannot be removed; otherwise `splice(index, 1)` |
| Overworld.Put | src/common/ow.ts:47-51 | an index assignment on a copy replaces that entry, appends at the length, and leaves the others; a negative index changes no entry |
| Overworld.AddMap | src/common/ow.ts:54 | a blank 20 by 20 map with one empty block layer is added after the others |
| Overworld.MoveMapDown | src/common/ow.ts:70-80 | throws "Cannot move map down" exactly when the index is at or past the last map; otherwise swaps the map with the next one (index -1 reads an undefined map, and a more negative index changes nothing) |
| Overworld.MoveMapUp | src/common/ow.ts:81-91 | throws "Cannot move map up" exactly when the index is 0 or below; past the end it reads an undefined map; otherwise swaps the map with the previous one |
| Overworld.RemoveMap | src/common/ow.ts:92-99 | throws "Cannot remove the last map" exactly when one map or none is left; otherwise `splice(index, 1)`, which removes the map at the index, one map fewer |
| Overworld.AddRemoveMap | src/common/ow.ts:54-99 | adding a map and removing it again gives the overworld back |
| Overworld.UpdateMap | src/common/ow.ts:47-51 | the map at the index becomes the new one, an index one past the end appends it, a negative index changes no map, and every other map stays |
| Overworld.AddLayer | src/common/ow.ts:249-254 | an empty layer of the given type is added after the others; width and height unchanged |
| Overworld.UpdateHeight | src/common/ow.ts:315 | only the height changes |
| Overworld.UpdateWidth | src/common/ow.ts:317 | only the width changes |
| Overworld.MoveLayerDown | src/common/ow.ts:280-290 | throws "Cannot move layer down" exactly when the index is at or past the last layer; otherwise swaps the layer with the next one, keeping width and height |
| Overworld.MoveLayerUp | src/common/ow.ts:291-301 | throws "Cannot move layer up" exactly when the index is 0 or below; otherwise swaps the layer with the previous one, keeping width and height |
| Overworld.RemoveLayer | src/common/ow.ts:302-309 | throws "Cannot remove the last layer" exactly when one layer or none is left; otherwise removes the layer at the index |
| Overworld.UpdateLayer | src/common/ow.ts:238-242 | the layer at the index becomes the new one, an index one past the end appends it, and every other layer, the width and the height stay |
| Overworld.AddObject | src/common/ow.ts:155-161 | the object is added after the others; the type is unchanged |
| Overworld.GetObject | src/common/ow.ts:162-167 | succeeds exactly for an index inside the list, with that object; otherwise "Object index out of bounds: " and the index |
| Overworld.RemoveObject | src/common/ow.ts:192-203 | the object at the splice start is removed and the type kept |
| Overworld.UpdateObject | src/common/ow.ts:208-219 | succeeds exactly for an index inside the list; that object's properties become the old ones with the changes over them, the others stay |
| Overworld.AddGetRemoveObject | src/common/ow.ts:155-203 | an added object is the one `getObject` finds at the end, and removing it gives the layer back |
| Overworld.ObjectFromJson | src/common/ow.ts:132 | `createObject` of a parsed object: null throws the destructuring error; otherwise its properties are its members, each as the setter and the type table read it |
| Overworld.ObjectsFromJson | src/common/ow.ts:132 | the objects are read one by one, accepted exactly when none is null |
| Overworld.LayerFromJson | src/common/ow.ts:124-136 | `in` on a value that is not an object is a TypeError; an object without an `objects` array and a string `type` is "Invalid overworld layer data"; otherwise the layer is its type and its objects, which are checked after |
| Overworld.LayersFromJsonEach | src/common/ow.ts:124-137 | a list of layers is accepted exactly when every layer is, each read alone, and otherwise fails with the first failing layer's error |
| Overworld.MapsFromJsonEach | src/common/ow.ts:114-143 | a list of maps is accepted exactly when every map is, each read alone |
| Overworld.MapFromJson | src/common/ow.ts:114-142 | `in` on a value that is not an object is a TypeError; a map missing a member, or with one of the wrong kind, is "Invalid overworld map data"; otherwise it is its width, height and layers |
| Overworld.OverworldFromJson | src/common/ow.ts:109-146 | `in` on a value that is not an object is a TypeError; without a `maps` array "Invalid overworld data"; otherwise the overworld of its maps |
| Overworld.ObjectToJson | src/common/objects.ts:1008 | an object's JSON has exactly its property keys, each holding its number |
| Overworld.ObjectsToJson | src/common/ow.ts:205 | one JSON object per map object, in order |
| Overworld.LayerToJson | src/common/ow.ts:204-207 | a layer's JSON holds its objects' JSON and its type, which is missing exactly when the enumeration does not name it |
| Overworld.LayersToJson | src/common/ow.ts:312 | one JSON layer per layer, in order |
| Overworld.MapToJson | src/common/ow.ts:310-314 | a map's JSON holds exactly its height, its layers' JSON and its width |
| Overworld.MapsToJson | src/common/ow.ts:102 | one JSON map per map, in order |
| Overworld.OverworldToJson | src/common/ow.ts:100-104 | the overworld's JSON holds exactly its maps' JSON |
| Overworld.ObjectsJsonRoundTrip | src/common/ow.ts:132-205 | objects come back from their JSON as themselves |
| Overworld.LayerJson | src/common/ow.ts:124-207 | a layer reads back from its JSON as itself exactly when the enumeration names its type, and otherwise fails with "Invalid overworld layer data" |
| Overworld.LayersJsonRoundTrip | src/common/ow.ts:124-207 | layers of named types read back as themselves; another type makes the list fail with the layer message |
| Overworld.MapJson | src/common/ow.ts:115-142 | a map reads back as itself exactly when its layers have named types, and otherwise fails with the layer message |
| Overworld.MapsJsonRoundTrip | src/common/ow.ts:109-146 | the maps read back as themselves exactly when all their layers have named types, and otherwise fail with the layer message |
| Overworld.JsonRoundTrip | src/common/ow.ts:100-146 | `createOverworldFromJSON(ow.toJSON())` is the overworld again when its layers have named types, and otherwise fails with "Invalid overworld layer data" |
| OverworldData.EncodeLayer | src/common/ow.ts:170-191 | the layer's pushed blocks are its type byte, each object's type and fields, then the terminator |
| OverworldData.EncodeMap | src/common/ow.ts:262-279 | width, height and layer count bytes, then each layer's blocks in order |
| OverworldData.EncodeOverworld | src/common/ow.ts:56-69 | the map count, then each map's blocks in order |
| OverworldData.ReadOwField | src/common/ow.ts:346-363 | a field type outside the `switch` throws "Unsupported data type"; a supported one is read exactly when its bytes are there, and the cursor moves past its size |
| OverworldData.OwFieldAgrees | src/common/ow.ts:348-360 | the `switch`'s shifts and ors read each supported field type as the DataView getter does: a byte, a big-endian word, and each sign-extended |
| OverworldData.ReadOwFields | src/common/ow.ts:346-364 | the field loop only moves the cursor forward |
| OverworldData.ReadOwObjects | src/common/ow.ts:339-366 | the object loop only moves the cursor forward |
| OverworldData.OwLayerKind | src/common/ow.ts:334 | byte 0 is a block layer and every other byte a sprite layer |
| OverworldData.OwFieldsAgree | src/common/ow.ts:346-364 | the field loop with the shift-and-or reads gives the properties and the cursor that the DataView getters give |
| OverworldData.UnsupportedStops | src/common/ow.ts:361-362 | an unsupported field type stops the loop with "Unsupported data type: " and the type |
| OverworldData.ReadOwFieldsAt | src/common/ow.ts:346-364 | the field loop at the cursor agrees with `ReadOwFields`, error included |
| OverworldData.ReadObjectAt | src/common/ow.ts:340-365 | one pass of the object loop agrees with `ReadOwObjects`: the terminator ends the layer, another type adds an object |
| OverworldData.ReadLayerAt | src/common/ow.ts:332-367 | one layer at the cursor agrees with `ReadOwLayer` |
| OverworldData.ReadLayersAt | src/common/ow.ts:331-368 | the layer loop agrees with `ReadOwLayers` |
| OverworldData.ReadMapAt | src/common/ow.ts:326-369 | one map at the cursor agrees with `ReadOwMap` |
| OverworldData.LoadOverworldFromData | src/common/ow.ts:321-372 | the loader returns exactly `ReadOverworld(data)`, a read past the end being an error |
| OverworldData.TileFieldsSupported | src/common/objects.ts:1018-1029 | the overworld tile table stores only field types the loader supports |
| OverworldData.OverworldRoundTrip | src/common/ow.ts:321-372 | loading an encoded overworld whose sizes and counts fit a byte, followed by any bytes, rebuilds every map, layer and object |
| OverworldData.OverworldRoundTripExact | src/common/ow.ts:321-372 | an overworld whose objects hold exactly their stored fields loads back as itself |
| OverworldData.BlankOverworldBytes | src/common/ow.ts:25-69 | the blank overworld encodes as 1, 20, 20, 1, 0, 255, 255 |
| OverworldData.LooseByte | src/common/ow.ts:340 | a byte read past the end acts as 0 in the type word's shifts and ors |
| OverworldData.AsWrittenNeverEnds | src/common/ow.ts:339-343 | once the cursor is past the end every type word is 0, so the object loop never ends and never throws |
| OverworldData.TruncatedLayer | src/common/ow.ts:324-343 | on 1, 20, 20, 1, 0 the loop as written runs on forever, while the checked reader reports the range error |
| Json.Get | src/renderer/src/components/Editor.tsx:110 | a member is found exactly when the object has the key, and is that key's value |
| Json.JoinFrom | src/renderer/src/components/Editor.tsx:323 | the text `String()` gives for an array's items from an index on |
| Json.ArrayIndex | src/common/levels.ts:251 | a type-table lookup with a string key is -1 (absent) unless the string is a canonical index |
| Json.ObjectProps | src/renderer/src/components/Editor.tsx:295-302 | the properties handed to `createObject` are exactly the object's members, each the value the setter and the type table read from it, and number members keep their number |
| Json.DecimalMembers | src/common/levels.ts:251-266 | a member that is the decimal text of n is stored as n and, when n is not negative, selects type n |
| Json.SpacedMembers | src/common/levels.ts:251-266 | a member that is the decimal text of n with white space around it is stored as n |
| Json.CoercedMembers | src/common/levels.ts:251-266 | null and false store 0, true stores 1, text that is not a number stores 0, and neither "02" nor null selects a type |
| Json.NumbersObject | src/common/ow.ts:205 | an object's JSON has exactly its property keys, each holding its number |
| Json.NumbersRoundTrip | src/common/ow.ts:132-205 | the number members of an object's JSON are its properties |
| Json.OptionStrings | src/renderer/src/components/Editor.tsx:323 | the goal options kept are exactly the options object's members, each as `String()` gives it, and string members keep their text |
| Json.NumberOption | src/common/levels.ts:381 | a number option is read back by `parseInt` of its `String()` |
| Json.InError | src/common/ow.ts:110 | the TypeError of `in` on a primitive names the key searched |
| Json.StringsObject | src/common/goals.ts:50 | the options' JSON has exactly their keys, each holding its string |
| Json.StringsRoundTrip | src/common/goals.ts:50 | the string members of the options' JSON are the options |
| Editor.GenerateExportData | src/renderer/src/components/Editor.tsx:46-71 | the bytes written are `ExportData` of the levels, palettes and graphics, as many as the blocks' total size; a throw in any encoder is the error |
| Editor.ExportData | src/renderer/src/components/Editor.tsx:46-71 | the export succeeds exactly when every block is produced, fails with that error otherwise, and holds as many bytes as the blocks' total size |
| Editor.ExportAfterGraphics | src/renderer/src/components/Editor.tsx:47-55 | the save data is the palette list's blocks, the graphics entries', then the levels' |
| Editor.LoadShrinks | src/renderer/src/components/Editor.tsx:92-96 | each level read takes at least one byte, so the level loop ends |
| Editor.Padded | src/renderer/src/components/Editor.tsx:100-102 | the padded list holds at least the level count, begins with the levels read and continues with default levels |
| Editor.ReadLevels | src/renderer/src/components/Editor.tsx:90-96 | the level loop keeps the levels read before and appends to them; with no bytes left it stops |
| Editor.ImportData | src/renderer/src/components/Editor.tsx:79-104 | a palette error is the import's error; an import holds the decoded palettes and at least the level count of levels |
| Editor.OnImport | src/renderer/src/components/Editor.tsx:79-104 | the palettes, graphics and levels set are `ImportData` of the bytes |
| Editor.LoadLevels | src/renderer/src/components/Editor.tsx:90-96 | the level loop reads `ReadLevels` of the bytes after the graphics |
| Editor.PadLevels | src/renderer/src/components/Editor.tsx:100-102 | the padding loop leaves `Padded` of the levels read |
| Editor.LevelsRoundTrip | src/renderer/src/components/Editor.tsx:55-96 | the written bytes of storable levels read back as those levels with upper-cased names |
| Editor.ExportParts | src/renderer/src/components/Editor.tsx:46-71 | the export's bytes are the palette list's, then the graphics', then the levels' |
| Editor.PartsRead | src/renderer/src/components/Editor.tsx:79-96 | each of the three parts reads back off the front of what follows it |
| Editor.ExportImportRoundTrip | src/renderer/src/components/Editor.tsx:46-104 | importing an export of storable palettes, graphics and levels gives back the palettes as loaded, the same graphics and the levels padded to the level count |
| EditorOpen.MapIndexed | src/renderer/src/components/Editor.tsx:117-151 | a `map` whose callback may throw gives one result per item |
| EditorOpen.MapIndexedEach | src/renderer/src/components/Editor.tsx:117-151 | the map succeeds exactly when every item does, each result at its item's place |
| EditorOpen.MapIndexedFirstError | src/renderer/src/components/Editor.tsx:117-151 | the map's error is the first failing item's |
| EditorOpen.OpenColor | src/renderer/src/components/Editor.tsx:131-148 | a colour opens exactly when it is an object with number r, g, b and a (r, g, b not negative here), and is those numbers; an error names the colour and its palette |
| EditorOpen.OpenPalette | src/renderer/src/components/Editor.tsx:117-151 | a palette that opens has a string name and eight colours, each what that colour opens as; a name and a colour list of another length is the colour-count error for the palette |
| EditorOpen.OpenPalettes | src/renderer/src/components/Editor.tsx:110-154 | no palettes member opens as none; one that is not an array is "Invalid palettes data"; otherwise one palette per item, each what it opens as, of eight colours |
| EditorOpen.OpenSheet | src/renderer/src/components/Editor.tsx:165-197 | an entry opens only with non-zero number widthTiles and heightTiles and string pixels, as those dimensions and the pixels `atob` and decompression give; pixel text `atob` refuses throws its error |
| EditorOpen.OpenGraphics | src/renderer/src/components/Editor.tsx:157-199 | no graphics member opens as blank sheets; otherwise the three entries, blocks, overworld and sprites, each as it opens |
| EditorOpen.Sized | src/renderer/src/components/Editor.tsx:295-302 | `onOpen` always hands width and height: the object's members stay and an absent width or height is stored as 0 |
| EditorOpen.OpenObject | src/renderer/src/components/Editor.tsx:269-302 | an object opens exactly when it is an object with number type, x and y and number width and height where present; its properties are all its members as the setters read them, plus width and height; an error names the object and where it sits |
| EditorOpen.OpenLayer | src/renderer/src/components/Editor.tsx:253-310 | a layer that opens has a string type, number scrollX and an objects array, and one object per item, each what it opens as |
| EditorOpen.OpenMap | src/renderer/src/components/Editor.tsx:236-320 | a map that opens has number width, height and palette and a layers array, and its bytes start with the six header bytes of those values and the layer count |
| EditorOpen.OpenLevel | src/renderer/src/components/Editor.tsx:216-326 | a level that opens has its string name, its goal's number id, the `String()` of every goal option, and one map per item, each what it opens as |
| EditorOpen.OpenLevels | src/renderer/src/components/Editor.tsx:206-330 | no levels member opens as the default levels; more than the level count is "Too many levels"; otherwise one level per item, each what it opens as |
| EditorOpen.Open | src/renderer/src/components/Editor.tsx:106-330 | a file that is not an object throws the TypeError of `in`; otherwise it opens exactly when its palettes, graphics and levels do, as those parts, the palettes' error coming first |
| EditorOpen.SizedObjectBlocks | src/common/levels.ts:247-253 | adding width and height changes no block of an object that writes out |
| EditorOpen.SizedObjectsBlocks | src/common/levels.ts:247-253 | adding width and height changes no block of objects that write out |
| EditorOpen.SizedLayersBlocks | src/common/levels.ts:238-262 | adding width and height changes no block of layers that write out |
| EditorOpen.SizedMapBytes | src/common/levels.ts:234-271 | adding width and height to every object leaves a map's bytes as they were |
| EditorOpen.ColorRoundTrip | src/renderer/src/components/Editor.tsx:131-148 | a colour opens back from its JSON |
| EditorOpen.PaletteRoundTrip | src/renderer/src/components/Editor.tsx:117-151 | a palette opens back from its JSON exactly when it has eight colours; otherwise the colour-count error |
| EditorOpen.SheetRoundTrip | src/renderer/src/components/Editor.tsx:165-197 | a sheet of whole-byte pixels and non-zero dimensions opens back from its JSON when `atob` undoes `btoa` |
| EditorOpen.ZeroWidthSheet | src/renderer/src/components/Editor.tsx:175-177 | a width of 0 is "Invalid graphics width", since 0 is falsy |
| EditorOpen.ObjectRoundTrip | src/renderer/src/components/Editor.tsx:269-302 | a placed object opens back from its JSON, with width and height given |
| EditorOpen.LayerRoundTrip | src/renderer/src/components/Editor.tsx:253-310 | a layer of placed objects opens back from its JSON, each object with width and height given |
| EditorOpen.MapRoundTrip | src/renderer/src/components/Editor.tsx:236-320 | a map's JSON opens as the `generateDataBytes` of the map with its objects given width and height, which is the map's own when that writes out |
| EditorOpen.LevelRoundTrip | src/renderer/src/components/Editor.tsx:216-326 | a level of writable maps opens back with its name, its goal and each map's bytes |
| EditorOpen.GraphicsRoundTrip | src/renderer/src/components/Editor.tsx:157-199 | the three graphics entries open back from their JSON |
| EditorOpen.PalettesRoundTrip | src/renderer/src/components/Editor.tsx:110-154 | palettes of eight colours each open back from their JSON |
| EditorOpen.LevelsRoundTrip | src/renderer/src/components/Editor.tsx:206-326 | no more than the level count of writable levels open back from their JSON |
| EditorOpen.ProjectRoundTrip | src/renderer/src/components/Editor.tsx:106-330 | opening a saved project gives back its palettes, its graphics and its levels with their maps' bytes |
| EditorOpen.DefaultLevelsAre | src/renderer/src/components/Editor.tsx:327-330 | without levels the file opens with 160 default levels |
| EditorOpen.OpenedShape | src/renderer/src/components/Editor.tsx:106-330 | palettes exactly when the file has them, each of eight colours; always three graphics entries, blank ones without graphics |
| EditorOpen.TooManyLevels | src/renderer/src/components/Editor.tsx:211-213 | more levels than the level count is "Too many levels" |
| EditorOpen.PalettesFirst | src/renderer/src/components/Editor.tsx:110-154 | a palettes error is the file's error, before graphics and levels are looked at |
| EditorOpen.WrongColorCount | src/renderer/src/components/Editor.tsx:117-129 | the first palette without eight colours is the error, by its number |
| TileEditor.BrushLayoutsShape | src/renderer/src/components/TileEditor.tsx:22-193 | eight stencils of 1, 4, 5, 12, 21, 24, 37 and 52 offsets, each holding the origin |
| TileEditor.ClampBrushSize | src/renderer/src/components/TileEditor.tsx:776 | the size is between 1 and 8, kept when already in range and 1 below it |
| TileEditor.ShiftBack | src/renderer/src/components/TileEditor.tsx:195-202 | moving a stencil and moving it back gives the stencil |
| TileEditor.GenerateBrushLayout | src/renderer/src/components/TileEditor.tsx:195-202 | a stroke has one point per offset of its stencil and always covers the selected pixel |
| TileEditor.BrushLayoutMoves | src/renderer/src/components/TileEditor.tsx:195-202 | each point of a stroke is its offset moved by (x, y), and moving the stroke back gives the stencil |
| TileEditor.Clipped | src/renderer/src/components/TileEditor.tsx:648-653 | the clipped stroke has no more points than the stroke |
| TileEditor.ClippedMembers | src/renderer/src/components/TileEditor.tsx:648-653 | a point is drawn exactly when it is in the stroke and in the tile |
| TileEditor.DrawBrush | src/renderer/src/components/TileEditor.tsx:646-655 | the pixels handed to `drawPixel` are the stroke's points inside the tile, in order |
| TileEditor.DrawnPixels | src/renderer/src/components/TileEditor.tsx:646-655 | a stroke draws only pixels of the tile, every pixel of the tile the stencil covers, and the selected pixel when it is in the tile |
| OverworldData.OwObjectsRoundTrip | src/common/ow.ts:339-366 | a layer's written objects and terminator read back as the rebuilt objects, the cursor after the terminator |
| OverworldData.OwLayersRoundTrip | src/common/ow.ts:331-368 | the written layers read back as the rebuilt layers, the cursor after the last |
| OverworldData.OwMapsRoundTrip | src/common/ow.ts:325-370 | the written maps read back as the rebuilt maps, the cursor after the last |
| EditorOpen.MapsRoundTrip | src/renderer/src/components/Editor.tsx:236-320 | writable maps open back from their JSON as their `generateDataBytes` |
| EditorOpen.SheetOf | src/renderer/src/components/Editor.tsx:173-196 | an entry of non-zero dimensions whose pixel text decodes and decompresses to the pixels opens as that sheet |

## Left out

- Graphics.GraphicsEntry.ImportPixels: requires a source of at least `importWidth * importHeight` pixels; with a shorter source JavaScript would write `undefined` into the sheet, which a sheet of integers cannot hold. It also requires a pixel array at least as long as the sheet's dimensions give (a longer one, as a decoded sheet may have, is allowed and only its first `width * height` pixels are written); with a shorter array JavaScript would grow the array, which a fixed-size array does not model.
- Graphics.GraphicsEntry.UpdatePixel: requires an index inside the sheet; out of range, a JavaScript array would grow or gain a property, which a fixed-size array does not model.
- TileEditor.GenerateBrushLayout: requires a size from 1 to 8, the range the number input clamps to; any other size would read an undefined stencil and throw.
- TileEditor.ClampBrushSize: takes an integer; the NaN that `parseInt` gives for an empty input (which `Math.max`/`Math.min` pass on) is not modelled.
- EditorOpen.OpenColor: refuses a negative channel with its own message, because a colour here holds natural numbers; the editor would accept it.
- EditorOpen.OpenSheet: refuses a negative width or height with its own message, for the same reason.
- Overworld.Put: requires an index no greater than the length; an assignment further out would leave holes in the JavaScript array. A negative index sets a property no list operation reads, so the list is unchanged.
- Json.ObjectProps: keeps each member as the one number its setter or the type table reads. An accessor that does arithmetic on a member that is not a number (`x + width` on a string concatenates) is not modelled, and neither are members that are numbers but not integers; all numbers are integers here.
- Json.OptionStrings: an `options` value that is an array gives no options here; in JavaScript its indices would become option names.
- Json.MemberNumber: an object member that defines its own `toString` or `valueOf` is not modelled; every object reads as `[object Object]`. A `length` member used as a type key is not modelled either.
- EditorOpen.OpenObject: a width or height the file leaves out is stored as 0, which is what the setter writes for `undefined`; the object's `widthBlocks` and `heightBlocks` then read 0, where the destructuring default of `createObject` would give 1.
- Overworld.ObjectFromJson: an object given as a number, string or boolean is kept with no properties. In JavaScript `getProp` would throw a TypeError from `in` rather than report a missing key.
- Saving after opening: `toJSON` hands back the raw values the file held, while the model writes the numbers those values were read as.
- JsNumber: integers are unbounded here; the rounding of doubles above 2^53, which `parseInt` and `Number` would show on long digit strings, is not modelled.
- JsNumber.ParseIntString, JsNumber.NumberOfIntString, JsNumber.NumberSpaced and Bytes.DecimalRoundTrip: their "for every integer" holds for unbounded integers; in JavaScript it holds only for magnitudes below 2^53, where doubles are exact.
- Goals.Goal.GetOption: the options are a map of their own keys; keys inherited from `Object.prototype` (`"toString"`, say), which the source's `in` would also find, are not modelled. Every caller passes a slug of the goal's template.
- TextC.MissingChildSwallowed: the C decoder prints a message with `printf` when a node lacks the child a bit selects; the output is not modelled, only that decoding goes on as the code does.
- Palettes.Palette.UpdateColor, Palettes.PaletteList.UpdatePalette, LevelMaps.SwitchLayers and LevelMaps.UpdateScrollX: require an index below the length. The editor only passes indices of existing entries; a JavaScript array assigned further out would grow, which is not modelled.
- TextC.DecodeText: the C decoder writes into a 64-byte buffer without a bounds check. A text that would overflow it is modelled as the failure `ResultOverflow` rather than as memory corruption.
- OverworldData.LoadOverworldFromData: models the reader with every read past the end reported as the range error. The loop as written is `AsWrittenObjects` (see Findings).
- Reads past the end of a JavaScript array (`undefined`) are modelled as the DataView's range error wherever a reader could reach them.
- `onOpen` and `onImport` set palettes, graphics and levels one after another. When a later part throws, the editor keeps the parts already set; the model returns only the error.
- A map's width or height that a JSON file leaves out is refused; the editor would pass `undefined` on to `createMap`.
- `Float32` values (a layer's scroll factor) are modelled as the 32-bit pattern the DataView writes, as an integer. IEEE rounding is not modelled, and neither is float arithmetic.
- `toUpperCase` is the parameter `upper`; `atob` and `btoa` are parameters with the round-trip property stated as a precondition where needed.
- The C program's trie is a lazily built global; here it is a parameter built by `TextC.GenerateTextTrie`. File reading, `printf` of hex dumps and `malloc` failure (`exit(1)`) in text.c and main.c are not modelled; neither are the C program's memory leaks.
- `convertHexColorToObject`, `hex()` and `rgba()` in palettes.ts: string formatting and parsing for the colour picker, not part of any saved format.
- `createTexture` in graphics.ts and all WebGL rendering (the renderers in TileEditor.tsx included): drawing only.
- React state, hooks, the mouse handling and the rest of the user interface.
- The legacy `.js` copies of the modules, and tileset.ts: not part of this model.

## Findings

| source | as written | input that shows it | evidently intended | confidence | as-written member | corrected member |
|---|---|---|---|---|---|---|
| import-test/src/text.c:91 | `remaining_data_size` is the start of the input minus the new position, a negative count that wraps to 2^64 minus the bytes consumed | the one-byte text `0x80` (the terminator alone) with a trie whose root's child 2 is the terminator: size 2^64 - 1 | the number of bytes left after the text | not executed | TextC.SizeNegated | TextC.CheckedRemaining |
| import-test/src/text.c:103-115 | a missing child prints a message and `break`s out of the bit loop only; decoding goes on with the next byte from the same node | bytes `0x60 0x7F` with a trie whose node 1 lacks child 2: the text "A" is returned | a bit sequence the trie lacks is an error | not executed | TextC.MissingChildSwallowed | TextC.CheckedDecodeRoundTrip |
| import-test/src/text.c:77-79,90,118 | the terminator is only seen at the start of the next bit, so when the message ends on a byte boundary the offset is one byte too far, and with no byte after it the decoder reads past its input | any message whose bits fill whole bytes, such as eight bits ending in the terminator | the text ends after the bytes its bits fill, as the TypeScript decoder computes | not executed | TextC.BoundaryOffset | TextC.CheckedDecodeRoundTrip |
| src/common/ow.ts:339-343 | past the end of the data every byte is `undefined`, the type word's shifts make it 0, a known tile type; the object loop never meets the terminator and never ends | the bytes 1, 20, 20, 1, 0 (a file cut off after its only layer's type byte) | a cut-off file is refused | not executed | OverworldData.TruncatedLayer | OverworldData.LoadOverworldFromData |

The model of main.c (`PaletteC`) keeps `decode_text` as written, because
it describes what that program does. Everywhere else the text decoder is
the TypeScript one, which has none of these three faults.
