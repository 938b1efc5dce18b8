/** The palette decoder of the C import test (`decode_palette` in
 *  import-test/src/main.c).
 *
 *  The first byte is the palette count. Each palette is a name, decoded by
 *  `decode_text` as written (`TextC.AsWritten`), after which the cursor moves
 *  to the decoder's `remaining_data`; then seven big-endian 16-bit colour
 *  words, two bytes each. A word's red, green and blue are its bits 15-11,
 *  10-6 and 5-1, each times 8; bit 0 is not read. The C function prints what
 *  it decodes; here it returns it. Reading a byte past the input is
 *  undefined behaviour in C and is `ReadPastEnd` here. */
module PaletteC {
  import opened Bytes
  import opened TextC
  import Palettes

  /** The colours after each name. */
  const ColorsPerPalette: nat := 7

  /** One colour line: the word and its three channels. */
  datatype PrintedColor = PrintedColor(word: nat, red: nat, green: nat, blue: nat)

  /** One palette: the name's bytes and its colours. */
  datatype PaletteRecord = PaletteRecord(name: seq<byte>, colors: seq<PrintedColor>)

  /** `x >> n` on an unsigned value. */
  function ShiftRight(x: nat, n: nat): int
  {
    x / Pow2(n)
  }

  /** `x & 0x1F` on an unsigned value: its low five bits. */
  function Low5(x: int): nat
  {
    x % 32
  }

  /** `data[1] | data[0] << 8`: the two bytes occupy disjoint bits, so the
   *  word is their big-endian value. */
  function Word(hi: byte, lo: byte): (w: nat)
    ensures w < 0x1_0000
  {
    hi as nat * 256 + lo as nat
  }

  /** The three channels of a colour word. */
  function ColorOf(w: nat): (c: PrintedColor)
    ensures c.word == w
    ensures c.red % 8 == 0 && c.green % 8 == 0 && c.blue % 8 == 0
    ensures c.red <= 248 && c.green <= 248 && c.blue <= 248
  {
    PrintedColor(w, Low5(ShiftRight(w, 11)) * 8, Low5(ShiftRight(w, 6)) * 8, Low5(ShiftRight(w, 1)) * 8)
  }

  /** The C channels are the TypeScript decoder's: both take the same three
   *  five-bit fields of the word. */
  lemma {:induction false} SameFieldsAsTypeScript(w: nat)
    ensures var c := Palettes.ColorOfWord(w);
      ColorOf(w).red == c.r && ColorOf(w).green == c.g && ColorOf(w).blue == c.b
  {
    assert Pow2(11) == 2048 && Pow2(6) == 64 && Pow2(1) == 2;
  }

  /** Bit 0, which the TypeScript encoder always sets, does not change a
   *  channel. */
  lemma {:induction false} AlphaBitIgnored(w: nat)
    ensures ColorOf(2 * w + 1).red == ColorOf(2 * w).red
    ensures ColorOf(2 * w + 1).green == ColorOf(2 * w).green
    ensures ColorOf(2 * w + 1).blue == ColorOf(2 * w).blue
  {
    assert Pow2(11) == 2048 && Pow2(6) == 64 && Pow2(1) == 2;
    DivUnique(2 * w + 1, 2, w, 1);
    DivUnique(2 * w, 2, w, 0);
    DivUnique(2 * w + 1, 64, w / 32, w % 32 * 2 + 1);
    DivUnique(2 * w, 64, w / 32, w % 32 * 2);
    DivUnique(2 * w + 1, 2048, w / 1024, w % 1024 * 2 + 1);
    DivUnique(2 * w, 2048, w / 1024, w % 1024 * 2);
  }

  /** A colour the TypeScript encoder wrote prints as its high colour. */
  lemma {:induction false} DecodesEncodedColor(c: Palettes.Color)
    requires Palettes.ChannelsFit(c)
    ensures var p := ColorOf(c.Encode().value); var h := Palettes.HighColor(c);
      p.red == h.r && p.green == h.g && p.blue == h.b
  {
    Palettes.EncodedFields(c);
    SameFieldsAsTypeScript(c.Encode().value);
  }

  /** Reading the colour word at `pos` as the C decoder does agrees with the
   *  TypeScript decoder's colour of the data from `pos` on. */
  lemma {:induction false} SameColorAsTypeScript(data: seq<byte>, pos: nat)
    requires pos + 1 < |data|
    ensures var p := ColorOf(Word(data[pos], data[pos + 1])); var t := Palettes.WordColor(data[pos..]).value;
      p.red == t.r && p.green == t.g && p.blue == t.b
  {
    assert Palettes.WordAt(data[pos..]) == Word(data[pos], data[pos + 1]);
    SameFieldsAsTypeScript(Word(data[pos], data[pos + 1]));
  }

  // ------------------------------------------------------------ decode_palette

  /** `n` colour words from `pos`, and the cursor after them. */
  function ReadColorsAt(data: seq<byte>, pos: nat, n: nat): (r: Decoded<(seq<PrintedColor>, nat)>)
    ensures r.Success? ==> |r.value.0| == n && r.value.1 == pos + 2 * n <= |data|
    decreases n, |data|  // |data| keeps a call with a constant count from being unrolled
  {
    if n == 0 then (if pos <= |data| then Success(([], pos)) else Failure(ReadPastEnd))
    else if pos + 1 >= |data| then Failure(ReadPastEnd)
    else match ReadColorsAt(data, pos + 2, n - 1)
      case Failure(e) => Failure(e)
      case Success(rest) => Success(([ColorOf(Word(data[pos], data[pos + 1]))] + rest.0, rest.1))
  }

  /** The offset `decode_text` reports lies inside its input. */
  lemma {:induction false} AsWrittenOffset(trie: seq<TrieRecord>, data: seq<byte>)
    requires AsWritten(trie, data).Success?
    ensures 1 <= AsWritten(trie, data).value.remainingData <= |data|
  {
    BitViewLength(data);
    RunFinish(trie, BitView(data), 0, 0, [], |data|);
  }

  lemma {:induction false} BitViewLength(data: seq<byte>)
    ensures |BitView(data)| == 8 * |data|
  {
  }

  /** One palette from `pos`: the name `decode_text` reads, then the colour
   *  words from its `remaining_data`, and the cursor after them. */
  function ReadPaletteAt(trie: seq<TrieRecord>, data: seq<byte>, pos: nat): (r: Decoded<(PaletteRecord, nat)>)
    requires pos <= |data|
    ensures r.Success? ==> |r.value.0.colors| == ColorsPerPalette && pos < r.value.1 <= |data|
  {
    match AsWritten(trie, data[pos..])
    case Failure(e) => Failure(e)
    case Success(t) =>
      AsWrittenOffset(trie, data[pos..]);
      match ReadColorsAt(data, pos + t.remainingData, ColorsPerPalette)
      case Failure(e) => Failure(e)
      case Success(cs) => Success((PaletteRecord(t.text, cs.0), cs.1))
  }

  /** The palettes read so far, then `n` more from `pos`; the first that
   *  cannot be read is the result. */
  function ReadPalettesAt(trie: seq<TrieRecord>, data: seq<byte>, read: seq<PaletteRecord>, pos: nat, n: nat)
    : (r: Decoded<seq<PaletteRecord>>)
    requires pos <= |data|
    ensures r.Success? ==> |r.value| == |read| + n
    decreases n
  {
    if n == 0 then Success(read)
    else match ReadPaletteAt(trie, data, pos)
      case Failure(e) => Failure(e)
      case Success(p) =>
        ReadPalettesAt(trie, data, read + [p.0], p.1, n - 1)
  }

  /** What `decode_palette` prints: as many palettes as the first byte says. */
  function DecodedPalettes(trie: seq<TrieRecord>, data: seq<byte>): (r: Decoded<seq<PaletteRecord>>)
    ensures r.Success? ==> |data| > 0 && |r.value| == data[0] as nat
  {
    if |data| == 0 then Failure(ReadPastEnd)
    else ReadPalettesAt(trie, data, [], 1, data[0] as nat)
  }

  /** One palette read: its error, or the palette appended to those read. */
  lemma {:induction false} ReadPalettesStep(trie: seq<TrieRecord>, data: seq<byte>, read: seq<PaletteRecord>, pos: nat, n: nat)
    requires pos <= |data| && n > 0
    ensures ReadPaletteAt(trie, data, pos).Failure? ==>
      ReadPalettesAt(trie, data, read, pos, n) == Failure(ReadPaletteAt(trie, data, pos).error)
    ensures ReadPaletteAt(trie, data, pos).Success? ==>
      var p := ReadPaletteAt(trie, data, pos).value;
      ReadPalettesAt(trie, data, read, pos, n) == ReadPalettesAt(trie, data, read + [p.0], p.1, n - 1)
  {
  }

  /** The loop invariant of `DecodePalette` carried over one palette. */
  lemma {:induction false} PalettesStep(want: Decoded<seq<PaletteRecord>>, trie: seq<TrieRecord>, data: seq<byte>,
                     read: seq<PaletteRecord>, pos: nat, n: nat, p: Decoded<(PaletteRecord, nat)>)
    requires pos <= |data| && n > 0
    requires want == ReadPalettesAt(trie, data, read, pos, n) && p == ReadPaletteAt(trie, data, pos)
    ensures p.Failure? ==> want == Failure(p.error)
    ensures p.Success? ==> p.value.1 <= |data| && want == ReadPalettesAt(trie, data, read + [p.value.0], p.value.1, n - 1)
  {
    ReadPalettesStep(trie, data, read, pos, n);
  }

  /** `acc` in front of what a read gives. */
  function Then<T>(acc: seq<T>, r: Decoded<(seq<T>, nat)>): Decoded<(seq<T>, nat)>
  {
    match r
    case Failure(e) => Failure(e)
    case Success(x) => Success((acc + x.0, x.1))
  }

  lemma {:induction false} ThenEmpty<T>(r: Decoded<(seq<T>, nat)>)
    ensures Then([], r) == r
  {
    if r.Success? {
      assert [] + r.value.0 == r.value.0;
    }
  }

  lemma {:induction false} ThenStep<T>(acc: seq<T>, x: T, r: Decoded<(seq<T>, nat)>)
    ensures Then(acc, Then([x], r)) == Then(acc + [x], r)
  {
    if r.Success? {
      assert acc + ([x] + r.value.0) == (acc + [x]) + r.value.0;
    }
  }

  /** One step of `ReadColorsAt`. */
  lemma {:induction false} ReadColorsUnfold(data: seq<byte>, pos: nat, n: nat)
    ensures pos + 1 >= |data| ==> ReadColorsAt(data, pos, n + 1) == Failure(ReadPastEnd)
    ensures pos + 1 < |data| ==>
      ReadColorsAt(data, pos, n + 1) == Then([ColorOf(Word(data[pos], data[pos + 1]))], ReadColorsAt(data, pos + 2, n))
  {
  }

  /** The loop invariant of `ReadColorWords` carried over one word. */
  lemma {:induction false} ColorsStep(want: Decoded<(seq<PrintedColor>, nat)>, colors: seq<PrintedColor>, data: seq<byte>, pos: nat, left: nat)
    requires left > 0 && pos + 1 < |data|
    requires want == Then(colors, ReadColorsAt(data, pos, left))
    ensures want == Then(colors + [ColorOf(Word(data[pos], data[pos + 1]))], ReadColorsAt(data, pos + 2, left - 1))
  {
    ReadColorsUnfold(data, pos, left - 1);
    ThenStep(colors, ColorOf(Word(data[pos], data[pos + 1])), ReadColorsAt(data, pos + 2, left - 1));
  }

  /** `decode_palette`: the count byte, then for each palette `decode_text`
   *  on the cursor, the cursor moved to its `remaining_data`, and the
   *  palette's colour words. */
  method DecodePalette(trie: seq<TrieRecord>, data: seq<byte>) returns (r: Decoded<seq<PaletteRecord>>)
    ensures r == DecodedPalettes(trie, data)
  {
    if |data| == 0 {
      return Failure(ReadPastEnd);
    }
    var pos: nat := 1;
    var palettes: seq<PaletteRecord> := [];
    ghost var want := DecodedPalettes(trie, data);
    var left: nat := data[0] as nat;
    while left > 0
      invariant pos <= |data|
      invariant want == ReadPalettesAt(trie, data, palettes, pos, left)
    {
      var next := DecodeNextPalette(want, trie, data, palettes, pos, left);
      if next.Failure? {
        return Failure(next.error);
      }
      palettes, pos := next.value.0, next.value.1;
      left := left - 1;
    }
    r := Success(palettes);
  }

  /** One turn of the palette loop: the palettes read so far with one more. */
  method DecodeNextPalette(ghost want: Decoded<seq<PaletteRecord>>, trie: seq<TrieRecord>, data: seq<byte>,
                           palettes: seq<PaletteRecord>, pos: nat, left: nat)
    returns (r: Decoded<(seq<PaletteRecord>, nat)>)
    requires pos <= |data| && left > 0 && want == ReadPalettesAt(trie, data, palettes, pos, left)
    ensures r.Failure? ==> want == Failure(r.error)
    ensures r.Success? ==> r.value.1 <= |data| && want == ReadPalettesAt(trie, data, r.value.0, r.value.1, left - 1)
  {
    var p := DecodeOnePalette(trie, data, pos);
    PalettesStep(want, trie, data, palettes, pos, left, p);
    if p.Failure? {
      return Failure(p.error);
    }
    r := Success((palettes + [p.value.0], p.value.1));
  }

  /** The body of the palette loop: the name, then the seven colour words
   *  from where `decode_text` says the name ended. */
  method DecodeOnePalette(trie: seq<TrieRecord>, data: seq<byte>, pos: nat) returns (r: Decoded<(PaletteRecord, nat)>)
    requires pos <= |data|
    ensures r == ReadPaletteAt(trie, data, pos)
  {
    var nameData := DecodeText(trie, data[pos..]);
    if nameData.Failure? {
      return Failure(nameData.error);
    }
    AsWrittenOffset(trie, data[pos..]);
    var colors := ReadColorWords(data, pos + nameData.value.remainingData);
    if colors.Failure? {
      return Failure(colors.error);
    }
    r := Success((PaletteRecord(nameData.value.text, colors.value.0), colors.value.1));
  }

  /** The inner loop of `decode_palette`: seven words, each `data[1] |
   *  data[0] << 8` with the cursor then moved two bytes on. */
  method ReadColorWords(data: seq<byte>, start: nat) returns (r: Decoded<(seq<PrintedColor>, nat)>)
    requires start <= |data|
    ensures r == ReadColorsAt(data, start, ColorsPerPalette)
  {
    var pos: nat := start;
    var colors: seq<PrintedColor> := [];
    ghost var want := ReadColorsAt(data, pos, ColorsPerPalette);
    ThenEmpty(want);
    var left: nat := ColorsPerPalette;
    while left > 0
      invariant pos <= |data|
      invariant want == Then(colors, ReadColorsAt(data, pos, left))
    {
      if pos + 1 >= |data| {
        ReadColorsUnfold(data, pos, left - 1);
        return Failure(ReadPastEnd);
      }
      var color := Word(data[pos], data[pos + 1]);
      ColorsStep(want, colors, data, pos, left);
      colors := colors + [ColorOf(color)];
      pos := pos + 2;
      left := left - 1;
    }
    assert colors + [] == colors;
    r := Success((colors, pos));
  }
}
