/** Palettes (src/common/palettes.ts): colours in 16-bit high colour, five
 *  bits per channel and a final bit always set, and the palette list the
 *  save file stores as a count, then per palette its name text and the
 *  words of colours 1 to 7 (colour 0 is always transparent). */
module Palettes {
  import opened Wrappers
  import opened Bytes
  import opened Text

  // ---------------------------------------------------------------- channels

  function Min(a: int, b: int): int { if a <= b then a else b }

  function Max(a: nat, b: nat): nat { if a >= b then a else b }

  /** `roundToHighColor`: the nearest multiple of 8, halves rounding up, but
   *  at most 255. `Math.round(c / 8)` of an integer c is floor((c + 4) / 8). */
  function RoundToHighColor(c: int): (r: int)
    ensures r <= 255
    ensures 0 <= c <= 255 ==> 0 <= r && (r % 8 == 0 || r == 255) && c - 4 <= r <= c + 4
  {
    Min((c + 4) / 8 * 8, 255)
  }

  /** `encodeColorChannel`: the binary digits of floor(c / 8), padded with
   *  leading zeros to at least five. */
  function EncodeColorChannel(c: nat): (r: seq<bit>)
    ensures |r| >= 5 && FromBits(r) == c / 8
    ensures c < 256 ==> |r| == 5
  {
    var n := c / 8;
    var w := Max(5, BitLength(n));
    Pow2Mono(BitLength(n), w);
    FromBitsOfBits(n, w);
    DivUnique(n, Pow2(w), 0, n);
    if c < 256 then
      assert Pow2(5) == 32;
      BitLengthBelow(n, 5);
      Bits(n, w)
    else Bits(n, w)
  }

  /** `decodeColorChannel`: the digits' value stretched by 8, or the source's
   *  error for a value above 31. */
  function DecodeColorChannel(bits: seq<bit>): (r: Result<nat>)
    requires |bits| > 0
    ensures r.Ok? <==> FromBits(bits) <= 31
    ensures r.Ok? ==> r.value == 8 * FromBits(bits) && r.value % 8 == 0 && r.value <= 248
    ensures r.Err? ==> r.error == "Invalid color: " + DecimalString(FromBits(bits))
  {
    var color := FromBits(bits);
    if color > 31 then Err("Invalid color: " + DecimalString(color)) else Ok(color * 8)
  }

  /** A channel in 0..255 comes back rounded down to a multiple of 8. */
  lemma {:induction false} ChannelRoundTrip(c: nat)
    requires c < 256
    ensures DecodeColorChannel(EncodeColorChannel(c)) == Ok(c / 8 * 8)
  {
  }

  // ---------------------------------------------------------------- colours

  datatype Color = Color(r: nat, g: nat, b: nat, a: int)
  {
    /** `encode`: the three channels' digits and a final 1, as a Uint16. */
    function Encode(): (block: ByteBlock)
      ensures block.kind == Uint16
    {
      var bits := EncodeColorChannel(r) + EncodeColorChannel(g) + EncodeColorChannel(b) + [1];
      ByteBlock(Uint16, FromBits(bits))
    }
  }

  const Transparent := Color(0, 0, 0, 0)

  /** Channels below 256 fill bits 15-11, 10-6 and 5-1 of the word, and bit 0
   *  is set whatever the alpha. */
  lemma {:induction false} EncodeLayout(c: Color)
    requires c.r < 256 && c.g < 256 && c.b < 256
    ensures c.Encode().value == c.r / 8 * 2048 + c.g / 8 * 64 + c.b / 8 * 2 + 1
    ensures c.Encode().value < 65536
  {
    var R, G, B := EncodeColorChannel(c.r), EncodeColorChannel(c.g), EncodeColorChannel(c.b);
    assert Pow2(5) == 32 && Pow2(1) == 2;
    FromBitsAppend(R, G);
    FromBitsAppend(R + G, B);
    FromBitsAppend(R + G + B, [1]);
    assert FromBits([1]) == 1 by {
      assert [1][..0] == [];
    }
  }

  /** The colour the decoders read out of a word: channels from bits 15-11,
   *  10-6 and 5-1, each times 8, and alpha from bit 0. */
  function ColorOfWord(w: int): (c: Color)
    ensures c.r % 8 == 0 && c.g % 8 == 0 && c.b % 8 == 0
    ensures c.r <= 248 && c.g <= 248 && c.b <= 248
  {
    Color(w / 2048 % 32 * 8, w / 64 % 32 * 8, w / 2 % 32 * 8, w % 2)
  }

  /** Fields packed into a word come back out. */
  lemma {:induction false} WordFields(R: nat, G: nat, B: nat, a: nat)
    requires R < 32 && G < 32 && B < 32 && a < 2
    ensures ColorOfWord(R * 2048 + G * 64 + B * 2 + a) == Color(R * 8, G * 8, B * 8, a)
  {
    var w := R * 2048 + G * 64 + B * 2 + a;
    DivUnique(w, 2048, R, G * 64 + B * 2 + a);
    DivUnique(w, 64, R * 32 + G, B * 2 + a);
    DivUnique(R * 32 + G, 32, R, G);
    DivUnique(w, 2, R * 1024 + G * 32 + B, a);
    DivUnique(R * 1024 + G * 32 + B, 32, R * 32 + G, B);
  }

  /** The colour a channel-limited colour becomes once saved and loaded. */
  function HighColor(c: Color): (h: Color)
    ensures h.a == 1 && h.r <= c.r < h.r + 8 && h.g <= c.g < h.g + 8 && h.b <= c.b < h.b + 8
  {
    Color(c.r / 8 * 8, c.g / 8 * 8, c.b / 8 * 8, 1)
  }

  // ---------------------------------------------------------------- palettes

  datatype Palette = Palette(name: string, colors: seq<Color>)
  {
    /** `encode`: the name's text blocks, then colours 1 onwards. */
    function Encode(codes: map<Sym, seq<bit>>, upper: char -> char): (r: Result<seq<ByteBlock>>)
      ensures r.Ok? <==> EncodedBits(codes, upper, name).Ok?
      ensures r.Ok? ==>
        SerializeAll(r.value) == PackBits(EncodedBits(codes, upper, name).value) + SerializeAll(ColorBlocks(Tail(colors)))
    {
      match EncodedBlocks(codes, upper, name)
      case Err(e) => Err(e)
      case Ok(text) =>
        SerializeAllAppend(text, ColorBlocks(Tail(colors)));
        SerializeUint8Blocks(PackBits(EncodedBits(codes, upper, name).value));
        Ok(text + ColorBlocks(Tail(colors)))
    }

    /** `updateName`. */
    function UpdateName(newName: string): (p: Palette)
      ensures p.name == newName && p.colors == colors
    {
      Palette(newName, colors)
    }

    /** `updateColor`: only colour `index` changes; a negative index sets a
     *  property the colour list never reads. */
    function UpdateColor(index: int, newColor: Color): (p: Palette)
      requires index < |colors|
      ensures p.name == name && |p.colors| == |colors|
      ensures forall i | 0 <= i < |colors| && i != index :: p.colors[i] == colors[i]
      ensures 0 <= index ==> p.colors[index] == newColor
    {
      if index < 0 then this else Palette(name, colors[index := newColor])
    }
  }

  /** `slice(1)`. */
  function Tail<T>(s: seq<T>): seq<T>
  {
    if s == [] then [] else s[1..]
  }

  function ColorBlocks(cs: seq<Color>): (r: seq<ByteBlock>)
    ensures |r| == |cs|
  {
    if cs == [] then [] else [cs[0].Encode()] + ColorBlocks(cs[1..])
  }

  /** `createBlankPalette`. */
  const BlankPalette := Palette("GRAYSCALE", [
    Color(0, 0, 0, 0), Color(0, 0, 0, 1), Color(43, 43, 43, 1), Color(85, 85, 85, 1),
    Color(128, 128, 128, 1), Color(170, 170, 170, 1), Color(213, 213, 213, 1), Color(255, 255, 255, 1)])

  datatype PaletteList = PaletteList(list: seq<Palette>)
  {
    /** `addBlankPalette`. */
    function AddBlankPalette(): (l: PaletteList)
      ensures |l.list| == |list| + 1 && l.list[..|list|] == list && l.list[|list|] == BlankPalette
    {
      PaletteList(list + [BlankPalette])
    }

    /** `encode`: the count as a Uint8, then every palette's blocks. */
    function Encode(codes: map<Sym, seq<bit>>, upper: char -> char): (r: Result<seq<ByteBlock>>)
      ensures r.Ok? <==> forall i | 0 <= i < |list| :: EncodedBits(codes, upper, list[i].name).Ok?
      ensures r.Ok? ==> |r.value| > 0 && r.value[0] == ByteBlock(Uint8, |list|)
    {
      match EncodeAll(list, codes, upper)
      case Err(e) => Err(e)
      case Ok(blocks) => Ok([ByteBlock(Uint8, |list|)] + blocks)
    }

    /** `removePalette`: `splice(index, 1)`, where a negative index counts
     *  from the end and an index past the end removes nothing. */
    function RemovePalette(index: int): (l: PaletteList)
      ensures var k := SpliceStart(index, |list|);
        if k < |list| then
          |l.list| == |list| - 1 &&
          (forall i | 0 <= i < k :: l.list[i] == list[i]) &&
          (forall i | k <= i < |l.list| :: l.list[i] == list[i + 1])
        else l == this
    {
      var k := SpliceStart(index, |list|);
      if k < |list| then PaletteList(list[..k] + list[k + 1..]) else this
    }

    /** `updatePalette`: only palette `index` changes; a negative index sets
     *  a property the list never reads. */
    function UpdatePalette(index: int, p: Palette): (l: PaletteList)
      requires index < |list|
      ensures |l.list| == |list|
      ensures forall i | 0 <= i < |list| && i != index :: l.list[i] == list[i]
      ensures 0 <= index ==> l.list[index] == p
    {
      if index < 0 then this else PaletteList(list[index := p])
    }
  }

  /** `createBlankPaletteList`. */
  const BlankPaletteList := PaletteList([BlankPalette])

  /** The palettes' blocks one after another; the first name that cannot be
   *  encoded stops it. */
  function EncodeAll(ps: seq<Palette>, codes: map<Sym, seq<bit>>, upper: char -> char): (r: Result<seq<ByteBlock>>)
    ensures r.Ok? <==> forall i | 0 <= i < |ps| :: EncodedBits(codes, upper, ps[i].name).Ok?
  {
    if ps == [] then Ok([])
    else match ps[0].Encode(codes, upper)
      case Err(e) => Err(e)
      case Ok(first) =>
        match EncodeAll(ps[1..], codes, upper)
        case Err(e) => Err(e)
        case Ok(others) => Ok(first + others)
  }

  // ---------------------------------------------------------------- decoding

  /** A value read from the front of the data, and the data after it. */
  datatype Read<T> = Read(value: T, rest: seq<byte>)

  datatype PaletteData = PaletteData(palettes: PaletteList, remainingBytes: seq<byte>)

  /** A byte of the data; reading past the end gives `undefined`, which the
   *  bit operations treat as 0. */
  function ByteAt(data: seq<byte>, i: nat): byte
  {
    if i < |data| then data[i] else 0
  }

  /** `slice(k)`, empty past the end. */
  function Drop(data: seq<byte>, k: nat): (r: seq<byte>)
    ensures |r| == if k <= |data| then |data| - k else 0
  {
    if k <= |data| then data[k..] else []
  }

  /** The big-endian word of the first two bytes. */
  function WordAt(data: seq<byte>): nat
  {
    256 * (ByteAt(data, 0) as nat) + ByteAt(data, 1) as nat
  }

  /** One colour of `decodePaletteData`: the two bytes' bits, three 5-bit
   *  channels decoded in turn, and bit 15 as alpha. */
  function ReadColor(data: seq<byte>): Read<Color>
  {
    var bits := Bits(ByteAt(data, 0), 8) + Bits(ByteAt(data, 1), 8);
    assert Pow2(5) == 32;
    var red := DecodeColorChannel(bits[0..5]).value;
    var green := DecodeColorChannel(bits[5..10]).value;
    var blue := DecodeColorChannel(bits[10..15]).value;
    Read(Color(red, green, blue, bits[15]), Drop(data, 2))
  }

  /** Reading a colour bit by bit gives the colour the word's fields hold,
   *  which is also how the C decoder shifts and masks it. */
  lemma {:induction false} ReadColorIsWord(data: seq<byte>)
    ensures ReadColor(data) == WordColor(data)
  {
    var hi: int, lo: int := ByteAt(data, 0), ByteAt(data, 1);
    var w := WordAt(data);
    var bits := Bits(hi, 8) + Bits(lo, 8);
    assert ReadColor(data).value ==
      Color(FromBits(bits[0..5]) * 8, FromBits(bits[5..10]) * 8, FromBits(bits[10..15]) * 8, bits[15]);
    assert Pow2(11) == 2048 && Pow2(6) == 64 && Pow2(1) == 2;
    assert w == 256 * hi + lo;
    WordField(hi, lo, w, 0, 5, 2048);
    WordField(hi, lo, w, 5, 10, 64);
    WordField(hi, lo, w, 10, 15, 2);
    assert (Bits(hi, 8) + Bits(lo, 8))[15] == w % 2 by {
      assert Bits(lo, 8)[7] == lo % 2;
      DivUnique(w, 2, 128 * hi + lo / 2, lo % 2);
    }
    SameColor(FromBits(bits[0..5]), FromBits(bits[5..10]), FromBits(bits[10..15]), bits[15], w);
  }

  lemma {:induction false} SameColor(r: nat, g: nat, b: nat, a: int, w: nat)
    requires r == w / 2048 % 32 && g == w / 64 % 32 && b == w / 2 % 32 && a == w % 2
    ensures Color(r * 8, g * 8, b * 8, a) == ColorOfWord(w)
  {
  }

  /** A five-digit field of a big-endian word. */
  lemma {:induction false} WordField(hi: int, lo: int, w: int, i: nat, j: nat, p: nat)
    requires 0 <= hi < 256 && 0 <= lo < 256 && w == 256 * hi + lo
    requires i + 5 == j <= 16 && p == Pow2(16 - j)
    ensures FromBits((Bits(hi, 8) + Bits(lo, 8))[i..j]) == w / p % 32
  {
    WordSlice(hi, lo, w, i, j);
    assert Pow2(5) == 32;
  }

  /** Digits i to j of a big-endian word's two bytes. */
  lemma {:induction false} WordSlice(hi: int, lo: int, w: int, i: nat, j: nat)
    requires 0 <= hi < 256 && 0 <= lo < 256 && w == 256 * hi + lo && i <= j <= 16
    ensures FromBits((Bits(hi, 8) + Bits(lo, 8))[i..j]) == w / Pow2(16 - j) % Pow2(j - i)
  {
    WordValue(hi, lo);
    SliceOfWord(Bits(hi, 8) + Bits(lo, 8), w, i, j);
  }

  lemma {:induction false} SliceOfWord(b: seq<bit>, w: int, i: nat, j: nat)
    requires |b| == 16 && FromBits(b) == w && i <= j <= 16
    ensures FromBits(b[i..j]) == w / Pow2(16 - j) % Pow2(j - i)
  {
    SliceValue(b, i, j);
  }

  /** The colours a palette stores: all but the first, transparent one. */
  const StoredColors: nat := 7

  /** A colour read as the C decoder reads it: the word's fields. */
  function WordColor(data: seq<byte>): Read<Color>
  {
    Read(ColorOfWord(WordAt(data)), Drop(data, 2))
  }

  function ReadColors(data: seq<byte>, n: nat): (r: Read<seq<Color>>)
    ensures |r.value| == n
    decreases n, |data|  // |data| keeps a call with a constant count from being unrolled
  {
    if n == 0 then Read([], data)
    else
      var c := WordColor(data);
      var cs := ReadColors(c.rest, n - 1);
      Read([c.value] + cs.value, cs.rest)
  }

  /** One palette: the decoded name, then seven colours after the fixed
   *  transparent one. */
  function ReadPalette(root: Trie, data: seq<byte>): Result<Read<Palette>>
  {
    match DecodeText(root, data)
    case Err(e) => Err(e)
    case Ok(t) =>
      var cs := ReadColors(t.remaining, StoredColors);
      Ok(Read(Palette(t.text, [Transparent] + cs.value), cs.rest))
  }

  function ReadPalettes(root: Trie, data: seq<byte>, n: nat): (r: Result<Read<seq<Palette>>>)
    ensures r.Ok? ==> |r.value.value| == n && forall i | 0 <= i < n :: |r.value.value[i].colors| == 8
    decreases n
  {
    if n == 0 then Ok(Read([], data))
    else match ReadPalette(root, data)
      case Err(e) => Err(e)
      case Ok(p) => Prefixed([p.value], ReadPalettes(root, p.rest, n - 1))
  }

  function Prefixed(acc: seq<Palette>, r: Result<Read<seq<Palette>>>): (t: Result<Read<seq<Palette>>>)
    ensures t.Ok? <==> r.Ok?
    ensures t.Ok? ==> t.value.value == acc + r.value.value && t.value.rest == r.value.rest
  {
    match r
    case Err(e) => Err(e)
    case Ok(x) => Ok(Read(acc + x.value, x.rest))
  }

  /** What `decodePaletteData` returns: as many palettes as the first byte
   *  says (none for empty data), and the bytes after them. */
  function DecodedPaletteData(root: Trie, data: seq<byte>): (r: Result<PaletteData>)
    ensures r.Ok? ==> |r.value.palettes.list| == ByteAt(data, 0)
    ensures r.Ok? ==> forall i | 0 <= i < |r.value.palettes.list| :: |r.value.palettes.list[i].colors| == 8
  {
    match ReadPalettes(root, Drop(data, 1), ByteAt(data, 0))
    case Err(e) => Err(e)
    case Ok(r) => Ok(PaletteData(PaletteList(r.value), r.rest))
  }

  /** `decodePaletteData`, moving its cursor over the data palette by
   *  palette. */
  method DecodePaletteData(root: Trie, data: seq<byte>) returns (r: Result<PaletteData>)
    ensures r == DecodedPaletteData(root, data)
  {
    var count: nat := ByteAt(data, 0) as nat;
    var cursor := Drop(data, 1);
    var palettes: seq<Palette> := [];
    ghost var all := ReadPalettes(root, cursor, count);
    PrefixedEmpty(all);
    var k: nat := 0;
    while k < count
      invariant k <= count
      invariant all == Prefixed(palettes, ReadPalettes(root, cursor, count - k))
    {
      var nameData := DecodeText(root, cursor);
      ReadPalettesUnfold(root, cursor, count - k - 1);
      if nameData.Err? {
        return Err(nameData.error);
      }
      var colors := ReadSevenColors(nameData.value.remaining);
      var p := Palette(nameData.value.text, [Transparent] + colors.value);
      PrefixedStep(palettes, p, ReadPalettes(root, colors.rest, count - k - 1));
      palettes := palettes + [p];
      cursor := colors.rest;
      k := k + 1;
    }
    assert palettes + [] == palettes;
    r := Ok(PaletteData(PaletteList(palettes), cursor));
  }

  /** `ReadPalettes` on a name that decodes, and on one that does not. */
  lemma {:induction false} ReadPalettesUnfold(root: Trie, data: seq<byte>, n: nat)
    ensures DecodeText(root, data).Err? ==> ReadPalettes(root, data, n + 1) == Err(DecodeText(root, data).error)
    ensures DecodeText(root, data).Ok? ==>
      var t := DecodeText(root, data).value;
      var cs := ReadColors(t.remaining, StoredColors);
      ReadPalettes(root, data, n + 1) == Prefixed([Palette(t.text, [Transparent] + cs.value)], ReadPalettes(root, cs.rest, n))
  {
  }

  /** The inner loop of `decodePaletteData`: seven colours of two bytes each. */
  method ReadSevenColors(data: seq<byte>) returns (r: Read<seq<Color>>)
    ensures r == ReadColors(data, StoredColors)
  {
    var colors: seq<Color> := [];
    var cursor := data;
    var j := 0;
    assert [] + ReadColors(data, StoredColors).value == ReadColors(data, StoredColors).value;
    while j < StoredColors
      invariant j <= StoredColors && |colors| == j
      invariant ReadColors(data, StoredColors) == Read(colors + ReadColors(cursor, StoredColors - j).value, ReadColors(cursor, StoredColors - j).rest)
    {
      var c := DecodeColor(cursor);
      assert colors + ReadColors(cursor, StoredColors - j).value == (colors + [c.value]) + ReadColors(c.rest, StoredColors - j - 1).value;
      colors := colors + [c.value];
      cursor := c.rest;
      j := j + 1;
    }
    assert colors + [] == colors;
    r := Read(colors, cursor);
  }

  /** One colour of the inner loop: the pair of bytes' bits, three channels
   *  and the alpha bit, then the cursor two bytes on. */
  method DecodeColor(data: seq<byte>) returns (c: Read<Color>)
    ensures c == WordColor(data)
  {
    c := ReadColor(data);
    ReadColorIsWord(data);
  }

  lemma {:induction false} PrefixedEmpty(r: Result<Read<seq<Palette>>>)
    ensures Prefixed([], r) == r
  {
    if r.Ok? {
      assert [] + r.value.value == r.value.value;
    }
  }

  lemma {:induction false} PrefixedStep(acc: seq<Palette>, p: Palette, r: Result<Read<seq<Palette>>>)
    ensures Prefixed(acc, Prefixed([p], r)) == Prefixed(acc + [p], r)
  {
    if r.Ok? {
      assert acc + ([p] + r.value.value) == (acc + [p]) + r.value.value;
    }
  }

  // ---------------------------------------------------------------- round trip

  function HighColors(cs: seq<Color>): (r: seq<Color>)
    ensures |r| == |cs| && forall i | 0 <= i < |cs| :: r[i] == HighColor(cs[i])
  {
    if cs == [] then [] else [HighColor(cs[0])] + HighColors(cs[1..])
  }

  /** A palette as it comes back from the save file. */
  function Loaded(p: Palette, upper: char -> char): Palette
  {
    Palette(Upper(upper, p.name), [Transparent] + HighColors(Tail(p.colors)))
  }

  predicate ChannelsFit(c: Color) { c.r < 256 && c.g < 256 && c.b < 256 }

  /** A palette the format can carry: eight colours with channels below 256
   *  and a name every character of which has a code. */
  predicate Storable(p: Palette, codes: map<Sym, seq<bit>>, upper: char -> char)
  {
    |p.colors| == 8 && (forall i | 1 <= i < 8 :: ChannelsFit(p.colors[i])) &&
    EncodedBits(codes, upper, p.name).Ok?
  }

  lemma {:induction false} ColorsRoundTrip(cs: seq<Color>, rest: seq<byte>)
    requires forall i | 0 <= i < |cs| :: ChannelsFit(cs[i])
    ensures ReadColors(SerializeAll(ColorBlocks(cs)) + rest, |cs|) == Read(HighColors(cs), rest)
  {
    if cs != [] {
      ColorsRoundTrip(cs[1..], rest);
      ColorsStep(cs, rest);
    }
  }

  /** The step of `ColorsRoundTrip`: the first colour in front of the others. */
  lemma {:induction false} ColorsStep(cs: seq<Color>, rest: seq<byte>)
    requires cs != [] && ChannelsFit(cs[0])
    requires ReadColors(SerializeAll(ColorBlocks(cs[1..])) + rest, |cs| - 1) == Read(HighColors(cs[1..]), rest)
    ensures ReadColors(SerializeAll(ColorBlocks(cs)) + rest, |cs|) == Read(HighColors(cs), rest)
  {
    var tail := SerializeAll(ColorBlocks(cs[1..])) + rest;
    ColorBlocksSplit(cs, rest);
    ReadEncodedColor(cs[0], tail);
  }

  lemma {:induction false} ColorBlocksSplit(cs: seq<Color>, rest: seq<byte>)
    requires cs != []
    ensures SerializeAll(ColorBlocks(cs)) + rest == Serialize(cs[0].Encode()) + (SerializeAll(ColorBlocks(cs[1..])) + rest)
  {
    assert ColorBlocks(cs)[0] == cs[0].Encode() && ColorBlocks(cs)[1..] == ColorBlocks(cs[1..]);
  }

  /** A colour's word reads back as its high colour. */
  lemma {:induction false} ReadEncodedColor(c: Color, tail: seq<byte>)
    requires ChannelsFit(c)
    ensures WordColor(Serialize(c.Encode()) + tail) == Read(HighColor(c), tail)
  {
    EncodedWord(c, tail);
    LayoutFields(c, WordAt(Serialize(c.Encode()) + tail));
  }

  /** The fields of an encoded colour's word are its high colour's. */
  lemma {:induction false} EncodedFields(c: Color)
    requires ChannelsFit(c)
    ensures ColorOfWord(c.Encode().value) == HighColor(c)
  {
    EncodeLayout(c);
    LayoutFields(c, c.Encode().value);
  }

  lemma {:induction false} LayoutFields(c: Color, v: int)
    requires ChannelsFit(c) && v == c.r / 8 * 2048 + c.g / 8 * 64 + c.b / 8 * 2 + 1
    ensures ColorOfWord(v) == HighColor(c)
  {
    WordFields(c.r / 8, c.g / 8, c.b / 8, 1);
  }

  /** The two bytes of an encoded colour read back as its packed word. */
  lemma {:induction false} EncodedWord(c: Color, tail: seq<byte>)
    requires ChannelsFit(c)
    ensures WordAt(Serialize(c.Encode()) + tail) == c.r / 8 * 2048 + c.g / 8 * 64 + c.b / 8 * 2 + 1
    ensures Drop(Serialize(c.Encode()) + tail, 2) == tail
  {
    var block := c.Encode();
    EncodeLayout(c);
    assert block == ByteBlock(Uint16, block.value);
    WordRoundTrip(block.value, tail);
  }

  /** A Uint16 block's two bytes read back as its word. */
  lemma {:induction false} WordRoundTrip(v: int, tail: seq<byte>)
    requires 0 <= v < 65536
    ensures WordAt(Serialize(ByteBlock(Uint16, v)) + tail) == v
    ensures Drop(Serialize(ByteBlock(Uint16, v)) + tail, 2) == tail
  {
    var hi, lo := v / 256, v % 256;
    assert Serialize(ByteBlock(Uint16, v)) == [hi % 256, lo] by {
      assert BigEndian(v, 2) == BigEndian(hi, 1) + [lo];
      assert BigEndian(hi, 1) == BigEndian(hi / 256, 0) + [hi % 256];
    }
    DivUnique(v, 256, hi, lo);
    assert hi < 256;
    DivUnique(hi, 256, 0, hi);
  }

  /** A storable palette comes back with its name upper-cased and its
   *  colours rounded down to high colour, and the following bytes stay. */
  lemma {:induction false} PaletteRoundTrip(root: Trie, codes: map<Sym, seq<bit>>, upper: char -> char, p: Palette, rest: seq<byte>)
    requires root.Branch? && CodesWalk(root, codes) && Storable(p, codes, upper)
    ensures p.Encode(codes, upper).Ok?
    ensures ReadPalette(root, SerializeAll(p.Encode(codes, upper).value) + rest) == Ok(Read(Loaded(p, upper), rest))
  {
    var enc := PackBits(EncodedBits(codes, upper, p.name).value);
    var cs := Tail(p.colors);
    var colorBytes := SerializeAll(ColorBlocks(cs));
    EncodedPalette(p, codes, upper, rest);
    DecodeEncoded(root, codes, upper, p.name, colorBytes + rest);
    StorableColors(p, codes, upper);
    ColorsRoundTrip(cs, rest);
    ReadPaletteOf(root, enc + (colorBytes + rest), DecodedText(Upper(upper, p.name), |enc|, colorBytes + rest),
      Read(HighColors(cs), rest));
  }

  /** A palette's bytes are its name's packed code bits, then its colours. */
  lemma {:induction false} EncodedPalette(p: Palette, codes: map<Sym, seq<bit>>, upper: char -> char, rest: seq<byte>)
    requires EncodedBits(codes, upper, p.name).Ok?
    ensures p.Encode(codes, upper).Ok?
    ensures SerializeAll(p.Encode(codes, upper).value) + rest ==
      PackBits(EncodedBits(codes, upper, p.name).value) + (SerializeAll(ColorBlocks(Tail(p.colors))) + rest)
  {
  }

  /** The seven colours a storable palette saves. */
  lemma {:induction false} StorableColors(p: Palette, codes: map<Sym, seq<bit>>, upper: char -> char)
    requires Storable(p, codes, upper)
    ensures |Tail(p.colors)| == 7 && forall i | 0 <= i < 7 :: ChannelsFit(Tail(p.colors)[i])
  {
    assert forall i | 0 <= i < 7 :: Tail(p.colors)[i] == p.colors[i + 1];
  }

  /** `ReadPalette` from what its two steps read. */
  lemma {:induction false} ReadPaletteOf(root: Trie, data: seq<byte>, t: DecodedText, cs: Read<seq<Color>>)
    requires DecodeText(root, data) == Ok(t) && ReadColors(t.remaining, StoredColors) == cs
    ensures ReadPalette(root, data) == Ok(Read(Palette(t.text, [Transparent] + cs.value), cs.rest))
  {
  }

  lemma {:induction false} Associative(a: seq<byte>, b: seq<byte>, c: seq<byte>)
    ensures (a + b) + c == a + (b + c)
  {
  }

  /** Every palette as it comes back from the save file. */
  function LoadedAll(ps: seq<Palette>, upper: char -> char): (r: seq<Palette>)
    ensures |r| == |ps| && forall i | 0 <= i < |ps| :: r[i] == Loaded(ps[i], upper)
  {
    if ps == [] then [] else [Loaded(ps[0], upper)] + LoadedAll(ps[1..], upper)
  }

  lemma {:induction false} PalettesRoundTrip(root: Trie, codes: map<Sym, seq<bit>>, upper: char -> char,
                                             ps: seq<Palette>, rest: seq<byte>)
    requires root.Branch? && CodesWalk(root, codes)
    requires forall i | 0 <= i < |ps| :: Storable(ps[i], codes, upper)
    ensures EncodeAll(ps, codes, upper).Ok?
    ensures ReadPalettes(root, SerializeAll(EncodeAll(ps, codes, upper).value) + rest, |ps|) ==
      Ok(Read(LoadedAll(ps, upper), rest))
  {
    if ps != [] {
      PalettesRoundTrip(root, codes, upper, ps[1..], rest);
      PalettesStep(root, codes, upper, ps, rest);
    } else {
      assert SerializeAll([]) + rest == rest;
    }
  }

  /** The step of `PalettesRoundTrip`: the first palette in front of the
   *  others. */
  lemma {:induction false} PalettesStep(root: Trie, codes: map<Sym, seq<bit>>, upper: char -> char, ps: seq<Palette>, rest: seq<byte>)
    requires root.Branch? && CodesWalk(root, codes)
    requires ps != [] && Storable(ps[0], codes, upper) && EncodeAll(ps[1..], codes, upper).Ok?
    requires ReadPalettes(root, SerializeAll(EncodeAll(ps[1..], codes, upper).value) + rest, |ps| - 1) ==
      Ok(Read(LoadedAll(ps[1..], upper), rest))
    ensures EncodeAll(ps, codes, upper).Ok?
    ensures ReadPalettes(root, SerializeAll(EncodeAll(ps, codes, upper).value) + rest, |ps|) ==
      Ok(Read(LoadedAll(ps, upper), rest))
  {
    var tail := SerializeAll(EncodeAll(ps[1..], codes, upper).value) + rest;
    PaletteRoundTrip(root, codes, upper, ps[0], tail);
    EncodeAllSplit(ps, codes, upper, rest);
    ReadPalettesStep(root, SerializeAll(ps[0].Encode(codes, upper).value) + tail, |ps| - 1,
      Loaded(ps[0], upper), tail, LoadedAll(ps[1..], upper), rest);
  }

  /** The bytes of several palettes: the first palette's, then the others'. */
  lemma {:induction false} EncodeAllSplit(ps: seq<Palette>, codes: map<Sym, seq<bit>>, upper: char -> char, rest: seq<byte>)
    requires ps != [] && EncodeAll(ps, codes, upper).Ok?
    ensures ps[0].Encode(codes, upper).Ok? && EncodeAll(ps[1..], codes, upper).Ok?
    ensures SerializeAll(EncodeAll(ps, codes, upper).value) + rest ==
      SerializeAll(ps[0].Encode(codes, upper).value) + (SerializeAll(EncodeAll(ps[1..], codes, upper).value) + rest)
  {
    var first := ps[0].Encode(codes, upper).value;
    var others := EncodeAll(ps[1..], codes, upper).value;
    assert EncodeAll(ps, codes, upper).value == first + others;
    SerializeAllAppend(first, others);
    Associative(SerializeAll(first), SerializeAll(others), rest);
  }

  /** `ReadPalettes` from the first palette and the ones after it. */
  lemma {:induction false} ReadPalettesStep(root: Trie, data: seq<byte>, n: nat, p: Palette, tail: seq<byte>, ps: seq<Palette>, rest: seq<byte>)
    requires ReadPalette(root, data) == Ok(Read(p, tail))
    requires ReadPalettes(root, tail, n) == Ok(Read(ps, rest))
    ensures ReadPalettes(root, data, n + 1) == Ok(Read([p] + ps, rest))
  {
  }

  /** Loading a saved list of fewer than 256 storable palettes gives them
   *  back, upper-cased and rounded to high colour, followed by whatever came
   *  after the list. */
  lemma {:induction false} PaletteListRoundTrip(root: Trie, codes: map<Sym, seq<bit>>, upper: char -> char,
                             l: PaletteList, rest: seq<byte>)
    requires root.Branch? && CodesWalk(root, codes) && |l.list| < 256
    requires forall i | 0 <= i < |l.list| :: Storable(l.list[i], codes, upper)
    ensures l.Encode(codes, upper).Ok?
    ensures DecodedPaletteData(root, SerializeAll(l.Encode(codes, upper).value) + rest) ==
      Ok(PaletteData(PaletteList(LoadedAll(l.list, upper)), rest))
  {
    PalettesRoundTrip(root, codes, upper, l.list, rest);
    CountPrefix(l.list, codes, upper, rest);
  }

  /** A list's bytes are its count, then its palettes' bytes. */
  lemma {:induction false} CountPrefix(ps: seq<Palette>, codes: map<Sym, seq<bit>>, upper: char -> char, rest: seq<byte>)
    requires |ps| < 256 && EncodeAll(ps, codes, upper).Ok?
    ensures PaletteList(ps).Encode(codes, upper).Ok?
    ensures var data := SerializeAll(PaletteList(ps).Encode(codes, upper).value) + rest;
      ByteAt(data, 0) == |ps| && Drop(data, 1) == SerializeAll(EncodeAll(ps, codes, upper).value) + rest
  {
    CountBytes(|ps|, EncodeAll(ps, codes, upper).value, rest);
  }

  lemma {:induction false} CountBytes(n: byte, blocks: seq<ByteBlock>, rest: seq<byte>)
    ensures var data := SerializeAll([ByteBlock(Uint8, n)] + blocks) + rest;
      ByteAt(data, 0) == n && Drop(data, 1) == SerializeAll(blocks) + rest
  {
    var tail := SerializeAll(blocks) + rest;
    assert SerializeAll([ByteBlock(Uint8, n)] + blocks) + rest == [n] + tail by {
      SerializeAllAppend([ByteBlock(Uint8, n)], blocks);
      SerializeByte(n);
      assert SerializeAll([ByteBlock(Uint8, n)]) == [n] + SerializeAll([]);
      Associative([n], SerializeAll(blocks), rest);
    }
    assert ([n] + tail)[1..] == tail;
  }
}
