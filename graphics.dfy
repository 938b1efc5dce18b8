/** Graphics sheets (src/common/graphics.ts): 3-bit colour indices packed
 *  MSB first into bytes, and the pixel sheet of one graphics entry, which
 *  the editor changes in place. */
module Graphics {
  import opened Wrappers
  import opened Bytes

  /** Pixels per tile side (`tileSize` in src/common/constants.ts). */
  const TileSize: nat := 8

  // ---------------------------------------------------------------- colours

  /** The message of the source's colour range checks. */
  function InvalidColor(color: int): string
  {
    "Invalid color: " + IntString(color)
  }

  /** `getBitsFromColor`: the colour's three binary digits, or the source's
   *  error outside 0..7. */
  function GetBitsFromColor(color: int): (r: Result<seq<bit>>)
    ensures r.Ok? <==> 0 <= color <= 7
    ensures r.Ok? ==> |r.value| == 3 && FromBits(r.value) == color
    ensures r.Err? ==> r.error == InvalidColor(color)
  {
    if color < 0 || color > 7 then Err(InvalidColor(color))
    else
      FromBitsOfBits(color, 3);
      assert Pow2(3) == 8;
      Ok(Bits(color, 3))
  }

  /** `getColorFromBits`: the digits read in base 2; the range check fails
   *  only for more than three digits. */
  function GetColorFromBits(bits: seq<bit>): (r: Result<nat>)
    requires |bits| > 0
    ensures r.Ok? <==> FromBits(bits) <= 7
    ensures r.Ok? ==> r.value == FromBits(bits)
    ensures r.Err? ==> r.error == InvalidColor(FromBits(bits))
  {
    var color := FromBits(bits);
    if color > 7 then Err(InvalidColor(color)) else Ok(color)
  }

  /** Three digits always make a colour. */
  lemma {:induction false} ThreeBitsAreAColor(bits: seq<bit>)
    requires |bits| == 3
    ensures GetColorFromBits(bits) == Ok(FromBits(bits))
  {
    assert Pow2(3) == 8;
  }

  /** The two conversions are inverse, in both directions. */
  lemma {:induction false} ColorBitsRoundTrip(color: int, bits: seq<bit>)
    requires 0 <= color <= 7 && |bits| == 3
    ensures GetColorFromBits(GetBitsFromColor(color).value) == Ok(color)
    ensures GetBitsFromColor(GetColorFromBits(bits).value) == Ok(bits)
  {
    ThreeBitsAreAColor(bits);
    BitsOfFromBits(bits);
  }

  // ---------------------------------------------------------------- packing

  /** Every pixel is a colour index 0..7. */
  predicate AllColors(pixels: seq<int>)
  {
    forall i :: 0 <= i < |pixels| ==> 0 <= pixels[i] <= 7
  }

  /** The index of the first pixel that is not a colour. */
  function FirstInvalid(pixels: seq<int>): (k: nat)
    requires !AllColors(pixels)
    ensures k < |pixels| && !(0 <= pixels[k] <= 7) && AllColors(pixels[..k])
  {
    if !(0 <= pixels[0] <= 7) then 0
    else
      var k := FirstInvalid(pixels[1..]);
      assert pixels[..k + 1] == [pixels[0]] + pixels[1..][..k];
      1 + k
  }

  /** The three digits of every colour, in order. */
  function Digits(colors: seq<int>): (r: seq<bit>)
    ensures |r| == 3 * |colors|
  {
    if colors == [] then [] else Bits(colors[0], 3) + Digits(colors[1..])
  }

  lemma {:induction false} DigitsAppend(a: seq<int>, b: seq<int>)
    ensures Digits(a + b) == Digits(a) + Digits(b)
  {
    if a == [] {
      assert a + b == b;
    } else {
      assert (a + b)[0] == a[0] && (a + b)[1..] == a[1..] + b;
      DigitsAppend(a[1..], b);
    }
  }

  /** What `compressPixels` returns: the pixels' digits packed MSB first,
   *  or the error `getBitsFromColor` raises for the first pixel that is not
   *  a colour. */
  function CompressedPixels(pixels: seq<int>): (r: Result<seq<byte>>)
    ensures r.Ok? <==> AllColors(pixels)
    ensures r.Ok? ==> |r.value| == (3 * |pixels| + 7) / 8
  {
    if AllColors(pixels) then Ok(PackBits(Digits(pixels)))
    else Err(InvalidColor(pixels[FirstInvalid(pixels)]))
  }

  /** The final byte's unused bits are zero: the packed bytes read back as the
   *  pixels' digits followed by zeros only. */
  lemma {:induction false} CompressedPadding(pixels: seq<int>)
    requires AllColors(pixels)
    ensures var u := Unpack(CompressedPixels(pixels).value);
      |u| >= 3 * |pixels| && u[..3 * |pixels|] == Digits(pixels) &&
      forall i :: 3 * |pixels| <= i < |u| ==> u[i] == 0
  {
    PackBitsRoundTrip(Digits(pixels));
  }

  /** `compressPixels`: each pixel's three digits are pushed one by one onto
   *  a bit buffer that is flushed as a byte whenever it holds eight; a
   *  partial last byte is filled with zeros. */
  method CompressPixels(pixels: seq<int>) returns (r: Result<seq<byte>>)
    ensures r == CompressedPixels(pixels)
  {
    var bits: seq<bit> := [];
    var compressed: seq<byte> := [];
    var i := 0;
    while i < |pixels|
      invariant i <= |pixels| && |bits| < 8
      invariant AllColors(pixels[..i])
      invariant Unpack(compressed) + bits == Digits(pixels[..i])
    {
      var pixelBits := GetBitsFromColor(pixels[i]);
      if pixelBits.Err? {
        FirstInvalidAt(pixels, i);
        return Err(pixelBits.error);
      }
      ghost var before := Digits(pixels[..i]);
      compressed, bits := PushPixel(compressed, bits, pixelBits.value);
      assert Unpack(compressed) + bits == before + pixelBits.value;
      DigitsStep(pixels, i, pixelBits.value);
      i := i + 1;
    }
    assert pixels[..i] == pixels;
    if |bits| > 0 {
      var padded := bits;
      while |padded| < 8
        invariant |bits| <= |padded| <= 8
        invariant padded == bits + Zeros(|padded| - |bits|)
      {
        assert Zeros(|padded| + 1 - |bits|) == Zeros(|padded| - |bits|) + [0];
        padded := padded + [0];
      }
      FinalByte(compressed, bits, padded, Digits(pixels));
      compressed := compressed + [FromBits(padded)];
    } else {
      PackedFromUnpacked(compressed, Digits(pixels), 0);
    }
    r := Ok(compressed);
  }

  /** The body of the pixel loop: the pixel's digits pushed one at a time,
   *  the buffer flushed as a byte whenever it fills. */
  method PushPixel(compressed: seq<byte>, bits: seq<bit>, pixelBits: seq<bit>)
    returns (compressed': seq<byte>, bits': seq<bit>)
    requires |bits| < 8
    ensures |bits'| < 8
    ensures Unpack(compressed') + bits' == Unpack(compressed) + bits + pixelBits
  {
    compressed', bits' := compressed, bits;
    var j := 0;
    while j < |pixelBits|
      invariant j <= |pixelBits| && |bits'| < 8
      invariant Unpack(compressed') + bits' == Unpack(compressed) + bits + pixelBits[..j]
    {
      PushBit(Unpack(compressed'), bits', Unpack(compressed) + bits, pixelBits, j);
      bits' := bits' + [pixelBits[j]];
      if |bits'| == 8 {
        FlushByte(compressed', bits');
        compressed' := compressed' + [FromBits(bits')];
        bits' := [];
      }
      j := j + 1;
    }
    assert pixelBits[..j] == pixelBits;
  }

  /** Flushing eight buffered bits as a byte keeps the bits read off the
   *  bytes unchanged. */
  lemma {:induction false} FlushByte(compressed: seq<byte>, bits: seq<bit>)
    requires |bits| == 8
    ensures FromBits(bits) < 256
    ensures Unpack(compressed + [FromBits(bits)]) == Unpack(compressed) + bits
  {
    assert Pow2(8) == 256;
    var b: byte := FromBits(bits);
    UnpackAppend(compressed, [b]);
    BitsOfFromBits(bits);
    assert Unpack([b]) == Bits(b, 8) + Unpack([]);
  }

  /** Pushing the next digit of a pixel onto the buffer. */
  lemma {:induction false} PushBit(done: seq<bit>, bits: seq<bit>, before: seq<bit>, pixel: seq<bit>, j: nat)
    requires j < |pixel| && done + bits == before + pixel[..j]
    ensures done + (bits + [pixel[j]]) == before + pixel[..j + 1]
  {
    assert pixel[..j + 1] == pixel[..j] + [pixel[j]];
    calc {
      done + (bits + [pixel[j]]);
      (done + bits) + [pixel[j]];
      (before + pixel[..j]) + [pixel[j]];
      before + (pixel[..j] + [pixel[j]]);
    }
  }

  /** The zero-filled last byte completes the packing. */
  lemma {:induction false} FinalByte(compressed: seq<byte>, bits: seq<bit>, padded: seq<bit>, all: seq<bit>)
    requires 0 < |bits| < 8 && Unpack(compressed) + bits == all
    requires |padded| == 8 && padded == bits + Zeros(8 - |bits|)
    ensures compressed + [FromBits(padded)] == PackBits(all)
  {
    PaddedTail(compressed, bits, padded);
    var last := compressed + [FromBits(padded)];
    assert |all| % 8 == |bits| by {
      assert |all| == 8 * |compressed| + |bits|;
      DivUnique(|all|, 8, |compressed|, |bits|);
    }
    PackedFromUnpacked(last, all, |bits|);
  }

  /** The last byte holds the buffered bits and then zeros. */
  lemma {:induction false} PaddedTail(compressed: seq<byte>, bits: seq<bit>, padded: seq<bit>)
    requires |bits| < 8 && |padded| == 8 && padded == bits + Zeros(8 - |bits|)
    ensures FromBits(padded) < 256
    ensures Unpack(compressed + [FromBits(padded)]) == Unpack(compressed) + bits + Zeros(8 - |bits|)
  {
    FlushByte(compressed, padded);
    var u := Unpack(compressed);
    var z := Zeros(8 - |bits|);
    assert u + (bits + z) == (u + bits) + z;
  }

  /** One more pixel's digits. */
  lemma {:induction false} DigitsStep(pixels: seq<int>, i: nat, b: seq<bit>)
    requires i < |pixels| && AllColors(pixels[..i]) && GetBitsFromColor(pixels[i]) == Ok(b)
    ensures AllColors(pixels[..i + 1])
    ensures Digits(pixels[..i + 1]) == Digits(pixels[..i]) + b
  {
    assert pixels[..i + 1] == pixels[..i] + [pixels[i]];
    DigitsAppend(pixels[..i], [pixels[i]]);
    assert Digits([pixels[i]]) == Bits(pixels[i], 3) + Digits([]);
  }

  /** The loop stops at the first pixel that is not a colour. */
  lemma {:induction false} FirstInvalidAt(pixels: seq<int>, i: nat)
    requires i < |pixels| && AllColors(pixels[..i]) && !(0 <= pixels[i] <= 7)
    ensures !AllColors(pixels) && FirstInvalid(pixels) == i
  {
    var k := FirstInvalid(pixels);
    assert k == i;
  }

  /** Bytes whose bits are all the bits followed by the padding zeros are the
   *  bits' packing. */
  lemma {:induction false} PackedFromUnpacked(compressed: seq<byte>, all: seq<bit>, rest: nat)
    requires rest < 8
    requires rest == 0 ==> Unpack(compressed) == all
    requires rest > 0 ==> |all| % 8 == rest && Unpack(compressed) == all + Zeros(8 - rest)
    ensures compressed == PackBits(all)
  {
    ChunkUnpack(compressed);
    assert |all| % 8 == rest by {
      if rest == 0 {
        DivUnique(|all|, 8, |compressed|, 0);
      }
    }
    assert Zeros(0) == [];
    assert all + [] == all;
  }

  // ---------------------------------------------------------------- unpacking

  /** Consecutive groups of three bits read as colours. */
  function Triples(bits: seq<bit>): (r: seq<nat>)
    requires |bits| % 3 == 0
    ensures |r| == |bits| / 3
    ensures forall i :: 0 <= i < |r| ==> r[i] <= 7
  {
    if bits == [] then [] else
      assert Pow2(3) == 8;
      [FromBits(bits[..3])] + Triples(bits[3..])
  }

  /** Colours are read back from their digits. */
  lemma {:induction false} TriplesOfDigits(colors: seq<int>)
    requires AllColors(colors)
    ensures Triples(Digits(colors)) == colors
  {
    if colors != [] {
      var d := Digits(colors);
      assert d[..3] == Bits(colors[0], 3) && d[3..] == Digits(colors[1..]);
      FromBitsOfBits(colors[0], 3);
      DivUnique(colors[0], Pow2(3), 0, colors[0]);
      assert AllColors(colors[1..]);
      TriplesOfDigits(colors[1..]);
      assert colors == [colors[0]] + colors[1..];
    }
  }

  lemma {:induction false} DigitsOfTriples(bits: seq<bit>)
    requires |bits| % 3 == 0
    ensures Digits(Triples(bits)) == bits
  {
    if bits != [] {
      assert Pow2(3) == 8;
      BitsOfFromBits(bits[..3]);
      DigitsOfTriples(bits[3..]);
      assert Triples(bits)[1..] == Triples(bits[3..]);
      assert bits == bits[..3] + bits[3..];
    }
  }

  /** What `decompressPixels` returns: every three bits a colour, or the
   *  source's error when bits are left over. */
  function DecompressedPixels(bytes: seq<byte>): (r: Result<seq<nat>>)
    ensures r.Ok? <==> (8 * |bytes|) % 3 == 0
    ensures r.Ok? ==> |r.value| == 8 * |bytes| / 3 && AllColors(r.value)
    ensures r.Err? ==> r.error == "Invalid tileset data"
  {
    if (8 * |bytes|) % 3 != 0 then Err("Invalid tileset data")
    else Ok(Triples(Unpack(bytes)))
  }

  /** The colours' digits are all the bits of the bytes. */
  lemma {:induction false} DecompressedDigits(bytes: seq<byte>)
    requires DecompressedPixels(bytes).Ok?
    ensures Digits(DecompressedPixels(bytes).value) == Unpack(bytes)
  {
    DigitsOfTriples(Unpack(bytes));
  }

  /** `decompressPixels`: each byte's eight bits are appended to a buffer,
   *  from which three at a time are spliced off as a colour; bits left at the
   *  end are an error. */
  method DecompressPixels(bytes: seq<byte>) returns (r: Result<seq<nat>>)
    ensures r == DecompressedPixels(bytes)
  {
    var out: seq<nat> := [];
    var bits: seq<bit> := [];
    var i := 0;
    while i < |bytes|
      invariant i <= |bytes| && |bits| < 3
      invariant AllColors(out)
      invariant Digits(out) + bits == Unpack(bytes[..i])
    {
      var byteBits := GetBitsFromByte(bytes[i]);
      AppendByte(Digits(out), bits, bytes, i, byteBits);
      bits := bits + byteBits;
      while |bits| >= 3
        invariant AllColors(out)
        invariant Digits(out) + bits == Unpack(bytes[..i + 1])
      {
        var v := bits[..3];
        ThreeBitsAreAColor(v);
        var color := GetColorFromBits(v);
        SpliceColor(out, bits);
        out := out + [color.value];
        bits := bits[3..];
      }
      i := i + 1;
    }
    assert bytes[..i] == bytes;
    LeftOver(out, bits, bytes);
    if |bits| > 0 {
      return Err("Invalid tileset data");
    }
    r := Ok(out);
  }

  /** Appending a byte's eight bits to the buffer. */
  lemma {:induction false} AppendByte(done: seq<bit>, bits: seq<bit>, bytes: seq<byte>, i: nat, byteBits: seq<int>)
    requires i < |bytes| && done + bits == Unpack(bytes[..i])
    requires |byteBits| == 8 && forall j :: 0 <= j < 8 ==> byteBits[j] == BitOf(bytes[i], 7 - j)
    ensures byteBits == Bits(bytes[i], 8)
    ensures done + (bits + byteBits) == Unpack(bytes[..i + 1])
  {
    ByteBits(bytes[i]);
    UnpackAppend(bytes[..i], [bytes[i]]);
    assert Unpack([bytes[i]]) == Bits(bytes[i], 8) + Unpack([]);
    assert bytes[..i + 1] == bytes[..i] + [bytes[i]];
    assert done + (bits + byteBits) == (done + bits) + byteBits;
  }

  /** Bits left in the buffer at the end are exactly the case the source
   *  refuses; otherwise the colours are the triples of all the bits. */
  lemma {:induction false} LeftOver(out: seq<nat>, bits: seq<bit>, bytes: seq<byte>)
    requires |bits| < 3 && AllColors(out) && Digits(out) + bits == Unpack(bytes)
    ensures |bits| > 0 <==> DecompressedPixels(bytes).Err?
    ensures |bits| == 0 ==> DecompressedPixels(bytes) == Ok(out)
  {
    DivUnique(8 * |bytes|, 3, |out|, |bits|);
    if |bits| == 0 {
      assert Digits(out) == Unpack(bytes);
      TriplesOfDigits(out);
    }
  }

  /** Splicing three bits off the buffer as a colour keeps every bit in
   *  order. */
  lemma {:induction false} SpliceColor(out: seq<nat>, bits: seq<bit>)
    requires |bits| >= 3 && AllColors(out)
    ensures FromBits(bits[..3]) <= 7 && AllColors(out + [FromBits(bits[..3])])
    ensures Digits(out + [FromBits(bits[..3])]) + bits[3..] == Digits(out) + bits
  {
    assert Pow2(3) == 8;
    var c := FromBits(bits[..3]);
    DigitsAppend(out, [c]);
    assert Digits([c]) == Bits(c, 3) + Digits([]);
    BitsOfFromBits(bits[..3]);
    assert bits == bits[..3] + bits[3..];
  }

  /** Whole bytes' worth of pixels, such as whole tiles, come back from their
   *  packing unchanged. */
  lemma {:induction false} CompressRoundTrip(pixels: seq<int>)
    requires AllColors(pixels) && |pixels| % 8 == 0
    ensures CompressedPixels(pixels).Ok?
    ensures DecompressedPixels(CompressedPixels(pixels).value).Ok?
    ensures DecompressedPixels(CompressedPixels(pixels).value).value == pixels
  {
    var bits := Digits(pixels);
    var q := |pixels| / 8;
    assert |bits| == 8 * (3 * q) by {
      DivUnique(|pixels|, 8, q, 0);
    }
    var bytes := PackBits(bits);
    assert CompressedPixels(pixels) == Ok(bytes);
    assert Unpack(bytes) == bits by {
      DivUnique(|bits|, 8, 3 * q, 0);
      PackBitsRoundTrip(bits);
      assert Zeros(0) == [];
      assert PadToBytes(bits) == bits + [];
    }
    assert DecompressedPixels(bytes) == Ok(Triples(bits)) by {
      assert |bytes| == 3 * q;
      assert 8 * |bytes| == 3 * (8 * q);
      DivUnique(8 * |bytes|, 3, 8 * q, 0);
    }
    TriplesOfDigits(pixels);
  }

  // ---------------------------------------------------------------- sheet geometry

  /** Pixel column of a tile's left edge. */
  function TileX(tileIndex: nat, widthTiles: nat): nat
    requires widthTiles > 0
  {
    (tileIndex % widthTiles) * TileSize
  }

  /** Pixel row of a tile's top edge. */
  function TileY(tileIndex: nat, widthTiles: nat): nat
    requires widthTiles > 0
  {
    (tileIndex / widthTiles) * TileSize
  }

  /** Index k of a sheet `width` pixels wide lies in columns x0..x1-1 and
   *  rows y0..y1-1. */
  predicate InRect(k: int, width: nat, x0: int, y0: int, x1: int, y1: int)
    requires width > 0
  {
    y0 <= k / width < y1 && x0 <= k % width < x1
  }

  /** Row and column identify an index. */
  lemma {:induction false} SameCell(k: int, width: nat, row: int, col: int)
    requires 0 <= col < width
    ensures (k / width == row && k % width == col) <==> k == row * width + col
  {
    if k == row * width + col {
      DivUnique(k, width, row, col);
    }
  }

  /** A run of `n` indices from column x of a row is that row's columns
   *  x..x+n-1. */
  lemma {:induction false} RowRun(k: int, width: nat, row: int, x: nat, n: nat)
    requires 0 < n && x + n <= width
    ensures (row * width + x <= k < row * width + x + n) <==> (k / width == row && x <= k % width < x + n)
  {
    if row * width + x <= k < row * width + x + n {
      DivUnique(k, width, row, k - row * width);
    }
  }

  /** A cell inside a `width` by `height` sheet has an index inside it. */
  lemma {:induction false} CellInside(row: nat, col: nat, width: nat, height: nat)
    requires row < height && col < width
    ensures row * width + col < width * height
  {
    assert row * width + col < (row + 1) * width;
    assert (row + 1) * width <= height * width by {
      MulMono(row + 1, height, width);
    }
  }

  lemma {:induction false} MulMono(a: nat, b: nat, c: nat)
    requires a <= b
    ensures a * c <= b * c
  {
    assert b * c == a * c + (b - a) * c;
  }

  /** `Array.prototype.fill(0, start, end)`: the bounds are clamped to the
   *  array. */
  method FillZero(a: array<int>, start: int, end: int)
    modifies a
    ensures forall k :: 0 <= k < a.Length ==> a[k] == if start <= k < end then 0 else old(a[k])
  {
    var k := if start < 0 then 0 else start;
    var stop := if end > a.Length then a.Length else end;
    while k < stop
      invariant forall j :: 0 <= j < a.Length ==> a[j] == if start <= j < k && j < stop then 0 else old(a[j])
    {
      a[k] := 0;
      k := k + 1;
    }
  }

  // ---------------------------------------------------------------- entries

  /** A graphics entry as the save file holds it. */
  datatype Sheet = Sheet(widthTiles: nat, heightTiles: nat, pixels: seq<int>)

  /** `createGraphicsEntry`: the dimensions in tiles and the pixel array,
   *  which the entry shares with its creator; the pixel operations write
   *  into that array and hand back an entry over the same array, so this
   *  object stands for both. */
  class GraphicsEntry {
    const widthTiles: nat
    const heightTiles: nat
    const pixels: array<int>

    constructor (widthTiles: nat, heightTiles: nat, pixels: array<int>)
      ensures this.widthTiles == widthTiles && this.heightTiles == heightTiles && this.pixels == pixels
    {
      this.widthTiles := widthTiles;
      this.heightTiles := heightTiles;
      this.pixels := pixels;
    }

    function WidthPixels(): nat { widthTiles * TileSize }

    function HeightPixels(): nat { heightTiles * TileSize }

    /** One colour index per pixel of the sheet. */
    predicate Valid()
    {
      pixels.Length == WidthPixels() * HeightPixels()
    }

    /** Every pixel of the sheet has a slot in the array; a decoded sheet
     *  may hold more pixels than its dimensions give. */
    predicate CoversSheet()
    {
      pixels.Length >= WidthPixels() * HeightPixels()
    }

    /** Index k lies in the 8 by 8 block of the given tile. */
    predicate InTile(k: int, tileIndex: nat)
    {
      widthTiles > 0 &&
      var x, y := TileX(tileIndex, widthTiles), TileY(tileIndex, widthTiles);
      InRect(k, WidthPixels(), x, y, x + TileSize, y + TileSize)
    }

    /** `clearTile`: each of the tile's eight pixel rows is filled with 0.
     *  Without columns the tile position is NaN and nothing is filled. */
    method ClearTile(tileIndex: nat)
      modifies pixels
      ensures forall k :: 0 <= k < pixels.Length ==> pixels[k] == if InTile(k, tileIndex) then 0 else old(pixels[k])
    {
      if widthTiles == 0 {
        return;
      }
      var width := WidthPixels();
      var x, y := TileX(tileIndex, widthTiles), TileY(tileIndex, widthTiles);
      assert x + TileSize <= width by {
        MulMono(tileIndex % widthTiles + 1, widthTiles, TileSize);
      }
      var pixelY := y;
      while pixelY < y + TileSize
        invariant y <= pixelY <= y + TileSize
        invariant forall k :: 0 <= k < pixels.Length ==>
          pixels[k] == if InRect(k, width, x, y, x + TileSize, pixelY) then 0 else old(pixels[k])
      {
        var start := pixelY * width + x;
        FillZero(pixels, start, start + TileSize);
        forall k | 0 <= k < pixels.Length
          ensures pixels[k] == if InRect(k, width, x, y, x + TileSize, pixelY + 1) then 0 else old(pixels[k])
        {
          RowRun(k, width, pixelY, x, TileSize);
        }
        pixelY := pixelY + 1;
      }
    }

    /** Index k lies in the clipped rectangle `importPixels` writes. */
    predicate InImport(k: int, importWidth: nat, importHeight: nat, tileIndex: nat)
    {
      widthTiles > 0 &&
      var x, y := TileX(tileIndex, widthTiles), TileY(tileIndex, widthTiles);
      InRect(k, WidthPixels(), x, y, Min(x + importWidth, WidthPixels()), Min(y + importHeight, HeightPixels()))
    }

    /** The source pixel that lands on index k. */
    function SourceIndex(k: int, importWidth: nat, importHeight: nat, tileIndex: nat): (i: nat)
      requires InImport(k, importWidth, importHeight, tileIndex)
      ensures i < importWidth * importHeight
    {
      var x, y := TileX(tileIndex, widthTiles), TileY(tileIndex, widthTiles);
      var row, col := k / WidthPixels() - y, k % WidthPixels() - x;
      CellInside(row, col, importWidth, importHeight);
      row * importWidth + col
    }

    /** What `importPixels` leaves at index k. */
    function Imported(k: int, old_: int, src: seq<int>, importWidth: nat, importHeight: nat, tileIndex: nat): int
      requires |src| >= importWidth * importHeight
    {
      if InImport(k, importWidth, importHeight, tileIndex) && src[SourceIndex(k, importWidth, importHeight, tileIndex)] != 0
      then src[SourceIndex(k, importWidth, importHeight, tileIndex)]
      else old_
    }

    /** `importPixels`: the source image is laid over the sheet from the
     *  tile's corner, clipped to the sheet; a source 0 is transparent and
     *  keeps the pixel under it. */
    method ImportPixels(src: seq<int>, importWidth: nat, importHeight: nat, tileIndex: nat)
      requires CoversSheet() && |src| >= importWidth * importHeight
      modifies pixels
      ensures forall k :: 0 <= k < pixels.Length ==>
        pixels[k] == Imported(k, old(pixels[k]), src, importWidth, importHeight, tileIndex)
    {
      if widthTiles == 0 {
        return;
      }
      var width := WidthPixels();
      var x, y := TileX(tileIndex, widthTiles), TileY(tileIndex, widthTiles);
      var endX, endY := Min(x + importWidth, width), Min(y + importHeight, HeightPixels());
      assert x + TileSize <= width by {
        MulMono(tileIndex % widthTiles + 1, widthTiles, TileSize);
      }
      var pixelY := y;
      while pixelY < endY
        invariant y <= pixelY
        invariant pixelY <= endY || pixelY == y
        invariant forall k :: 0 <= k < pixels.Length ==> (pixels[k] ==
          if InRect(k, width, x, y, endX, pixelY) then Imported(k, old(pixels[k]), src, importWidth, importHeight, tileIndex)
          else old(pixels[k]))
      {
        var pixelX := x;
        while pixelX < endX
          invariant x <= pixelX <= endX
          invariant forall k :: 0 <= k < pixels.Length ==> (pixels[k] ==
            if InRect(k, width, x, y, endX, pixelY) || InRect(k, width, x, pixelY, pixelX, pixelY + 1)
            then Imported(k, old(pixels[k]), src, importWidth, importHeight, tileIndex)
            else old(pixels[k]))
        {
          var srcIndex := (pixelY - y) * importWidth + (pixelX - x);
          var destIndex := pixelY * width + pixelX;
          ImportCell(pixelY, pixelX, width, srcIndex, destIndex, src, importWidth, importHeight, tileIndex);
          if src[srcIndex] != 0 {
            pixels[destIndex] := src[srcIndex];
          }
          forall k | 0 <= k < pixels.Length
            ensures pixels[k] ==
              if InRect(k, width, x, y, endX, pixelY) || InRect(k, width, x, pixelY, pixelX + 1, pixelY + 1)
              then Imported(k, old(pixels[k]), src, importWidth, importHeight, tileIndex)
              else old(pixels[k])
          {
            SameCell(k, width, pixelY, pixelX);
          }
          pixelX := pixelX + 1;
        }
        forall k | 0 <= k < pixels.Length
          ensures (InRect(k, width, x, y, endX, pixelY) || InRect(k, width, x, pixelY, pixelX, pixelY + 1))
            == InRect(k, width, x, y, endX, pixelY + 1)
        {
        }
        pixelY := pixelY + 1;
      }
    }

    /** The cell at (pixelX, pixelY) of the clipped rectangle: its index in
     *  the sheet and in the source image. */
    lemma {:induction false} ImportCell(pixelY: nat, pixelX: nat, width: nat, srcIndex: int, destIndex: int,
                     src: seq<int>, importWidth: nat, importHeight: nat, tileIndex: nat)
      requires CoversSheet() && widthTiles > 0 && width == WidthPixels() && |src| >= importWidth * importHeight
      requires TileY(tileIndex, widthTiles) <= pixelY < Min(TileY(tileIndex, widthTiles) + importHeight, HeightPixels())
      requires TileX(tileIndex, widthTiles) <= pixelX < Min(TileX(tileIndex, widthTiles) + importWidth, width)
      requires srcIndex == (pixelY - TileY(tileIndex, widthTiles)) * importWidth + (pixelX - TileX(tileIndex, widthTiles))
      requires destIndex == pixelY * width + pixelX
      ensures 0 <= destIndex < pixels.Length && 0 <= srcIndex < |src|
      ensures InImport(destIndex, importWidth, importHeight, tileIndex)
      ensures SourceIndex(destIndex, importWidth, importHeight, tileIndex) == srcIndex
    {
      var x, y := TileX(tileIndex, widthTiles), TileY(tileIndex, widthTiles);
      var row, col := pixelY - y, pixelX - x;
      DivUnique(destIndex, width, pixelY, pixelX);
      CellInside(pixelY, pixelX, width, HeightPixels());
      CellInside(row, col, importWidth, importHeight);
      assert InImport(destIndex, importWidth, importHeight, tileIndex);
    }

    /** `updatePixel`: the one pixel at column x, row y takes the colour. */
    method UpdatePixel(color: int, x: int, y: int)
      requires 0 <= y * WidthPixels() + x < pixels.Length
      modifies pixels
      ensures pixels[..] == old(pixels[..])[y * WidthPixels() + x := color]
    {
      var index := y * WidthPixels() + x;
      pixels[index] := color;
    }

    /** The entry's value. */
    function Contents(): Sheet
      reads pixels
    {
      Sheet(widthTiles, heightTiles, pixels[..])
    }

    /** `encode`: width and height in tiles, then the packed pixels, each a
     *  Uint8 block. */
    function Encode(): (r: Result<seq<ByteBlock>>)
      reads pixels
      ensures r == EncodeSheet(Contents())
    {
      EncodeSheet(Contents())
    }
  }

  /** `createBlankGraphicsEntry`: an all-zero sheet of the given size. */
  method CreateBlankGraphicsEntry(widthTiles: nat, heightTiles: nat) returns (e: GraphicsEntry)
    ensures fresh(e.pixels) && e.Valid()
    ensures e.Contents() == BlankSheet(widthTiles, heightTiles)
  {
    var pixels := new int[PixelCount(widthTiles, heightTiles)](_ => 0);
    e := new GraphicsEntry(widthTiles, heightTiles, pixels);
    assert e.WidthPixels() * e.HeightPixels() == PixelCount(widthTiles, heightTiles) by {
      assert (widthTiles * 8) * (heightTiles * 8) == 64 * (widthTiles * heightTiles);
    }
  }

  /** Pixel count of a sheet, w * 8 * h * 8. */
  function PixelCount(widthTiles: nat, heightTiles: nat): nat
  {
    64 * (widthTiles * heightTiles)
  }

  function BlankSheet(widthTiles: nat, heightTiles: nat): (s: Sheet)
    ensures |s.pixels| == PixelCount(widthTiles, heightTiles) && AllColors(s.pixels)
  {
    Sheet(widthTiles, heightTiles, seq(PixelCount(widthTiles, heightTiles), _ => 0))
  }

  /** `createNewGraphics`: blocks 64 by 64 tiles, overworld 128 by 128,
   *  sprites 64 by 64, all blank. */
  function NewGraphics(): seq<Sheet>
  {
    [BlankSheet(64, 64), BlankSheet(128, 128), BlankSheet(64, 64)]
  }

  /** What an entry's `encode` returns. */
  function EncodeSheet(s: Sheet): (r: Result<seq<ByteBlock>>)
    ensures r.Ok? <==> AllColors(s.pixels)
    ensures r.Ok? ==> SerializeAll(r.value) == [s.widthTiles % 256, s.heightTiles % 256] + CompressedPixels(s.pixels).value
  {
    match CompressedPixels(s.pixels)
    case Err(e) => Err(e)
    case Ok(bytes) =>
      var head := [ByteBlock(Uint8, s.widthTiles), ByteBlock(Uint8, s.heightTiles)];
      SerializeAllAppend(head, Uint8Blocks(bytes));
      SerializeUint8Blocks(bytes);
      assert SerializeAll(head) == BigEndian(s.widthTiles, 1) + BigEndian(s.heightTiles, 1) by {
        assert head[1..] == [head[1]];
      }
      Ok(head + Uint8Blocks(bytes))
  }

  // ---------------------------------------------------------------- loading

  /** The packed size `loadGraphicsFromData` takes for a sheet:
   *  ceil(w * 8 * h * 8 * 3 / 8), which is exact. */
  function DataSize(widthTiles: nat, heightTiles: nat): nat
  {
    24 * (widthTiles * heightTiles)
  }

  /** One entry off the front of the data: two dimension bytes, then as
   *  many packed bytes as the size calls for, or fewer when the data ends
   *  (`slice` clamps). A missing dimension byte is `undefined` in the
   *  source and an error here. */
  function ReadEntry(data: seq<byte>): (r: Result<(Sheet, seq<byte>)>)
    ensures r.Ok? ==> |r.value.1| < |data|
  {
    if |data| < 2 then Err("graphics data out of range")
    else
      var width, height := data[0], data[1];
      var body := data[2..];
      var size := Min(DataSize(width, height), |body|);
      match DecompressedPixels(body[..size])
      case Err(e) => Err(e)
      case Ok(pixels) => Ok((Sheet(width, height, pixels), body[size..]))
  }

  /** The number of entries: blocks, overworld, sprites. */
  const EntryCount: nat := 3

  /** The entries read so far, then `n` more off the front of the data, and
   *  the bytes after them; the first entry that cannot be read is the
   *  result. */
  function ReadEntries(read: seq<Sheet>, data: seq<byte>, n: nat): (r: Result<(seq<Sheet>, seq<byte>)>)
    ensures r.Ok? ==> |r.value.0| == |read| + n && r.value.0[..|read|] == read
    decreases n, |data|
  {
    if n == 0 then Ok((read, data))
    else match ReadEntry(data)
      case Err(e) => Err(e)
      case Ok(first) =>
        var r := ReadEntries(read + [first.0], first.1, n - 1);
        assert r.Ok? ==> r.value.0[..|read|] == (read + [first.0])[..|read|];
        r
  }

  /** `loadGraphicsFromData`: the three entries in key order and the bytes
   *  that remain. */
  method LoadGraphicsFromData(data: seq<byte>) returns (r: Result<(seq<Sheet>, seq<byte>)>)
    ensures r == ReadEntries([], data, EntryCount)
  {
    var graphics: seq<Sheet> := [];
    var rest := data;
    var k: nat := 0;
    while k < EntryCount
      invariant k <= EntryCount
      invariant ReadEntries([], data, EntryCount) == ReadEntries(graphics, rest, EntryCount - k)
    {
      var entry := ReadGraphicsEntry(rest);
      ReadEntriesStep(graphics, rest, EntryCount - k);
      if entry.Err? {
        return Err(entry.error);
      }
      graphics := graphics + [entry.value.0];
      rest := entry.value.1;
      k := k + 1;
    }
    assert ReadEntries(graphics, rest, 0) == Ok((graphics, rest));
    r := Ok((graphics, rest));
  }

  /** The body of the loop: two dimension bytes, then the packed pixels
   *  decompressed. */
  method ReadGraphicsEntry(data: seq<byte>) returns (r: Result<(Sheet, seq<byte>)>)
    ensures r == ReadEntry(data)
  {
    if |data| < 2 {
      return Err("graphics data out of range");
    }
    var width, height := data[0], data[1];
    var body := data[2..];
    var size := Min(DataSize(width, height), |body|);
    var pixels := DecompressPixels(body[..size]);
    if pixels.Err? {
      return Err(pixels.error);
    }
    r := Ok((Sheet(width, height, pixels.value), body[size..]));
  }

  /** One entry read: its error, or the entry appended to those read. */
  lemma {:induction false} ReadEntriesStep(read: seq<Sheet>, data: seq<byte>, n: nat)
    requires n > 0
    ensures ReadEntry(data).Err? ==> ReadEntries(read, data, n) == Err(ReadEntry(data).error)
    ensures ReadEntry(data).Ok? ==>
      ReadEntries(read, data, n) == ReadEntries(read + [ReadEntry(data).value.0], ReadEntry(data).value.1, n - 1)
  {
  }


  /** A sheet the editor can store: dimensions that fit a byte, one colour
   *  index per pixel. */
  predicate Storable(s: Sheet)
  {
    s.widthTiles < 256 && s.heightTiles < 256 &&
    |s.pixels| == PixelCount(s.widthTiles, s.heightTiles) && AllColors(s.pixels)
  }

  /** A storable sheet's packed pixels: as many bytes as the loader takes,
   *  and they unpack to the pixels. */
  lemma {:induction false} StorablePacking(s: Sheet)
    requires Storable(s)
    ensures CompressedPixels(s.pixels).Ok?
    ensures |CompressedPixels(s.pixels).value| == DataSize(s.widthTiles, s.heightTiles)
    ensures DecompressedPixels(CompressedPixels(s.pixels).value) == Ok(s.pixels)
  {
    var n := s.widthTiles * s.heightTiles;
    DivUnique(|s.pixels|, 8, 8 * n, 0);
    CompressRoundTrip(s.pixels);
    DivUnique(3 * |s.pixels| + 7, 8, 24 * n, 7);
  }

  /** A storable sheet's `encode`: the two dimension bytes, then the packed
   *  pixels. */
  lemma {:induction false} StorableLayout(s: Sheet)
    requires Storable(s)
    ensures EncodeSheet(s).Ok?
    ensures SerializeAll(EncodeSheet(s).value) == [s.widthTiles as byte, s.heightTiles as byte] + CompressedPixels(s.pixels).value
  {
    DivUnique(s.widthTiles, 256, 0, s.widthTiles);
    DivUnique(s.heightTiles, 256, 0, s.heightTiles);
  }

  /** An encoded entry is read back whole, whatever follows it. */
  lemma {:induction false} ReadEncodedEntry(s: Sheet, rest: seq<byte>)
    requires Storable(s)
    ensures EncodeSheet(s).Ok?
    ensures ReadEntry(SerializeAll(EncodeSheet(s).value) + rest) == Ok((s, rest))
  {
    var bytes := CompressedPixels(s.pixels).value;
    var data := SerializeAll(EncodeSheet(s).value) + rest;
    assert data == [s.widthTiles as byte, s.heightTiles as byte] + (bytes + rest) by {
      StorableLayout(s);
    }
    assert |bytes| == DataSize(s.widthTiles, s.heightTiles) && DecompressedPixels(bytes) == Ok(s.pixels) by {
      StorablePacking(s);
    }
    ReadEntryOf(data, s.widthTiles, s.heightTiles, bytes, rest, s.pixels);
  }

  /** The entry reader on two dimension bytes and exactly the packed size. */
  lemma {:induction false} ReadEntryOf(data: seq<byte>, w: byte, h: byte, bytes: seq<byte>, rest: seq<byte>, pixels: seq<int>)
    requires data == [w, h] + (bytes + rest)
    requires |bytes| == DataSize(w, h) && DecompressedPixels(bytes) == Ok(pixels)
    ensures ReadEntry(data) == Ok((Sheet(w, h, pixels), rest))
  {
    assert data[0] == w && data[1] == h && data[2..] == bytes + rest;
    assert (bytes + rest)[..|bytes|] == bytes && (bytes + rest)[|bytes|..] == rest;
  }

  /** `loadGraphicsFromData` inverts the writer's three `encode`s. */
  lemma {:induction false} LoadGraphicsRoundTrip(blocks: Sheet, overworld: Sheet, sprites: Sheet, rest: seq<byte>)
    requires Storable(blocks) && Storable(overworld) && Storable(sprites)
    ensures EncodeSheet(blocks).Ok? && EncodeSheet(overworld).Ok? && EncodeSheet(sprites).Ok?
    ensures ReadEntries([], SerializeAll(EncodeSheet(blocks).value) + SerializeAll(EncodeSheet(overworld).value)
                        + SerializeAll(EncodeSheet(sprites).value) + rest, EntryCount)
            == Ok(([blocks, overworld, sprites], rest))
  {
    var a, b, c := SerializeAll(EncodeSheet(blocks).value), SerializeAll(EncodeSheet(overworld).value),
                   SerializeAll(EncodeSheet(sprites).value);
    ReadEncodedEntry(sprites, rest);
    ReadEncodedEntry(overworld, c + rest);
    ReadEncodedEntry(blocks, b + (c + rest));
    ThreeEntries(a, b, c, rest, blocks, overworld, sprites);
    Regroup(a, b, c, rest);
  }

  /** Three entries read back to back, whatever bytes they were packed into. */
  lemma {:induction false} ThreeEntries(a: seq<byte>, b: seq<byte>, c: seq<byte>, rest: seq<byte>, x: Sheet, y: Sheet, z: Sheet)
    requires ReadEntry(a + (b + (c + rest))) == Ok((x, b + (c + rest)))
    requires ReadEntry(b + (c + rest)) == Ok((y, c + rest))
    requires ReadEntry(c + rest) == Ok((z, rest))
    ensures ReadEntries([], a + (b + (c + rest)), 3) == Ok(([x, y, z], rest))
  {
    ReadEntriesStep([], a + (b + (c + rest)), 3);
    assert [] + [x] == [x];
    ReadEntriesStep([x], b + (c + rest), 2);
    assert [x] + [y] == [x, y];
    ReadEntriesStep([x, y], c + rest, 1);
    assert [x, y] + [z] == [x, y, z];
  }

  lemma {:induction false} Regroup<T>(a: seq<T>, b: seq<T>, c: seq<T>, d: seq<T>)
    ensures a + b + c + d == a + (b + (c + d))
  {
  }

  function Min(a: int, b: int): int { if a <= b then a else b }
}
