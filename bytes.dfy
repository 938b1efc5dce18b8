/** Bits, bytes and data-type sizes (src/common/bytes.ts), together with the
 *  MSB-first bit packing and big-endian block layout that every codec of the
 *  editor shares. */
module Bytes {
  import opened Wrappers

  type byte = x: int | 0 <= x < 256
  type bit = b: int | 0 <= b < 2

  function Pow2(n: nat): (r: nat)
    ensures r >= 1
  {
    if n == 0 then 1 else 2 * Pow2(n - 1)
  }

  /** Bit k of n in two's complement, by halving k times: Euclidean
   *  division floors, so this is also right for negative n. */
  function BitOf(n: int, k: nat): bit
    decreases k
  {
    if k == 0 then n % 2 else BitOf(n / 2, k - 1)
  }

  /** The w low bits of n, most significant first. */
  function Bits(n: int, w: nat): (r: seq<bit>)
    ensures |r| == w
    decreases w, n  // n keeps a call with a constant width from being unrolled
  {
    if w == 0 then [] else Bits(n / 2, w - 1) + [n % 2]
  }

  /** The value of a bit string read most significant bit first. */
  function FromBits(b: seq<bit>): (r: nat)
    ensures r < Pow2(|b|)
  {
    if b == [] then 0 else 2 * FromBits(b[..|b| - 1]) + b[|b| - 1]
  }

  function Zeros(n: nat): (r: seq<bit>)
    ensures |r| == n && forall i :: 0 <= i < n ==> r[i] == 0
  {
    if n == 0 then [] else Zeros(n - 1) + [0]
  }

  // ---------------------------------------------------------------- arithmetic

  lemma {:induction false} MulAtLeast(d: nat, k: int)
    requires k >= 1
    ensures d * k >= d
  {
    var j := k - 1;
    assert d * k == d * j + d;
  }

  /** Euclidean quotient and remainder are determined by their defining
   *  equation. */
  lemma {:induction false} DivUnique(n: int, d: nat, q: int, r: int)
    requires d > 0 && n == d * q + r && 0 <= r < d
    ensures n / d == q && n % d == r
  {
    var q0, r0 := n / d, n % d;
    assert n == d * q0 + r0;
    assert d * (q - q0) == r0 - r;
    if q > q0 {
      MulAtLeast(d, q - q0);
      assert false;
    } else if q < q0 {
      MulAtLeast(d, q0 - q);
      assert false;
    }
  }

  lemma {:induction false} DivDiv(n: int, a: nat, b: nat)
    requires a > 0 && b > 0
    ensures n / a / b == n / (a * b)
  {
    var q, r := n / (a * b), n % (a * b);
    var r1, r2 := r % a, r / a;
    if r2 >= b {
      MulAtLeast(a, r2 - b + 1);
      assert false;
    }
    assert n == a * (b * q + r2) + r1;
    DivUnique(n, a, b * q + r2, r1);
    DivUnique(b * q + r2, b, q, r2);
  }

  lemma {:induction false} ModSplit(n: int, p: nat)
    requires p > 0
    ensures n % (2 * p) == ((n / p) % 2) * p + n % p
  {
    var q, r := n / p, n % p;
    var q2, b := q / 2, q % 2;
    assert n == (2 * p) * q2 + (b * p + r);
    assert 0 <= b * p + r < 2 * p;
    DivUnique(n, 2 * p, q2, b * p + r);
  }

  lemma {:induction false} Pow2Add(a: nat, b: nat)
    ensures Pow2(a + b) == Pow2(a) * Pow2(b)
  {
    if a > 0 {
      Pow2Add(a - 1, b);
    }
  }

  // ---------------------------------------------------------------- bit strings

  lemma {:induction false} BitsAt(n: int, w: nat, i: nat)
    requires i < w
    decreases w
    ensures Bits(n, w)[i] == BitOf(n, w - 1 - i)
  {
    if i == w - 1 {
      assert Bits(n, w)[i] == n % 2;
    } else {
      BitsAt(n / 2, w - 1, i);
    }
  }

  /** Bit k is the parity of n divided by 2^k. */
  lemma {:induction false} BitOfPow2(n: int, k: nat)
    ensures BitOf(n, k) == (n / Pow2(k)) % 2
    decreases k
  {
    if k > 0 {
      BitOfPow2(n / 2, k - 1);
      DivDiv(n, 2, Pow2(k - 1));
    }
  }

  /** Dropping the last digit in base `d` and putting it back, modulo d * p. */
  lemma {:induction false} DigitMod(n: int, d: nat, p: nat)
    requires d > 0 && p > 0
    ensures d * ((n / d) % p) + n % d == n % (d * p)
  {
    var m, lo := n / d, n % d;
    var q, s := m / p, m % p;
    assert m == p * q + s;
    assert d * (p * q) == (d * p) * q;
    assert n == (d * p) * q + (d * s + lo);
    assert d * s + lo < d * p by {
      assert d * s <= d * (p - 1);
    }
    DivUnique(n, d * p, q, d * s + lo);
  }

  lemma {:induction false} FromBitsOfBits(n: int, w: nat)
    ensures FromBits(Bits(n, w)) == n % Pow2(w)
    decreases w
  {
    if w > 0 {
      var b := Bits(n, w);
      assert b[..w - 1] == Bits(n / 2, w - 1) && b[w - 1] == n % 2;
      FromBitsOfBits(n / 2, w - 1);
      assert FromBits(b) == 2 * ((n / 2) % Pow2(w - 1)) + n % 2;
      DigitMod(n, 2, Pow2(w - 1));
    }
  }

  lemma {:induction false} BitsOfFromBits(b: seq<bit>)
    ensures Bits(FromBits(b), |b|) == b
  {
    if b != [] {
      var f := FromBits(b);
      var init := b[..|b| - 1];
      assert f / 2 == FromBits(init) && f % 2 == b[|b| - 1];
      BitsOfFromBits(init);
      assert b == init + [b[|b| - 1]];
    }
  }

  /** A byte's eight bits recombine to it. */
  /** A bit string read as a number: the high part shifted past the low. */
  lemma {:induction false} FromBitsAppend(a: seq<bit>, b: seq<bit>)
    ensures FromBits(a + b) == FromBits(a) * Pow2(|b|) + FromBits(b)
    decreases |b|
  {
    if b == [] {
      assert a + b == a;
    } else {
      var init := b[..|b| - 1];
      var last := b[|b| - 1];
      assert (a + b)[..|a + b| - 1] == a + init && (a + b)[|a + b| - 1] == last;
      FromBitsAppend(a, init);
      var x, p := FromBits(a), Pow2(|init|);
      calc {
        FromBits(a + b);
        2 * FromBits(a + init) + last;
        2 * (x * p + FromBits(init)) + last;
        { Double(x, p); }
        x * (2 * p) + (2 * FromBits(init) + last);
      }
    }
  }

  lemma {:induction false} Double(x: int, p: int)
    ensures 2 * (x * p) == x * (2 * p)
  {
  }

  /** The number of binary digits of n, none for zero. */
  function BitLength(n: nat): (k: nat)
    ensures n < Pow2(k)
  {
    if n == 0 then 0 else 1 + BitLength(n / 2)
  }

  lemma {:induction false} Pow2Mono(a: nat, b: nat)
    requires a <= b
    ensures Pow2(a) <= Pow2(b)
    decreases b
  {
    if a < b {
      Pow2Mono(a, b - 1);
    }
  }

  /** A number below 2^k has at most k binary digits. */
  lemma {:induction false} BitLengthBelow(n: nat, k: nat)
    requires n < Pow2(k)
    ensures BitLength(n) <= k
    decreases k
  {
    if n > 0 {
      BitLengthBelow(n / 2, k - 1);
    }
  }

  /** The first k of w digits are the digits of n with the rest shifted out. */
  lemma {:induction false} BitsPrefix(n: int, w: nat, k: nat)
    requires k <= w
    ensures Bits(n, w)[..k] == Bits(n / Pow2(w - k), k)
    decreases w
  {
    if k == w {
      assert Bits(n, w)[..k] == Bits(n, w);
    } else {
      assert Bits(n, w)[..k] == Bits(n / 2, w - 1)[..k];
      BitsPrefix(n / 2, w - 1, k);
      DivDiv(n, 2, Pow2(w - 1 - k));
    }
  }

  /** The last k of w digits are the k low digits of n. */
  lemma {:induction false} BitsSuffix(n: int, w: nat, k: nat)
    requires k <= w
    ensures Bits(n, w)[w - k..] == Bits(n, k)
    decreases w
  {
    if k == 0 {
      assert Bits(n, w)[w..] == [];
    } else if k < w {
      BitsSuffix(n / 2, w - 1, k - 1);
      assert Bits(n, w)[w - k..] == Bits(n / 2, w - 1)[w - k..] + [n % 2];
    }
  }

  /** Digits i to j of a w-digit string, read as a number. */
  lemma {:induction false} BitsSlice(n: int, w: nat, i: nat, j: nat)
    requires i <= j <= w
    ensures FromBits(Bits(n, w)[i..j]) == (n / Pow2(w - j)) % Pow2(j - i)
  {
    BitsPrefix(n, w, j);
    BitsSuffix(n / Pow2(w - j), j, j - i);
    assert Bits(n, w)[i..j] == Bits(n, w)[..j][i..];
    FromBitsOfBits(n / Pow2(w - j), j - i);
  }

  lemma {:induction false} Shift(x: int, y: int, p: int, q: int)
    requires x == y && p == q
    ensures x * p == q * y
  {
  }

  /** Two bytes' digits side by side read as their big-endian word. */
  lemma {:induction false} WordValue(hi: int, lo: int)
    requires 0 <= hi < 256 && 0 <= lo < 256
    ensures FromBits(Bits(hi, 8) + Bits(lo, 8)) == 256 * hi + lo
  {
    var h, l := Bits(hi, 8), Bits(lo, 8);
    FromBitsAppend(h, l);
    ByteRecombines(hi);
    ByteRecombines(lo);
    assert Pow2(|l|) == 256;
    Shift(FromBits(h), hi, Pow2(|l|), 256);
  }

  /** Digits i to j of any bit string, read as a number. */
  lemma {:induction false} SliceValue(b: seq<bit>, i: nat, j: nat)
    requires i <= j <= |b|
    ensures FromBits(b[i..j]) == (FromBits(b) / Pow2(|b| - j)) % Pow2(j - i)
  {
    BitsOfFromBits(b);
    BitsSlice(FromBits(b), |b|, i, j);
  }

  lemma {:induction false} ByteRecombines(n: int)
    requires 0 <= n < 256
    ensures FromBits(Bits(n, 8)) == n
  {
    FromBitsOfBits(n, 8);
    var p := Pow2(8);
    assert p == 256;
    DivUnique(n, p, 0, n);
  }

  /** The eight bits of a byte, one `BitOf` each. */
  lemma {:induction false} ByteBits(n: int)
    ensures forall j :: 0 <= j < 8 ==> Bits(n, 8)[j] == BitOf(n, 7 - j)
  {
    forall j | 0 <= j < 8
      ensures Bits(n, 8)[j] == BitOf(n, 7 - j)
    {
      BitsAt(n, 8, j);
    }
  }

  /** `getBitFromNumber(n, b)`: `(n & (1 << b)) >> b` on JavaScript 32-bit
   *  integers. The shift count is taken modulo 32; for a count of 31 the
   *  mask is the sign bit and the arithmetic shift yields -1 instead of 1. */
  function GetBitFromNumber(n: int, b: int): (r: int)
    ensures b % 32 != 31 ==> r == 0 || r == 1
    ensures b % 32 == 31 ==> r == 0 || r == -1
  {
    var s := b % 32;
    if s == 31 then -(BitOf(n, 31) as int) else BitOf(n, s)
  }

  /** For shift counts 0..30 the result is a bit, and it is exactly the bit
   *  that separates `n mod 2^(b+1)` from `n mod 2^b`. */
  lemma {:induction false} BitFromNumberIsBit(n: int, b: int)
    requires 0 <= b < 31
    ensures GetBitFromNumber(n, b) == 0 || GetBitFromNumber(n, b) == 1
    ensures n % Pow2(b + 1) == GetBitFromNumber(n, b) * Pow2(b) + n % Pow2(b)
  {
    ModSplit(n, Pow2(b));
    BitOfPow2(n, b);
  }

  /** `getBitsFromByte`: eight bits, most significant first. */
  method GetBitsFromByte(n: int) returns (bits: seq<int>)
    ensures |bits| == 8 && forall j :: 0 <= j < 8 ==> bits[j] == BitOf(n, 7 - j)
  {
    bits := [];
    var i := 7;
    while i >= 0
      invariant -1 <= i <= 7
      invariant |bits| == 7 - i
      invariant forall j :: 0 <= j < |bits| ==> bits[j] == BitOf(n, 7 - j)
    {
      bits := bits + [GetBitFromNumber(n, i)];
      i := i - 1;
    }
  }

  // ---------------------------------------------------------------- packing

  /** Zero-padding a bit list up to a whole number of bytes. */
  function PadToBytes(b: seq<bit>): (r: seq<bit>)
    ensures |r| % 8 == 0 && |b| <= |r| < |b| + 8
    ensures r[..|b|] == b
    ensures forall i :: |b| <= i < |r| ==> r[i] == 0
  {
    b + Zeros((8 - |b| % 8) % 8)
  }

  /** Groups of eight bits, each read MSB first. */
  function Chunk(b: seq<bit>): (r: seq<byte>)
    requires |b| % 8 == 0
    ensures |r| == |b| / 8
  {
    if b == [] then [] else
      assert Pow2(8) == 256;
      [FromBits(b[..8])] + Chunk(b[8..])
  }

  /** The first byte of a non-empty chunking is its first eight bits. */
  lemma {:induction false} ChunkFront(b: seq<bit>)
    requires |b| % 8 == 0 && b != []
    ensures |b| >= 8 && |b[8..]| % 8 == 0
    ensures Chunk(b) == [Chunk(b)[0]] + Chunk(b[8..]) && Chunk(b)[0] == FromBits(b[..8])
  {
  }

  /** The pad-then-chunk packing of the encoders. */
  function PackBits(b: seq<bit>): (r: seq<byte>)
    ensures |r| == (|b| + 7) / 8
  {
    Chunk(PadToBytes(b))
  }

  /** All bits of a byte string, MSB first. */
  function Unpack(bs: seq<byte>): (r: seq<bit>)
    ensures |r| == 8 * |bs|
  {
    if bs == [] then [] else Bits(bs[0], 8) + Unpack(bs[1..])
  }

  lemma {:induction false} UnpackAppend(a: seq<byte>, b: seq<byte>)
    ensures Unpack(a + b) == Unpack(a) + Unpack(b)
  {
    if a == [] {
      assert a + b == b;
    } else {
      assert (a + b)[0] == a[0] && (a + b)[1..] == a[1..] + b;
      UnpackAppend(a[1..], b);
    }
  }

  /** A slice that lies in the second part of a concatenation. */
  lemma {:induction false} SliceOfAppend<T>(a: seq<T>, b: seq<T>, lo: nat, hi: nat)
    requires |a| <= lo <= hi <= |a| + |b|
    ensures (a + b)[lo..hi] == b[lo - |a|..hi - |a|]
  {
    var l, r := (a + b)[lo..hi], b[lo - |a|..hi - |a|];
    forall j | 0 <= j < |l|
      ensures l[j] == r[j]
    {
      assert l[j] == (a + b)[lo + j];
    }
  }

  /** Byte i of a string occupies bits 8i .. 8i+7 of its unpacking. */
  lemma {:induction false} UnpackAt(bs: seq<byte>, i: nat)
    requires i < |bs|
    ensures Unpack(bs)[8 * i..8 * i + 8] == Bits(bs[i], 8)
  {
    var head, tail := Bits(bs[0], 8), Unpack(bs[1..]);
    assert Unpack(bs) == head + tail;
    if i == 0 {
      assert (head + tail)[..8] == head;
    } else {
      SliceOfAppend(head, tail, 8 * i, 8 * i + 8);
      UnpackAt(bs[1..], i - 1);
    }
  }

  /** A non-empty slice starts with its first element and goes on with the
   *  slice one further along. */
  lemma {:induction false} SliceFront<T>(s: seq<T>, lo: nat, hi: nat)
    requires lo < hi <= |s|
    ensures s[lo..hi][0] == s[lo] && s[lo..hi][1..] == s[lo + 1..hi]
  {
  }

  lemma {:induction false} PrefixOfAppend<T>(a: seq<T>, b: seq<T>, p: seq<T>)
    requires |p| <= |a| && a[..|p|] == p
    ensures |p| <= |a + b| && (a + b)[..|p|] == p
  {
    assert (a + b)[..|p|] == a[..|p|];
  }

  /** The bits of a byte string read straight off its bytes, as a C loop
   *  that shifts each byte does: bit `j` is bit `7 - j % 8` of byte `j / 8`. */
  function BitView(bs: seq<byte>): (r: seq<bit>)
    ensures |r| == 8 * |bs|
  {
    seq(8 * |bs|, j requires 0 <= j < 8 * |bs| => BitOf(bs[j / 8], 7 - j % 8))
  }

  lemma {:induction false} BitViewAt(bs: seq<byte>, j: nat)
    requires j < 8 * |bs|
    ensures BitView(bs)[j] == BitOf(bs[j / 8], 7 - j % 8)
  {
  }

  /** Byte `q` of a chunked bit string is the value of its `q`-th group of
   *  eight bits. */
  lemma {:induction false} ChunkAt(b: seq<bit>, q: nat)
    requires |b| % 8 == 0 && 8 * q + 8 <= |b|
    ensures q < |Chunk(b)| && Chunk(b)[q] == FromBits(b[8 * q..8 * q + 8])
  {
    DivUnique(|b|, 8, |b| / 8, 0);
    if q > 0 {
      var tail := b[8..];
      DivUnique(|tail|, 8, |b| / 8 - 1, 0);
      ChunkAt(tail, q - 1);
      assert tail[8 * (q - 1)..8 * (q - 1) + 8] == b[8 * q..8 * q + 8];
    } else {
      assert b[0..8] == b[..8];
    }
  }

  /** Bit `7 - r` of the value of eight bits is the bit at `r`. */
  lemma {:induction false} FromBitsBit(b: seq<bit>, r: nat)
    requires |b| == 8 && r < 8
    ensures BitOf(FromBits(b), 7 - r) == b[r]
  {
    BitsOfFromBits(b);
    BitsAt(FromBits(b), 8, r);
  }

  /** Bit `j` of `n` bits, `n` a multiple of 8, lies in byte `j / 8`. */
  lemma {:induction false} ByteOfBit(j: nat, n: nat)
    requires j < n && n % 8 == 0
    ensures j == 8 * (j / 8) + j % 8 && 8 * (j / 8) + 8 <= n
  {
    var q, big := j / 8, n / 8;
    assert n == 8 * big && j == 8 * q + j % 8;
  }

  /** Reading the bits off packed bytes, whatever follows them, gives back
   *  the bits that were packed. */
  lemma {:induction false} PackedBit(m: seq<bit>, rest: seq<byte>, j: nat)
    requires j < |m|
    ensures j < 8 * |PackBits(m) + rest| && BitView(PackBits(m) + rest)[j] == m[j]
  {
    var padded, enc := PadToBytes(m), PackBits(m);
    var q, r := j / 8, j % 8;
    ByteOfBit(j, |padded|);
    ChunkAt(padded, q);
    FromBitsBit(padded[8 * q..8 * q + 8], r);
    assert padded[8 * q..8 * q + 8][r] == padded[j] == padded[..|m|][j];
    assert (enc + rest)[q] == enc[q];
    BitViewAt(enc + rest, j);
  }

  lemma {:induction false} UnpackChunk(b: seq<bit>)
    requires |b| % 8 == 0
    ensures Unpack(Chunk(b)) == b
  {
    if b != [] {
      BitsOfFromBits(b[..8]);
      UnpackChunk(b[8..]);
      assert Chunk(b)[1..] == Chunk(b[8..]);
      assert b == b[..8] + b[8..];
    }
  }

  lemma {:induction false} ChunkUnpack(bs: seq<byte>)
    ensures Chunk(Unpack(bs)) == bs
  {
    if bs != [] {
      var u := Unpack(bs);
      assert u[..8] == Bits(bs[0], 8) && u[8..] == Unpack(bs[1..]);
      ByteRecombines(bs[0]);
      ChunkUnpack(bs[1..]);
      assert bs == [bs[0]] + bs[1..];
    }
  }

  /** Unpacking the packed bits gives them back followed by the padding. */
  lemma {:induction false} PackBitsRoundTrip(b: seq<bit>)
    ensures Unpack(PackBits(b)) == PadToBytes(b)
    ensures Unpack(PackBits(b))[..|b|] == b
  {
    UnpackChunk(PadToBytes(b));
  }

  // ---------------------------------------------------------------- data types

  predicate IsLetter(c: char) { 'a' <= c <= 'z' || 'A' <= c <= 'Z' }
  predicate IsDigit(c: char) { '0' <= c <= '9' }

  /** `t` matches `^[a-zA-Z]+([0-9]+)$` with the letters ending at k. */
  predicate TypeNameSplit(t: string, k: int)
  {
    0 < k < |t| &&
    (forall i :: 0 <= i < k ==> IsLetter(t[i])) &&
    (forall i :: k <= i < |t| ==> IsDigit(t[i]))
  }

  function LeadingLetters(t: string): (k: nat)
    ensures k <= |t|
    ensures forall i :: 0 <= i < k ==> IsLetter(t[i])
    ensures k < |t| ==> !IsLetter(t[k])
  {
    if t == [] || !IsLetter(t[0]) then 0 else 1 + LeadingLetters(t[1..])
  }

  /** `parseInt(s)` of a string of decimal digits. */
  function Decimal(s: string): nat
    requires forall i :: 0 <= i < |s| ==> IsDigit(s[i])
  {
    if s == [] then 0 else
      assert IsDigit(s[|s| - 1]);
      10 * Decimal(s[..|s| - 1]) + (s[|s| - 1] as int - '0' as int)
  }

  /** A number's decimal digits, as JavaScript's `String(n)` writes them. */
  function DecimalString(n: nat): (s: string)
    ensures |s| >= 1 && forall i :: 0 <= i < |s| ==> IsDigit(s[i])
  {
    var d := ['0' + (n % 10) as char];
    if n < 10 then d else DecimalString(n / 10) + d
  }

  /** JavaScript's `${n}` of an integer. */
  function IntString(n: int): string
  {
    if n < 0 then "-" + DecimalString(-n) else DecimalString(n)
  }

  /** Reading back the digits gives the number. */
  lemma {:induction false} DecimalRoundTrip(n: nat)
    ensures Decimal(DecimalString(n)) == n
  {
    var s := DecimalString(n);
    if n >= 10 {
      DecimalRoundTrip(n / 10);
      assert s[..|s| - 1] == DecimalString(n / 10);
    }
  }

  lemma {:induction false} SplitIsLeadingLetters(t: string, k: int)
    requires TypeNameSplit(t, k)
    ensures LeadingLetters(t) == k
  {
    assert IsLetter(t[0]);
    if k == 1 {
      assert IsDigit(t[1..][0]);
    } else {
      assert TypeNameSplit(t[1..], k - 1);
      SplitIsLeadingLetters(t[1..], k - 1);
    }
  }

  /** `getDataTypeSize`: the trailing bit width divided by 8, as a JavaScript
   *  number (so "Uint12" gives 1.5); a name without that shape throws. */
  function GetDataTypeSize(t: string): (r: Result<real>)
    ensures r.Ok? <==> exists k :: TypeNameSplit(t, k)
    ensures forall k :: TypeNameSplit(t, k) ==> r == Ok(Decimal(t[k..]) as real / 8.0)
    ensures r.Err? ==> r.error == "Invalid data type: " + t
  {
    var k := LeadingLetters(t);
    assert forall j :: TypeNameSplit(t, j) ==> j == k by {
      forall j | TypeNameSplit(t, j)
        ensures j == k
      {
        SplitIsLeadingLetters(t, j);
      }
    }
    if TypeNameSplit(t, k) then Ok(Decimal(t[k..]) as real / 8.0)
    else Err("Invalid data type: " + t)
  }

  /** The field types the editor writes. */
  datatype DataType = Uint8 | Uint16 | Uint32 | Int8 | Int16 | Float32

  /** An `exportData` entry: a field a writer stores, its type and its key. */
  datatype ExportField = ExportField(kind: DataType, key: string)

  function TypeName(d: DataType): string
  {
    match d
    case Uint8 => "Uint8"
    case Uint16 => "Uint16"
    case Uint32 => "Uint32"
    case Int8 => "Int8"
    case Int16 => "Int16"
    case Float32 => "Float32"
  }

  function Size(d: DataType): nat
  {
    match d
    case Uint8 => 1
    case Int8 => 1
    case Uint16 => 2
    case Int16 => 2
    case Uint32 => 4
    case Float32 => 4
  }

  /** Every field type's size is what `getDataTypeSize` computes from its
   *  name. */
  lemma {:induction false} SizeFromSplit(t: string, k: nat, w: nat)
    requires TypeNameSplit(t, k) && Decimal(t[k..]) == w
    ensures GetDataTypeSize(t) == Ok(w as real / 8.0)
  {
  }

  lemma {:induction false} DigitsValue()
    ensures Decimal(['8']) == 8 && Decimal(['1', '6']) == 16 && Decimal(['3', '2']) == 32
  {
    assert ['8'][..0] == [] && ['1'][..0] == [] && ['3'][..0] == [];
    assert ['1', '6'][..1] == ['1'] && ['3', '2'][..1] == ['3'];
    assert Decimal(['1']) == 1 && Decimal(['3']) == 3;
  }

  lemma {:induction false} DataTypeSizes(d: DataType)
    ensures GetDataTypeSize(TypeName(d)) == Ok(Size(d) as real)
  {
    DigitsValue();
    var t := TypeName(d);
    var k := if d.Int8? || d.Int16? then 3 else if d.Float32? then 5 else 4;
    assert TypeNameSplit(t, k);
    if d.Uint8? || d.Int8? {
      assert t[k..] == ['8'];
    } else if d.Uint16? || d.Int16? {
      assert t[k..] == ['1', '6'];
    } else {
      assert t[k..] == ['3', '2'];
    }
    SizeFromSplit(t, k, 8 * Size(d));
  }

  /** A name without trailing digits is refused. */
  lemma {:induction false} NoDigitsThrows(t: string)
    requires t == [] || !IsDigit(t[|t| - 1])
    ensures GetDataTypeSize(t).Err?
  {
  }

  // ---------------------------------------------------------------- blocks

  function Pow256(n: nat): (r: nat)
    ensures r >= 1
  {
    if n == 0 then 1 else 256 * Pow256(n - 1)
  }

  /** n bytes big-endian of v modulo 256^n: DataView's `setUintN`/`setIntN`
   *  write exactly these bytes for an integral value. */
  function BigEndian(v: int, n: nat): (r: seq<byte>)
    ensures |r| == n
    decreases n
  {
    if n == 0 then [] else BigEndian(v / 256, n - 1) + [v % 256]
  }

  function FromBigEndian(bs: seq<byte>): (r: nat)
    ensures r < Pow256(|bs|)
  {
    if bs == [] then 0 else 256 * FromBigEndian(bs[..|bs| - 1]) + bs[|bs| - 1]
  }

  lemma {:induction false} BigEndianRoundTrip(v: int, n: nat)
    ensures FromBigEndian(BigEndian(v, n)) == v % Pow256(n)
    decreases n
  {
    if n > 0 {
      var b := BigEndian(v, n);
      assert b[..n - 1] == BigEndian(v / 256, n - 1) && b[n - 1] == v % 256;
      BigEndianRoundTrip(v / 256, n - 1);
      assert FromBigEndian(b) == 256 * ((v / 256) % Pow256(n - 1)) + v % 256;
      DigitMod(v, 256, Pow256(n - 1));
    }
  }

  /** Two bytes read big-endian. */
  lemma {:induction false} WordOfBytes(bs: seq<byte>)
    requires |bs| == 2
    ensures FromBigEndian(bs) == 256 * (bs[0] as int) + bs[1] as int
  {
    assert bs[..1][..0] == [];
  }

  lemma {:induction false} BigEndianOfFromBigEndian(bs: seq<byte>)
    ensures BigEndian(FromBigEndian(bs), |bs|) == bs
  {
    if bs != [] {
      var n := |bs|;
      var init, last := bs[..n - 1], bs[n - 1];
      var v := FromBigEndian(bs);
      DivUnique(v, 256, FromBigEndian(init), last);
      BigEndianOfFromBigEndian(init);
      assert BigEndian(v, n) == BigEndian(FromBigEndian(init), n - 1) + [last];
      assert bs == init + [last];
    }
  }

  /** `ByteBlock`: a typed value the save-file writer serialises. A Float32
   *  block carries its 32-bit pattern, never an IEEE value. */
  datatype ByteBlock = ByteBlock(kind: DataType, value: int)

  function Serialize(b: ByteBlock): (r: seq<byte>)
    ensures |r| == Size(b.kind)
  {
    BigEndian(b.value, Size(b.kind))
  }

  function SerializeAll(bs: seq<ByteBlock>): seq<byte>
  {
    if bs == [] then [] else Serialize(bs[0]) + SerializeAll(bs[1..])
  }

  function TotalSize(bs: seq<ByteBlock>): nat
  {
    if bs == [] then 0 else Size(bs[0].kind) + TotalSize(bs[1..])
  }

  lemma {:induction false} SerializeAllLength(bs: seq<ByteBlock>)
    ensures |SerializeAll(bs)| == TotalSize(bs)
  {
    if bs != [] {
      SerializeAllLength(bs[1..]);
    }
  }

  lemma {:induction false} SerializeAllAppend(a: seq<ByteBlock>, b: seq<ByteBlock>)
    ensures SerializeAll(a + b) == SerializeAll(a) + SerializeAll(b)
  {
    if a == [] {
      assert a + b == b;
    } else {
      assert (a + b)[0] == a[0] && (a + b)[1..] == a[1..] + b;
      SerializeAllAppend(a[1..], b);
    }
  }

  function Uint8Blocks(bs: seq<byte>): (r: seq<ByteBlock>)
    ensures |r| == |bs|
    ensures forall i :: 0 <= i < |bs| ==> r[i] == ByteBlock(Uint8, bs[i])
  {
    if bs == [] then [] else [ByteBlock(Uint8, bs[0])] + Uint8Blocks(bs[1..])
  }

  lemma {:induction false} SerializeByte(b: byte)
    ensures Serialize(ByteBlock(Uint8, b)) == [b]
  {
    assert BigEndian(b, 1) == BigEndian(b / 256, 0) + [b % 256];
  }

  /** Bytes written as Uint8 blocks are themselves. */
  lemma {:induction false} SerializeUint8Blocks(bs: seq<byte>)
    ensures SerializeAll(Uint8Blocks(bs)) == bs
  {
    if bs != [] {
      var blocks := Uint8Blocks(bs);
      assert blocks[0] == ByteBlock(Uint8, bs[0]) && blocks[1..] == Uint8Blocks(bs[1..]);
      SerializeByte(bs[0]);
      SerializeUint8Blocks(bs[1..]);
      assert SerializeAll(blocks) == [bs[0]] + bs[1..];
    }
  }

  /** Sign extension of DataView's `getInt8` / `getInt16`. */
  function SignExtend(v: nat, width: nat): (r: int)
    requires v < Pow2(width) && width > 0
    ensures -(Pow2(width - 1) as int) <= r < Pow2(width - 1)
    ensures r == v || r == v - Pow2(width)
  {
    if v >= Pow2(width - 1) then v - Pow2(width) else v
  }

  // ---------------------------------------------------------------- lists

  /** Where `Array.prototype.splice` starts for a start argument and a
   *  length: a negative start counts from the end, and the start is clamped
   *  to the list. */
  function SpliceStart(index: int, len: nat): (k: nat)
    ensures k <= len
  {
    if index < 0 then (if len + index < 0 then 0 else len + index)
    else if index > len then len else index
  }

  /** `splice(index, 1)`: the element at the splice start goes, the others
   *  keep their order; a start at the end removes nothing. */
  function RemoveAt<T>(s: seq<T>, index: int): (r: seq<T>)
    ensures var k := SpliceStart(index, |s|);
      if k < |s| then |r| == |s| - 1 && r[..k] == s[..k] && r[k..] == s[k + 1..] else r == s
  {
    var k := SpliceStart(index, |s|);
    if k < |s| then s[..k] + s[k + 1..] else s
  }

  // ---------------------------------------------------------------- DataView

  /** The message of the RangeError a DataView read past its end throws. */
  const OutOfBounds := "Offset is outside the bounds of the DataView"

  /** A DataView unsigned read of `n` bytes at the front of `d`: their
   *  big-endian value, and the bytes after them. */
  function ReadUint(d: seq<byte>, n: nat): (r: Result<(nat, seq<byte>)>)
    ensures r.Ok? <==> n <= |d|
    ensures r.Ok? ==> r.value.0 < Pow256(n) && r.value.1 == d[n..]
    ensures r.Err? ==> r.error == OutOfBounds
  {
    if |d| < n then Err(OutOfBounds) else Ok((FromBigEndian(d[..n]), d[n..]))
  }

  /** The DataView getter of a field type: `getInt8` and `getInt16` sign
   *  extend, the others read the bytes unsigned (a Float32 as its 32-bit
   *  pattern). */
  function ReadField(kind: DataType, d: seq<byte>): (r: Result<(int, seq<byte>)>)
    ensures r.Ok? <==> Size(kind) <= |d|
    ensures r.Ok? ==> r.value.1 == d[Size(kind)..]
    ensures r.Err? ==> r.error == OutOfBounds
  {
    match ReadUint(d, Size(kind))
    case Err(e) => Err(e)
    case Ok((v, rest)) =>
      SmallPowers();
      if kind == Int8 then Ok((SignExtend(v, 8), rest))
      else if kind == Int16 then Ok((SignExtend(v, 16), rest))
      else Ok((v, rest))
  }

  lemma {:induction false} SmallPowers()
    ensures Pow256(1) == Pow2(8) == 256 && Pow256(2) == Pow2(16) == 65536
  {
    assert Pow2(8) == 256 by {
      assert Pow2(4) == 16;
    }
    assert Pow2(16) == 65536 by {
      assert Pow2(12) == 4096;
    }
  }

  /** Reading back `n` bytes written big-endian gives the value, when it
   *  fits. */
  lemma {:induction false} ReadWrittenUint(v: int, n: nat, rest: seq<byte>)
    requires 0 <= v < Pow256(n)
    ensures ReadUint(BigEndian(v, n) + rest, n) == Ok((v, rest))
  {
    ReadBigEndian(v, n, rest);
    ModBelow(v, Pow256(n));
  }

  /** Any value written as `n` bytes reads back modulo 256^n. */
  lemma {:induction false} ReadBigEndian(v: int, n: nat, rest: seq<byte>)
    ensures ReadUint(BigEndian(v, n) + rest, n) == Ok((v % Pow256(n), rest))
  {
    var b := BigEndian(v, n);
    BigEndianRoundTrip(v, n);
    assert (b + rest)[..n] == b && (b + rest)[n..] == rest;
  }

  lemma {:induction false} ModBelow(v: int, m: int)
    requires 0 <= v < m
    ensures v % m == v
  {
  }

  lemma {:induction false} ModNegative(v: int, m: int)
    requires -m <= v < 0
    ensures v % m == v + m
  {
  }

  /** The bytes of a block list and what follows: the first block's bytes
   *  come first. */
  lemma {:induction false} ConsBytes(a: ByteBlock, bs: seq<ByteBlock>, rest: seq<byte>)
    ensures SerializeAll([a] + bs) + rest == Serialize(a) + (SerializeAll(bs) + rest)
  {
    assert ([a] + bs)[1..] == bs;
  }

  lemma {:induction false} AppendBytes(a: seq<ByteBlock>, b: seq<ByteBlock>, rest: seq<byte>)
    ensures SerializeAll(a + b) + rest == SerializeAll(a) + (SerializeAll(b) + rest)
  {
    SerializeAllAppend(a, b);
  }

  /** A value the field type stores exactly. */
  predicate Fits(kind: DataType, v: int)
  {
    match kind
    case Int8 => -128 <= v < 128
    case Int16 => -32768 <= v < 32768
    case _ => 0 <= v < Pow256(Size(kind))
  }

  /** Reading a field back gives the value written, when it fits. */
  lemma {:induction false} ReadWrittenField(kind: DataType, v: int, rest: seq<byte>)
    requires Fits(kind, v)
    ensures ReadField(kind, Serialize(ByteBlock(kind, v)) + rest) == Ok((v, rest))
  {
    var n := Size(kind);
    ReadBigEndian(v, n, rest);
    SmallPowers();
    if v < 0 {
      ModNegative(v, Pow256(n));
    } else {
      ModBelow(v, Pow256(n));
    }
  }

  /** Data of the blocks' total size. */
  lemma {:induction false} SerializedPrefix(blocks: seq<ByteBlock>, k: nat)
    requires k < |blocks|
    ensures SerializeAll(blocks[..k + 1]) == SerializeAll(blocks[..k]) + Serialize(blocks[k])
    ensures |SerializeAll(blocks[..k + 1])| <= |SerializeAll(blocks)|
  {
    SerializeAllAppend(blocks[..k], [blocks[k]]);
    assert blocks[..k + 1] == blocks[..k] + [blocks[k]];
    assert SerializeAll([blocks[k]]) == Serialize(blocks[k]) + SerializeAll([]);
    SerializeAllAppend(blocks[..k + 1], blocks[k + 1..]);
    assert blocks == blocks[..k + 1] + blocks[k + 1..];
  }

  /** The writing half of `generateDataBytes` and `generateExportData`: a
   *  zeroed buffer of the blocks' total size, each block written at the
   *  running offset by the DataView setter of its type. */
  method WriteBlocks(blocks: seq<ByteBlock>) returns (bytes: seq<byte>)
    ensures bytes == SerializeAll(blocks)
    ensures |bytes| == TotalSize(blocks)
  {
    SerializeAllLength(blocks);
    var size := TotalSize(blocks);
    var buffer := new byte[size](_ => 0);
    var i := 0;
    for k := 0 to |blocks|
      invariant i == |SerializeAll(blocks[..k])| <= size
      invariant buffer[..i] == SerializeAll(blocks[..k])
    {
      SerializedPrefix(blocks, k);
      var piece := Serialize(blocks[k]);
      SetBytes(buffer, i, piece);
      i := i + |piece|;
    }
    assert blocks[..|blocks|] == blocks;
    bytes := buffer[..];
  }

  /** A DataView setter: the value's bytes written from offset `i` on. */
  method SetBytes(buffer: array<byte>, i: nat, piece: seq<byte>)
    requires i + |piece| <= buffer.Length
    modifies buffer
    ensures buffer[..i + |piece|] == old(buffer[..i]) + piece
    ensures buffer[i + |piece|..] == old(buffer[i + |piece|..])
  {
    ghost var done := buffer[..i];
    for j := 0 to |piece|
      invariant buffer[..i] == done
      invariant buffer[i + |piece|..] == old(buffer[i + |piece|..])
      invariant forall t | 0 <= t < j :: buffer[i + t] == piece[t]
    {
      buffer[i + j] := piece[j];
    }
    assert buffer[..i + |piece|] == done + piece;
  }
}
