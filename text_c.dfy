/** The C port of the text decoder (import-test/src/text.c).
 *
 *  The trie is a flat array of records read from a 10-byte big-endian
 *  file format; child index 0 means "no child" and node 0 is the root.
 *  `decode_text` walks the trie bit by bit, most significant bit first,
 *  writes the UTF-8 form of every symbol into a 64-byte buffer and stops at
 *  the node whose code point is 0xFFFFFFFF. The trie is a parameter here,
 *  not the lazily built global of the C file.
 *
 *  Three behaviours of the C decoder are modelled as written and then
 *  corrected (see `CheckedDecode`): the reported size of the remaining data
 *  is the negated consumed count, a missing child only skips to the next
 *  byte, and a terminator reached on the last bit of a byte is only noticed
 *  while reading the next byte, so the cursor lands one byte too far. */
module TextC {
  import Wrappers
  import opened Bytes

  type u16 = x: int | 0 <= x < 0x1_0000
  type u32 = x: int | 0 <= x < 0x1_0000_0000

  /** The code point of the end-of-text node. */
  const Terminator: u32 := 0xFFFF_FFFF

  /** Bytes per trie record. */
  const RecordSize: nat := 10

  /** Size of the `result` buffer of `decode_text` (16 * 4). */
  const ResultCapacity: nat := 64

  /** `size_t` is 64 bits wide. */
  const SizeModulus: nat := 0x1_0000_0000_0000_0000

  datatype DecodeError =
    | TrailingBytes         // trie file length not a multiple of 10
    | EmptyTrie             // no node 0 to start from
    | ReadPastEnd           // the walk reads a byte after the input
    | ChildOutOfRange       // a child index past the last node
    | ResultOverflow        // the text does not fit the 64-byte buffer
    | RootCarriesSymbol     // corrected decoder: node 0 must be internal
    | InvalidBitSequence(offset: nat)
    | UnterminatedStream

  datatype Decoded<T> = Success(value: T) | Failure(error: DecodeError)

  // ------------------------------------------------------------ trie records

  /** `text_trie_t`: code point, frequency, code and the two child indices;
   *  `child1` is followed on a 0 bit, `child2` on a 1 bit. */
  datatype TrieRecord = TrieRecord(c: u32, freq: u16, code: u16, child1: byte, child2: byte)

  /** One record, big-endian: code point in bytes 0-3, frequency in 4-5,
   *  code in 6-7, then the two child indices. */
  function ParseRecord(b: seq<byte>): (r: TrieRecord)
    requires |b| == RecordSize
  {
    assert Pow256(4) == 0x1_0000_0000 && Pow256(2) == 0x1_0000;
    TrieRecord(FromBigEndian(b[0..4]), FromBigEndian(b[4..6]), FromBigEndian(b[6..8]), b[8], b[9])
  }

  /** The record layout written out: the inverse of `ParseRecord`. */
  function RecordBytes(r: TrieRecord): (b: seq<byte>)
    ensures |b| == RecordSize
  {
    BigEndian(r.c, 4) + BigEndian(r.freq, 2) + BigEndian(r.code, 2) + [r.child1, r.child2]
  }

  lemma {:induction false} Pow256Widths()
    ensures Pow256(2) == 0x1_0000 && Pow256(4) == 0x1_0000_0000
  {
    assert Pow256(1) == 256;
    assert Pow256(3) == 256 * Pow256(2);
  }

  /** A field that fits its width reads back unchanged. */
  lemma {:induction false} FieldRoundTrip(v: nat, n: nat)
    requires v < Pow256(n)
    ensures FromBigEndian(BigEndian(v, n)) == v
  {
    BigEndianRoundTrip(v, n);
    DivUnique(v, Pow256(n), 0, v);
  }

  lemma {:induction false} ParseRecordBytes(r: TrieRecord)
    ensures ParseRecord(RecordBytes(r)) == r
  {
    var b := RecordBytes(r);
    assert b[0..4] == BigEndian(r.c, 4) && b[4..6] == BigEndian(r.freq, 2) && b[6..8] == BigEndian(r.code, 2);
    Pow256Widths();
    FieldRoundTrip(r.c, 4);
    FieldRoundTrip(r.freq, 2);
    FieldRoundTrip(r.code, 2);
  }

  lemma {:induction false} RecordBytesOfParse(b: seq<byte>)
    requires |b| == RecordSize
    ensures RecordBytes(ParseRecord(b)) == b
  {
    BigEndianOfFromBigEndian(b[0..4]);
    BigEndianOfFromBigEndian(b[4..6]);
    BigEndianOfFromBigEndian(b[6..8]);
    assert b == b[0..4] + b[4..6] + b[6..8] + [b[8], b[9]];
  }

  /** The trie a file of whole records describes: record i is bytes
   *  10i .. 10i+9, in file order. */
  function ParseTrie(data: seq<byte>): (t: seq<TrieRecord>)
    requires |data| % RecordSize == 0
    ensures |t| == |data| / RecordSize
  {
    seq(|data| / RecordSize, i requires 0 <= i < |data| / RecordSize =>
      ParseRecord(data[RecordSize * i..RecordSize * i + RecordSize]))
  }

  function TrieBytes(t: seq<TrieRecord>): (b: seq<byte>)
    ensures |b| == RecordSize * |t|
  {
    if t == [] then [] else RecordBytes(t[0]) + TrieBytes(t[1..])
  }

  lemma {:induction false} TrieBytesAt(t: seq<TrieRecord>, i: nat)
    requires i < |t|
    ensures TrieBytes(t)[RecordSize * i..RecordSize * i + RecordSize] == RecordBytes(t[i])
  {
    if i == 0 {
      TrieBytesFirst(t);
    } else {
      var first, rest := RecordBytes(t[0]), TrieBytes(t[1..]);
      assert TrieBytes(t) == first + rest;
      SliceOfAppend(first, rest, 10 * i, 10 * i + 10);
      TrieBytesAt(t[1..], i - 1);
    }
  }

  lemma {:induction false} TrieBytesFirst(t: seq<TrieRecord>)
    requires |t| > 0
    ensures TrieBytes(t)[..RecordSize] == RecordBytes(t[0])
  {
    var first, rest := RecordBytes(t[0]), TrieBytes(t[1..]);
    assert TrieBytes(t) == first + rest;
    PrefixOfAppend(first, rest, first);
  }

  /** Writing a trie out and parsing it back gives the same nodes. */
  lemma {:induction false} ParseTrieBytes(t: seq<TrieRecord>)
    ensures ParseTrie(TrieBytes(t)) == t
  {
    var b := TrieBytes(t);
    var p := ParseTrie(b);
    forall i | 0 <= i < |t|
      ensures p[i] == t[i]
    {
      assert p[i] == ParseRecord(b[RecordSize * i..RecordSize * i + RecordSize]);
      TrieBytesAt(t, i);
      ParseRecordBytes(t[i]);
    }
  }

  /** `generate_text_trie`: allocates `size / 10` records and fills them in a
   *  loop that takes 10 bytes off the front while `size > 0`. The loop only
   *  ends on a whole number of records: with 1 to 9 bytes left the C reads a
   *  partial record past the buffer, writes one record past the allocation
   *  and wraps `size` below zero; that outcome is `TrailingBytes` here. */
  method GenerateTextTrie(trieData: seq<byte>) returns (r: Decoded<array<TrieRecord>>)
    ensures r.Failure? <==> |trieData| % RecordSize != 0
    ensures r.Failure? ==> r.error == TrailingBytes
    ensures r.Success? ==> fresh(r.value) && r.value[..] == ParseTrie(trieData)
  {
    var count := |trieData| / RecordSize;
    var trieList := new TrieRecord[count];
    var size := |trieData|;
    var offset := 0;
    var index := 0;
    while size > 0
      invariant offset + size == |trieData| && offset == RecordSize * index
      invariant size % RecordSize == |trieData| % RecordSize
      invariant index <= count
      invariant forall j :: 0 <= j < index ==>
        trieList[j] == ParseRecord(trieData[RecordSize * j..RecordSize * j + RecordSize])
    {
      if size < RecordSize {
        return Failure(TrailingBytes);
      }
      trieList[index] := ParseRecord(trieData[offset..offset + RecordSize]);
      offset := offset + RecordSize;
      size := size - RecordSize;
      index := index + 1;
    }
    return Success(trieList);
  }

  // ------------------------------------------------------------ UTF-8

  function Utf8Length(c: u32): nat
  {
    if c < 0x80 then 1 else if c < 0x800 then 2 else if c < 0x1_0000 then 3 else 4
  }

  /** `unicode_to_utf8`: one to four bytes by code-point range, as in
   *  section 3 of RFC 3629. Every `0xC0 | (c >> 6)`-style OR of the C adds,
   *  because the shifted value fits below the marker bits, except in the
   *  four-byte form: `0xF0 | (c >> 18)` stored in an unsigned char keeps only
   *  the low four bits of `c >> 18`. */
  function Utf8(c: u32): (r: seq<byte>)
    ensures |r| == Utf8Length(c)
  {
    if c < 0x80 then [c]
    else if c < 0x800 then [0xC0 + c / 0x40, 0x80 + c % 0x40]
    else if c < 0x1_0000 then [0xE0 + c / 0x1000, 0x80 + (c / 0x40) % 0x40, 0x80 + c % 0x40]
    else [0xF0 + (c / 0x4_0000) % 0x10, 0x80 + (c / 0x1000) % 0x40, 0x80 + (c / 0x40) % 0x40, 0x80 + c % 0x40]
  }

  /** `10xxxxxx` */
  predicate IsContinuation(b: byte) { 0x80 <= b < 0xC0 }

  /** The lead byte announces the length: `0xxxxxxx`, `110xxxxx`,
   *  `1110xxxx` or `11110xxx`. */
  predicate LeadAnnounces(b: byte, n: nat)
  {
    match n
    case 1 => b < 0x80
    case 2 => 0xC0 <= b < 0xE0
    case 3 => 0xE0 <= b < 0xF0
    case 4 => 0xF0 <= b < 0xF8
    case _ => false
  }

  /** The standard reading of a one- to four-byte UTF-8 sequence. */
  function Utf8Decode(b: seq<byte>): int
    requires 1 <= |b| <= 4
  {
    match |b|
    case 1 => b[0]
    case 2 => (b[0] as int - 0xC0) * 0x40 + (b[1] as int - 0x80)
    case 3 => (b[0] as int - 0xE0) * 0x1000 + (b[1] as int - 0x80) * 0x40 + (b[2] as int - 0x80)
    case 4 =>
      (b[0] as int - 0xF0) * 0x4_0000 + (b[1] as int - 0x80) * 0x1000 +
      (b[2] as int - 0x80) * 0x40 + (b[3] as int - 0x80)
  }

  /** Length classes and byte patterns. Below 0x200000 (so for every
   *  Unicode scalar value) the lead byte has the right pattern; above it the
   *  truncated four-byte lead runs into `11111xxx`. A non-zero code point
   *  never yields a zero byte, which the NUL-terminated copy relies on. */
  lemma {:induction false} Utf8Shape(c: u32)
    ensures var r := Utf8(c);
      (c < 0x20_0000 ==> LeadAnnounces(r[0], |r|)) &&
      (c >= 0x20_0000 ==> r[0] >= 0xF0) &&
      (forall k :: 1 <= k < |r| ==> IsContinuation(r[k])) &&
      (c != 0 ==> forall k :: 0 <= k < |r| ==> r[k] != 0)
  {
  }

  /** Reading the bytes back gives the code point, for every code point
   *  whose lead byte survives the truncation. */
  /** Base-64 digits of a code point below 2^21. */
  lemma {:induction false} SixBitDigits(c: nat)
    requires c < 0x20_0000
    ensures c / 0x4_0000 < 8 && c / 0x1000 < 0x200 && c / 0x40 < 0x8000
    ensures c / 0x1000 == 0x40 * (c / 0x4_0000) + (c / 0x1000) % 0x40
    ensures c / 0x40 == 0x40 * (c / 0x1000) + (c / 0x40) % 0x40
    ensures c == 0x40 * (c / 0x40) + c % 0x40
  {
    DivDiv(c, 0x40, 0x40);
    DivDiv(c, 0x1000, 0x40);
  }

  /** Reading the bytes back gives the code point, for every code point
   *  whose lead byte survives the truncation. */
  lemma {:induction false} Utf8RoundTrip(c: u32)
    requires c < 0x20_0000
    ensures Utf8Decode(Utf8(c)) == c
  {
    SixBitDigits(c);
  }

  function Utf8Concat(msg: seq<u32>): seq<byte>
  {
    if msg == [] then [] else Utf8(msg[0]) + Utf8Concat(msg[1..])
  }

  // ------------------------------------------------------------ decode_text

  /** `decoded_text_data_t`: the text, the offset of `remaining_data` from
   *  the start of the input and `remaining_data_size`. */
  datatype DecodedTextData = DecodedTextData(text: seq<byte>, remainingData: nat, remainingDataSize: nat)

  /** The child followed on bit `b`. */
  function ChildOn(node: TrieRecord, b: int): byte
  {
    if b == 0 then node.child1 else node.child2
  }

  /** `decode_text` as written, at bit `k` of the input (bit `k % 8`, most
   *  significant first, of byte `k / 8`), with `current` at node `cur` and
   *  `out` in the result buffer. The bits of a byte are read at the head of
   *  the outer loop, so a walk that still needs a bit after the input has
   *  undefined behaviour (`ReadPastEnd`); so has a node index past the
   *  trie, and a write past the 64-byte buffer or a `strlen` that finds no
   *  NUL inside it (`ResultOverflow`). A node is only looked at at the head
   *  of the next bit: a symbol is then written out and `current` goes back
   *  to the root before that bit is followed, and the terminator returns
   *  with `data + 1`. The remaining size is `original_data - (data + 1)`, a
   *  negative difference stored in a 64-bit `size_t`. */
  function Run(trie: seq<TrieRecord>, bits: seq<bit>, k: nat, cur: nat, out: seq<byte>): Decoded<DecodedTextData>
    decreases |bits| - k, 1
  {
    if k >= |bits| then Failure(ReadPastEnd)
    else if cur >= |trie| then Failure(ChildOutOfRange)
    else if trie[cur].c == Terminator then
      if |out| >= ResultCapacity then Failure(ResultOverflow)
      else Success(DecodedTextData(out, k / 8 + 1, (-(k / 8 + 1)) % SizeModulus))
    else if trie[cur].c != 0 then
      var out' := out + Utf8(trie[cur].c);
      if |out'| > ResultCapacity then Failure(ResultOverflow)
      else Follow(trie, bits, k, 0, out')
    else Follow(trie, bits, k, cur, out)
  }

  /** The first bit of the byte after the one holding bit `k`. */
  function NextByte(k: nat): (r: nat)
    ensures k < r && r % 8 == 0
  {
    k - k % 8 + 8
  }

  /** The second half of a bit of `decode_text`: bit `k` picks a child of
   *  node `at`; child 0 breaks out of the byte and keeps `current`. */
  function Follow(trie: seq<TrieRecord>, bits: seq<bit>, k: nat, at: nat, out: seq<byte>): Decoded<DecodedTextData>
    requires k < |bits| && at < |trie|
    decreases |bits| - k, 0
  {
    var child := ChildOn(trie[at], bits[k]);
    if child == 0 then Run(trie, bits, NextByte(k), at, out)
    else Run(trie, bits, k + 1, child, out)
  }

  /** `decode_text` on a fresh call: bit 0, the root, an empty buffer. */
  function AsWritten(trie: seq<TrieRecord>, data: seq<byte>): Decoded<DecodedTextData>
  {
    Run(trie, BitView(data), 0, 0, [])
  }

  /** No NUL byte: every symbol of the trie copies in full. */
  predicate NoNul(s: seq<byte>)
  {
    forall j :: 0 <= j < |s| ==> s[j] != 0
  }

  /** The zeroed 64-byte buffer of `decode_text` after `n` bytes were
   *  written: they hold no NUL and the rest is still zero. */
  predicate BufferInv(result: array<byte>, n: nat)
    reads result
  {
    result.Length == ResultCapacity && n <= ResultCapacity &&
    NoNul(result[..n]) && forall j :: n <= j < ResultCapacity ==> result[j] == 0
  }

  /** `strlen` on the result buffer: the index of the first NUL, if the
   *  buffer holds one. */
  method Strlen(buf: seq<byte>) returns (len: Wrappers.Option<nat>)
    ensures len.Some? ==> len.value < |buf| && buf[len.value] == 0 && NoNul(buf[..len.value])
    ensures len.None? ==> NoNul(buf)
  {
    var n := 0;
    while n < |buf|
      invariant n <= |buf| && NoNul(buf[..n])
    {
      if buf[n] == 0 {
        return Wrappers.Some(n);
      }
      assert buf[..n + 1] == buf[..n] + [buf[n]];
      n := n + 1;
    }
    assert buf[..n] == buf;
    return Wrappers.None;
  }

  /** At most one index can be the first NUL. */
  lemma {:induction false} FirstNulUnique(s: seq<byte>, a: nat, b: nat)
    requires a < |s| && s[a] == 0 && NoNul(s[..a])
    requires b < |s| && s[b] == 0 && NoNul(s[..b])
    ensures a == b
  {
  }

  /** The copy loop of `decode_text`: the UTF-8 bytes of `c` up to their
   *  NUL, one `result[result_index++]` at a time; `ok` is false when a
   *  write would fall past the buffer. */
  method CopyLetter(result: array<byte>, resultIndex: nat, c: u32) returns (ok: bool, newIndex: nat)
    requires BufferInv(result, resultIndex) && c != 0
    modifies result
    ensures ok <==> resultIndex + |Utf8(c)| <= ResultCapacity
    ensures ok ==> newIndex == resultIndex + |Utf8(c)| && BufferInv(result, newIndex)
    ensures ok ==> result[..newIndex] == old(result[..resultIndex]) + Utf8(c)
  {
    ghost var before := result[..resultIndex];
    Utf8Shape(c);
    var letter := Utf8(c) + [0];
    var k := 0;
    newIndex := resultIndex;
    while letter[k] != 0
      invariant k < |letter| && newIndex == resultIndex + k && newIndex <= ResultCapacity
      invariant result[..newIndex] == before + letter[..k]
      invariant forall j :: newIndex <= j < ResultCapacity ==> result[j] == 0
      decreases |letter| - k
    {
      if newIndex >= ResultCapacity {
        return false, newIndex;
      }
      result[newIndex] := letter[k];
      newIndex := newIndex + 1;
      k := k + 1;
    }
    assert letter[..k] == Utf8(c);
    assert NoNul(result[..newIndex]) by {
      forall j | 0 <= j < newIndex
        ensures result[..newIndex][j] != 0
      {
        if j >= resultIndex {
          assert result[..newIndex][j] == Utf8(c)[j - resultIndex];
        } else {
          assert result[..newIndex][j] == before[j];
        }
      }
    }
    return true, newIndex;
  }

  /** The terminator branch of `decode_text`: `strlen` of the buffer, the
   *  text, `data + 1` and the negated consumed count. */
  method FinishText(result: array<byte>, resultIndex: nat, pos: nat) returns (r: Decoded<DecodedTextData>)
    requires BufferInv(result, resultIndex)
    ensures resultIndex == ResultCapacity ==> r == Failure(ResultOverflow)
    ensures resultIndex < ResultCapacity ==>
      r == Success(DecodedTextData(result[..resultIndex], pos + 1, (-(pos + 1)) % SizeModulus))
  {
    assert resultIndex < ResultCapacity ==> result[resultIndex] == 0;
    var len := Strlen(result[..]);
    assert result[..][..resultIndex] == result[..resultIndex];
    if len.None? {
      return Failure(ResultOverflow);
    }
    FirstNulUnique(result[..], len.value, resultIndex);
    var finalResult := result[..len.value];
    return Success(DecodedTextData(finalResult, pos + 1, (-(pos + 1)) % SizeModulus));
  }

  /** The head of a bit of `decode_text` (bit `i` of byte `pos`): a node
   *  index past the trie, the terminator, which ends the call, or a
   *  symbol, which is copied out and sends `current` back to the root.
   *  `done` is the call's outcome when it ends here; otherwise the bit is
   *  followed from `next`. */
  method VisitNode(trie: seq<TrieRecord>, ghost bits: seq<bit>, pos: nat, i: nat, result: array<byte>, resultIndex: nat, current: nat)
    returns (done: Wrappers.Option<Decoded<DecodedTextData>>, newIndex: nat, next: nat)
    requires i < 8 && 8 * pos + i < |bits| && BufferInv(result, resultIndex)
    modifies result
    ensures done.Some? ==> done.value == Run(trie, bits, 8 * pos + i, current, old(result[..resultIndex]))
    ensures done.None? ==> next < |trie| && BufferInv(result, newIndex)
    ensures done.None? ==>
      Follow(trie, bits, 8 * pos + i, next, result[..newIndex]) == Run(trie, bits, 8 * pos + i, current, old(result[..resultIndex]))
  {
    DivUnique(8 * pos + i, 8, pos, i);
    if current >= |trie| {
      return Wrappers.Some(Failure(ChildOutOfRange)), resultIndex, current;
    }
    var c := trie[current].c;
    if c == Terminator {
      var r := FinishText(result, resultIndex, pos);
      return Wrappers.Some(r), resultIndex, current;
    }
    if c == 0 {
      return Wrappers.None, resultIndex, current;
    }
    var ok;
    ok, newIndex := CopyLetter(result, resultIndex, c);
    if !ok {
      return Wrappers.Some(Failure(ResultOverflow)), newIndex, current;
    }
    return Wrappers.None, newIndex, 0;
  }

  /** Bits `8 * pos` to `8 * pos + 7` are those of byte `b`, most
   *  significant first. */
  predicate ByteAt(bits: seq<bit>, pos: nat, b: byte)
  {
    8 * pos + 8 <= |bits| && forall j :: 8 * pos <= j < 8 * pos + 8 ==> bits[j] == BitOf(b, 7 - (j - 8 * pos))
  }

  /** One pass of the outer loop of `decode_text`: the eight bits of byte
   *  `pos`, each a node visit and a step to a child, until the call ends
   *  (`done`) or a missing child breaks out of the byte. */
  method DecodeByte(trie: seq<TrieRecord>, ghost bits: seq<bit>, pos: nat, b: byte, result: array<byte>, resultIndex: nat, current: nat)
    returns (done: Wrappers.Option<Decoded<DecodedTextData>>, newIndex: nat, next: nat)
    requires ByteAt(bits, pos, b)
    requires BufferInv(result, resultIndex)
    modifies result
    ensures done.Some? ==> done.value == Run(trie, bits, 8 * pos, current, old(result[..resultIndex]))
    ensures done.None? ==> BufferInv(result, newIndex)
    ensures done.None? ==>
      Run(trie, bits, 8 * (pos + 1), next, result[..newIndex]) == Run(trie, bits, 8 * pos, current, old(result[..resultIndex]))
  {
    ghost var goal := Run(trie, bits, 8 * pos, current, result[..resultIndex]);
    ghost var text := result[..resultIndex];
    var byteBits := GetBitsFromByte(b);
    newIndex, next := resultIndex, current;
    var i := 0;
    while i < 8
      invariant i <= 8 && BufferInv(result, newIndex) && result[..newIndex] == text
      invariant Run(trie, bits, 8 * pos + i, next, text) == goal
    {
      done, newIndex, next := VisitNode(trie, bits, pos, i, result, newIndex, next);
      if done.Some? {
        return;
      }
      text := result[..newIndex];
      assert bits[8 * pos + i] == byteBits[i];
      var child := if byteBits[i] == 0 then trie[next].child1 else trie[next].child2;
      if child == 0 {
        assert NextByte(8 * pos + i) == 8 * (pos + 1) by {
          DivUnique(8 * pos + i, 8, pos, i);
        }
        return Wrappers.None, newIndex, next;
      }
      next := child;
      i := i + 1;
    }
    return Wrappers.None, newIndex, next;
  }

  /** `decode_text`: a `for (;;)` over the bytes, eight bits each, with the
   *  symbol copied byte by byte up to its NUL into a zeroed 64-byte
   *  buffer. */
  method DecodeText(trie: seq<TrieRecord>, data: seq<byte>) returns (r: Decoded<DecodedTextData>)
    ensures r == AsWritten(trie, data)
  {
    var result := new byte[ResultCapacity](_ => 0);
    var resultIndex: nat := 0;
    var current: nat := 0;
    var pos: nat := 0;
    ghost var bits := BitView(data);
    while true
      invariant pos <= |data| && BufferInv(result, resultIndex)
      invariant Run(trie, bits, 8 * pos, current, result[..resultIndex]) == AsWritten(trie, data)
      decreases |data| - pos
    {
      if pos >= |data| {
        return Failure(ReadPastEnd);
      }
      forall j | 8 * pos <= j < 8 * pos + 8
        ensures bits[j] == BitOf(data[pos], 7 - (j - 8 * pos))
      {
        BitViewAt(data, j);
        DivUnique(j, 8, pos, j - 8 * pos);
      }
      var done;
      done, resultIndex, current := DecodeByte(trie, bits, pos, data[pos], result, resultIndex, current);
      if done.Some? {
        return done.value;
      }
      pos := pos + 1;
    }
  }

  // ------------------------------------------------------------ corrected decoder

  /** The decoder the C evidently means, over the bits of the input, most
   *  significant first (`k` is bit `k % 8` of byte `k / 8`). A node is looked
   *  at as soon as it is reached, so the text ends on the byte that holds
   *  the terminator's last bit; a missing child is an error at its byte; the
   *  input has a length, so running out of bits is an error; and the
   *  remaining size is what is left of the input. */
  function CheckedRun(trie: seq<TrieRecord>, bits: seq<bit>, k: nat, cur: nat, out: seq<byte>): Decoded<DecodedTextData>
    requires cur < |trie|
    decreases |bits| - k
  {
    if k >= |bits| then Failure(UnterminatedStream)
    else
      var child := ChildOn(trie[cur], bits[k]);
      if child == 0 then Failure(InvalidBitSequence(k / 8))
      else if child >= |trie| then Failure(ChildOutOfRange)
      else if trie[child].c == Terminator then
        Success(DecodedTextData(out, k / 8 + 1, (|bits| - k - 1) / 8))
      else if trie[child].c != 0 then
        var out' := out + Utf8(trie[child].c);
        if |out'| > ResultCapacity then Failure(ResultOverflow)
        else CheckedRun(trie, bits, k + 1, 0, out')
      else CheckedRun(trie, bits, k + 1, child, out)
  }

  /** The corrected `decode_text`: the walk starts at an internal root. */
  function CheckedDecode(trie: seq<TrieRecord>, data: seq<byte>): Decoded<DecodedTextData>
  {
    if |trie| == 0 then Failure(EmptyTrie)
    else if trie[0].c != 0 then Failure(RootCarriesSymbol)
    else CheckedRun(trie, BitView(data), 0, 0, [])
  }

  // ------------------------------------------------------------ codes

  /** `path` leads from node `from` through internal nodes (code point 0)
   *  with present, in-range children to a node whose code point is `c`. */
  predicate Leads(trie: seq<TrieRecord>, from: nat, path: seq<bit>, c: u32)
    decreases |path|
  {
    from < |trie| &&
    if path == [] then trie[from].c == c
    else
      var child := ChildOn(trie[from], path[0]);
      trie[from].c == 0 && child != 0 && Leads(trie, child, path[1..], c)
  }

  /** A non-empty path starts at an internal node. */
  lemma {:induction false} LeadsFromInternal(trie: seq<TrieRecord>, from: nat, path: seq<bit>, c: u32)
    requires |path| > 0 && Leads(trie, from, path, c)
    ensures from < |trie| && trie[from].c == 0
  {
  }

  /** A message and the code of each of its symbols, then the terminator's
   *  code: every code leads from the root to its symbol. */
  predicate Codebook(trie: seq<TrieRecord>, msg: seq<u32>, codes: seq<seq<bit>>, term: seq<bit>)
  {
    |msg| == |codes| &&
    (forall j :: 0 <= j < |msg| ==> msg[j] != 0 && msg[j] != Terminator) &&
    (forall j :: 0 <= j < |codes| ==> |codes[j]| > 0 && Leads(trie, 0, codes[j], msg[j])) &&
    |term| > 0 && Leads(trie, 0, term, Terminator)
  }

  function Concat(codes: seq<seq<bit>>): seq<bit>
  {
    if codes == [] then [] else codes[0] + Concat(codes[1..])
  }

  /** The bit stream of a message: its codes, then the terminator's. */
  function MessageBits(codes: seq<seq<bit>>, term: seq<bit>): seq<bit>
  {
    Concat(codes) + term
  }

  lemma {:induction false} CodebookTail(trie: seq<TrieRecord>, msg: seq<u32>, codes: seq<seq<bit>>, term: seq<bit>)
    requires Codebook(trie, msg, codes, term) && |msg| > 0
    ensures Codebook(trie, msg[1..], codes[1..], term)
    ensures |codes[0]| > 0 && Leads(trie, 0, codes[0], msg[0]) && msg[0] != 0 && msg[0] != Terminator
    ensures MessageBits(codes, term) == codes[0] + MessageBits(codes[1..], term)
    ensures Utf8Concat(msg) == Utf8(msg[0]) + Utf8Concat(msg[1..])
  {
    assert forall j :: 0 <= j < |msg| - 1 ==> msg[1..][j] == msg[j + 1] && codes[1..][j] == codes[j + 1];
  }

  /** `p` occurs in `bits` from index `k` on. */
  predicate OccursAt(bits: seq<bit>, k: nat, p: seq<bit>)
  {
    k + |p| <= |bits| && forall j :: 0 <= j < |p| ==> bits[k + j] == p[j]
  }

  lemma {:induction false} OccursSplit(bits: seq<bit>, k: nat, a: seq<bit>, b: seq<bit>)
    requires OccursAt(bits, k, a + b)
    ensures OccursAt(bits, k, a) && OccursAt(bits, k + |a|, b)
  {
    forall j | 0 <= j < |a|
      ensures bits[k + j] == a[j]
    {
      assert (a + b)[j] == a[j];
    }
    forall j | 0 <= j < |b|
      ensures bits[k + |a| + j] == b[j]
    {
      assert bits[k + (|a| + j)] == (a + b)[|a| + j];
    }
  }

  /** The bits of an encoded message, whatever bytes follow it, start with
   *  the message's bits and fill whole bytes. */
  lemma {:induction false} PackedPrefix(m: seq<bit>, rest: seq<byte>)
    ensures var bits := BitView(PackBits(m) + rest);
      OccursAt(bits, 0, m) && |bits| == 8 * |PackBits(m)| + 8 * |rest|
  {
    if m != [] {
      PackedBit(m, rest, |m| - 1);
    }
    forall j | 0 <= j < |m|
      ensures BitView(PackBits(m) + rest)[0 + j] == m[j]
    {
      PackedBit(m, rest, j);
    }
  }

  /** Arithmetic of `n` bits padded to `e` bytes and followed by `r` more. */
  lemma {:induction false} PaddedLength(n: nat, e: nat, r: nat, b: nat)
    requires n >= 1 && e == (n + 7) / 8 && b == 8 * e + 8 * r
    ensures (n - 1) / 8 + 1 == e
    ensures (b - n) / 8 == r
    ensures n >= b <==> n % 8 == 0 && r == 0
    ensures n % 8 != 0 ==> n / 8 + 1 == e
  {
    DivUnique(n + 7, 8, e, (n + 7) % 8);
    DivUnique(n - 1, 8, e - 1, n - 1 - 8 * (e - 1));
    DivUnique(8 * e + 8 * r - n, 8, r, 8 * e - n);
    if n % 8 != 0 {
      DivUnique(n, 8, e - 1, n - 8 * (e - 1));
    }
  }

  // ------------------------------------------------------------ corrected round trip

  /** Following one code from an internal node: the symbol is written out and
   *  the walk goes on from the root, or the terminator ends the text on the
   *  byte of the code's last bit. */
  lemma {:induction false} CheckedWalk(trie: seq<TrieRecord>, bits: seq<bit>, k: nat, cur: nat, path: seq<bit>, c: u32, out: seq<byte>)
    requires |path| > 0 && Leads(trie, cur, path, c) && c != 0
    requires OccursAt(bits, k, path)
    ensures CheckedRun(trie, bits, k, cur, out) ==
      var k' := k + |path| - 1;
      if c == Terminator then Success(DecodedTextData(out, k' / 8 + 1, (|bits| - k' - 1) / 8))
      else if |out + Utf8(c)| > ResultCapacity then Failure(ResultOverflow)
      else CheckedRun(trie, bits, k + |path|, 0, out + Utf8(c))
    decreases |path|
  {
    assert bits[k + 0] == path[0];
    var child := ChildOn(trie[cur], path[0]);
    assert child != 0 && Leads(trie, child, path[1..], c);
    if |path| > 1 {
      assert path == [path[0]] + path[1..];
      OccursSplit(bits, k, [path[0]], path[1..]);
      CheckedWalk(trie, bits, k + 1, child, path[1..], c, out);
    }
  }

  lemma {:induction false} CheckedWalkSymbol(trie: seq<TrieRecord>, bits: seq<bit>, k: nat, path: seq<bit>, c: u32, out: seq<byte>)
    requires |path| > 0 && Leads(trie, 0, path, c) && c != 0 && c != Terminator
    requires OccursAt(bits, k, path)
    requires |out + Utf8(c)| <= ResultCapacity
    ensures CheckedRun(trie, bits, k, 0, out) == CheckedRun(trie, bits, k + |path|, 0, out + Utf8(c))
  {
    CheckedWalk(trie, bits, k, 0, path, c, out);
  }

  lemma {:induction false} CheckedWalkEnd(trie: seq<TrieRecord>, bits: seq<bit>, k: nat, path: seq<bit>, out: seq<byte>, end: nat)
    requires |path| > 0 && Leads(trie, 0, path, Terminator)
    requires OccursAt(bits, k, path) && end == k + |path|
    ensures 0 < end <= |bits| && CheckedRun(trie, bits, k, 0, out) == Finished(out, end, |bits|)
  {
    CheckedWalk(trie, bits, k, 0, path, Terminator, out);
  }

  /** The bits of a message after its first code, and its text after the
   *  first symbol's bytes. */
  lemma {:induction false} MessageStep(bits: seq<bit>, k: nat, codes: seq<seq<bit>>, term: seq<bit>, c: u32, rest: seq<u32>,
                    out: seq<byte>, text: seq<byte>)
    requires codes != [] && OccursAt(bits, k, MessageBits(codes, term))
    requires MessageBits(codes, term) == codes[0] + MessageBits(codes[1..], term)
    requires text == out + (Utf8(c) + Utf8Concat(rest))
    ensures OccursAt(bits, k, codes[0]) && OccursAt(bits, k + |codes[0]|, MessageBits(codes[1..], term))
    ensures k + |MessageBits(codes, term)| == k + |codes[0]| + |MessageBits(codes[1..], term)|
    ensures text == (out + Utf8(c)) + Utf8Concat(rest)
  {
    OccursSplit(bits, k, codes[0], MessageBits(codes[1..], term));
  }

  /** Decoding a whole message from bit `k` with `out` already written:
   *  the text comes out as `text` and the walk ends at bit `end - 1`. */
  /** The outcome of a decode whose terminator's code ends at bit `end`. */
  function Finished(text: seq<byte>, end: nat, n: nat): Decoded<DecodedTextData>
    requires 0 < end <= n
  {
    Success(DecodedTextData(text, (end - 1) / 8 + 1, (n - end) / 8))
  }

  lemma {:induction false} CheckedMessage(trie: seq<TrieRecord>, bits: seq<bit>, k: nat, msg: seq<u32>, codes: seq<seq<bit>>, term: seq<bit>,
                                          out: seq<byte>, text: seq<byte>, end: nat)
    requires Codebook(trie, msg, codes, term) && OccursAt(bits, k, MessageBits(codes, term))
    requires end == k + |MessageBits(codes, term)| && text == out + Utf8Concat(msg) && |text| <= ResultCapacity
    ensures 0 < |trie| && end > 0
    ensures end <= |bits| && CheckedRun(trie, bits, k, 0, out) == Finished(text, end, |bits|)
    decreases |msg|
  {
    if msg == [] {
      assert codes == [] && MessageBits(codes, term) == term && text == out;
      CheckedWalkEnd(trie, bits, k, term, out, end);
    } else {
      CodebookTail(trie, msg, codes, term);
      MessageStep(bits, k, codes, term, msg[0], msg[1..], out, text);
      var n, out' := |codes[0]|, out + Utf8(msg[0]);
      CheckedWalkSymbol(trie, bits, k, codes[0], msg[0], out);
      CheckedMessage(trie, bits, k + n, msg[1..], codes[1..], term, out', text, end);
    }
  }

  /** The corrected decoder on input whose bits start with an encoded
   *  message. */
  lemma {:induction false} CheckedDecodeData(trie: seq<TrieRecord>, data: seq<byte>, msg: seq<u32>, codes: seq<seq<bit>>, term: seq<bit>)
    requires Codebook(trie, msg, codes, term) && OccursAt(BitView(data), 0, MessageBits(codes, term))
    requires |Utf8Concat(msg)| <= ResultCapacity
    ensures var m := MessageBits(codes, term);
      CheckedDecode(trie, data) == Success(DecodedTextData(Utf8Concat(msg), (|m| - 1) / 8 + 1, (8 * |data| - |m|) / 8))
  {
    LeadsFromInternal(trie, 0, term, Terminator);
    CheckedDecodeBits(trie, BitView(data), msg, codes, term);
  }

  lemma {:induction false} CheckedDecodeBits(trie: seq<TrieRecord>, bits: seq<bit>, msg: seq<u32>, codes: seq<seq<bit>>, term: seq<bit>)
    requires Codebook(trie, msg, codes, term) && OccursAt(bits, 0, MessageBits(codes, term))
    requires |Utf8Concat(msg)| <= ResultCapacity
    ensures var m := MessageBits(codes, term);
      CheckedRun(trie, bits, 0, 0, []) == Success(DecodedTextData(Utf8Concat(msg), (|m| - 1) / 8 + 1, (|bits| - |m|) / 8))
  {
    assert [] + Utf8Concat(msg) == Utf8Concat(msg);
    CheckedMessage(trie, bits, 0, msg, codes, term, [], Utf8Concat(msg), |MessageBits(codes, term)|);
  }

  /** Decoding an encoded message, whatever follows it, gives back the UTF-8
   *  text, says how many bytes the message took (its bits rounded up to whole
   *  bytes, as the encoder pads them) and how many are left. */
  lemma {:induction false} CheckedDecodeRoundTrip(trie: seq<TrieRecord>, msg: seq<u32>, codes: seq<seq<bit>>, term: seq<bit>, rest: seq<byte>)
    requires Codebook(trie, msg, codes, term) && |Utf8Concat(msg)| <= ResultCapacity
    ensures var enc := PackBits(MessageBits(codes, term));
      CheckedDecode(trie, enc + rest) == Success(DecodedTextData(Utf8Concat(msg), |enc|, |rest|))
  {
    var m := MessageBits(codes, term);
    var enc := PackBits(m);
    var data := enc + rest;
    PackedPrefix(m, rest);
    CheckedDecodeData(trie, data, msg, codes, term);
    assert |m| >= |term| > 0;
    PaddedLength(|m|, |enc|, |rest|, 8 * |data|);
  }

  // ------------------------------------------------------------ as-written round trip

  /** The node a path leads to. */
  function Dest(trie: seq<TrieRecord>, from: nat, path: seq<bit>): nat
    decreases |path|
  {
    if path == [] || from >= |trie| then from
    else Dest(trie, ChildOn(trie[from], path[0]), path[1..])
  }

  lemma {:induction false} DestLeads(trie: seq<TrieRecord>, from: nat, path: seq<bit>, c: u32)
    requires Leads(trie, from, path, c)
    ensures Dest(trie, from, path) < |trie| && trie[Dest(trie, from, path)].c == c
    decreases |path|
  {
    if path != [] {
      DestLeads(trie, ChildOn(trie[from], path[0]), path[1..], c);
    }
  }

  /** Following one code from node `at`: the C walks to the code's last node
   *  and looks at it only at the next bit. */
  lemma {:induction false} WrittenWalk(trie: seq<TrieRecord>, bits: seq<bit>, k: nat, at: nat, path: seq<bit>, c: u32, out: seq<byte>)
    requires |path| > 0 && Leads(trie, at, path, c) && OccursAt(bits, k, path)
    ensures k < |bits| && at < |trie|
    ensures Follow(trie, bits, k, at, out) == Run(trie, bits, k + |path|, Dest(trie, at, path), out)
    decreases |path|
  {
    assert bits[k + 0] == path[0];
    var child := ChildOn(trie[at], path[0]);
    assert Leads(trie, child, path[1..], c);
    if |path| > 1 {
      assert path == [path[0]] + path[1..];
      OccursSplit(bits, k, [path[0]], path[1..]);
      assert trie[child].c == 0;
      WrittenWalk(trie, bits, k + 1, child, path[1..], c, out);
    }
  }

  /** At a symbol node the next bit writes the symbol out and is followed
   *  from the root. */
  lemma {:induction false} RunSymbol(trie: seq<TrieRecord>, bits: seq<bit>, k: nat, cur: nat, out: seq<byte>)
    requires k < |bits| && cur < |trie| && trie[cur].c != 0 && trie[cur].c != Terminator
    requires |out + Utf8(trie[cur].c)| <= ResultCapacity
    ensures Run(trie, bits, k, cur, out) == Follow(trie, bits, k, 0, out + Utf8(trie[cur].c))
  {
  }

  /** At the terminator the next bit, if the input has one, ends the text
   *  on its byte. */
  lemma {:induction false} RunEnd(trie: seq<TrieRecord>, bits: seq<bit>, k: nat, cur: nat, out: seq<byte>)
    requires cur < |trie| && trie[cur].c == Terminator && |out| < ResultCapacity
    ensures Run(trie, bits, k, cur, out) == Terminated(out, k, |bits|)
  {
  }

  /** The as-written outcome once the terminator's code ends at bit `k`. */
  function Terminated(text: seq<byte>, k: nat, n: nat): Decoded<DecodedTextData>
  {
    if k >= n then Failure(ReadPastEnd)
    else Success(DecodedTextData(text, k / 8 + 1, (-(k / 8 + 1)) % SizeModulus))
  }

  /** The as-written walk along the terminator's code. */
  lemma {:induction false} WrittenWalkEnd(trie: seq<TrieRecord>, bits: seq<bit>, k: nat, path: seq<bit>, out: seq<byte>, end: nat)
    requires |path| > 0 && Leads(trie, 0, path, Terminator) && |out| < ResultCapacity
    requires OccursAt(bits, k, path) && end == k + |path|
    ensures k < |bits| && 0 < |trie|
    ensures Follow(trie, bits, k, 0, out) == Terminated(out, end, |bits|)
  {
    WrittenWalk(trie, bits, k, 0, path, Terminator, out);
    DestLeads(trie, 0, path, Terminator);
    RunEnd(trie, bits, end, Dest(trie, 0, path), out);
  }

  /** The as-written walk along one symbol's code. */
  lemma {:induction false} WrittenWalkSymbol(trie: seq<TrieRecord>, bits: seq<bit>, k: nat, path: seq<bit>, c: u32, out: seq<byte>)
    requires |path| > 0 && Leads(trie, 0, path, c) && c != 0 && c != Terminator
    requires OccursAt(bits, k, path) && k + |path| < |bits|
    requires |out + Utf8(c)| <= ResultCapacity
    ensures k < |bits| && 0 < |trie|
    ensures Follow(trie, bits, k, 0, out) == Follow(trie, bits, k + |path|, 0, out + Utf8(c))
  {
    WrittenWalk(trie, bits, k, 0, path, c, out);
    DestLeads(trie, 0, path, c);
    RunSymbol(trie, bits, k + |path|, Dest(trie, 0, path), out);
  }

  /** `decode_text` on a whole message from bit `k` with `out` already
   *  written: the text comes out as `text`, and the terminator, reached at
   *  bit `end - 1`, is noticed at bit `end`. */
  lemma {:induction false} WrittenMessage(trie: seq<TrieRecord>, bits: seq<bit>, k: nat, msg: seq<u32>, codes: seq<seq<bit>>, term: seq<bit>,
                                          out: seq<byte>, text: seq<byte>, end: nat)
    requires Codebook(trie, msg, codes, term) && OccursAt(bits, k, MessageBits(codes, term))
    requires end == k + |MessageBits(codes, term)| && text == out + Utf8Concat(msg) && |text| < ResultCapacity
    ensures k < |bits| && 0 < |trie|
    ensures Follow(trie, bits, k, 0, out) == Terminated(text, end, |bits|)
    decreases |msg|
  {
    if msg == [] {
      assert codes == [] && MessageBits(codes, term) == term && text == out;
      WrittenWalkEnd(trie, bits, k, term, out, end);
    } else {
      CodebookTail(trie, msg, codes, term);
      MessageStep(bits, k, codes, term, msg[0], msg[1..], out, text);
      var n, out' := |codes[0]|, out + Utf8(msg[0]);
      WrittenMessage(trie, bits, k + n, msg[1..], codes[1..], term, out', text, end);
      WrittenWalkSymbol(trie, bits, k, codes[0], msg[0], out);
    }
  }

  /** The as-written walk from the first bit of a bit list that starts with
   *  an encoded message. */
  lemma {:induction false} WrittenDecodeBits(trie: seq<TrieRecord>, bits: seq<bit>, msg: seq<u32>, codes: seq<seq<bit>>, term: seq<bit>)
    requires Codebook(trie, msg, codes, term) && OccursAt(bits, 0, MessageBits(codes, term))
    requires |Utf8Concat(msg)| < ResultCapacity
    ensures var m := MessageBits(codes, term);
      Run(trie, bits, 0, 0, []) ==
        if |m| >= |bits| then Failure(ReadPastEnd)
        else Success(DecodedTextData(Utf8Concat(msg), |m| / 8 + 1, (-(|m| / 8 + 1)) % SizeModulus))
  {
    assert [] + Utf8Concat(msg) == Utf8Concat(msg);
    WrittenMessage(trie, bits, 0, msg, codes, term, [], Utf8Concat(msg), |MessageBits(codes, term)|);
  }

  /** `decode_text` on an encoded message followed by `rest`: the text comes
   *  back, but the cursor is `data + 1` at the byte where the terminator is
   *  noticed, so the reported offset is one more than the number of whole
   *  bytes the bits fill. When the bits end on a byte boundary that is one
   *  byte past the message, and with nothing after the message the decoder
   *  reads past its input. */
  lemma {:induction false} AsWrittenRoundTrip(trie: seq<TrieRecord>, msg: seq<u32>, codes: seq<seq<bit>>, term: seq<bit>, rest: seq<byte>)
    requires Codebook(trie, msg, codes, term) && |Utf8Concat(msg)| < ResultCapacity
    ensures var m := MessageBits(codes, term);
      AsWritten(trie, PackBits(m) + rest) ==
        if |m| % 8 == 0 && rest == [] then Failure(ReadPastEnd)
        else Success(DecodedTextData(Utf8Concat(msg), |m| / 8 + 1, (-(|m| / 8 + 1)) % SizeModulus))
  {
    var m := MessageBits(codes, term);
    PackedPrefix(m, rest);
    WrittenDecodeBits(trie, BitView(PackBits(m) + rest), msg, codes, term);
    PaddedLength(|m|, |PackBits(m)|, |rest|, |BitView(PackBits(m) + rest)|);
  }

  // ------------------------------------------------------------ findings

  /** A two-symbol trie: the root, 'A' on bit 0 and the terminator on bit 1. */
  const SmallTrie: seq<TrieRecord> :=
    [TrieRecord(0, 0, 0, 1, 2), TrieRecord(0x41, 0, 0, 0, 0), TrieRecord(Terminator, 0, 0, 0, 0)]

  /** The empty text, a lone 1 bit: `remaining_data_size` comes out as
   *  2^64 - 1 where one byte was consumed and none is left. */
  lemma {:induction false} SizeNegated()
    ensures AsWritten(SmallTrie, [0x80]) == Success(DecodedTextData([], 1, SizeModulus - 1))
    ensures CheckedDecode(SmallTrie, [0x80]) == Success(DecodedTextData([], 1, 0))
  {
    var bits := BitView([0x80]);
    assert BitOf(0x80, 7) == 1;
    BitViewAt([0x80], 0);
    assert Follow(SmallTrie, bits, 0, 0, []) == Run(SmallTrie, bits, 1, 2, []);
  }

  /** Every successful as-written call ends on a byte of the input and
   *  reports the negated offset of that byte as the remaining size. */
  lemma {:induction false} RunFinish(trie: seq<TrieRecord>, bits: seq<bit>, k: nat, cur: nat, out: seq<byte>, n: nat)
    requires |bits| == 8 * n && Run(trie, bits, k, cur, out).Success?
    ensures var v := Run(trie, bits, k, cur, out).value;
      1 <= v.remainingData <= n && v.remainingDataSize == (-(v.remainingData as int)) % SizeModulus
    decreases |bits| - k, 1
  {
    if trie[cur].c == Terminator {
      ByteOfBit(k, |bits|);
    } else if trie[cur].c != 0 {
      FollowFinish(trie, bits, k, 0, out + Utf8(trie[cur].c), n);
    } else {
      FollowFinish(trie, bits, k, cur, out, n);
    }
  }

  lemma {:induction false} FollowFinish(trie: seq<TrieRecord>, bits: seq<bit>, k: nat, at: nat, out: seq<byte>, n: nat)
    requires |bits| == 8 * n && k < |bits| && at < |trie| && Follow(trie, bits, k, at, out).Success?
    ensures var v := Follow(trie, bits, k, at, out).value;
      1 <= v.remainingData <= n && v.remainingDataSize == (-(v.remainingData as int)) % SizeModulus
    decreases |bits| - k, 0
  {
    var child := ChildOn(trie[at], bits[k]);
    if child == 0 {
      RunFinish(trie, bits, NextByte(k), at, out, n);
    } else {
      RunFinish(trie, bits, k + 1, child, out, n);
    }
  }

  /** As written, `remaining_data_size` is 2^64 minus the consumed count,
   *  never the number of bytes left. */
  lemma {:induction false} AsWrittenSizeNegated(trie: seq<TrieRecord>, data: seq<byte>)
    requires |data| < SizeModulus && AsWritten(trie, data).Success?
    ensures var v := AsWritten(trie, data).value;
      1 <= v.remainingData <= |data| && v.remainingDataSize == SizeModulus - v.remainingData
  {
    var v := AsWritten(trie, data).value;
    RunFinish(trie, BitView(data), 0, 0, [], |data|);
    DivUnique(-(v.remainingData as int), SizeModulus, -1, SizeModulus - v.remainingData);
  }

  /** The corrected decoder's offset and remaining size add up to the
   *  input's length. */
  lemma {:induction false} CheckedFinish(trie: seq<TrieRecord>, bits: seq<bit>, k: nat, cur: nat, out: seq<byte>, n: nat)
    requires |bits| == 8 * n && cur < |trie| && CheckedRun(trie, bits, k, cur, out).Success?
    ensures var v := CheckedRun(trie, bits, k, cur, out).value;
      1 <= v.remainingData && v.remainingData + v.remainingDataSize == n
    decreases |bits| - k
  {
    var child := ChildOn(trie[cur], bits[k]);
    if trie[child].c == Terminator {
      ByteOfBit(k, |bits|);
      var q, r := k / 8, k % 8;
      DivUnique(|bits| - k - 1, 8, n - q - 1, 7 - r);
    } else if trie[child].c != 0 {
      CheckedFinish(trie, bits, k + 1, 0, out + Utf8(trie[child].c), n);
    } else {
      CheckedFinish(trie, bits, k + 1, child, out, n);
    }
  }

  lemma {:induction false} CheckedRemaining(trie: seq<TrieRecord>, data: seq<byte>)
    requires CheckedDecode(trie, data).Success?
    ensures var v := CheckedDecode(trie, data).value;
      1 <= v.remainingData && v.remainingData + v.remainingDataSize == |data|
  {
    CheckedFinish(trie, BitView(data), 0, 0, [], |data|);
  }

  /** A trie whose node 1 has no child on bit 1: root, then node 1 on bit 0
   *  and the terminator on bit 1; node 1 leads to 'A' on bit 0 only. */
  const GappedTrie: seq<TrieRecord> :=
    [TrieRecord(0, 0, 0, 1, 2), TrieRecord(0, 0, 0, 3, 0), TrieRecord(Terminator, 0, 0, 0, 0),
     TrieRecord(0x41, 0, 0, 0, 0)]

  /** Bits 0 1 of 0x60 reach node 1 and its missing child; as written the
   *  rest of that byte is dropped and the walk goes on from node 1 with
   *  0x7F, printing "A" and ending on its third bit. The corrected decoder
   *  rejects the first byte. */
  lemma {:induction false} MissingChildSwallowed()
    ensures AsWritten(GappedTrie, [0x60, 0x7F]) == Success(DecodedTextData([0x41], 2, SizeModulus - 2))
    ensures CheckedDecode(GappedTrie, [0x60, 0x7F]) == Failure(InvalidBitSequence(0))
  {
    var data: seq<byte> := [0x60, 0x7F];
    var bits := BitView(data);
    assert BitOf(0x60, 7) == 0 && BitOf(0x60, 6) == 1;
    assert BitOf(0x7F, 7) == 0 && BitOf(0x7F, 6) == 1;
    BitViewAt(data, 0);
    BitViewAt(data, 1);
    BitViewAt(data, 8);
    BitViewAt(data, 9);
    assert Utf8(0x41) == [0x41];
    DivUnique(-2, SizeModulus, -1, SizeModulus - 2);
    var done := Success(DecodedTextData([0x41], 2, SizeModulus - 2));
    assert Run(GappedTrie, bits, 10, 2, [0x41]) == done;
    assert bits[9] == 1 && ChildOn(GappedTrie[0], bits[9]) == 2;
    assert Follow(GappedTrie, bits, 9, 0, [0x41]) == done;
    assert [] + Utf8(0x41) == [0x41];
    assert Run(GappedTrie, bits, 9, 3, []) == done;
    assert Run(GappedTrie, bits, 8, 1, []) == Follow(GappedTrie, bits, 8, 1, []) == done;
    assert NextByte(1) == 8;
    assert Run(GappedTrie, bits, 1, 1, []) == Follow(GappedTrie, bits, 1, 1, []) == done;
    assert Run(GappedTrie, bits, 0, 0, []) == Follow(GappedTrie, bits, 0, 0, []) == done;
    assert CheckedRun(GappedTrie, bits, 1, 1, []) == Failure(InvalidBitSequence(0));
  }

  /** With input after the message, the as-written offset matches the
   *  corrected one exactly when the message's bits do not end on a byte
   *  boundary; on a boundary it is one byte further on. */
  lemma {:induction false} BoundaryOffset(trie: seq<TrieRecord>, msg: seq<u32>, codes: seq<seq<bit>>, term: seq<bit>, rest: seq<byte>)
    requires Codebook(trie, msg, codes, term) && |Utf8Concat(msg)| < ResultCapacity && rest != []
    ensures var data := PackBits(MessageBits(codes, term)) + rest;
      AsWritten(trie, data).Success? && CheckedDecode(trie, data).Success? &&
      AsWritten(trie, data).value.remainingData ==
        CheckedDecode(trie, data).value.remainingData + (if |MessageBits(codes, term)| % 8 == 0 then 1 else 0)
  {
    var m := MessageBits(codes, term);
    AsWrittenRoundTrip(trie, msg, codes, term, rest);
    CheckedDecodeRoundTrip(trie, msg, codes, term, rest);
    DivUnique(|m| + 7, 8, |m| / 8 + (if |m| % 8 == 0 then 0 else 1), (|m| + 7) % 8);
  }
}
