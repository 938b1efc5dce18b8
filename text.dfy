/** The prefix-code text codec of src/common/text.ts, over an explicit trie.
 *
 *  A trie node is either a leaf carrying a symbol (a character, or the
 *  TERMINAL marker) and the code the literal records for it, or an internal
 *  node whose children are indexed by the next bit. Text is encoded as the
 *  concatenation of its upper-cased characters' codes followed by TERMINAL's
 *  code, zero-padded to whole bytes; decoding walks the trie bit by bit, MSB
 *  first, and reports how many bytes it fetched. */
module Text {
  import opened Wrappers
  import opened Bytes

  datatype Sym = Char(c: char) | Terminal

  /** `char: null` is `sym == None`; a missing `code` is `code == None`. The
   *  `frequency` field is not read by any operation and is not modelled. */
  datatype Trie = Leaf(sym: Option<Sym>, code: Option<seq<bit>>) | Branch(children: seq<Trie>)

  datatype CharItem = CharItem(sym: Sym, code: seq<bit>)

  // ------------------------------------------------------------ trie shape

  /** The node reached from `node` by following `path`, provided no leaf is
   *  met before the path ends. */
  function Walk(node: Trie, path: seq<bit>): Option<Trie>
    decreases |path|
  {
    if path == [] then Some(node)
    else match node
      case Leaf(_, _) => None
      case Branch(ch) => if path[0] < |ch| then Walk(ch[path[0]], path[1..]) else None
  }

  /** Every internal node is binary, every leaf has a symbol, and every
   *  leaf's recorded code is its child-index path (`path` leads to `t`). */
  predicate CodesMatch(t: Trie, path: seq<bit>)
  {
    match t
    case Leaf(sym, code) => sym.Some? && code == Some(path)
    case Branch(ch) => |ch| == 2 && CodesMatch(ch[0], path + [0]) && CodesMatch(ch[1], path + [1])
  }

  /** A leaf of `root` holding symbol `s` is reached along `code`. */
  predicate LeadsTo(root: Trie, code: seq<bit>, s: Sym)
  {
    var n := Walk(root, code);
    n.Some? && n.value.Leaf? && n.value.sym == Some(s)
  }

  // ------------------------------------------------------------ code list

  /** `generateCodeList`: the leaves' (char, code) pairs, left to right. */
  function CodeList(t: Trie): (r: Result<seq<CharItem>>)
    ensures r.Err? ==> r == Err("Trie node has no code.")
    decreases t
  {
    match t
    case Leaf(sym, code) =>
      if sym.None? || code.None? then Err("Trie node has no code.")
      else Ok([CharItem(sym.value, code.value)])
    case Branch(ch) => CodeListOf(ch)
  }

  function CodeListOf(ch: seq<Trie>): (r: Result<seq<CharItem>>)
    ensures r.Err? ==> r == Err("Trie node has no code.")
    decreases ch
  {
    if ch == [] then Ok([])
    else match CodeList(ch[0])
      case Err(e) => Err(e)
      case Ok(a) =>
        match CodeListOf(ch[1..])
        case Err(e) => Err(e)
        case Ok(b) => Ok(a + b)
  }

  /** A trie whose codes match its paths lists every leaf, and each listed
   *  code leads from the root of the sub-trie to that leaf's symbol. */
  lemma {:induction false} CodeListOfMatching(t: Trie, path: seq<bit>)
    requires CodesMatch(t, path)
    ensures CodeList(t).Ok?
    ensures forall e :: e in CodeList(t).value ==>
      |path| <= |e.code| && e.code[..|path|] == path && LeadsTo(t, e.code[|path|..], e.sym)
    decreases t
  {
    match t
    case Leaf(sym, code) =>
      assert CodeList(t).value == [CharItem(sym.value, path)];
    case Branch(ch) =>
      CodeListOfMatching(ch[0], path + [0]);
      CodeListOfMatching(ch[1], path + [1]);
      var a, b := CodeList(ch[0]).value, CodeList(ch[1]).value;
      assert ch[1..][1..] == [];
      assert CodeListOf(ch[1..]) == Ok(b + []);
      assert CodeList(t) == Ok(a + (b + []));
      forall e | e in CodeList(t).value
        ensures |path| <= |e.code| && e.code[..|path|] == path && LeadsTo(t, e.code[|path|..], e.sym)
      {
        var j: bit := if e in a then 0 else 1;
        var p := path + [j];
        assert e.code[..|p|] == p && LeadsTo(ch[j], e.code[|p|..], e.sym);
        assert e.code[..|path|] == p[..|path|] == path;
        var rest := e.code[|path|..];
        assert rest[0] == j && rest[1..] == e.code[|p|..];
        assert Walk(t, rest) == Walk(ch[j], rest[1..]);
      }
  }

  /** A reachable leaf without a char or a code makes the list throw. */
  lemma {:induction false} CodeListMissing(t: Trie, path: seq<bit>)
    requires Walk(t, path).Some? && Walk(t, path).value.Leaf?
    requires Walk(t, path).value.sym.None? || Walk(t, path).value.code.None?
    ensures CodeList(t) == Err("Trie node has no code.")
    decreases |path|
  {
    if path != [] {
      var ch := t.children;
      CodeListMissing(ch[path[0]], path[1..]);
      CodeListOfErr(ch, path[0]);
    }
  }

  lemma {:induction false} CodeListOfErr(ch: seq<Trie>, i: nat)
    requires i < |ch| && CodeList(ch[i]) == Err("Trie node has no code.")
    ensures CodeListOf(ch) == Err("Trie node has no code.")
    decreases i
  {
    if i > 0 {
      CodeListOfErr(ch[1..], i - 1);
    }
  }

  // ------------------------------------------------------------ code map

  /** Inserts before the first entry whose code is at least as long, which
   *  keeps entries of equal length in their original order. */
  function Insert(x: CharItem, l: seq<CharItem>): (r: seq<CharItem>)
    ensures multiset(r) == multiset(l) + multiset{x}
  {
    if l == [] || |x.code| <= |l[0].code| then [x] + l
    else
      assert l == [l[0]] + l[1..];
      [l[0]] + Insert(x, l[1..])
  }

  predicate SortedByLength(l: seq<CharItem>)
  {
    forall i, j :: 0 <= i < j < |l| ==> |l[i].code| <= |l[j].code|
  }

  /** The `codeList` sort by code length. */
  function SortByLength(l: seq<CharItem>): (r: seq<CharItem>)
    ensures multiset(r) == multiset(l)
    ensures SortedByLength(r)
  {
    if l == [] then []
    else
      assert l == [l[0]] + l[1..];
      var s := SortByLength(l[1..]);
      InsertSorted(l[0], s);
      Insert(l[0], s)
  }

  lemma {:induction false} InsertSorted(x: CharItem, l: seq<CharItem>)
    requires SortedByLength(l)
    ensures SortedByLength(Insert(x, l))
    decreases |l|
  {
    if l != [] && |x.code| > |l[0].code| {
      InsertSorted(x, l[1..]);
      InsertAbove(x, l[1..], |l[0].code|);
      SortedCons(l[0], Insert(x, l[1..]));
    }
  }

  /** Every entry of `Insert(x, l)` is at least as long as a bound that `x`
   *  and every entry of `l` meet. */
  lemma {:induction false} InsertAbove(x: CharItem, l: seq<CharItem>, b: nat)
    requires b <= |x.code| && forall j :: 0 <= j < |l| ==> b <= |l[j].code|
    ensures forall j :: 0 <= j < |Insert(x, l)| ==> b <= |Insert(x, l)[j].code|
    decreases |l|
  {
    if l != [] && |x.code| > |l[0].code| {
      InsertAbove(x, l[1..], b);
      var r := Insert(x, l[1..]);
      assert Insert(x, l) == [l[0]] + r;
    }
  }

  lemma {:induction false} SortedCons(h: CharItem, r: seq<CharItem>)
    requires SortedByLength(r)
    requires forall j :: 0 <= j < |r| ==> |h.code| <= |r[j].code|
    ensures SortedByLength([h] + r)
  {
    var res := [h] + r;
    forall i, j | 0 <= i < j < |res|
      ensures |res[i].code| <= |res[j].code|
    {
      assert res[j] == r[j - 1];
      if i > 0 {
        assert res[i] == r[i - 1];
      }
    }
  }

  /** The `codeMap` built by `forEach`: a later entry for the same symbol
   *  overwrites an earlier one. */
  function CodeMap(l: seq<CharItem>): (m: map<Sym, seq<bit>>)
    ensures forall s :: s in m <==> exists i :: 0 <= i < |l| && l[i].sym == s
    ensures forall s :: s in m ==> CharItem(s, m[s]) in l
  {
    if l == [] then map[]
    else
      var init := l[..|l| - 1];
      var m0 := CodeMap(init);
      assert forall i :: 0 <= i < |init| ==> init[i] == l[i];
      assert forall e :: e in init ==> e in l;
      m0[l[|l| - 1].sym := l[|l| - 1].code]
  }

  /** Each symbol maps to the code of its LAST entry in the list. */
  lemma {:induction false} CodeMapLast(l: seq<CharItem>, i: nat)
    requires i < |l|
    requires forall j :: i < j < |l| ==> l[j].sym != l[i].sym
    ensures l[i].sym in CodeMap(l) && CodeMap(l)[l[i].sym] == l[i].code
  {
    if i < |l| - 1 {
      var init := l[..|l| - 1];
      CodeMapLast(init, i);
    }
  }

  /** Every code in the map built from a matching trie leads to its symbol. */
  predicate CodesWalk(root: Trie, codes: map<Sym, seq<bit>>)
  {
    forall s :: s in codes ==> LeadsTo(root, codes[s], s)
  }

  lemma {:induction false} CodeMapWalks(root: Trie)
    requires CodesMatch(root, [])
    ensures CodeList(root).Ok?
    ensures CodesWalk(root, CodeMap(SortByLength(CodeList(root).value)))
  {
    CodeListOfMatching(root, []);
    var l := CodeList(root).value;
    var m := CodeMap(SortByLength(l));
    forall s | s in m
      ensures LeadsTo(root, m[s], s)
    {
      var e := CharItem(s, m[s]);
      assert e in multiset(SortByLength(l));
      assert e in l;
      assert e.code[0..] == e.code;
    }
  }

  // ------------------------------------------------------------ encoding

  function Flatten(cs: seq<seq<bit>>): seq<bit>
  {
    if cs == [] then [] else cs[0] + Flatten(cs[1..])
  }

  /** The codes of the upper-cased characters, in order; a missing one makes
   *  `codeMap[char].split` throw. */
  function CharCodes(codes: map<Sym, seq<bit>>, upper: char -> char, text: string): (r: Result<seq<seq<bit>>>)
    ensures r.Ok? <==> forall i :: 0 <= i < |text| ==> Char(upper(text[i])) in codes
    ensures r.Ok? ==> |r.value| == |text|
    ensures r.Ok? ==> forall i :: 0 <= i < |text| ==> r.value[i] == codes[Char(upper(text[i]))]
  {
    if text == [] then Ok([])
    else
      var s := Char(upper(text[0]));
      if s !in codes then Err("Cannot read properties of undefined (reading 'split')")
      else match CharCodes(codes, upper, text[1..])
        case Err(e) =>
          assert !(forall i :: 0 <= i < |text| ==> Char(upper(text[i])) in codes) by {
            var i :| 0 <= i < |text[1..]| && Char(upper(text[1..][i])) !in codes;
            assert text[i + 1] == text[1..][i];
          }
          Err(e)
        case Ok(rest) =>
          assert forall i :: 1 <= i < |text| ==> text[i] == text[1..][i - 1];
          Ok([codes[s]] + rest)
  }

  /** The bit list of `encodeText` before padding: the characters' codes and
   *  then TERMINAL's. */
  function EncodedBits(codes: map<Sym, seq<bit>>, upper: char -> char, text: string): Result<seq<bit>>
  {
    match CharCodes(codes, upper, text)
    case Err(e) => Err(e)
    case Ok(cs) =>
      if Terminal !in codes then Err("Cannot read properties of undefined (reading 'split')")
      else Ok(Flatten(cs) + codes[Terminal])
  }

  /** What `encodeText` returns: the padded bits as Uint8 blocks. */
  function EncodedBlocks(codes: map<Sym, seq<bit>>, upper: char -> char, text: string): Result<seq<ByteBlock>>
  {
    match EncodedBits(codes, upper, text)
    case Err(e) => Err(e)
    case Ok(bits) => Ok(Uint8Blocks(PackBits(bits)))
  }

  /** `encodeText`: pads the bit list with zeros to a multiple of 8, then
   *  splices off 8 bits at a time into Uint8 blocks. */
  method EncodeText(codes: map<Sym, seq<bit>>, upper: char -> char, text: string)
    returns (r: Result<seq<ByteBlock>>)
    ensures r == EncodedBlocks(codes, upper, text)
    ensures r.Ok? ==> forall i :: 0 <= i < |r.value| ==> r.value[i].kind == Uint8
    ensures r.Ok? ==> SerializeAll(r.value) == PackBits(EncodedBits(codes, upper, text).value)
  {
    var bits := EncodedBits(codes, upper, text);
    if bits.Err? {
      return Err(bits.error);
    }
    var list := PadWithZeros(bits.value);
    var byteList := SpliceBytes(list);
    SerializeUint8Blocks(Chunk(list));
    return Ok(byteList);
  }

  /** The first loop of `encodeText`: push `0` until the length is a
   *  multiple of 8. */
  method PadWithZeros(bits: seq<bit>) returns (list: seq<bit>)
    ensures list == PadToBytes(bits)
  {
    list := bits;
    ghost var pad := (8 - |bits| % 8) % 8;
    PadReaches(|bits|);
    while |list| % 8 != 0
      invariant |bits| <= |list| <= |bits| + pad
      invariant list == bits + Zeros(|list| - |bits|)
      decreases |bits| + pad - |list|
    {
      PadNotYet(|bits|, |list| - |bits|);
      list := list + [0];
    }
    if |list| - |bits| < pad {
      PadNotYet(|bits|, |list| - |bits|);
    }
  }

  /** The second loop of `encodeText`: splice 8 bits at a time off the front
   *  into a Uint8 block. */
  method SpliceBytes(bits: seq<bit>) returns (byteList: seq<ByteBlock>)
    requires |bits| % 8 == 0
    ensures byteList == Uint8Blocks(Chunk(bits))
  {
    var list := bits;
    byteList := [];
    while |list| > 0
      invariant |list| % 8 == 0
      invariant Uint8Blocks(Chunk(bits)) == byteList + Uint8Blocks(Chunk(list))
      decreases |list|
    {
      SpliceStep(list);
      var v: byte := FromBits(list[..8]);
      byteList := byteList + [ByteBlock(Uint8, v)];
      list := list[8..];
    }
  }

  lemma {:induction false} SpliceStep(list: seq<bit>)
    requires |list| % 8 == 0 && list != []
    ensures |list| >= 8 && |list[8..]| % 8 == 0 && FromBits(list[..8]) < 256
    ensures Uint8Blocks(Chunk(list))
      == [ByteBlock(Uint8, FromBits(list[..8]))] + Uint8Blocks(Chunk(list[8..]))
  {
    ChunkFront(list);
  }

  /** Padding `n` bits with `(8 - n % 8) % 8` zeros reaches a multiple of 8. */
  lemma {:induction false} PadReaches(n: nat)
    ensures (n + (8 - n % 8) % 8) % 8 == 0
  {
    var q, r := n / 8, n % 8;
    if r != 0 {
      DivUnique(n + (8 - r), 8, q + 1, 0);
    }
  }

  /** ... and no smaller count of zeros does. */
  lemma {:induction false} PadNotYet(n: nat, z: nat)
    requires z < (8 - n % 8) % 8
    ensures (n + z) % 8 != 0
  {
    var q, r := n / 8, n % 8;
    DivUnique(n + z, 8, q, r + z);
  }

  /** `testCharacters`: every upper-cased character has a code. */
  predicate TestCharacters(codes: map<Sym, seq<bit>>, upper: char -> char, text: string)
  {
    forall i :: 0 <= i < |text| ==> Char(upper(text[i])) in codes
  }

  /** With TERMINAL in the map, encoding succeeds exactly when
   *  `testCharacters` holds. */
  lemma {:induction false} EncodeSucceedsIff(codes: map<Sym, seq<bit>>, upper: char -> char, text: string)
    requires Terminal in codes
    ensures EncodedBits(codes, upper, text).Ok? <==> TestCharacters(codes, upper, text)
  {
  }

  // ------------------------------------------------------------ decoding

  /** The decoder's `bitList`: the unread bits of the current byte, and the
   *  bytes not yet fetched. */
  datatype BitList = BitList(head: seq<bit>, tail: seq<byte>)

  datatype Piece = Piece(text: string, rest: BitList, used: nat)

  datatype DecodedText = DecodedText(text: string, bytesUsed: nat, remaining: seq<byte>)

  /** A leaf's `char` as JavaScript concatenates it (`null` becomes "null"). */
  function SymText(s: Option<Sym>): string
  {
    match s
    case Some(Char(c)) => [c]
    case Some(Terminal) => "TERMINAL"
    case None => "null"
  }

  const TailExhausted := "Cannot read properties of undefined (reading 'toString')"

  /** `decodePiece` with its closure counter `bytesUsed` threaded through as
   *  `used`. An internal node fetches a fresh byte when the current one is
   *  spent, then follows `children[bit]`; TERMINAL ends the text; any other
   *  leaf emits its char and restarts at the root without consuming a bit
   *  (a root that is such a leaf recurses without end). */
  function DecodePiece(root: Trie, node: Trie, bl: BitList, used: nat): (r: Result<Piece>)
    ensures r.Ok? ==> r.value.used + |r.value.rest.tail| == used + |bl.tail|
    ensures r.Ok? ==> |r.value.rest.tail| <= |bl.tail|
    decreases |bl.head| + 8 * |bl.tail|, if node.Leaf? then 1 else 0
  {
    match node
    case Branch(ch) =>
      if bl.head == [] && bl.tail == [] then Err(TailExhausted)
      else
        var bl1 := if bl.head == [] then BitList(Bits(bl.tail[0], 8), bl.tail[1..]) else bl;
        var used1 := if bl.head == [] then used + 1 else used;
        var n := bl1.head[0];
        if n < |ch| then DecodePiece(root, ch[n], BitList(bl1.head[1..], bl1.tail), used1)
        else Err("No character.")
    case Leaf(sym, _) =>
      if sym == Some(Terminal) then Ok(Piece("", bl, used))
      else if root.Branch? then
        match DecodePiece(root, root, bl, used)
        case Err(e) => Err(e)
        case Ok(p) => Ok(Piece(SymText(sym) + p.text, p.rest, p.used))
      else if root.sym == Some(Terminal) then Ok(Piece(SymText(sym), bl, used))
      else Err("Maximum call stack size exceeded")
  }

  /** `decodeText`: the text, the number of bytes fetched, and the bytes after
   *  them. */
  function DecodeText(root: Trie, bytes: seq<byte>): (r: Result<DecodedText>)
    ensures |bytes| == 0 ==> r == Err("No bytes to decode.")
    ensures r.Ok? ==> 1 <= r.value.bytesUsed <= |bytes|
    ensures r.Ok? ==> r.value.remaining == bytes[r.value.bytesUsed..]
  {
    if |bytes| < 1 then Err("No bytes to decode.")
    else match DecodePiece(root, root, BitList(Bits(bytes[0], 8), bytes[1..]), 1)
      case Err(e) => Err(e)
      case Ok(p) => Ok(DecodedText(p.text, p.used, bytes[p.used..]))
  }

  // ------------------------------------------------------------ round trip

  /** The decoder state after `k` bits of `bytes`, whose bits are `u`, have
   *  been consumed. A full head only occurs before the first bit. */
  ghost predicate At(u: seq<bit>, bytes: seq<byte>, bl: BitList, used: nat, k: nat)
  {
    |u| == 8 * |bytes| && 1 <= used <= |bytes| && bl.tail == bytes[used..] && |bl.head| <= 8 &&
    k + |bl.head| == 8 * used && bl.head == u[k..8 * used] &&
    (|bl.head| == 8 ==> used == 1)
  }

  /** `u` holds the bits of `bytes`, one byte after another. */
  ghost predicate Unpacked(u: seq<bit>, bytes: seq<byte>)
  {
    |u| == 8 * |bytes| && forall i :: 0 <= i < |bytes| ==> u[8 * i..8 * i + 8] == Bits(bytes[i], 8)
  }

  lemma {:induction false} UnpackedUnpack(bytes: seq<byte>)
    ensures Unpacked(Unpack(bytes), bytes)
  {
    forall i | 0 <= i < |bytes|
      ensures Unpack(bytes)[8 * i..8 * i + 8] == Bits(bytes[i], 8)
    {
      UnpackAt(bytes, i);
    }
  }

  lemma {:induction false} AtStart(bytes: seq<byte>)
    requires |bytes| >= 1
    ensures At(Unpack(bytes), bytes, BitList(Bits(bytes[0], 8), bytes[1..]), 1, 0)
  {
    UnpackAt(bytes, 0);
  }

  /** One internal-node step reads bit k of the input. */
  lemma {:induction false} StepBranch(root: Trie, ch: seq<Trie>, u: seq<bit>, bytes: seq<byte>, bl: BitList, used: nat, k: nat)
    returns (bl': BitList, used': nat)
    requires Unpacked(u, bytes) && At(u, bytes, bl, used, k) && k < |u|
    ensures At(u, bytes, bl', used', k + 1)
    ensures DecodePiece(root, Branch(ch), bl, used) ==
      if u[k] < |ch| then DecodePiece(root, ch[u[k]], bl', used') else Err("No character.")
  {
    if bl.head == [] {
      bl', used' := BitList(Bits(bytes[used], 8)[1..], bytes[used + 1..]), used + 1;
      assert used < |bytes| && u[8 * used..8 * used + 8] == Bits(bytes[used], 8);
      FetchAt(u, bytes, bl, used, k);
    } else {
      bl', used' := BitList(bl.head[1..], bl.tail), used;
      SliceFront(u, k, 8 * used);
    }
  }

  /** With the current byte spent, bit k is the first bit of the next byte. */
  lemma {:induction false} FetchAt(u: seq<bit>, bytes: seq<byte>, bl: BitList, used: nat, k: nat)
    requires At(u, bytes, bl, used, k) && bl.head == [] && used < |bytes|
    requires u[k..k + 8] == Bits(bytes[used], 8)
    ensures bl.tail != [] && bl.tail[0] == bytes[used]
    ensures u[k] == Bits(bytes[used], 8)[0]
    ensures At(u, bytes, BitList(Bits(bytes[used], 8)[1..], bytes[used + 1..]), used + 1, k + 1)
  {
    var byteBits := Bits(bytes[used], 8);
    SliceFront(u, k, k + 8);
    assert byteBits[1..] == u[k + 1..k + 8] && k + 8 == 8 * (used + 1);
  }

  /** Following a code from a node reaches the code's node with the code's
   *  bits consumed. */
  lemma {:induction false} WalkCode(root: Trie, node: Trie, code: seq<bit>, u: seq<bit>, bytes: seq<byte>,
                                    bl: BitList, used: nat, k: nat)
    returns (bl': BitList, used': nat)
    requires Unpacked(u, bytes) && At(u, bytes, bl, used, k) && k + |code| <= |u|
    requires u[k..k + |code|] == code
    requires Walk(node, code).Some?
    ensures At(u, bytes, bl', used', k + |code|)
    ensures DecodePiece(root, node, bl, used) == DecodePiece(root, Walk(node, code).value, bl', used')
    decreases |code|
  {
    if code == [] {
      bl', used' := bl, used;
    } else {
      var ch, b := node.children, code[0];
      assert Walk(node, code) == Walk(ch[b], code[1..]);
      SliceFront(u, k, k + |code|);
      var bl1, used1 := StepBranch(root, ch, u, bytes, bl, used, k);
      bl', used' := WalkCode(root, ch[b], code[1..], u, bytes, bl1, used1, k + 1);
    }
  }

  /** Decoding from the root a run of character codes followed by TERMINAL's
   *  code yields exactly those characters and stops after TERMINAL. */
  lemma {:induction false} DecodeMessage(root: Trie, msg: string, cs: seq<seq<bit>>, term: seq<bit>,
                                         u: seq<bit>, bytes: seq<byte>, bl: BitList, used: nat, k: nat, end: nat)
    returns (bl': BitList, used': nat)
    requires root.Branch? && Leading(root, msg, cs) && LeadsTo(root, term, Terminal)
    requires Unpacked(u, bytes) && At(u, bytes, bl, used, k) && end == k + |Flatten(cs) + term| <= |u|
    requires u[k..end] == Flatten(cs) + term
    ensures At(u, bytes, bl', used', end)
    ensures DecodePiece(root, root, bl, used) == Ok(Piece(msg, bl', used'))
    decreases |msg|
  {
    if msg == [] {
      bl', used' := DecodeEnd(root, cs, term, u, bytes, bl, used, k, end);
    } else {
      var c := cs[0];
      MessageWindow(u, k, cs, term, end);
      var bl1, used1 := WalkCode(root, root, c, u, bytes, bl, used, k);
      assert Leading(root, msg[1..], cs[1..]);
      bl', used' := DecodeMessage(root, msg[1..], cs[1..], term, u, bytes, bl1, used1, k + |c|, end);
      EmitThenRest(root, Walk(root, c).value, bl, used, bl1, used1, msg, bl', used');
    }
  }

  /** An empty message: TERMINAL's code alone ends the text. */
  lemma {:induction false} DecodeEnd(root: Trie, cs: seq<seq<bit>>, term: seq<bit>,
                  u: seq<bit>, bytes: seq<byte>, bl: BitList, used: nat, k: nat, end: nat)
    returns (bl': BitList, used': nat)
    requires root.Branch? && cs == [] && LeadsTo(root, term, Terminal)
    requires Unpacked(u, bytes) && At(u, bytes, bl, used, k) && end == k + |Flatten(cs) + term| <= |u|
    requires u[k..end] == Flatten(cs) + term
    ensures At(u, bytes, bl', used', end)
    ensures DecodePiece(root, root, bl, used) == Ok(Piece("", bl', used'))
  {
    assert Flatten(cs) + term == term;
    bl', used' := WalkCode(root, root, term, u, bytes, bl, used, k);
  }

  /** The window holding a message's bits holds its first code, then the
   *  rest of the message's bits. */
  lemma {:induction false} MessageWindow(u: seq<bit>, k: nat, cs: seq<seq<bit>>, term: seq<bit>, end: nat)
    requires cs != [] && end == k + |Flatten(cs) + term| <= |u|
    requires u[k..end] == Flatten(cs) + term
    ensures end == k + |cs[0]| + |Flatten(cs[1..]) + term|
    ensures u[k..k + |cs[0]|] == cs[0]
    ensures u[k + |cs[0]|..end] == Flatten(cs[1..]) + term
  {
    var c, more := cs[0], Flatten(cs[1..]) + term;
    assert Flatten(cs) == c + Flatten(cs[1..]);
    AppendAssoc(c, Flatten(cs[1..]), term);
    SplitWindow(u, k, c, more);
  }

  /** Each code of `cs` leads from the root to the matching character of
   *  `msg`. */
  predicate Leading(root: Trie, msg: string, cs: seq<seq<bit>>)
    decreases |msg|
  {
    |cs| == |msg| && (msg == [] || (LeadsTo(root, cs[0], Char(msg[0])) && Leading(root, msg[1..], cs[1..])))
  }

  lemma {:induction false} LeadingAll(root: Trie, msg: string, cs: seq<seq<bit>>)
    requires |cs| == |msg|
    requires forall i :: 0 <= i < |msg| ==> LeadsTo(root, cs[i], Char(msg[i]))
    ensures Leading(root, msg, cs)
    decreases |msg|
  {
    if msg != [] {
      forall i | 0 <= i < |msg[1..]|
        ensures LeadsTo(root, cs[1..][i], Char(msg[1..][i]))
      {
        assert cs[1..][i] == cs[i + 1] && msg[1..][i] == msg[i + 1];
      }
      LeadingAll(root, msg[1..], cs[1..]);
    }
  }

  lemma {:induction false} EmitThenRest(root: Trie, leaf: Trie, bl: BitList, used: nat, bl1: BitList, used1: nat,
                     msg: string, bl': BitList, used': nat)
    requires root.Branch? && |msg| > 0 && leaf.Leaf? && leaf.sym == Some(Char(msg[0]))
    requires DecodePiece(root, root, bl, used) == DecodePiece(root, leaf, bl1, used1)
    requires DecodePiece(root, root, bl1, used1) == Ok(Piece(msg[1..], bl', used'))
    ensures DecodePiece(root, root, bl, used) == Ok(Piece(msg, bl', used'))
  {
    LeafStep(root, leaf, bl1, used1);
    assert msg == [msg[0]] + msg[1..];
  }

  lemma {:induction false} AppendAssoc(a: seq<bit>, b: seq<bit>, c: seq<bit>)
    ensures (a + b) + c == a + (b + c)
  {
  }

  /** A window of a bit string that holds `a + b` holds `a`, then `b`. */
  lemma {:induction false} SplitWindow(s: seq<bit>, k: nat, a: seq<bit>, b: seq<bit>)
    requires k + |a| + |b| <= |s| && s[k..k + |a + b|] == a + b
    ensures s[k..k + |a|] == a && s[k + |a|..k + |a| + |b|] == b
  {
    forall i | 0 <= i < |a|
      ensures s[k + i] == a[i]
    {
      assert s[k..k + |a + b|][i] == (a + b)[i];
    }
    forall i | 0 <= i < |b|
      ensures s[k + |a| + i] == b[i]
    {
      assert s[k..k + |a + b|][|a| + i] == (a + b)[|a| + i];
    }
  }

  /** A character leaf emits its char and restarts at the root. */
  lemma {:induction false} LeafStep(root: Trie, leaf: Trie, bl: BitList, used: nat)
    requires root.Branch? && leaf.Leaf? && leaf.sym.Some? && leaf.sym.value.Char?
    ensures DecodePiece(root, leaf, bl, used) ==
      match DecodePiece(root, root, bl, used)
      case Err(e) => Err(e)
      case Ok(p) => Ok(Piece([leaf.sym.value.c] + p.text, p.rest, p.used))
  {
  }

  lemma {:induction false} BytesUsedIsCeiling(u: nat, m: nat, h: nat)
    requires 8 * u == m + h && h <= 7
    ensures u == (m + 7) / 8
  {
    DivUnique(m + 7, 8, u, 7 - h);
  }

  /** The bytes of a packed bit string, whatever follows them, start with
   *  that bit string. */
  lemma {:induction false} PackedWindow(bits: seq<bit>, rest: seq<byte>)
    requires |bits| > 0
    ensures var bytes := PackBits(bits) + rest;
      |bytes| >= 1 && Unpacked(Unpack(bytes), bytes) && |bits| <= |Unpack(bytes)| && Unpack(bytes)[0..|bits|] == bits
  {
    var enc := PackBits(bits);
    UnpackAppend(enc, rest);
    PackBitsRoundTrip(bits);
    PrefixOfAppend(Unpack(enc), Unpack(rest), bits);
    UnpackedUnpack(enc + rest);
  }

  /** The text as the decoder gives it back: each character mapped through
   *  the encoder's upper-casing. */
  function Upper(upper: char -> char, text: string): string
  {
    seq(|text|, i requires 0 <= i < |text| => upper(text[i]))
  }

  /** Round trip: decoding the encoding of a text, followed by any bytes,
   *  yields the upper-cased text, reports exactly the encoded bytes as used,
   *  and leaves the following bytes untouched. */
  lemma {:induction false} DecodeEncoded(root: Trie, codes: map<Sym, seq<bit>>, upper: char -> char, text: string, rest: seq<byte>)
    requires root.Branch? && CodesWalk(root, codes)
    requires EncodedBits(codes, upper, text).Ok?
    ensures var enc := PackBits(EncodedBits(codes, upper, text).value);
      DecodeText(root, enc + rest) ==
        Ok(DecodedText(Upper(upper, text), |enc|, rest))
  {
    var bits := EncodedBits(codes, upper, text).value;
    var cs := CharCodes(codes, upper, text).value;
    var term := codes[Terminal];
    var msg := Upper(upper, text);
    assert LeadsTo(root, term, Terminal);
    LeadingAll(root, msg, cs);
    DecodePacked(root, msg, cs, term, bits, rest);
  }

  /** Decoding the packed bits of a message's codes and TERMINAL's code. */
  lemma {:induction false} DecodePacked(root: Trie, msg: string, cs: seq<seq<bit>>, term: seq<bit>, bits: seq<bit>, rest: seq<byte>)
    requires root.Branch? && Leading(root, msg, cs) && LeadsTo(root, term, Terminal)
    requires bits == Flatten(cs) + term
    ensures DecodeText(root, PackBits(bits) + rest) == Ok(DecodedText(msg, |PackBits(bits)|, rest))
  {
    var bytes := PackBits(bits) + rest;
    PackedWindow(bits, rest);
    AtStart(bytes);
    var bl', used' := DecodeMessage(root, msg, cs, term, Unpack(bytes), bytes, BitList(Bits(bytes[0], 8), bytes[1..]), 1, 0, |bits|);
    BytesUsedIsCeiling(used', |bits|, |bl'.head|);
    assert bytes[used'..] == rest;
  }
}
