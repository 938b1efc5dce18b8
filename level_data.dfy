/** Whole levels in the save file (src/common/levels.ts:85-104, 273-389):
 *  concatenated map buffers split apart by walking their layout, and a
 *  level's name, goal and maps written out and read back. */
module LevelData {
  import opened Wrappers
  import opened Bytes
  import opened Text
  import opened Goals
  import opened Objects
  import opened Levels
  import opened LevelMaps

  // ---------------------------------------------------------------- splitting

  /** The bytes an exported field list takes, each field its type's size. */
  function FieldsSize(fields: seq<ExportField>): nat
  {
    if fields == [] then 0 else Size(fields[0].kind) + FieldsSize(fields[1..])
  }

  /** The size of the `t`th type's exported fields, looked up one entry at
   *  a time. */
  function TableSize(types: seq<ObjectType>, t: nat): nat
    requires t < |types|
  {
    if t == 0 then FieldsSize(types[0].exportData) else TableSize(types[1..], t - 1)
  }

  lemma {:induction false} TableSizeIs(types: seq<ObjectType>, t: nat)
    requires t < |types|
    ensures TableSize(types, t) == FieldsSize(types[t].exportData)
  {
    if t > 0 {
      TableSizeIs(types[1..], t - 1);
    }
  }

  /** A lookup from a layer's type byte to the type table it names. */
  type TableOf = int -> Result<seq<ObjectType>>

  /** The type table the layer byte names, or the error naming the byte. */
  function LayerTable(layerType: int): Result<seq<ObjectType>>
  {
    match ConvertByteToLayerType(layerType)
    case Err(e) => Err(e)
    case Ok(kind) => Ok(GetTypeFactory(kind))
  }

  /** The splitter's `readingType` with the cursor at `i`, in a layer whose
   *  byte names `table`: a Uint16 object type, the terminator ending the
   *  layer. The result is the cursor after the terminator. */
  function SkipObjects(table: Result<seq<ObjectType>>, d: seq<byte>, i: nat): (r: Result<nat>)
    ensures r.Ok? ==> i + 2 <= r.value <= |d|
    decreases |d| - i, 0
  {
    if |d| < i + 2 then Err(OutOfBounds)
    else
      var t := 256 * (d[i] as int) + d[i + 1] as int;
      if t == Terminator then Ok(i + 2) else SkipObjectData(table, t, d, i + 2)
  }

  /** The splitter's `readingObjectData`: the layer byte must name a type
   *  table holding the type, whose exported fields the cursor moves past
   *  unread, possibly past the end, where the next type read throws. */
  function SkipObjectData(table: Result<seq<ObjectType>>, objectType: int, d: seq<byte>, i: nat): (r: Result<nat>)
    requires i <= |d|
    ensures r.Ok? ==> i < r.value <= |d|
    decreases |d| - i, 1
  {
    match table
    case Err(e) => Err(e)
    case Ok(types) =>
      if !(0 <= objectType < |types|) then Err(ExportDataMissing)
      else SkipObjects(table, d, i + TableSize(types, objectType))
  }

  /** The splitter's `readingLayerOptions`, `n` times: the type byte at the
   *  cursor, then five bytes of options skipped, then the layer's objects
   *  with the table `tableOf` gives for that byte. */
  function SkipLayers(tableOf: TableOf, d: seq<byte>, i: nat, n: nat): (r: Result<nat>)
    requires i <= |d|
    ensures r.Ok? ==> i <= r.value <= |d|
    decreases n
  {
    if n == 0 then Ok(i)
    else if |d| <= i then Err(OutOfBounds)
    else match SkipObjects(tableOf(d[i]), d, i + 5)
      case Err(e) => Err(e)
      case Ok(j) => SkipLayers(tableOf, d, j, n - 1)
  }

  /** One map from `start`: the layer count at offset 5, then the layers
   *  after the six header bytes. */
  function SkipMap(tableOf: TableOf, d: seq<byte>, start: nat): (r: Result<nat>)
    ensures r.Ok? ==> start + 6 <= r.value <= |d|
  {
    if |d| <= start + 5 then Err(OutOfBounds) else SkipLayers(tableOf, d, start + 6, d[start + 5])
  }

  /** What `splitMapBytes` returns. */
  datatype SplitMaps = SplitMaps(maps: seq<seq<byte>>, remainingBytes: seq<byte>)

  function Join(maps: seq<seq<byte>>): seq<byte>
  {
    if maps == [] then [] else maps[0] + Join(maps[1..])
  }

  /** `splitMapBytes` from the cursor `start`, `count` maps to go: each map
   *  cut off where the splitter stops. */
  function SplitFrom(tableOf: TableOf, d: seq<byte>, start: nat, count: nat): (r: Result<SplitMaps>)
    requires start <= |d|
    decreases count
  {
    if count == 0 then Ok(SplitMaps([], d[start..]))
    else match SkipMap(tableOf, d, start)
      case Err(e) => Err(e)
      case Ok(j) =>
        match SplitFrom(tableOf, d, j, count - 1)
        case Err(e) => Err(e)
        case Ok(s) => Ok(SplitMaps([d[start..j]] + s.maps, s.remainingBytes))
  }

  /** What `splitMapBytes(data, count)` returns. */
  function SplitBytes(data: seq<byte>, count: nat): (r: Result<SplitMaps>)
    ensures r.Ok? ==> |r.value.maps| == count
    ensures r.Ok? ==> Join(r.value.maps) + r.value.remainingBytes == data
  {
    var r := SplitFrom(LayerTable, data, 0, count);
    if r.Ok? then SplitFromJoins(LayerTable, data, 0, count); assert data[0..] == data; r else r
  }

  /** The split returns `count` maps, each at least a header long; their
   *  concatenation followed by the remaining bytes is the input after the
   *  cursor. */
  lemma {:induction false} SplitFromJoins(tableOf: TableOf, d: seq<byte>, start: nat, count: nat)
    requires start <= |d| && SplitFrom(tableOf, d, start, count).Ok?
    ensures var s := SplitFrom(tableOf, d, start, count).value;
      |s.maps| == count && Join(s.maps) + s.remainingBytes == d[start..]
    ensures var s := SplitFrom(tableOf, d, start, count).value;
      forall k | 0 <= k < count :: |s.maps[k]| >= 6
    decreases count
  {
    if count > 0 {
      var j := SkipMap(tableOf, d, start).value;
      SplitFromJoins(tableOf, d, j, count - 1);
      var s := SplitFrom(tableOf, d, j, count - 1).value;
      var maps := [d[start..j]] + s.maps;
      assert maps[1..] == s.maps;
      assert d[start..j] + d[j..] == d[start..];
      assert Join(maps) + s.remainingBytes == d[start..j] + (Join(s.maps) + s.remainingBytes);
    }
  }

  // ------------------------------------------------------- splitting: facts

  /** The splitter looks only at the bytes of the map: bytes after it
   *  change nothing. */
  lemma {:induction false} SkipObjectsExtends(table: Result<seq<ObjectType>>, d: seq<byte>, e: seq<byte>, i: nat)
    requires SkipObjects(table, d, i).Ok?
    ensures SkipObjects(table, d + e, i) == SkipObjects(table, d, i)
    decreases |d| - i, 0
  {
    assert (d + e)[i] == d[i] && (d + e)[i + 1] == d[i + 1];
    var t := 256 * (d[i] as int) + d[i + 1] as int;
    if t != Terminator {
      SkipObjectDataExtends(table, t, d, e, i + 2);
    }
  }

  lemma {:induction false} SkipObjectDataExtends(table: Result<seq<ObjectType>>, objectType: int, d: seq<byte>, e: seq<byte>, i: nat)
    requires i <= |d| && SkipObjectData(table, objectType, d, i).Ok?
    ensures SkipObjectData(table, objectType, d + e, i) == SkipObjectData(table, objectType, d, i)
    decreases |d| - i, 1
  {
    SkipObjectsExtends(table, d, e, i + TableSize(table.value, objectType));
  }

  lemma {:induction false} SkipLayersExtends(tableOf: TableOf, d: seq<byte>, e: seq<byte>, i: nat, n: nat)
    requires i <= |d| && SkipLayers(tableOf, d, i, n).Ok?
    ensures SkipLayers(tableOf, d + e, i, n) == SkipLayers(tableOf, d, i, n)
    decreases n
  {
    if n > 0 {
      assert (d + e)[i] == d[i];
      SkipObjectsExtends(tableOf(d[i]), d, e, i + 5);
      SkipLayersExtends(tableOf, d, e, SkipObjects(tableOf(d[i]), d, i + 5).value, n - 1);
    }
  }

  /** Bytes before the map shift the cursor and change nothing else. */
  lemma {:induction false} SkipObjectsShifts(table: Result<seq<ObjectType>>, p: seq<byte>, d: seq<byte>, i: nat)
    requires SkipObjects(table, d, i).Ok?
    ensures SkipObjects(table, p + d, |p| + i) == Ok(|p| + SkipObjects(table, d, i).value)
    decreases |d| - i, 0
  {
    assert (p + d)[|p| + i] == d[i] && (p + d)[|p| + i + 1] == d[i + 1];
    var t := 256 * (d[i] as int) + d[i + 1] as int;
    if t != Terminator {
      SkipObjectDataShifts(table, t, p, d, i + 2);
    }
  }

  lemma {:induction false} SkipObjectDataShifts(table: Result<seq<ObjectType>>, objectType: int, p: seq<byte>, d: seq<byte>, i: nat)
    requires i <= |d| && SkipObjectData(table, objectType, d, i).Ok?
    ensures SkipObjectData(table, objectType, p + d, |p| + i) == Ok(|p| + SkipObjectData(table, objectType, d, i).value)
    decreases |d| - i, 1
  {
    SkipObjectsShifts(table, p, d, i + TableSize(table.value, objectType));
  }

  lemma {:induction false} SkipLayersShifts(tableOf: TableOf, p: seq<byte>, d: seq<byte>, i: nat, n: nat)
    requires i <= |d| && SkipLayers(tableOf, d, i, n).Ok?
    ensures SkipLayers(tableOf, p + d, |p| + i, n) == Ok(|p| + SkipLayers(tableOf, d, i, n).value)
    decreases n
  {
    if n > 0 {
      var table := tableOf(d[i]);
      var j := SkipObjects(table, d, i + 5).value;
      SkipLayersStep(tableOf, d, i, n, j);
      SkipObjectsShifts(table, p, d, i + 5);
      var e := p + d;
      assert e[|p| + i] == d[i];
      assert tableOf(e[|p| + i]) == table;
      assert SkipObjects(table, e, |p| + i + 5) == Ok(|p| + j);
      SkipLayersStep(tableOf, e, |p| + i, n, |p| + j);
      SkipLayersShifts(tableOf, p, d, j, n - 1);
    }
  }

  /** Past one layer's objects the splitter goes on with the next layer. */
  lemma {:induction false} SkipLayersStep(tableOf: TableOf, d: seq<byte>, i: nat, n: nat, j: nat)
    requires 0 < n && i < |d| && SkipObjects(tableOf(d[i]), d, i + 5) == Ok(j)
    ensures SkipLayers(tableOf, d, i, n) == SkipLayers(tableOf, d, j, n - 1)
  {
  }

  lemma {:induction false} SkipMapExtends(tableOf: TableOf, d: seq<byte>, e: seq<byte>, start: nat)
    requires SkipMap(tableOf, d, start).Ok?
    ensures SkipMap(tableOf, d + e, start) == SkipMap(tableOf, d, start)
  {
    assert (d + e)[start + 5] == d[start + 5];
    SkipLayersExtends(tableOf, d, e, start + 6, d[start + 5]);
  }

  lemma {:induction false} SkipMapShifts(tableOf: TableOf, p: seq<byte>, d: seq<byte>, start: nat)
    requires SkipMap(tableOf, d, start).Ok?
    ensures SkipMap(tableOf, p + d, |p| + start) == Ok(|p| + SkipMap(tableOf, d, start).value)
  {
    assert (p + d)[|p| + start + 5] == d[start + 5];
    SkipLayersShifts(tableOf, p, d, start + 6, d[start + 5]);
  }

  /** A field list's bytes take the size the splitter skips for it. */
  lemma {:induction false} FieldBytesSize(fields: seq<ExportField>, o: MapObject)
    requires FieldBlocks(fields, o).Ok?
    ensures |SerializeAll(FieldBlocks(fields, o).value)| == FieldsSize(fields)
  {
    var bs := FieldBlocks(fields, o).value;
    KindsSize(bs, fields);
    SerializeAllLength(bs);
  }

  lemma {:induction false} KindsSize(bs: seq<ByteBlock>, fields: seq<ExportField>)
    requires |bs| == |fields| && forall k | 0 <= k < |bs| :: bs[k].kind == fields[k].kind
    ensures TotalSize(bs) == FieldsSize(fields)
    decreases |bs|
  {
    if bs != [] {
      KindsSize(bs[1..], fields[1..]);
    }
  }

  /** The splitter walks the objects `generateDataBytes` writes for a layer
   *  and stops right after their terminator. */
  lemma {:induction false} SkipsObjectBlocks(types: seq<ObjectType>, objects: seq<MapObject>, rest: seq<byte>)
    requires |types| < Terminator && ObjectsBlocks(types, objects).Ok?
    ensures SkipObjects(Ok(types), SerializeAll(ObjectsBlocks(types, objects).value) + ([255, 255] + rest), 0) ==
      Ok(|SerializeAll(ObjectsBlocks(types, objects).value)| + 2)
    decreases |objects|
  {
    var d := SerializeAll(ObjectsBlocks(types, objects).value) + ([255, 255] + rest);
    if objects == [] {
      assert d[0] == 255 && d[1] == 255;
    } else {
      var first := ObjectBlocks(types, objects[0]).value;
      var more := ObjectsBlocks(types, objects[1..]).value;
      assert ObjectsBlocks(types, objects).value == first + more;
      SkipsObjectBlocks(types, objects[1..], rest);
      var y := SerializeAll(more) + ([255, 255] + rest);
      AppendBytes(first, more, [255, 255] + rest);
      var head, a := ObjectBytes(types, objects[0]);
      SkipPastObject(types, objects[0].Type(), head, a, y);
      assert d == head + a + y;
    }
  }

  /** A stored object's bytes: its two type bytes, then as many bytes as
   *  its type's table entry names. */
  lemma {:induction false} ObjectBytes(types: seq<ObjectType>, o: MapObject) returns (head: seq<byte>, a: seq<byte>)
    requires |types| < Terminator && ObjectBlocks(types, o).Ok?
    ensures SerializeAll(ObjectBlocks(types, o).value) == head + a
    ensures 0 <= o.Type() < |types| && |head| == 2 && 256 * (head[0] as int) + head[1] as int == o.Type()
    ensures |a| == TableSize(types, o.Type())
  {
    var t := o.Type();
    var fields := FieldBlocks(types[t].exportData, o).value;
    ConsBytes(ByteBlock(Uint16, t), fields, []);
    head := Serialize(ByteBlock(Uint16, t));
    a := SerializeAll(fields);
    BigEndianRoundTrip(t, 2);
    WordOfBytes(head);
    FieldBytesSize(types[t].exportData, o);
    TableSizeIs(types, t);
  }

  /** Past one object of type `t` in front of bytes `y` the splitter gets
   *  through. */
  lemma {:induction false} SkipPastObject(types: seq<ObjectType>, t: int, head: seq<byte>, a: seq<byte>, y: seq<byte>)
    requires 0 <= t < |types| < Terminator && |head| == 2 && 256 * (head[0] as int) + head[1] as int == t
    requires |a| == TableSize(types, t)
    requires SkipObjects(Ok(types), y, 0).Ok?
    ensures SkipObjects(Ok(types), head + a + y, 0) == Ok(|head| + |a| + SkipObjects(Ok(types), y, 0).value)
  {
    var d := head + a + y;
    assert d[0] == head[0] && d[1] == head[1];
    SkipAtType(Ok(types), d, 0, t);
    SkipKnownType(types, t, d, 2);
    SkipObjectsShifts(Ok(types), head + a, y, 0);
  }

  /** At a type that is not the terminator the splitter reads its data. */
  lemma {:induction false} SkipAtType(table: Result<seq<ObjectType>>, d: seq<byte>, i: nat, t: int)
    requires i + 2 <= |d| && 256 * (d[i] as int) + d[i + 1] as int == t && t != Terminator
    ensures SkipObjects(table, d, i) == SkipObjectData(table, t, d, i + 2)
  {
  }

  /** A type in the table: the splitter moves past its fields. */
  lemma {:induction false} SkipKnownType(types: seq<ObjectType>, t: int, d: seq<byte>, i: nat)
    requires 0 <= t < |types| && i <= |d|
    ensures SkipObjectData(Ok(types), t, d, i) == SkipObjects(Ok(types), d, i + TableSize(types, t))
  {
  }

  /** The splitter walks the layers `generateDataBytes` writes and stops
   *  right after the last. */
  lemma {:induction false} SkipsLayerBlocks(layers: seq<LayerValue>, rest: seq<byte>, n: nat)
    requires n == |layers| && LayersBlocks(layers).Ok?
    ensures SkipLayers(LayerTable, SerializeAll(LayersBlocks(layers).value) + rest, 0, n) ==
      Ok(|SerializeAll(LayersBlocks(layers).value)|)
    decreases n
  {
    if n > 0 {
      LayersFirst(layers);
      SkipsLayerBlocks(layers[1..], rest, n - 1);
      SkipLayersCons(layers, rest, n);
    }
  }

  /** The first layer's blocks, then the other layers'. */
  lemma {:induction false} LayersFirst(layers: seq<LayerValue>)
    requires layers != [] && LayersBlocks(layers).Ok?
    ensures LayerBlocks(layers[0]).Ok? && LayersBlocks(layers[1..]).Ok?
    ensures LayersBlocks(layers).value == LayerBlocks(layers[0]).value + LayersBlocks(layers[1..]).value
  {
  }

  /** The first layer in front of the others' bytes. */
  lemma {:induction false} SkipLayersCons(layers: seq<LayerValue>, rest: seq<byte>, n: nat)
    requires 0 < n == |layers| && LayersBlocks(layers).Ok? && LayersBlocks(layers[1..]).Ok?
    requires SkipLayers(LayerTable, SerializeAll(LayersBlocks(layers[1..]).value) + rest, 0, n - 1) ==
      Ok(|SerializeAll(LayersBlocks(layers[1..]).value)|)
    ensures SkipLayers(LayerTable, SerializeAll(LayersBlocks(layers).value) + rest, 0, n) ==
      Ok(|SerializeAll(LayersBlocks(layers).value)|)
  {
    LayersFirst(layers);
    var first := LayerBlocks(layers[0]).value;
    var more := LayersBlocks(layers[1..]).value;
    var y := SerializeAll(more) + rest;
    AppendBytes(first, more, rest);
    var d := SerializeAll(LayersBlocks(layers).value) + rest;
    assert d == SerializeAll(first) + y;
    var k, types := FirstLayerSkip(layers[0], y);
    SkipPastLayer(LayerTable, types, d, k, y, n, |SerializeAll(LayersBlocks(layers).value)|);
  }

  /** The splitter steps over a stored layer's options and objects to the
   *  bytes after it. */
  lemma {:induction false} FirstLayerSkip(l: LayerValue, y: seq<byte>) returns (k: nat, types: seq<ObjectType>)
    requires LayerBlocks(l).Ok?
    ensures var d := SerializeAll(LayerBlocks(l).value) + y;
      5 <= k == |SerializeAll(LayerBlocks(l).value)| <= |d| && LayerTable(d[0]) == Ok(types) &&
      SkipObjects(Ok(types), d, 5) == Ok(k) && d[k..] == y
  {
    var q, x, t := LayerSkip(l, y);
    types := t;
    var d := SerializeAll(LayerBlocks(l).value) + y;
    SkipObjectsShifts(Ok(types), q, x + ([255, 255] + y), 0);
    assert d[0] == q[0];
    k := |q| + |x| + 2;
    assert d[k..] == y;
  }

  /** A stored layer: its bytes split into options, objects and the
   *  terminator, and the splitter gets through the objects. */
  lemma {:induction false} LayerSkip(l: LayerValue, y: seq<byte>) returns (q: seq<byte>, x: seq<byte>, types: seq<ObjectType>)
    requires LayerBlocks(l).Ok?
    ensures SerializeAll(LayerBlocks(l).value) + y == q + (x + ([255, 255] + y))
    ensures |SerializeAll(LayerBlocks(l).value)| == |q| + |x| + 2
    ensures |q| == 5 && LayerTable(q[0]) == Ok(types)
    ensures SkipObjects(Ok(types), x + ([255, 255] + y), 0) == Ok(|x| + 2)
  {
    q, x := LayerBytesSplit(l);
    Associate(q + x, [255, 255], y, [255, 255] + y);
    Associate(q, x, [255, 255] + y, x + ([255, 255] + y));
    types := GetTypeFactory(l.kind);
    SkipsObjectBlocks(types, l.objects, y);
  }

  /** A stored layer's bytes: five option bytes, the first naming its
   *  table, its objects' bytes and the terminator. */
  lemma {:induction false} LayerBytesSplit(l: LayerValue) returns (q: seq<byte>, x: seq<byte>)
    requires LayerBlocks(l).Ok?
    ensures SerializeAll(LayerBlocks(l).value) == q + x + [255, 255]
    ensures |q| == 5 && LayerTable(q[0]) == Ok(GetTypeFactory(l.kind)) && |GetTypeFactory(l.kind)| < Terminator
    ensures ObjectsBlocks(GetTypeFactory(l.kind), l.objects).Ok?
    ensures x == SerializeAll(ObjectsBlocks(GetTypeFactory(l.kind), l.objects).value)
  {
    var b := ConvertLayerTypeToByte(l.kind).value;
    var objects := ObjectsBlocks(GetTypeFactory(l.kind), l.objects).value;
    var h0 := ByteBlock(Uint8, b);
    var h1 := ByteBlock(Float32, l.scrollX);
    var term := ByteBlock(Uint16, Terminator);
    assert LayerBlocks(l).value == [h0, h1] + objects + [term];
    LayerBytes(h0, h1, objects, term, []);
    TerminatorBytes([]);
    SerializeByte(b);
    q := Serialize(h0) + Serialize(h1);
    x := SerializeAll(objects);
    assert SerializeAll(LayerBlocks(l).value) == q + (x + ([255, 255] + []));
    assert [255, 255] + [] == [255, 255];
    Associate(q, x, [255, 255], x + [255, 255]);
    assert |Serialize(h1)| == 4;
    assert q[0] == b;
    LayerTableOf(l.kind, b);
  }

  /** The table a stored layer's byte names is its kind's table. */
  lemma {:induction false} LayerTableOf(kind: string, b: int)
    requires ConvertLayerTypeToByte(kind) == Ok(b)
    ensures LayerTable(b) == Ok(GetTypeFactory(kind)) && |GetTypeFactory(kind)| < Terminator
  {
    LayerTypeRoundTrip(kind, b);
    SmallTables(kind);
  }

  /** Past one layer whose objects end at `k`, in front of bytes `y`
   *  holding `n - 1` more layers. */
  lemma {:induction false} SkipPastLayer(tableOf: TableOf, types: seq<ObjectType>, d: seq<byte>, k: nat, y: seq<byte>, n: nat, total: nat)
    requires 0 < n && 5 <= k <= |d| && tableOf(d[0]) == Ok(types)
    requires SkipObjects(Ok(types), d, 5) == Ok(k) && d[k..] == y
    requires SkipLayers(tableOf, y, 0, n - 1) == Ok(total - k)
    ensures SkipLayers(tableOf, d, 0, n) == Ok(total)
  {
    SkipLayersStep(tableOf, d, 0, n, k);
    assert d[..k] + y == d;
    SkipLayersShifts(tableOf, d[..k], y, 0, n - 1);
  }

  /** The bytes `generateDataBytes` writes for a map with fewer than 256
   *  layers are exactly one map to the splitter. */
  lemma {:induction false} GeneratedSplits(m: MapValue)
    requires GeneratedBytes(m).Ok? && 0 <= m.palette < 256 && |m.layers| < 256
    ensures SkipMap(LayerTable, GeneratedBytes(m).value, 0) == Ok(|GeneratedBytes(m).value|)
  {
    var header := DataList(m.width, m.height, |m.layers|, m.palette);
    var layers := LayersBlocks(m.layers).value;
    AppendBytes(header, layers, []);
    HeaderBytes(m.width, m.height, |m.layers|, m.palette);
    var h := SerializeAll(header);
    var data := GeneratedBytes(m).value;
    assert data == h + (SerializeAll(layers) + []);
    assert |h| == 6 && data[5] == |m.layers|;
    SkipsLayerBlocks(m.layers, [], |m.layers|);
    SkipMapAfterHeader(h, SerializeAll(layers) + [], data, |m.layers|);
  }

  /** A map's layers that the splitter skips whole, behind its six header
   *  bytes. */
  lemma {:induction false} SkipMapAfterHeader(h: seq<byte>, s: seq<byte>, data: seq<byte>, n: nat)
    requires data == h + s && |h| == 6 && data[5] == n
    requires SkipLayers(LayerTable, s, 0, n) == Ok(|s|)
    ensures SkipMap(LayerTable, data, 0) == Ok(|data|)
  {
    SkipLayersShifts(LayerTable, h, s, 0, n);
  }

  /** A buffer the splitter takes whole as one map. */
  predicate OneMap(b: seq<byte>)
  {
    SkipMap(LayerTable, b, 0) == Ok(|b|)
  }

  /** Maps that each split alone, joined and followed by other bytes, split
   *  back into themselves and those bytes. */
  lemma {:induction false} SplitJoined(maps: seq<seq<byte>>, rest: seq<byte>)
    requires forall k | 0 <= k < |maps| :: OneMap(maps[k])
    ensures SplitBytes(Join(maps) + rest, |maps|) == Ok(SplitMaps(maps, rest))
  {
    var d := Join(maps) + rest;
    assert d[0..] == d;
    SplitJoinedAt(d, 0, maps, rest, |maps|);
  }

  lemma {:induction false} SplitJoinedAt(d: seq<byte>, i: nat, maps: seq<seq<byte>>, rest: seq<byte>, n: nat)
    requires i <= |d| && d[i..] == Join(maps) + rest && n == |maps|
    requires forall k | 0 <= k < |maps| :: OneMap(maps[k])
    ensures SplitFrom(LayerTable, d, i, n) == Ok(SplitMaps(maps, rest))
    decreases n
  {
    if n > 0 {
      var m := maps[0];
      var tail := Join(maps[1..]) + rest;
      assert d[i..] == m + tail;
      var j := MapAt(d, i, m, tail);
      SplitJoinedAt(d, j, maps[1..], rest, n - 1);
      SplitFromStep(LayerTable, d, i, n, j);
      assert [m] + maps[1..] == maps;
    } else {
      assert maps == [] && Join(maps) == [];
      assert d[i..] == rest;
    }
  }

  /** A map that splits alone, at the cursor: the splitter cuts exactly it
   *  off. */
  lemma {:induction false} MapAt(d: seq<byte>, i: nat, m: seq<byte>, tail: seq<byte>) returns (j: nat)
    requires i <= |d| && d[i..] == m + tail && OneMap(m)
    ensures j == i + |m| <= |d| && SkipMap(LayerTable, d, i) == Ok(j) && d[i..j] == m && d[j..] == tail
  {
    SkipMapExtends(LayerTable, m, tail, 0);
    SkipMapShifts(LayerTable, d[..i], m + tail, 0);
    assert d[..i] + (m + tail) == d;
    j := i + |m|;
  }

  /** One map cut off at the cursor, then the rest split from where it
   *  ends. */
  lemma {:induction false} SplitFromStep(tableOf: TableOf, d: seq<byte>, start: nat, count: nat, j: nat)
    requires start <= |d| && 0 < count && SkipMap(tableOf, d, start) == Ok(j) && SplitFrom(tableOf, d, j, count - 1).Ok?
    ensures SplitFrom(tableOf, d, start, count) ==
      Ok(SplitMaps([d[start..j]] + SplitFrom(tableOf, d, j, count - 1).value.maps, SplitFrom(tableOf, d, j, count - 1).value.remainingBytes))
  {
  }
}
