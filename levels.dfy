/** Level maps (src/common/levels.ts): a map is a header (width, height,
 *  palette, layer count) followed by its layers, each a type byte, a
 *  4-byte scroll factor, its objects (a Uint16 type and the type's
 *  exported fields) and a Uint16 0xFFFF terminator. Levels store a name,
 *  a goal and the maps' bytes. */
module Levels {
  import opened Wrappers
  import opened Bytes
  import opened Text
  import opened Goals
  import opened Objects

  // ---------------------------------------------------------------- header

  /** `generateDataList`: the header's blocks. */
  function DataList(width: int, height: int, layerCount: int, palette: int): seq<ByteBlock>
  {
    [ByteBlock(Uint16, width), ByteBlock(Uint16, height), ByteBlock(Uint8, palette), ByteBlock(Uint8, layerCount)]
  }

  /** `getMapHeaderSize`: the header's size, summed over its blocks. */
  function MapHeaderSize(): (n: nat)
    ensures n == 6
  {
    TotalSize(DataList(0, 0, 0, 0))
  }

  datatype Header = Header(width: nat, height: nat, palette: nat, layerCount: nat)

  /** `getDataFromMapHeader`: width and height big-endian at 0 and 2, the
   *  palette at 4 and the layer count at 5; a shorter buffer makes the
   *  DataView throw. */
  function ReadHeader(d: seq<byte>): (r: Result<Header>)
    ensures r.Ok? <==> |d| >= 6
    ensures r.Ok? ==> r.value == Header(256 * (d[0] as int) + d[1] as int, 256 * (d[2] as int) + d[3] as int, d[4], d[5])
    ensures r.Err? ==> r.error == OutOfBounds
  {
    if |d| < 6 then Err(OutOfBounds)
    else
      WordOfBytes(d[..2]);
      WordOfBytes(d[2..4]);
      Ok(Header(FromBigEndian(d[..2]), FromBigEndian(d[2..4]), d[4], d[5]))
  }

  /** The header read back from the header written gives the values
   *  written, when they fit their fields. */
  lemma {:induction false} HeaderRoundTrip(width: int, height: int, layerCount: int, palette: int, rest: seq<byte>)
    requires 0 <= width < 65536 && 0 <= height < 65536 && 0 <= palette < 256 && 0 <= layerCount < 256
    ensures |SerializeAll(DataList(width, height, layerCount, palette))| == 6
    ensures ReadHeader(SerializeAll(DataList(width, height, layerCount, palette)) + rest) ==
      Ok(Header(width, height, palette, layerCount))
  {
    var blocks := DataList(width, height, layerCount, palette);
    var d := SerializeAll(blocks) + rest;
    SerializeAllLength(blocks);
    HeaderBytes(width, height, layerCount, palette);
    BigEndianRoundTrip(width, 2);
    BigEndianRoundTrip(height, 2);
    assert d[..2] == BigEndian(width, 2) && d[2..4] == BigEndian(height, 2);
  }

  lemma {:induction false} HeaderBytes(width: int, height: int, layerCount: int, palette: int)
    requires 0 <= palette < 256 && 0 <= layerCount < 256
    ensures SerializeAll(DataList(width, height, layerCount, palette)) ==
      BigEndian(width, 2) + BigEndian(height, 2) + [palette, layerCount]
  {
    var blocks := DataList(width, height, layerCount, palette);
    SerializeByte(palette);
    SerializeByte(layerCount);
    assert SerializeAll(blocks[3..]) == [layerCount] + SerializeAll([]);
    assert SerializeAll(blocks[2..]) == [palette] + SerializeAll(blocks[3..]);
    assert SerializeAll(blocks[1..]) == BigEndian(height, 2) + SerializeAll(blocks[2..]);
  }

  // ---------------------------------------------------------------- layer types

  const BlockLayer: string := "block"
  const SpriteLayer: string := "sprite"

  /** `convertLayerTypeToByte`. */
  function ConvertLayerTypeToByte(t: string): (r: Result<byte>)
    ensures r.Ok? <==> t == BlockLayer || t == SpriteLayer
    ensures r.Ok? ==> (r.value == 1 <==> t == SpriteLayer) && r.value <= 1
    ensures r.Err? ==> r.error == "Invalid layer type: " + t
  {
    if t == BlockLayer then Ok(0) else if t == SpriteLayer then Ok(1) else Err("Invalid layer type: " + t)
  }

  /** `convertByteToLayerType`. */
  function ConvertByteToLayerType(b: int): (r: Result<string>)
    ensures r.Ok? <==> b == 0 || b == 1
    ensures r.Ok? ==> r.value == (if b == 1 then SpriteLayer else BlockLayer)
    ensures r.Err? ==> r.error == "Invalid layer type byte: " + IntString(b)
  {
    if b == 0 then Ok(BlockLayer) else if b == 1 then Ok(SpriteLayer)
    else Err("Invalid layer type byte: " + IntString(b))
  }

  /** The two conversions are inverse on block and 0, sprite and 1. */
  lemma {:induction false} LayerTypeRoundTrip(t: string, b: int)
    ensures ConvertLayerTypeToByte(t).Ok? ==>
      ConvertByteToLayerType(ConvertLayerTypeToByte(t).value) == Ok(t)
    ensures ConvertByteToLayerType(b).Ok? ==>
      ConvertLayerTypeToByte(ConvertByteToLayerType(b).value) == Ok(b)
  {
  }

  /** The kind the parser gives a finished layer: sprite for byte 1, block
   *  for any other byte, which is not checked there. */
  function LayerKind(layerType: int): string
  {
    if layerType == 1 then SpriteLayer else BlockLayer
  }

  // ---------------------------------------------------------------- values

  /** `createLayer`'s default scroll factor, 1.0, as its float pattern. */
  const DefaultScrollX: int := 0x3F80_0000

  /** A layer as a value: its kind, its objects and the 32-bit pattern of its
   *  scroll factor. */
  datatype LayerValue = LayerValue(kind: string, objects: seq<MapObject>, scrollX: int)

  /** A map as a value. */
  datatype MapValue = MapValue(width: int, height: int, layers: seq<LayerValue>, palette: int)

  // ---------------------------------------------------------------- writing

  /** `typeFactory[object.type()].exportData` on a type the table lacks. */
  const ExportDataMissing := "Cannot read properties of undefined (reading 'exportData')"

  /** The exported fields' blocks, `getProp` of each key in order; the
   *  first missing key throws. */
  function FieldBlocks(fields: seq<ExportField>, o: MapObject): (r: Result<seq<ByteBlock>>)
    ensures r.Ok? <==> forall i | 0 <= i < |fields| :: fields[i].key in o.props
    ensures r.Ok? ==> |r.value| == |fields|
    ensures r.Ok? ==> forall i | 0 <= i < |fields| :: r.value[i] == ByteBlock(fields[i].kind, o.props[fields[i].key])
    ensures r.Err? ==> exists i | 0 <= i < |fields| :: fields[i].key !in o.props && r.error == MissingKey(fields[i].key)
  {
    if fields == [] then Ok([])
    else match o.GetProp(fields[0].key)
      case Err(e) => Err(e)
      case Ok(v) =>
        match FieldBlocks(fields[1..], o)
        case Err(e) => assert forall i | 1 <= i < |fields| :: fields[i] == fields[1..][i - 1]; Err(e)
        case Ok(rest) => assert forall i | 1 <= i < |fields| :: fields[i] == fields[1..][i - 1]; Ok([ByteBlock(fields[0].kind, v)] + rest)
  }

  /** One object's blocks: its type as a Uint16, then its exported fields. */
  function ObjectBlocks(types: seq<ObjectType>, o: MapObject): (r: Result<seq<ByteBlock>>)
    ensures r.Ok? <==> 0 <= o.Type() < |types| && FieldBlocks(types[o.Type()].exportData, o).Ok?
    ensures r.Ok? ==> r.value == [ByteBlock(Uint16, o.Type())] + FieldBlocks(types[o.Type()].exportData, o).value
    ensures !(0 <= o.Type() < |types|) ==> r == Err(ExportDataMissing)
  {
    if !(0 <= o.Type() < |types|) then Err(ExportDataMissing)
    else match FieldBlocks(types[o.Type()].exportData, o)
      case Err(e) => Err(e)
      case Ok(fields) => Ok([ByteBlock(Uint16, o.Type())] + fields)
  }

  /** The list prefixed to a successful result. */
  function Then<T>(acc: seq<T>, r: Result<seq<T>>): (t: Result<seq<T>>)
    ensures t.Ok? <==> r.Ok?
    ensures t.Ok? ==> t.value == acc + r.value
    ensures t.Err? ==> t.error == r.error
  {
    match r
    case Err(e) => Err(e)
    case Ok(v) => Ok(acc + v)
  }

  /** Prefixing twice is prefixing once with both. */
  lemma {:induction false} ThenThen<T>(a: seq<T>, b: seq<T>, r: Result<seq<T>>)
    ensures Then(a, Then(b, r)) == Then(a + b, r)
  {
    if r.Ok? {
      assert a + (b + r.value) == a + b + r.value;
    }
  }

  /** Prefixing nothing changes nothing. */
  lemma {:induction false} ThenNil<T>(r: Result<seq<T>>)
    ensures Then([], r) == r
  {
    if r.Ok? {
      assert [] + r.value == r.value;
    }
  }

  function ObjectsBlocks(types: seq<ObjectType>, objects: seq<MapObject>): Result<seq<ByteBlock>>
  {
    if objects == [] then Ok([])
    else match ObjectBlocks(types, objects[0])
      case Err(e) => Err(e)
      case Ok(first) => Then(first, ObjectsBlocks(types, objects[1..]))
  }

  /** The layer terminator. */
  const Terminator: int := 0xFFFF

  /** One layer's blocks: its type byte, its scroll factor, its objects
   *  with the layer's type table, and the terminator. */
  function LayerBlocks(l: LayerValue): Result<seq<ByteBlock>>
  {
    match ConvertLayerTypeToByte(l.kind)
    case Err(e) => Err(e)
    case Ok(b) =>
      match ObjectsBlocks(GetTypeFactory(l.kind), l.objects)
      case Err(e) => Err(e)
      case Ok(objects) => Ok([ByteBlock(Uint8, b), ByteBlock(Float32, l.scrollX)] + objects + [ByteBlock(Uint16, Terminator)])
  }

  function LayersBlocks(layers: seq<LayerValue>): Result<seq<ByteBlock>>
  {
    if layers == [] then Ok([])
    else match LayerBlocks(layers[0])
      case Err(e) => Err(e)
      case Ok(first) => Then(first, LayersBlocks(layers[1..]))
  }

  /** The data list of `generateDataBytes`. */
  function MapBlocks(m: MapValue): Result<seq<ByteBlock>>
  {
    Then(DataList(m.width, m.height, |m.layers|, m.palette), LayersBlocks(m.layers))
  }

  /** What `generateDataBytes` returns: the bytes of the header and of each
   *  layer, or the first error a layer or an object throws. */
  function GeneratedBytes(m: MapValue): (r: Result<seq<byte>>)
    ensures r.Ok? <==> LayersBlocks(m.layers).Ok?
    ensures r.Err? ==> r.error == LayersBlocks(m.layers).error
    ensures r.Ok? ==> r.value == SerializeAll(DataList(m.width, m.height, |m.layers|, m.palette))
                                 + SerializeAll(LayersBlocks(m.layers).value)
  {
    match MapBlocks(m)
    case Err(e) => Err(e)
    case Ok(blocks) =>
      var header := DataList(m.width, m.height, |m.layers|, m.palette);
      SerializeAllAppend(header, LayersBlocks(m.layers).value);
      Ok(SerializeAll(blocks))
  }

  /** The bytes of a map start with its six header bytes. */
  lemma {:induction false} GeneratedHeader(m: MapValue)
    requires GeneratedBytes(m).Ok?
    ensures |GeneratedBytes(m).value| >= 6
    ensures GeneratedBytes(m).value[..6] == SerializeAll(DataList(m.width, m.height, |m.layers|, m.palette))
  {
    var header := DataList(m.width, m.height, |m.layers|, m.palette);
    SerializeAllLength(header);
    assert TotalSize(header[3..]) == 1 by { assert header[3..][1..] == []; }
    assert TotalSize(header[2..]) == 2 by { assert header[2..][1..] == header[3..]; }
    assert TotalSize(header[1..]) == 4 by { assert header[1..][1..] == header[2..]; }
    var r := GeneratedBytes(m).value;
    assert r == SerializeAll(header) + SerializeAll(LayersBlocks(m.layers).value);
    assert |SerializeAll(header)| == 6;
  }

  // ---------------------------------------------------------------- reading

  /** `typeFactory[objectType].create` on a type the table lacks. */
  const CreateMissing := "Cannot read properties of undefined (reading 'create')"

  /** The field loop of `readingObjectData`: each field read in turn over
   *  the properties, the cursor moving past it. */
  function ReadFields(fields: seq<ExportField>, props: map<string, int>, d: seq<byte>)
    : (r: Result<(map<string, int>, seq<byte>)>)
    ensures r.Ok? ==> |r.value.1| <= |d| && r.value.1 == d[|d| - |r.value.1|..]
    ensures r.Err? ==> r.error == OutOfBounds
    decreases |fields|
  {
    if fields == [] then Ok((props, d))
    else match ReadField(fields[0].kind, d)
      case Err(e) => Err(e)
      case Ok((v, rest)) => ReadFields(fields[1..], props[fields[0].key := v], rest)
  }

  /** `readingObjectData`: the layer byte must name a type table and the
   *  type must be in it; the object is the type's `create(0, 0)` with the
   *  fields read over it, tagged with the type. */
  function ReadObject(layerType: int, objectType: int, d: seq<byte>): (r: Result<(MapObject, seq<byte>)>)
    ensures r.Ok? ==> |r.value.1| <= |d| && r.value.1 == d[|d| - |r.value.1|..]
  {
    match ConvertByteToLayerType(layerType)
    case Err(e) => Err(e)
    case Ok(kind) =>
      var types := GetTypeFactory(kind);
      if !(0 <= objectType < |types|) then Err(CreateMissing)
      else
        var t := types[objectType];
        match ReadFields(t.exportData, t.Create(0, 0), d)
        case Err(e) => Err(e)
        case Ok((props, rest)) => Ok((MapObject(props["type" := objectType]), rest))
  }

  /** `readingType` and `readingObjectData` in turn: objects until the
   *  terminator, after which the cursor stands. */
  function ReadObjects(layerType: int, objects: seq<MapObject>, d: seq<byte>)
    : (r: Result<(seq<MapObject>, seq<byte>)>)
    ensures r.Ok? ==> |r.value.1| <= |d| && r.value.1 == d[|d| - |r.value.1|..]
    decreases |d|, 1
  {
    match ReadUint(d, 2)
    case Err(e) => Err(e)
    case Ok((t, rest)) =>
      if t == Terminator then Ok((objects, rest))
      else ReadObjectThen(layerType, t, objects, rest)
  }

  function ReadObjectThen(layerType: int, objectType: int, objects: seq<MapObject>, d: seq<byte>)
    : (r: Result<(seq<MapObject>, seq<byte>)>)
    ensures r.Ok? ==> |r.value.1| <= |d| && r.value.1 == d[|d| - |r.value.1|..]
    decreases |d|, 0
  {
    match ReadObject(layerType, objectType, d)
    case Err(e) => Err(e)
    case Ok((o, rest)) => ReadObjects(layerType, objects + [o], rest)
  }

  /** `n` more layers, each its options (a type byte and the scroll
   *  factor, five bytes a DataView must hold) and its objects. */
  function ReadLayers(layers: seq<LayerValue>, d: seq<byte>, n: nat)
    : (r: Result<(seq<LayerValue>, seq<byte>)>)
    ensures r.Ok? ==> |r.value.0| == |layers| + n
    decreases n
  {
    if n == 0 then Ok((layers, d))
    else if |d| < 5 then Err(OutOfBounds)
    else
      var scrollX := FromBigEndian(d[1..5]);
      match ReadObjects(d[0], [], d[5..])
      case Err(e) => Err(e)
      case Ok((objects, rest)) => ReadLayers(layers + [LayerValue(LayerKind(d[0]), objects, scrollX)], rest, n - 1)
  }

  /** What `transformMapDataToObject` returns, as a value. */
  function ParsedMap(data: seq<byte>): (r: Result<MapValue>)
    ensures r.Ok? ==> |data| >= 6 && |r.value.layers| == data[5]
  {
    match ReadHeader(data)
    case Err(e) => Err(e)
    case Ok(h) =>
      match ReadLayers([], data[6..], h.layerCount)
      case Err(e) => Err(e)
      case Ok((layers, _)) => Ok(MapValue(h.width, h.height, layers, h.palette))
  }

  // ---------------------------------------------------------------- round trip

  /** An object whose type is in the table and whose exported fields are
   *  present and fit their types. */
  predicate StorableObject(types: seq<ObjectType>, o: MapObject)
  {
    0 <= o.Type() < |types| &&
    forall f | f in types[o.Type()].exportData :: f.key in o.props && Fits(f.kind, o.props[f.key])
  }

  predicate StorableLayer(l: LayerValue)
  {
    (l.kind == BlockLayer || l.kind == SpriteLayer) && 0 <= l.scrollX < Pow256(4) &&
    forall o | o in l.objects :: StorableObject(GetTypeFactory(l.kind), o)
  }

  /** A map whose header values fit their fields and whose layers are
   *  storable. */
  predicate StorableMap(m: MapValue)
  {
    0 <= m.width < 65536 && 0 <= m.height < 65536 && 0 <= m.palette < 256 && |m.layers| < 256 &&
    forall l | l in m.layers :: StorableLayer(l)
  }

  /** The properties the reader builds: each exported field's value laid
   *  over `props` in order. */
  function Overlay(fields: seq<ExportField>, props: map<string, int>, o: MapObject): map<string, int>
    requires forall f | f in fields :: f.key in o.props
  {
    if fields == [] then props else Overlay(fields[1..], props[fields[0].key := o.props[fields[0].key]], o)
  }

  /** The object the reader rebuilds from a stored one. */
  function LoadedObject(types: seq<ObjectType>, o: MapObject): MapObject
    requires StorableObject(types, o)
  {
    var t := types[o.Type()];
    MapObject(Overlay(t.exportData, t.Create(0, 0), o)["type" := o.Type()])
  }

  function LoadedObjects(types: seq<ObjectType>, objects: seq<MapObject>): (r: seq<MapObject>)
    requires forall o | o in objects :: StorableObject(types, o)
    ensures |r| == |objects|
  {
    if objects == [] then [] else [LoadedObject(types, objects[0])] + LoadedObjects(types, objects[1..])
  }

  function LoadedLayer(l: LayerValue): LayerValue
    requires StorableLayer(l)
  {
    LayerValue(l.kind, LoadedObjects(GetTypeFactory(l.kind), l.objects), l.scrollX)
  }

  function LoadedLayers(layers: seq<LayerValue>): (r: seq<LayerValue>)
    requires forall l | l in layers :: StorableLayer(l)
    ensures |r| == |layers|
  {
    if layers == [] then [] else [LoadedLayer(layers[0])] + LoadedLayers(layers[1..])
  }

  /** The map the reader rebuilds from a stored one. */
  function LoadedMap(m: MapValue): MapValue
    requires StorableMap(m)
  {
    MapValue(m.width, m.height, LoadedLayers(m.layers), m.palette)
  }

  /** A rebuilt object has the stored object's type and exported values;
   *  its other properties are the type's `create(0, 0)` defaults. */
  lemma {:induction false} LoadedObjectFields(types: seq<ObjectType>, o: MapObject, k: string)
    requires StorableObject(types, o)
    ensures LoadedObject(types, o).Type() == o.Type()
    ensures LoadedObject(types, o).props.Keys == types[o.Type()].Create(0, 0).Keys + {"type"}
      + set f | f in types[o.Type()].exportData :: f.key
    ensures k != "type" && (exists f | f in types[o.Type()].exportData :: f.key == k) ==>
      LoadedObject(types, o).props[k] == o.props[k]
    ensures k != "type" && k in types[o.Type()].Create(0, 0) && (forall f | f in types[o.Type()].exportData :: f.key != k) ==>
      LoadedObject(types, o).props[k] == types[o.Type()].Create(0, 0)[k]
  {
    var t := types[o.Type()];
    OverlayKeys(t.exportData, t.Create(0, 0), o, k);
  }

  lemma {:induction false} OverlayKeys(fields: seq<ExportField>, props: map<string, int>, o: MapObject, k: string)
    requires forall f | f in fields :: f.key in o.props
    ensures Overlay(fields, props, o).Keys == props.Keys + set f | f in fields :: f.key
    ensures (exists f | f in fields :: f.key == k) ==> Overlay(fields, props, o)[k] == o.props[k]
    ensures k in props && (forall f | f in fields :: f.key != k) ==> Overlay(fields, props, o)[k] == props[k]
  {
    if fields != [] {
      var f0 := fields[0];
      var props' := props[f0.key := o.props[f0.key]];
      assert forall f | f in fields[1..] :: f in fields;
      OverlayKeys(fields[1..], props', o, k);
      assert (set f | f in fields :: f.key) == {f0.key} + set f | f in fields[1..] :: f.key by {
        assert forall f | f in fields :: f == f0 || f in fields[1..];
      }
      if (exists f | f in fields :: f.key == k) && !(exists f | f in fields[1..] :: f.key == k) {
        assert f0.key == k;
      }
    }
  }

  /** Reading the stored fields over `props` lays the stored values over
   *  them and leaves the cursor after the fields. */
  lemma {:induction false} FieldsRoundTrip(fields: seq<ExportField>, props: map<string, int>, o: MapObject, rest: seq<byte>)
    requires forall f | f in fields :: f.key in o.props && Fits(f.kind, o.props[f.key])
    ensures FieldBlocks(fields, o).Ok?
    ensures ReadFields(fields, props, SerializeAll(FieldBlocks(fields, o).value) + rest) == Ok((Overlay(fields, props, o), rest))
  {
    if fields != [] {
      var f0 := fields[0];
      var v := o.props[f0.key];
      assert forall f | f in fields[1..] :: f in fields;
      FieldsRoundTrip(fields[1..], props[f0.key := v], o, rest);
      var tail := FieldBlocks(fields[1..], o).value;
      assert FieldBlocks(fields, o).value == [ByteBlock(f0.kind, v)] + tail;
      ConsBytes(ByteBlock(f0.kind, v), tail, rest);
      ReadWrittenField(f0.kind, v, SerializeAll(tail) + rest);
    }
  }

  /** The bytes of the terminator. */
  lemma {:induction false} TerminatorBytes(rest: seq<byte>)
    ensures Serialize(ByteBlock(Uint16, Terminator)) == [255, 255]
    ensures ReadUint([255, 255] + rest, 2) == Ok((Terminator, rest))
  {
    var b := Serialize(ByteBlock(Uint16, Terminator));
    assert b == BigEndian(255, 1) + [255];
    assert BigEndian(255, 1) == BigEndian(0, 0) + [255];
    ReadWrittenUint(Terminator, 2, rest);
  }

  /** The type tables have fewer than 0xFFFF entries, so a stored type is
   *  never taken for the terminator. */
  lemma {:induction false} SmallTables(kind: string)
    ensures |GetTypeFactory(kind)| <= 5
  {
  }

  /** Reading the stored objects of a layer and its terminator rebuilds each
   *  object and leaves the cursor after the terminator. */
  lemma {:induction false} ObjectsRoundTrip(kind: string, acc: seq<MapObject>, objects: seq<MapObject>, rest: seq<byte>)
    requires kind == BlockLayer || kind == SpriteLayer
    requires forall o | o in objects :: StorableObject(GetTypeFactory(kind), o)
    ensures ObjectsBlocks(GetTypeFactory(kind), objects).Ok?
    ensures ReadObjects(ConvertLayerTypeToByte(kind).value, acc,
                        SerializeAll(ObjectsBlocks(GetTypeFactory(kind), objects).value) + ([255, 255] + rest)) ==
      Ok((acc + LoadedObjects(GetTypeFactory(kind), objects), rest))
    decreases |objects|
  {
    var types := GetTypeFactory(kind);
    var b := ConvertLayerTypeToByte(kind).value;
    if objects == [] {
      TerminatorBytes(rest);
      assert ObjectsBlocks(types, objects) == Ok([]);
      assert SerializeAll([]) == [];
      assert SerializeAll([]) + ([255, 255] + rest) == [255, 255] + rest;
      assert ReadObjects(b, acc, [255, 255] + rest) == Ok((acc, rest));
      assert LoadedObjects(types, objects) == [];
      assert acc + [] == acc;
    } else {
      var lo := LoadedObject(types, objects[0]);
      assert forall x | x in objects[1..] :: x in objects;
      ObjectsRoundTrip(kind, acc + [lo], objects[1..], rest);
      ObjectsStep(kind, acc, objects, rest);
    }
  }

  /** The step of `ObjectsRoundTrip`: the first object is read, the rest
   *  is read as the shorter list is. */
  lemma {:induction false} ObjectsStep(kind: string, acc: seq<MapObject>, objects: seq<MapObject>, rest: seq<byte>)
    requires kind == BlockLayer || kind == SpriteLayer
    requires objects != []
    requires forall o | o in objects :: StorableObject(GetTypeFactory(kind), o)
    requires ObjectsBlocks(GetTypeFactory(kind), objects[1..]).Ok?
    requires ReadObjects(ConvertLayerTypeToByte(kind).value, acc + [LoadedObject(GetTypeFactory(kind), objects[0])],
                         SerializeAll(ObjectsBlocks(GetTypeFactory(kind), objects[1..]).value) + ([255, 255] + rest)) ==
      Ok((acc + [LoadedObject(GetTypeFactory(kind), objects[0])] + LoadedObjects(GetTypeFactory(kind), objects[1..]), rest))
    ensures ObjectsBlocks(GetTypeFactory(kind), objects).Ok?
    ensures ReadObjects(ConvertLayerTypeToByte(kind).value, acc,
                        SerializeAll(ObjectsBlocks(GetTypeFactory(kind), objects).value) + ([255, 255] + rest)) ==
      Ok((acc + LoadedObjects(GetTypeFactory(kind), objects), rest))
  {
    var types := GetTypeFactory(kind);
    var b := ConvertLayerTypeToByte(kind).value;
    var tail := [255, 255] + rest;
    var lo := LoadedObject(types, objects[0]);
    var more := ObjectsBlocks(types, objects[1..]).value;
    var loaded := LoadedObjects(types, objects[1..]);
    ObjectRead(kind, acc, objects[0], more, tail);
    ObjectsCons(types, objects);
    assert acc + [lo] + loaded == acc + ([lo] + loaded);
  }

  /** `ObjectsBlocks` and `LoadedObjects` of a non-empty list, one object
   *  at a time. */
  lemma {:induction false} ObjectsCons(types: seq<ObjectType>, objects: seq<MapObject>)
    requires objects != []
    requires forall o | o in objects :: StorableObject(types, o)
    requires ObjectBlocks(types, objects[0]).Ok? && ObjectsBlocks(types, objects[1..]).Ok?
    ensures ObjectsBlocks(types, objects) ==
      Ok(ObjectBlocks(types, objects[0]).value + ObjectsBlocks(types, objects[1..]).value)
    ensures LoadedObjects(types, objects) == [LoadedObject(types, objects[0])] + LoadedObjects(types, objects[1..])
  {
  }

  /** Reading a stored object off the front of the objects list moves it to
   *  the list read so far. */
  lemma {:induction false} ObjectRead(kind: string, acc: seq<MapObject>, o: MapObject, more: seq<ByteBlock>, rest: seq<byte>)
    requires kind == BlockLayer || kind == SpriteLayer
    requires StorableObject(GetTypeFactory(kind), o)
    ensures ObjectBlocks(GetTypeFactory(kind), o).Ok?
    ensures ReadObjects(ConvertLayerTypeToByte(kind).value, acc,
                        SerializeAll(ObjectBlocks(GetTypeFactory(kind), o).value + more) + rest) ==
      ReadObjects(ConvertLayerTypeToByte(kind).value, acc + [LoadedObject(GetTypeFactory(kind), o)], SerializeAll(more) + rest)
  {
    ObjectRoundTrip(kind, o, more, rest);
    var first := ObjectBlocks(GetTypeFactory(kind), o).value;
    ReadObjectsStep(ConvertLayerTypeToByte(kind).value, acc, SerializeAll(first + more) + rest, o.Type(),
                    SerializeAll(first[1..]) + (SerializeAll(more) + rest),
                    LoadedObject(GetTypeFactory(kind), o), SerializeAll(more) + rest);
  }

  /** One object read: its type, not the terminator, then its data. */
  lemma {:induction false} ReadObjectsStep(layerType: int, acc: seq<MapObject>, d: seq<byte>, t: int, d1: seq<byte>, o: MapObject, d2: seq<byte>)
    requires ReadUint(d, 2) == Ok((t, d1)) && t != Terminator
    requires ReadObject(layerType, t, d1) == Ok((o, d2))
    ensures ReadObjects(layerType, acc, d) == ReadObjects(layerType, acc + [o], d2)
  {
  }

  /** One stored object followed by more blocks: its type is read, then its
   *  fields, and the cursor stands at the following blocks. */
  lemma {:induction false} ObjectRoundTrip(kind: string, o: MapObject, more: seq<ByteBlock>, rest: seq<byte>)
    requires kind == BlockLayer || kind == SpriteLayer
    requires StorableObject(GetTypeFactory(kind), o)
    ensures ObjectBlocks(GetTypeFactory(kind), o).Ok?
    ensures ReadUint(SerializeAll(ObjectBlocks(GetTypeFactory(kind), o).value + more) + rest, 2) ==
      Ok((o.Type(), SerializeAll(ObjectBlocks(GetTypeFactory(kind), o).value[1..]) + (SerializeAll(more) + rest)))
    ensures o.Type() != Terminator
    ensures ReadObject(ConvertLayerTypeToByte(kind).value, o.Type(),
                       SerializeAll(ObjectBlocks(GetTypeFactory(kind), o).value[1..]) + (SerializeAll(more) + rest)) ==
      Ok((LoadedObject(GetTypeFactory(kind), o), SerializeAll(more) + rest))
  {
    var types := GetTypeFactory(kind);
    var t := types[o.Type()];
    SmallTables(kind);
    var fields := FieldBlocks(t.exportData, o).value;
    var x := SerializeAll(more) + rest;
    FieldsRoundTrip(t.exportData, t.Create(0, 0), o, x);
    assert ObjectBlocks(types, o).value == [ByteBlock(Uint16, o.Type())] + fields;
    assert ([ByteBlock(Uint16, o.Type())] + fields)[1..] == fields;
    TypeBytes(ByteBlock(Uint16, o.Type()), fields, more, rest);
    ReadWrittenUint(o.Type(), 2, SerializeAll(fields) + x);
    LayerTypeRoundTrip(kind, 0);
    ReadObjectOf(ConvertLayerTypeToByte(kind).value, kind, o.Type(), t, SerializeAll(fields) + x);
  }

  lemma {:induction false} TypeBytes(a: ByteBlock, fields: seq<ByteBlock>, more: seq<ByteBlock>, rest: seq<byte>)
    ensures SerializeAll([a] + fields + more) + rest == Serialize(a) + (SerializeAll(fields) + (SerializeAll(more) + rest))
  {
    AppendBytes([a] + fields, more, rest);
    ConsBytes(a, fields, SerializeAll(more) + rest);
  }

  /** `readingObjectData` for a type byte that names a table holding the
   *  type. */
  lemma {:induction false} ReadObjectOf(layerType: int, kind: string, objectType: int, t: ObjectType, d: seq<byte>)
    requires ConvertByteToLayerType(layerType) == Ok(kind)
    requires 0 <= objectType < |GetTypeFactory(kind)| && t == GetTypeFactory(kind)[objectType]
    ensures ReadObject(layerType, objectType, d) ==
      match ReadFields(t.exportData, t.Create(0, 0), d)
      case Err(e) => Err(e)
      case Ok((props, rest)) => Ok((MapObject(props["type" := objectType]), rest))
  {
  }

  /** A layer's bytes: its two option blocks, its objects and the
   *  terminator, each serialized in turn. */
  lemma {:induction false} LayerBytes(h0: ByteBlock, h1: ByteBlock, objects: seq<ByteBlock>, term: ByteBlock, rest: seq<byte>)
    ensures SerializeAll([h0, h1] + objects + [term]) + rest ==
      Serialize(h0) + Serialize(h1) + (SerializeAll(objects) + (Serialize(term) + rest))
  {
    var head := [h0, h1];
    AppendBytes(head + objects, [term], rest);
    ConsBytes(term, [], rest);
    assert [term] + [] == [term];
    AppendBytes(head, objects, Serialize(term) + rest);
    ConsBytes(h0, [h1], []);
    ConsBytes(h1, [], []);
    assert head == [h0] + [h1];
  }

  /** A stored value read back from its block. */
  lemma {:induction false} BlockValue(x: ByteBlock)
    requires 0 <= x.value < Pow256(Size(x.kind))
    ensures FromBigEndian(Serialize(x)) == x.value
  {
    var n := Size(x.kind);
    var b := BigEndian(x.value, n);
    ReadWrittenUint(x.value, n, []);
    assert (b + [])[..n] == b;
  }

  /** Reading a stored layer off the front of the layers' bytes. */
  lemma {:induction false} LayerRead(acc: seq<LayerValue>, l: LayerValue, more: seq<byte>, n: nat)
    requires StorableLayer(l) && n >= 1
    ensures LayerBlocks(l).Ok?
    ensures ReadLayers(acc, SerializeAll(LayerBlocks(l).value) + more, n) ==
      ReadLayers(acc + [LoadedLayer(l)], more, n - 1)
  {
    var types := GetTypeFactory(l.kind);
    var b := ConvertLayerTypeToByte(l.kind).value;
    ObjectsRoundTrip(l.kind, [], l.objects, more);
    var objects := ObjectsBlocks(types, l.objects).value;
    var h0, h1, term := ByteBlock(Uint8, b), ByteBlock(Float32, l.scrollX), ByteBlock(Uint16, Terminator);
    var x := Serialize(h1);
    var tail := SerializeAll(objects) + ([255, 255] + more);
    calc {
      ReadLayers(acc, SerializeAll(LayerBlocks(l).value) + more, n);
      { assert LayerBlocks(l).value == [h0, h1] + objects + [term];
        LayerBytes(h0, h1, objects, term, more);
        TerminatorBytes(more);
        SerializeByte(b); }
      ReadLayers(acc, [b] + x + tail, n);
      { LayerFront(b, x, tail);
        BlockValue(h1);
        assert [] + LoadedObjects(types, l.objects) == LoadedObjects(types, l.objects);
        ReadLayersStep(acc, [b] + x + tail, n, LoadedObjects(types, l.objects), more); }
      ReadLayers(acc + [LayerValue(LayerKind(b), LoadedObjects(types, l.objects), l.scrollX)], more, n - 1);
      ReadLayers(acc + [LoadedLayer(l)], more, n - 1);
    }
  }

  /** One layer read: its options, then its objects. */
  lemma {:induction false} ReadLayersStep(acc: seq<LayerValue>, d: seq<byte>, n: nat, objects: seq<MapObject>, rest: seq<byte>)
    requires n >= 1 && |d| >= 5 && ReadObjects(d[0], [], d[5..]) == Ok((objects, rest))
    ensures ReadLayers(acc, d, n) ==
      ReadLayers(acc + [LayerValue(LayerKind(d[0]), objects, FromBigEndian(d[1..5]))], rest, n - 1)
  {
  }

  lemma {:induction false} LayerFront(b: byte, x: seq<byte>, tail: seq<byte>)
    requires |x| == 4
    ensures |[b] + x + tail| >= 5
    ensures ([b] + x + tail)[0] == b && ([b] + x + tail)[1..5] == x && ([b] + x + tail)[5..] == tail
  {
  }

  /** Reading the stored layers rebuilds each layer and leaves the cursor
   *  after the last. */
  lemma {:induction false} LayersRoundTrip(acc: seq<LayerValue>, layers: seq<LayerValue>, rest: seq<byte>)
    requires forall l | l in layers :: StorableLayer(l)
    ensures LayersBlocks(layers).Ok?
    ensures ReadLayers(acc, SerializeAll(LayersBlocks(layers).value) + rest, |layers|) ==
      Ok((acc + LoadedLayers(layers), rest))
    decreases |layers|
  {
    if layers == [] {
      assert SerializeAll([]) + rest == rest;
      assert acc + [] == acc;
    } else {
      var l := layers[0];
      assert forall x | x in layers[1..] :: x in layers;
      LayersRoundTrip(acc + [LoadedLayer(l)], layers[1..], rest);
      LayersStep(acc, l, LayersBlocks(layers[1..]).value, LoadedLayers(layers[1..]), rest, |layers| - 1);
      LayersCons(layers);
      LoadedLayersCons(layers);
    }
  }

  /** One layer in front of the rest: read it, then the rest. */
  lemma {:induction false} LayersStep(acc: seq<LayerValue>, l: LayerValue, more: seq<ByteBlock>,
                                      loaded: seq<LayerValue>, rest: seq<byte>, n: nat)
    requires StorableLayer(l)
    requires ReadLayers(acc + [LoadedLayer(l)], SerializeAll(more) + rest, n) ==
      Ok((acc + [LoadedLayer(l)] + loaded, rest))
    ensures LayerBlocks(l).Ok?
    ensures ReadLayers(acc, SerializeAll(LayerBlocks(l).value + more) + rest, n + 1) ==
      Ok((acc + ([LoadedLayer(l)] + loaded), rest))
  {
    LayerRead(acc, l, SerializeAll(more) + rest, n + 1);
    AppendBytes(LayerBlocks(l).value, more, rest);
    Associate(acc, [LoadedLayer(l)], loaded, [LoadedLayer(l)] + loaded);
  }

  lemma {:induction false} Associate<T>(a: seq<T>, b: seq<T>, c: seq<T>, bc: seq<T>)
    requires bc == b + c
    ensures a + b + c == a + bc
  {
  }

  /** `LayersBlocks` and `LoadedLayers` of a non-empty list, one layer at a
   *  time. */
  lemma {:induction false} LayersCons(layers: seq<LayerValue>)
    requires layers != []
    requires forall l | l in layers :: StorableLayer(l)
    requires LayerBlocks(layers[0]).Ok? && LayersBlocks(layers[1..]).Ok?
    ensures LayersBlocks(layers) == Ok(LayerBlocks(layers[0]).value + LayersBlocks(layers[1..]).value)
  {
  }

  lemma {:induction false} LoadedLayersCons(layers: seq<LayerValue>)
    requires layers != []
    requires forall l | l in layers :: StorableLayer(l)
    ensures LoadedLayers(layers) == [LoadedLayer(layers[0])] + LoadedLayers(layers[1..])
  {
  }

  /** A storable map read back from the bytes generated for it is the map
   *  with each object rebuilt by its type (`transformMapDataToObject` after
   *  `generateDataBytes`). */
  lemma {:induction false} MapRoundTrip(m: MapValue)
    requires StorableMap(m)
    ensures GeneratedBytes(m).Ok?
    ensures ParsedMap(GeneratedBytes(m).value) == Ok(LoadedMap(m))
  {
    var header := DataList(m.width, m.height, |m.layers|, m.palette);
    LayersRoundTrip([], m.layers, []);
    var layers := LayersBlocks(m.layers).value;
    AppendBytes(header, layers, []);
    assert SerializeAll(header + layers) + [] == SerializeAll(header + layers);
    HeaderRoundTrip(m.width, m.height, |m.layers|, m.palette, SerializeAll(layers) + []);
    var data := SerializeAll(header + layers);
    assert data[6..] == SerializeAll(layers) + [];
    assert [] + LoadedLayers(m.layers) == LoadedLayers(m.layers);
  }
}
