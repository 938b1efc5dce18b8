/** The overworld's binary form (src/common/ow.ts): the `encode` methods of
 *  the overworld, its maps and its layers, and `loadOverworldFromData`,
 *  which reads that form back with a cursor. */
module OverworldData {
  import opened Wrappers
  import opened Bytes
  import opened JsNumber
  import opened Objects
  import opened Levels
  import opened LevelMaps
  import opened LevelData
  import opened Overworld

  // ---------------------------------------------------------------- writing

  /** A layer's `encode`: its type byte (another type throws), each object's
   *  type and exported fields from the overworld tile table, and the
   *  terminator. */
  function OwLayerBlocks(l: OwLayer): Result<seq<ByteBlock>>
  {
    match ConvertLayerTypeToByte(l.kind)
    case Err(e) => Err(e)
    case Ok(b) =>
      match ObjectsBlocks(OwTileTypes, l.objects)
      case Err(e) => Err(e)
      case Ok(objects) => Ok([ByteBlock(Uint8, b)] + objects + [ByteBlock(Uint16, Terminator)])
  }

  function OwLayersBlocks(layers: seq<OwLayer>): Result<seq<ByteBlock>>
  {
    if layers == [] then Ok([])
    else match OwLayerBlocks(layers[0])
      case Err(e) => Err(e)
      case Ok(first) => Then(first, OwLayersBlocks(layers[1..]))
  }

  /** The three one-byte fields in front of a map's layers. */
  function OwMapHeader(m: OwMap): seq<ByteBlock>
  {
    [ByteBlock(Uint8, m.width), ByteBlock(Uint8, m.height), ByteBlock(Uint8, |m.layers|)]
  }

  /** A map's `encode`: width, height and layer count, then each layer. */
  function OwMapBlocks(m: OwMap): Result<seq<ByteBlock>>
  {
    Then(OwMapHeader(m), OwLayersBlocks(m.layers))
  }

  function OwMapsBlocks(maps: seq<OwMap>): Result<seq<ByteBlock>>
  {
    if maps == [] then Ok([])
    else match OwMapBlocks(maps[0])
      case Err(e) => Err(e)
      case Ok(first) => Then(first, OwMapsBlocks(maps[1..]))
  }

  /** The overworld's `encode`: the map count, then each map. */
  function OverworldBlocks(ow: Overworld): Result<seq<ByteBlock>>
  {
    Then([ByteBlock(Uint8, |ow.maps|)], OwMapsBlocks(ow.maps))
  }

  lemma {:induction false} LayersFrom(layers: seq<OwLayer>, k: nat)
    requires k < |layers|
    ensures OwLayersBlocks(layers[k..]) ==
      match OwLayerBlocks(layers[k])
      case Err(e) => Err(e)
      case Ok(first) => Then(first, OwLayersBlocks(layers[k + 1..]))
  {
    assert layers[k..][0] == layers[k] && layers[k..][1..] == layers[k + 1..];
  }

  lemma {:induction false} MapsFrom(maps: seq<OwMap>, k: nat)
    requires k < |maps|
    ensures OwMapsBlocks(maps[k..]) ==
      match OwMapBlocks(maps[k])
      case Err(e) => Err(e)
      case Ok(first) => Then(first, OwMapsBlocks(maps[k + 1..]))
  {
    assert maps[k..][0] == maps[k] && maps[k..][1..] == maps[k + 1..];
  }

  /** `layer.encode()`: the data list pushed block by block. */
  method EncodeLayer(l: OwLayer) returns (r: Result<seq<ByteBlock>>)
    ensures r == OwLayerBlocks(l)
  {
    var b := ConvertLayerTypeToByte(l.kind);
    if b.Err? {
      return Err(b.error);
    }
    var objects := PushObjects(OwTileTypes, l.objects);
    if objects.Err? {
      return Err(objects.error);
    }
    r := Ok([ByteBlock(Uint8, b.value)] + objects.value + [ByteBlock(Uint16, Terminator)]);
  }

  /** `map.encode()`: the header, then each layer's list pushed in turn. */
  method EncodeMap(m: OwMap) returns (r: Result<seq<ByteBlock>>)
    ensures r == OwMapBlocks(m)
  {
    var data := OwMapHeader(m);
    assert m.layers[0..] == m.layers;
    for k := 0 to |m.layers|
      invariant Then(data, OwLayersBlocks(m.layers[k..])) == OwMapBlocks(m)
    {
      LayersFrom(m.layers, k);
      var layer := EncodeLayer(m.layers[k]);
      if layer.Err? {
        return Err(layer.error);
      }
      ThenThen(data, layer.value, OwLayersBlocks(m.layers[k + 1..]));
      data := data + layer.value;
    }
    assert m.layers[|m.layers|..] == [] && data + [] == data;
    r := Ok(data);
  }

  /** `overworld.encode()`: the map count, then each map's list pushed in
   *  turn. */
  method EncodeOverworld(ow: Overworld) returns (r: Result<seq<ByteBlock>>)
    ensures r == OverworldBlocks(ow)
  {
    var data := [ByteBlock(Uint8, |ow.maps|)];
    assert ow.maps[0..] == ow.maps;
    for k := 0 to |ow.maps|
      invariant Then(data, OwMapsBlocks(ow.maps[k..])) == OverworldBlocks(ow)
    {
      MapsFrom(ow.maps, k);
      var map_ := EncodeMap(ow.maps[k]);
      if map_.Err? {
        return Err(map_.error);
      }
      ThenThen(data, map_.value, OwMapsBlocks(ow.maps[k + 1..]));
      data := data + map_.value;
    }
    assert ow.maps[|ow.maps|..] == [] && data + [] == data;
    r := Ok(data);
  }

  // ---------------------------------------------------------------- reading

  /** The field types the loader's `switch` reads. */
  predicate OwSupported(kind: DataType)
  {
    kind == Uint8 || kind == Uint16 || kind == Int8 || kind == Int16
  }

  /** The `default` branch of the loader's `switch`. */
  function UnsupportedType(kind: DataType): string
  {
    "Unsupported data type: " + TypeName(kind)
  }

  /** One field as the loader's `switch` reads it, with JavaScript's 32-bit
   *  shifts and `|`: a byte; two bytes joined by `(a << 8) | b` and made
   *  unsigned by `>>> 0`; a byte sign-extended by `(a << 24) >> 24`; or the
   *  joined word sign-extended by `(w << 16) >> 16`. Any other field type
   *  throws before reading. */
  function ReadOwField(kind: DataType, d: seq<byte>): (r: Result<(int, seq<byte>)>)
    ensures !OwSupported(kind) ==> r == Err(UnsupportedType(kind))
    ensures OwSupported(kind) ==> (r.Ok? <==> Size(kind) <= |d|)
    ensures OwSupported(kind) && r.Err? ==> r.error == OutOfBounds
    ensures r.Ok? ==> r.value.1 == d[Size(kind)..]
  {
    if !OwSupported(kind) then Err(UnsupportedType(kind))
    else if |d| < Size(kind) then Err(OutOfBounds)
    else
      var v := match kind
        case Uint8 => d[0]
        case Uint16 => ShiftRightUnsigned(Or(ShiftLeft(d[0], 8), d[1]), 0)
        case Int8 => ShiftRight(ShiftLeft(d[0], 24), 24)
        case _ => ShiftRight(ShiftLeft(Or(ShiftLeft(d[0], 8), d[1]), 16), 16);
      Ok((v, d[Size(kind)..]))
  }

  /** The shifts compute what the DataView getters read: the byte, the
   *  big-endian word, and each sign-extended. */
  lemma {:induction false} OwFieldAgrees(kind: DataType, d: seq<byte>)
    requires OwSupported(kind)
    ensures ReadOwField(kind, d) == ReadField(kind, d)
  {
    if |d| >= Size(kind) {
      SmallPowers();
      assert FromBigEndian(d[..1]) == d[0] by {
        assert d[..1][..0] == [];
      }
      if kind == Uint8 || kind == Int8 {
        assert ReadUint(d, 1) == Ok((d[0] as nat, d[1..]));
        if kind == Int8 {
          ByteSignByShifts(d[0]);
        }
      } else {
        var w: int := 256 * (d[0] as int) + d[1] as int;
        assert FromBigEndian(d[..2]) == w by {
          assert d[..2][..1] == d[..1];
        }
        assert ReadUint(d, 2) == Ok((w as nat, d[2..]));
        WordOfShiftOr(d[0], d[1]);
        if kind == Uint16 {
          UnsignedOfSmall(w);
        } else {
          WordSignByShifts(w);
        }
      }
    }
  }

  /** The field loop: each exported field read over the object's
   *  properties, the cursor moving past it. */
  function ReadOwFields(fields: seq<ExportField>, props: map<string, int>, d: seq<byte>)
    : (r: Result<(map<string, int>, seq<byte>)>)
    ensures r.Ok? ==> |r.value.1| <= |d|
    decreases |fields|
  {
    if fields == [] then Ok((props, d))
    else match ReadOwField(fields[0].kind, d)
      case Err(e) => Err(e)
      case Ok((v, rest)) => ReadOwFields(fields[1..], props[fields[0].key := v], rest)
  }

  /** The object loop of a layer: a big-endian type word, the terminator
   *  ending the layer; any other type is looked up in the overworld tile
   *  table (a type past its end throws) and its fields are read over
   *  `{ type }`. */
  function ReadOwObjects(objects: seq<MapObject>, d: seq<byte>): (r: Result<(seq<MapObject>, seq<byte>)>)
    ensures r.Ok? ==> |r.value.1| <= |d|
    decreases |d|
  {
    match ReadUint(d, 2)
    case Err(e) => Err(e)
    case Ok((t, rest)) =>
      if t == Terminator then Ok((objects, rest))
      else if t >= |OwTileTypes| then Err(ExportDataMissing)
      else match ReadOwFields(OwTileTypes[t].exportData, map["type" := t], rest)
        case Err(e) => Err(e)
        case Ok((props, after)) => ReadOwObjects(objects + [MapObject(props)], after)
  }

  /** The layer type of a type byte: 0 is a block layer, anything else a
   *  sprite layer. */
  function OwLayerKind(b: byte): (kind: string)
    ensures kind == BlockLayer <==> b == 0
    ensures kind == SpriteLayer <==> b != 0
  {
    if b == 0 then BlockLayer else SpriteLayer
  }

  /** One layer: a type byte and its objects. */
  function ReadOwLayer(d: seq<byte>): Result<(OwLayer, seq<byte>)>
  {
    if |d| < 1 then Err(OutOfBounds)
    else match ReadOwObjects([], d[1..])
      case Err(e) => Err(e)
      case Ok((objects, rest)) => Ok((OwLayer(OwLayerKind(d[0]), objects), rest))
  }

  /** `n` more layers. */
  function ReadOwLayers(layers: seq<OwLayer>, d: seq<byte>, n: nat): (r: Result<(seq<OwLayer>, seq<byte>)>)
    decreases n
  {
    if n == 0 then Ok((layers, d))
    else match ReadOwLayer(d)
      case Err(e) => Err(e)
      case Ok((l, rest)) => ReadOwLayers(layers + [l], rest, n - 1)
  }

  /** One map: its width, height and layer count bytes and its layers. */
  function ReadOwMap(d: seq<byte>): Result<(OwMap, seq<byte>)>
  {
    if |d| < 3 then Err(OutOfBounds)
    else match ReadOwLayers([], d[3..], d[2])
      case Err(e) => Err(e)
      case Ok((layers, rest)) => Ok((OwMap(d[0], d[1], layers), rest))
  }

  /** `n` more maps. */
  function ReadOwMaps(maps: seq<OwMap>, d: seq<byte>, n: nat): (r: Result<(seq<OwMap>, seq<byte>)>)
    decreases n
  {
    if n == 0 then Ok((maps, d))
    else match ReadOwMap(d)
      case Err(e) => Err(e)
      case Ok((m, rest)) => ReadOwMaps(maps + [m], rest, n - 1)
  }

  /** `loadOverworldFromData` with every read checked against the end of the
   *  data: the map count, then the maps; bytes after the last map are
   *  ignored. */
  function ReadOverworld(data: seq<byte>): Result<Overworld>
  {
    if |data| < 1 then Err(OutOfBounds)
    else match ReadOwMaps([], data[1..], data[0])
      case Err(e) => Err(e)
      case Ok((maps, _)) => Ok(Overworld(maps))
  }

  /** The loader's shift-and-or field reads agree with the DataView getters
   *  on the field types it supports, field after field. */
  lemma {:induction false} OwFieldsAgree(fields: seq<ExportField>, props: map<string, int>, d: seq<byte>)
    requires forall f | f in fields :: OwSupported(f.kind)
    ensures ReadOwFields(fields, props, d) == ReadFields(fields, props, d)
    decreases |fields|
  {
    if fields != [] {
      assert forall f | f in fields[1..] :: f in fields;
      OwFieldAgrees(fields[0].kind, d);
      match ReadField(fields[0].kind, d)
      case Err(_) =>
      case Ok((v, rest)) => OwFieldsAgree(fields[1..], props[fields[0].key := v], rest);
    }
  }

  /** A field type the loader does not support stops the field loop with
   *  its message, whatever bytes follow. */
  lemma {:induction false} UnsupportedStops(f: ExportField, fields: seq<ExportField>, props: map<string, int>, d: seq<byte>)
    requires !OwSupported(f.kind)
    ensures ReadOwFields([f] + fields, props, d) == Err(UnsupportedType(f.kind))
  {
    assert ([f] + fields)[0] == f;
  }

  // ---------------------------------------------------------------- the cursor loop

  lemma {:induction false} OwFieldStep(fields: seq<ExportField>, k: nat, props: map<string, int>, d: seq<byte>)
    requires k < |fields|
    ensures ReadOwFields(fields[k..], props, d) ==
      match ReadOwField(fields[k].kind, d)
      case Err(e) => Err(e)
      case Ok((v, rest)) => ReadOwFields(fields[k + 1..], props[fields[k].key := v], rest)
  {
    assert fields[k..][0] == fields[k] && fields[k..][1..] == fields[k + 1..];
  }

  /** A field read at the cursor moves the cursor past the field. */
  lemma {:induction false} OwFieldAdvance(fields: seq<ExportField>, k: nat, props: map<string, int>, data: seq<byte>, i: nat, v: int)
    requires k < |fields| && i <= |data|
    requires ReadOwField(fields[k].kind, data[i..]).Ok? && ReadOwField(fields[k].kind, data[i..]).value.0 == v
    ensures i + Size(fields[k].kind) <= |data|
    ensures ReadOwFields(fields[k..], props, data[i..]) ==
      ReadOwFields(fields[k + 1..], props[fields[k].key := v], data[i + Size(fields[k].kind)..])
  {
    OwFieldStep(fields, k, props, data[i..]);
    assert data[i..][Size(fields[k].kind)..] == data[i + Size(fields[k].kind)..];
  }

  /** The field loop at the cursor: each field's `switch` case reads it and
   *  moves the cursor past it. */
  method ReadOwFieldsAt(fields: seq<ExportField>, props: map<string, int>, data: seq<byte>, start: nat)
    returns (r: Result<(map<string, int>, nat)>)
    requires start <= |data|
    ensures r.Err? ==> ReadOwFields(fields, props, data[start..]) == Err(r.error)
    ensures r.Ok? ==> (start <= r.value.1 <= |data| &&
      ReadOwFields(fields, props, data[start..]) == Ok((r.value.0, data[r.value.1..])))
  {
    var current := props;
    var i: nat := start;
    for k := 0 to |fields|
      invariant start <= i <= |data|
      invariant ReadOwFields(fields[k..], current, data[i..]) == ReadOwFields(fields, props, data[start..])
    {
      var f := ReadOwField(fields[k].kind, data[i..]);
      if f.Err? {
        OwFieldStep(fields, k, current, data[i..]);
        return Err(f.error);
      }
      OwFieldAdvance(fields, k, current, data, i, f.value.0);
      current := current[fields[k].key := f.value.0];
      i := i + Size(fields[k].kind);
    }
    assert fields[|fields|..] == [];
    return Ok((current, i));
  }

  /** The type word at the cursor. */
  lemma {:induction false} TypeWordAt(data: seq<byte>, p: nat)
    requires p + 2 <= |data|
    ensures ReadUint(data[p..], 2) == Ok((256 * (data[p] as int) + data[p + 1] as int, data[p + 2..]))
  {
    assert data[p..][..2] == [data[p], data[p + 1]];
    WordOfBytes([data[p], data[p + 1]]);
    assert data[p..][2..] == data[p + 2..];
  }

  lemma {:induction false} LayerAt(data: seq<byte>, j: nat)
    requires j < |data|
    ensures ReadOwLayer(data[j..]) ==
      var read := ReadOwObjects([], data[j + 1..]);
      if read.Err? then Err(read.error) else Ok((OwLayer(OwLayerKind(data[j]), read.value.0), read.value.1))
  {
    assert data[j..][0] == data[j] && data[j..][1..] == data[j + 1..];
  }

  /** What the object loop finds at the cursor: the terminator, or an object
   *  and the cursor after it. */
  datatype ObjectStep = Terminated(next: nat) | Object(o: MapObject, next: nat)

  /** One pass of the object loop: the type word, then the terminator or
   *  the object's fields. */
  method ReadObjectAt(data: seq<byte>, p: nat, ghost objects: seq<MapObject>) returns (r: Result<ObjectStep>)
    requires p <= |data|
    ensures r.Err? ==> ReadOwObjects(objects, data[p..]) == Err(r.error)
    ensures r.Ok? && r.value.Terminated? ==>
      (r.value.next <= |data| && ReadOwObjects(objects, data[p..]) == Ok((objects, data[r.value.next..])))
    ensures r.Ok? && r.value.Object? ==>
      (p < r.value.next <= |data| &&
       ReadOwObjects(objects, data[p..]) == ReadOwObjects(objects + [r.value.o], data[r.value.next..]))
  {
    if |data| - p < 2 {
      return Err(OutOfBounds);
    }
    TypeWordAt(data, p);
    var t: int := 256 * (data[p] as int) + data[p + 1] as int;
    if t == Terminator {
      return Ok(Terminated(p + 2));
    }
    if t >= |OwTileTypes| {
      return Err(ExportDataMissing);
    }
    var read := ReadOwFieldsAt(OwTileTypes[t].exportData, map["type" := t], data, p + 2);
    if read.Err? {
      return Err(read.error);
    }
    return Ok(Object(MapObject(read.value.0), read.value.1));
  }

  /** One layer at the cursor: the type byte, then objects until the
   *  terminator. */
  method ReadLayerAt(data: seq<byte>, j: nat) returns (r: Result<(OwLayer, nat)>)
    requires j <= |data|
    ensures r.Err? ==> ReadOwLayer(data[j..]) == Err(r.error)
    ensures r.Ok? ==> (j <= r.value.1 <= |data| && ReadOwLayer(data[j..]) == Ok((r.value.0, data[r.value.1..])))
  {
    if j >= |data| {
      return Err(OutOfBounds);
    }
    LayerAt(data, j);
    var kind := OwLayerKind(data[j]);
    var objects: seq<MapObject> := [];
    var p: nat := j + 1;
    while true
      invariant j + 1 <= p <= |data|
      invariant ReadOwObjects(objects, data[p..]) == ReadOwObjects([], data[j + 1..])
      decreases |data| - p
    {
      var step := ReadObjectAt(data, p, objects);
      if step.Err? {
        return Err(step.error);
      }
      if step.value.Terminated? {
        return Ok((OwLayer(kind, objects), step.value.next));
      }
      objects := objects + [step.value.o];
      p := step.value.next;
    }
  }

  /** A layer read off the front moves the layer loop on by one. */
  lemma {:induction false} LayersStep(layers: seq<OwLayer>, d: seq<byte>, n: nat)
    ensures ReadOwLayers(layers, d, n + 1) ==
      var read := ReadOwLayer(d);
      if read.Err? then Err(read.error) else ReadOwLayers(layers + [read.value.0], read.value.1, n)
  {
  }

  /** The layer loop of a map at the cursor. */
  method ReadLayersAt(data: seq<byte>, start: nat, count: nat) returns (r: Result<(seq<OwLayer>, nat)>)
    requires start <= |data|
    ensures r.Err? ==> ReadOwLayers([], data[start..], count) == Err(r.error)
    ensures r.Ok? ==> (start <= r.value.1 <= |data| &&
      ReadOwLayers([], data[start..], count) == Ok((r.value.0, data[r.value.1..])))
  {
    var layers: seq<OwLayer> := [];
    var j: nat := start;
    var left: nat := count;
    while left > 0
      invariant start <= j <= |data|
      invariant ReadOwLayers(layers, data[j..], left) == ReadOwLayers([], data[start..], count)
    {
      var next := ReadLayerAt(data, j);
      if next.Err? {
        return Err(next.error);
      }
      var more: nat := left - 1;
      LayersStep(layers, data[j..], more);
      layers, j, left := layers + [next.value.0], next.value.1, more;
    }
    return Ok((layers, j));
  }

  lemma {:induction false} MapAt(data: seq<byte>, i: nat)
    requires i + 3 <= |data|
    ensures ReadOwMap(data[i..]) ==
      var read := ReadOwLayers([], data[i + 3..], data[i + 2]);
      if read.Err? then Err(read.error) else Ok((OwMap(data[i], data[i + 1], read.value.0), read.value.1))
  {
    assert data[i..][3..] == data[i + 3..];
  }

  /** One map at the cursor: width, height and layer count, then the
   *  layers. */
  method ReadMapAt(data: seq<byte>, i: nat) returns (r: Result<(OwMap, nat)>)
    requires i <= |data|
    ensures r.Err? ==> ReadOwMap(data[i..]) == Err(r.error)
    ensures r.Ok? ==> (i <= r.value.1 <= |data| && ReadOwMap(data[i..]) == Ok((r.value.0, data[r.value.1..])))
  {
    if |data| - i < 3 {
      return Err(OutOfBounds);
    }
    var width, height, layerCount := data[i], data[i + 1], data[i + 2];
    var layers := ReadLayersAt(data, i + 3, layerCount);
    MapAt(data, i);
    if layers.Err? {
      return Err(layers.error);
    }
    return Ok((OwMap(width, height, layers.value.0), layers.value.1));
  }

  /** A map read off the front moves the map loop on by one. */
  lemma {:induction false} MapsStep(maps: seq<OwMap>, d: seq<byte>, n: nat)
    ensures ReadOwMaps(maps, d, n + 1) ==
      var read := ReadOwMap(d);
      if read.Err? then Err(read.error) else ReadOwMaps(maps + [read.value.0], read.value.1, n)
  {
  }

  /** `loadOverworldFromData`: the map count, then each map read at the
   *  cursor. */
  method LoadOverworldFromData(data: seq<byte>) returns (r: Result<Overworld>)
    ensures r == ReadOverworld(data)
  {
    if |data| < 1 {
      return Err(OutOfBounds);
    }
    var mapCount := data[0];
    var maps: seq<OwMap> := [];
    var i: nat := 1;
    var left: nat := mapCount;
    while left > 0
      invariant 1 <= i <= |data|
      invariant ReadOwMaps(maps, data[i..], left) == ReadOwMaps([], data[1..], mapCount)
    {
      var next := ReadMapAt(data, i);
      if next.Err? {
        return Err(next.error);
      }
      var more: nat := left - 1;
      MapsStep(maps, data[i..], more);
      maps, i, left := maps + [next.value.0], next.value.1, more;
    }
    return Ok(Overworld(maps));
  }

  // ---------------------------------------------------------------- round trip

  /** A layer `encode` accepts and whose objects the tile table stores
   *  exactly. */
  predicate StorableOwLayer(l: OwLayer)
  {
    (l.kind == BlockLayer || l.kind == SpriteLayer) &&
    forall o | o in l.objects :: StorableObject(OwTileTypes, o)
  }

  /** A map whose width, height and layer count fit their byte. */
  predicate StorableOwMap(m: OwMap)
  {
    0 <= m.width < 256 && 0 <= m.height < 256 && |m.layers| < 256 &&
    forall l | l in m.layers :: StorableOwLayer(l)
  }

  predicate StorableOverworld(ow: Overworld)
  {
    |ow.maps| < 256 && forall m | m in ow.maps :: StorableOwMap(m)
  }

  /** The object the loader rebuilds: its type, and each exported field's
   *  value laid over it. */
  function LoadedOwObject(o: MapObject): MapObject
    requires StorableObject(OwTileTypes, o)
  {
    MapObject(Overlay(OwTileTypes[o.Type()].exportData, map["type" := o.Type()], o))
  }

  function LoadedOwObjects(objects: seq<MapObject>): (r: seq<MapObject>)
    requires forall o | o in objects :: StorableObject(OwTileTypes, o)
    ensures |r| == |objects|
  {
    if objects == [] then [] else [LoadedOwObject(objects[0])] + LoadedOwObjects(objects[1..])
  }

  function LoadedOwLayer(l: OwLayer): OwLayer
    requires StorableOwLayer(l)
  {
    OwLayer(l.kind, LoadedOwObjects(l.objects))
  }

  function LoadedOwLayers(layers: seq<OwLayer>): (r: seq<OwLayer>)
    requires forall l | l in layers :: StorableOwLayer(l)
    ensures |r| == |layers|
  {
    if layers == [] then [] else [LoadedOwLayer(layers[0])] + LoadedOwLayers(layers[1..])
  }

  function LoadedOwMap(m: OwMap): OwMap
    requires StorableOwMap(m)
  {
    OwMap(m.width, m.height, LoadedOwLayers(m.layers))
  }

  function LoadedOwMaps(maps: seq<OwMap>): (r: seq<OwMap>)
    requires forall m | m in maps :: StorableOwMap(m)
    ensures |r| == |maps|
  {
    if maps == [] then [] else [LoadedOwMap(maps[0])] + LoadedOwMaps(maps[1..])
  }

  /** The overworld the loader rebuilds from a stored one. */
  function LoadedOverworld(ow: Overworld): Overworld
    requires StorableOverworld(ow)
  {
    Overworld(LoadedOwMaps(ow.maps))
  }

  /** The tile table stores only one- and two-byte unsigned fields, which the
   *  loader supports. */
  lemma {:induction false} TileFieldsSupported(t: nat)
    requires t < |OwTileTypes|
    ensures forall f | f in OwTileTypes[t].exportData :: OwSupported(f.kind)
  {
    OwTileTypesWellFormed();
    assert OwTileTypes[t] in OwTileTypes;
  }

  /** One object read: its type word, not the terminator, then its fields. */
  lemma {:induction false} ReadOwObjectsStep(acc: seq<MapObject>, d: seq<byte>, t: nat, d1: seq<byte>, props: map<string, int>, d2: seq<byte>)
    requires ReadUint(d, 2) == Ok((t, d1)) && t < |OwTileTypes|
    requires ReadOwFields(OwTileTypes[t].exportData, map["type" := t], d1) == Ok((props, d2))
    ensures ReadOwObjects(acc, d) == ReadOwObjects(acc + [MapObject(props)], d2)
  {
  }

  /** A stored object in front of more blocks is read back as the rebuilt
   *  object, the cursor standing at the following blocks. */
  lemma {:induction false} OwObjectRead(acc: seq<MapObject>, o: MapObject, more: seq<ByteBlock>, rest: seq<byte>)
    requires StorableObject(OwTileTypes, o)
    ensures ObjectBlocks(OwTileTypes, o).Ok?
    ensures ReadOwObjects(acc, SerializeAll(ObjectBlocks(OwTileTypes, o).value + more) + rest) ==
      ReadOwObjects(acc + [LoadedOwObject(o)], SerializeAll(more) + rest)
  {
    var t := OwTileTypes[o.Type()];
    var x := SerializeAll(more) + rest;
    FieldsRoundTrip(t.exportData, map["type" := o.Type()], o, x);
    var fields := FieldBlocks(t.exportData, o).value;
    var a := ByteBlock(Uint16, o.Type());
    assert ObjectBlocks(OwTileTypes, o).value == [a] + fields;
    TypeBytes(a, fields, more, rest);
    SmallPowers();
    ReadWrittenUint(o.Type(), 2, SerializeAll(fields) + x);
    TileFieldsSupported(o.Type());
    OwFieldsAgree(t.exportData, map["type" := o.Type()], SerializeAll(fields) + x);
    ReadOwObjectsStep(acc, Serialize(a) + (SerializeAll(fields) + x), o.Type(), SerializeAll(fields) + x,
                      Overlay(t.exportData, map["type" := o.Type()], o), x);
  }

  /** Reading a layer's stored objects and its terminator rebuilds each
   *  object and leaves the cursor after the terminator. */
  lemma {:induction false} OwObjectsRoundTrip(acc: seq<MapObject>, objects: seq<MapObject>, rest: seq<byte>)
    requires forall o | o in objects :: StorableObject(OwTileTypes, o)
    ensures ObjectsBlocks(OwTileTypes, objects).Ok?
    ensures ReadOwObjects(acc, SerializeAll(ObjectsBlocks(OwTileTypes, objects).value) + ([255, 255] + rest)) ==
      Ok((acc + LoadedOwObjects(objects), rest))
    decreases |objects|
  {
    if objects == [] {
      TerminatorBytes(rest);
      assert SerializeAll([]) + ([255, 255] + rest) == [255, 255] + rest;
      assert acc + [] == acc;
    } else {
      var lo := LoadedOwObject(objects[0]);
      assert forall x | x in objects[1..] :: x in objects;
      OwObjectsRoundTrip(acc + [lo], objects[1..], rest);
      OwObjectsStep(acc, objects, rest);
    }
  }

  lemma {:induction false} OwObjectsStep(acc: seq<MapObject>, objects: seq<MapObject>, rest: seq<byte>)
    requires objects != []
    requires forall o | o in objects :: StorableObject(OwTileTypes, o)
    requires ObjectsBlocks(OwTileTypes, objects[1..]).Ok?
    requires ReadOwObjects(acc + [LoadedOwObject(objects[0])],
                           SerializeAll(ObjectsBlocks(OwTileTypes, objects[1..]).value) + ([255, 255] + rest)) ==
      Ok((acc + [LoadedOwObject(objects[0])] + LoadedOwObjects(objects[1..]), rest))
    ensures ObjectsBlocks(OwTileTypes, objects).Ok?
    ensures ReadOwObjects(acc, SerializeAll(ObjectsBlocks(OwTileTypes, objects).value) + ([255, 255] + rest)) ==
      Ok((acc + LoadedOwObjects(objects), rest))
  {
    var lo := LoadedOwObject(objects[0]);
    var more := ObjectsBlocks(OwTileTypes, objects[1..]).value;
    OwObjectRead(acc, objects[0], more, [255, 255] + rest);
    ObjectsCons(OwTileTypes, objects);
    Associate(acc, [lo], LoadedOwObjects(objects[1..]), LoadedOwObjects(objects));
  }

  /** A layer's bytes: its type byte, its objects and the terminator. */
  lemma {:induction false} OwLayerBytes(h: ByteBlock, objects: seq<ByteBlock>, term: ByteBlock, rest: seq<byte>)
    ensures SerializeAll([h] + objects + [term]) + rest == Serialize(h) + (SerializeAll(objects) + (Serialize(term) + rest))
  {
    AppendBytes([h] + objects, [term], rest);
    ConsBytes(term, [], rest);
    assert [term] + [] == [term];
    ConsBytes(h, objects, Serialize(term) + rest);
  }

  /** One layer read: its type byte, then its objects. */
  lemma {:induction false} ReadOwLayersStep(acc: seq<OwLayer>, d: seq<byte>, n: nat, objects: seq<MapObject>, rest: seq<byte>)
    requires |d| >= 1 && ReadOwObjects([], d[1..]) == Ok((objects, rest))
    ensures ReadOwLayers(acc, d, n + 1) == ReadOwLayers(acc + [OwLayer(OwLayerKind(d[0]), objects)], rest, n)
  {
  }

  /** A stored layer read off the front of the layers' bytes. */
  lemma {:induction false} OwLayerRead(acc: seq<OwLayer>, l: OwLayer, more: seq<byte>, n: nat)
    requires StorableOwLayer(l)
    ensures OwLayerBlocks(l).Ok?
    ensures ReadOwLayers(acc, SerializeAll(OwLayerBlocks(l).value) + more, n + 1) ==
      ReadOwLayers(acc + [LoadedOwLayer(l)], more, n)
  {
    var b := ConvertLayerTypeToByte(l.kind).value;
    OwObjectsRoundTrip([], l.objects, more);
    var objects := ObjectsBlocks(OwTileTypes, l.objects).value;
    var h, term := ByteBlock(Uint8, b), ByteBlock(Uint16, Terminator);
    assert OwLayerBlocks(l).value == [h] + objects + [term];
    OwLayerBytes(h, objects, term, more);
    TerminatorBytes(more);
    SerializeByte(b);
    var tail := SerializeAll(objects) + ([255, 255] + more);
    assert ([b] + tail)[0] == b && ([b] + tail)[1..] == tail;
    assert [] + LoadedOwObjects(l.objects) == LoadedOwObjects(l.objects);
    ReadOwLayersStep(acc, [b] + tail, n, LoadedOwObjects(l.objects), more);
  }

  /** Reading the stored layers rebuilds each layer and leaves the cursor
   *  after the last. */
  lemma {:induction false} OwLayersRoundTrip(acc: seq<OwLayer>, layers: seq<OwLayer>, rest: seq<byte>)
    requires forall l | l in layers :: StorableOwLayer(l)
    ensures OwLayersBlocks(layers).Ok?
    ensures ReadOwLayers(acc, SerializeAll(OwLayersBlocks(layers).value) + rest, |layers|) ==
      Ok((acc + LoadedOwLayers(layers), rest))
    decreases |layers|
  {
    if layers == [] {
      assert SerializeAll([]) + rest == rest;
      assert acc + [] == acc;
    } else {
      assert forall x | x in layers[1..] :: x in layers;
      OwLayersRoundTrip(acc + [LoadedOwLayer(layers[0])], layers[1..], rest);
      OwLayersStep(acc, layers[0], OwLayersBlocks(layers[1..]).value, LoadedOwLayers(layers[1..]), rest, |layers| - 1);
      OwLayersCons(layers);
    }
  }

  /** One layer in front of the rest: read it, then the rest. */
  lemma {:induction false} OwLayersStep(acc: seq<OwLayer>, l: OwLayer, more: seq<ByteBlock>,
                                        loaded: seq<OwLayer>, rest: seq<byte>, n: nat)
    requires StorableOwLayer(l)
    requires ReadOwLayers(acc + [LoadedOwLayer(l)], SerializeAll(more) + rest, n) ==
      Ok((acc + [LoadedOwLayer(l)] + loaded, rest))
    ensures OwLayerBlocks(l).Ok?
    ensures ReadOwLayers(acc, SerializeAll(OwLayerBlocks(l).value + more) + rest, n + 1) ==
      Ok((acc + ([LoadedOwLayer(l)] + loaded), rest))
  {
    OwLayerRead(acc, l, SerializeAll(more) + rest, n);
    AppendBytes(OwLayerBlocks(l).value, more, rest);
    Associate(acc, [LoadedOwLayer(l)], loaded, [LoadedOwLayer(l)] + loaded);
  }

  /** `OwLayersBlocks` and `LoadedOwLayers` of a non-empty list, one layer at
   *  a time. */
  lemma {:induction false} OwLayersCons(layers: seq<OwLayer>)
    requires layers != []
    requires forall l | l in layers :: StorableOwLayer(l)
    requires OwLayerBlocks(layers[0]).Ok? && OwLayersBlocks(layers[1..]).Ok?
    ensures OwLayersBlocks(layers) == Ok(OwLayerBlocks(layers[0]).value + OwLayersBlocks(layers[1..]).value)
    ensures LoadedOwLayers(layers) == [LoadedOwLayer(layers[0])] + LoadedOwLayers(layers[1..])
  {
  }


  /** A map's three header bytes. */
  lemma {:induction false} OwMapHeaderBytes(m: OwMap)
    requires StorableOwMap(m)
    ensures SerializeAll(OwMapHeader(m)) == [m.width as byte, m.height as byte, |m.layers| as byte]
  {
    var bs: seq<byte> := [m.width as byte, m.height as byte, |m.layers| as byte];
    assert OwMapHeader(m) == Uint8Blocks(bs);
    SerializeUint8Blocks(bs);
  }

  /** One map read: its width, height and layer count, then its layers. */
  lemma {:induction false} ReadOwMapsStep(acc: seq<OwMap>, d: seq<byte>, n: nat, layers: seq<OwLayer>, rest: seq<byte>)
    requires |d| >= 3 && ReadOwLayers([], d[3..], d[2]) == Ok((layers, rest))
    ensures ReadOwMaps(acc, d, n + 1) == ReadOwMaps(acc + [OwMap(d[0], d[1], layers)], rest, n)
  {
  }

  /** A stored map read off the front of the maps' bytes. */
  lemma {:induction false} OwMapRead(acc: seq<OwMap>, m: OwMap, more: seq<byte>, n: nat)
    requires StorableOwMap(m)
    ensures OwMapBlocks(m).Ok?
    ensures ReadOwMaps(acc, SerializeAll(OwMapBlocks(m).value) + more, n + 1) ==
      ReadOwMaps(acc + [LoadedOwMap(m)], more, n)
  {
    OwLayersRoundTrip([], m.layers, more);
    var header := OwMapHeader(m);
    var layers := OwLayersBlocks(m.layers).value;
    AppendBytes(header, layers, more);
    OwMapHeaderBytes(m);
    var tail := SerializeAll(layers) + more;
    var d := [m.width as byte, m.height as byte, |m.layers| as byte] + tail;
    assert d[3..] == tail && d[0] == m.width && d[1] == m.height && d[2] == |m.layers|;
    assert [] + LoadedOwLayers(m.layers) == LoadedOwLayers(m.layers);
    ReadOwMapsStep(acc, d, n, LoadedOwLayers(m.layers), more);
  }

  /** Reading the stored maps rebuilds each map and leaves the cursor after
   *  the last. */
  lemma {:induction false} OwMapsRoundTrip(acc: seq<OwMap>, maps: seq<OwMap>, rest: seq<byte>)
    requires forall m | m in maps :: StorableOwMap(m)
    ensures OwMapsBlocks(maps).Ok?
    ensures ReadOwMaps(acc, SerializeAll(OwMapsBlocks(maps).value) + rest, |maps|) ==
      Ok((acc + LoadedOwMaps(maps), rest))
    decreases |maps|
  {
    if maps == [] {
      assert SerializeAll([]) + rest == rest;
      assert acc + [] == acc;
    } else {
      assert forall x | x in maps[1..] :: x in maps;
      OwMapsRoundTrip(acc + [LoadedOwMap(maps[0])], maps[1..], rest);
      OwMapsStep(acc, maps, rest);
    }
  }

  lemma {:induction false} OwMapsStep(acc: seq<OwMap>, maps: seq<OwMap>, rest: seq<byte>)
    requires maps != []
    requires forall m | m in maps :: StorableOwMap(m)
    requires OwMapsBlocks(maps[1..]).Ok?
    requires ReadOwMaps(acc + [LoadedOwMap(maps[0])], SerializeAll(OwMapsBlocks(maps[1..]).value) + rest, |maps| - 1) ==
      Ok((acc + [LoadedOwMap(maps[0])] + LoadedOwMaps(maps[1..]), rest))
    ensures OwMapsBlocks(maps).Ok?
    ensures ReadOwMaps(acc, SerializeAll(OwMapsBlocks(maps).value) + rest, |maps|) ==
      Ok((acc + LoadedOwMaps(maps), rest))
  {
    var more := OwMapsBlocks(maps[1..]).value;
    OwMapRead(acc, maps[0], SerializeAll(more) + rest, |maps| - 1);
    var first := OwMapBlocks(maps[0]).value;
    assert OwMapsBlocks(maps) == Ok(first + more);
    AppendBytes(first, more, rest);
    Associate(acc, [LoadedOwMap(maps[0])], LoadedOwMaps(maps[1..]), LoadedOwMaps(maps));
  }

  /** `loadOverworldFromData` of an encoded overworld whose sizes and counts
   *  fit a byte rebuilds every map, layer and object, whatever bytes follow
   *  the encoding. */
  lemma {:induction false} OverworldRoundTrip(ow: Overworld, rest: seq<byte>)
    requires StorableOverworld(ow)
    ensures OverworldBlocks(ow).Ok?
    ensures ReadOverworld(SerializeAll(OverworldBlocks(ow).value) + rest) == Ok(LoadedOverworld(ow))
  {
    OwMapsRoundTrip([], ow.maps, rest);
    var maps := OwMapsBlocks(ow.maps).value;
    var count := ByteBlock(Uint8, |ow.maps|);
    ConsBytes(count, maps, rest);
    SerializeByte(|ow.maps|);
    var d := [|ow.maps| as byte] + (SerializeAll(maps) + rest);
    assert d[0] == |ow.maps| && d[1..] == SerializeAll(maps) + rest;
    assert [] + LoadedOwMaps(ow.maps) == LoadedOwMaps(ow.maps);
  }

  /** An object holding exactly its type and the fields its tile type
   *  stores, as the loader builds them. */
  predicate ExactOwObject(o: MapObject)
  {
    0 <= o.Type() < |OwTileTypes| &&
    o.props.Keys == {"type"} + set f | f in OwTileTypes[o.Type()].exportData :: f.key
  }

  predicate ExactOwLayer(l: OwLayer)
  {
    forall o | o in l.objects :: ExactOwObject(o)
  }

  predicate ExactOwMap(m: OwMap)
  {
    forall l | l in m.layers :: ExactOwLayer(l)
  }

  /** No tile type stores a field named `type`. */
  lemma {:induction false} TileKeys(t: nat)
    requires t < |OwTileTypes|
    ensures forall f | f in OwTileTypes[t].exportData :: f.key != "type"
  {
  }

  /** An object holding exactly what is stored for it is rebuilt as
   *  itself. */
  lemma {:induction false} LoadedOwObjectSame(o: MapObject)
    requires StorableObject(OwTileTypes, o) && ExactOwObject(o)
    ensures LoadedOwObject(o) == o
  {
    var fields := OwTileTypes[o.Type()].exportData;
    var start := map["type" := o.Type()];
    TileKeys(o.Type());
    var loaded := Overlay(fields, start, o);
    OverlayKeys(fields, start, o, "type");
    assert loaded.Keys == o.props.Keys;
    forall k | k in o.props
      ensures loaded[k] == o.props[k]
    {
      OverlayKeys(fields, start, o, k);
    }
    SameMaps(loaded, o.props);
  }

  lemma {:induction false} SameMaps(a: map<string, int>, b: map<string, int>)
    requires a.Keys == b.Keys && forall k | k in a :: a[k] == b[k]
    ensures a == b
  {
  }

  lemma {:induction false} LoadedOwObjectsSame(objects: seq<MapObject>)
    requires forall o | o in objects :: StorableObject(OwTileTypes, o)
    requires forall o | o in objects :: ExactOwObject(o)
    ensures LoadedOwObjects(objects) == objects
  {
    if objects != [] {
      assert forall x | x in objects[1..] :: x in objects;
      LoadedOwObjectSame(objects[0]);
      LoadedOwObjectsSame(objects[1..]);
      assert objects == [objects[0]] + objects[1..];
    }
  }

  lemma {:induction false} LoadedOwLayersSame(layers: seq<OwLayer>)
    requires forall l | l in layers :: StorableOwLayer(l)
    requires forall l | l in layers :: ExactOwLayer(l)
    ensures LoadedOwLayers(layers) == layers
  {
    if layers != [] {
      assert forall x | x in layers[1..] :: x in layers;
      assert layers[0] in layers;
      LoadedOwObjectsSame(layers[0].objects);
      LoadedOwLayersSame(layers[1..]);
      assert layers == [layers[0]] + layers[1..];
    }
  }

  lemma {:induction false} LoadedOwMapsSame(maps: seq<OwMap>)
    requires forall m | m in maps :: StorableOwMap(m)
    requires forall m | m in maps :: ExactOwMap(m)
    ensures LoadedOwMaps(maps) == maps
  {
    if maps != [] {
      assert forall x | x in maps[1..] :: x in maps;
      assert maps[0] in maps;
      LoadedOwLayersSame(maps[0].layers);
      LoadedOwMapsSame(maps[1..]);
      assert maps == [maps[0]] + maps[1..];
    }
  }

  /** An overworld whose objects hold exactly what is stored for them loads
   *  back as itself from its encoding. */
  lemma {:induction false} OverworldRoundTripExact(ow: Overworld)
    requires StorableOverworld(ow) && forall m | m in ow.maps :: ExactOwMap(m)
    ensures OverworldBlocks(ow).Ok?
    ensures ReadOverworld(SerializeAll(OverworldBlocks(ow).value)) == Ok(ow)
  {
    OverworldRoundTrip(ow, []);
    assert SerializeAll(OverworldBlocks(ow).value) + [] == SerializeAll(OverworldBlocks(ow).value);
    LoadedOwMapsSame(ow.maps);
  }

  /** The blank map's blocks: its header and one empty block layer. */
  lemma {:induction false} BlankMapBlocks()
    ensures OwMapBlocks(BlankMap) ==
      Ok([ByteBlock(Uint8, 20), ByteBlock(Uint8, 20), ByteBlock(Uint8, 1), ByteBlock(Uint8, 0),
          ByteBlock(Uint16, Terminator)])
  {
    var layer := [ByteBlock(Uint8, 0), ByteBlock(Uint16, Terminator)];
    assert ConvertLayerTypeToByte(BlockLayer) == Ok(0);
    assert ObjectsBlocks(OwTileTypes, []) == Ok([]);
    assert [ByteBlock(Uint8, 0)] + [] + [ByteBlock(Uint16, Terminator)] == layer;
    assert OwLayerBlocks(BlankLayer(BlockLayer)) == Ok(layer);
    assert OwLayersBlocks([BlankLayer(BlockLayer)]) == Ok(layer) by {
      assert layer + [] == layer;
    }
    assert OwMapHeader(BlankMap) + layer ==
      [ByteBlock(Uint8, 20), ByteBlock(Uint8, 20), ByteBlock(Uint8, 1), ByteBlock(Uint8, 0), ByteBlock(Uint16, Terminator)];
  }

  /** The blank overworld's bytes: one map of 20 by 20 blocks with one empty
   *  block layer. */
  lemma {:induction false} BlankOverworldBytes()
    ensures OverworldBlocks(BlankOverworld).Ok?
    ensures SerializeAll(OverworldBlocks(BlankOverworld).value) == [1, 20, 20, 1, 0, 255, 255]
  {
    BlankMapBlocks();
    var m := OwMapBlocks(BlankMap).value;
    assert OwMapsBlocks([BlankMap]) == Ok(m) by {
      assert m + [] == m;
    }
    var bytes: seq<byte> := [1, 20, 20, 1, 0];
    var term := ByteBlock(Uint16, Terminator);
    assert [ByteBlock(Uint8, 1)] + m == Uint8Blocks(bytes) + [term];
    SerializeUint8Blocks(bytes);
    SerializeAllAppend(Uint8Blocks(bytes), [term]);
    TerminatorBytes([]);
    ConsBytes(term, [], []);
  }

  // ---------------------------------------------------------------- reads past the end, as written

  /** A byte as `loadOverworldFromData` reads it: past the end of the data
   *  the read is `undefined`, which the shifts and ors of the type word
   *  turn into 0. */
  function LooseByte(d: seq<byte>, i: nat): (b: byte)
    ensures i >= |d| ==> b == 0
    ensures i < |d| ==> b == d[i]
  {
    if i < |d| then d[i] else 0
  }

  /** Where the object loop as written stands after some objects: past the
   *  terminator with the cursor after it, stopped by a throw, or still
   *  reading. */
  datatype Scan = Ended(next: nat) | Failed(error: string) | Running

  /** The object loop of `loadOverworldFromData` as written, followed for at
   *  most `fuel` objects from cursor `i`: the type word is read without a
   *  bound check, and each object moves the cursor past its fields. */
  function AsWrittenObjects(d: seq<byte>, i: nat, fuel: nat): Scan
    decreases fuel
  {
    if fuel == 0 then Running
    else
      var t := 256 * (LooseByte(d, i) as int) + LooseByte(d, i + 1) as int;
      if t == Terminator then Ended(i + 2)
      else if t >= |OwTileTypes| then Failed(ExportDataMissing)
      else AsWrittenObjects(d, i + 2 + FieldsSize(OwTileTypes[t].exportData), fuel - 1)
  }

  /** Once the cursor is past the end, every type word reads as 0, a grass
   *  tile: the loop never meets the terminator and never throws. */
  lemma {:induction false} AsWrittenNeverEnds(d: seq<byte>, i: nat, fuel: nat)
    requires i >= |d|
    ensures AsWrittenObjects(d, i, fuel) == Running
    decreases fuel
  {
    if fuel > 0 {
      assert 256 * (LooseByte(d, i) as int) + LooseByte(d, i + 1) as int == 0;
      AsWrittenNeverEnds(d, i + 2 + FieldsSize(OwTileTypes[0].exportData), fuel - 1);
    }
  }

  /** A file cut off after the type byte of its only layer: the loader as
   *  written reads objects forever, while the checked reader reports the
   *  missing bytes. */
  lemma {:induction false} TruncatedLayer(fuel: nat)
    ensures AsWrittenObjects([1, 20, 20, 1, 0], 5, fuel) == Running
    ensures ReadOverworld([1, 20, 20, 1, 0]) == Err(OutOfBounds)
  {
    AsWrittenNeverEnds([1, 20, 20, 1, 0], 5, fuel);
    var d: seq<byte> := [1, 20, 20, 1, 0];
    assert d[1..][3..] == [0] && [0][1..] == [];
    assert ReadOwObjects([], []) == Err(OutOfBounds);
    assert ReadOwLayer([0]) == Err(OutOfBounds);
    assert ReadOwMap(d[1..]) == Err(OutOfBounds);
  }
}
