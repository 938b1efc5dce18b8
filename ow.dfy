/** The overworld (src/common/ow.ts): maps of tile layers, each layer a list
 *  of overworld tile objects. An overworld is immutable; every operation
 *  builds a new one from copies of the old lists, and the operations of a
 *  map or a layer hand back the whole overworld with that map or layer
 *  replaced. */
module Overworld {
  import opened Wrappers
  import opened Bytes
  import opened Objects
  import opened Json
  import opened Levels

  // ---------------------------------------------------------------- values

  /** `OverworldLayerData`: the layer type and its objects. */
  datatype OwLayer = OwLayer(kind: string, objects: seq<MapObject>)

  /** `OverworldMapData`: the size in blocks and the layers. */
  datatype OwMap = OwMap(width: int, height: int, layers: seq<OwLayer>)
  {
    function WidthTiles(): int { width * TilesPerBlock }
    function WidthPixels(): int { width * PixelsPerBlock }
    function HeightTiles(): int { height * TilesPerBlock }
    function HeightPixels(): int { height * PixelsPerBlock }
  }

  datatype Overworld = Overworld(maps: seq<OwMap>)

  /** The map getters agree: a block is two tiles of eight pixels. */
  lemma {:induction false} MapDimensions(m: OwMap)
    ensures m.WidthTiles() == 2 * m.width && m.WidthPixels() == 8 * m.WidthTiles()
    ensures m.HeightTiles() == 2 * m.height && m.HeightPixels() == 8 * m.HeightTiles()
  {
  }

  /** `createBlankOverworldLayerData`: a layer of the given type without
   *  objects. */
  function BlankLayer(kind: string): OwLayer
  {
    OwLayer(kind, [])
  }

  /** `createBlankOverworldMapData`: 20 by 20 blocks, one empty block
   *  layer. */
  const BlankMap: OwMap := OwMap(20, 20, [BlankLayer(BlockLayer)])

  /** `createBlankOverworld`: one blank map. */
  const BlankOverworld: Overworld := Overworld([BlankMap])

  // ---------------------------------------------------------------- list edits

  /** Two entries of a copy exchanged. */
  function Swap<T>(s: seq<T>, i: nat, j: nat): (r: seq<T>)
    requires i < |s| && j < |s|
    ensures |r| == |s| && r[i] == s[j] && r[j] == s[i]
    ensures forall k | 0 <= k < |s| && k != i && k != j :: r[k] == s[k]
  {
    s[i := s[j]][j := s[i]]
  }

  /** `moveMapDown` / `moveLayerDown` on the list: an index at or past the
   *  last entry throws `outOfBounds`. Index -1 makes entry 0 `undefined`,
   *  which the next step cannot destructure (`undefinedEntry`); a lower
   *  index only sets properties the list never reads. */
  function MoveDown<T>(s: seq<T>, index: int, outOfBounds: string, undefinedEntry: string): (r: Result<seq<T>>)
    ensures index >= |s| - 1 ==> r == Err(outOfBounds)
    ensures index == -1 < |s| - 1 ==> r == Err(undefinedEntry)
    ensures index < -1 ==> r == Ok(s)
    ensures 0 <= index < |s| - 1 ==>
      (r.Ok? && |r.value| == |s| && r.value[index] == s[index + 1] && r.value[index + 1] == s[index])
    ensures 0 <= index < |s| - 1 ==> forall k | 0 <= k < |s| && k != index && k != index + 1 :: r.value[k] == s[k]
  {
    if index >= |s| - 1 then Err(outOfBounds)
    else if index == -1 then Err(undefinedEntry)
    else if index < -1 then Ok(s)
    else Ok(Swap(s, index, index + 1))
  }

  /** `moveMapUp` / `moveLayerUp` on the list: an index at or before the
   *  first entry throws `outOfBounds`; an index past the last one leaves an
   *  `undefined` entry, which the next step cannot destructure. */
  function MoveUp<T>(s: seq<T>, index: int, outOfBounds: string, undefinedEntry: string): (r: Result<seq<T>>)
    ensures index <= 0 ==> r == Err(outOfBounds)
    ensures 0 < |s| <= index ==> r == Err(undefinedEntry)
    ensures 0 < index < |s| ==>
      (r.Ok? && |r.value| == |s| && r.value[index] == s[index - 1] && r.value[index - 1] == s[index])
    ensures 0 < index < |s| ==> forall k | 0 <= k < |s| && k != index && k != index - 1 :: r.value[k] == s[k]
  {
    if index <= 0 then Err(outOfBounds)
    else if index >= |s| then Err(undefinedEntry)
    else Ok(Swap(s, index, index - 1))
  }

  /** Moving an entry down and then up again from its new place restores
   *  the list. */
  lemma {:induction false} MoveDownUp<T>(s: seq<T>, index: int, outOfBounds: string, outOfBounds': string, undefinedEntry: string)
    requires 0 <= index < |s| - 1
    ensures MoveDown(s, index, outOfBounds, undefinedEntry).Ok?
    ensures MoveUp(MoveDown(s, index, outOfBounds, undefinedEntry).value, index + 1, outOfBounds', undefinedEntry) == Ok(s)
  {
    var t := MoveDown(s, index, outOfBounds, undefinedEntry).value;
    var u := MoveUp(t, index + 1, outOfBounds', undefinedEntry).value;
    assert forall k | 0 <= k < |s| :: u[k] == s[k];
    assert u == s;
  }

  /** `removeMap` / `removeLayer` on the list: the last entry cannot go;
   *  otherwise `splice(index, 1)`. */
  function RemoveGuarded<T>(s: seq<T>, index: int, lastEntry: string): (r: Result<seq<T>>)
    ensures |s| <= 1 ==> r == Err(lastEntry)
    ensures |s| > 1 ==> r == Ok(RemoveAt(s, index))
  {
    if |s| <= 1 then Err(lastEntry) else Ok(RemoveAt(s, index))
  }

  /** `newList[index] = x` on a copy: the entry replaced, or appended when
   *  the index is the length; a negative index sets a property the list
   *  never reads. */
  function Put<T>(s: seq<T>, index: int, x: T): (r: seq<T>)
    requires index <= |s|
    ensures index < 0 ==> r == s
    ensures 0 <= index ==> |r| == (if index == |s| then |s| + 1 else |s|) && r[index] == x
    ensures forall k | 0 <= k < |s| && k != index :: r[k] == s[k]
  {
    if index < 0 then s else if index == |s| then s + [x] else s[index := x]
  }

  // ---------------------------------------------------------------- overworld

  const MapDownOutOfBounds := "Cannot move map down: index out of bounds."
  const MapUpOutOfBounds := "Cannot move map up: index out of bounds."
  const LastMap := "Cannot remove the last map."

  /** Building an overworld over a list with an `undefined` map. */
  const UndefinedMap := "Cannot destructure property 'height' of 'data' as it is undefined."

  /** `addMap`: a blank map after the others. */
  function AddMap(ow: Overworld): (r: Overworld)
    ensures |r.maps| == |ow.maps| + 1 && r.maps[..|ow.maps|] == ow.maps && r.maps[|ow.maps|] == BlankMap
  {
    Overworld(ow.maps + [BlankMap])
  }

  /** `moveMapDown`: an index at or past the last map throws, -1 leaves an
   *  `undefined` map, a lower index changes nothing, and any other index
   *  exchanges the map with the next one. */
  function MoveMapDown(ow: Overworld, index: int): (r: Result<Overworld>)
    ensures r.Err? <==> index >= |ow.maps| - 1 || index == -1
    ensures index >= |ow.maps| - 1 ==> r == Err(MapDownOutOfBounds)
    ensures index == -1 < |ow.maps| - 1 ==> r == Err(UndefinedMap)
    ensures index < -1 ==> r == Ok(ow)
    ensures 0 <= index < |ow.maps| - 1 ==> r == Ok(Overworld(Swap(ow.maps, index, index + 1)))
  {
    match MoveDown(ow.maps, index, MapDownOutOfBounds, UndefinedMap)
    case Err(e) => Err(e)
    case Ok(maps) =>
      assert 0 <= index < |ow.maps| - 1 ==> maps == Swap(ow.maps, index, index + 1);
      Ok(Overworld(maps))
  }

  /** `moveMapUp`: an index at or before the first map throws, one past the
   *  last leaves an `undefined` map, and any other index exchanges the map
   *  with the one before. */
  function MoveMapUp(ow: Overworld, index: int): (r: Result<Overworld>)
    ensures r.Err? <==> index <= 0 || index >= |ow.maps|
    ensures index <= 0 ==> r == Err(MapUpOutOfBounds)
    ensures 0 < index && |ow.maps| <= index ==> r == Err(UndefinedMap)
    ensures 0 < index < |ow.maps| ==> r == Ok(Overworld(Swap(ow.maps, index, index - 1)))
  {
    match MoveUp(ow.maps, index, MapUpOutOfBounds, UndefinedMap)
    case Err(e) => Err(e)
    case Ok(maps) =>
      assert maps == Swap(ow.maps, index, index - 1);
      Ok(Overworld(maps))
  }

  /** `removeMap`: the last map cannot go; otherwise the map at the splice
   *  start is removed and the others keep their order. */
  function RemoveMap(ow: Overworld, index: int): (r: Result<Overworld>)
    ensures |ow.maps| <= 1 ==> r == Err(LastMap)
    ensures |ow.maps| > 1 ==> r == Ok(Overworld(RemoveAt(ow.maps, index)))
    ensures |ow.maps| > 1 && 0 <= index < |ow.maps| ==>
      |r.value.maps| == |ow.maps| - 1 && r.value.maps == ow.maps[..index] + ow.maps[index + 1..]
  {
    match RemoveGuarded(ow.maps, index, LastMap)
    case Err(e) => Err(e)
    case Ok(maps) => Ok(Overworld(maps))
  }

  /** `updateMap`, the step through which every map operation returns: the
   *  map at the index replaced, or appended at the length, and no other
   *  changed. */
  function UpdateMap(ow: Overworld, index: int, m: OwMap): (r: Overworld)
    requires index <= |ow.maps|
    ensures 0 <= index < |ow.maps| ==> |r.maps| == |ow.maps| && r.maps[index] == m
    ensures index == |ow.maps| ==> r.maps == ow.maps + [m]
    ensures index < 0 ==> r == ow
    ensures forall k | 0 <= k < |ow.maps| && k != index :: r.maps[k] == ow.maps[k]
  {
    Overworld(Put(ow.maps, index, m))
  }

  /** A map added and then removed again leaves the overworld as it was. */
  lemma {:induction false} AddRemoveMap(ow: Overworld)
    requires |ow.maps| >= 1
    ensures RemoveMap(AddMap(ow), |ow.maps|) == Ok(ow)
  {
    var added := AddMap(ow).maps;
    assert RemoveAt(added, |ow.maps|) == added[..|ow.maps|];
  }

  // ---------------------------------------------------------------- maps

  const LayerDownOutOfBounds := "Cannot move layer down: index out of bounds."
  const LayerUpOutOfBounds := "Cannot move layer up: index out of bounds."
  const LastLayer := "Cannot remove the last layer."

  /** Building a map over a list with an `undefined` layer. */
  const UndefinedLayer := "Cannot destructure property 'objects' of 'layer' as it is undefined."

  /** `addLayer`: an empty layer of the type after the others. */
  function AddLayer(m: OwMap, kind: string): (r: OwMap)
    ensures r.width == m.width && r.height == m.height
    ensures |r.layers| == |m.layers| + 1 && r.layers[..|m.layers|] == m.layers
    ensures r.layers[|m.layers|].kind == kind && r.layers[|m.layers|].objects == []
  {
    OwMap(m.width, m.height, m.layers + [BlankLayer(kind)])
  }

  /** `moveLayerDown`: as `moveMapDown`, with the layer messages; the
   *  map's size is kept. */
  function MoveLayerDown(m: OwMap, index: int): (r: Result<OwMap>)
    ensures r.Err? <==> index >= |m.layers| - 1 || index == -1
    ensures index >= |m.layers| - 1 ==> r == Err(LayerDownOutOfBounds)
    ensures index == -1 < |m.layers| - 1 ==> r == Err(UndefinedLayer)
    ensures index < -1 ==> r == Ok(m)
    ensures 0 <= index < |m.layers| - 1 ==> r == Ok(OwMap(m.width, m.height, Swap(m.layers, index, index + 1)))
  {
    match MoveDown(m.layers, index, LayerDownOutOfBounds, UndefinedLayer)
    case Err(e) => Err(e)
    case Ok(layers) =>
      assert 0 <= index < |m.layers| - 1 ==> layers == Swap(m.layers, index, index + 1);
      Ok(OwMap(m.width, m.height, layers))
  }

  /** `moveLayerUp`: as `moveMapUp`, with the layer messages. */
  function MoveLayerUp(m: OwMap, index: int): (r: Result<OwMap>)
    ensures r.Err? <==> index <= 0 || index >= |m.layers|
    ensures index <= 0 ==> r == Err(LayerUpOutOfBounds)
    ensures 0 < index && |m.layers| <= index ==> r == Err(UndefinedLayer)
    ensures 0 < index < |m.layers| ==> r == Ok(OwMap(m.width, m.height, Swap(m.layers, index, index - 1)))
  {
    match MoveUp(m.layers, index, LayerUpOutOfBounds, UndefinedLayer)
    case Err(e) => Err(e)
    case Ok(layers) =>
      assert layers == Swap(m.layers, index, index - 1);
      Ok(OwMap(m.width, m.height, layers))
  }

  /** `removeLayer`: the last layer cannot go; otherwise `splice(index, 1)`
   *  on the layers. */
  function RemoveLayer(m: OwMap, index: int): (r: Result<OwMap>)
    ensures |m.layers| <= 1 ==> r == Err(LastLayer)
    ensures |m.layers| > 1 ==> r == Ok(OwMap(m.width, m.height, RemoveAt(m.layers, index)))
  {
    match RemoveGuarded(m.layers, index, LastLayer)
    case Err(e) => Err(e)
    case Ok(layers) => Ok(OwMap(m.width, m.height, layers))
  }

  /** `updateHeight`. */
  function UpdateHeight(m: OwMap, height: int): (r: OwMap)
    ensures r.height == height && r.width == m.width && r.layers == m.layers
  {
    OwMap(m.width, height, m.layers)
  }

  /** `updateWidth`. */
  function UpdateWidth(m: OwMap, width: int): (r: OwMap)
    ensures r.width == width && r.height == m.height && r.layers == m.layers
  {
    OwMap(width, m.height, m.layers)
  }

  /** `updateLayer`, the step through which every layer operation
   *  returns: the layer at the index replaced, or appended at the length,
   *  no other changed and the size kept. */
  function UpdateLayer(m: OwMap, index: int, l: OwLayer): (r: OwMap)
    requires index <= |m.layers|
    ensures r.width == m.width && r.height == m.height
    ensures 0 <= index < |m.layers| ==> |r.layers| == |m.layers| && r.layers[index] == l
    ensures index == |m.layers| ==> r.layers == m.layers + [l]
    ensures index < 0 ==> r == m
    ensures forall k | 0 <= k < |m.layers| && k != index :: r.layers[k] == m.layers[k]
  {
    OwMap(m.width, m.height, Put(m.layers, index, l))
  }

  // ---------------------------------------------------------------- layers

  /** `newObjects[index].toJSON()` on an index the list lacks. */
  const UndefinedObject := "Cannot read properties of undefined (reading 'toJSON')"

  function ObjectOutOfBounds(index: int): string
  {
    "Object index out of bounds: " + IntString(index)
  }

  /** `addObject`: the object after the others. */
  function AddObject(l: OwLayer, o: MapObject): (r: OwLayer)
    ensures r.kind == l.kind && r.objects == l.objects + [o]
  {
    OwLayer(l.kind, l.objects + [o])
  }

  /** `getObject`: the object at an index inside the list. */
  function GetObject(l: OwLayer, index: int): (r: Result<MapObject>)
    ensures r.Ok? <==> 0 <= index < |l.objects|
    ensures r.Ok? ==> r.value == l.objects[index]
    ensures r.Err? ==> r.error == ObjectOutOfBounds(index)
  {
    if index < 0 || index >= |l.objects| then Err(ObjectOutOfBounds(index)) else Ok(l.objects[index])
  }

  /** `removeObject`: `splice(index, 1)`, unguarded. */
  function RemoveObject(l: OwLayer, index: int): (r: OwLayer)
    ensures r.kind == l.kind
    ensures var k := SpliceStart(index, |l.objects|);
      if k < |l.objects| then r.objects == l.objects[..k] + l.objects[k + 1..] else r == l
  {
    OwLayer(l.kind, RemoveAt(l.objects, index))
  }

  /** `updateObject`: the object at the index recreated from its
   *  properties with the changes over them; an index the list lacks throws
   *  when its `toJSON` is read. */
  function UpdateObject(l: OwLayer, index: int, changes: map<string, int>): (r: Result<OwLayer>)
    ensures r.Ok? <==> 0 <= index < |l.objects|
    ensures r.Ok? ==> r.value.kind == l.kind && |r.value.objects| == |l.objects|
    ensures r.Ok? ==> r.value.objects[index].props == l.objects[index].props + changes
    ensures r.Ok? ==> forall k | 0 <= k < |l.objects| && k != index :: r.value.objects[k] == l.objects[k]
    ensures r.Err? ==> r.error == UndefinedObject
  {
    if 0 <= index < |l.objects| then Ok(OwLayer(l.kind, l.objects[index := l.objects[index].Update(changes)]))
    else Err(UndefinedObject)
  }

  /** An object added to a layer is the one `getObject` finds at the end,
   *  and removing it gives the layer back. */
  lemma {:induction false} AddGetRemoveObject(l: OwLayer, o: MapObject)
    ensures GetObject(AddObject(l, o), |l.objects|) == Ok(o)
    ensures RemoveObject(AddObject(l, o), |l.objects|) == l
  {
    var added := AddObject(l, o).objects;
    assert added[..|l.objects|] == l.objects;
  }

  // ---------------------------------------------------------------- JSON

  const InvalidOverworld := "Invalid overworld data"
  const InvalidMap := "Invalid overworld map data"
  const InvalidLayer := "Invalid overworld layer data"

  /** Destructuring the properties of an object that is null. */
  const NullObject := "Cannot destructure property 'type' of 'object' as it is null."

  /** `createObject` of a parsed value: null cannot be destructured; the
   *  members of an object become its properties, as the setters and the
   *  type table read them, and any other value has none. */
  function ObjectFromJson(v: Json): (r: Result<MapObject>)
    ensures r.Err? <==> v.JNull?
    ensures r.Err? ==> r.error == NullObject
    ensures r.Ok? ==> r.value.props.Keys == (if v.JObj? then v.fields.Keys else {})
    ensures r.Ok? ==> forall k | k in r.value.props :: r.value.props[k] == MemberNumber(k, v.fields[k])
    ensures r.Ok? && NumberAt(v, "type") ==> r.value.Type() == v.fields["type"].n
  {
    if v.JNull? then Err(NullObject) else Ok(MapObject(ObjectProps(v)))
  }

  /** `objectsData.map( createObject )`: the first null throws. */
  function ObjectsFromJson(items: seq<Json>): (r: Result<seq<MapObject>>)
    ensures r.Ok? <==> forall i | 0 <= i < |items| :: !items[i].JNull?
    ensures r.Ok? ==> |r.value| == |items| && forall i | 0 <= i < |items| :: Ok(r.value[i]) == ObjectFromJson(items[i])
    ensures r.Err? ==> r.error == NullObject
  {
    if items == [] then Ok([])
    else match ObjectFromJson(items[0])
      case Err(e) => Err(e)
      case Ok(first) =>
        assert forall i | 1 <= i < |items| :: items[i] == items[1..][i - 1];
        match ObjectsFromJson(items[1..])
        case Err(e) => Err(e)
        case Ok(others) => Ok([first] + others)
  }

  /** A layer of `createOverworldFromJSON`: `in` throws on a value that is
   *  not an object; otherwise an `objects` array and a string `type`, then
   *  its objects. */
  function LayerFromJson(v: Json): (r: Result<OwLayer>)
    ensures !IsObject(v) ==> r == Err(InError("objects", v))
    ensures IsObject(v) && !(ArrayAt(v, "objects") && StringAt(v, "type")) ==> r == Err(InvalidLayer)
    ensures r.Ok? <==> ArrayAt(v, "objects") && StringAt(v, "type") && ObjectsFromJson(v.fields["objects"].items).Ok?
    ensures r.Ok? ==> r.value == OwLayer(v.fields["type"].s, ObjectsFromJson(v.fields["objects"].items).value)
    ensures IsObject(v) && r.Err? && ArrayAt(v, "objects") && StringAt(v, "type") ==> r.error == NullObject
  {
    if !IsObject(v) then Err(InError("objects", v))
    else if !Has(v, "objects") || !Has(v, "type") || !ArrayAt(v, "objects") || !StringAt(v, "type") then Err(InvalidLayer)
    else match ObjectsFromJson(v.fields["objects"].items)
      case Err(e) => Err(e)
      case Ok(objects) => Ok(OwLayer(v.fields["type"].s, objects))
  }

  /** Every layer in order; the first invalid one throws. */
  function LayersFromJson(items: seq<Json>): Result<seq<OwLayer>>
  {
    if items == [] then Ok([])
    else
      match LayerFromJson(items[0])
      case Err(e) => Err(e)
      case Ok(first) =>
        match LayersFromJson(items[1..])
        case Err(e) => Err(e)
        case Ok(others) => Ok([first] + others)
  }

  /** A map of `createOverworldFromJSON`: `in` throws on a value that is not
   *  an object; otherwise number `height` and `width` and a `layers` array,
   *  then its layers. */
  function MapFromJson(v: Json): (r: Result<OwMap>)
    ensures !IsObject(v) ==> r == Err(InError("height", v))
    ensures IsObject(v) && !(ArrayAt(v, "layers") && NumberAt(v, "height") && NumberAt(v, "width")) ==> r == Err(InvalidMap)
    ensures r.Ok? <==> (ArrayAt(v, "layers") && NumberAt(v, "height") && NumberAt(v, "width") &&
      LayersFromJson(v.fields["layers"].items).Ok?)
    ensures r.Ok? ==> r.value == OwMap(v.fields["width"].n, v.fields["height"].n, LayersFromJson(v.fields["layers"].items).value)
  {
    if !IsObject(v) then Err(InError("height", v))
    else if !Has(v, "height") || !Has(v, "layers") || !Has(v, "width") || !ArrayAt(v, "layers")
      || !NumberAt(v, "height") || !NumberAt(v, "width") then Err(InvalidMap)
    else match LayersFromJson(v.fields["layers"].items)
      case Err(e) => Err(e)
      case Ok(layers) => Ok(OwMap(v.fields["width"].n, v.fields["height"].n, layers))
  }

  function MapsFromJson(items: seq<Json>): Result<seq<OwMap>>
  {
    if items == [] then Ok([])
    else
      match MapFromJson(items[0])
      case Err(e) => Err(e)
      case Ok(first) =>
        match MapsFromJson(items[1..])
        case Err(e) => Err(e)
        case Ok(others) => Ok([first] + others)
  }

  /** `createOverworldFromJSON`: `in` throws on a value that is not an
   *  object; otherwise a `maps` array, then each map in order. */
  function OverworldFromJson(data: Json): (r: Result<Overworld>)
    ensures !IsObject(data) ==> r == Err(InError("maps", data))
    ensures IsObject(data) && !ArrayAt(data, "maps") ==> r == Err(InvalidOverworld)
    ensures r.Ok? <==> ArrayAt(data, "maps") && MapsFromJson(data.fields["maps"].items).Ok?
    ensures r.Ok? ==> r.value.maps == MapsFromJson(data.fields["maps"].items).value
  {
    if !IsObject(data) then Err(InError("maps", data))
    else if !Has(data, "maps") || !ArrayAt(data, "maps") then Err(InvalidOverworld)
    else match MapsFromJson(data.fields["maps"].items)
      case Err(e) => Err(e)
      case Ok(maps) => Ok(Overworld(maps))
  }

  /** The layers are read one by one: the list is accepted exactly when every
   *  layer is, each read as `LayerFromJson` reads it alone, and otherwise
   *  fails with the first failing layer's error. */
  lemma {:induction false} LayersFromJsonEach(items: seq<Json>)
    ensures LayersFromJson(items).Ok? <==> forall i | 0 <= i < |items| :: LayerFromJson(items[i]).Ok?
    ensures LayersFromJson(items).Ok? ==> (|LayersFromJson(items).value| == |items|
      && forall i | 0 <= i < |items| :: LayersFromJson(items).value[i] == LayerFromJson(items[i]).value)
    ensures LayersFromJson(items).Err? ==> exists i | 0 <= i < |items| ::
      LayerFromJson(items[i]) == Err(LayersFromJson(items).error) &&
      forall m | 0 <= m < i :: LayerFromJson(items[m]).Ok?
  {
    LayersFromJsonAll(items);
    LayersFromJsonFirstError(items);
  }

  /** The list is accepted exactly when every layer is, each read alone. */
  lemma {:induction false} LayersFromJsonAll(items: seq<Json>)
    ensures LayersFromJson(items).Ok? <==> forall i | 0 <= i < |items| :: LayerFromJson(items[i]).Ok?
    ensures LayersFromJson(items).Ok? ==> (|LayersFromJson(items).value| == |items|
      && forall i | 0 <= i < |items| :: LayersFromJson(items).value[i] == LayerFromJson(items[i]).value)
  {
    if items != [] {
      LayersFromJsonAll(items[1..]);
      assert forall i | 1 <= i < |items| :: items[i] == items[1..][i - 1];
    }
  }

  /** A refused list fails with the error of its first refused layer. */
  lemma {:induction false} LayersFromJsonFirstError(items: seq<Json>)
    ensures LayersFromJson(items).Err? ==> exists i | 0 <= i < |items| ::
      LayerFromJson(items[i]) == Err(LayersFromJson(items).error) &&
      forall m | 0 <= m < i :: LayerFromJson(items[m]).Ok?
  {
    if items != [] {
      LayersFromJsonFirstError(items[1..]);
      if LayerFromJson(items[0]).Ok? && LayersFromJson(items[1..]).Err? {
        var i :| 0 <= i < |items[1..]| && LayerFromJson(items[1..][i]) == Err(LayersFromJson(items[1..]).error) &&
          forall m | 0 <= m < i :: LayerFromJson(items[1..][m]).Ok?;
        assert LayerFromJson(items[i + 1]) == Err(LayersFromJson(items).error);
        assert forall m | 0 <= m < i + 1 :: LayerFromJson(items[m]).Ok? by {
          assert forall m | 1 <= m < i + 1 :: items[m] == items[1..][m - 1];
        }
      }
    }
  }

  /** The maps are read one by one: the list is accepted exactly when every
   *  map is, each read as `MapFromJson` reads it alone. */
  lemma {:induction false} MapsFromJsonEach(items: seq<Json>)
    ensures MapsFromJson(items).Ok? <==> forall i | 0 <= i < |items| :: MapFromJson(items[i]).Ok?
    ensures MapsFromJson(items).Ok? ==> (|MapsFromJson(items).value| == |items|
      && forall i | 0 <= i < |items| :: MapsFromJson(items).value[i] == MapFromJson(items[i]).value)
  {
    if items != [] {
      MapsFromJsonEach(items[1..]);
      assert forall i | 1 <= i < |items| :: items[i] == items[1..][i - 1];
    }
  }

  /** An object's `toJSON`: its properties. */
  function ObjectToJson(o: MapObject): (r: Json)
    ensures r.JObj? && r.fields.Keys == o.props.Keys
    ensures forall k | k in o.props :: r.fields[k] == JNum(o.props[k])
  {
    NumbersObject(o.props)
  }

  function ObjectsToJson(objects: seq<MapObject>): (r: seq<Json>)
    ensures |r| == |objects| && forall i | 0 <= i < |objects| :: r[i] == ObjectToJson(objects[i])
  {
    if objects == [] then [] else [ObjectToJson(objects[0])] + ObjectsToJson(objects[1..])
  }

  /** A layer's `toJSON`: its objects and `OverworldLayerType[type]`, which
   *  is undefined, and so left out, for a type the enumeration lacks. */
  function LayerToJson(l: OwLayer): (r: Json)
    ensures r.JObj? && ArrayAt(r, "objects") && r.fields["objects"].items == ObjectsToJson(l.objects)
    ensures Has(r, "type") <==> NamedKind(l.kind)
    ensures NamedKind(l.kind) ==> r.fields["type"] == JStr(l.kind)
  {
    var objects := map["objects" := JArr(ObjectsToJson(l.objects))];
    if NamedKind(l.kind) then JObj(objects["type" := JStr(l.kind)]) else JObj(objects)
  }

  function LayersToJson(layers: seq<OwLayer>): (r: seq<Json>)
    ensures |r| == |layers| && forall i | 0 <= i < |layers| :: r[i] == LayerToJson(layers[i])
  {
    if layers == [] then [] else [LayerToJson(layers[0])] + LayersToJson(layers[1..])
  }

  /** A map's `toJSON`: its height, its layers and its width. */
  function MapToJson(m: OwMap): (r: Json)
    ensures r.JObj? && r.fields.Keys == {"height", "layers", "width"}
    ensures r.fields["height"] == JNum(m.height) && r.fields["width"] == JNum(m.width)
    ensures r.fields["layers"] == JArr(LayersToJson(m.layers))
  {
    JObj(map["height" := JNum(m.height), "layers" := JArr(LayersToJson(m.layers)), "width" := JNum(m.width)])
  }

  function MapsToJson(maps: seq<OwMap>): (r: seq<Json>)
    ensures |r| == |maps| && forall i | 0 <= i < |maps| :: r[i] == MapToJson(maps[i])
  {
    if maps == [] then [] else [MapToJson(maps[0])] + MapsToJson(maps[1..])
  }

  /** The overworld's `toJSON`: its maps and nothing else. */
  function OverworldToJson(ow: Overworld): (r: Json)
    ensures r.JObj? && r.fields.Keys == {"maps"} && r.fields["maps"] == JArr(MapsToJson(ow.maps))
  {
    JObj(map["maps" := JArr(MapsToJson(ow.maps))])
  }

  /** A layer type the enumeration names. */
  predicate NamedKind(kind: string)
  {
    kind == BlockLayer || kind == SpriteLayer
  }

  /** A map whose layers have the two types the enumeration names. */
  predicate NamedMap(m: OwMap)
  {
    forall k | 0 <= k < |m.layers| :: NamedKind(m.layers[k].kind)
  }

  predicate NamedMaps(maps: seq<OwMap>)
  {
    forall i | 0 <= i < |maps| :: NamedMap(maps[i])
  }

  /** Objects come back from their JSON with the same properties. */
  lemma {:induction false} ObjectsJsonRoundTrip(objects: seq<MapObject>)
    ensures ObjectsFromJson(ObjectsToJson(objects)) == Ok(objects)
  {
    var items := ObjectsToJson(objects);
    forall i | 0 <= i < |objects|
      ensures ObjectFromJson(items[i]) == Ok(objects[i])
    {
      NumbersRoundTrip(objects[i].props);
    }
    var r := ObjectsFromJson(items);
    assert r.Ok? && |r.value| == |objects|;
    assert forall i | 0 <= i < |objects| :: r.value[i] == objects[i];
    assert r.value == objects;
  }

  /** A layer reads back as itself exactly when its type is named, and
   *  otherwise fails with the layer message. */
  lemma {:induction false} LayerJson(l: OwLayer)
    ensures NamedKind(l.kind) ==> LayerFromJson(LayerToJson(l)) == Ok(l)
    ensures !NamedKind(l.kind) ==> LayerFromJson(LayerToJson(l)) == Err(InvalidLayer)
  {
    ObjectsJsonRoundTrip(l.objects);
  }

  /** Layers of named types read back as themselves; the first of another
   *  type makes the list fail with the layer message. */
  lemma {:induction false} LayersJsonRoundTrip(layers: seq<OwLayer>)
    ensures (forall k | 0 <= k < |layers| :: NamedKind(layers[k].kind)) ==>
      LayersFromJson(LayersToJson(layers)) == Ok(layers)
    ensures !(forall k | 0 <= k < |layers| :: NamedKind(layers[k].kind)) ==>
      LayersFromJson(LayersToJson(layers)) == Err(InvalidLayer)
  {
    if layers != [] {
      LayersJsonCons(layers);
      LayerJson(layers[0]);
      LayersJsonRoundTrip(layers[1..]);
      NamedLayersCons(layers);
      ConsParts(layers);
    }
  }

  /** The JSON of a non-empty list of layers is read layer by layer. */
  lemma {:induction false} LayersJsonCons(layers: seq<OwLayer>)
    requires layers != []
    ensures LayersFromJson(LayersToJson(layers)) ==
      match LayerFromJson(LayerToJson(layers[0]))
      case Err(e) => Err(e)
      case Ok(first) =>
        match LayersFromJson(LayersToJson(layers[1..]))
        case Err(e) => Err(e)
        case Ok(others) => Ok([first] + others)
  {
    var items := LayersToJson(layers);
    assert items[0] == LayerToJson(layers[0]);
    assert items[1..] == LayersToJson(layers[1..]);
  }

  lemma {:induction false} NamedLayersCons(layers: seq<OwLayer>)
    requires layers != []
    ensures (forall k | 0 <= k < |layers| :: NamedKind(layers[k].kind)) <==>
      NamedKind(layers[0].kind) && forall k | 0 <= k < |layers[1..]| :: NamedKind(layers[1..][k].kind)
  {
    assert forall k | 1 <= k < |layers| :: layers[k] == layers[1..][k - 1];
  }

  /** A map reads back as itself exactly when its layers have the named
   *  types, and otherwise fails with the layer message. */
  lemma {:induction false} MapJson(m: OwMap)
    ensures NamedMap(m) ==> MapFromJson(MapToJson(m)) == Ok(m)
    ensures !NamedMap(m) ==> MapFromJson(MapToJson(m)) == Err(InvalidLayer)
  {
    LayersJsonRoundTrip(m.layers);
    var v := MapToJson(m);
    assert v.fields["layers"].items == LayersToJson(m.layers);
  }

  /** The maps read back as themselves exactly when all their layers have
   *  named types, and otherwise fail with the layer message. */
  lemma {:induction false} MapsJsonRoundTrip(maps: seq<OwMap>)
    ensures NamedMaps(maps) ==> MapsFromJson(MapsToJson(maps)) == Ok(maps)
    ensures !NamedMaps(maps) ==> MapsFromJson(MapsToJson(maps)) == Err(InvalidLayer)
  {
    if maps != [] {
      MapsJsonCons(maps);
      MapJson(maps[0]);
      MapsJsonRoundTrip(maps[1..]);
      NamedMapsCons(maps);
      ConsParts(maps);
    }
  }

  /** The JSON of a non-empty list of maps is read map by map. */
  lemma {:induction false} MapsJsonCons(maps: seq<OwMap>)
    requires maps != []
    ensures MapsFromJson(MapsToJson(maps)) ==
      match MapFromJson(MapToJson(maps[0]))
      case Err(e) => Err(e)
      case Ok(first) =>
        match MapsFromJson(MapsToJson(maps[1..]))
        case Err(e) => Err(e)
        case Ok(others) => Ok([first] + others)
  {
    var items := MapsToJson(maps);
    assert items[0] == MapToJson(maps[0]);
    assert items[1..] == MapsToJson(maps[1..]);
  }

  lemma {:induction false} NamedMapsCons(maps: seq<OwMap>)
    requires maps != []
    ensures NamedMaps(maps) <==> NamedMap(maps[0]) && NamedMaps(maps[1..])
  {
    assert forall i | 1 <= i < |maps| :: maps[i] == maps[1..][i - 1];
  }

  lemma {:induction false} ConsParts<T>(s: seq<T>)
    requires s != []
    ensures s == [s[0]] + s[1..]
  {
  }

  /** `createOverworldFromJSON( overworld.toJSON() )` is the overworld
   *  again, when its layers have the named types; a layer of any other type
   *  loses its `type` and is refused with the layer message. */
  lemma {:induction false} JsonRoundTrip(ow: Overworld)
    ensures NamedMaps(ow.maps) ==> OverworldFromJson(OverworldToJson(ow)) == Ok(ow)
    ensures !NamedMaps(ow.maps) ==> OverworldFromJson(OverworldToJson(ow)) == Err(InvalidLayer)
  {
    MapsJsonRoundTrip(ow.maps);
  }
}
