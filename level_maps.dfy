/** Editable level maps (src/common/levels.ts `createLayer`, `createMap`,
 *  `transformMapDataToObject`, `generateDataBytes`). A map is immutable
 *  except for each layer's objects array, which the copies a map makes of
 *  itself share: that array is an `ObjectList` object here, so a change
 *  made through one map is seen through every map holding the same list. */
module LevelMaps {
  import opened Wrappers
  import opened Bytes
  import opened Objects
  import opened Levels

  /** A layer's objects array. */
  class ObjectList {
    var items: seq<MapObject>

    constructor (items: seq<MapObject>)
      ensures this.items == items
    {
      this.items := items;
    }
  }

  /** A layer: its type, its objects array and its scroll factor's 32-bit
   *  pattern. */
  datatype Layer = Layer(kind: string, objects: ObjectList, scrollX: int)

  /** What `createMap` closes over. */
  datatype LvMap = LvMap(width: int, height: int, layers: seq<Layer>, palette: int)

  /** The objects arrays of some layers. */
  function Lists(layers: seq<Layer>): set<ObjectList>
  {
    set l | l in layers :: l.objects
  }

  /** The layers as values, each array read in the current state. */
  function LayerValues(layers: seq<Layer>): (r: seq<LayerValue>)
    reads Lists(layers)
    ensures |r| == |layers|
    ensures forall k | 0 <= k < |layers| :: r[k] == LayerValue(layers[k].kind, layers[k].objects.items, layers[k].scrollX)
  {
    if layers == [] then []
    else
      assert Lists(layers[1..]) <= Lists(layers);
      [LayerValue(layers[0].kind, layers[0].objects.items, layers[0].scrollX)] + LayerValues(layers[1..])
  }

  /** The map as a value (what `getProps` and `toJSON` show). */
  function ValueOf(m: LvMap): (v: MapValue)
    reads Lists(m.layers)
    ensures v.width == m.width && v.height == m.height && v.palette == m.palette
    ensures |v.layers| == |m.layers|
    ensures forall k | 0 <= k < |m.layers| ::
      v.layers[k] == LayerValue(m.layers[k].kind, m.layers[k].objects.items, m.layers[k].scrollX)
  {
    MapValue(m.width, m.height, LayerValues(m.layers), m.palette)
  }

  /** No two layers of the map share an objects array. */
  predicate Separate(layers: seq<Layer>)
  {
    forall j, k | 0 <= j < k < |layers| :: layers[j].objects != layers[k].objects
  }

  // ---------------------------------------------------------------- createLayer, createMap

  /** `createLayer(type)`: no objects, in a new array, and a scroll factor
   *  of 1.0. */
  method CreateLayer(kind: string) returns (l: Layer)
    ensures fresh(l.objects)
    ensures l.kind == kind && l.objects.items == [] && l.scrollX == DefaultScrollX
  {
    var list := new ObjectList([]);
    l := Layer(kind, list, DefaultScrollX);
  }

  /** `createMap()`'s defaults: 20 by 20 blocks, no layers, palette 0. */
  function DefaultMap(): (m: LvMap)
    ensures m.width == 20 && m.height == 20 && m.layers == [] && m.palette == 0
  {
    LvMap(20, 20, [], 0)
  }

  /** `addLayer(type)`: the layers with a new empty layer after them. */
  method AddLayer(m: LvMap, kind: string) returns (r: LvMap)
    ensures r.width == m.width && r.height == m.height && r.palette == m.palette
    ensures |r.layers| == |m.layers| + 1 && r.layers[..|m.layers|] == m.layers
    ensures fresh(r.layers[|m.layers|].objects)
    ensures ValueOf(r) == ValueOf(m).(layers := ValueOf(m).layers + [LayerValue(kind, [], DefaultScrollX)])
  {
    var l := CreateLayer(kind);
    r := m.(layers := m.layers + [l]);
    assert r.layers[..|m.layers|] == m.layers;
  }

  /** `removeLayer(index)`: the layer at the splice start goes, the others
   *  keep their order. */
  function RemoveLayer(m: LvMap, index: int): (r: LvMap)
    ensures r.width == m.width && r.height == m.height && r.palette == m.palette
    ensures var k := SpliceStart(index, |m.layers|);
      if k < |m.layers| then |r.layers| == |m.layers| - 1 && r.layers[..k] == m.layers[..k] && r.layers[k..] == m.layers[k + 1..]
      else r.layers == m.layers
  {
    m.(layers := RemoveAt(m.layers, index))
  }

  /** The value of the map after `removeLayer` is the value before with
   *  that layer removed. */
  lemma {:induction false} RemoveLayerValue(m: LvMap, index: int)
    ensures ValueOf(RemoveLayer(m, index)) == ValueOf(m).(layers := RemoveAt(ValueOf(m).layers, index))
  {
    RemovedValues(m.layers, index);
  }

  lemma {:induction false} RemovedValues(layers: seq<Layer>, index: int)
    ensures LayerValues(RemoveAt(layers, index)) == RemoveAt(LayerValues(layers), index)
  {
    var k := SpliceStart(index, |layers|);
    var r := RemoveAt(layers, index);
    var vs := LayerValues(layers);
    var want := RemoveAt(vs, index);
    if k < |layers| {
      assert forall j | 0 <= j < |r| :: r[j] == layers[if j < k then j else j + 1];
      assert forall j | 0 <= j < |want| :: want[j] == vs[if j < k then j else j + 1];
    }
  }

  /** `switchLayers(a, b)` for two layers the map has. */
  function SwitchLayers(m: LvMap, a: nat, b: nat): (r: LvMap)
    requires a < |m.layers| && b < |m.layers|
    ensures r.width == m.width && r.height == m.height && r.palette == m.palette
    ensures |r.layers| == |m.layers| && r.layers[a] == m.layers[b] && r.layers[b] == m.layers[a]
    ensures forall k | 0 <= k < |m.layers| && k != a && k != b :: r.layers[k] == m.layers[k]
  {
    m.(layers := m.layers[a := m.layers[b]][b := m.layers[a]])
  }

  /** Switching keeps the layers, and switching the same two layers again
   *  restores the map. */
  lemma {:induction false} SwitchTwice(m: LvMap, a: nat, b: nat)
    requires a < |m.layers| && b < |m.layers|
    ensures multiset(SwitchLayers(m, a, b).layers) == multiset(m.layers)
    ensures SwitchLayers(SwitchLayers(m, a, b), a, b) == m
  {
    SwapKeeps(m.layers, a, b);
    var t := SwitchLayers(SwitchLayers(m, a, b), a, b).layers;
    assert forall k | 0 <= k < |t| :: t[k] == m.layers[k];
  }

  lemma {:induction false} SwapKeeps<T>(s: seq<T>, a: nat, b: nat)
    requires a < |s| && b < |s|
    ensures multiset(s[a := s[b]][b := s[a]]) == multiset(s)
  {
    var t := s[a := s[b]];
    assert multiset(t) == multiset(s) - multiset{s[a]} + multiset{s[b]};
    assert multiset(t[b := s[a]]) == multiset(t) - multiset{t[b]} + multiset{s[a]};
  }

  /** `updateWidth`, `updateHeight` and `updatePalette`: one part replaced. */
  function UpdateWidth(m: LvMap, width: int): (r: LvMap)
    ensures r.width == width && r.height == m.height && r.layers == m.layers && r.palette == m.palette
  {
    m.(width := width)
  }

  function UpdateHeight(m: LvMap, height: int): (r: LvMap)
    ensures r.height == height && r.width == m.width && r.layers == m.layers && r.palette == m.palette
  {
    m.(height := height)
  }

  function UpdatePalette(m: LvMap, palette: int): (r: LvMap)
    ensures r.palette == palette && r.width == m.width && r.height == m.height && r.layers == m.layers
  {
    m.(palette := palette)
  }

  /** `updateLayer(index).updateOption("scrollX", value)`: a new layer
   *  record, which keeps the old layer's objects array. */
  function UpdateScrollX(m: LvMap, index: nat, scrollX: int): (r: LvMap)
    requires index < |m.layers|
    ensures r.width == m.width && r.height == m.height && r.palette == m.palette && |r.layers| == |m.layers|
    ensures r.layers[index].scrollX == scrollX && r.layers[index].kind == m.layers[index].kind
    ensures r.layers[index].objects == m.layers[index].objects
    ensures forall k | 0 <= k < |m.layers| && k != index :: r.layers[k] == m.layers[k]
  {
    m.(layers := m.layers[index := m.layers[index].(scrollX := scrollX)])
  }

  /** The scroll update shares the objects array, so an object added through
   *  the new map shows in the old one as well. */
  lemma {:induction false} ScrollUpdateShares(m: LvMap, index: nat, scrollX: int)
    requires index < |m.layers|
    ensures Lists(UpdateScrollX(m, index, scrollX).layers) == Lists(m.layers)
  {
    var r := UpdateScrollX(m, index, scrollX);
    forall x | x in Lists(m.layers) ensures x in Lists(r.layers) {
      var k :| 0 <= k < |m.layers| && m.layers[k].objects == x;
      assert r.layers[k].objects == x;
    }
    forall x | x in Lists(r.layers) ensures x in Lists(m.layers) {
      var k :| 0 <= k < |r.layers| && r.layers[k].objects == x;
      assert m.layers[k].objects == x;
    }
  }

  // ---------------------------------------------------------------- updateLayer(index)

  /** `newLayers[index].objects` on an index the map lacks. */
  const ObjectsMissing := "Cannot read properties of undefined (reading 'objects')"

  /** `objects[objectIndex].update` on an index the array lacks. */
  const UpdateMissing := "Cannot read properties of undefined (reading 'update')"

  /** `updateLayer(index).addObject(object)`: the object is pushed onto the
   *  layer's array, which the old map shares, so the map returned is the
   *  old map, seeing the new object. */
  method AddObject(m: LvMap, index: int, o: MapObject) returns (r: Result<LvMap>)
    modifies Lists(m.layers)
    ensures !(0 <= index < |m.layers|) ==> r == Err(ObjectsMissing) && unchanged(Lists(m.layers))
    ensures 0 <= index < |m.layers| ==> r == Ok(m)
    ensures 0 <= index < |m.layers| ==>
      forall l | l in m.layers :: l.objects.items ==
        if l.objects == m.layers[index].objects then old(l.objects.items) + [o] else old(l.objects.items)
    ensures 0 <= index < |m.layers| && Separate(m.layers) ==>
      ValueOf(m).layers == old(ValueOf(m).layers)[index := old(ValueOf(m).layers[index]).(objects := old(m.layers[index].objects.items) + [o])]
  {
    if !(0 <= index < |m.layers|) {
      return Err(ObjectsMissing);
    }
    var list := m.layers[index].objects;
    list.items := list.items + [o];
    r := Ok(m);
  }

  /** `updateLayer(index).removeObject(objectIndex)`: the object at the
   *  splice start leaves the shared array. */
  method RemoveObject(m: LvMap, index: int, objectIndex: int) returns (r: Result<LvMap>)
    modifies Lists(m.layers)
    ensures !(0 <= index < |m.layers|) ==> r == Err(ObjectsMissing) && unchanged(Lists(m.layers))
    ensures 0 <= index < |m.layers| ==> r == Ok(m)
    ensures 0 <= index < |m.layers| ==>
      forall l | l in m.layers :: l.objects.items ==
        if l.objects == m.layers[index].objects then RemoveAt(old(l.objects.items), objectIndex) else old(l.objects.items)
  {
    if !(0 <= index < |m.layers|) {
      return Err(ObjectsMissing);
    }
    var list := m.layers[index].objects;
    list.items := RemoveAt(list.items, objectIndex);
    r := Ok(m);
  }

  /** `updateLayer(index).updateObject(objectIndex, changes)`: the object is
   *  replaced in the shared array by its update. */
  method UpdateObject(m: LvMap, index: int, objectIndex: int, changes: map<string, int>) returns (r: Result<LvMap>)
    modifies Lists(m.layers)
    ensures !(0 <= index < |m.layers|) ==> r == Err(ObjectsMissing) && unchanged(Lists(m.layers))
    ensures 0 <= index < |m.layers| && !(0 <= objectIndex < old(|m.layers[index].objects.items|)) ==>
      r == Err(UpdateMissing) && unchanged(Lists(m.layers))
    ensures 0 <= index < |m.layers| && 0 <= objectIndex < old(|m.layers[index].objects.items|) ==> r == Ok(m)
    ensures 0 <= index < |m.layers| && 0 <= objectIndex < old(|m.layers[index].objects.items|) ==>
      forall l | l in m.layers :: l.objects.items ==
        if l.objects == m.layers[index].objects
        then old(l.objects.items)[objectIndex := old(l.objects.items[objectIndex]).Update(changes)]
        else old(l.objects.items)
  {
    if !(0 <= index < |m.layers|) {
      return Err(ObjectsMissing);
    }
    var list := m.layers[index].objects;
    if !(0 <= objectIndex < |list.items|) {
      return Err(UpdateMissing);
    }
    list.items := list.items[objectIndex := list.items[objectIndex].Update(changes)];
    r := Ok(m);
  }

  // ---------------------------------------------------------------- transformMapDataToObject

  /** The states of the reader. */
  datatype ParseState = ReadingLayerOptions | ReadingType | ReadingObjectData

  /** A finished layer's objects, then the layers after it. */
  function Finish(layers: seq<LayerValue>, left: nat, layerType: int, scrollX: int,
                  r: Result<(seq<MapObject>, seq<byte>)>): Result<(seq<LayerValue>, seq<byte>)>
    requires left > 0
  {
    match r
    case Err(e) => Err(e)
    case Ok((objects, rest)) => ReadLayers(layers + [LayerValue(LayerKind(layerType), objects, scrollX)], rest, left - 1)
  }

  /** The layers the reader ends with from a state: the layers read so far,
   *  `left` layers still to finish, the current layer's type byte, scroll
   *  factor and objects, the object type just read and the bytes at the
   *  cursor. */
  function Resume(state: ParseState, layers: seq<LayerValue>, left: nat, layerType: int, scrollX: int,
                  objects: seq<MapObject>, objectType: int, d: seq<byte>): Result<(seq<LayerValue>, seq<byte>)>
    requires state != ReadingLayerOptions ==> left > 0
  {
    match state
    case ReadingLayerOptions => ReadLayers(layers, d, left)
    case ReadingType => Finish(layers, left, layerType, scrollX, ReadObjects(layerType, objects, d))
    case ReadingObjectData => Finish(layers, left, layerType, scrollX, ReadObjectThen(layerType, objectType, objects, d))
  }

  /** Reading the layer options: a type byte and the scroll factor, or the
   *  DataView's error when five bytes are not there. */
  lemma {:induction false} OptionsStep(layers: seq<LayerValue>, left: nat, d: seq<byte>)
    requires left > 0
    ensures |d| < 5 ==> Resume(ReadingLayerOptions, layers, left, 0, 0, [], 0, d) == Err(OutOfBounds)
    ensures |d| >= 5 ==>
      Resume(ReadingLayerOptions, layers, left, 0, 0, [], 0, d) ==
      Resume(ReadingType, layers, left, d[0], FromBigEndian(d[1..5]), [], 0, d[5..])
  {
  }

  /** Reading a type: the terminator finishes the layer, any other type
   *  starts an object. */
  lemma {:induction false} TypeStep(layers: seq<LayerValue>, left: nat, layerType: int, scrollX: int, objects: seq<MapObject>, d: seq<byte>)
    requires left > 0
    ensures ReadUint(d, 2).Err? ==>
      Resume(ReadingType, layers, left, layerType, scrollX, objects, 0, d) == Err(ReadUint(d, 2).error)
    ensures ReadUint(d, 2).Ok? && ReadUint(d, 2).value.0 == Terminator ==>
      Resume(ReadingType, layers, left, layerType, scrollX, objects, 0, d) ==
      Resume(ReadingLayerOptions, layers + [LayerValue(LayerKind(layerType), objects, scrollX)], left - 1, 0, 0, [], 0, d[2..])
    ensures ReadUint(d, 2).Ok? && ReadUint(d, 2).value.0 != Terminator ==>
      Resume(ReadingType, layers, left, layerType, scrollX, objects, 0, d) ==
      Resume(ReadingObjectData, layers, left, layerType, scrollX, objects, ReadUint(d, 2).value.0, d[2..])
  {
  }

  /** Reading an object's data moves it to the current layer's objects. */
  lemma {:induction false} DataStep(layers: seq<LayerValue>, left: nat, layerType: int, scrollX: int, objects: seq<MapObject>,
                 objectType: int, d: seq<byte>)
    requires left > 0
    ensures ReadObject(layerType, objectType, d).Err? ==>
      Resume(ReadingObjectData, layers, left, layerType, scrollX, objects, objectType, d) ==
      Err(ReadObject(layerType, objectType, d).error)
    ensures ReadObject(layerType, objectType, d).Ok? ==>
      Resume(ReadingObjectData, layers, left, layerType, scrollX, objects, objectType, d) ==
      Resume(ReadingType, layers, left, layerType, scrollX, objects + [ReadObject(layerType, objectType, d).value.0], 0,
             ReadObject(layerType, objectType, d).value.1)
  {
  }

  /** The field loop of `readingObjectData`: each exported field read by
   *  its DataView getter at the cursor, which moves past it. */
  method ReadObjectData(fields: seq<ExportField>, props: map<string, int>, data: seq<byte>, start: nat)
    returns (r: Result<(map<string, int>, nat)>)
    requires start <= |data|
    ensures r.Ok? <==> ReadFields(fields, props, data[start..]).Ok?
    ensures r.Err? ==> r.error == ReadFields(fields, props, data[start..]).error
    ensures r.Ok? ==> r.value.1 <= |data| && (r.value.0, data[r.value.1..]) == ReadFields(fields, props, data[start..]).value
  {
    var current := props;
    var i: nat := start;
    for k := 0 to |fields|
      invariant i <= |data|
      invariant ReadFields(fields[k..], current, data[i..]) == ReadFields(fields, props, data[start..])
    {
      FieldStep(fields, k, current, data[i..]);
      var f := ReadField(fields[k].kind, data[i..]);
      if f.Err? {
        return Err(f.error);
      }
      current := current[fields[k].key := f.value.0];
      assert data[i..][Size(fields[k].kind)..] == data[i + Size(fields[k].kind)..];
      i := i + Size(fields[k].kind);
    }
    return Ok((current, i));
  }

  lemma {:induction false} FieldStep(fields: seq<ExportField>, k: nat, props: map<string, int>, d: seq<byte>)
    requires k < |fields|
    ensures ReadFields(fields[k..], props, d) ==
      match ReadField(fields[k].kind, d)
      case Err(e) => Err(e)
      case Ok((v, rest)) => ReadFields(fields[k + 1..], props[fields[k].key := v], rest)
  {
    assert fields[k..][0] == fields[k] && fields[k..][1..] == fields[k + 1..];
  }

  /** `readingObjectData` on the bytes at the cursor: the layer byte's type
   *  table, the type's defaults and the fields read over them. */
  method ReadObjectAt(layerType: int, objectType: int, data: seq<byte>, i: nat) returns (r: Result<(MapObject, nat)>)
    requires i <= |data|
    ensures r.Ok? <==> ReadObject(layerType, objectType, data[i..]).Ok?
    ensures r.Err? ==> r.error == ReadObject(layerType, objectType, data[i..]).error
    ensures r.Ok? ==> i <= r.value.1 <= |data|
    ensures r.Ok? ==> (r.value.0, data[r.value.1..]) == ReadObject(layerType, objectType, data[i..]).value
  {
    var kind := ConvertByteToLayerType(layerType);
    if kind.Err? {
      return Err(kind.error);
    }
    var types := GetTypeFactory(kind.value);
    if !(0 <= objectType < |types|) {
      return Err(CreateMissing);
    }
    var read := ReadObjectData(types[objectType].exportData, types[objectType].Create(0, 0), data, i);
    if read.Err? {
      return Err(read.error);
    }
    var end := read.value.1;
    assert |data[end..]| <= |data[i..]|;
    r := Ok((MapObject(read.value.0["type" := objectType]), end));
  }

  /** The `readingLayerOptions` state: the layer's type byte and scroll
   *  factor at the cursor. */
  method ReadLayerOptions(ghost values: seq<LayerValue>, ghost left: nat, data: seq<byte>, i: nat)
    returns (r: Result<(int, int)>)
    requires left > 0 && i <= |data|
    ensures r.Ok? <==> i + 5 <= |data|
    ensures r.Err? ==> Resume(ReadingLayerOptions, values, left, 0, 0, [], 0, data[i..]) == Err(r.error)
    ensures r.Ok? ==>
      Resume(ReadingLayerOptions, values, left, 0, 0, [], 0, data[i..]) ==
      Resume(ReadingType, values, left, r.value.0, r.value.1, [], 0, data[i + 5..])
  {
    OptionsStep(values, left, data[i..]);
    if |data| - i < 5 {
      return Err(OutOfBounds);
    }
    assert data[i..][1..5] == data[i + 1..i + 5] && data[i..][5..] == data[i + 5..];
    r := Ok((data[i] as int, FromBigEndian(data[i + 1..i + 5])));
  }

  /** The `readingType` state: the object type at the cursor. */
  method ReadType(ghost values: seq<LayerValue>, ghost left: nat, layerType: int, scrollX: int, objects: seq<MapObject>,
                  data: seq<byte>, i: nat) returns (r: Result<int>)
    requires left > 0 && i <= |data|
    ensures r.Ok? <==> i + 2 <= |data|
    ensures r.Err? ==> Resume(ReadingType, values, left, layerType, scrollX, objects, 0, data[i..]) == Err(r.error)
    ensures r.Ok? && r.value == Terminator ==>
      Resume(ReadingType, values, left, layerType, scrollX, objects, 0, data[i..]) ==
      Resume(ReadingLayerOptions, values + [LayerValue(LayerKind(layerType), objects, scrollX)], left - 1, 0, 0, [], 0, data[i + 2..])
    ensures r.Ok? && r.value != Terminator ==>
      Resume(ReadingType, values, left, layerType, scrollX, objects, 0, data[i..]) ==
      Resume(ReadingObjectData, values, left, layerType, scrollX, objects, r.value, data[i + 2..])
  {
    TypeStep(values, left, layerType, scrollX, objects, data[i..]);
    var t := ReadUint(data[i..], 2);
    if t.Err? {
      return Err(t.error);
    }
    assert data[i..][2..] == data[i + 2..];
    r := Ok(t.value.0);
  }

  /** The `readingObjectData` state: the object at the cursor joins the
   *  current layer's objects. */
  method ReadObjectState(ghost values: seq<LayerValue>, ghost left: nat, layerType: int, scrollX: int, objects: seq<MapObject>,
                         objectType: int, data: seq<byte>, i: nat) returns (r: Result<(MapObject, nat)>)
    requires left > 0 && i <= |data|
    ensures r.Ok? ==> i <= r.value.1 <= |data|
    ensures r.Err? ==> Resume(ReadingObjectData, values, left, layerType, scrollX, objects, objectType, data[i..]) == Err(r.error)
    ensures r.Ok? ==>
      Resume(ReadingObjectData, values, left, layerType, scrollX, objects, objectType, data[i..]) ==
      Resume(ReadingType, values, left, layerType, scrollX, objects + [r.value.0], 0, data[r.value.1..])
  {
    DataStep(values, left, layerType, scrollX, objects, objectType, data[i..]);
    r := ReadObjectAt(layerType, objectType, data, i);
  }

  /** A layer whose objects array no earlier layer holds keeps the layers
   *  separate. */
  lemma {:induction false} SeparateAppend(layers: seq<Layer>, l: Layer)
    requires Separate(layers) && forall k | 0 <= k < |layers| :: layers[k].objects != l.objects
    ensures Separate(layers + [l])
  {
  }

  /** `transformMapDataToObject`: the header, then the layers read by the
   *  three-state loop, each finished layer given a new objects array. */
  method TransformMapDataToObject(data: seq<byte>) returns (r: Result<LvMap>)
    ensures r.Ok? <==> ParsedMap(data).Ok?
    ensures r.Err? ==> r.error == ParsedMap(data).error
    ensures r.Ok? ==> ValueOf(r.value) == ParsedMap(data).value
    ensures r.Ok? ==> Separate(r.value.layers) && forall l | l in r.value.layers :: fresh(l.objects)
  {
    var header := ReadHeader(data);
    if header.Err? {
      return Err(header.error);
    }
    var h := header.value;
    ghost var want := ReadLayers([], data[6..], h.layerCount);
    var layers: seq<Layer> := [];
    ghost var values: seq<LayerValue> := [];
    var current: nat := 0;
    ghost var left: nat := h.layerCount;
    var state := ReadingLayerOptions;
    var objectType := 0;
    var i: nat := 6;
    var scrollX := 0;
    var layerType := 0;
    var objects: seq<MapObject> := [];
    while current < h.layerCount
      invariant i <= |data| && current <= h.layerCount
      invariant state != ReadingLayerOptions ==> current < h.layerCount
      invariant state != ReadingObjectData ==> objectType == 0
      invariant state == ReadingLayerOptions ==> layerType == 0 && scrollX == 0 && objects == []
      invariant |layers| == |values| == current && left == h.layerCount - current
      invariant forall k | 0 <= k < |layers| ::
        values[k] == LayerValue(layers[k].kind, layers[k].objects.items, layers[k].scrollX)
      invariant Separate(layers) && forall l | l in layers :: fresh(l.objects)
      invariant Resume(state, values, left, layerType, scrollX, objects, objectType, data[i..]) == want
      decreases |data| - i, if state == ReadingObjectData then 1 else 0
    {
      if state == ReadingLayerOptions {
        var options := ReadLayerOptions(values, left, data, i);
        if options.Err? {
          return Err(options.error);
        }
        layerType, scrollX := options.value.0, options.value.1;
        i := i + 5;
        state := ReadingType;
        assert Resume(state, values, left, layerType, scrollX, objects, objectType, data[i..]) == want;
      } else if state == ReadingType {
        var t := ReadType(values, left, layerType, scrollX, objects, data, i);
        if t.Err? {
          return Err(t.error);
        }
        if t.value == Terminator {
          var list := new ObjectList(objects);
          SeparateAppend(layers, Layer(LayerKind(layerType), list, scrollX));
          layers := layers + [Layer(LayerKind(layerType), list, scrollX)];
          values := values + [LayerValue(LayerKind(layerType), objects, scrollX)];
          objects := [];
          layerType := 0;
          scrollX := 0;
          current := current + 1;
          left := left - 1;
          i := i + 2;
          state := ReadingLayerOptions;
          assert Resume(state, values, left, layerType, scrollX, objects, objectType, data[i..]) == want;
        } else {
          objectType := t.value;
          i := i + 2;
          state := ReadingObjectData;
          assert Resume(state, values, left, layerType, scrollX, objects, objectType, data[i..]) == want;
        }
      } else {
        var read := ReadObjectState(values, left, layerType, scrollX, objects, objectType, data, i);
        if read.Err? {
          return Err(read.error);
        }
        objects := objects + [read.value.0];
        i := read.value.1;
        objectType := 0;
        state := ReadingType;
        assert Resume(state, values, left, layerType, scrollX, objects, objectType, data[i..]) == want;
      }
    }
    r := Ok(LvMap(h.width, h.height, layers, h.palette));
  }

  // ---------------------------------------------------------------- generateDataBytes

  /** The blocks of the objects from the `k`th on: the `k`th object's, then
   *  the rest's. */
  lemma {:induction false} ObjectsFrom(types: seq<ObjectType>, objects: seq<MapObject>, k: nat)
    requires k < |objects|
    ensures ObjectsBlocks(types, objects[k..]) ==
      match ObjectBlocks(types, objects[k])
      case Err(e) => Err(e)
      case Ok(first) => Then(first, ObjectsBlocks(types, objects[k + 1..]))
  {
    assert objects[k..][0] == objects[k] && objects[k..][1..] == objects[k + 1..];
  }

  lemma {:induction false} LayersFrom(layers: seq<LayerValue>, k: nat)
    requires k < |layers|
    ensures LayersBlocks(layers[k..]) ==
      match LayerBlocks(layers[k])
      case Err(e) => Err(e)
      case Ok(first) => Then(first, LayersBlocks(layers[k + 1..]))
  {
    assert layers[k..][0] == layers[k] && layers[k..][1..] == layers[k + 1..];
  }

  /** `layer.objects.forEach`: each object's type and exported fields
   *  pushed in turn; a type the table lacks or a missing field throws. */
  method PushObjects(types: seq<ObjectType>, objects: seq<MapObject>) returns (r: Result<seq<ByteBlock>>)
    ensures r == ObjectsBlocks(types, objects)
  {
    var list: seq<ByteBlock> := [];
    assert objects[0..] == objects;
    ThenNil(ObjectsBlocks(types, objects));
    for k := 0 to |objects|
      invariant Then(list, ObjectsBlocks(types, objects[k..])) == ObjectsBlocks(types, objects)
    {
      ObjectsFrom(types, objects, k);
      var o := objects[k];
      if !(0 <= o.Type() < |types|) {
        return Err(ExportDataMissing);
      }
      var fields := FieldBlocks(types[o.Type()].exportData, o);
      if fields.Err? {
        return Err(fields.error);
      }
      ThenThen(list, [ByteBlock(Uint16, o.Type())] + fields.value, ObjectsBlocks(types, objects[k + 1..]));
      list := list + ([ByteBlock(Uint16, o.Type())] + fields.value);
    }
    assert objects[|objects|..] == [] && list + [] == list;
    r := Ok(list);
  }

  /** One layer's pass of `generateDataBytes`: its type byte (an unknown
   *  type throws), its scroll factor, its objects and the terminator. */
  method PushLayer(kind: string, objects: seq<MapObject>, scrollX: int) returns (r: Result<seq<ByteBlock>>)
    ensures r == LayerBlocks(LayerValue(kind, objects, scrollX))
  {
    var types := GetTypeFactory(kind);
    var b := ConvertLayerTypeToByte(kind);
    if b.Err? {
      return Err(b.error);
    }
    var blocks := PushObjects(types, objects);
    if blocks.Err? {
      return Err(blocks.error);
    }
    r := Ok([ByteBlock(Uint8, b.value), ByteBlock(Float32, scrollX)] + blocks.value + [ByteBlock(Uint16, Terminator)]);
  }

  /** The accumulator of `generateDataBytes` after the `k`th layer: an
   *  error ends the map with that error, otherwise the layer's blocks join
   *  the list. */
  lemma {:induction false} LayerPushed(v: MapValue, dataList: seq<ByteBlock>, k: nat, r: Result<seq<ByteBlock>>)
    requires k < |v.layers| && r == LayerBlocks(v.layers[k])
    requires Then(dataList, LayersBlocks(v.layers[k..])) == MapBlocks(v)
    ensures r.Err? ==> GeneratedBytes(v) == Err(r.error)
    ensures r.Ok? ==> Then(dataList + r.value, LayersBlocks(v.layers[k + 1..])) == MapBlocks(v)
  {
    LayersFrom(v.layers, k);
    if r.Ok? {
      ThenThen(dataList, r.value, LayersBlocks(v.layers[k + 1..]));
    }
  }

  /** Once every layer is pushed, the list is the map's blocks. */
  lemma {:induction false} LayersPushed(v: MapValue, dataList: seq<ByteBlock>)
    requires Then(dataList, LayersBlocks(v.layers[|v.layers|..])) == MapBlocks(v)
    ensures GeneratedBytes(v) == Ok(SerializeAll(dataList))
  {
    assert v.layers[|v.layers|..] == [] && dataList + [] == dataList;
  }

  /** `generateDataBytes`: the header's blocks, each layer's options,
   *  objects and terminator pushed in turn, then all of them written into
   *  a buffer of their total size. */
  method GenerateDataBytes(m: LvMap) returns (r: Result<seq<byte>>)
    ensures r == GeneratedBytes(ValueOf(m))
  {
    var v := ValueOf(m);
    r := GenerateValueBytes(v);
    assert unchanged(Lists(m.layers));
  }

  /** The loop of `generateDataBytes` over the layers as read when it
   *  starts (nothing in it changes an objects array). */
  method GenerateValueBytes(v: MapValue) returns (r: Result<seq<byte>>)
    ensures r == GeneratedBytes(v)
  {
    var dataList := DataList(v.width, v.height, |v.layers|, v.palette);
    assert v.layers[0..] == v.layers;
    for k := 0 to |v.layers|
      invariant Then(dataList, LayersBlocks(v.layers[k..])) == MapBlocks(v)
    {
      var layer := v.layers[k];
      var blocks := PushLayer(layer.kind, layer.objects, layer.scrollX);
      LayerPushed(v, dataList, k, blocks);
      if blocks.Err? {
        return Err(blocks.error);
      }
      dataList := dataList + blocks.value;
    }
    LayersPushed(v, dataList);
    var bytes := WriteBlocks(dataList);
    r := Ok(bytes);
  }
}
