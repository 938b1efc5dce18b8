/** `splitMapBytes` (src/common/levels.ts:273-330) as the source runs it: a
 *  loop over the maps, each walked by the three-state reader with a cursor,
 *  proved to return what `LevelData.SplitBytes` specifies. */
module MapSplitter {
  import opened Wrappers
  import opened Bytes
  import opened Objects
  import opened Levels
  import opened LevelMaps
  import opened LevelData

  /** Where the walk of the map being read ends, from a state of the reader:
   *  the layer's type byte, the object type just read, the cursor and the
   *  layers still to finish. */
  function MapEnd(tableOf: TableOf, state: ParseState, layerType: int, objectType: int, d: seq<byte>, i: nat, left: nat): Result<nat>
    requires state != ReadingLayerOptions ==> left > 0
    requires state != ReadingType ==> i <= |d|
  {
    match state
    case ReadingLayerOptions => SkipLayers(tableOf, d, i, left)
    case ReadingType => AfterLayer(tableOf, SkipObjects(tableOf(layerType), d, i), d, left)
    case ReadingObjectData => AfterLayer(tableOf, SkipObjectData(tableOf(layerType), objectType, d, i), d, left)
  }

  /** A finished layer, then the layers after it. */
  function AfterLayer(tableOf: TableOf, r: Result<nat>, d: seq<byte>, left: nat): Result<nat>
    requires left > 0 && (r.Ok? ==> r.value <= |d|)
  {
    match r
    case Err(e) => Err(e)
    case Ok(j) => SkipLayers(tableOf, d, j, left - 1)
  }

  /** `readingLayerOptions`: the type byte at the cursor, five bytes on. */
  lemma {:induction false} OptionsStep(tableOf: TableOf, d: seq<byte>, i: nat, left: nat)
    requires i < |d| && left > 0
    ensures MapEnd(tableOf, ReadingLayerOptions, 0, 0, d, i, left) == MapEnd(tableOf, ReadingType, d[i], 0, d, i + 5, left)
  {
  }

  /** `readingType`: the terminator finishes the layer, another type starts
   *  an object. */
  lemma {:induction false} TypeStep(tableOf: TableOf, layerType: int, d: seq<byte>, i: nat, left: nat)
    requires i + 2 <= |d| && left > 0
    ensures var t := 256 * (d[i] as int) + d[i + 1] as int;
      MapEnd(tableOf, ReadingType, layerType, 0, d, i, left) ==
        if t == Terminator then MapEnd(tableOf, ReadingLayerOptions, 0, 0, d, i + 2, left - 1)
        else MapEnd(tableOf, ReadingObjectData, layerType, t, d, i + 2, left)
  {
  }

  /** `readingObjectData` for a type the layer's table holds. */
  lemma {:induction false} DataStep(tableOf: TableOf, layerType: int, types: seq<ObjectType>, t: int, d: seq<byte>, i: nat, left: nat)
    requires i <= |d| && left > 0 && tableOf(layerType) == Ok(types) && 0 <= t < |types|
    ensures MapEnd(tableOf, ReadingObjectData, layerType, t, d, i, left) ==
      MapEnd(tableOf, ReadingType, layerType, 0, d, i + FieldsSize(types[t].exportData), left)
  {
    TableSizeIs(types, t);
  }

  /** The maps cut off so far in front of what the splitter makes of the
   *  rest. */
  function Prefixed(maps: seq<seq<byte>>, r: Result<SplitMaps>): Result<SplitMaps>
  {
    match r
    case Err(e) => Err(e)
    case Ok(s) => Ok(SplitMaps(maps + s.maps, s.remainingBytes))
  }

  /** Splitting from the cursor: the map found there, then the others. */
  lemma {:induction false} MapStep(tableOf: TableOf, maps: seq<seq<byte>>, d: seq<byte>, i: nat, n: nat, j: nat)
    requires i <= j <= |d| && 0 < n && SkipMap(tableOf, d, i) == Ok(j)
    ensures Prefixed(maps, SplitFrom(tableOf, d, i, n)) == Prefixed(maps + [d[i..j]], SplitFrom(tableOf, d, j, n - 1))
  {
    match SplitFrom(tableOf, d, j, n - 1)
    case Err(e) =>
    case Ok(s) =>
      assert maps + ([d[i..j]] + s.maps) == maps + [d[i..j]] + s.maps;
  }

  /** The data-type sizes of an object's exported fields, added one at a
   *  time as the `forEach` does. */
  method SkipFields(fields: seq<ExportField>, i: nat) returns (j: nat)
    ensures j == i + FieldsSize(fields)
  {
    j := i;
    for k := 0 to |fields|
      invariant j + FieldsSize(fields[k..]) == i + FieldsSize(fields)
    {
      assert fields[k..][1..] == fields[k + 1..];
      j := j + Size(fields[k].kind);
    }
  }

  /** The splitter with nothing cut off yet. */
  lemma {:induction false} SplitStart(data: seq<byte>, count: nat)
    ensures SplitBytes(data, count) == Prefixed([], SplitFrom(LayerTable, data, 0, count))
  {
    var r := SplitFrom(LayerTable, data, 0, count);
    assert data[0..] == data;
    if r.Ok? {
      assert [] + r.value.maps == r.value.maps;
    }
  }

  /** No map left to cut off: the rest of the bytes are returned. */
  lemma {:induction false} SplitDone(tableOf: TableOf, maps: seq<seq<byte>>, data: seq<byte>, i: nat, n: nat)
    requires i <= |data| && n == 0
    ensures Prefixed(maps, SplitFrom(tableOf, data, i, n)) == Ok(SplitMaps(maps, data[i..]))
  {
    assert maps + [] == maps;
  }

  /** `splitMapBytes(data, count)`: the walk below with the layer tables
   *  `getTypeFactory` gives. */
  method SplitMapBytes(data: seq<byte>, count: nat) returns (r: Result<SplitMaps>)
    ensures r == SplitBytes(data, count)
  {
    r := SplitWith(LayerTable, data, count);
    SplitStart(data, count);
  }

  /** The loop of `splitMapBytes`, for the type tables `tableOf`: each map
   *  walked from `start`, cut off where the walk ends, and the bytes after
   *  the last map returned with them. */
  method SplitWith(tableOf: TableOf, data: seq<byte>, count: nat) returns (r: Result<SplitMaps>)
    ensures r == Prefixed([], SplitFrom(tableOf, data, 0, count))
  {
    var maps: seq<seq<byte>> := [];
    var i: nat := 0;
    var start: nat := 0;
    var currentMap: nat := 0;
    ghost var split := Prefixed([], SplitFrom(tableOf, data, 0, count));
    while currentMap < count
      invariant currentMap <= count && start == i <= |data|
      invariant split == Prefixed(maps, SplitFrom(tableOf, data, i, count - currentMap))
    {
      var failure;
      failure, maps, i := NextMap(tableOf, data, maps, start, count - currentMap, count - (currentMap + 1));
      if failure.Some? {
        return Err(failure.value);
      }
      currentMap := currentMap + 1;
      start := i;
    }
    SplitDone(tableOf, maps, data, i, count - currentMap);
    return Ok(SplitMaps(maps, data[i..]));
  }

  /** The body of the outer loop: the map at `start` walked and cut off. */
  method NextMap(tableOf: TableOf, data: seq<byte>, maps: seq<seq<byte>>, start: nat, ghost n: nat, ghost next: nat)
    returns (failure: Option<string>, maps': seq<seq<byte>>, i: nat)
    requires next + 1 == n && start <= |data|
    ensures failure.Some? ==> Prefixed(maps, SplitFrom(tableOf, data, start, n)) == Err(failure.value)
    ensures failure.None? ==> i <= |data|
    ensures failure.None? ==> Prefixed(maps', SplitFrom(tableOf, data, i, next)) == Prefixed(maps, SplitFrom(tableOf, data, start, n))
  {
    var end := ReadMap(tableOf, data, start);
    if end.Err? {
      return Some(end.error), maps, start;
    }
    i := end.value;
    MapStep(tableOf, maps, data, start, n, i);
    return None, maps + [data[start..i]], i;
  }

  /** What is left of the walk's work: the cursor's distance from the end,
   *  and one more while an object's data is still to skip. */
  function Work(state: ParseState, d: seq<byte>, i: nat): nat
  {
    2 * (if i <= |d| then |d| - i else 0) + (if state == ReadingObjectData then 1 else 0)
  }

  /** One pass of the outer loop of `splitMapBytes`: the layer count at
   *  offset 5 of the header, then the three-state walk over the layers.
   *  The result is the cursor after the map, or the error the walk
   *  throws. */
  method ReadMap(tableOf: TableOf, data: seq<byte>, start: nat) returns (r: Result<nat>)
    requires start <= |data|
    ensures r == SkipMap(tableOf, data, start)
  {
    if |data| <= start + 5 {
      return Err(OutOfBounds);
    }
    var layerCount: nat := data[start + 5];
    var currentLayer: nat := 0;
    var currentLayerType := 0;
    var state := ReadingLayerOptions;
    var objectType := 0;
    var i: nat := start + 6;
    while currentLayer < layerCount
      invariant currentLayer <= layerCount
      invariant state != ReadingLayerOptions ==> currentLayer < layerCount
      invariant state != ReadingType ==> i <= |data|
      invariant MapEnd(tableOf, state, currentLayerType, objectType, data, i, layerCount - currentLayer) == SkipMap(tableOf, data, start)
      decreases layerCount - currentLayer, Work(state, data, i)
    {
      var left := layerCount - currentLayer;
      var failure: Option<string>;
      if state == ReadingLayerOptions {
        failure, currentLayerType, i := ReadLayerOptions(tableOf, data, i, left);
        state := ReadingType;
      } else if state == ReadingType {
        var layerDone;
        failure, layerDone, objectType, i := ReadType(tableOf, data, currentLayerType, i, left);
        if layerDone {
          currentLayer := currentLayer + 1;
          state := ReadingLayerOptions;
        } else {
          state := ReadingObjectData;
        }
      } else {
        failure, i := ReadObjectData(tableOf, data, currentLayerType, objectType, i, left);
        state := ReadingType;
        objectType := 0;
      }
      if failure.Some? {
        return Err(failure.value);
      }
    }
    return Ok(i);
  }

  /** `readingLayerOptions`: the layer's type byte, then the cursor five
   *  bytes on, reading the layer's first object type next. */
  method ReadLayerOptions(ghost tableOf: TableOf, data: seq<byte>, i: nat, ghost left: nat) returns (failure: Option<string>, layerType: int, i': nat)
    requires left > 0 && i <= |data|
    ensures failure.Some? ==> MapEnd(tableOf, ReadingLayerOptions, 0, 0, data, i, left) == Err(failure.value)
    ensures failure.None? ==> MapEnd(tableOf, ReadingType, layerType, 0, data, i', left) == MapEnd(tableOf, ReadingLayerOptions, 0, 0, data, i, left)
    ensures failure.None? ==> Work(ReadingType, data, i') < Work(ReadingLayerOptions, data, i)
  {
    if |data| <= i {
      return Some(OutOfBounds), 0, i;
    }
    OptionsStep(tableOf, data, i, left);
    return None, data[i], i + 5;
  }

  /** `readingType`: the terminator finishes the layer, any other type is
   *  the next object's. */
  method ReadType(ghost tableOf: TableOf, data: seq<byte>, layerType: int, i: nat, ghost left: nat)
    returns (failure: Option<string>, layerDone: bool, objectType: int, i': nat)
    requires left > 0
    ensures failure.Some? ==> MapEnd(tableOf, ReadingType, layerType, 0, data, i, left) == Err(failure.value)
    ensures failure.None? ==> i' <= |data|
    ensures failure.None? && layerDone ==>
      MapEnd(tableOf, ReadingLayerOptions, 0, 0, data, i', left - 1) == MapEnd(tableOf, ReadingType, layerType, 0, data, i, left)
    ensures failure.None? && !layerDone ==>
      MapEnd(tableOf, ReadingObjectData, layerType, objectType, data, i', left) == MapEnd(tableOf, ReadingType, layerType, 0, data, i, left)
    ensures failure.None? && !layerDone ==> Work(ReadingObjectData, data, i') < Work(ReadingType, data, i)
  {
    if |data| < i + 2 {
      return Some(OutOfBounds), false, 0, i;
    }
    TypeStep(tableOf, layerType, data, i, left);
    var t := 256 * (data[i] as int) + data[i + 1] as int;
    if t == Terminator {
      return None, true, 0, i + 2;
    }
    return None, false, t, i + 2;
  }

  /** `readingObjectData`: past the object's exported fields, whose sizes
   *  the type table of the layer byte gives. */
  method ReadObjectData(tableOf: TableOf, data: seq<byte>, layerType: int, objectType: int, i: nat, ghost left: nat)
    returns (failure: Option<string>, i': nat)
    requires left > 0 && i <= |data|
    ensures failure.Some? ==> MapEnd(tableOf, ReadingObjectData, layerType, objectType, data, i, left) == Err(failure.value)
    ensures failure.None? ==>
      MapEnd(tableOf, ReadingType, layerType, 0, data, i', left) == MapEnd(tableOf, ReadingObjectData, layerType, objectType, data, i, left)
    ensures failure.None? ==> Work(ReadingType, data, i') < Work(ReadingObjectData, data, i)
  {
    var table := tableOf(layerType);
    if table.Err? {
      return Some(table.error), i;
    }
    if !(0 <= objectType < |table.value|) {
      return Some(ExportDataMissing), i;
    }
    DataStep(tableOf, layerType, table.value, objectType, data, i, left);
    i' := SkipFields(table.value[objectType].exportData, i);
    return None, i';
  }
}
