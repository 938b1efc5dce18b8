/** `onOpen` (src/renderer/src/components/Editor.tsx): a project saved as
 *  JSON is checked member by member and turned into palettes, graphics and
 *  levels. The first check that fails throws, and its message is the error
 *  here. */
module EditorOpen {
  import opened Wrappers
  import opened Bytes
  import opened Json
  import opened Objects
  import opened Goals
  import opened Levels
  import opened LevelFile
  import Palettes
  import Graphics
  import Circles

  /** What `onOpen` sets: the palettes if the file has any, the three
   *  graphics entries and the levels. */
  datatype Opened = Opened(palettes: Option<Palettes.PaletteList>, graphics: seq<Graphics.Sheet>, levels: seq<Level>)

  /** The joiner of the messages' positions, as in "color #2 o’ palette #0". */
  const Of := " o\U{2019} "

  function Nth(thing: string, n: int): string
  {
    thing + " #" + IntString(n)
  }

  /** The message ends with the place it names. */
  predicate Names(message: string, place: string)
  {
    |place| <= |message| && message[|message| - |place|..] == place
  }

  // ---------------------------------------------------------------- mapping

  /** `items.map( ( item, i ) => ... )` with a callback that may throw: the
   *  first item's error, or every item's result. The callback is given the
   *  tail of its messages, which names the enclosing items. */
  function MapIndexed<T>(items: seq<Json>, f: (string, Json, nat) -> Result<T>, outer: string, start: nat)
    : (r: Result<seq<T>>)
    ensures r.Ok? ==> |r.value| == |items|
    decreases |items|
  {
    if items == [] then Ok([])
    else match f(outer, items[0], start)
      case Err(e) => Err(e)
      case Ok(x) =>
        match MapIndexed(items[1..], f, outer, start + 1)
        case Err(e) => Err(e)
        case Ok(xs) => Ok([x] + xs)
  }

  /** The map succeeds exactly when every item does, and then holds each
   *  item's result at the item's place. */
  lemma {:induction false} MapIndexedEach<T>(items: seq<Json>, f: (string, Json, nat) -> Result<T>, outer: string, start: nat)
    ensures MapIndexed(items, f, outer, start).Ok? <==>
      forall k | 0 <= k < |items| :: f(outer, items[k], start + k).Ok?
    ensures MapIndexed(items, f, outer, start).Ok? ==>
      forall k | 0 <= k < |items| :: MapIndexed(items, f, outer, start).value[k] == f(outer, items[k], start + k).value
    decreases |items|
  {
    if items != [] {
      MapIndexedEach(items[1..], f, outer, start + 1);
      assert forall k | 1 <= k < |items| :: items[1..][k - 1] == items[k];
    }
  }

  /** A map from the first item that succeeds gives each item's result at
   *  its place. */
  lemma {:induction false} MapIndexedAt<T>(items: seq<Json>, f: (string, Json, nat) -> Result<T>, outer: string, r: seq<T>)
    requires MapIndexed(items, f, outer, 0) == Ok(r)
    ensures |r| == |items| && forall k | 0 <= k < |items| :: f(outer, items[k], k) == Ok(r[k])
  {
    MapIndexedEach(items, f, outer, 0);
    forall k | 0 <= k < |items|
      ensures f(outer, items[k], k) == Ok(r[k])
    {
      assert f(outer, items[k], 0 + k).Ok?;
    }
  }

  /** The map fails with the error of the first item that fails. */
  lemma {:induction false} MapIndexedFirstError<T>(items: seq<Json>, f: (string, Json, nat) -> Result<T>, outer: string, start: nat, k: nat)
    requires k < |items| && f(outer, items[k], start + k).Err?
    requires forall m | 0 <= m < k :: f(outer, items[m], start + m).Ok?
    ensures MapIndexed(items, f, outer, start) == Err(f(outer, items[k], start + k).error)
    decreases k
  {
    if k > 0 {
      assert f(outer, items[0], start + 0).Ok?;
      forall m | 0 <= m < k - 1
        ensures f(outer, items[1..][m], start + 1 + m).Ok?
      {
        assert items[1..][m] == items[m + 1];
      }
      assert items[1..][k - 1] == items[k];
      MapIndexedFirstError(items[1..], f, outer, start + 1, k - 1);
    }
  }

  /** When every item's result is given, the map is the list of them. */
  lemma {:induction false} MapIndexedAll<T>(items: seq<Json>, f: (string, Json, nat) -> Result<T>, outer: string, ys: seq<T>)
    requires |ys| == |items|
    requires forall k | 0 <= k < |items| :: f(outer, items[k], k) == Ok(ys[k])
    ensures MapIndexed(items, f, outer, 0) == Ok(ys)
  {
    MapIndexedEach(items, f, outer, 0);
    var r := MapIndexed(items, f, outer, 0);
    assert forall k | 0 <= k < |items| :: f(outer, items[k], 0 + k) == Ok(ys[k]);
    assert r.Ok? && r.value == ys by {
      assert forall k | 0 <= k < |items| :: r.value[k] == ys[k];
    }
  }

  /** `xs.map( x => x.toJSON() )`. */
  function Each<T>(xs: seq<T>, f: T -> Json): (r: seq<Json>)
    ensures |r| == |xs|
  {
    seq(|xs|, k requires 0 <= k < |xs| => f(xs[k]))
  }

  // ---------------------------------------------------------------- palettes

  /** A channel `createColor` would take but a colour here cannot hold. */
  const NegativeChannel := "Negative color channel"

  /** Colour `j` of a palette: an object with numbers r, g, b and a. */
  function OpenColor(outer: string, v: Json, j: nat): (r: Result<Palettes.Color>)
    ensures r.Ok? <==> IsObject(v) && NumberAt(v, "r") && NumberAt(v, "g") && NumberAt(v, "b") && NumberAt(v, "a")
                       && v.fields["r"].n >= 0 && v.fields["g"].n >= 0 && v.fields["b"].n >= 0
    ensures r.Ok? ==> r.value.r == v.fields["r"].n && r.value.g == v.fields["g"].n && r.value.b == v.fields["b"].n
                      && r.value.a == v.fields["a"].n
    ensures r.Err? ==> r.error == NegativeChannel || Names(r.error, Nth("color", j) + outer)
  {
    var where := Nth("color", j) + outer;
    if !IsObject(v) then Err("Invalid color data for " + where)
    else if !NumberAt(v, "r") then Err("Invalid color red for " + where)
    else if !NumberAt(v, "g") then Err("Invalid color green for " + where)
    else if !NumberAt(v, "b") then Err("Invalid color blue for " + where)
    else if !NumberAt(v, "a") then Err("Invalid color alpha for " + where)
    else if v.fields["r"].n < 0 || v.fields["g"].n < 0 || v.fields["b"].n < 0 then Err(NegativeChannel)
    else Ok(Palettes.Color(v.fields["r"].n, v.fields["g"].n, v.fields["b"].n, v.fields["a"].n))
  }

  /** Palette `i`: an object with a string name and exactly eight colours. */
  function OpenPalette(outer: string, v: Json, i: nat): (r: Result<Palettes.Palette>)
    ensures r.Ok? ==> StringAt(v, "name") && r.value.name == v.fields["name"].s
    ensures r.Ok? ==> ArrayAt(v, "colors") && |v.fields["colors"].items| == 8 && |r.value.colors| == 8
    ensures r.Ok? ==> forall j | 0 <= j < 8 ::
      OpenColor(Of + (Nth("palette", i) + outer), v.fields["colors"].items[j], j) == Ok(r.value.colors[j])
    ensures IsObject(v) && StringAt(v, "name") && ArrayAt(v, "colors") && |v.fields["colors"].items| != 8 ==>
      r == Err("Invalid palette color count for " + Nth("palette", i) + outer)
  {
    var where := Nth("palette", i) + outer;
    if !IsObject(v) then Err("Invalid palette data for " + where)
    else if !StringAt(v, "name") then Err("Invalid palette name for " + where)
    else if !ArrayAt(v, "colors") then Err("Invalid palette colors for " + where)
    else if |v.fields["colors"].items| != 8 then Err("Invalid palette color count for " + where)
    else
      MapIndexedEach(v.fields["colors"].items, OpenColor, Of + where, 0);
      match MapIndexed(v.fields["colors"].items, OpenColor, Of + where, 0)
      case Err(e) => Err(e)
      case Ok(colors) => Ok(Palettes.Palette(v.fields["name"].s, colors))
  }

  /** The palettes, if the file has the member: it must be an array. */
  function OpenPalettes(data: Json): (r: Result<Option<Palettes.PaletteList>>)
    ensures !Has(data, "palettes") ==> r == Ok(None)
    ensures Has(data, "palettes") && !data.fields["palettes"].JArr? ==> r == Err("Invalid palettes data")
    ensures r.Ok? && r.value.Some? ==> (ArrayAt(data, "palettes") &&
      |r.value.value.list| == |data.fields["palettes"].items| &&
      forall i | 0 <= i < |r.value.value.list| ::
        OpenPalette("", data.fields["palettes"].items[i], i) == Ok(r.value.value.list[i]) &&
        |r.value.value.list[i].colors| == 8)
  {
    if !Has(data, "palettes") then Ok(None)
    else if !data.fields["palettes"].JArr? then Err("Invalid palettes data")
    else
      MapIndexedEach(data.fields["palettes"].items, OpenPalette, "", 0);
      match MapIndexed(data.fields["palettes"].items, OpenPalette, "", 0)
      case Err(e) => Err(e)
      case Ok(list) => Ok(Some(Palettes.PaletteList(list)))
  }

  // ---------------------------------------------------------------- graphics

  /** `typeof value === 'object'`, which null passes. */
  predicate TypeofObject(v: Json)
  {
    v.JNull? || v.JObj? || v.JArr?
  }

  /** `! value[key] || typeof value[key] !== 'number'` fails: a number other
   *  than 0. */
  predicate TruthyNumberAt(v: Json, key: string)
  {
    NumberAt(v, key) && v.fields[key].n != 0
  }

  /** Reading `widthTiles` of an entry that is null. */
  const NullEntry := "Cannot read properties of null (reading 'widthTiles')"

  /** The text `atob` refuses. */
  const NotBase64 := "Failed to execute 'atob' on 'Window': The string to be decoded is not correctly encoded."

  /** A dimension `createGraphicsEntry` would take but a sheet here cannot
   *  hold. */
  const NegativeSize := "Negative graphics size"

  /** What logging the pixels of an entry whose pixels are not a non-empty
   *  string throws before the intended error: only an array can be mapped. */
  function PixelsFailure(item: Json): string
  {
    if ArrayAt(item, "pixels") then "Invalid graphics pixels"
    else if !Has(item, "pixels") then "Cannot read properties of undefined (reading 'map')"
    else if item.fields["pixels"].JNull? then "Cannot read properties of null (reading 'map')"
    else "dataItem.pixels.map is not a function"
  }

  /** The graphics entry `kind`: its width and height in tiles, and its
   *  pixels packed and written in base 64, which `atob` decodes. */
  function OpenSheet(g: Json, kind: string, atob: string -> Option<seq<byte>>): (r: Result<Graphics.Sheet>)
    ensures r.Ok? ==> (Has(g, kind) && TruthyNumberAt(g.fields[kind], "widthTiles") &&
      TruthyNumberAt(g.fields[kind], "heightTiles") && StringAt(g.fields[kind], "pixels"))
    ensures r.Ok? ==> (r.value.widthTiles == g.fields[kind].fields["widthTiles"].n > 0 &&
      r.value.heightTiles == g.fields[kind].fields["heightTiles"].n > 0)
    ensures r.Ok? ==> (atob(g.fields[kind].fields["pixels"].s).Some? &&
      Graphics.DecompressedPixels(atob(g.fields[kind].fields["pixels"].s).value) == Ok(r.value.pixels))
    ensures (Has(g, kind) && TypeofObject(g.fields[kind]) && !g.fields[kind].JNull? &&
      TruthyNumberAt(g.fields[kind], "widthTiles") && TruthyNumberAt(g.fields[kind], "heightTiles") &&
      StringAt(g.fields[kind], "pixels") && g.fields[kind].fields["pixels"].s != [] &&
      atob(g.fields[kind].fields["pixels"].s).None?) ==> r == Err(NotBase64)
  {
    if !Has(g, kind) || !TypeofObject(g.fields[kind]) then Err("Invalid graphics " + kind + " data")
    else
      var item := g.fields[kind];
      if item.JNull? then Err(NullEntry)
      else if !TruthyNumberAt(item, "widthTiles") then Err("Invalid graphics width")
      else if !TruthyNumberAt(item, "heightTiles") then Err("Invalid graphics height")
      else if !StringAt(item, "pixels") || item.fields["pixels"].s == [] then Err(PixelsFailure(item))
      else match atob(item.fields["pixels"].s)
        case None => Err(NotBase64)
        case Some(bytes) =>
          match Graphics.DecompressedPixels(bytes)
          case Err(e) => Err(e)
          case Ok(pixels) =>
            var width, height := item.fields["widthTiles"].n, item.fields["heightTiles"].n;
            if width < 0 || height < 0 then Err(NegativeSize)
            else Ok(Graphics.Sheet(width, height, pixels))
  }

  /** The graphics: the three entries if the file has the member, and a new
   *  set of blank sheets if it does not. */
  function OpenGraphics(data: Json, atob: string -> Option<seq<byte>>): (r: Result<seq<Graphics.Sheet>>)
    ensures !Has(data, "graphics") ==> r == Ok(Graphics.NewGraphics())
    ensures Has(data, "graphics") && r.Ok? ==>
      var g := data.fields["graphics"];
      OpenSheet(g, "blocks", atob).Ok? && OpenSheet(g, "overworld", atob).Ok? && OpenSheet(g, "sprites", atob).Ok? &&
      r.value == [OpenSheet(g, "blocks", atob).value, OpenSheet(g, "overworld", atob).value,
                  OpenSheet(g, "sprites", atob).value]
    ensures r.Ok? ==> |r.value| == 3
  {
    if !Has(data, "graphics") then Ok(Graphics.NewGraphics())
    else
      var g := data.fields["graphics"];
      if !IsObject(g) then Err("Invalid graphics data")
      else match OpenSheet(g, "blocks", atob)
        case Err(e) => Err(e)
        case Ok(blocks) =>
          match OpenSheet(g, "overworld", atob)
          case Err(e) => Err(e)
          case Ok(overworld) =>
            match OpenSheet(g, "sprites", atob)
            case Err(e) => Err(e)
            case Ok(sprites) => Ok([blocks, overworld, sprites])
  }

  // ---------------------------------------------------------------- levels

  /** The properties `onOpen` hands `createObject`: it always names width
   *  and height, and one the file lacks is `undefined`, which the setter
   *  that writes it stores as 0. */
  function Sized(props: map<string, int>): (r: map<string, int>)
    ensures r.Keys == props.Keys + {"width", "height"}
    ensures forall k | k in props :: r[k] == props[k]
    ensures forall k | k in r && k !in props :: r[k] == 0
  {
    props + (if "width" in props then map[] else map["width" := 0])
          + (if "height" in props then map[] else map["height" := 0])
  }

  /** Object `l` of a layer: numbers type, x and y, and width and height
   *  numbers when present; every member becomes a property, as the setters
   *  and the type table read it. */
  function OpenObject(outer: string, v: Json, l: nat): (r: Result<MapObject>)
    ensures r.Ok? <==> (IsObject(v) && NumberAt(v, "type") && NumberAt(v, "x") && NumberAt(v, "y") &&
      (Has(v, "width") ==> NumberAt(v, "width")) && (Has(v, "height") ==> NumberAt(v, "height")))
    ensures r.Ok? ==> r.value.props.Keys == v.fields.Keys + {"width", "height"}
    ensures r.Ok? ==> (r.value.Type() == v.fields["type"].n && r.value.XBlocks() == v.fields["x"].n &&
      r.value.YBlocks() == v.fields["y"].n)
    ensures r.Ok? ==> forall k | k in v.fields :: r.value.props[k] == MemberNumber(k, v.fields[k])
    ensures r.Ok? ==> forall k | k in r.value.props && k !in v.fields :: r.value.props[k] == 0
    ensures r.Err? ==> Names(r.error, Nth("object", l) + outer)
  {
    var where := Nth("object", l) + outer;
    if !IsObject(v) then Err("Invalid object data for " + where)
    else if !NumberAt(v, "type") then Err("Invalid object type for " + where)
    else if !NumberAt(v, "x") then Err("Invalid object x for " + where)
    else if !NumberAt(v, "y") then Err("Invalid object y for " + where)
    else if Has(v, "width") && !NumberAt(v, "width") then Err("Invalid object width for " + where)
    else if Has(v, "height") && !NumberAt(v, "height") then Err("Invalid object height for " + where)
    else Ok(MapObject(Sized(ObjectProps(v))))
  }

  /** Layer `k` of a map: a string type, an array of objects and a number
   *  scrollX, checked before the objects are. */
  function OpenLayer(outer: string, v: Json, k: nat): (r: Result<LayerValue>)
    ensures r.Ok? ==> StringAt(v, "type") && NumberAt(v, "scrollX") && ArrayAt(v, "objects")
    ensures r.Ok? ==> r.value.kind == v.fields["type"].s && r.value.scrollX == v.fields["scrollX"].n
    ensures r.Ok? ==> (|r.value.objects| == |v.fields["objects"].items| &&
      forall l | 0 <= l < |r.value.objects| ::
        OpenObject(Of + (Nth("layer", k) + outer), v.fields["objects"].items[l], l) == Ok(r.value.objects[l]))
  {
    var where := Nth("layer", k) + outer;
    if !IsObject(v) then Err("Invalid layer data for " + where)
    else if !StringAt(v, "type") then Err("Invalid layer type for " + where)
    else if !ArrayAt(v, "objects") then Err("Invalid layer objects for " + where)
    else if !NumberAt(v, "scrollX") then Err("Invalid layer scrollX for " + where)
    else
      match MapIndexed(v.fields["objects"].items, OpenObject, Of + where, 0)
      case Err(e) => Err(e)
      case Ok(objects) =>
        MapIndexedAt(v.fields["objects"].items, OpenObject, Of + where, objects);
        Ok(LayerValue(v.fields["type"].s, objects, v.fields["scrollX"].n))
  }

  /** Map `j` of a level: numbers width, height and palette and an array of
   *  layers; the level keeps the map's `generateDataBytes`. */
  function OpenMap(outer: string, v: Json, j: nat): (r: Result<seq<byte>>)
    ensures r.Ok? ==> NumberAt(v, "width") && NumberAt(v, "height") && NumberAt(v, "palette") && ArrayAt(v, "layers")
    ensures r.Ok? ==> (|r.value| >= 6 && r.value[..6] ==
      SerializeAll(DataList(v.fields["width"].n, v.fields["height"].n, |v.fields["layers"].items|, v.fields["palette"].n)))
  {
    var where := Nth("map", j) + outer;
    if !IsObject(v) then Err("Invalid map data for " + where)
    else if !NumberAt(v, "width") then Err("Invalid map width for " + where)
    else if !NumberAt(v, "height") then Err("Invalid map height for " + where)
    else if !NumberAt(v, "palette") then Err("Invalid map palette for " + where)
    else if !ArrayAt(v, "layers") then Err("Invalid map layers for " + where)
    else match MapIndexed(v.fields["layers"].items, OpenLayer, Of + where, 0)
      case Err(e) => Err(e)
      case Ok(layers) =>
        MapIndexedEach(v.fields["layers"].items, OpenLayer, Of + where, 0);
        var m := MapValue(v.fields["width"].n, v.fields["height"].n, layers, v.fields["palette"].n);
        if GeneratedBytes(m).Ok? then GeneratedHeader(m); GeneratedBytes(m) else GeneratedBytes(m)
  }

  /** Level `i`: a string name, a goal object with a number id and an
   *  options object, whose string members become the goal's options, and
   *  an array of maps. */
  function OpenLevel(outer: string, v: Json, i: nat): (r: Result<Level>)
    ensures r.Ok? ==> StringAt(v, "name") && r.value.name == v.fields["name"].s
    ensures r.Ok? ==> Has(v, "goal") && NumberAt(v.fields["goal"], "id") && r.value.goal.id == v.fields["goal"].fields["id"].n
    ensures r.Ok? ==> (Has(v.fields["goal"], "options") &&
      r.value.goal.options == OptionStrings(v.fields["goal"].fields["options"]))
    ensures r.Ok? ==> (ArrayAt(v, "maps") && |r.value.maps| == |v.fields["maps"].items| &&
      forall j | 0 <= j < |r.value.maps| ::
        OpenMap(Of + (Nth("level", i) + outer), v.fields["maps"].items[j], j) == Ok(r.value.maps[j]))
  {
    var where := Nth("level", i) + outer;
    if !IsObject(v) then Err("Invalid level data for " + where)
    else if !StringAt(v, "name") then Err("Invalid level name for " + where)
    else if !Has(v, "goal") || !IsObject(v.fields["goal"]) then Err("Invalid level goal for " + where)
    else if !NumberAt(v.fields["goal"], "id") then Err("Invalid goal ID for " + where)
    else if !Has(v.fields["goal"], "options") || !IsObject(v.fields["goal"].fields["options"]) then
      Err("Invalid goal options for " + where)
    else if !ArrayAt(v, "maps") then Err("Invalid level maps for " + where)
    else
      match MapIndexed(v.fields["maps"].items, OpenMap, Of + where, 0)
      case Err(e) => Err(e)
      case Ok(maps) =>
        MapIndexedAt(v.fields["maps"].items, OpenMap, Of + where, maps);
        var goal := v.fields["goal"];
        Ok(CreateLevel(Some(v.fields["name"].s),
                       Some(CreateGoal(goal.fields["id"].n, Some(OptionStrings(goal.fields["options"])))),
                       Some(maps)))
  }

  /** The levels of a file without any: the level count of default levels. */
  function DefaultLevels(): seq<Level>
  {
    seq(Circles.LevelCount, _ => CreateLevel(None, None, None))
  }

  /** The levels: at most the level count of them if the file has the
   *  member, and default levels if it does not. */
  function OpenLevels(data: Json): (r: Result<seq<Level>>)
    ensures !Has(data, "levels") ==> r == Ok(DefaultLevels())
    ensures ArrayAt(data, "levels") && |data.fields["levels"].items| > Circles.LevelCount ==> r == Err("Too many levels")
    ensures r.Ok? ==> |r.value| <= Circles.LevelCount
    ensures r.Ok? && Has(data, "levels") ==> (ArrayAt(data, "levels") && |r.value| == |data.fields["levels"].items| &&
      forall i | 0 <= i < |r.value| :: OpenLevel("", data.fields["levels"].items[i], i) == Ok(r.value[i]))
  {
    if !Has(data, "levels") then Ok(DefaultLevels())
    else if !data.fields["levels"].JArr? then Err("Invalid levels data")
    else if |data.fields["levels"].items| > Circles.LevelCount then Err("Too many levels")
    else
      match MapIndexed(data.fields["levels"].items, OpenLevel, "", 0)
      case Err(e) => Err(e)
      case Ok(levels) =>
        MapIndexedAt(data.fields["levels"].items, OpenLevel, "", levels);
        Ok(levels)
  }

  // ---------------------------------------------------------------- the file

  /** `onOpen`: palettes, then graphics, then levels. */
  function Open(data: Json, atob: string -> Option<seq<byte>>): (r: Result<Opened>)
    ensures !IsObject(data) ==> r == Err(InError("palettes", data))
    ensures r.Ok? <==> IsObject(data) && OpenPalettes(data).Ok? && OpenGraphics(data, atob).Ok? && OpenLevels(data).Ok?
    ensures r.Ok? ==> r.value == Opened(OpenPalettes(data).value, OpenGraphics(data, atob).value, OpenLevels(data).value)
    ensures IsObject(data) && OpenPalettes(data).Err? ==> r == Err(OpenPalettes(data).error)
  {
    if !IsObject(data) then Err(InError("palettes", data))
    else match OpenPalettes(data)
      case Err(e) => Err(e)
      case Ok(palettes) =>
        match OpenGraphics(data, atob)
        case Err(e) => Err(e)
        case Ok(graphics) =>
          match OpenLevels(data)
          case Err(e) => Err(e)
          case Ok(levels) => Ok(Opened(palettes, graphics, levels))
  }

  // ---------------------------------------------------------------- saving

  /** A colour's `toJSON`. */
  function ColorToJson(c: Palettes.Color): Json
  {
    JObj(map["r" := JNum(c.r), "g" := JNum(c.g), "b" := JNum(c.b), "a" := JNum(c.a)])
  }

  /** A palette's `toJSON`: its name and its colours. */
  function PaletteToJson(p: Palettes.Palette): Json
  {
    JObj(map["name" := JStr(p.name), "colors" := JArr(Each(p.colors, ColorToJson))])
  }

  /** A graphics entry's `toJSON`: the pixels packed and written by `btoa`. */
  function SheetToJson(s: Graphics.Sheet, btoa: seq<byte> -> string): Json
    requires Graphics.AllColors(s.pixels)
  {
    JObj(map["widthTiles" := JNum(s.widthTiles), "heightTiles" := JNum(s.heightTiles),
             "pixels" := JStr(btoa(Graphics.CompressedPixels(s.pixels).value))])
  }

  /** An object's `toJSON`: its properties. */
  function ObjectToJson(o: MapObject): Json
  {
    NumbersObject(o.props)
  }

  /** A layer as a map's `toJSON` writes it. */
  function LayerToJson(l: LayerValue): Json
  {
    JObj(map["type" := JStr(l.kind), "objects" := JArr(Each(l.objects, ObjectToJson)), "scrollX" := JNum(l.scrollX)])
  }

  /** A map's `toJSON`. */
  function MapToJson(m: MapValue): Json
  {
    JObj(map["width" := JNum(m.width), "height" := JNum(m.height), "layers" := JArr(Each(m.layers, LayerToJson)),
             "palette" := JNum(m.palette)])
  }

  /** A goal's `toJSON`: its id and options. */
  function GoalToJson(g: Goal): Json
  {
    JObj(map["id" := JNum(g.id), "options" := StringsObject(g.options)])
  }

  /** A level as its `toJSON` sees it: the name, the goal and each map's
   *  data read back into a map. */
  datatype SavedLevel = SavedLevel(name: string, goal: Goal, maps: seq<MapValue>)

  /** A level's `toJSON`. */
  function LevelToJson(l: SavedLevel): Json
  {
    JObj(map["name" := JStr(l.name), "goal" := GoalToJson(l.goal), "maps" := JArr(Each(l.maps, MapToJson))])
  }

  /** An object `createObject` can be opened from: it has a type and a
   *  place. */
  predicate Placed(o: MapObject)
  {
    "type" in o.props && "x" in o.props && "y" in o.props
  }

  predicate PlacedLayer(l: LayerValue)
  {
    forall i | 0 <= i < |l.objects| :: Placed(l.objects[i])
  }

  predicate PlacedMap(m: MapValue)
  {
    forall k | 0 <= k < |m.layers| :: PlacedLayer(m.layers[k])
  }

  // ---------------------------------------------------------------- round trips

  /** A colour comes back from its JSON. */
  lemma {:induction false} ColorRoundTrip(c: Palettes.Color, outer: string, j: nat)
    ensures OpenColor(outer, ColorToJson(c), j) == Ok(c)
  {
    var v := ColorToJson(c);
    assert NumberAt(v, "r") && NumberAt(v, "g") && NumberAt(v, "b") && NumberAt(v, "a");
  }

  /** A palette comes back from its JSON exactly when it has eight colours;
   *  otherwise the count is the error. */
  lemma {:induction false} PaletteRoundTrip(p: Palettes.Palette, outer: string, i: nat)
    ensures |p.colors| == 8 ==> OpenPalette(outer, PaletteToJson(p), i) == Ok(p)
    ensures |p.colors| != 8 ==>
      OpenPalette(outer, PaletteToJson(p), i) == Err("Invalid palette color count for " + Nth("palette", i) + outer)
  {
    var v := PaletteToJson(p);
    assert IsObject(v) && StringAt(v, "name") && ArrayAt(v, "colors");
    if |p.colors| == 8 {
      var items := v.fields["colors"].items;
      var inner := Of + (Nth("palette", i) + outer);
      forall k | 0 <= k < |items|
        ensures OpenColor(inner, items[k], k) == Ok(p.colors[k])
      {
        assert items[k] == ColorToJson(p.colors[k]);
        ColorRoundTrip(p.colors[k], inner, k);
      }
      MapIndexedAll(items, OpenColor, inner, p.colors);
    }
  }

  /** A sheet with pixels in whole bytes and non-zero dimensions comes back
   *  from its JSON when `atob` undoes `btoa`. */
  lemma {:induction false} SheetRoundTrip(s: Graphics.Sheet, g: Json, kind: string, atob: string -> Option<seq<byte>>,
                       btoa: seq<byte> -> string)
    requires Graphics.AllColors(s.pixels) && |s.pixels| % 8 == 0 && |s.pixels| > 0
    requires s.widthTiles > 0 && s.heightTiles > 0
    requires forall b :: atob(btoa(b)) == Some(b)
    requires forall b | b != [] :: btoa(b) != []
    requires Has(g, kind) && g.fields[kind] == SheetToJson(s, btoa)
    ensures OpenSheet(g, kind, atob) == Ok(s)
  {
    Graphics.CompressRoundTrip(s.pixels);
    var bytes := Graphics.CompressedPixels(s.pixels).value;
    assert bytes != [];
    SheetOf(g, kind, atob, s.widthTiles, s.heightTiles, btoa(bytes), bytes, s.pixels);
  }

  /** An entry of non-zero dimensions whose pixel text decodes and unpacks
   *  to `pixels` opens as that sheet. */
  lemma {:induction false} SheetOf(g: Json, kind: string, atob: string -> Option<seq<byte>>, width: nat, height: nat,
                text: string, bytes: seq<byte>, pixels: seq<nat>)
    requires width > 0 && height > 0 && text != []
    requires atob(text) == Some(bytes) && Graphics.DecompressedPixels(bytes) == Ok(pixels)
    requires Has(g, kind)
    requires g.fields[kind] == JObj(map["widthTiles" := JNum(width), "heightTiles" := JNum(height), "pixels" := JStr(text)])
    ensures OpenSheet(g, kind, atob) == Ok(Graphics.Sheet(width, height, pixels))
  {
    var item := g.fields[kind];
    assert TruthyNumberAt(item, "widthTiles") && TruthyNumberAt(item, "heightTiles") && StringAt(item, "pixels");
  }

  /** A sheet whose width is 0 fails the width check, since 0 is falsy. */
  lemma {:induction false} ZeroWidthSheet(s: Graphics.Sheet, g: Json, kind: string, atob: string -> Option<seq<byte>>,
                       btoa: seq<byte> -> string)
    requires Graphics.AllColors(s.pixels) && s.widthTiles == 0
    requires Has(g, kind) && g.fields[kind] == SheetToJson(s, btoa)
    ensures OpenSheet(g, kind, atob) == Err("Invalid graphics width")
  {
  }

  // ---------------------------------------------------------------- sizing

  /** An object as `onOpen` creates it again: width and height always
   *  given. */
  function SizedObject(o: MapObject): MapObject
  {
    MapObject(Sized(o.props))
  }

  function SizedObjects(objects: seq<MapObject>): (r: seq<MapObject>)
    ensures |r| == |objects| && forall i | 0 <= i < |r| :: r[i] == SizedObject(objects[i])
  {
    seq(|objects|, i requires 0 <= i < |objects| => SizedObject(objects[i]))
  }

  function SizedLayer(l: LayerValue): LayerValue
  {
    l.(objects := SizedObjects(l.objects))
  }

  function SizedLayers(layers: seq<LayerValue>): (r: seq<LayerValue>)
    ensures |r| == |layers| && forall i | 0 <= i < |r| :: r[i] == SizedLayer(layers[i])
  {
    seq(|layers|, i requires 0 <= i < |layers| => SizedLayer(layers[i]))
  }

  function SizedMap(m: MapValue): MapValue
  {
    m.(layers := SizedLayers(m.layers))
  }

  /** Giving width and height changes no block of an object that writes out:
   *  its type stays and every exported field it has keeps its value. */
  lemma {:induction false} SizedObjectBlocks(types: seq<ObjectType>, o: MapObject)
    requires ObjectBlocks(types, o).Ok?
    ensures ObjectBlocks(types, SizedObject(o)) == ObjectBlocks(types, o)
  {
    var fields := types[o.Type()].exportData;
    var sized := SizedObject(o);
    assert sized.Type() == o.Type();
    assert forall i | 0 <= i < |fields| :: fields[i].key in sized.props && sized.props[fields[i].key] == o.props[fields[i].key];
    assert FieldBlocks(fields, sized).Ok?;
    var a, b := FieldBlocks(fields, o).value, FieldBlocks(fields, sized).value;
    assert |a| == |b| && forall i | 0 <= i < |a| :: a[i] == b[i];
    assert a == b;
  }

  lemma {:induction false} SizedObjectsBlocks(types: seq<ObjectType>, objects: seq<MapObject>)
    requires ObjectsBlocks(types, objects).Ok?
    ensures ObjectsBlocks(types, SizedObjects(objects)) == ObjectsBlocks(types, objects)
  {
    if objects != [] {
      SizedObjectBlocks(types, objects[0]);
      assert SizedObjects(objects)[1..] == SizedObjects(objects[1..]);
      SizedObjectsBlocks(types, objects[1..]);
    }
  }

  lemma {:induction false} SizedLayersBlocks(layers: seq<LayerValue>)
    requires LayersBlocks(layers).Ok?
    ensures LayersBlocks(SizedLayers(layers)) == LayersBlocks(layers)
  {
    if layers != [] {
      var l := layers[0];
      assert LayerBlocks(l).Ok?;
      SizedObjectsBlocks(GetTypeFactory(l.kind), l.objects);
      assert LayerBlocks(SizedLayer(l)) == LayerBlocks(l);
      assert SizedLayers(layers)[1..] == SizedLayers(layers[1..]);
      SizedLayersBlocks(layers[1..]);
    }
  }

  /** A map that writes out writes the same bytes once `onOpen` has given
   *  every object its width and height. */
  lemma {:induction false} SizedMapBytes(m: MapValue)
    requires GeneratedBytes(m).Ok?
    ensures GeneratedBytes(SizedMap(m)) == GeneratedBytes(m)
  {
    SizedLayersBlocks(m.layers);
  }

  /** A placed object comes back from its JSON, with width and height. */
  lemma {:induction false} ObjectRoundTrip(o: MapObject, outer: string, l: nat)
    requires Placed(o)
    ensures OpenObject(outer, ObjectToJson(o), l) == Ok(SizedObject(o))
  {
    var v := ObjectToJson(o);
    NumbersRoundTrip(o.props);
    assert NumberAt(v, "type") && NumberAt(v, "x") && NumberAt(v, "y");
    assert Has(v, "width") ==> NumberAt(v, "width");
    assert Has(v, "height") ==> NumberAt(v, "height");
  }

  /** A layer of placed objects comes back from its JSON, each object with
   *  width and height. */
  lemma {:induction false} LayerRoundTrip(layer: LayerValue, outer: string, k: nat)
    requires PlacedLayer(layer)
    ensures OpenLayer(outer, LayerToJson(layer), k) == Ok(SizedLayer(layer))
  {
    var v := LayerToJson(layer);
    assert IsObject(v) && StringAt(v, "type") && ArrayAt(v, "objects") && NumberAt(v, "scrollX");
    var items := v.fields["objects"].items;
    var inner := Of + (Nth("layer", k) + outer);
    forall l | 0 <= l < |items|
      ensures OpenObject(inner, items[l], l) == Ok(SizedObjects(layer.objects)[l])
    {
      assert items[l] == ObjectToJson(layer.objects[l]);
      ObjectRoundTrip(layer.objects[l], inner, l);
    }
    MapIndexedAll(items, OpenObject, inner, SizedObjects(layer.objects));
  }

  /** A map of placed objects opens as the `generateDataBytes` of the map
   *  with every object sized, which is the map's own when that writes
   *  out. */
  lemma {:induction false} MapRoundTrip(m: MapValue, outer: string, j: nat)
    requires PlacedMap(m)
    ensures OpenMap(outer, MapToJson(m), j) == GeneratedBytes(SizedMap(m))
    ensures GeneratedBytes(m).Ok? ==> OpenMap(outer, MapToJson(m), j) == GeneratedBytes(m)
  {
    var v := MapToJson(m);
    assert IsObject(v) && NumberAt(v, "width") && NumberAt(v, "height") && NumberAt(v, "palette");
    assert ArrayAt(v, "layers");
    LayersRoundTrip(m, Of + (Nth("map", j) + outer));
    if GeneratedBytes(m).Ok? {
      SizedMapBytes(m);
    }
  }

  /** The layers of a map of placed objects come back from their JSON. */
  lemma {:induction false} LayersRoundTrip(m: MapValue, inner: string)
    requires PlacedMap(m)
    ensures MapToJson(m).JObj? && "layers" in MapToJson(m).fields && MapToJson(m).fields["layers"].JArr?
    ensures MapIndexed(MapToJson(m).fields["layers"].items, OpenLayer, inner, 0) == Ok(SizedLayers(m.layers))
  {
    var items := MapToJson(m).fields["layers"].items;
    forall k | 0 <= k < |items|
      ensures OpenLayer(inner, items[k], k) == Ok(SizedLayers(m.layers)[k])
    {
      assert items[k] == LayerToJson(m.layers[k]);
      LayerRoundTrip(m.layers[k], inner, k);
    }
    MapIndexedAll(items, OpenLayer, inner, SizedLayers(m.layers));
  }

  /** Maps that all write out: every object placed and every map's
   *  `generateDataBytes` succeeding. */
  predicate WritableMaps(maps: seq<MapValue>)
  {
    forall j | 0 <= j < |maps| :: PlacedMap(maps[j]) && GeneratedBytes(maps[j]).Ok?
  }

  /** Each map's data. */
  function MapsData(maps: seq<MapValue>): (r: seq<seq<byte>>)
    requires WritableMaps(maps)
    ensures |r| == |maps|
  {
    seq(|maps|, j requires 0 <= j < |maps| => GeneratedBytes(maps[j]).value)
  }

  /** The level a saved level of writable maps holds: its maps as their
   *  data. */
  function Written(l: SavedLevel): (r: Level)
    requires WritableMaps(l.maps)
  {
    Level(l.name, l.goal, MapsData(l.maps))
  }

  /** Writable maps come back from their JSON as their data. */
  lemma {:induction false} MapsRoundTrip(maps: seq<MapValue>, inner: string)
    requires WritableMaps(maps)
    ensures MapIndexed(Each(maps, MapToJson), OpenMap, inner, 0) == Ok(MapsData(maps))
  {
    var items, data := Each(maps, MapToJson), MapsData(maps);
    forall j | 0 <= j < |items|
      ensures OpenMap(inner, items[j], j) == Ok(data[j])
    {
      MapAt(maps, inner, j);
    }
    MapIndexedAll(items, OpenMap, inner, data);
  }

  lemma {:induction false} MapAt(maps: seq<MapValue>, inner: string, j: nat)
    requires WritableMaps(maps) && j < |maps|
    ensures OpenMap(inner, Each(maps, MapToJson)[j], j) == Ok(MapsData(maps)[j])
  {
    MapRoundTrip(maps[j], inner, j);
  }

  /** A level of writable maps comes back from its JSON with the same name
   *  and goal and each map's data. */
  lemma {:induction false} LevelRoundTrip(l: SavedLevel, outer: string, i: nat)
    requires WritableMaps(l.maps)
    ensures OpenLevel(outer, LevelToJson(l), i) == Ok(Written(l))
  {
    var v := LevelToJson(l);
    var goal := v.fields["goal"];
    assert IsObject(v) && StringAt(v, "name") && Has(v, "goal") && IsObject(goal);
    assert NumberAt(goal, "id") && Has(goal, "options") && IsObject(goal.fields["options"]);
    assert ArrayAt(v, "maps");
    MapsRoundTrip(l.maps, Of + (Nth("level", i) + outer));
    StringsRoundTrip(l.goal.options);
  }

  // ---------------------------------------------------------------- the whole file

  /** The graphics' JSON: each entry under its name. */
  function GraphicsToJson(sheets: seq<Graphics.Sheet>, btoa: seq<byte> -> string): Json
    requires |sheets| == 3 && forall i | 0 <= i < 3 :: Graphics.AllColors(sheets[i].pixels)
  {
    JObj(map["blocks" := SheetToJson(sheets[0], btoa), "overworld" := SheetToJson(sheets[1], btoa),
             "sprites" := SheetToJson(sheets[2], btoa)])
  }

  /** A sheet of colours the JSON carries back: pixels in whole bytes, and
   *  dimensions that are not 0. */
  predicate Openable(s: Graphics.Sheet)
  {
    |s.pixels| % 8 == 0 && |s.pixels| > 0 && s.widthTiles > 0 && s.heightTiles > 0
  }

  /** The three entries come back from their JSON. */
  lemma {:induction false} GraphicsRoundTrip(sheets: seq<Graphics.Sheet>, data: Json, atob: string -> Option<seq<byte>>,
                          btoa: seq<byte> -> string)
    requires |sheets| == 3 && forall i | 0 <= i < 3 :: Graphics.AllColors(sheets[i].pixels)
    requires forall i | 0 <= i < 3 :: Openable(sheets[i])
    requires forall b :: atob(btoa(b)) == Some(b)
    requires forall b | b != [] :: btoa(b) != []
    requires Has(data, "graphics") && data.fields["graphics"] == GraphicsToJson(sheets, btoa)
    ensures OpenGraphics(data, atob) == Ok(sheets)
  {
    var g := data.fields["graphics"];
    SheetRoundTrip(sheets[0], g, "blocks", atob, btoa);
    SheetRoundTrip(sheets[1], g, "overworld", atob, btoa);
    SheetRoundTrip(sheets[2], g, "sprites", atob, btoa);
    assert sheets == [sheets[0], sheets[1], sheets[2]];
  }

  /** The palettes come back from their JSON when each has eight colours. */
  lemma {:induction false} PalettesRoundTrip(palettes: seq<Palettes.Palette>, data: Json)
    requires forall i | 0 <= i < |palettes| :: |palettes[i].colors| == 8
    requires Has(data, "palettes") && data.fields["palettes"] == JArr(Each(palettes, PaletteToJson))
    ensures OpenPalettes(data) == Ok(Some(Palettes.PaletteList(palettes)))
  {
    var items := Each(palettes, PaletteToJson);
    forall i | 0 <= i < |items|
      ensures OpenPalette("", items[i], i) == Ok(palettes[i])
    {
      PaletteRoundTrip(palettes[i], "", i);
    }
    MapIndexedAll(items, OpenPalette, "", palettes);
  }

  /** Each saved level's maps write out. */
  predicate WritableLevels(levels: seq<SavedLevel>)
  {
    forall i | 0 <= i < |levels| :: WritableMaps(levels[i].maps)
  }

  function WrittenAll(levels: seq<SavedLevel>): (r: seq<Level>)
    requires WritableLevels(levels)
    ensures |r| == |levels|
  {
    seq(|levels|, i requires 0 <= i < |levels| => Written(levels[i]))
  }

  /** No more than the level count of writable levels come back from their
   *  JSON. */
  lemma {:induction false} LevelsRoundTrip(levels: seq<SavedLevel>, data: Json)
    requires |levels| <= Circles.LevelCount && WritableLevels(levels)
    requires Has(data, "levels") && data.fields["levels"] == JArr(Each(levels, LevelToJson))
    ensures OpenLevels(data) == Ok(WrittenAll(levels))
  {
    var items, written := Each(levels, LevelToJson), WrittenAll(levels);
    forall i | 0 <= i < |items|
      ensures OpenLevel("", items[i], i) == Ok(written[i])
    {
      LevelAt(levels, i);
    }
    MapIndexedAll(items, OpenLevel, "", written);
    LevelsOf(data, written);
  }

  lemma {:induction false} LevelsOf(data: Json, levels: seq<Level>)
    requires ArrayAt(data, "levels") && |data.fields["levels"].items| <= Circles.LevelCount
    requires MapIndexed(data.fields["levels"].items, OpenLevel, "", 0) == Ok(levels)
    ensures OpenLevels(data) == Ok(levels)
  {
  }

  lemma {:induction false} LevelAt(levels: seq<SavedLevel>, i: nat)
    requires WritableLevels(levels) && i < |levels|
    ensures OpenLevel("", Each(levels, LevelToJson)[i], i) == Ok(WrittenAll(levels)[i])
  {
    LevelRoundTrip(levels[i], "", i);
  }

  /** The JSON of a whole project: palettes, graphics and levels. */
  function ProjectToJson(palettes: seq<Palettes.Palette>, sheets: seq<Graphics.Sheet>, levels: seq<SavedLevel>,
                         btoa: seq<byte> -> string): Json
    requires |sheets| == 3 && forall i | 0 <= i < 3 :: Graphics.AllColors(sheets[i].pixels)
  {
    JObj(map["palettes" := JArr(Each(palettes, PaletteToJson)), "graphics" := GraphicsToJson(sheets, btoa),
             "levels" := JArr(Each(levels, LevelToJson))])
  }

  /** Opening a saved project gives back its palettes, its graphics and its
   *  levels with their maps' data, provided each palette has eight colours,
   *  each sheet is openable, there are no more levels than the level count,
   *  every map writes out and `atob` undoes `btoa`. */
  lemma {:induction false} ProjectRoundTrip(palettes: seq<Palettes.Palette>, sheets: seq<Graphics.Sheet>, levels: seq<SavedLevel>,
                         atob: string -> Option<seq<byte>>, btoa: seq<byte> -> string)
    requires forall i | 0 <= i < |palettes| :: |palettes[i].colors| == 8
    requires |sheets| == 3 && forall i | 0 <= i < 3 :: Graphics.AllColors(sheets[i].pixels)
    requires forall i | 0 <= i < 3 :: Openable(sheets[i])
    requires |levels| <= Circles.LevelCount && WritableLevels(levels)
    requires forall b :: atob(btoa(b)) == Some(b)
    requires forall b | b != [] :: btoa(b) != []
    ensures Open(ProjectToJson(palettes, sheets, levels, btoa), atob) ==
      Ok(Opened(Some(Palettes.PaletteList(palettes)), sheets, WrittenAll(levels)))
  {
    var data := ProjectToJson(palettes, sheets, levels, btoa);
    PalettesRoundTrip(palettes, data);
    GraphicsRoundTrip(sheets, data, atob, btoa);
    LevelsRoundTrip(levels, data);
  }

  // ---------------------------------------------------------------- what opening promises

  /** Without levels in the file, the level count of levels named "Unnamed
   *  Level", reaching goal 0 and holding no maps. */
  lemma {:induction false} DefaultLevelsAre()
    ensures |DefaultLevels()| == Circles.LevelCount == 160
    ensures forall i | 0 <= i < |DefaultLevels()| :: DefaultLevels()[i] == Level("Unnamed Level", Goal(0, map[]), [])
  {
    DefaultLevel();
  }

  /** What an opened project always is: palettes exactly when the file has
   *  them, each of eight colours; three graphics entries, new blank ones
   *  when the file has none; at most the level count of levels, and the
   *  default levels when the file has none. */
  lemma {:induction false} OpenedShape(data: Json, atob: string -> Option<seq<byte>>)
    requires Open(data, atob).Ok?
    ensures Open(data, atob).value.palettes.Some? <==> Has(data, "palettes")
    ensures Open(data, atob).value.palettes.Some? ==>
      forall i | 0 <= i < |Open(data, atob).value.palettes.value.list| ::
        |Open(data, atob).value.palettes.value.list[i].colors| == 8
    ensures |Open(data, atob).value.graphics| == 3
    ensures !Has(data, "graphics") ==> Open(data, atob).value.graphics == Graphics.NewGraphics()
    ensures |Open(data, atob).value.levels| <= Circles.LevelCount
    ensures !Has(data, "levels") ==> Open(data, atob).value.levels == DefaultLevels()
  {
  }

  /** A file with more levels than the level count is refused once its
   *  palettes and graphics have opened. */
  lemma {:induction false} TooManyLevels(data: Json, atob: string -> Option<seq<byte>>)
    requires IsObject(data) && OpenPalettes(data).Ok? && OpenGraphics(data, atob).Ok?
    requires ArrayAt(data, "levels") && |data.fields["levels"].items| > Circles.LevelCount
    ensures Open(data, atob) == Err("Too many levels")
  {
  }

  /** The palettes' error is the file's, before graphics and levels are
   *  looked at. */
  lemma {:induction false} PalettesFirst(data: Json, atob: string -> Option<seq<byte>>)
    requires IsObject(data) && OpenPalettes(data).Err?
    ensures Open(data, atob) == Err(OpenPalettes(data).error)
  {
  }

  /** The first palette whose colour list does not hold eight colours is
   *  the error, by its number. */
  lemma {:induction false} WrongColorCount(data: Json, atob: string -> Option<seq<byte>>, k: nat)
    requires IsObject(data) && ArrayAt(data, "palettes") && k < |data.fields["palettes"].items|
    requires forall m | 0 <= m < k :: OpenPalette("", data.fields["palettes"].items[m], m).Ok?
    requires var p := data.fields["palettes"].items[k];
      IsObject(p) && StringAt(p, "name") && ArrayAt(p, "colors") && |p.fields["colors"].items| != 8
    ensures Open(data, atob) == Err("Invalid palette color count for palette #" + IntString(k))
  {
    var items := data.fields["palettes"].items;
    var message := "Invalid palette color count for palette #" + IntString(k);
    assert OpenPalette("", items[k], 0 + k) == Err(message) by {
      assert Nth("palette", k) + "" == "palette #" + IntString(k);
    }
    MapIndexedFirstError(items, OpenPalette, "", 0, k);
    assert OpenPalettes(data) == Err(message);
    PalettesFirst(data, atob);
  }
}
