/** Map objects (src/common/objects.ts): an object is the bag of integer
 *  properties it was created from, read through accessors with defaults;
 *  each object type says how the object is created, which fields the save
 *  file stores and which graphic tiles draw it. */
module Objects {
  import opened Wrappers
  import opened Bytes

  /** src/common/constants.ts. */
  const TilesPerBlock: int := 2
  const PixelsPerBlock: int := 16

  function Max0(n: int): nat
  {
    if n > 0 then n else 0
  }

  // ---------------------------------------------------------------- objects

  /** The message `getProp` throws for a property the object lacks. */
  function MissingKey(key: string): string
  {
    "Key " + key + " not found in object."
  }

  /** `createObject`: the accessors read `props`, with type, x and y
   *  defaulting to 0 and width and height to 1; `getProp` and `toJSON`
   *  see the properties themselves, without defaults. */
  datatype MapObject = MapObject(props: map<string, int>)
  {
    function Prop(key: string, default: int): int
    {
      if key in props then props[key] else default
    }

    function Type(): int { Prop("type", 0) }
    function XBlocks(): int { Prop("x", 0) }
    function YBlocks(): int { Prop("y", 0) }
    function WidthBlocks(): int { Prop("width", 1) }
    function HeightBlocks(): int { Prop("height", 1) }
    function XTiles(): int { XBlocks() * TilesPerBlock }
    function XPixels(): int { XBlocks() * PixelsPerBlock }
    function YTiles(): int { YBlocks() * TilesPerBlock }
    function YPixels(): int { YBlocks() * PixelsPerBlock }
    function WidthTiles(): int { WidthBlocks() * TilesPerBlock }
    function WidthPixels(): int { WidthBlocks() * PixelsPerBlock }
    function HeightTiles(): int { HeightBlocks() * TilesPerBlock }
    function HeightPixels(): int { HeightBlocks() * PixelsPerBlock }
    function RightBlocks(): int { XBlocks() + WidthBlocks() }
    function RightTiles(): int { (XBlocks() + WidthBlocks()) * TilesPerBlock }
    function RightPixels(): int { (XBlocks() + WidthBlocks()) * PixelsPerBlock }
    function BottomBlocks(): int { YBlocks() + HeightBlocks() }
    function BottomTiles(): int { (YBlocks() + HeightBlocks()) * TilesPerBlock }
    function BottomPixels(): int { (YBlocks() + HeightBlocks()) * PixelsPerBlock }

    /** `getProp`: a property the object was given, or the source's error. */
    function GetProp(key: string): (r: Result<int>)
      ensures r.Ok? <==> key in props
      ensures r.Ok? ==> r.value == props[key]
      ensures r.Err? ==> r.error == MissingKey(key)
    {
      if key !in props then Err(MissingKey(key)) else Ok(props[key])
    }

    /** `update`: the new properties over the old ones. */
    function Update(changes: map<string, int>): (r: MapObject)
      ensures r.props.Keys == props.Keys + changes.Keys
      ensures forall k | k in changes :: r.GetProp(k) == Ok(changes[k])
      ensures forall k | k !in changes :: r.GetProp(k) == GetProp(k)
    {
      MapObject(props + changes)
    }
  }

  /** The accessors agree with one another: the right and bottom edges are
   *  the origin plus the size in every unit, and a block is two tiles of
   *  eight pixels. */
  lemma {:induction false} DerivedCoordinates(o: MapObject)
    ensures o.RightTiles() == o.XTiles() + o.WidthTiles() && o.BottomTiles() == o.YTiles() + o.HeightTiles()
    ensures o.RightPixels() == o.XPixels() + o.WidthPixels() && o.BottomPixels() == o.YPixels() + o.HeightPixels()
    ensures o.XPixels() == 8 * o.XTiles() && o.YPixels() == 8 * o.YTiles()
    ensures o.RightBlocks() * TilesPerBlock == o.RightTiles()
  {
  }

  /** An object created from no properties sits at block (0, 0), is one
   *  block square and has type 0. */
  lemma {:induction false} CreatedDefaults()
    ensures MapObject(map[]).Type() == 0 && MapObject(map[]).XBlocks() == 0 && MapObject(map[]).YBlocks() == 0
    ensures MapObject(map[]).WidthBlocks() == 1 && MapObject(map[]).HeightBlocks() == 1
    ensures MapObject(map[]).GetProp("width").Err?
  {
  }

  // ---------------------------------------------------------------- tiles

  /** A graphic tile: where it is drawn, in tiles, and what it shows. */
  datatype Tile = Tile(animation: int, srcHeight: int, srcWidth: int, srcx: int, srcy: int,
                       x: int, y: int, flipx: bool, flipy: bool)

  /** `createTile` without options; every tile below is this with some
   *  fields set. */
  const BlankTile: Tile := Tile(1, 1, 1, 0, 0, 0, 0, false, false)

  /** A rectangle of blocks, as `generateHighlight` returns it. */
  datatype Rect = Rect(x: int, y: int, width: int, height: int)

  /** The tile lies inside the rectangle's tiles. */
  predicate InRect(r: Rect, t: Tile)
  {
    r.x * TilesPerBlock <= t.x < (r.x + r.width) * TilesPerBlock &&
    r.y * TilesPerBlock <= t.y < (r.y + r.height) * TilesPerBlock
  }

  /** The object's own block rectangle. */
  function Bounds(o: MapObject): Rect
  {
    Rect(o.XBlocks(), o.YBlocks(), o.WidthBlocks(), o.HeightBlocks())
  }

  predicate Covers(o: MapObject, t: Tile)
  {
    InRect(Bounds(o), t)
  }

  // ---------------------------------------------------------------- types

  /** An entry of a type table: its name, the properties `create` gives
   *  besides x and y, the fields the save file stores, and whether its
   *  highlight is the object's whole rectangle rather than one block. */
  datatype ObjectType = ObjectType(name: string, extra: map<string, int>, exportData: seq<ExportField>,
                                   wholeHighlight: bool)
  {
    /** `create(x, y)`. */
    function Create(x: int, y: int): (r: map<string, int>)
      ensures r.Keys == extra.Keys + {"x", "y"} && r["x"] == x && r["y"] == y
    {
      extra["x" := x]["y" := y]
    }
  }

  /** `generateHighlight`: one rectangle, the object's own or the single
   *  block at its origin. */
  function GenerateHighlight(t: ObjectType, o: MapObject): (r: seq<Rect>)
    ensures |r| == 1 && r[0].x == o.XBlocks() && r[0].y == o.YBlocks()
    ensures t.wholeHighlight ==> r[0] == Bounds(o)
    ensures !t.wholeHighlight ==> r[0].width == 1 && r[0].height == 1
  {
    if t.wholeHighlight then [Bounds(o)] else [Rect(o.XBlocks(), o.YBlocks(), 1, 1)]
  }

  const Ground := ObjectType("Ground", map["width" := 1, "height" := 1],
    [ExportField(Uint16, "x"), ExportField(Uint16, "y"), ExportField(Uint16, "width"), ExportField(Uint8, "height")], true)
  const FireHydrant := ObjectType("Fire Hydrant", map[], [ExportField(Uint16, "x"), ExportField(Uint16, "y")], false)
  const Gem := ObjectType("Gem", map["width" := 1, "height" := 1],
    [ExportField(Uint16, "x"), ExportField(Uint16, "y"), ExportField(Uint8, "width"), ExportField(Uint8, "height")], true)
  const Building := ObjectType("Building", map["width" := 6, "height" := 3, "door" := 2],
    [ExportField(Uint16, "x"), ExportField(Uint16, "y"), ExportField(Uint8, "width"), ExportField(Uint8, "height"),
     ExportField(Uint8, "door")], true)
  const Fence := ObjectType("Fence", map["width" := 4, "height" := 3],
    [ExportField(Uint16, "x"), ExportField(Uint16, "y"), ExportField(Uint16, "width")], true)
  const Player := ObjectType("Player", map["width" := 1, "height" := 2],
    [ExportField(Uint16, "x"), ExportField(Uint16, "y")], true)
  const BadApple := ObjectType("Bad Apple", map["width" := 1, "height" := 1, "direction" := 0],
    [ExportField(Uint16, "x"), ExportField(Uint16, "y"), ExportField(Uint8, "direction")], true)
  const Grass := ObjectType("Grass", map["width" := 1, "height" := 1],
    [ExportField(Uint16, "x"), ExportField(Uint16, "y"), ExportField(Uint8, "width"), ExportField(Uint8, "height")], true)
  const GrassTop := ObjectType("Grass Top", map["width" := 1, "height" := 1],
    [ExportField(Uint16, "x"), ExportField(Uint16, "y"), ExportField(Uint8, "width")], true)
  const GrassLeft := ObjectType("Grass Left", map["width" := 1, "height" := 1],
    [ExportField(Uint16, "x"), ExportField(Uint16, "y"), ExportField(Uint8, "height")], true)

  /** `objectTypes`, `spriteTypes` and `owTileTypes`. */
  const BlockTypes: seq<ObjectType> := [Ground, FireHydrant, Gem, Building, Fence]
  const SpriteTypes: seq<ObjectType> := [Player, BadApple]
  const OwTileTypes: seq<ObjectType> := [Grass, GrassTop, GrassLeft]

  /** A type that creates each field it stores, and stores only one- and
   *  two-byte unsigned fields, x and y first. */
  predicate WellFormedType(t: ObjectType)
  {
    |t.exportData| >= 2 && t.exportData[0] == ExportField(Uint16, "x") && t.exportData[1] == ExportField(Uint16, "y") &&
    forall f | f in t.exportData :: f.key in t.Create(0, 0) && (f.kind == Uint8 || f.kind == Uint16)
  }

  /** Every type of the three tables is well formed. */
  lemma {:induction false} TablesWellFormed()
    ensures forall t | t in BlockTypes + SpriteTypes + OwTileTypes :: WellFormedType(t)
  {
    BlockTypesWellFormed();
    SpriteTypesWellFormed();
    OwTileTypesWellFormed();
  }

  lemma {:induction false} BlockTypesWellFormed()
    ensures forall t | t in BlockTypes :: WellFormedType(t)
  {
    assert WellFormedType(Ground) && WellFormedType(FireHydrant) && WellFormedType(Gem) by {
      SmallBlocksWellFormed();
    }
    assert WellFormedType(Building);
    assert WellFormedType(Fence);
  }

  lemma {:induction false} SmallBlocksWellFormed()
    ensures WellFormedType(Ground) && WellFormedType(FireHydrant) && WellFormedType(Gem)
  {
    assert WellFormedType(Ground);
    assert WellFormedType(FireHydrant);
  }

  lemma {:induction false} SpriteTypesWellFormed()
    ensures forall t | t in SpriteTypes :: WellFormedType(t)
  {
    assert WellFormedType(Player);
    assert WellFormedType(BadApple);
  }

  lemma {:induction false} OwTileTypesWellFormed()
    ensures forall t | t in OwTileTypes :: WellFormedType(t)
  {
    assert WellFormedType(Grass);
    assert WellFormedType(GrassTop);
    assert WellFormedType(GrassLeft);
  }

  /** `getTypeFactory`: the sprite table for a sprite layer, the block table
   *  for anything else. */
  function GetTypeFactory(layerType: string): (r: seq<ObjectType>)
    ensures layerType == "sprite" ==> r == SpriteTypes
    ensures layerType != "sprite" ==> r == BlockTypes
  {
    if layerType == "sprite" then SpriteTypes else BlockTypes
  }

  /** `getOverworldTypeGenerator(layerType)(type, x, y)`: the tile type's
   *  created object tagged with its index, or the source's error for an
   *  index the table does not have. */
  function OverworldObject(objectType: int, x: int, y: int): (r: Result<MapObject>)
    ensures r.Ok? <==> 0 <= objectType < |OwTileTypes|
    ensures r.Ok? ==> r.value.Type() == objectType && r.value.XBlocks() == x && r.value.YBlocks() == y
    ensures r.Ok? ==> r.value.props.Keys == OwTileTypes[objectType].Create(x, y).Keys + {"type"}
    ensures r.Err? ==> r.error == "Invalid overworld tile type: " + IntString(objectType)
  {
    if !(0 <= objectType < |OwTileTypes|) then Err("Invalid overworld tile type: " + IntString(objectType))
    else Ok(MapObject(OwTileTypes[objectType].Create(x, y)["type" := objectType]))
  }

  // ---------------------------------------------------------------- building door

  /** The Building width option's `extraUpdate`: a door that would reach the
   *  right wall moves to the last place inside it. */
  function BuildingWidthExtra(o: MapObject, v: int): (r: Result<map<string, int>>)
    ensures r.Ok? <==> "door" in o.props
    ensures r.Ok? && o.props["door"] >= v - 1 ==> r.value == map["door" := v - 2]
    ensures r.Ok? && o.props["door"] < v - 1 ==> r.value == map[]
  {
    match o.GetProp("door")
    case Err(e) => Err(e)
    case Ok(door) => Ok(if door >= v - 1 then map["door" := v - 2] else map[])
  }

  /** The Door option's maximum. */
  function DoorMax(o: MapObject): int
  {
    o.WidthBlocks() - 2
  }

  /** After a width change, as the option form applies it, the door is
   *  within its maximum again. */
  lemma {:induction false} WidthChangeKeepsDoor(o: MapObject, v: int)
    requires "door" in o.props
    ensures var u := o.Update(map["width" := v] + BuildingWidthExtra(o, v).value);
      u.WidthBlocks() == v && u.GetProp("door").Ok? && u.GetProp("door").value <= DoorMax(u)
    ensures o.props["door"] < v - 1 ==>
      o.Update(map["width" := v] + BuildingWidthExtra(o, v).value).props["door"] == o.props["door"]
  {
    var changes := map["width" := v] + BuildingWidthExtra(o, v).value;
    assert "width" in changes && changes["width"] == v;
    if o.props["door"] >= v - 1 {
      assert "door" in changes && changes["door"] == v - 2;
    } else {
      assert "door" !in changes;
    }
  }

  // ---------------------------------------------------------------- block tiles

  /** Ground: a sidewalk block along the top row, then dirt below. */
  method GroundTiles(o: MapObject) returns (list: seq<Tile>)
    ensures |list| == 3 * Max0(o.WidthBlocks()) + Max0(2 * o.HeightBlocks() - 2) * (2 * Max0(o.WidthBlocks()))
    ensures o.HeightBlocks() >= 1 ==> forall t | t in list :: Covers(o, t)
  {
    ghost var w := Max0(o.WidthBlocks());
    list := [];
    var x := o.XTiles();
    ghost var k: nat := 0;
    while x < o.RightTiles()
      invariant x == o.XTiles() + TilesPerBlock * k && k <= w
      invariant |list| == 3 * k
      invariant o.HeightBlocks() >= 1 ==> forall t | t in list :: Covers(o, t)
    {
      list := list + [BlankTile.(x := x, y := o.YTiles(), srcWidth := TilesPerBlock),
                      BlankTile.(x := x, y := o.YTiles() + 1, srcx := 2),
                      BlankTile.(x := x + 1, y := o.YTiles() + 1, srcx := 2)];
      x := x + TilesPerBlock;
      k := k + 1;
    }
    var y := o.YTiles() + TilesPerBlock;
    ghost var rows: nat := 0;
    while y < o.BottomTiles()
      invariant y == o.YTiles() + TilesPerBlock + rows && rows <= Max0(2 * o.HeightBlocks() - 2)
      invariant |list| == 3 * w + rows * (2 * w)
      invariant o.HeightBlocks() >= 1 ==> forall t | t in list :: Covers(o, t)
    {
      x := o.XTiles();
      ghost var cols: nat := 0;
      while x < o.RightTiles()
        invariant x == o.XTiles() + cols && cols <= 2 * w
        invariant |list| == 3 * w + rows * (2 * w) + cols
        invariant o.HeightBlocks() >= 1 ==> forall t | t in list :: Covers(o, t)
      {
        list := list + [BlankTile.(x := x, y := y, srcx := 3)];
        x := x + 1;
        cols := cols + 1;
      }
      y := y + 1;
      rows := rows + 1;
    }
  }

  /** Fire Hydrant: two double-width tiles, top and bottom of its block. */
  method FireHydrantTiles(o: MapObject) returns (tiles: seq<Tile>)
    ensures |tiles| == 2
    ensures forall t | t in tiles :: t.x == o.XTiles() && t.srcWidth == 2
    ensures forall t | t in tiles :: InRect(GenerateHighlight(FireHydrant, o)[0], t)
  {
    tiles := [];
    tiles := tiles + [BlankTile.(srcx := 13, x := o.XTiles(), y := o.YTiles(), srcWidth := 2)];
    tiles := tiles + [BlankTile.(srcx := 15, x := o.XTiles(), y := o.YTiles() + 1, srcWidth := 2)];
  }

  /** Gem: two animated tiles for every block of the rectangle. */
  method GemTiles(o: MapObject) returns (tiles: seq<Tile>)
    ensures |tiles| == 2 * Max0(o.WidthBlocks()) * Max0(o.HeightBlocks())
    ensures forall t | t in tiles :: t.animation == 6 && Covers(o, t)
  {
    ghost var w, h := Max0(o.WidthBlocks()), Max0(o.HeightBlocks());
    tiles := [];
    var y := o.YTiles();
    ghost var rows: nat := 0;
    while y < o.BottomTiles()
      invariant y == o.YTiles() + TilesPerBlock * rows && rows <= h
      invariant |tiles| == rows * (2 * w)
      invariant forall t | t in tiles :: t.animation == 6 && Covers(o, t)
    {
      var row := GemRow(o, y);
      tiles := tiles + row;
      MulStep(rows, 2 * w);
      y := y + TilesPerBlock;
      rows := rows + 1;
    }
    assert |tiles| == 2 * w * h;
  }

  /** One block row of a Gem: a top and a bottom tile per block. */
  method GemRow(o: MapObject, y: int) returns (tiles: seq<Tile>)
    requires o.YTiles() <= y < o.BottomTiles() - 1
    ensures |tiles| == 2 * Max0(o.WidthBlocks())
    ensures forall t | t in tiles :: t.animation == 6 && Covers(o, t)
  {
    tiles := [];
    var x := o.XTiles();
    ghost var cols: nat := 0;
    while x < o.RightTiles()
      invariant x == o.XTiles() + TilesPerBlock * cols && cols <= Max0(o.WidthBlocks())
      invariant |tiles| == 2 * cols
      invariant forall t | t in tiles :: t.animation == 6 && Covers(o, t)
    {
      tiles := tiles + [BlankTile.(animation := 6, srcx := 5, srcy := 1, x := x, y := y, srcWidth := TilesPerBlock)];
      tiles := tiles + [BlankTile.(animation := 6, srcx := 17, srcy := 1, x := x, y := y + 1, srcWidth := TilesPerBlock)];
      x := x + TilesPerBlock;
      cols := cols + 1;
    }
  }

  /** The number of Building tiles for a wall interior of `a` columns and
   *  `b` rows: four corners, top and bottom walls, side walls, the inside
   *  and four door tiles. */
  function BuildingCount(a: nat, b: nat): nat
  {
    8 + 2 * a + 2 * b + a * b
  }

  /** Building: corners, walls, inside, then the four door tiles, which sit
   *  `door` blocks right of the left wall; an object without a door fails
   *  there. */
  method BuildingTiles(o: MapObject) returns (r: Result<seq<Tile>>)
    ensures r.Ok? <==> "door" in o.props
    ensures r.Ok? ==> |r.value| == BuildingCount(Max0(2 * o.WidthBlocks() - 2), Max0(2 * o.HeightBlocks() - 2))
    ensures r.Ok? ==> DoorColumn(r.value[|r.value| - 4..], o.XTiles() + o.props["door"] * 2, o.BottomTiles() - 1)
    ensures r.Err? ==> r.error == MissingKey("door")
  {
    var ystart, xstart := o.YTiles(), o.XTiles();
    var yend, xend := o.BottomTiles() - 1, o.RightTiles() - 1;
    ghost var a, b := Max0(2 * o.WidthBlocks() - 2), Max0(2 * o.HeightBlocks() - 2);
    var tiles := [BlankTile.(srcx := 22, x := xstart, y := ystart), BlankTile.(srcx := 23, x := xend, y := ystart),
                  BlankTile.(srcx := 24, x := xstart, y := yend), BlankTile.(srcx := 25, x := xend, y := yend)];
    var x := xstart + 1;
    while x < xend
      invariant xstart + 1 <= x && x - xstart - 1 <= a
      invariant |tiles| == 4 + 2 * (x - xstart - 1)
    {
      tiles := tiles + [BlankTile.(srcx := 18, x := x, y := ystart), BlankTile.(srcx := 19, x := x, y := yend)];
      x := x + 1;
    }
    var y := ystart + 1;
    while y < yend
      invariant ystart + 1 <= y && y - ystart - 1 <= b
      invariant |tiles| == 4 + 2 * a + 2 * (y - ystart - 1)
    {
      tiles := tiles + [BlankTile.(srcx := 20, x := xstart, y := y), BlankTile.(srcx := 21, x := xend, y := y)];
      y := y + 1;
    }
    y := ystart + 1;
    ghost var rows: nat := 0;
    while y < yend
      invariant y == ystart + 1 + rows && rows <= b
      invariant |tiles| == 4 + 2 * a + 2 * b + rows * a
    {
      var row := BuildingInsideRow(o, y);
      tiles := tiles + row;
      MulStep(rows, a);
      y := y + 1;
      rows := rows + 1;
    }
    var door := o.GetProp("door");
    if door.Err? {
      return Err(door.error);
    }
    var doorTiles := DoorTiles(xstart + door.value * 2, yend);
    r := Ok(tiles + doorTiles);
    assert r.value[|r.value| - 4..] == doorTiles;
  }

  /** Four two-tile-wide tiles stacked in column `x`, the last on row `yend`. */
  predicate DoorColumn(tiles: seq<Tile>, x: int, yend: int)
  {
    |tiles| == 4 && forall j | 0 <= j < 4 :: tiles[j].x == x && tiles[j].srcWidth == 2 && tiles[j].y == yend - 3 + j
  }

  /** The four door tiles, one two-tile-wide column at `x` ending on row `yend`. */
  method DoorTiles(x: int, yend: int) returns (tiles: seq<Tile>)
    ensures DoorColumn(tiles, x, yend)
  {
    tiles := [];
    var i := 3;
    while i >= 0
      invariant -1 <= i <= 3 && |tiles| == 3 - i
      invariant forall j | 0 <= j < |tiles| :: tiles[j].x == x && tiles[j].srcWidth == 2 && tiles[j].y == yend - 3 + j
    {
      tiles := tiles + [BlankTile.(srcx := 47 - i * 2, x := x, y := yend - i, srcWidth := 2)];
      i := i - 1;
    }
  }

  /** One tile row of a Building's inside, between its side walls. */
  method BuildingInsideRow(o: MapObject, y: int) returns (tiles: seq<Tile>)
    ensures |tiles| == Max0(2 * o.WidthBlocks() - 2)
  {
    tiles := [];
    var x := o.XTiles() + 1;
    while x < o.RightTiles() - 1
      invariant o.XTiles() + 1 <= x && |tiles| == x - o.XTiles() - 1 <= Max0(2 * o.WidthBlocks() - 2)
    {
      tiles := tiles + [BlankTile.(srcx := 17, x := x, y := y)];
      x := x + 1;
    }
  }

  /** The Fence's picket columns: every third block from the left. */
  function FenceColumns(w: int): nat
  {
    if w > 0 then (w + 2) / 3 else 0
  }

  /** Fence: a top rail block per block, then for each tile row below it
   *  five tiles in every third block. */
  method FenceTiles(o: MapObject) returns (tiles: seq<Tile>)
    ensures |tiles| == Max0(o.WidthBlocks()) + Max0(o.HeightTiles() - 1) * (5 * FenceColumns(o.WidthBlocks()))
    ensures forall i | 0 <= i < Max0(o.WidthBlocks()) :: IsRailTile(o, i, tiles[i])
  {
    tiles := FenceTop(o);
    ghost var top := |tiles|;
    ghost var topRow := tiles;
    ghost var rowLen := 5 * FenceColumns(o.WidthBlocks());
    ghost var body: nat := 0;
    var y := 1;
    while y < o.HeightTiles()
      invariant 1 <= y && y - 1 <= Max0(o.HeightTiles() - 1)
      invariant body == (y - 1) * rowLen
      invariant |tiles| == top + body && tiles[..top] == topRow
    {
      var row := FenceRow(o, y);
      tiles := tiles + row;
      MulStep(y - 1, rowLen);
      body := body + rowLen;
      y := y + 1;
    }
    assert forall i | 0 <= i < top :: tiles[i] == topRow[i];
  }

  /** The `i`-th block of the Fence's top rail. */
  predicate IsRailTile(o: MapObject, i: int, t: Tile)
  {
    t.y == o.YTiles() && t.x == o.XTiles() + i * 2 && t.srcx == (if i % 3 == 0 then 4 else 6)
  }

  /** The Fence's top rail, one two-tile-wide tile per block. */
  method FenceTop(o: MapObject) returns (tiles: seq<Tile>)
    ensures |tiles| == Max0(o.WidthBlocks())
    ensures forall i | 0 <= i < |tiles| :: IsRailTile(o, i, tiles[i])
  {
    tiles := [];
    var x := 0;
    while x < o.WidthBlocks()
      invariant 0 <= x <= Max0(o.WidthBlocks()) && |tiles| == x
      invariant forall i | 0 <= i < x :: IsRailTile(o, i, tiles[i])
    {
      tiles := tiles + [BlankTile.(srcx := if x % 3 == 0 then 4 else 6, x := o.XTiles() + x * 2, y := o.YTiles(),
                                   srcWidth := TilesPerBlock)];
      x := x + 1;
    }
  }

  lemma {:induction false} MulStep(a: int, b: int)
    ensures (a + 1) * b == a * b + b
  {
  }

  /** One row of pickets below the top rail, one picket every three blocks. */
  method FenceRow(o: MapObject, y: int) returns (tiles: seq<Tile>)
    ensures |tiles| == 5 * FenceColumns(o.WidthBlocks())
  {
    var w := o.WidthBlocks();
    tiles := [];
    var x := 0;
    ghost var c: nat := 0;
    while x < w
      invariant x == 3 * c && |tiles| == 5 * c
      invariant x < Max0(w) + 3
    {
      var picket := FencePicket(o, x, y);
      tiles := tiles + picket;
      x := x + 3;
      c := c + 1;
    }
    if w > 0 {
      DivUnique(w + 2, 3, c, w + 2 - 3 * c);
    }
  }

  /** One picket of a fence row: its left post, its centre and three rails. */
  method FencePicket(o: MapObject, x: int, y: int) returns (tiles: seq<Tile>)
    ensures |tiles| == 5
    ensures forall t | t in tiles :: t.y == o.YTiles() + y
  {
    tiles := [BlankTile.(srcx := if y == 1 then 8 else if y == 2 then 11 else 12, x := o.XTiles() + x * 2,
                         y := o.YTiles() + y)];
    tiles := tiles + [BlankTile.(srcx := 9, x := o.XTiles() + x * 2 + 1, y := o.YTiles() + y, srcWidth := 2)];
    var i := 3;
    while i < 6
      invariant 3 <= i <= 6 && |tiles| == 2 + (i - 3)
      invariant forall t | t in tiles :: t.y == o.YTiles() + y
    {
      tiles := tiles + [BlankTile.(srcx := 10, x := o.XTiles() + x * 2 + i, y := o.YTiles() + y)];
      i := i + 1;
    }
  }

  // ---------------------------------------------------------------- sprite tiles

  /** Player: one sprite, facing left. */
  method PlayerTiles(o: MapObject) returns (tiles: seq<Tile>)
    ensures |tiles| == 1 && tiles[0].flipx && tiles[0].x == o.XTiles() && tiles[0].y == o.YTiles()
    ensures tiles[0].srcHeight == 2 * tiles[0].srcWidth
  {
    tiles := [BlankTile.(x := o.XTiles(), y := o.YTiles(), srcWidth := TilesPerBlock, srcHeight := TilesPerBlock * 2,
                         flipx := true)];
  }

  /** Bad Apple: one sprite, flipped exactly when its direction is 1. */
  method BadAppleTiles(o: MapObject) returns (r: Result<seq<Tile>>)
    ensures r.Ok? <==> "direction" in o.props
    ensures r.Ok? ==> |r.value| == 1 && (r.value[0].flipx <==> o.props["direction"] == 1)
    ensures r.Ok? ==> r.value[0].x == o.XTiles() && r.value[0].y == o.YTiles() && r.value[0].srcy == 4
  {
    var direction := o.GetProp("direction");
    if direction.Err? {
      return Err(direction.error);
    }
    r := Ok([BlankTile.(x := o.XTiles(), y := o.YTiles(), srcWidth := TilesPerBlock, srcHeight := TilesPerBlock,
                        srcy := 4, flipx := direction.value == 1)]);
  }

  // ---------------------------------------------------------------- overworld tiles

  /** Grass: one grass tile for every tile of the rectangle. */
  method GrassTiles(o: MapObject) returns (list: seq<Tile>)
    ensures |list| == Max0(o.HeightTiles()) * Max0(o.WidthTiles())
    ensures forall t | t in list :: t.srcx == 1 && Covers(o, t)
  {
    ghost var w := Max0(o.WidthTiles());
    list := [];
    var y := o.YTiles();
    ghost var rows: nat := 0;
    while y < o.BottomTiles()
      invariant y == o.YTiles() + rows && rows <= Max0(o.HeightTiles())
      invariant |list| == rows * w
      invariant forall t | t in list :: t.srcx == 1 && Covers(o, t)
    {
      var x := o.XTiles();
      ghost var cols: nat := 0;
      while x < o.RightTiles()
        invariant x == o.XTiles() + cols && cols <= w
        invariant |list| == rows * w + cols
        invariant forall t | t in list :: t.srcx == 1 && Covers(o, t)
      {
        list := list + [BlankTile.(x := x, y := y, srcx := 1)];
        x := x + 1;
        cols := cols + 1;
      }
      y := y + 1;
      rows := rows + 1;
    }
  }

  predicate AtOrigin(o: MapObject, t: Tile)
  {
    t.x == o.XTiles() && t.y == o.YTiles()
  }

  /** A tile as the grass edges leave it: turned into the corner piece when
   *  it sits at the object's origin. */
  function Cornered(o: MapObject, t: Tile): Tile
  {
    if AtOrigin(o, t) then t.(srcx := 2) else t
  }

  /** The `currentTiles.forEach` of Grass Top and Grass Left: every tile
   *  already at the object's origin becomes a corner piece, in place, and
   *  whether there was one is reported. */
  method MarkCorner(o: MapObject, currentTiles: array<Tile>) returns (topLeftSet: bool)
    modifies currentTiles
    ensures forall i | 0 <= i < currentTiles.Length :: currentTiles[i] == Cornered(o, old(currentTiles[i]))
    ensures topLeftSet <==> exists i | 0 <= i < currentTiles.Length :: AtOrigin(o, old(currentTiles[i]))
  {
    topLeftSet := false;
    for i := 0 to currentTiles.Length
      invariant forall j | 0 <= j < i :: currentTiles[j] == Cornered(o, old(currentTiles[j]))
      invariant forall j | i <= j < currentTiles.Length :: currentTiles[j] == old(currentTiles[j])
      invariant topLeftSet <==> exists j | 0 <= j < i :: AtOrigin(o, old(currentTiles[j]))
    {
      var tile := currentTiles[i];
      if tile.y == o.YTiles() && tile.x == o.XTiles() {
        currentTiles[i] := tile.(x := o.XTiles(), y := o.YTiles(), srcx := 2);
        topLeftSet := true;
      }
    }
  }

  /** Grass Top: the corner pieces of the tiles already drawn, or its own
   *  top-left block, then the rest of the top edge, a block at a time. */
  method GrassTopTiles(o: MapObject, currentTiles: array<Tile>) returns (list: seq<Tile>)
    modifies currentTiles
    ensures forall i | 0 <= i < currentTiles.Length :: currentTiles[i] == Cornered(o, old(currentTiles[i]))
    ensures var corner := exists i | 0 <= i < currentTiles.Length :: AtOrigin(o, old(currentTiles[i]));
      |list| == (if corner then 2 else 4) + 4 * Max0(o.WidthBlocks() - 1) &&
      (corner <==> forall t | t in list :: !AtOrigin(o, t))
  {
    var topLeftSet := MarkCorner(o, currentTiles);
    list := [];
    if !topLeftSet {
      list := list + [BlankTile.(x := o.XTiles(), y := o.YTiles(), srcx := 4)];
      list := list + [BlankTile.(x := o.XTiles(), y := o.YTiles() + 1, srcx := 1)];
    }
    list := list + [BlankTile.(x := o.XTiles() + 1, y := o.YTiles(), srcx := 3)];
    list := list + [BlankTile.(x := o.XTiles() + 1, y := o.YTiles() + 1, srcx := 1)];
    ghost var start := |list|;
    var x := o.XTiles() + TilesPerBlock;
    ghost var k: nat := 0;
    while x < o.RightTiles()
      invariant x == o.XTiles() + TilesPerBlock + TilesPerBlock * k && k <= Max0(o.WidthBlocks() - 1)
      invariant |list| == start + 4 * k
      invariant topLeftSet ==> forall t | t in list :: !AtOrigin(o, t)
      invariant !topLeftSet ==> AtOrigin(o, list[0])
    {
      list := list + [BlankTile.(x := x, y := o.YTiles(), srcx := 4), BlankTile.(x := x + 1, y := o.YTiles(), srcx := 3),
                      BlankTile.(x := x, y := o.YTiles() + 1, srcx := 1), BlankTile.(x := x + 1, y := o.YTiles() + 1, srcx := 1)];
      x := x + TilesPerBlock;
      k := k + 1;
    }
  }

  /** Grass Left: as Grass Top, down the left edge. */
  method GrassLeftTiles(o: MapObject, currentTiles: array<Tile>) returns (list: seq<Tile>)
    modifies currentTiles
    ensures forall i | 0 <= i < currentTiles.Length :: currentTiles[i] == Cornered(o, old(currentTiles[i]))
    ensures var corner := exists i | 0 <= i < currentTiles.Length :: AtOrigin(o, old(currentTiles[i]));
      |list| == (if corner then 2 else 4) + 4 * Max0(o.HeightBlocks() - 1) &&
      (corner <==> forall t | t in list :: !AtOrigin(o, t))
  {
    var topLeftSet := MarkCorner(o, currentTiles);
    list := [];
    if !topLeftSet {
      list := list + [BlankTile.(x := o.XTiles(), y := o.YTiles(), srcx := 8)];
      list := list + [BlankTile.(x := o.XTiles() + 1, y := o.YTiles(), srcx := 1)];
    }
    list := list + [BlankTile.(x := o.XTiles(), y := o.YTiles() + 1, srcx := 6)];
    list := list + [BlankTile.(x := o.XTiles() + 1, y := o.YTiles() + 1, srcx := 1)];
    ghost var start := |list|;
    var y := o.YTiles() + TilesPerBlock;
    ghost var k: nat := 0;
    while y < o.BottomTiles()
      invariant y == o.YTiles() + TilesPerBlock + TilesPerBlock * k && k <= Max0(o.HeightBlocks() - 1)
      invariant |list| == start + 4 * k
      invariant topLeftSet ==> forall t | t in list :: !AtOrigin(o, t)
      invariant !topLeftSet ==> AtOrigin(o, list[0])
    {
      list := list + [BlankTile.(x := o.XTiles(), y := y, srcx := 8), BlankTile.(x := o.XTiles(), y := y + 1, srcx := 6),
                      BlankTile.(x := o.XTiles() + 1, y := y, srcx := 1), BlankTile.(x := o.XTiles() + 1, y := y + 1, srcx := 1)];
      y := y + TilesPerBlock;
      k := k + 1;
    }
  }
}
