/** The editor's save file (src/renderer/src/components/Editor.tsx:46-104):
 *  `generateExportData` writes the palette list, the three graphics entries
 *  in key order and the levels into one buffer, and `onImport` reads them
 *  back in the same order, filling the level list up to the level count. */
module Editor {
  import opened Wrappers
  import opened Bytes
  import opened Text
  import opened Levels
  import opened LevelFile
  import Palettes
  import Graphics
  import LevelData
  import Circles

  // ---------------------------------------------------------------- export

  /** The graphics entries' `encode`s one after another, in key order:
   *  blocks, overworld, sprites. */
  function GraphicsBlocks(sheets: seq<Graphics.Sheet>): Result<seq<ByteBlock>>
  {
    if sheets == [] then Ok([])
    else match Graphics.EncodeSheet(sheets[0])
      case Err(e) => Err(e)
      case Ok(first) => Then(first, GraphicsBlocks(sheets[1..]))
  }

  /** The save data: the palette list's blocks, each graphics entry's, then
   *  `encodeLevels`; the first part that throws is the result. */
  function ExportBlocks(codes: map<Sym, seq<bit>>, upper: char -> char, levels: seq<Level>,
                        palettes: Palettes.PaletteList, graphics: seq<Graphics.Sheet>): Result<seq<ByteBlock>>
  {
    match palettes.Encode(codes, upper)
    case Err(e) => Err(e)
    case Ok(p) =>
      match GraphicsBlocks(graphics)
      case Err(e) => Err(e)
      case Ok(g) => Then(p + g, LevelsBlocks(codes, upper, levels))
  }

  /** The bytes of the DataView `generateExportData` returns. */
  function ExportData(codes: map<Sym, seq<bit>>, upper: char -> char, levels: seq<Level>,
                      palettes: Palettes.PaletteList, graphics: seq<Graphics.Sheet>): (r: Result<seq<byte>>)
    ensures r.Ok? <==> ExportBlocks(codes, upper, levels, palettes, graphics).Ok?
    ensures r.Err? ==> r.error == ExportBlocks(codes, upper, levels, palettes, graphics).error
    ensures r.Ok? ==> |r.value| == TotalSize(ExportBlocks(codes, upper, levels, palettes, graphics).value)
  {
    match ExportBlocks(codes, upper, levels, palettes, graphics)
    case Err(e) => Err(e)
    case Ok(blocks) => SerializeAllLength(blocks); Ok(SerializeAll(blocks))
  }

  lemma {:induction false} GraphicsFrom(sheets: seq<Graphics.Sheet>, k: nat)
    requires k < |sheets|
    ensures GraphicsBlocks(sheets[k..]) ==
      var first := Graphics.EncodeSheet(sheets[k]);
      if first.Err? then Err(first.error) else Then(first.value, GraphicsBlocks(sheets[k + 1..]))
  {
    assert sheets[k..][0] == sheets[k] && sheets[k..][1..] == sheets[k + 1..];
  }

  /** `generateExportData`: the save data gathered part by part, then
   *  written into a buffer of its total size at a running offset. */
  method GenerateExportData(codes: map<Sym, seq<bit>>, upper: char -> char, levels: seq<Level>,
                            palettes: Palettes.PaletteList, graphics: seq<Graphics.Sheet>)
    returns (r: Result<seq<byte>>)
    ensures r == ExportData(codes, upper, levels, palettes, graphics)
    ensures r.Ok? ==> |r.value| == TotalSize(ExportBlocks(codes, upper, levels, palettes, graphics).value)
  {
    var saveData := palettes.Encode(codes, upper);
    if saveData.Err? {
      return Err(saveData.error);
    }
    var blocks := saveData.value;
    assert graphics[0..] == graphics;
    for k := 0 to |graphics|
      invariant Then(blocks, GraphicsBlocks(graphics[k..])) == Then(saveData.value, GraphicsBlocks(graphics))
    {
      var entry := Graphics.EncodeSheet(graphics[k]);
      GraphicsFrom(graphics, k);
      if entry.Err? {
        return Err(entry.error);
      }
      ThenThen(blocks, entry.value, GraphicsBlocks(graphics[k + 1..]));
      blocks := blocks + entry.value;
    }
    assert GraphicsBlocks(graphics[|graphics|..]) == Ok([]) by {
      assert graphics[|graphics|..] == [];
    }
    assert blocks + [] == blocks;
    ExportAfterGraphics(codes, upper, levels, palettes, graphics, saveData.value, blocks);
    var levelBlocks := EncodeLevels(codes, upper, levels);
    if levelBlocks.Err? {
      return Err(levelBlocks.error);
    }
    var bytes := WriteBlocks(blocks + levelBlocks.value);
    return Ok(bytes);
  }

  /** Once the palette list and the graphics have given their blocks, the
   *  export is those blocks followed by the levels'. */
  lemma {:induction false} ExportAfterGraphics(codes: map<Sym, seq<bit>>, upper: char -> char, levels: seq<Level>,
                            palettes: Palettes.PaletteList, graphics: seq<Graphics.Sheet>,
                            p: seq<ByteBlock>, blocks: seq<ByteBlock>)
    requires palettes.Encode(codes, upper) == Ok(p)
    requires Then(p, GraphicsBlocks(graphics)) == Ok(blocks)
    ensures ExportBlocks(codes, upper, levels, palettes, graphics) == Then(blocks, LevelsBlocks(codes, upper, levels))
  {
  }

  // ---------------------------------------------------------------- import

  /** What `onImport` hands the editor's state. */
  datatype Imported = Imported(palettes: Palettes.PaletteList, graphics: seq<Graphics.Sheet>, levels: seq<Level>)

  /** Every level `loadLevelFromData` takes uses at least one byte. */
  lemma {:induction false} LoadShrinks(root: Trie, data: seq<byte>)
    requires LoadLevelFromData(root, data).Ok?
    ensures |LoadLevelFromData(root, data).value.remainingBytes| < |data|
  {
    var nameData := DecodeText(root, data).value;
    var rem := nameData.remaining;
    var goalId := if |rem| == 0 then 0 else rem[0];
    var fields := Goals.Templates[goalId].exportData;
    var size := LevelData.FieldsSize(fields);
  }

  /** The level loop of `onImport`: while bytes remain, one more level off
   *  the front; a level that cannot be read throws. */
  function ReadLevels(root: Trie, acc: seq<Level>, data: seq<byte>): (r: Result<seq<Level>>)
    ensures |data| == 0 ==> r == Ok(acc)
    ensures r.Ok? ==> |r.value| >= |acc| && r.value[..|acc|] == acc
    decreases |data|
  {
    if |data| == 0 then Ok(acc)
    else match LoadLevelFromData(root, data)
      case Err(e) => Err(e)
      case Ok(loaded) =>
        LoadShrinks(root, data);
        var more := acc + [loaded.level];
        var r := ReadLevels(root, more, loaded.remainingBytes);
        assert r.Ok? ==> r.value[..|acc|] == more[..|acc|] == acc by {
          if r.Ok? {
            assert r.value[..|acc|] == r.value[..|more|][..|acc|];
          }
        }
        r
  }

  /** The level list filled with `createLevel()` up to the level count; a
   *  longer list is kept whole. */
  function Padded(levels: seq<Level>): (r: seq<Level>)
    ensures |r| == if |levels| >= Circles.LevelCount then |levels| else Circles.LevelCount
    ensures r[..|levels|] == levels
    ensures forall i | |levels| <= i < |r| :: r[i] == CreateLevel(None, None, None)
  {
    if |levels| >= Circles.LevelCount then levels
    else levels + seq(Circles.LevelCount - |levels|, _ => CreateLevel(None, None, None))
  }

  /** `onImport`: the palettes, then the graphics from the bytes after them,
   *  then the levels from the bytes after those. */
  function ImportData(root: Trie, data: seq<byte>): (r: Result<Imported>)
    ensures Palettes.DecodedPaletteData(root, data).Err? ==> r == Err(Palettes.DecodedPaletteData(root, data).error)
    ensures r.Ok? ==> r.value.palettes == Palettes.DecodedPaletteData(root, data).value.palettes
    ensures r.Ok? ==> |r.value.levels| >= Circles.LevelCount
  {
    match Palettes.DecodedPaletteData(root, data)
    case Err(e) => Err(e)
    case Ok(paletteData) =>
      match Graphics.ReadEntries([], paletteData.remainingBytes, Graphics.EntryCount)
      case Err(e) => Err(e)
      case Ok((graphics, rest)) =>
        match ReadLevels(root, [], rest)
        case Err(e) => Err(e)
        case Ok(levels) => Ok(Imported(paletteData.palettes, graphics, Padded(levels)))
  }

  /** `onImport`, calling the loaders in turn and growing the level list in
   *  place. */
  method OnImport(root: Trie, data: seq<byte>) returns (r: Result<Imported>)
    ensures r == ImportData(root, data)
  {
    var paletteData := Palettes.DecodePaletteData(root, data);
    if paletteData.Err? {
      return Err(paletteData.error);
    }
    var graphicsData := Graphics.LoadGraphicsFromData(paletteData.value.remainingBytes);
    if graphicsData.Err? {
      return Err(graphicsData.error);
    }
    var levels := LoadLevels(root, graphicsData.value.1);
    if levels.Err? {
      return Err(levels.error);
    }
    var padded := PadLevels(levels.value);
    return Ok(Imported(paletteData.value.palettes, graphicsData.value.0, padded));
  }

  /** The level loop of `onImport`: levels off the front of the bytes until
   *  none remain. */
  method LoadLevels(root: Trie, data: seq<byte>) returns (r: Result<seq<Level>>)
    ensures r == ReadLevels(root, [], data)
  {
    var levels: seq<Level> := [];
    var remainingBytes := data;
    while |remainingBytes| > 0
      invariant ReadLevels(root, levels, remainingBytes) == ReadLevels(root, [], data)
      decreases |remainingBytes|
    {
      var levelData := LoadLevelFromData(root, remainingBytes);
      if levelData.Err? {
        return Err(levelData.error);
      }
      LoadShrinks(root, remainingBytes);
      levels := levels + [levelData.value.level];
      remainingBytes := levelData.value.remainingBytes;
    }
    return Ok(levels);
  }

  /** The padding loop of `onImport`: `createLevel()` pushed until the list
   *  holds the level count. */
  method PadLevels(read: seq<Level>) returns (levels: seq<Level>)
    ensures levels == Padded(read)
  {
    levels := read;
    while |levels| < Circles.LevelCount
      invariant |read| <= |levels| && levels[..|read|] == read
      invariant |read| < Circles.LevelCount ==> |levels| <= Circles.LevelCount
      invariant |read| >= Circles.LevelCount ==> levels == read
      invariant forall i | |read| <= i < |levels| :: levels[i] == CreateLevel(None, None, None)
      decreases Circles.LevelCount - |levels|
    {
      levels := levels + [CreateLevel(None, None, None)];
    }
  }

  // ---------------------------------------------------------------- round trip

  /** A level as it comes back from the save file: its name upper-cased. */
  function LoadedLevel(level: Level, upper: char -> char): Level
  {
    Level(Upper(upper, level.name), level.goal, level.maps)
  }

  function LoadedLevels(levels: seq<Level>, upper: char -> char): (r: seq<Level>)
    ensures |r| == |levels|
  {
    if levels == [] then [] else [LoadedLevel(levels[0], upper)] + LoadedLevels(levels[1..], upper)
  }

  /** A level the save file carries: its name has codes, its goal's options
   *  are its exported fields in canonical form, and it has fewer than 256
   *  maps that each split alone. */
  predicate Storable(codes: map<Sym, seq<bit>>, upper: char -> char, level: Level)
  {
    LevelBlocks(codes, upper, level).Ok? && Exportable(level.goal) &&
    |level.maps| < 256 && forall k | 0 <= k < |level.maps| :: LevelData.OneMap(level.maps[k])
  }

  /** The bytes of stored levels read back level by level. */
  lemma {:induction false} LevelsRoundTrip(root: Trie, codes: map<Sym, seq<bit>>, upper: char -> char,
                                           acc: seq<Level>, levels: seq<Level>)
    requires root.Branch? && CodesWalk(root, codes)
    requires forall i | 0 <= i < |levels| :: Storable(codes, upper, levels[i])
    ensures LevelsBlocks(codes, upper, levels).Ok?
    ensures ReadLevels(root, acc, SerializeAll(LevelsBlocks(codes, upper, levels).value)) ==
      Ok(acc + LoadedLevels(levels, upper))
    decreases |levels|
  {
    if levels == [] {
      assert acc + [] == acc;
    } else {
      LevelsRoundTrip(root, codes, upper, acc + [LoadedLevel(levels[0], upper)], levels[1..]);
      LevelsStep(root, codes, upper, acc, levels);
    }
  }

  lemma {:induction false} LevelsStep(root: Trie, codes: map<Sym, seq<bit>>, upper: char -> char, acc: seq<Level>, levels: seq<Level>)
    requires root.Branch? && CodesWalk(root, codes) && levels != []
    requires Storable(codes, upper, levels[0])
    requires LevelsBlocks(codes, upper, levels[1..]).Ok?
    requires ReadLevels(root, acc + [LoadedLevel(levels[0], upper)],
                        SerializeAll(LevelsBlocks(codes, upper, levels[1..]).value)) ==
      Ok(acc + [LoadedLevel(levels[0], upper)] + LoadedLevels(levels[1..], upper))
    ensures LevelsBlocks(codes, upper, levels).Ok?
    ensures ReadLevels(root, acc, SerializeAll(LevelsBlocks(codes, upper, levels).value)) ==
      Ok(acc + LoadedLevels(levels, upper))
  {
    var first := LevelBlocks(codes, upper, levels[0]).value;
    var more := LevelsBlocks(codes, upper, levels[1..]).value;
    var rest := SerializeAll(more);
    LoadEncodedLevel(root, codes, upper, levels[0], rest);
    assert LevelsBlocks(codes, upper, levels) == Ok(first + more);
    SerializeAllAppend(first, more);
    var data := SerializeAll(first) + rest;
    assert |data| > 0;
    assert ReadLevels(root, acc, data) == ReadLevels(root, acc + [LoadedLevel(levels[0], upper)], rest);
    Associate(acc, [LoadedLevel(levels[0], upper)], LoadedLevels(levels[1..], upper), LoadedLevels(levels, upper));
  }

  /** The three graphics entries' bytes one after another. */
  lemma {:induction false} ThreeSheets(a: Graphics.Sheet, b: Graphics.Sheet, c: Graphics.Sheet)
    requires Graphics.EncodeSheet(a).Ok? && Graphics.EncodeSheet(b).Ok? && Graphics.EncodeSheet(c).Ok?
    ensures GraphicsBlocks([a, b, c]).Ok?
    ensures SerializeAll(GraphicsBlocks([a, b, c]).value) ==
      SerializeAll(Graphics.EncodeSheet(a).value) + SerializeAll(Graphics.EncodeSheet(b).value)
      + SerializeAll(Graphics.EncodeSheet(c).value)
  {
    var x, y, z := Graphics.EncodeSheet(a).value, Graphics.EncodeSheet(b).value, Graphics.EncodeSheet(c).value;
    assert [a, b, c][1..] == [b, c] && [b, c][1..] == [c] && [c][1..] == [];
    assert GraphicsBlocks([c]) == Ok(z + []);
    assert z + [] == z;
    assert GraphicsBlocks([a, b, c]) == Ok(x + (y + z));
    SerializeAllAppend(x, y + z);
    SerializeAllAppend(y, z);
  }

  /** The export's bytes: the palette list's, the graphics', then the
   *  levels'. */
  lemma {:induction false} ExportParts(codes: map<Sym, seq<bit>>, upper: char -> char, levels: seq<Level>,
                    palettes: Palettes.PaletteList, graphics: seq<Graphics.Sheet>)
    requires ExportBlocks(codes, upper, levels, palettes, graphics).Ok?
    ensures palettes.Encode(codes, upper).Ok? && GraphicsBlocks(graphics).Ok?
    ensures LevelsBlocks(codes, upper, levels).Ok?
    ensures ExportData(codes, upper, levels, palettes, graphics).value ==
      SerializeAll(palettes.Encode(codes, upper).value) +
      (SerializeAll(GraphicsBlocks(graphics).value) + SerializeAll(LevelsBlocks(codes, upper, levels).value))
  {
    var p, g := palettes.Encode(codes, upper).value, GraphicsBlocks(graphics).value;
    var l := LevelsBlocks(codes, upper, levels).value;
    SerializeAllAppend(p + g, l);
    AppendBytes(p, g, SerializeAll(l));
  }

  /** Importing an export of storable palettes, graphics and levels gives
   *  back the palettes as loaded (upper-cased names, high colours), the
   *  same graphics, and the levels with upper-cased names, padded with
   *  default levels up to the level count. */
  lemma {:induction false} ExportImportRoundTrip(root: Trie, codes: map<Sym, seq<bit>>, upper: char -> char, levels: seq<Level>,
                              palettes: Palettes.PaletteList, graphics: seq<Graphics.Sheet>)
    requires root.Branch? && CodesWalk(root, codes)
    requires |palettes.list| < 256 && forall i | 0 <= i < |palettes.list| :: Palettes.Storable(palettes.list[i], codes, upper)
    requires |graphics| == 3 && forall i | 0 <= i < 3 :: Graphics.Storable(graphics[i])
    requires forall i | 0 <= i < |levels| :: Storable(codes, upper, levels[i])
    ensures ExportData(codes, upper, levels, palettes, graphics).Ok?
    ensures ImportData(root, ExportData(codes, upper, levels, palettes, graphics).value) ==
      Ok(Imported(Palettes.PaletteList(Palettes.LoadedAll(palettes.list, upper)), graphics,
                  Padded(LoadedLevels(levels, upper))))
  {
    PartsRead(root, codes, upper, levels, palettes, graphics);
    ExportParts(codes, upper, levels, palettes, graphics);
    var levelBytes := SerializeAll(LevelsBlocks(codes, upper, levels).value);
    var sheetBytes := SerializeAll(GraphicsBlocks(graphics).value);
    var paletteBytes := SerializeAll(palettes.Encode(codes, upper).value);
    ImportOf(root, paletteBytes + (sheetBytes + levelBytes),
             Palettes.PaletteData(Palettes.PaletteList(Palettes.LoadedAll(palettes.list, upper)), sheetBytes + levelBytes),
             graphics, levelBytes, LoadedLevels(levels, upper));
  }

  /** Each of the export's three parts reads back off the front of what
   *  follows it. */
  lemma {:induction false} PartsRead(root: Trie, codes: map<Sym, seq<bit>>, upper: char -> char, levels: seq<Level>,
                  palettes: Palettes.PaletteList, graphics: seq<Graphics.Sheet>)
    requires root.Branch? && CodesWalk(root, codes)
    requires |palettes.list| < 256 && forall i | 0 <= i < |palettes.list| :: Palettes.Storable(palettes.list[i], codes, upper)
    requires |graphics| == 3 && forall i | 0 <= i < 3 :: Graphics.Storable(graphics[i])
    requires forall i | 0 <= i < |levels| :: Storable(codes, upper, levels[i])
    ensures palettes.Encode(codes, upper).Ok? && GraphicsBlocks(graphics).Ok? && LevelsBlocks(codes, upper, levels).Ok?
    ensures ExportBlocks(codes, upper, levels, palettes, graphics).Ok?
    ensures ReadLevels(root, [], SerializeAll(LevelsBlocks(codes, upper, levels).value)) ==
      Ok(LoadedLevels(levels, upper))
    ensures Graphics.ReadEntries([], SerializeAll(GraphicsBlocks(graphics).value) +
                                     SerializeAll(LevelsBlocks(codes, upper, levels).value), Graphics.EntryCount) ==
      Ok((graphics, SerializeAll(LevelsBlocks(codes, upper, levels).value)))
    ensures Palettes.DecodedPaletteData(root, SerializeAll(palettes.Encode(codes, upper).value) +
                                              (SerializeAll(GraphicsBlocks(graphics).value) +
                                               SerializeAll(LevelsBlocks(codes, upper, levels).value))) ==
      Ok(Palettes.PaletteData(Palettes.PaletteList(Palettes.LoadedAll(palettes.list, upper)),
                              SerializeAll(GraphicsBlocks(graphics).value) +
                              SerializeAll(LevelsBlocks(codes, upper, levels).value)))
  {
    LevelsRoundTrip(root, codes, upper, [], levels);
    assert [] + LoadedLevels(levels, upper) == LoadedLevels(levels, upper);
    var levelBytes := SerializeAll(LevelsBlocks(codes, upper, levels).value);
    GraphicsRead(graphics, levelBytes);
    var sheetBytes := SerializeAll(GraphicsBlocks(graphics).value);
    Palettes.PaletteListRoundTrip(root, codes, upper, palettes, sheetBytes + levelBytes);
  }

  /** The three stored graphics entries read back off the front of their
   *  bytes. */
  lemma {:induction false} GraphicsRead(graphics: seq<Graphics.Sheet>, rest: seq<byte>)
    requires |graphics| == 3 && forall i | 0 <= i < 3 :: Graphics.Storable(graphics[i])
    ensures GraphicsBlocks(graphics).Ok?
    ensures Graphics.ReadEntries([], SerializeAll(GraphicsBlocks(graphics).value) + rest, Graphics.EntryCount) ==
      Ok((graphics, rest))
  {
    var a, b, c := graphics[0], graphics[1], graphics[2];
    ThreeOf(graphics);
    Graphics.LoadGraphicsRoundTrip(a, b, c, rest);
    ThreeSheets(a, b, c);
  }

  lemma {:induction false} ThreeOf<T>(s: seq<T>)
    requires |s| == 3
    ensures s == [s[0], s[1], s[2]]
  {
  }

  /** `onImport` of data whose three parts each read as given. */
  lemma {:induction false} ImportOf(root: Trie, data: seq<byte>, paletteData: Palettes.PaletteData, graphics: seq<Graphics.Sheet>,
                 rest: seq<byte>, levels: seq<Level>)
    requires Palettes.DecodedPaletteData(root, data) == Ok(paletteData)
    requires Graphics.ReadEntries([], paletteData.remainingBytes, Graphics.EntryCount) == Ok((graphics, rest))
    requires ReadLevels(root, [], rest) == Ok(levels)
    ensures ImportData(root, data) == Ok(Imported(paletteData.palettes, graphics, Padded(levels)))
  {
  }
}
