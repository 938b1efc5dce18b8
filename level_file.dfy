/** Whole levels (src/common/levels.ts:85-104, 332-389): a level's name,
 *  goal and raw map buffers, `encodeLevels` writing them as blocks and
 *  `loadLevelFromData` reading one level back from the front of the
 *  save file's bytes. */
module LevelFile {
  import opened Wrappers
  import opened Bytes
  import opened Text
  import opened Goals
  import opened Levels
  import opened LevelData
  import opened JsNumber

  // ---------------------------------------------------------------- levels

  /** A level as `createLevel` returns it: its maps are the raw buffers
   *  `generateDataBytes` writes. */
  datatype Level = Level(name: string, goal: Goal, maps: seq<seq<byte>>)
  {
    /** `updateGoal`: a new level with only the goal replaced. */
    function UpdateGoal(newGoal: Goal): (r: Level)
      ensures r.goal == newGoal && r.name == name && r.maps == maps
    {
      this.(goal := newGoal)
    }

    /** `updateMaps`: a new level with only the maps replaced. */
    function UpdateMaps(newMaps: seq<seq<byte>>): (r: Level)
      ensures r.maps == newMaps && r.name == name && r.goal == goal
    {
      this.(maps := newMaps)
    }

    /** `updateName`: a new level with only the name replaced. */
    function UpdateName(newName: string): (r: Level)
      ensures r.name == newName && r.goal == goal && r.maps == maps
    {
      this.(name := newName)
    }
  }

  const DefaultName: string := "Unnamed Level"

  /** `createLevel`: an argument left out takes its default, "Unnamed
   *  Level", goal 0 with its default options, or no maps. */
  function CreateLevel(name: Option<string>, goal: Option<Goal>, maps: Option<seq<seq<byte>>>): (r: Level)
    ensures r.name == (if name.Some? then name.value else DefaultName)
    ensures r.goal == (if goal.Some? then goal.value else CreateGoal(0, None))
    ensures r.maps == (if maps.Some? then maps.value else [])
  {
    Level(if name.Some? then name.value else DefaultName,
          if goal.Some? then goal.value else CreateGoal(0, None),
          if maps.Some? then maps.value else [])
  }

  /** The default level reaches the Keycane, which takes no options, and has
   *  no maps. */
  lemma {:induction false} DefaultLevel()
    ensures CreateLevel(None, None, None) == Level("Unnamed Level", Goal(0, map[]), [])
  {
  }

  // ---------------------------------------------------------------- parseInt

  /** The value DataView's setter stores for `parseInt(s)`: NaN becomes 0;
   *  the setter keeps the value's low bytes (see `Serialize`). */
  function StoredValue(s: string): int
  {
    match ParseInt(s)
    case None => 0
    case Some(v) => v
  }

  // ---------------------------------------------------------------- encoding

  /** The goal's exported fields, each its option's value parsed, or the
   *  error `getOption` throws for the first option the goal lacks. */
  function GoalFieldBlocks(fields: seq<ExportField>, goal: Goal): (r: Result<seq<ByteBlock>>)
    ensures r.Ok? <==> forall k | 0 <= k < |fields| :: fields[k].key in goal.options
    ensures r.Ok? ==> |r.value| == |fields| && TotalSize(r.value) == FieldsSize(fields)
    ensures r.Ok? ==> forall k | 0 <= k < |fields| ::
      r.value[k] == ByteBlock(fields[k].kind, StoredValue(goal.options[fields[k].key]))
  {
    if fields == [] then Ok([])
    else
      assert forall k | 1 <= k < |fields| :: fields[k] == fields[1..][k - 1];
      match goal.GetOption(fields[0].key)
      case Err(e) => Err(e)
      case Ok(v) =>
        var rest := GoalFieldBlocks(fields[1..], goal);
        match rest
        case Err(e) => Err(e)
        case Ok(bs) =>
          var r := [ByteBlock(fields[0].kind, StoredValue(v))] + bs;
          assert r[1..] == bs;
          Ok(r)
  }

  /** The goal's blocks: its id as a Uint8, then its template's exported
   *  fields; an id outside the goal table makes the template lookup
   *  throw. */
  function GoalBlocks(goal: Goal): (r: Result<seq<ByteBlock>>)
    ensures !(0 <= goal.id < |Templates|) ==> r == Err(ExportDataMissing)
    ensures r.Ok? <==> 0 <= goal.id < |Templates| && GoalFieldBlocks(Templates[goal.id].exportData, goal).Ok?
    ensures r.Ok? ==> r.value == [ByteBlock(Uint8, goal.id)] + GoalFieldBlocks(Templates[goal.id].exportData, goal).value
  {
    if !(0 <= goal.id < |Templates|) then Err(ExportDataMissing)
    else Then([ByteBlock(Uint8, goal.id)], GoalFieldBlocks(Templates[goal.id].exportData, goal))
  }

  /** One level of `encodeLevels`: the encoded name, the goal, the map
   *  count as a Uint8, then every byte of every map as a Uint8. */
  function LevelBlocks(codes: map<Sym, seq<bit>>, upper: char -> char, level: Level): Result<seq<ByteBlock>>
  {
    match EncodedBlocks(codes, upper, level.name)
    case Err(e) => Err(e)
    case Ok(name) =>
      match GoalBlocks(level.goal)
      case Err(e) => Err(e)
      case Ok(goal) => Ok(name + goal + [ByteBlock(Uint8, |level.maps|)] + Uint8Blocks(Join(level.maps)))
  }

  /** `encodeLevels`: the levels' blocks one after another, or the first
   *  error. */
  function LevelsBlocks(codes: map<Sym, seq<bit>>, upper: char -> char, levels: seq<Level>): Result<seq<ByteBlock>>
  {
    if levels == [] then Ok([])
    else match LevelBlocks(codes, upper, levels[0])
      case Err(e) => Err(e)
      case Ok(first) => Then(first, LevelsBlocks(codes, upper, levels[1..]))
  }

  /** `encodeLevels(levels)`: each level's blocks pushed in turn. */
  method EncodeLevels(codes: map<Sym, seq<bit>>, upper: char -> char, levels: seq<Level>) returns (r: Result<seq<ByteBlock>>)
    ensures r == LevelsBlocks(codes, upper, levels)
  {
    var data: seq<ByteBlock> := [];
    assert levels[0..] == levels;
    ThenNil(LevelsBlocks(codes, upper, levels));
    for k := 0 to |levels|
      invariant LevelsBlocks(codes, upper, levels) == Then(data, LevelsBlocks(codes, upper, levels[k..]))
    {
      assert levels[k..][0] == levels[k] && levels[k..][1..] == levels[k + 1..];
      var blocks := EncodeLevel(codes, upper, levels[k]);
      if blocks.Err? {
        return Err(blocks.error);
      }
      ThenThen(data, blocks.value, LevelsBlocks(codes, upper, levels[k + 1..]));
      data := data + blocks.value;
    }
    assert levels[|levels|..] == [];
    assert data + [] == data;
    return Ok(data);
  }

  /** One level of `encodeLevels`: the name's blocks, the goal's, the map
   *  count and the maps' bytes, pushed in that order. */
  method EncodeLevel(codes: map<Sym, seq<bit>>, upper: char -> char, level: Level) returns (r: Result<seq<ByteBlock>>)
    ensures r == LevelBlocks(codes, upper, level)
  {
    var name := EncodeText(codes, upper, level.name);
    if name.Err? {
      return Err(name.error);
    }
    var goal := EncodeGoal(level.goal);
    if goal.Err? {
      return Err(goal.error);
    }
    var maps := EncodeMaps(level.maps);
    return Ok(name.value + goal.value + [ByteBlock(Uint8, |level.maps|)] + maps);
  }

  /** The goal's part of `encodeLevels`: its id, then each exported field's
   *  option parsed, the first missing option throwing. */
  method EncodeGoal(goal: Goal) returns (r: Result<seq<ByteBlock>>)
    ensures r == GoalBlocks(goal)
  {
    var data := [ByteBlock(Uint8, goal.id)];
    if !(0 <= goal.id < |Templates|) {
      return Err(ExportDataMissing);
    }
    var fields := Templates[goal.id].exportData;
    for k := 0 to |fields|
      invariant forall j | 0 <= j < k :: fields[j].key in goal.options
      invariant data == [ByteBlock(Uint8, goal.id)] + FieldsPushed(fields, goal, k)
    {
      var value := goal.GetOption(fields[k].key);
      if value.Err? {
        FirstMissing(fields, goal, k);
        return Err(value.error);
      }
      assert FieldsPushed(fields, goal, k + 1) ==
        FieldsPushed(fields, goal, k) + [ByteBlock(fields[k].kind, StoredValue(value.value))];
      data := data + [ByteBlock(fields[k].kind, StoredValue(value.value))];
    }
    assert GoalFieldBlocks(fields, goal).value == FieldsPushed(fields, goal, |fields|);
    return Ok(data);
  }

  /** Every byte of every map, as a Uint8 block, map after map. */
  method EncodeMaps(maps: seq<seq<byte>>) returns (data: seq<ByteBlock>)
    ensures data == Uint8Blocks(Join(maps))
  {
    data := [];
    for k := 0 to |maps|
      invariant data == Uint8Blocks(Join(maps[..k]))
    {
      JoinSnoc(maps, k);
      Uint8BlocksAppend(Join(maps[..k]), maps[k]);
      data := data + Uint8Blocks(maps[k]);
    }
    assert maps[..|maps|] == maps;
  }

  /** The first option missing from the goal is the one `getOption`
   *  complains about. */
  lemma {:induction false} FirstMissing(fields: seq<ExportField>, goal: Goal, k: nat)
    requires k < |fields| && fields[k].key !in goal.options
    requires forall j | 0 <= j < k :: fields[j].key in goal.options
    ensures GoalFieldBlocks(fields, goal) == Err("Invalid goal option: " + fields[k].key)
  {
    if k > 0 {
      assert forall j | 0 <= j < k - 1 :: fields[1..][j] == fields[j + 1];
      FirstMissing(fields[1..], goal, k - 1);
    }
  }

  /** The blocks of the first `k` exported fields. */
  function FieldsPushed(fields: seq<ExportField>, goal: Goal, k: nat): seq<ByteBlock>
    requires k <= |fields| && forall j | 0 <= j < k :: fields[j].key in goal.options
  {
    seq(k, j requires 0 <= j < k => ByteBlock(fields[j].kind, StoredValue(goal.options[fields[j].key])))
  }

  lemma {:induction false} JoinSnoc(maps: seq<seq<byte>>, k: nat)
    requires k < |maps|
    ensures Join(maps[..k + 1]) == Join(maps[..k]) + maps[k]
  {
    if k == 0 {
      assert maps[..1] == [maps[0]] && maps[..1][1..] == [];
    } else {
      var tail := maps[1..];
      JoinSnoc(tail, k - 1);
      assert maps[..k + 1][1..] == tail[..k];
      assert maps[..k][1..] == tail[..k - 1];
      assert maps[..k + 1][0] == maps[..k][0] == maps[0];
      assert tail[k - 1] == maps[k];
    }
  }

  lemma {:induction false} Uint8BlocksAppend(a: seq<byte>, b: seq<byte>)
    ensures Uint8Blocks(a + b) == Uint8Blocks(a) + Uint8Blocks(b)
  {
    if a != [] {
      assert (a + b)[1..] == a[1..] + b;
      Uint8BlocksAppend(a[1..], b);
    } else {
      assert a + b == b;
    }
  }

  // ---------------------------------------------------------------- loading

  /** What `loadLevelFromData` returns. */
  datatype LoadedLevel = LoadedLevel(level: Level, remainingBytes: seq<byte>)

  /** The RangeError of an `ArrayBuffer` of negative length. */
  const InvalidLength := "Invalid array buffer length"

  /** A goal field's getter on its bytes. */
  function FieldValue(kind: DataType, d: seq<byte>): int
    requires Size(kind) <= |d|
  {
    ReadField(kind, d).value.0
  }

  /** The options `loadLevelFromData` collects: each exported field read at
   *  the running offset and written as its decimal string, a later field
   *  of the same key winning. */
  function GoalOptions(fields: seq<ExportField>, d: seq<byte>, acc: map<string, string>): map<string, string>
    requires FieldsSize(fields) <= |d|
  {
    if fields == [] then acc
    else
      var f := fields[0];
      GoalOptions(fields[1..], d[Size(f.kind)..], acc[f.key := IntString(FieldValue(f.kind, d))])
  }

  /** After the name, given the goal id the first byte names and that
   *  goal's exported fields: the goal's bytes, the map count, and the maps
   *  split from the bytes after it. */
  function LevelAfterName(name: string, goalId: int, fields: seq<ExportField>, rem: seq<byte>): (r: Result<LoadedLevel>)
    ensures |rem| < FieldsSize(fields) + 2 ==> r == Err(InvalidLength)
  {
    var size := FieldsSize(fields);
    if |rem| < size + 2 then Err(InvalidLength)
    else LevelWithMaps(name, CreateGoal(goalId, Some(GoalOptions(fields, rem[1..size + 1], map[]))), rem[size + 2..], rem[size + 1])
  }

  /** The level with its goal read: the maps split from the bytes after the
   *  map count `count`. */
  function LevelWithMaps(name: string, goal: Goal, body: seq<byte>, count: nat): Result<LoadedLevel>
  {
    match SplitBytes(body, count)
    case Err(e) => Err(e)
    case Ok(split) => Ok(LoadedLevel(Level(name, goal, split.maps), split.remainingBytes))
  }

  /** After the name: the goal id byte (0 when no byte is left), whose
   *  template must exist, then the rest. */
  function LevelAfterText(name: string, rem: seq<byte>): (r: Result<LoadedLevel>)
    ensures |rem| > 0 && rem[0] >= |Templates| ==> r == Err(ExportDataMissing)
  {
    var goalId := if |rem| == 0 then 0 else rem[0];
    if goalId >= |Templates| then Err(ExportDataMissing)
    else LevelAfterName(name, goalId, Templates[goalId].exportData, rem)
  }

  /** `loadLevelFromData(data)`: the name decoded from the front, then the
   *  goal and the maps. */
  function LoadLevelFromData(root: Trie, data: seq<byte>): (r: Result<LoadedLevel>)
    ensures data == [] ==> r == Err("No bytes to decode.")
  {
    match DecodeText(root, data)
    case Err(e) => Err(e)
    case Ok(nameData) => LevelAfterText(nameData.text, nameData.remaining)
  }

  // ---------------------------------------------------------------- round trip

  /** An option value `encodeLevels` writes and `loadLevelFromData` reads
   *  back unchanged: the decimal string of a number the field stores. */
  predicate Canonical(kind: DataType, s: string)
  {
    ParseInt(s).Some? && Fits(kind, ParseInt(s).value) && IntString(ParseInt(s).value) == s
  }

  function KeysOf(fields: seq<ExportField>): set<string>
  {
    set f | f in fields :: f.key
  }

  /** The goal's options for the given fields. */
  function Exported(goal: Goal, fields: seq<ExportField>): map<string, string>
  {
    map k | k in goal.options && k in KeysOf(fields) :: goal.options[k]
  }

  /** A goal whose options are exactly its template's exported fields, each
   *  a value the field stores. */
  predicate Exportable(goal: Goal)
  {
    0 <= goal.id < |Templates| && ExportsExactly(goal, Templates[goal.id].exportData)
  }

  predicate ExportsExactly(goal: Goal, fields: seq<ExportField>)
  {
    goal.options.Keys == KeysOf(fields) &&
    forall f | f in fields :: f.key in goal.options && Canonical(f.kind, goal.options[f.key])
  }

  /** The bytes of a goal's first field, then the rest. */
  lemma {:induction false} HeadBytes(fields: seq<ExportField>, goal: Goal)
    requires fields != [] && GoalFieldBlocks(fields, goal).Ok?
    ensures GoalFieldBlocks(fields[1..], goal).Ok?
    ensures fields[0].key in goal.options
    ensures SerializeAll(GoalFieldBlocks(fields, goal).value) ==
      Serialize(ByteBlock(fields[0].kind, StoredValue(goal.options[fields[0].key]))) +
      SerializeAll(GoalFieldBlocks(fields[1..], goal).value)
  {
    var bs := GoalFieldBlocks(fields, goal).value;
    assert bs == [bs[0]] + bs[1..];
  }

  /** Writing one option, then the later fields' options, over `acc`. */
  lemma {:induction false} MergeStep(acc: map<string, string>, goal: Goal, fields: seq<ExportField>)
    requires fields != [] && fields[0].key in goal.options
    ensures acc[fields[0].key := goal.options[fields[0].key]] + Exported(goal, fields[1..]) ==
      acc + Exported(goal, fields)
  {
    assert fields == [fields[0]] + fields[1..];
    assert KeysOf(fields) == {fields[0].key} + KeysOf(fields[1..]);
  }

  /** Reading the written fields of a goal collects its options for those
   *  fields over the ones collected before. */
  lemma {:induction false} GoalOptionsRead(fields: seq<ExportField>, goal: Goal, acc: map<string, string>)
    requires GoalFieldBlocks(fields, goal).Ok?
    requires forall f | f in fields :: f.key in goal.options && Canonical(f.kind, goal.options[f.key])
    ensures |SerializeAll(GoalFieldBlocks(fields, goal).value)| == FieldsSize(fields)
    ensures GoalOptions(fields, SerializeAll(GoalFieldBlocks(fields, goal).value), acc) ==
      acc + Exported(goal, fields)
  {
    var d := SerializeAll(GoalFieldBlocks(fields, goal).value);
    SerializeAllLength(GoalFieldBlocks(fields, goal).value);
    if fields == [] {
      assert Exported(goal, fields) == map[];
    } else {
      var f := fields[0];
      assert f in fields;
      var s := goal.options[f.key];
      var v := ParseInt(s).value;
      HeadBytes(fields, goal);
      var g := SerializeAll(GoalFieldBlocks(fields[1..], goal).value);
      ReadWrittenField(f.kind, v, g);
      assert FieldValue(f.kind, d) == v && d[Size(f.kind)..] == g;
      assert forall x | x in fields[1..] :: x in fields;
      GoalOptionsRead(fields[1..], goal, acc[f.key := s]);
      MergeStep(acc, goal, fields);
    }
  }

  /** Loading a level written by `encodeLevels`, followed by any bytes,
   *  gives back its upper-cased name, its goal and its maps, and leaves the
   *  following bytes, when the goal's options are its exported fields in
   *  canonical form and each map buffer splits alone. */
  lemma {:induction false} LoadEncodedLevel(root: Trie, codes: map<Sym, seq<bit>>, upper: char -> char, level: Level, rest: seq<byte>)
    requires root.Branch? && CodesWalk(root, codes)
    requires LevelBlocks(codes, upper, level).Ok? && Exportable(level.goal)
    requires |level.maps| < 256 && forall k | 0 <= k < |level.maps| :: OneMap(level.maps[k])
    ensures LoadLevelFromData(root, SerializeAll(LevelBlocks(codes, upper, level).value) + rest) ==
      Ok(LoadedLevel(Level(Upper(upper, level.name), level.goal, level.maps), rest))
  {
    var goal := level.goal;
    var fields := Templates[goal.id].exportData;
    var g := SerializeAll(GoalFieldBlocks(fields, goal).value);
    var n: byte := |level.maps|;
    var rem: seq<byte> := [goal.id as byte] + (g + ([n] + (Join(level.maps) + rest)));
    var enc := PackBits(EncodedBits(codes, upper, level.name).value);
    LevelBytes(codes, upper, level, rest);
    TailBytes(n, Join(level.maps), rest);
    DecodeEncoded(root, codes, upper, level.name, rem);
    GoalOptionsRead(fields, goal, map[]);
    ExportedAll(goal, fields);
    LoadBytes(root, Upper(upper, level.name), enc, goal, fields, level.maps, g, rest);
  }

  /** A goal's options are all exported when its keys are the fields'. */
  lemma {:induction false} ExportedAll(goal: Goal, fields: seq<ExportField>)
    requires goal.options.Keys == KeysOf(fields)
    ensures map[] + Exported(goal, fields) == goal.options
  {
  }

  /** Loading a level's bytes: the name's, then the goal id, the goal's
   *  fields, the map count and the maps. */
  lemma {:induction false} LoadBytes(root: Trie, name: string, enc: seq<byte>, goal: Goal, fields: seq<ExportField>,
                  maps: seq<seq<byte>>, g: seq<byte>, rest: seq<byte>)
    requires 0 <= goal.id < |Templates| && Templates[goal.id].exportData == fields
    requires |g| == FieldsSize(fields) && GoalOptions(fields, g, map[]) == goal.options
    requires |maps| < 256 && forall k | 0 <= k < |maps| :: OneMap(maps[k])
    requires DecodeText(root, enc + ([goal.id as byte] + (g + ([|maps|] + (Join(maps) + rest))))) ==
      Ok(DecodedText(name, |enc|, [goal.id as byte] + (g + ([|maps|] + (Join(maps) + rest)))))
    ensures LoadLevelFromData(root, enc + ([goal.id as byte] + (g + ([|maps|] + (Join(maps) + rest))))) ==
      Ok(LoadedLevel(Level(name, goal, maps), rest))
  {
    var rem: seq<byte> := [goal.id as byte] + (g + ([|maps|] + (Join(maps) + rest)));
    ConsParts(goal.id, rem[1..]);
    LoadParts(root, name, enc, rem);
    ReadBody(name, fields, goal, maps, g, rem, rest);
  }

  /** The count and the maps' bytes, written as Uint8 blocks. */
  lemma {:induction false} TailBytes(n: byte, body: seq<byte>, rest: seq<byte>)
    ensures SerializeAll([ByteBlock(Uint8, n)] + Uint8Blocks(body)) + rest == [n] + (body + rest)
  {
    ConsBytes(ByteBlock(Uint8, n), Uint8Blocks(body), rest);
    SerializeByte(n);
    SerializeUint8Blocks(body);
  }

  lemma {:induction false} ConsParts(b: byte, x: seq<byte>)
    ensures ([b] + x)[0] == b && ([b] + x)[1..] == x
  {
  }

  /** Loading, once the name is decoded. */
  lemma {:induction false} LoadParts(root: Trie, name: string, enc: seq<byte>, rem: seq<byte>)
    requires DecodeText(root, enc + rem) == Ok(DecodedText(name, |enc|, rem))
    requires |rem| > 0 && rem[0] < |Templates|
    ensures LoadLevelFromData(root, enc + rem) == LevelAfterName(name, rem[0], Templates[rem[0]].exportData, rem)
  {
  }

  /** The bytes of an encoded level: the packed name, the goal id, the
   *  goal's fields, the map count and the maps. */
  lemma {:induction false} LevelBytes(codes: map<Sym, seq<bit>>, upper: char -> char, level: Level, rest: seq<byte>)
    requires LevelBlocks(codes, upper, level).Ok? && 0 <= level.goal.id < 256
    ensures EncodedBits(codes, upper, level.name).Ok?
    ensures 0 <= level.goal.id < |Templates| && GoalFieldBlocks(Templates[level.goal.id].exportData, level.goal).Ok?
    ensures var fields := Templates[level.goal.id].exportData;
      SerializeAll(LevelBlocks(codes, upper, level).value) + rest ==
      PackBits(EncodedBits(codes, upper, level.name).value) +
        ([level.goal.id as byte] + (SerializeAll(GoalFieldBlocks(fields, level.goal).value) +
          (SerializeAll([ByteBlock(Uint8, |level.maps|)] + Uint8Blocks(Join(level.maps))) + rest)))
  {
    var goal := level.goal;
    var fields := Templates[goal.id].exportData;
    var nameBlocks := EncodedBlocks(codes, upper, level.name).value;
    var goalBlocks := GoalBlocks(goal).value;
    var fieldBlocks := GoalFieldBlocks(fields, goal).value;
    var tail := [ByteBlock(Uint8, |level.maps|)] + Uint8Blocks(Join(level.maps));
    assert LevelBlocks(codes, upper, level).value == nameBlocks + goalBlocks + tail;
    AppendBytes(nameBlocks + goalBlocks, tail, rest);
    AppendBytes(nameBlocks, goalBlocks, SerializeAll(tail) + rest);
    SerializeUint8Blocks(PackBits(EncodedBits(codes, upper, level.name).value));
    ConsBytes(ByteBlock(Uint8, goal.id), fieldBlocks, SerializeAll(tail) + rest);
    SerializeByte(goal.id);
  }

  /** After the name: the goal read back from its fields, the map count,
   *  and the maps split back off the bytes that follow them. */
  lemma {:induction false} ReadBody(name: string, fields: seq<ExportField>, goal: Goal, maps: seq<seq<byte>>, g: seq<byte>, rem: seq<byte>, rest: seq<byte>)
    requires |g| == FieldsSize(fields) && GoalOptions(fields, g, map[]) == goal.options
    requires |maps| < 256 && forall k | 0 <= k < |maps| :: OneMap(maps[k])
    requires |rem| > 0 && rem[1..] == g + ([|maps|] + (Join(maps) + rest))
    ensures LevelAfterName(name, goal.id, fields, rem) == Ok(LoadedLevel(Level(name, goal, maps), rest))
  {
    SliceParts(g, |maps|, Join(maps) + rest, rem);
    SplitJoined(maps, rest);
    AfterNameSplit(name, goal.id, fields, rem, SplitMaps(maps, rest));
  }

  /** The parts of a level's bytes after the goal id. */
  lemma {:induction false} SliceParts(g: seq<byte>, n: byte, body: seq<byte>, rem: seq<byte>)
    requires |rem| > 0 && rem[1..] == g + ([n] + body)
    ensures rem[1..|g| + 1] == g && rem[|g| + 1] == n && rem[|g| + 2..] == body
  {
    assert rem[1..][..|g|] == g;
    assert rem[1..][|g|..] == [n] + body;
  }

  /** `LevelAfterName` once the maps are split. */
  lemma {:induction false} AfterNameSplit(name: string, goalId: int, fields: seq<ExportField>, rem: seq<byte>, split: SplitMaps)
    requires |rem| >= FieldsSize(fields) + 2
    requires SplitBytes(rem[FieldsSize(fields) + 2..], rem[FieldsSize(fields) + 1]) == Ok(split)
    ensures LevelAfterName(name, goalId, fields, rem) ==
      Ok(LoadedLevel(Level(name, CreateGoal(goalId, Some(GoalOptions(fields, rem[1..FieldsSize(fields) + 1], map[]))), split.maps), split.remainingBytes))
  {
    var size := FieldsSize(fields);
    MapsSplit(name, CreateGoal(goalId, Some(GoalOptions(fields, rem[1..size + 1], map[]))), rem[size + 2..], rem[size + 1], split);
  }

  lemma {:induction false} MapsSplit(name: string, goal: Goal, body: seq<byte>, count: nat, split: SplitMaps)
    requires SplitBytes(body, count) == Ok(split)
    ensures LevelWithMaps(name, goal, body, count) == Ok(LoadedLevel(Level(name, goal, split.maps), split.remainingBytes))
  {
  }
}
