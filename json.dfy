/** Parsed JSON, as `JSON.parse` hands it to the editor's `onOpen` and to
 *  `createOverworldFromJSON`, and what JavaScript makes of its values where
 *  the editor uses them without checking their type. Numbers are integers
 *  in this model. */
module Json {
  import opened Wrappers
  import opened Bytes
  import opened JsNumber

  datatype Json = JNull | JBool(b: bool) | JNum(n: int) | JStr(s: string) | JArr(items: seq<Json>)
                | JObj(fields: map<string, Json>)

  /** `key in value`, for an object; other values have no named members
   *  here. */
  predicate Has(v: Json, key: string)
  {
    v.JObj? && key in v.fields
  }

  /** `value[key]`: the member, or `undefined` as None. */
  function Get(v: Json, key: string): (r: Option<Json>)
    ensures r.Some? <==> Has(v, key)
    ensures r.Some? ==> r.value == v.fields[key]
  {
    if Has(v, key) then Some(v.fields[key]) else None
  }

  /** `typeof value[key] === 'number'`. */
  predicate NumberAt(v: Json, key: string)
  {
    Has(v, key) && v.fields[key].JNum?
  }

  /** `typeof value[key] === 'string'`. */
  predicate StringAt(v: Json, key: string)
  {
    Has(v, key) && v.fields[key].JStr?
  }

  /** `Array.isArray( value[key] )`. */
  predicate ArrayAt(v: Json, key: string)
  {
    Has(v, key) && v.fields[key].JArr?
  }

  /** `!! value`: everything but null, false, 0 and the empty string. */
  predicate Truthy(v: Json)
  {
    match v
    case JNull => false
    case JBool(b) => b
    case JNum(n) => n != 0
    case JStr(s) => s != []
    case _ => true
  }

  /** A value that passes `! value || typeof value !== 'object'`: an object
   *  or an array. */
  predicate IsObject(v: Json)
  {
    v.JObj? || v.JArr?
  }

  // ---------------------------------------------------------------- coercions

  /** `String(value)`: arrays join their items with commas, null items
   *  giving nothing, and every object is `[object Object]`. */
  function JsString(v: Json): string
    decreases v, 1
  {
    match v
    case JNull => "null"
    case JBool(b) => if b then "true" else "false"
    case JNum(n) => IntString(n)
    case JStr(s) => s
    case JArr(items) => JoinFrom(items, 0)
    case JObj(_) => "[object Object]"
  }

  /** `items.join()` from item `i` on. */
  function JoinFrom(items: seq<Json>, i: nat): string
    requires i <= |items|
    decreases JArr(items), 0, |items| - i
  {
    if i == |items| then ""
    else (if i > 0 then "," else "") + (if items[i].JNull? then "" else JsString(items[i])) + JoinFrom(items, i + 1)
  }

  /** What a DataView setter stores for a value, before it keeps the low
   *  bits: `Number(value)` truncated, NaN as 0. */
  function SetterNumber(v: Json): int
  {
    match v
    case JNum(n) => n
    case JBool(b) => if b then 1 else 0
    case JNull => 0
    case JStr(s) => SetterValue(NumberOfString(s))
    case _ => SetterValue(NumberOfString(JsString(v)))
  }

  /** The index a string names in an array: the canonical decimal form of a
   *  natural number; -1 for any other key, which no index has. */
  function ArrayIndex(s: string): (r: int)
    ensures r >= -1
  {
    if s != [] && (forall i | 0 <= i < |s| :: IsDigit(s[i])) && (s[0] != '0' || |s| == 1) then Decimal(s)
    else -1
  }

  /** The entry `table[value]` looks up, for an object's type: a number is
   *  the index, anything else the index its string names. */
  function TypeIndex(v: Json): int
  {
    if v.JNum? then v.n else ArrayIndex(JsString(v))
  }

  /** A member of a created object as the editor uses it: the type as the
   *  entry it selects, every other member as the number its setter stores. */
  function MemberNumber(key: string, v: Json): int
  {
    if key == "type" then TypeIndex(v) else SetterNumber(v)
  }

  /** The members a value hands `createObject`, as numbers: every member of
   *  an object, none of anything else. */
  function ObjectProps(v: Json): (r: map<string, int>)
    ensures r.Keys == (if v.JObj? then v.fields.Keys else {})
    ensures forall k | k in r :: r[k] == MemberNumber(k, v.fields[k])
    ensures forall k | NumberAt(v, k) :: r[k] == v.fields[k].n
  {
    if v.JObj? then map k | k in v.fields :: MemberNumber(k, v.fields[k]) else map[]
  }

  /** A properties map as a JSON object of numbers. */
  function NumbersObject(props: map<string, int>): (r: Json)
    ensures r.JObj? && r.fields.Keys == props.Keys
    ensures forall k | k in props :: r.fields[k] == JNum(props[k])
  {
    JObj(map k | k in props :: JNum(props[k]))
  }

  /** The members of a numbers object are the properties it was made from. */
  lemma {:induction false} NumbersRoundTrip(props: map<string, int>)
    ensures ObjectProps(NumbersObject(props)) == props
  {
    var v := NumbersObject(props);
    assert forall k | k in props :: NumberAt(v, k);
  }

  /** A number written as its decimal string is stored as the number, and
   *  a natural number so written selects the same type. */
  lemma {:induction false} DecimalMembers(n: int)
    ensures SetterNumber(JStr(IntString(n))) == n
    ensures n >= 0 ==> TypeIndex(JStr(IntString(n))) == n
  {
    NumberOfIntString(n);
    if n >= 0 {
      DecimalRoundTrip(n);
      DecimalStringLead(n);
    }
  }

  /** White space around a decimal string does not change what a setter
   *  stores. */
  lemma {:induction false} SpacedMembers(w: string, n: int, v: string)
    requires forall i | 0 <= i < |w| :: IsSpace(w[i])
    requires forall i | 0 <= i < |v| :: IsSpace(v[i])
    ensures SetterNumber(JStr(w + IntString(n) + v)) == n
  {
    NumberSpaced(w, n, v);
  }

  /** `String(n)` starts with 0 only for 0 itself. */
  lemma {:induction false} DecimalStringLead(n: nat)
    ensures DecimalString(n)[0] != '0' || DecimalString(n) == "0"
  {
    if n >= 10 {
      DecimalStringLead(n / 10);
      assert DecimalString(n / 10) != "0";
    }
  }

  /** Members that are not numbers, as the setters and the type table see
   *  them: null and false store 0, true 1, text that is no number 0, and a
   *  type written with a leading zero names no entry. */
  lemma {:induction false} CoercedMembers()
    ensures SetterNumber(JNull) == 0 && SetterNumber(JBool(true)) == 1 && SetterNumber(JBool(false)) == 0
    ensures SetterNumber(JStr("abc")) == 0
    ensures TypeIndex(JStr("02")) == -1 && TypeIndex(JNull) == -1
  {
    NumberNotANumber();
    NoTypeIndex();
  }

  lemma {:induction false} NoTypeIndex()
    ensures TypeIndex(JStr("02")) == -1 && TypeIndex(JNull) == -1
  {
    assert JsString(JStr("02")) == "02";
  }

  /** The members a goal's options keep: every member, as `String` writes
   *  it, which is how `parseInt` will read it. */
  function OptionStrings(v: Json): (r: map<string, string>)
    ensures r.Keys == (if v.JObj? then v.fields.Keys else {})
    ensures forall k | k in r :: r[k] == JsString(v.fields[k])
    ensures forall k | StringAt(v, k) :: r[k] == v.fields[k].s
  {
    if v.JObj? then map k | k in v.fields :: JsString(v.fields[k]) else map[]
  }

  /** Options as a JSON object of strings. */
  function StringsObject(options: map<string, string>): (r: Json)
    ensures r.JObj? && r.fields.Keys == options.Keys
    ensures forall k | k in options :: r.fields[k] == JStr(options[k])
  {
    JObj(map k | k in options :: JStr(options[k]))
  }

  /** The members of a strings object are the options it was made from. */
  lemma {:induction false} StringsRoundTrip(options: map<string, string>)
    ensures OptionStrings(StringsObject(options)) == options
  {
    var v := StringsObject(options);
    assert forall k | k in options :: StringAt(v, k);
  }

  /** An option written as a number reads back, through `String` and
   *  `parseInt`, as that number. */
  lemma {:induction false} NumberOption(n: int)
    ensures ParseInt(JsString(JNum(n))) == Some(n)
  {
    ParseIntString([], n, []);
    assert [] + IntString(n) + [] == IntString(n);
  }

  /** The TypeError `key in value` throws for a value that is not an
   *  object. */
  function InError(key: string, v: Json): (r: string)
    ensures |r| > |key|
  {
    "Cannot use 'in' operator to search for '" + key + "' in " + JsString(v)
  }
}
