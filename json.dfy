/** JSON-shaped values as the Python and JavaScript scripts see them after
    json.load / JSON.parse / gray-matter. A mapping keeps its keys in
    insertion order (Python dicts and JS objects both iterate that way); a
    parsed document never repeats a key, so lookups take the first match. */
module JsonValue {
  import opened Strings

  datatype Json =
    | JNull
    | JBool(b: bool)
    | JNum(n: int)
    | JStr(s: string)
    | JArr(items: seq<Json>)
    | JObj(fields: seq<Field>)

  datatype Field = Field(key: string, value: Json)

  /** Python truthiness (`if x`, `x or y`): an empty list or dict is false. */
  predicate Truthy(j: Json) {
    match j
    case JNull => false
    case JBool(b) => b
    case JNum(n) => n != 0
    case JStr(s) => s != ""
    case JArr(items) => items != []
    case JObj(fields) => fields != []
  }

  /** The value of the first field named key. */
  function Lookup(fields: seq<Field>, key: string): Option<Json> {
    if fields == [] then None
    else if fields[0].key == key then Some(fields[0].value)
    else Lookup(fields[1..], key)
  }

  /** A lookup finds the first field with the key, and fails only when no
      field has it. */
  lemma {:induction false} LookupFirst(fields: seq<Field>, key: string)
    ensures Lookup(fields, key).None? <==> forall i | 0 <= i < |fields| :: fields[i].key != key
    ensures Lookup(fields, key).Some? ==> exists i | 0 <= i < |fields| ::
      fields[i].key == key && fields[i].value == Lookup(fields, key).value &&
      forall j | 0 <= j < i :: fields[j].key != key
  {
    if fields != [] && fields[0].key != key {
      LookupFirst(fields[1..], key);
      var r := Lookup(fields, key);
      if r.Some? {
        var i :| 0 <= i < |fields[1..]| && fields[1..][i].key == key && fields[1..][i].value == r.value &&
          forall j | 0 <= j < i :: fields[1..][j].key != key;
        assert fields[i + 1].key == key && fields[i + 1].value == r.value;
        assert forall j | 0 <= j < i + 1 :: fields[j].key != key by {
          forall j | 0 <= j < i + 1 ensures fields[j].key != key {
            if j > 0 { assert fields[j] == fields[1..][j - 1]; }
          }
        }
      }
    }
  }

  /** Python `key in obj` for a dict; false for every other value. */
  predicate Has(j: Json, key: string) {
    j.JObj? && Lookup(j.fields, key).Some?
  }

  /** Python `obj.get(key)` / JS `obj[key]`: the null value when the key is
      absent. A value that is not a mapping has no keys. */
  function Get(j: Json, key: string): Json {
    if j.JObj? then Lookup(j.fields, key).GetOr(JNull) else JNull
  }

  /** Python `a or b`. */
  function Or(a: Json, b: Json): Json {
    if Truthy(a) then a else b
  }

  /** JS `a ?? b`: b only when a is null or absent. */
  function Coalesce(a: Json, b: Json): Json {
    if a == JNull then b else a
  }

  /** JavaScript truthiness (`if (x)`, `x || y`): unlike Python, an empty
      array or object is truthy. */
  predicate JsTrue(j: Json) {
    Truthy(j) || j.JArr? || j.JObj?
  }

  /** JS `a || b` on values read with Get, where undefined reads as null. */
  function JsEither(a: Json, b: Json): Json {
    if JsTrue(a) then a else b
  }

  /** JavaScript truthiness of a property that may be undefined (None). */
  predicate JsTruthy(v: Option<Json>) {
    v.Some? && JsTrue(v.value)
  }

  /** JS `a || b` on possibly undefined values. */
  function JsOr(a: Option<Json>, b: Option<Json>): Option<Json> {
    if JsTruthy(a) then a else b
  }

  /** The text of a string value; every other value reads as "". */
  function Str(j: Json): string {
    if j.JStr? then j.s else ""
  }

  /** The string value, or None for null, absence or a value of another type. */
  function StrOpt(j: Json): Option<string> {
    if j.JStr? then Some(j.s) else None
  }

  /** The elements of a list value, or the empty list for any other value. */
  function Items(j: Json): seq<Json> {
    if j.JArr? then j.items else []
  }

  /** The strings among the elements of a list value, in order. */
  function StringList(j: Json): seq<string> {
    StringItems(Items(j))
  }

  function StringItems(items: seq<Json>): (r: seq<string>)
    ensures |r| <= |items|
  {
    if items == [] then []
    else (if items[0].JStr? then [items[0].s] else []) + StringItems(items[1..])
  }
}
