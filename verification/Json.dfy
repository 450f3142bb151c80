/** JSON values as `serde_json::Value` holds them. An object is the sequence of its entries in
    key order (the `BTreeMap` form); lookup takes the first entry with the key. */
module Json {
  import opened Wrappers

  /** Integers are kept apart from floats; a float is an opaque decimal. */
  datatype Number = Integer(i: int) | Float(f: real)

  datatype Json =
    | Null
    | Bool(b: bool)
    | Num(n: Number)
    | Str(s: string)
    | Arr(items: seq<Json>)
    | Obj(fields: seq<Field>)

  datatype Field = Field(key: string, value: Json)

  predicate HasKey(fields: seq<Field>, key: string) {
    exists i | 0 <= i < |fields| :: fields[i].key == key
  }

  /** `Map::get`. */
  function Lookup(fields: seq<Field>, key: string): (r: Option<Json>)
    ensures r.Some? <==> HasKey(fields, key)
    ensures r.Some? ==> exists i | 0 <= i < |fields| :: fields[i] == Field(key, r.value)
  {
    if fields == [] then None
    else if fields[0].key == key then
      assert fields[0] == Field(key, fields[0].value);
      Some(fields[0].value)
    else
      var r := Lookup(fields[1..], key);
      assert forall i | 0 <= i < |fields| - 1 :: fields[i + 1] == fields[1..][i];
      r
  }

  /** `Value::get` with a string index. */
  function Get(v: Json, key: string): Option<Json> {
    if v.Obj? then Lookup(v.fields, key) else None
  }

  function GetStr(v: Json, key: string): Option<string> {
    var r := Get(v, key);
    if r.Some? && r.value.Str? then Some(r.value.s) else None
  }

  function GetBool(v: Json, key: string): Option<bool> {
    var r := Get(v, key);
    if r.Some? && r.value.Bool? then Some(r.value.b) else None
  }

  function GetArr(v: Json, key: string): Option<seq<Json>> {
    var r := Get(v, key);
    if r.Some? && r.value.Arr? then Some(r.value.items) else None
  }

  function GetObj(v: Json, key: string): Option<seq<Field>> {
    var r := Get(v, key);
    if r.Some? && r.value.Obj? then Some(r.value.fields) else None
  }

  /** `filter_map(Value::as_str)`. */
  function Strings(items: seq<Json>): (r: seq<string>)
    ensures forall x :: x in r <==> Str(x) in items
  {
    if items == [] then []
    else (if items[0].Str? then [items[0].s] else []) + Strings(items[1..])
  }
}
