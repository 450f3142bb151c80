/** The JSON-schema validator of the runtime: a recursive subset of JSON Schema 2020-12 with the
    program's own reading of `required`, `minItems` and `additionalProperties`. */
module Schema {
  import opened Wrappers
  import opened Json

  datatype Reason = TypeMismatch | EnumMismatch | MissingRequired | UnexpectedProperty | TooFewItems

  type Verdict = Result<(), Reason>

  const U64_MAX: int := 0xFFFF_FFFF_FFFF_FFFF
  const I64_MIN: int := -0x8000_0000_0000_0000

  predicate TypeMatches(expected: string, value: Json) {
    match expected
    case "object" => value.Obj?
    case "array" => value.Arr?
    case "string" => value.Str?
    case "boolean" => value.Bool?
    case "integer" => value.Num? && value.n.Integer? && I64_MIN <= value.n.i <= U64_MAX
    case "number" => value.Num?
    case "null" => value.Null?
    case _ => true
  }

  /** `as_u64`. */
  function AsU64(v: Json): Option<nat> {
    if v.Num? && v.n.Integer? && 0 <= v.n.i <= U64_MAX then Some(v.n.i) else None
  }

  function CheckType(schema: Json, value: Json): Verdict {
    var expected := GetStr(schema, "type");
    if expected.Some? && !TypeMatches(expected.value, value) then Err(TypeMismatch) else Ok(())
  }

  function CheckEnum(schema: Json, value: Json): Verdict {
    var values := GetArr(schema, "enum");
    if values.Some? && value !in values.value then Err(EnumMismatch) else Ok(())
  }

  function CheckRequired(schema: Json, value: Json): Verdict {
    var required := GetArr(schema, "required");
    if required.None? then Ok(())
    else if !value.Obj? then Err(TypeMismatch)
    else if exists key | key in Strings(required.value) :: !HasKey(value.fields, key) then Err(MissingRequired)
    else Ok(())
  }

  function CheckAdditional(schema: Json, value: Json): Verdict {
    var properties := GetObj(schema, "properties");
    if properties.Some? && value.Obj? && GetBool(schema, "additionalProperties") == Some(false)
       && exists i | 0 <= i < |value.fields| :: !HasKey(properties.value, value.fields[i].key)
    then Err(UnexpectedProperty) else Ok(())
  }

  function CheckMinItems(schema: Json, value: Json): Verdict {
    var minItems := Get(schema, "minItems");
    if minItems.Some? && AsU64(minItems.value).Some?
       && (if value.Arr? then |value.items| else 0) < AsU64(minItems.value).value
    then Err(TooFewItems) else Ok(())
  }

  /** `validate_json_schema_at`: the keyword checks in the program's order, the first failure wins. */
  function Validate(schema: Json, value: Json): Verdict
    decreases schema, 1, 0
  {
    if !schema.Obj? || schema.fields == [] then Ok(())
    else if CheckType(schema, value).Err? then CheckType(schema, value)
    else if CheckEnum(schema, value).Err? then CheckEnum(schema, value)
    else if CheckRequired(schema, value).Err? then CheckRequired(schema, value)
    else
      var properties := GetObj(schema, "properties");
      var inProperties := if properties.Some? && value.Obj? then
          ValidateProperties(schema, properties.value, value.fields) else Ok(());
      if inProperties.Err? then inProperties
      else if CheckAdditional(schema, value).Err? then CheckAdditional(schema, value)
      else
        var items := Get(schema, "items");
        var inItems := if items.Some? && value.Arr? then ValidateItems(schema, items.value, value.items) else Ok(());
        if inItems.Err? then inItems else CheckMinItems(schema, value)
  }

  function ValidateProperties(schema: Json, properties: seq<Field>, fields: seq<Field>): Verdict
    requires forall i | 0 <= i < |properties| :: properties[i].value < schema
    decreases schema, 0, |properties|
  {
    if properties == [] then Ok(())
    else
      var found := Lookup(fields, properties[0].key);
      var first := if found.Some? then Validate(properties[0].value, found.value) else Ok(());
      if first.Err? then first else ValidateProperties(schema, properties[1..], fields)
  }

  function ValidateItems(schema: Json, itemSchema: Json, items: seq<Json>): Verdict
    requires itemSchema < schema
    decreases schema, 0, |items|
  {
    if items == [] then Ok(())
    else
      var first := Validate(itemSchema, items[0]);
      if first.Err? then first else ValidateItems(schema, itemSchema, items[1..])
  }
}
