/** The validator against an order-free reading: walk `properties` and `items` along any path,
    and look at one subschema and one subvalue at a time. */
module SchemaTheorems {
  import opened Wrappers
  import opened Json
  import opened Schema

  datatype Segment = Property(index: nat) | Item(index: nat)

  datatype Pair = Pair(schema: Json, value: Json)

  /** One segment down: the i-th declared property that is present, or the i-th array item. */
  function Descend(p: Pair, segment: Segment): Option<Pair> {
    match segment
    case Property(i) =>
      var properties := GetObj(p.schema, "properties");
      if properties.Some? && p.value.Obj? && i < |properties.value|
          && Lookup(p.value.fields, properties.value[i].key).Some?
      then Some(Pair(properties.value[i].value, Lookup(p.value.fields, properties.value[i].key).value))
      else None
    case Item(i) =>
      var items := Get(p.schema, "items");
      if items.Some? && p.value.Arr? && i < |p.value.items| then Some(Pair(items.value, p.value.items[i])) else None
  }

  function Resolve(p: Pair, path: seq<Segment>): Option<Pair>
    decreases |path|
  {
    if path == [] then Some(p)
    else
      var next := Descend(p, path[0]);
      if next.None? then None else Resolve(next.value, path[1..])
  }

  /** The names that a value answers to, by what it is. An integer must fit 64 bits, with or without sign. */
  ghost predicate AnswersTo(value: Json, name: string) {
    match value
    case Null => name == "null"
    case Bool(_) => name == "boolean"
    case Num(Integer(i)) =>
      name == "number" || (name == "integer" && -0x8000_0000_0000_0000 <= i < 0x1_0000_0000_0000_0000)
    case Num(Float(_)) => name == "number"
    case Str(_) => name == "string"
    case Arr(_) => name == "array"
    case Obj(_) => name == "object"
  }

  /** Some value answers to the name: other names ask for nothing. */
  ghost predicate IsTypeName(name: string) {
    exists value :: AnswersTo(value, name)
  }

  lemma TypeMeans(name: string, value: Json)
    ensures TypeMatches(name, value) <==> !IsTypeName(name) || AnswersTo(value, name)
  {
    if IsTypeName(name) {
      var other :| AnswersTo(other, name);
    } else {
      assert !AnswersTo(Null, name) && !AnswersTo(Bool(true), name) && !AnswersTo(Num(Integer(0)), name);
      assert !AnswersTo(Str(""), name) && !AnswersTo(Arr([]), name) && !AnswersTo(Obj([]), name);
    }
  }

  /** What each reason means at one place, keyword by keyword. */
  ghost predicate Violates(p: Pair, reason: Reason) {
    var schema, value := p.schema, p.value;
    match reason
    case TypeMismatch =>
      || (exists name :: Get(schema, "type") == Some(Str(name)) && IsTypeName(name) && !AnswersTo(value, name))
      || (GetArr(schema, "required").Some? && !value.Obj?)
    case EnumMismatch =>
      exists values :: GetArr(schema, "enum") == Some(values) && value !in values
    case MissingRequired =>
      && value.Obj?
      && exists required, key :: GetArr(schema, "required") == Some(required) && Str(key) in required
          && !HasKey(value.fields, key)
    case UnexpectedProperty =>
      && value.Obj? && GetBool(schema, "additionalProperties") == Some(false)
      && exists properties, field :: GetObj(schema, "properties") == Some(properties) && field in value.fields
          && !HasKey(properties, field.key)
    case TooFewItems =>
      exists n: nat :: Get(schema, "minItems") == Some(Num(Integer(n))) && n <= U64_MAX
                       && (if value.Arr? then |value.items| < n else 0 < n)
  }

  ghost predicate ViolatedAt(p: Pair, path: seq<Segment>, reason: Reason) {
    Resolve(p, path).Some? && Violates(Resolve(p, path).value, reason)
  }

  /** The checks that look at one place only. */
  function CheckHere(schema: Json, value: Json): Verdict {
    if CheckType(schema, value).Err? then CheckType(schema, value)
    else if CheckEnum(schema, value).Err? then CheckEnum(schema, value)
    else if CheckRequired(schema, value).Err? then CheckRequired(schema, value)
    else if CheckAdditional(schema, value).Err? then CheckAdditional(schema, value)
    else CheckMinItems(schema, value)
  }

  lemma RequiredMeans(schema: Json, value: Json)
    ensures CheckRequired(schema, value) == Err(MissingRequired) <==> Violates(Pair(schema, value), MissingRequired)
  {
    if CheckRequired(schema, value) == Err(MissingRequired) {
      var required := GetArr(schema, "required").value;
      var key :| key in Strings(required) && !HasKey(value.fields, key);
      assert Str(key) in required;
    }
    if Violates(Pair(schema, value), MissingRequired) {
      var required, key :| GetArr(schema, "required") == Some(required) && Str(key) in required
          && !HasKey(value.fields, key);
      assert key in Strings(required);
    }
  }

  lemma AdditionalMeans(schema: Json, value: Json)
    ensures CheckAdditional(schema, value).Err? <==> Violates(Pair(schema, value), UnexpectedProperty)
  {
    if CheckAdditional(schema, value).Err? {
      var properties := GetObj(schema, "properties").value;
      var i :| 0 <= i < |value.fields| && !HasKey(properties, value.fields[i].key);
      assert value.fields[i] in value.fields;
    }
  }

  lemma ChecksMean(schema: Json, value: Json)
    ensures CheckType(schema, value).Err? || CheckRequired(schema, value) == Err(TypeMismatch) <==>
            Violates(Pair(schema, value), TypeMismatch)
    ensures CheckEnum(schema, value).Err? <==> Violates(Pair(schema, value), EnumMismatch)
    ensures CheckRequired(schema, value) == Err(MissingRequired) <==> Violates(Pair(schema, value), MissingRequired)
    ensures CheckAdditional(schema, value).Err? <==> Violates(Pair(schema, value), UnexpectedProperty)
    ensures CheckMinItems(schema, value).Err? <==> Violates(Pair(schema, value), TooFewItems)
  {
    if GetStr(schema, "type").Some? { TypeMeans(GetStr(schema, "type").value, value); }
    RequiredMeans(schema, value);
    AdditionalMeans(schema, value);
  }

  lemma HereMeans(schema: Json, value: Json)
    ensures CheckHere(schema, value).Ok? <==> forall reason :: !Violates(Pair(schema, value), reason)
    ensures CheckHere(schema, value).Err? ==> Violates(Pair(schema, value), CheckHere(schema, value).error)
  {
    ChecksMean(schema, value);
  }

  /** The first failing property, or the fact that all present properties pass. */
  lemma {:induction false} PropertiesMean(schema: Json, properties: seq<Field>, fields: seq<Field>)
    requires forall i | 0 <= i < |properties| :: properties[i].value < schema
    ensures var r := ValidateProperties(schema, properties, fields);
            && (r.Ok? <==> forall i | 0 <= i < |properties| && Lookup(fields, properties[i].key).Some? ::
                             Validate(properties[i].value, Lookup(fields, properties[i].key).value).Ok?)
            && (r.Err? ==> exists i | 0 <= i < |properties| && Lookup(fields, properties[i].key).Some? ::
                             Validate(properties[i].value, Lookup(fields, properties[i].key).value) == r)
  {
    if properties != [] {
      var rest := properties[1..];
      PropertiesMean(schema, rest, fields);
      assert forall i | 0 <= i < |rest| :: rest[i] == properties[i + 1];
      assert forall i | 1 <= i < |properties| :: properties[i] == rest[i - 1];
    }
  }

  lemma {:induction false} ItemsMean(schema: Json, itemSchema: Json, items: seq<Json>)
    requires itemSchema < schema
    ensures var r := ValidateItems(schema, itemSchema, items);
            && (r.Ok? <==> forall i | 0 <= i < |items| :: Validate(itemSchema, items[i]).Ok?)
            && (r.Err? ==> exists i | 0 <= i < |items| :: Validate(itemSchema, items[i]) == r)
  {
    if items != [] {
      var rest := items[1..];
      ItemsMean(schema, itemSchema, rest);
      assert forall i | 0 <= i < |rest| :: rest[i] == items[i + 1];
      assert forall i | 1 <= i < |items| :: items[i] == rest[i - 1];
    }
  }

  /** Validation passes iff the local checks pass and every place one segment down passes. */
  lemma ValidateUnfolds(schema: Json, value: Json)
    ensures Validate(schema, value).Ok? <==>
              CheckHere(schema, value).Ok?
              && forall s: Segment :: PassesBelow(Pair(schema, value), s)
    ensures Validate(schema, value).Err? ==>
              Violates(Pair(schema, value), Validate(schema, value).error)
              || exists s: Segment :: FailsBelow(Pair(schema, value), s, Validate(schema, value))
  {
    ChecksMean(schema, value);
    if GetObj(schema, "properties").Some? && value.Obj? { PropertiesDescend(schema, value); }
    if Get(schema, "items").Some? && value.Arr? { ItemsDescend(schema, value); }
  }

  ghost predicate PassesBelow(p: Pair, s: Segment) {
    var q := Descend(p, s);
    q.Some? ==> Validate(q.value.schema, q.value.value).Ok?
  }

  ghost predicate FailsBelow(p: Pair, s: Segment, r: Verdict) {
    var q := Descend(p, s);
    q.Some? && Validate(q.value.schema, q.value.value) == r
  }

  lemma DescendsToProperty(p: Pair, i: nat)
    requires GetObj(p.schema, "properties").Some? && p.value.Obj?
    ensures var properties := GetObj(p.schema, "properties").value;
            if i < |properties| && Lookup(p.value.fields, properties[i].key).Some? then
              Descend(p, Property(i)) ==
                  Some(Pair(properties[i].value, Lookup(p.value.fields, properties[i].key).value))
            else Descend(p, Property(i)).None?
  {
  }

  lemma PropertiesDescend(schema: Json, value: Json)
    requires GetObj(schema, "properties").Some? && value.Obj?
    ensures var p := Pair(schema, value);
            var r := ValidateProperties(schema, GetObj(schema, "properties").value, value.fields);
            && (r.Ok? <==> forall i: nat :: PassesBelow(p, Property(i)))
            && (r.Err? ==> exists i: nat :: FailsBelow(p, Property(i), r))
  {
    var p := Pair(schema, value);
    var properties := GetObj(schema, "properties").value;
    var r := ValidateProperties(schema, properties, value.fields);
    PropertiesMean(schema, properties, value.fields);
    if r.Ok? {
      forall i: nat ensures PassesBelow(p, Property(i)) {
        if Descend(p, Property(i)).Some? { DescendsToProperty(p, i); }
      }
    } else {
      var i :| 0 <= i < |properties| && Lookup(value.fields, properties[i].key).Some?
               && Validate(properties[i].value, Lookup(value.fields, properties[i].key).value) == r;
      DescendsToProperty(p, i);
      assert FailsBelow(p, Property(i), r) && !PassesBelow(p, Property(i));
    }
  }

  lemma ItemsDescend(schema: Json, value: Json)
    requires Get(schema, "items").Some? && value.Arr?
    ensures var p := Pair(schema, value);
            var r := ValidateItems(schema, Get(schema, "items").value, value.items);
            && (r.Ok? <==> forall i: nat :: PassesBelow(p, Item(i)))
            && (r.Err? ==> exists i: nat :: FailsBelow(p, Item(i), r))
  {
    var p := Pair(schema, value);
    var itemSchema := Get(schema, "items").value;
    var r := ValidateItems(schema, itemSchema, value.items);
    ItemsMean(schema, itemSchema, value.items);
    if r.Err? {
      var i :| 0 <= i < |value.items| && Validate(itemSchema, value.items[i]) == r;
      assert FailsBelow(p, Item(i), r) && !PassesBelow(p, Item(i));
    }
  }

  /** A rejection names a reason that really occurs somewhere. */
  lemma {:induction false} RejectionIsJustified(schema: Json, value: Json) returns (path: seq<Segment>)
    requires Validate(schema, value).Err?
    ensures ViolatedAt(Pair(schema, value), path, Validate(schema, value).error)
    decreases schema
  {
    var p := Pair(schema, value);
    ValidateUnfolds(schema, value);
    if Violates(p, Validate(schema, value).error) {
      path := [];
    } else {
      var s: Segment :| FailsBelow(p, s, Validate(schema, value));
      var q := Descend(p, s).value;
      DescendIsSmaller(p, s);
      var rest := RejectionIsJustified(q.schema, q.value);
      path := [s] + rest;
      assert path[1..] == rest;
    }
  }

  lemma LookupIsSmaller(v: Json, key: string)
    requires v.Obj? && Lookup(v.fields, key).Some?
    ensures Lookup(v.fields, key).value < v
  {
    var i :| 0 <= i < |v.fields| && v.fields[i] == Field(key, Lookup(v.fields, key).value);
  }

  lemma DescendIsSmaller(p: Pair, s: Segment)
    requires Descend(p, s).Some?
    ensures Descend(p, s).value.schema < p.schema
  {
    match s {
      case Property(i) => LookupIsSmaller(p.schema, "properties");
      case Item(i) => LookupIsSmaller(p.schema, "items");
    }
  }

  lemma {:induction false} ViolationIsRejected(p: Pair, path: seq<Segment>, reason: Reason)
    requires ViolatedAt(p, path, reason)
    ensures Validate(p.schema, p.value).Err?
    decreases |path|
  {
    ValidateUnfolds(p.schema, p.value);
    HereMeans(p.schema, p.value);
    if path != [] {
      ViolationIsRejected(Descend(p, path[0]).value, path[1..], reason);
      assert !PassesBelow(p, path[0]);
    }
  }

  /** The validator accepts exactly the values with no violation at any place: the order of the
      checks and the path argument do not matter. */
  lemma AcceptsIffNoViolation(schema: Json, value: Json)
    ensures Validate(schema, value).Ok? <==>
            forall path, reason :: !ViolatedAt(Pair(schema, value), path, reason)
  {
    if Validate(schema, value).Err? {
      var path := RejectionIsJustified(schema, value);
    }
    forall path, reason | ViolatedAt(Pair(schema, value), path, reason)
      ensures Validate(schema, value).Err?
    {
      ViolationIsRejected(Pair(schema, value), path, reason);
    }
  }

  /** The schemas agree on the seven keywords of the subset, in themselves and, through `properties`
      and `items`, in all their subschemas. Other keywords may differ anywhere. */
  ghost predicate SameKeywords(schema: Json, schema': Json)
    decreases schema
  {
    && Get(schema, "type") == Get(schema', "type")
    && Get(schema, "enum") == Get(schema', "enum")
    && Get(schema, "required") == Get(schema', "required")
    && Get(schema, "additionalProperties") == Get(schema', "additionalProperties")
    && Get(schema, "minItems") == Get(schema', "minItems")
    && SameProperties(schema, schema')
    && SameItems(schema, schema')
  }

  ghost predicate SameProperties(schema: Json, schema': Json)
    decreases schema, 0
  {
    var properties, properties' := GetObj(schema, "properties"), GetObj(schema', "properties");
    && properties.Some? == properties'.Some?
    && (properties.Some? ==>
          && |properties.value| == |properties'.value|
          && forall i | 0 <= i < |properties.value| ::
               && properties.value[i].key == properties'.value[i].key
               && (LookupIsSmaller(schema, "properties");
                   SameKeywords(properties.value[i].value, properties'.value[i].value)))
  }

  ghost predicate SameItems(schema: Json, schema': Json)
    decreases schema, 0
  {
    var items, items' := Get(schema, "items"), Get(schema', "items");
    && items.Some? == items'.Some?
    && (items.Some? ==> (LookupIsSmaller(schema, "items"); SameKeywords(items.value, items'.value)))
  }

  /** Keywords outside the subset never change what is accepted, at whatever depth they stand. */
  lemma {:induction false} UnknownKeywordsAreIgnored(schema: Json, schema': Json, value: Json)
    requires SameKeywords(schema, schema')
    ensures Validate(schema, value).Ok? <==> Validate(schema', value).Ok?
    decreases schema
  {
    ValidateUnfolds(schema, value);
    ValidateUnfolds(schema', value);
    SameChecks(schema, schema', value);
    forall s: Segment ensures PassesBelow(Pair(schema, value), s) <==> PassesBelow(Pair(schema', value), s) {
      SameDescend(schema, schema', value, s);
      var below, below' := Descend(Pair(schema, value), s), Descend(Pair(schema', value), s);
      if below.Some? {
        DescendIsSmaller(Pair(schema, value), s);
        UnknownKeywordsAreIgnored(below.value.schema, below'.value.schema, below.value.value);
      }
    }
  }

  /** One segment down, the schemas still agree and the value is the same. */
  lemma SameDescend(schema: Json, schema': Json, value: Json, s: Segment)
    requires SameProperties(schema, schema') && SameItems(schema, schema')
    ensures var below, below' := Descend(Pair(schema, value), s), Descend(Pair(schema', value), s);
            && below.Some? == below'.Some?
            && (below.Some? ==>
                  below.value.value == below'.value.value && SameKeywords(below.value.schema, below'.value.schema))
  {
  }

  lemma SameChecks(schema: Json, schema': Json, value: Json)
    requires SameKeywords(schema, schema')
    ensures CheckHere(schema, value).Ok? <==> CheckHere(schema', value).Ok?
  {
    SameType(schema, schema', value);
    SameRequired(schema, schema', value);
    SameAdditional(schema, schema', value);
    SameEnum(schema, schema', value);
    SameMinItems(schema, schema', value);
  }

  lemma SameEnum(schema: Json, schema': Json, value: Json)
    requires Get(schema, "enum") == Get(schema', "enum")
    ensures CheckEnum(schema, value) == CheckEnum(schema', value)
  {
  }

  lemma SameMinItems(schema: Json, schema': Json, value: Json)
    requires Get(schema, "minItems") == Get(schema', "minItems")
    ensures CheckMinItems(schema, value) == CheckMinItems(schema', value)
  {
  }

  lemma SameType(schema: Json, schema': Json, value: Json)
    requires Get(schema, "type") == Get(schema', "type")
    ensures CheckType(schema, value) == CheckType(schema', value)
  {
    assert GetStr(schema, "type") == GetStr(schema', "type");
  }

  lemma SameKeys(fields: seq<Field>, fields': seq<Field>, key: string)
    requires |fields| == |fields'| && forall i | 0 <= i < |fields| :: fields[i].key == fields'[i].key
    ensures HasKey(fields, key) <==> HasKey(fields', key)
  {
    if HasKey(fields, key) {
      var i :| 0 <= i < |fields| && fields[i].key == key;
      assert fields'[i].key == key;
    }
    if HasKey(fields', key) {
      var i :| 0 <= i < |fields'| && fields'[i].key == key;
      assert fields[i].key == key;
    }
  }

  lemma SameAdditional(schema: Json, schema': Json, value: Json)
    requires SameProperties(schema, schema')
    requires Get(schema, "additionalProperties") == Get(schema', "additionalProperties")
    ensures CheckAdditional(schema, value) == CheckAdditional(schema', value)
  {
    var properties, properties' := GetObj(schema, "properties"), GetObj(schema', "properties");
    if properties.Some? && value.Obj? {
      forall i | 0 <= i < |value.fields|
        ensures HasKey(properties.value, value.fields[i].key) <==> HasKey(properties'.value, value.fields[i].key)
      {
        SameKeys(properties.value, properties'.value, value.fields[i].key);
      }
    }
  }

  lemma SameRequired(schema: Json, schema': Json, value: Json)
    requires Get(schema, "required") == Get(schema', "required")
    ensures CheckRequired(schema, value) == CheckRequired(schema', value)
  {
    assert GetArr(schema, "required") == GetArr(schema', "required");
  }
}
