/** Which text and which tool calls a stream's events carry, told by the events' own members, and what
    a whole stream delivers, told by the lines of its text. */
module SseMeaning {
  import opened Wrappers
  import opened Json
  import opened SseStream
  import opened SseTheorems
  import Text

  // ---------------------------------------------------------------- members

  /** The object v has x as its member of that name. */
  ghost predicate Has(v: Json, key: string, x: Json) {
    v.Obj? && exists i | 0 <= i < |v.fields| :: IsFirst(v.fields, key, i) && v.fields[i].value == x
  }

  /** Field i is the first one with the key. */
  ghost predicate IsFirst(fields: seq<Field>, key: string, i: nat)
    requires i < |fields|
  {
    fields[i].key == key && forall j | 0 <= j < i :: fields[j].key != key
  }

  /** x is the first item of an array, or the member "0" of an object. */
  ghost predicate HasFirst(v: Json, x: Json) {
    (v.Arr? && v.items != [] && v.items[0] == x) || Has(v, "0", x)
  }

  /** x is at choices[0].place.key of the event. */
  ghost predicate At(v: Json, place: string, key: string, x: Json) {
    exists choices, choice, part ::
      Has(v, "choices", choices) && HasFirst(choices, choice) && Has(choice, place, part) && Has(part, key, x)
  }

  lemma {:induction false} LookupMeans(fields: seq<Field>, key: string, x: Json)
    ensures Lookup(fields, key) == Some(x) <==> Has(Obj(fields), key, x)
  {
    if fields != [] && fields[0].key != key {
      var rest := fields[1..];
      LookupMeans(rest, key, x);
      if Has(Obj(rest), key, x) {
        var i :| 0 <= i < |rest| && IsFirst(rest, key, i) && rest[i].value == x;
        FirstShifts(fields, key, i);
      }
      if Has(Obj(fields), key, x) {
        var i :| 0 <= i < |fields| && IsFirst(fields, key, i) && fields[i].value == x;
        FirstShifts(fields, key, i - 1);
        assert rest[i - 1] == fields[i];
      }
    } else if fields != [] {
      assert IsFirst(fields, key, 0);
    }
  }

  lemma FirstShifts(fields: seq<Field>, key: string, i: nat)
    requires i + 1 < |fields| && fields[0].key != key
    ensures IsFirst(fields[1..], key, i) <==> IsFirst(fields, key, i + 1)
  {
    var rest := fields[1..];
    assert forall j | 0 <= j < |rest| :: rest[j] == fields[j + 1];
    if IsFirst(rest, key, i) {
      forall j | 0 <= j < i + 1 ensures fields[j].key != key { if j > 0 { assert fields[j] == rest[j - 1]; } }
    }
  }

  lemma GetMeans(v: Json, key: string, x: Json)
    ensures Get(v, key) == Some(x) <==> Has(v, key, x)
  {
    if v.Obj? { LookupMeans(v.fields, key, x); }
  }

  /** One token of a pointer. */
  lemma TokenMeans(v: Json, token: string, rest: seq<string>, x: Json)
    ensures Pointer(v, [token] + rest) == Some(x) <==>
            exists y :: (if token == "0" then HasFirst(v, y) else Has(v, token, y)) && Pointer(y, rest) == Some(x)
  {
    assert ([token] + rest)[1..] == rest;
    forall y { GetMeans(v, token, y); }
  }

  lemma PointerOne(v: Json, a: string, x: Json)
    requires a != "0"
    ensures Pointer(v, [a]) == Some(x) <==> Has(v, a, x)
  {
    TokenMeans(v, a, [], x);
    assert [a] + [] == [a];
  }

  lemma PointerTwo(v: Json, a: string, b: string, x: Json)
    requires a != "0" && b != "0"
    ensures Pointer(v, [a, b]) == Some(x) <==> exists y :: Has(v, a, y) && Has(y, b, x)
  {
    TokenMeans(v, a, [b], x);
    assert [a] + [b] == [a, b];
    forall y { PointerOne(y, b, x); }
  }

  lemma PointerMeans(v: Json, place: string, key: string, x: Json)
    requires place != "0" && key != "0"
    ensures Pointer(v, ["choices", "0", place, key]) == Some(x) <==> At(v, place, key, x)
  {
    var tail, whole := ["0"] + [place, key], ["choices"] + (["0"] + [place, key]);
    assert ["choices", "0", place, key] == whole;
    TokenMeans(v, "choices", tail, x);
    forall y { TokenMeans(y, "0", [place, key], x); }
    forall y { PointerTwo(y, place, key, x); }
  }

  // ---------------------------------------------------------------- the text of an event

  /** x decides the event's text: the delta's content, or without one the message's. */
  ghost predicate Decides(v: Json, x: Json) {
    || At(v, "delta", "content", x)
    || ((forall y :: !At(v, "delta", "content", y)) && At(v, "message", "content", x))
  }

  /** The event's text is what decides it if that is a string, and otherwise empty. */
  ghost predicate Carries(v: Json, text: string) {
    Decides(v, Str(text)) || (text == "" && forall s :: !Decides(v, Str(s)))
  }

  lemma PathMeans(v: Json, place: string, key: string)
    requires place != "0" && key != "0"
    ensures forall x :: Pointer(v, ["choices", "0", place, key]) == Some(x) <==> At(v, place, key, x)
  {
    forall x ensures Pointer(v, ["choices", "0", place, key]) == Some(x) <==> At(v, place, key, x) {
      PointerMeans(v, place, key, x);
    }
  }

  lemma ContentMeans(v: Json)
    ensures forall text :: Carries(v, text) <==> text == ContentDelta(v)
  {
    PathMeans(v, "delta", "content");
    PathMeans(v, "message", "content");
    var delta := Pointer(v, ["choices", "0", "delta", "content"]);
    var message := Pointer(v, ["choices", "0", "message", "content"]);
    DecidesMeans(v, delta, message);
  }

  lemma DecidesMeans(v: Json, delta: Option<Json>, message: Option<Json>)
    requires forall x :: delta == Some(x) <==> At(v, "delta", "content", x)
    requires forall x :: message == Some(x) <==> At(v, "message", "content", x)
    ensures forall x :: Decides(v, x) <==> OrElse(delta, message) == Some(x)
  {
  }

  /** An event adds exactly its text to the content, and one numbered delta with it unless it is empty. */
  lemma EventAddsItsText(v: Json, st: State, text: string)
    requires Carries(v, text)
    ensures var st' := ApplyEvent(v, st);
            && st'.content == st.content + text
            && st'.events == st.events + (if text == "" then [] else [Delta(st.sequence, text)])
            && st'.sequence == st.sequence + (if text == "" then 0 else 1)
  {
    ContentMeans(v);
  }

  /** Every event has one text. */
  lemma EveryEventHasOneText(v: Json) returns (text: string)
    ensures Carries(v, text) && forall other | Carries(v, other) :: other == text
  {
    ContentMeans(v);
    text := ContentDelta(v);
  }

  // ---------------------------------------------------------------- the tool calls of an event

  /** The member's string, if it has one. */
  ghost predicate StringMember(v: Json, key: string, r: Option<string>) {
    match r
    case Some(s) => Has(v, key, Str(s))
    case None => forall s :: !Has(v, key, Str(s))
  }

  lemma StringMemberMeans(v: Json, key: string)
    ensures forall r :: StringMember(v, key, r) <==> r == AsStr(Get(v, key))
  {
    forall x ensures Get(v, key) == Some(x) <==> Has(v, key, x) { GetMeans(v, key, x); }
  }

  /** x decides an item's name: that of its function, or without one its own. */
  ghost predicate Names(item: Json, x: Json) {
    || NamesFunction(item, x)
    || ((forall y :: !NamesFunction(item, y)) && Has(item, "name", x))
  }

  ghost predicate NamesFunction(item: Json, x: Json) {
    exists f :: Has(item, "function", f) && Has(f, "name", x)
  }

  /** The call that an item of a list of tool calls stands for. */
  ghost predicate StandsFor(item: Json, call: ToolCall) {
    StringMember(item, "id", call.id) && NamedBy(item, call.name)
  }

  /** The string that decides the item's name, if a string does. */
  ghost predicate NamedBy(item: Json, name: Option<string>) {
    match name
    case Some(s) => Names(item, Str(s))
    case None => forall s :: !Names(item, Str(s))
  }

  lemma NameMeans(item: Json, f: Option<Json>, name: Option<Json>)
    requires forall x :: f == Some(x) <==> NamesFunction(item, x)
    requires forall x :: name == Some(x) <==> Has(item, "name", x)
    ensures forall x :: Names(item, x) <==> OrElse(f, name) == Some(x)
  {
  }

  lemma NamesMeans(item: Json)
    ensures forall x :: Names(item, x) <==> OrElse(Pointer(item, ["function", "name"]), Get(item, "name")) == Some(x)
  {
    var f, name := Pointer(item, ["function", "name"]), Get(item, "name");
    forall x ensures f == Some(x) <==> NamesFunction(item, x) { PointerTwo(item, "function", "name", x); }
    forall x ensures name == Some(x) <==> Has(item, "name", x) { GetMeans(item, "name", x); }
    NameMeans(item, f, name);
  }

  lemma ItemMeans(item: Json)
    ensures forall call :: StandsFor(item, call) <==> call == ItemCall(item)
  {
    StringMemberMeans(item, "id");
    NamedByMeans(item);
  }

  lemma NamedByMeans(item: Json)
    ensures forall name :: NamedBy(item, name) <==>
              name == AsStr(OrElse(Pointer(item, ["function", "name"]), Get(item, "name")))
  {
    NamesMeans(item);
  }

  /** The calls of choices[0].place.tool_calls: one for each item of a list, none for null, and one without
      id and name for anything else. */
  ghost predicate ListsCalls(v: Json, place: string, calls: seq<ToolCall>) {
    if forall x :: !At(v, place, "tool_calls", x) then calls == []
    else if At(v, place, "tool_calls", Null) then calls == []
    else
      || (calls == [ToolCall(None, None)] && forall items :: !At(v, place, "tool_calls", Arr(items)))
      || (exists items :: At(v, place, "tool_calls", Arr(items)) && StandFor(items, calls))
  }

  ghost predicate StandFor(items: seq<Json>, calls: seq<ToolCall>) {
    |calls| == |items| && forall i | 0 <= i < |items| :: StandsFor(items[i], calls[i])
  }

  /** The call of choices[0].place.function_call: one without id, whatever stands there. */
  ghost predicate FunctionCalls(v: Json, place: string, calls: seq<ToolCall>) {
    if forall x :: !At(v, place, "function_call", x) then calls == []
    else
      && |calls| == 1 && calls[0].id.None?
      && exists x :: At(v, place, "function_call", x) && StringMember(x, "name", calls[0].name)
  }

  /** All calls of an event, in the order they are collected. */
  ghost predicate Asks(v: Json, calls: seq<ToolCall>) {
    exists a, b, c, d ::
      && calls == a + b + c + d
      && ListsCalls(v, "delta", a) && ListsCalls(v, "message", b)
      && FunctionCalls(v, "delta", c) && FunctionCalls(v, "message", d)
  }

  lemma ItemsMean(items: seq<Json>, calls: seq<ToolCall>)
    ensures StandFor(items, calls) <==> calls == ItemCalls(items)
  {
    forall i | 0 <= i < |items|
      ensures forall call :: StandsFor(items[i], call) <==> call == ItemCall(items[i])
    {
      ItemMeans(items[i]);
    }
  }

  lemma ListMeans(v: Json, place: string, calls: seq<ToolCall>)
    requires place != "0"
    ensures ListsCalls(v, place, calls) <==> calls == ToolCallsAt(v, place)
  {
    PathMeans(v, place, "tool_calls");
    var found := Pointer(v, ["choices", "0", place, "tool_calls"]);
    if found.Some? {
      assert At(v, place, "tool_calls", found.value);
      if found.value.Arr? { ItemsMean(found.value.items, calls); }
    }
  }

  lemma FunctionCallMeans(v: Json, place: string, calls: seq<ToolCall>)
    requires place != "0"
    ensures FunctionCalls(v, place, calls) <==> calls == FunctionCallAt(v, place)
  {
    PathMeans(v, place, "function_call");
    var found := Pointer(v, ["choices", "0", place, "function_call"]);
    if found.Some? {
      assert At(v, place, "function_call", found.value);
      StringMemberMeans(found.value, "name");
    }
  }

  /** An event adds exactly the calls it asks for. */
  lemma EventAddsItsCalls(v: Json, st: State, calls: seq<ToolCall>)
    ensures Asks(v, calls) <==> ApplyEvent(v, st).toolCalls == st.toolCalls + calls
  {
    forall calls ensures ListsCalls(v, "delta", calls) <==> calls == ToolCallsAt(v, "delta") {
      ListMeans(v, "delta", calls);
    }
    forall calls ensures ListsCalls(v, "message", calls) <==> calls == ToolCallsAt(v, "message") {
      ListMeans(v, "message", calls);
    }
    forall calls ensures FunctionCalls(v, "delta", calls) <==> calls == FunctionCallAt(v, "delta") {
      FunctionCallMeans(v, "delta", calls);
    }
    forall calls ensures FunctionCalls(v, "message", calls) <==> calls == FunctionCallAt(v, "message") {
      FunctionCallMeans(v, "message", calls);
    }
    SameTail(st.toolCalls, CollectToolCalls(v), calls);
    assert Asks(v, calls) <==> calls == CollectToolCalls(v);
  }

  lemma SameTail<T>(front: seq<T>, a: seq<T>, b: seq<T>)
    ensures front + a == front + b <==> a == b
  {
    assert (front + a)[|front|..] == a && (front + b)[|front|..] == b;
  }
}
