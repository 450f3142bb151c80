/** The incremental parser of a provider's event stream: chunks of decoded text are appended to a
    pending buffer, and every complete line is processed as soon as it is there. */
module SseStream {
  import opened Wrappers
  import opened Json
  import Text

  datatype Event =
    | Started(sequence: nat)
    | Delta(sequence: nat, text: string)
    | SchemaPartial(sequence: nat)
    | Final(sequence: nat)

  datatype ToolCall = ToolCall(id: Option<string>, name: Option<string>)

  datatype StreamError = MalformedEvent | UnexpectedToolCall | NoContent

  datatype State = State(sequence: nat, content: string, events: seq<Event>, toolCalls: seq<ToolCall>)

  datatype Fed = Fed(pending: string, st: State)

  datatype Reply = Reply(content: string, events: seq<Event>)

  /** `serde_json::from_str`. */
  type Parser = string -> Option<Json>

  const INITIAL := State(1, "", [Started(0)], [])

  // ---------------------------------------------------------------- one event

  /** `Value::pointer`, for the tokens used here: "0" indexes an array, every token a member. */
  function Pointer(v: Json, tokens: seq<string>): Option<Json>
    decreases |tokens|
  {
    if tokens == [] then Some(v)
    else
      var next := if v.Obj? then Lookup(v.fields, tokens[0])
                  else if v.Arr? && tokens[0] == "0" && v.items != [] then Some(v.items[0])
                  else None;
      if next.None? then None else Pointer(next.value, tokens[1..])
  }

  function OrElse<T>(first: Option<T>, second: Option<T>): Option<T> {
    if first.Some? then first else second
  }

  function AsStr(v: Option<Json>): Option<string> {
    if v.Some? && v.value.Str? then Some(v.value.s) else None
  }

  function ContentDelta(v: Json): string {
    var found := AsStr(OrElse(Pointer(v, ["choices", "0", "delta", "content"]),
                              Pointer(v, ["choices", "0", "message", "content"])));
    if found.Some? then found.value else ""
  }

  function ItemCall(item: Json): ToolCall {
    ToolCall(AsStr(Get(item, "id")), AsStr(OrElse(Pointer(item, ["function", "name"]), Get(item, "name"))))
  }

  function ItemCalls(items: seq<Json>): seq<ToolCall> {
    seq(|items|, i requires 0 <= i < |items| => ItemCall(items[i]))
  }

  function ToolCallsAt(v: Json, place: string): seq<ToolCall> {
    match Pointer(v, ["choices", "0", place, "tool_calls"])
    case None => []
    case Some(Arr(items)) => ItemCalls(items)
    case Some(Null) => []
    case Some(_) => [ToolCall(None, None)]
  }

  function FunctionCallAt(v: Json, place: string): seq<ToolCall> {
    match Pointer(v, ["choices", "0", place, "function_call"])
    case None => []
    case Some(call) => [ToolCall(None, AsStr(Get(call, "name")))]
  }

  function CollectToolCalls(v: Json): seq<ToolCall> {
    ToolCallsAt(v, "delta") + ToolCallsAt(v, "message") + FunctionCallAt(v, "delta") + FunctionCallAt(v, "message")
  }

  const DATA := "data:"

  /** What one parsed event adds: its tool calls, and its content delta if that is not empty. */
  function ApplyEvent(v: Json, st: State): State {
    var st' := st.(toolCalls := st.toolCalls + CollectToolCalls(v));
    var delta := ContentDelta(v);
    if delta == "" then st'
    else st'.(content := st'.content + delta,
              events := st'.events + [Delta(st'.sequence, delta)],
              sequence := st'.sequence + 1)
  }

  /** `process_sse_line`, on a trimmed line. */
  function ProcessLine(parse: Parser, line: string, st: State): Result<State, StreamError> {
    if !Text.StartsWith(line, DATA) then Ok(st)
    else
      var data := Text.Trim(line[|DATA|..]);
      if data == "" || data == "[DONE]" then Ok(st)
      else match parse(data)
        case None => Err(MalformedEvent)
        case Some(v) => Ok(ApplyEvent(v, st))
  }

  // ---------------------------------------------------------------- lines and chunks

  /** The index of the first newline, or the length. */
  function NewlineAt(s: string): (n: nat)
    ensures n <= |s| && '\n' !in s[..n] && (n < |s| ==> s[n] == '\n')
  {
    if s == "" || s[0] == '\n' then 0 else 1 + NewlineAt(s[1..])
  }

  /** All complete lines of the pending text processed in turn. */
  function FeedLines(parse: Parser, pending: string, st: State): Result<Fed, StreamError>
    decreases |pending|
  {
    var n := NewlineAt(pending);
    if n == |pending| then Ok(Fed(pending, st))
    else
      var r := ProcessLine(parse, Text.Trim(pending[..n + 1]), st);
      if r.Err? then Err(r.error) else FeedLines(parse, pending[n + 1..], r.value)
  }

  function Flush(parse: Parser, fed: Fed): Result<State, StreamError> {
    if Text.IsBlank(fed.pending) then Ok(fed.st) else ProcessLine(parse, Text.Trim(fed.pending), fed.st)
  }

  function FeedChunks(parse: Parser, chunks: seq<string>, fed: Fed): Result<Fed, StreamError> {
    if chunks == [] then Ok(fed)
    else
      var r := FeedLines(parse, fed.pending + chunks[0], fed.st);
      if r.Err? then r
      else if r.value.st.toolCalls != [] then Err(UnexpectedToolCall)
      else FeedChunks(parse, chunks[1..], r.value)
  }

  /** After the last chunk. */
  function Conclude(parse: Parser, fed: Fed): Result<Reply, StreamError> {
    var r := Flush(parse, fed);
    if r.Err? then Err(r.error)
    else if r.value.toolCalls != [] then Err(UnexpectedToolCall)
    else if Text.IsBlank(r.value.content) then Err(NoContent)
    else Ok(Reply(Text.Trim(r.value.content), r.value.events))
  }

  /** The whole stream, arriving in these chunks. */
  function Stream(parse: Parser, chunks: seq<string>): Result<Reply, StreamError> {
    var r := FeedChunks(parse, chunks, Fed("", INITIAL));
    if r.Err? then Err(r.error) else Conclude(parse, r.value)
  }

  // ---------------------------------------------------------------- the parser object

  class SseParser {
    var pending: string
    var sequence: nat
    var content: string
    var events: seq<Event>
    var toolCalls: seq<ToolCall>

    constructor ()
      ensures pending == "" && View() == INITIAL
    {
      pending, sequence, content, events, toolCalls := "", 1, "", [Started(0)], [];
    }

    function View(): State
      reads this
    {
      State(sequence, content, events, toolCalls)
    }

    method HandleEvent(v: Json)
      modifies this
      ensures pending == old(pending) && View() == ApplyEvent(v, old(View()))
    {
      toolCalls := toolCalls + CollectToolCalls(v);
      var delta := ContentDelta(v);
      if delta == "" { return; }
      content := content + delta;
      events := events + [Delta(sequence, delta)];
      sequence := sequence + 1;
    }

    method HandleLine(parse: Parser, line: string) returns (r: Result<(), StreamError>)
      modifies this
      ensures pending == old(pending)
      ensures r.Ok? ==> ProcessLine(parse, line, old(View())) == Ok(View())
      ensures r.Err? ==> ProcessLine(parse, line, old(View())) == Err(r.error)
    {
      if !Text.StartsWith(line, DATA) { return Ok(()); }
      var data := Text.Trim(line[|DATA|..]);
      if data == "" || data == "[DONE]" { return Ok(()); }
      var parsed := parse(data);
      if parsed.None? { return Err(MalformedEvent); }
      HandleEvent(parsed.value);
      return Ok(());
    }

    /** `process_sse_lines`. */
    method HandleLines(parse: Parser, flush: bool) returns (r: Result<(), StreamError>)
      modifies this
      ensures var fed := FeedLines(parse, old(pending), old(View()));
              if fed.Err? then r == Err(fed.error)
              else if !flush then r.Ok? && pending == fed.value.pending && View() == fed.value.st
              else match Flush(parse, fed.value)
                   case Err(e) => r == Err(e)
                   case Ok(st) => r.Ok? && View() == st
    {
      ghost var target := FeedLines(parse, pending, View());
      var n := NewlineAt(pending);
      while n < |pending|
        invariant n == NewlineAt(pending)
        invariant FeedLines(parse, pending, View()) == target
        decreases |pending|
      {
        var line := pending[..n + 1];
        pending := pending[n + 1..];
        var handled := HandleLine(parse, Text.Trim(line));
        if handled.Err? { return handled; }
        n := NewlineAt(pending);
      }
      if flush && !Text.IsBlank(pending) {
        var line := pending;
        pending := "";
        var handled := HandleLine(parse, Text.Trim(line));
        return handled;
      }
      return Ok(());
    }
  }

  /** The reading loop of `chat_completion_stream`. */
  method ReadStream(parse: Parser, chunks: seq<string>) returns (r: Result<Reply, StreamError>)
    ensures r == Stream(parse, chunks)
  {
    var parser := new SseParser();
    var i := 0;
    while i < |chunks|
      invariant 0 <= i <= |chunks|
      invariant FeedChunks(parse, chunks, Fed("", INITIAL)) ==
          FeedChunks(parse, chunks[i..], Fed(parser.pending, parser.View()))
    {
      assert chunks[i..][1..] == chunks[i + 1..];
      parser.pending := parser.pending + chunks[i];
      var handled := parser.HandleLines(parse, false);
      if handled.Err? { return Err(handled.error); }
      if parser.toolCalls != [] { return Err(UnexpectedToolCall); }
      i := i + 1;
    }
    NoNewlineIsLeft(parse, chunks, Fed("", INITIAL));
    var handled := parser.HandleLines(parse, true);
    if handled.Err? { return Err(handled.error); }
    if parser.toolCalls != [] { return Err(UnexpectedToolCall); }
    if Text.IsBlank(parser.content) { return Err(NoContent); }
    return Ok(Reply(Text.Trim(parser.content), parser.events));
  }

  lemma {:induction false} FeedLeavesNoNewline(parse: Parser, pending: string, st: State)
    ensures var r := FeedLines(parse, pending, st);
            r.Ok? ==> NewlineAt(r.value.pending) == |r.value.pending|
    decreases |pending|
  {
    var n := NewlineAt(pending);
    if n < |pending| {
      var r := ProcessLine(parse, Text.Trim(pending[..n + 1]), st);
      if r.Ok? { FeedLeavesNoNewline(parse, pending[n + 1..], r.value); }
    }
  }

  lemma {:induction false} NoNewlineIsLeft(parse: Parser, chunks: seq<string>, fed: Fed)
    requires NewlineAt(fed.pending) == |fed.pending|
    ensures var r := FeedChunks(parse, chunks, fed);
            r.Ok? ==> FeedLines(parse, r.value.pending, r.value.st) == r
    decreases |chunks|
  {
    if chunks != [] {
      var r := FeedLines(parse, fed.pending + chunks[0], fed.st);
      FeedLeavesNoNewline(parse, fed.pending + chunks[0], fed.st);
      if r.Ok? { NoNewlineIsLeft(parse, chunks[1..], r.value); }
    }
  }

  // ---------------------------------------------------------------- closing events

  /** `push_schema_partial_event` and `push_final_output_event`. */
  function Close(events: seq<Event>): seq<Event> {
    var partial := events + [SchemaPartial(|events|)];
    partial + [Final(|partial|)]
  }
}
