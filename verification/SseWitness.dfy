/** A stream whose error depends on where its chunks end. */
module SseWitness {
  import opened Wrappers
  import opened Json
  import opened SseStream
  import opened SseTheorems
  import Text

  const FUNCTION_CALL := Obj([Field("function_call", Null)])
  const CHOICE := Obj([Field("delta", FUNCTION_CALL)])
  const CALL_EVENT := Obj([Field("choices", Arr([CHOICE]))])

  /** Reads one event, a function call, and nothing else. */
  function WitnessParser(): Parser {
    data => if data == "call" then Some(CALL_EVENT) else None
  }

  const CALL_LINE := "data:call\n"
  const BAD_LINE := "data:x\n"

  lemma EventHasCall()
    ensures CollectToolCalls(CALL_EVENT) != []
  {
    var path := ["choices", "0", "delta", "function_call"];
    assert path[1..] == ["0", "delta", "function_call"];
    assert path[1..][1..] == ["delta", "function_call"];
    assert path[1..][1..][1..] == ["function_call"] && path[1..][1..][1..][1..] == [];
    assert Pointer(FUNCTION_CALL, ["function_call"]) == Some(Null);
    assert Pointer(CHOICE, ["delta", "function_call"]) == Some(Null);
    assert Pointer(Arr([CHOICE]), ["0", "delta", "function_call"]) == Some(Null);
    assert Pointer(CALL_EVENT, path) == Some(Null);
    assert |FunctionCallAt(CALL_EVENT, "delta")| == 1;
  }

  predicate IsPlainLine(line: string) {
    line != "" && '\n' !in line && !Text.IsWhitespace(line[0]) && !Text.IsWhitespace(line[|line| - 1])
  }

  lemma LineIsTrimmed(line: string)
    requires IsPlainLine(line)
    ensures Text.Trim(line + "\n") == line
  {
    var s := line + "\n";
    assert Text.TrimStart(s) == s && s[..|s| - 1] == line;
    assert Text.TrimEnd(line) == line;
  }

  lemma LineEnds(line: string)
    requires IsPlainLine(line)
    ensures var s := line + "\n"; NewlineAt(s) == |line| && s[..|line| + 1] == s && s[|line| + 1..] == ""
  {
    var s := line + "\n";
    assert s[..|line|] == line && s[|line|] == '\n';
    NewlineUnique(s, |line|);
  }

  /** A text whose only newline is its last character. */
  lemma OneLineFed(parse: Parser, s: string, st: State)
    requires s != "" && NewlineAt(s) == |s| - 1
    ensures var r := ProcessLine(parse, Text.Trim(s), st);
            FeedLines(parse, s, st) == if r.Err? then Err(r.error) else Ok(Fed("", r.value))
  {
    assert s[..NewlineAt(s) + 1] == s && s[NewlineAt(s) + 1..] == "";
  }

  /** One line with its newline, fed whole. */
  lemma OneLine(parse: Parser, line: string, st: State)
    requires IsPlainLine(line)
    ensures var r := ProcessLine(parse, line, st);
            FeedLines(parse, line + "\n", st) == if r.Err? then Err(r.error) else Ok(Fed("", r.value))
  {
    LineIsTrimmed(line);
    LineEnds(line);
    OneLineFed(parse, line + "\n", st);
  }

  lemma CallLineIsRead(st: State)
    ensures var r := ProcessLine(WitnessParser(), "data:call", st); r.Ok? && r.value.toolCalls != []
  {
    assert "data:call"[|DATA|..] == "call";
    Text.TrimmedStays("call");
    EventHasCall();
  }

  lemma BadLineIsMalformed(st: State)
    ensures ProcessLine(WitnessParser(), "data:x", st) == Err(MalformedEvent)
  {
    assert "data:x"[|DATA|..] == "x";
    Text.TrimmedStays("x");
  }

  /** Lines with a tool call, then lines with a fault. */
  lemma FaultBehindCall(parse: Parser, calls: string, faulty: string)
    requires Whole(parse, calls).Ok? && Whole(parse, calls).value.pending == ""
    requires Whole(parse, calls).value.st.toolCalls != []
    requires FeedLines(parse, faulty, Whole(parse, calls).value.st).Err?
    ensures Whole(parse, calls + faulty) == FeedLines(parse, faulty, Whole(parse, calls).value.st)
    ensures ToolCallBeforeFault(parse, calls + faulty)
  {
    WholeGoesOn(parse, calls, faulty);
    assert "" + faulty == faulty;
    assert (calls + faulty)[..|calls|] == calls;
    assert ToolCallWithin(parse, calls + faulty, |calls|);
  }

  lemma CallLineIsFed()
    ensures var r := Whole(WitnessParser(), CALL_LINE);
            r.Ok? && r.value.pending == "" && r.value.st.toolCalls != []
  {
    assert CALL_LINE == "data:call" + "\n";
    OneLine(WitnessParser(), "data:call", INITIAL);
    CallLineIsRead(INITIAL);
  }

  lemma BadLineIsFed(st: State)
    ensures FeedLines(WitnessParser(), BAD_LINE, st) == Err(MalformedEvent)
  {
    assert BAD_LINE == "data:x" + "\n";
    OneLine(WitnessParser(), "data:x", st);
    BadLineIsMalformed(st);
  }

  /** The text has a tool call before a malformed line. */
  lemma FaultIsReached()
    ensures Whole(WitnessParser(), CALL_LINE + BAD_LINE) == Err(MalformedEvent)
    ensures ToolCallBeforeFault(WitnessParser(), CALL_LINE + BAD_LINE)
  {
    CallLineIsFed();
    BadLineIsFed(Whole(WitnessParser(), CALL_LINE).value.st);
    FaultBehindCall(WitnessParser(), CALL_LINE, BAD_LINE);
  }

  lemma OneChunk(parse: Parser, text: string)
    requires Whole(parse, text) == Err(MalformedEvent)
    ensures Stream(parse, [text]) == Err(MalformedEvent)
  {
    assert "" + text == text;
  }

  lemma CallInFirstChunk(parse: Parser, first: string, second: string)
    requires Whole(parse, first).Ok? && Whole(parse, first).value.st.toolCalls != []
    ensures Stream(parse, [first, second]) == Err(UnexpectedToolCall)
  {
    assert "" + first == first;
  }

  /** In one chunk the stream is malformed; cut between the lines, its tool call is what is refused. */
  lemma ErrorsDiffer()
    ensures Stream(WitnessParser(), [CALL_LINE + BAD_LINE]) == Err(MalformedEvent)
    ensures Stream(WitnessParser(), [CALL_LINE, BAD_LINE]) == Err(UnexpectedToolCall)
  {
    FaultIsReached();
    CallLineIsFed();
    OneChunk(WitnessParser(), CALL_LINE + BAD_LINE);
    CallInFirstChunk(WitnessParser(), CALL_LINE, BAD_LINE);
  }
}
