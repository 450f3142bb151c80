/** What a whole stream delivers, told by the lines of its text. */
module SseStreamMeaning {
  import opened Wrappers
  import opened Json
  import opened SseStream
  import opened SseTheorems
  import opened SseMeaning
  import Text

  // ---------------------------------------------------------------- the lines of a text

  /** The lines with a newline between each two. */
  function Joined(lines: seq<string>): string
    requires lines != []
  {
    if |lines| == 1 then lines[0] else lines[0] + "\n" + Joined(lines[1..])
  }

  /** The text's lines: nothing but its newlines lies between them. */
  ghost predicate AreLines(lines: seq<string>, text: string) {
    lines != [] && Joined(lines) == text && forall i | 0 <= i < |lines| :: '\n' !in lines[i]
  }

  /** Every text has lines. */
  lemma {:induction false} LinesExist(text: string) returns (lines: seq<string>)
    ensures AreLines(lines, text)
  {
    var n := NewlineAt(text);
    if n == |text| {
      lines := [text];
    } else {
      var rest := LinesExist(text[n + 1..]);
      lines := [text[..n]] + rest;
      assert lines[1..] == rest;
      assert text == text[..n] + "\n" + text[n + 1..];
    }
  }

  /** The data of a line: what follows its `data:`, unless that is blank or the end mark. */
  ghost function Payload(line: string): Option<string> {
    var trimmed := Text.Trim(line);
    if !("data:" <= trimmed) then None
    else
      var data := Text.Trim(trimmed[5..]);
      if data == "" || data == "[DONE]" then None else Some(data)
  }

  /** The events that the lines' data parses to, in order. */
  ghost function Values(parse: Parser, lines: seq<string>): seq<Json> {
    if lines == [] then [] else ValueOf(parse, lines[0]) + Values(parse, lines[1..])
  }

  ghost function ValueOf(parse: Parser, line: string): seq<Json> {
    match Payload(line)
    case None => []
    case Some(data) => match parse(data) case None => [] case Some(v) => [v]
  }

  /** Every line's data parses. */
  ghost predicate AllParse(parse: Parser, lines: seq<string>) {
    forall i | 0 <= i < |lines| :: Parses(parse, lines[i])
  }

  ghost predicate Parses(parse: Parser, line: string) {
    Payload(line).Some? ==> parse(Payload(line).value).Some?
  }

  lemma LineMeans(parse: Parser, line: string, st: State)
    ensures ProcessLine(parse, Text.Trim(line), st) ==
            if !Parses(parse, line) then Err(MalformedEvent)
            else if ValueOf(parse, line) == [] then Ok(st)
            else Ok(ApplyEvent(ValueOf(parse, line)[0], st))
  {
  }

  // ---------------------------------------------------------------- white space at a line's end

  lemma {:induction false} TrimStartBefore(line: string)
    ensures Text.TrimStart(line + "\n") ==
            if Text.IsBlank(line) then "" else Text.TrimStart(line) + "\n"
  {
    var s := line + "\n";
    if line == "" {
      assert s[1..] == "";
    } else if Text.IsWhitespace(line[0]) {
      assert s[1..] == line[1..] + "\n";
      TrimStartBefore(line[1..]);
      assert line == [line[0]] + line[1..];
    }
  }

  lemma TrimIgnoresNewline(line: string)
    ensures Text.Trim(line + "\n") == Text.Trim(line)
  {
    TrimStartBefore(line);
    Text.BlankIffNothingAtStart(line);
    var t := Text.TrimStart(line);
    assert (t + "\n")[..|t|] == t;
  }

  // ---------------------------------------------------------------- from text to lines

  /** The lines processed in turn. */
  ghost function Process(parse: Parser, lines: seq<string>, st: State): Result<State, StreamError> {
    if lines == [] then Ok(st)
    else
      var r := ProcessLine(parse, Text.Trim(lines[0]), st);
      if r.Err? then r else Process(parse, lines[1..], r.value)
  }

  /** All complete lines, and then the rest. */
  ghost function FeedAll(parse: Parser, text: string, st: State): Result<State, StreamError> {
    var r := FeedLines(parse, text, st);
    if r.Err? then Err(r.error) else Flush(parse, r.value)
  }

  lemma FirstLine(line: string, rest: string)
    requires '\n' !in line
    ensures var text := line + "\n" + rest;
            NewlineAt(text) == |line| && text[..|line| + 1] == line + "\n" && text[|line| + 1..] == rest
  {
    var text := line + "\n" + rest;
    assert text[..|line|] == line;
    NewlineUnique(text, |line|);
  }

  lemma NoNewline(s: string)
    requires '\n' !in s
    ensures NewlineAt(s) == |s|
  {
  }

  lemma LastLine(parse: Parser, line: string, st: State)
    requires '\n' !in line
    ensures FeedAll(parse, line, st) == Process(parse, [line], st)
  {
    NoNewline(line);
    Text.BlankIffTrimmedAway(line);
    assert [line][1..] == [];
  }

  /** Feeding a text is processing its lines in turn. */
  lemma {:induction false} FeedIsProcess(parse: Parser, lines: seq<string>, text: string, st: State)
    requires AreLines(lines, text)
    ensures FeedAll(parse, text, st) == Process(parse, lines, st)
    decreases |lines|
  {
    if |lines| == 1 {
      LastLine(parse, lines[0], st);
      assert lines == [lines[0]];
    } else {
      var rest := lines[1..];
      FirstLine(lines[0], Joined(rest));
      TrimIgnoresNewline(lines[0]);
      var r := ProcessLine(parse, Text.Trim(lines[0]), st);
      if r.Ok? { FeedIsProcess(parse, rest, Joined(rest), r.value); }
    }
  }

  // ---------------------------------------------------------------- from lines to events

  /** The texts are those of the events, in order. */
  ghost predicate Carry(values: seq<Json>, texts: seq<string>) {
    |texts| == |values| && forall i | 0 <= i < |values| :: Carries(values[i], texts[i])
  }

  /** Every list of events has texts. */
  lemma {:induction false} TextsExist(values: seq<Json>) returns (texts: seq<string>)
    ensures Carry(values, texts)
  {
    if values == [] {
      texts := [];
    } else {
      var text := EveryEventHasOneText(values[0]);
      var rest := TextsExist(values[1..]);
      texts := [text] + rest;
    }
  }

  /** The deltas of the texts that are not empty, numbered from here on. */
  ghost function Delivered(texts: seq<string>, sequence: nat): seq<Event> {
    if texts == [] then []
    else if texts[0] == "" then Delivered(texts[1..], sequence)
    else [Delta(sequence, texts[0])] + Delivered(texts[1..], sequence + 1)
  }

  ghost predicate NoneAsks(values: seq<Json>) {
    forall i | 0 <= i < |values| :: Asks(values[i], [])
  }

  ghost function Applied(values: seq<Json>, st: State): State {
    if values == [] then st else Applied(values[1..], ApplyEvent(values[0], st))
  }

  /** The lines go through iff their data parses, and then leave what their events do. */
  lemma {:induction false} ProcessMeans(parse: Parser, lines: seq<string>, st: State)
    ensures Process(parse, lines, st) ==
            if AllParse(parse, lines) then Ok(Applied(Values(parse, lines), st)) else Err(MalformedEvent)
  {
    if lines != [] {
      var rest := lines[1..];
      LineMeans(parse, lines[0], st);
      assert AllParse(parse, lines) <==> Parses(parse, lines[0]) && AllParse(parse, rest) by {
        assert forall i | 0 < i < |lines| :: lines[i] == rest[i - 1];
      }
      if Parses(parse, lines[0]) {
        var here := ValueOf(parse, lines[0]);
        if here == [] {
          ProcessMeans(parse, rest, st);
          assert Values(parse, lines) == Values(parse, rest);
        } else {
          ProcessMeans(parse, rest, ApplyEvent(here[0], st));
          assert (here + Values(parse, rest))[1..] == Values(parse, rest);
        }
      }
    }
  }

  lemma {:induction false} AppliedContent(values: seq<Json>, texts: seq<string>, st: State)
    requires Carry(values, texts)
    ensures Applied(values, st).content == st.content + Concat(texts)
  {
    if values != [] {
      EventAddsItsText(values[0], st, texts[0]);
      assert Carry(values[1..], texts[1..]);
      AppliedContent(values[1..], texts[1..], ApplyEvent(values[0], st));
      Text.Regroup(st.content, texts[0], Concat(texts[1..]));
    }
  }

  lemma Regroup<T>(a: seq<T>, b: seq<T>, c: seq<T>)
    ensures a + (b + c) == a + b + c
  {
  }

  lemma {:induction false} AppliedEvents(values: seq<Json>, texts: seq<string>, st: State)
    requires Carry(values, texts)
    ensures Applied(values, st).events == st.events + Delivered(texts, st.sequence)
  {
    if values == [] {
      assert st.events + [] == st.events;
    } else {
      var st1 := ApplyEvent(values[0], st);
      EventAddsItsText(values[0], st, texts[0]);
      assert Carry(values[1..], texts[1..]);
      AppliedEvents(values[1..], texts[1..], st1);
      FirstDelivered(texts, st.events, st.sequence, st1.events, st1.sequence);
    }
  }

  lemma FirstDelivered(texts: seq<string>, events: seq<Event>, n: nat, events': seq<Event>, n': nat)
    requires texts != []
    requires events' == events + (if texts[0] == "" then [] else [Delta(n, texts[0])])
    requires n' == n + (if texts[0] == "" then 0 else 1)
    ensures events' + Delivered(texts[1..], n') == events + Delivered(texts, n)
  {
    if texts[0] == "" {
      assert events + [] == events;
    } else {
      Regroup(events, [Delta(n, texts[0])], Delivered(texts[1..], n'));
    }
  }

  lemma {:induction false} AppliedCalls(values: seq<Json>, st: State)
    ensures var st' := Applied(values, st);
            st.toolCalls <= st'.toolCalls && (st'.toolCalls == st.toolCalls <==> NoneAsks(values))
  {
    if values != [] {
      var st1 := ApplyEvent(values[0], st);
      EventAddsItsCalls(values[0], st, []);
      AppliedCalls(values[1..], st1);
      assert NoneAsks(values) <==> Asks(values[0], []) && NoneAsks(values[1..]) by {
        assert forall i | 0 < i < |values| :: values[i] == values[1..][i - 1];
      }
    }
  }

  // ---------------------------------------------------------------- whole streams

  /** One chunk with the whole text: the calls of the complete lines are looked at before the last line. */
  lemma OneChunk(parse: Parser, text: string)
    ensures var r := FeedAll(parse, text, INITIAL);
            var s := Stream(parse, [text]);
            if r.Err? then s.Err? && s.error != NoContent
            else if r.value.toolCalls != [] then s == Err(UnexpectedToolCall)
            else if Text.IsBlank(r.value.content) then s == Err(NoContent)
            else s == Ok(Reply(Text.Trim(r.value.content), r.value.events))
  {
    var start := Fed("", INITIAL);
    assert "" + text == text && [text][1..] == [];
    var fed := FeedLines(parse, text, INITIAL);
    ToolCallsAccumulate(parse, text, INITIAL);
    assert FeedChunks(parse, [text], start) ==
           if fed.Ok? && fed.value.st.toolCalls != [] then Err(UnexpectedToolCall) else fed;
    if fed.Ok? { LineAccumulates(parse, Text.Trim(fed.value.pending), fed.value.st); }
  }

  lemma AnyChunks(parse: Parser, chunks: seq<string>)
    ensures var text := Concat(chunks);
            if FeedAll(parse, text, INITIAL).Ok? then Stream(parse, chunks) == Stream(parse, [text])
            else Stream(parse, chunks).Err? && Stream(parse, chunks).error != NoContent
  {
    var text := Concat(chunks);
    StreamAgainstWhole(parse, chunks);
    OneChunk(parse, text);
    var start := Fed("", INITIAL);
    assert "" + text == text;
    var n := ChunksAgainstWhole(parse, "", chunks, start);
    ToolCallsAccumulate(parse, text, INITIAL);
  }

  /** What the lines leave behind. */
  lemma LinesLeave(parse: Parser, lines: seq<string>, text: string, texts: seq<string>)
    requires AreLines(lines, text) && Carry(Values(parse, lines), texts)
    ensures var r := FeedAll(parse, text, INITIAL);
            && (r.Ok? <==> AllParse(parse, lines))
            && (r.Ok? ==>
                  && (r.value.toolCalls == [] <==> NoneAsks(Values(parse, lines)))
                  && r.value.content == Concat(texts) && r.value.events == [Started(0)] + Delivered(texts, 1))
  {
    FeedIsProcess(parse, lines, text, INITIAL);
    ProcessMeans(parse, lines, INITIAL);
    AppliedContent(Values(parse, lines), texts, INITIAL);
    AppliedEvents(Values(parse, lines), texts, INITIAL);
    AppliedCalls(Values(parse, lines), INITIAL);
    assert "" + Concat(texts) == Concat(texts);
  }

  lemma NoneAsksSplits(first: seq<Json>, rest: seq<Json>)
    ensures NoneAsks(first + rest) <==> NoneAsks(first) && NoneAsks(rest)
  {
    var all := first + rest;
    assert forall i | 0 <= i < |first| :: all[i] == first[i];
    assert forall i | 0 <= i < |rest| :: rest[i] == all[|first| + i];
  }

  lemma PrefixOfLines(line: string, rest: string, n: nat)
    requires |line| < n <= |line + "\n" + rest|
    ensures (line + "\n" + rest)[..n] == line + "\n" + rest[..n - |line| - 1]
  {
  }

  lemma LineKeepsCalls(parse: Parser, line: string, st: State)
    requires NoneAsks(ValueOf(parse, line))
    ensures var r := ProcessLine(parse, Text.Trim(line), st); r.Ok? ==> r.value.toolCalls == st.toolCalls
  {
    LineMeans(parse, line, st);
    var here := ValueOf(parse, line);
    if here != [] {
      assert Asks(here[0], []);
      EventAddsItsCalls(here[0], st, []);
    }
  }

  /** When no event asks for a tool, none has been collected at any point of the text. */
  lemma {:induction false} NothingCollected(parse: Parser, lines: seq<string>, text: string, n: nat, st: State)
    requires AreLines(lines, text) && n <= |text| && NoneAsks(Values(parse, lines))
    ensures var r := FeedLines(parse, text[..n], st); r.Ok? ==> r.value.st.toolCalls == st.toolCalls
    decreases |lines|
  {
    if |lines| == 1 || n <= |lines[0]| {
      assert text[..n] == lines[0][..n];
      NoNewline(text[..n]);
    } else {
      var rest, m := lines[1..], n - |lines[0]| - 1;
      NoneAsksSplits(ValueOf(parse, lines[0]), Values(parse, rest));
      PrefixOfLines(lines[0], Joined(rest), n);
      FirstLine(lines[0], Joined(rest)[..m]);
      TrimIgnoresNewline(lines[0]);
      LineKeepsCalls(parse, lines[0], st);
      var r := ProcessLine(parse, Text.Trim(lines[0]), st);
      if r.Ok? { NothingCollected(parse, rest, Joined(rest), m, r.value); }
    }
  }

  /** Data that does not parse is then what is reported. */
  lemma MalformedIsReported(parse: Parser, chunks: seq<string>, lines: seq<string>)
    requires AreLines(lines, Concat(chunks)) && NoneAsks(Values(parse, lines)) && !AllParse(parse, lines)
    ensures Stream(parse, chunks) == Err(MalformedEvent)
  {
    var text := Concat(chunks);
    FeedIsProcess(parse, lines, text, INITIAL);
    ProcessMeans(parse, lines, INITIAL);
    forall n: nat ensures !ToolCallWithin(parse, text, n) {
      if n <= |text| { NothingCollected(parse, lines, text, n, INITIAL); }
    }
    NothingCollected(parse, lines, text, |text|, INITIAL);
    assert text[..|text|] == text;
    MalformedInOneChunk(parse, text);
    StreamAgainstWhole(parse, chunks);
  }

  lemma MalformedInOneChunk(parse: Parser, text: string)
    requires FeedAll(parse, text, INITIAL) == Err(MalformedEvent)
    requires Whole(parse, text).Ok? ==> Whole(parse, text).value.st.toolCalls == []
    ensures Stream(parse, [text]) == Err(MalformedEvent)
  {
    assert "" + text == text && [text][1..] == [];
    var fed := Whole(parse, text);
    assert FeedChunks(parse, [text], Fed("", INITIAL)) == fed;
  }

  /** However its text is cut into chunks, a stream succeeds iff the data of all its lines parses, no event
      asks for a tool, and the events' texts together are not blank. It then delivers these texts, in order
      and trimmed, with one numbered delta for each that is not empty; each failure is named. */
  lemma StreamMeans(parse: Parser, chunks: seq<string>, lines: seq<string>, texts: seq<string>)
    requires AreLines(lines, Concat(chunks)) && Carry(Values(parse, lines), texts)
    ensures var r := Stream(parse, chunks);
            var values, content := Values(parse, lines), Concat(texts);
            && (r.Ok? <==> AllParse(parse, lines) && NoneAsks(values) && !Text.IsBlank(content))
            && (r.Ok? ==> r.value == Reply(Text.Trim(content), [Started(0)] + Delivered(texts, 1)))
            && (AllParse(parse, lines) && !NoneAsks(values) ==> r == Err(UnexpectedToolCall))
            && (AllParse(parse, lines) && NoneAsks(values) && Text.IsBlank(content) ==> r == Err(NoContent))
            && (!AllParse(parse, lines) && NoneAsks(values) ==> r == Err(MalformedEvent))
            && (!AllParse(parse, lines) ==> r == Err(MalformedEvent) || r == Err(UnexpectedToolCall))
  {
    LinesLeave(parse, lines, Concat(chunks), texts);
    OneChunk(parse, Concat(chunks));
    AnyChunks(parse, chunks);
    if !AllParse(parse, lines) && NoneAsks(Values(parse, lines)) { MalformedIsReported(parse, chunks, lines); }
  }
}
