/** How the text is cut into chunks does not show in what the stream delivers. */
module SseTheorems {
  import opened Wrappers
  import opened Json
  import opened SseStream
  import Text

  function Concat(chunks: seq<string>): string {
    if chunks == [] then "" else chunks[0] + Concat(chunks[1..])
  }

  lemma ConcatTwo(a: string, b: string)
    ensures Concat([a, b]) == a + b
  {
    assert [a, b][1..] == [b] && [b][1..] == [];
    assert Concat([b]) == b + Concat([]) == b;
  }

  function Whole(parse: Parser, text: string): Result<Fed, StreamError> {
    FeedLines(parse, text, INITIAL)
  }

  lemma {:induction false} NewlineUnique(s: string, n: nat)
    requires n < |s| && s[n] == '\n' && '\n' !in s[..n]
    ensures NewlineAt(s) == n
  {
    if n > 0 {
      assert s[..n][0] == s[0];
      assert s[1..][..n - 1] == s[..n][1..];
      NewlineUnique(s[1..], n - 1);
    }
  }

  /** A line that is complete in a is the same line in a + b. */
  lemma LineInFront(a: string, b: string)
    requires NewlineAt(a) < |a|
    ensures var n := NewlineAt(a);
            && NewlineAt(a + b) == n < |a + b|
            && (a + b)[..n + 1] == a[..n + 1] && (a + b)[n + 1..] == a[n + 1..] + b
  {
    var n := NewlineAt(a);
    assert (a + b)[..n] == a[..n];
    NewlineUnique(a + b, n);
  }

  /** The first line of a leads a and a + b to the same state. */
  lemma FirstLineOfBoth(parse: Parser, a: string, b: string, st: State) returns (r: Result<State, StreamError>)
    requires NewlineAt(a) < |a|
    ensures var rest := a[NewlineAt(a) + 1..];
            && FeedLines(parse, a, st) == (if r.Err? then Err(r.error) else FeedLines(parse, rest, r.value))
            && FeedLines(parse, a + b, st) == (if r.Err? then Err(r.error) else FeedLines(parse, rest + b, r.value))
  {
    LineInFront(a, b);
    r := ProcessLine(parse, Text.Trim(a[..NewlineAt(a) + 1]), st);
  }

  /** Feeding a + b is feeding a, and then b after what a left over. */
  lemma {:induction false} FeedSplits(parse: Parser, a: string, b: string, st: State)
    ensures var first := FeedLines(parse, a, st);
            FeedLines(parse, a + b, st) ==
            if first.Err? then first else FeedLines(parse, first.value.pending + b, first.value.st)
    decreases |a|
  {
    if NewlineAt(a) < |a| {
      var r := FirstLineOfBoth(parse, a, b, st);
      if r.Ok? { FeedSplits(parse, a[NewlineAt(a) + 1..], b, r.value); }
    } else {
      assert FeedLines(parse, a, st) == Ok(Fed(a, st));
    }
  }

  lemma LineAccumulates(parse: Parser, line: string, st: State)
    ensures var r := ProcessLine(parse, line, st);
            && (r.Ok? ==> st.toolCalls <= r.value.toolCalls)
            && (r.Err? ==> r.error == MalformedEvent)
  {
  }

  lemma {:induction false} ToolCallsAccumulate(parse: Parser, pending: string, st: State)
    ensures var r := FeedLines(parse, pending, st);
            && (r.Ok? ==> st.toolCalls <= r.value.st.toolCalls)
            && (r.Err? ==> r.error == MalformedEvent)
    decreases |pending|
  {
    var n := NewlineAt(pending);
    if n < |pending| {
      var r := ProcessLine(parse, Text.Trim(pending[..n + 1]), st);
      LineAccumulates(parse, Text.Trim(pending[..n + 1]), st);
      if r.Ok? { ToolCallsAccumulate(parse, pending[n + 1..], r.value); }
    }
  }

  /** Some prefix of the text already holds a complete line with a tool call. */
  ghost predicate ToolCallWithin(parse: Parser, text: string, n: nat) {
    n <= |text| && Whole(parse, text[..n]).Ok? && Whole(parse, text[..n]).value.st.toolCalls != []
  }

  lemma WholeGoesOn(parse: Parser, seen: string, more: string)
    ensures var first := Whole(parse, seen);
            Whole(parse, seen + more) == if first.Err? then first
                else FeedLines(parse, first.value.pending + more, first.value.st)
  {
    FeedSplits(parse, seen, more, INITIAL);
  }

  lemma WholeKeepsToolCalls(parse: Parser, seen: string, more: string)
    requires Whole(parse, seen).Ok? && Whole(parse, seen + more).Ok?
    ensures Whole(parse, seen).value.st.toolCalls <= Whole(parse, seen + more).value.st.toolCalls
  {
    WholeGoesOn(parse, seen, more);
    var fed := Whole(parse, seen).value;
    ToolCallsAccumulate(parse, fed.pending + more, fed.st);
  }

  /** Chunked feeding from a state with no tool call, against feeding all the text at once. `seen`
      is the text that led to that state; n is where a tool call hid an error. */
  lemma {:induction false} ChunksAgainstWhole(parse: Parser, seen: string, chunks: seq<string>, fed: Fed)
      returns (n: nat)
    requires Whole(parse, seen) == Ok(fed) && fed.st.toolCalls == []
    ensures var chunked := FeedChunks(parse, chunks, fed);
            var whole := Whole(parse, seen + Concat(chunks));
            && (whole.Ok? && whole.value.st.toolCalls == [] ==> chunked == whole)
            && (whole.Ok? && whole.value.st.toolCalls != [] ==> chunked == Err(UnexpectedToolCall))
            && (whole.Err? && chunked != whole ==>
                  chunked == Err(UnexpectedToolCall) && ToolCallWithin(parse, seen + Concat(chunks), n))
    decreases |chunks|
  {
    n := 0;
    if chunks == [] {
      assert seen + Concat(chunks) == seen;
    } else {
      var front, rest := seen + chunks[0], Concat(chunks[1..]);
      Text.Regroup(seen, chunks[0], rest);
      WholeGoesOn(parse, seen, chunks[0]);
      var r := Whole(parse, front);
      if r.Err? {
        WholeGoesOn(parse, front, rest);
      } else if r.value.st.toolCalls == [] {
        n := ChunksAgainstWhole(parse, front, chunks[1..], r.value);
      } else {
        n := |front|;
        assert (front + rest)[..n] == front;
        if Whole(parse, front + rest).Ok? { WholeKeepsToolCalls(parse, front, rest); }
      }
    }
  }

  /** The text has a malformed line, and a complete line with a tool call before it. */
  ghost predicate ToolCallBeforeFault(parse: Parser, text: string) {
    Whole(parse, text).Err? && exists n: nat :: ToolCallWithin(parse, text, n)
  }

  lemma StreamAgainstWhole(parse: Parser, chunks: seq<string>)
    ensures var text := Concat(chunks);
            var whole := Stream(parse, [text]);
            && (!ToolCallBeforeFault(parse, text) ==> Stream(parse, chunks) == whole)
            && (Whole(parse, text).Err? ==> Stream(parse, chunks).Err? && whole == Err(MalformedEvent))
  {
    var text := Concat(chunks);
    var start := Fed("", INITIAL);
    assert "" + text == text;
    assert [text][1..] == [];
    assert Concat([text]) == text by { assert text + "" == text; }
    var n := ChunksAgainstWhole(parse, "", chunks, start);
    ToolCallsAccumulate(parse, text, INITIAL);
    assert FeedChunks(parse, [text], start) ==
           (var r := Whole(parse, text); if r.Ok? && r.value.st.toolCalls != [] then Err(UnexpectedToolCall) else r);
    if Whole(parse, text).Ok? {
      var fed := Whole(parse, text).value;
      if fed.st.toolCalls != [] {
        assert chunks == [] ==> text == "";
      }
    }
  }

  /** Whether the stream succeeds, and what it then delivers, never depends on the chunking. */
  lemma SuccessIgnoresChunking(parse: Parser, chunks: seq<string>)
    ensures Stream(parse, chunks).Ok? <==> Stream(parse, [Concat(chunks)]).Ok?
    ensures Stream(parse, chunks).Ok? ==> Stream(parse, chunks) == Stream(parse, [Concat(chunks)])
  {
    StreamAgainstWhole(parse, chunks);
  }

  /** The whole outcome, error included, is the same for every chunking of a text iff the text has no
      tool call before a malformed line. */
  lemma ChunkingIsInvisibleIff(parse: Parser, text: string)
    ensures (forall chunks | Concat(chunks) == text :: Stream(parse, chunks) == Stream(parse, [text])) <==>
            !ToolCallBeforeFault(parse, text)
  {
    if ToolCallBeforeFault(parse, text) {
      var n: nat :| ToolCallWithin(parse, text, n);
      var chunks := [text[..n], text[n..]];
      ConcatTwo(text[..n], text[n..]);
      assert text[..n] + text[n..] == text;
      assert "" + text[..n] == text[..n];
      assert Stream(parse, chunks) == Err(UnexpectedToolCall);
      StreamAgainstWhole(parse, chunks);
    } else {
      forall chunks | Concat(chunks) == text ensures Stream(parse, chunks) == Stream(parse, [text]) {
        StreamAgainstWhole(parse, chunks);
      }
    }
  }

  // ---------------------------------------------------------------- content and numbering

  function Deltas(events: seq<Event>): string {
    if events == [] then ""
    else
      var last := events[|events| - 1];
      Deltas(events[..|events| - 1]) + if last.Delta? then last.text else ""
  }

  /** Event i has number i, the first is Started, the others are non-empty deltas, and the content so
      far is their concatenation. */
  ghost predicate Coherent(st: State) {
    && st.sequence == |st.events| > 0
    && st.content == Deltas(st.events)
    && Numbered(st.events)
    && st.events[0].Started? && forall i | 1 <= i < |st.events| :: st.events[i].Delta? && st.events[i].text != ""
  }

  ghost predicate Numbered(events: seq<Event>) {
    forall i | 0 <= i < |events| :: events[i].sequence == i
  }

  lemma EventKeepsCoherent(v: Json, st: State)
    requires Coherent(st)
    ensures Coherent(ApplyEvent(v, st))
  {
    var st' := ApplyEvent(v, st);
    if st'.events != st.events { assert st'.events[..|st.events|] == st.events; }
  }

  lemma LineKeepsCoherent(parse: Parser, line: string, st: State)
    requires Coherent(st)
    ensures var r := ProcessLine(parse, line, st); r.Ok? ==> Coherent(r.value)
  {
    var r := ProcessLine(parse, line, st);
    if r.Ok? && r.value != st { EventKeepsCoherent(parse(Text.Trim(line[|DATA|..])).value, st); }
  }

  lemma {:induction false} FeedKeepsCoherent(parse: Parser, pending: string, st: State)
    requires Coherent(st)
    ensures var r := FeedLines(parse, pending, st); r.Ok? ==> Coherent(r.value.st)
    decreases |pending|
  {
    var n := NewlineAt(pending);
    if n < |pending| {
      var line := Text.Trim(pending[..n + 1]);
      LineKeepsCoherent(parse, line, st);
      var r := ProcessLine(parse, line, st);
      if r.Ok? { FeedKeepsCoherent(parse, pending[n + 1..], r.value); }
    }
  }

  lemma {:induction false} ChunksKeepCoherent(parse: Parser, chunks: seq<string>, fed: Fed)
    requires Coherent(fed.st)
    ensures var r := FeedChunks(parse, chunks, fed); r.Ok? ==> Coherent(r.value.st)
  {
    if chunks != [] {
      FeedKeepsCoherent(parse, fed.pending + chunks[0], fed.st);
      var r := FeedLines(parse, fed.pending + chunks[0], fed.st);
      if r.Ok? { ChunksKeepCoherent(parse, chunks[1..], r.value); }
    }
  }

  /** A stream that succeeds delivers the trimmed concatenation of its deltas, and its events are
      numbered 0, 1, 2, … through the closing schema-partial and final events. */
  lemma StreamDeliversDeltas(parse: Parser, chunks: seq<string>)
    requires Stream(parse, chunks).Ok?
    ensures var reply := Stream(parse, chunks).value;
            && reply.content == Text.Trim(Deltas(reply.events)) && reply.content != ""
            && Numbered(Close(reply.events))
            && |Close(reply.events)| == |reply.events| + 2
            && Close(reply.events)[0].Started? && Close(reply.events)[|reply.events| + 1].Final?
  {
    assert Coherent(INITIAL) by { assert Deltas(INITIAL.events) == ""; }
    ChunksKeepCoherent(parse, chunks, Fed("", INITIAL));
    var fed := FeedChunks(parse, chunks, Fed("", INITIAL)).value;
    LineKeepsCoherent(parse, Text.Trim(fed.pending), fed.st);
    Text.BlankIffTrimmedAway(Flush(parse, fed).value.content);
  }
}
