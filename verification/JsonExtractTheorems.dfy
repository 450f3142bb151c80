/** The extractor finds a JSON object wherever it stands in the text, exactly as it was printed. */
module JsonExtractTheorems {
  import opened Wrappers
  import opened JsonExtract
  import JsonText
  import Text

  // ---------------------------------------------------------------- the scan over printed JSON

  /** The scan state after the whole text, or None when the scan closes inside it. */
  function Pass(text: string, s: Scan): Option<Scan> {
    if text == "" then Some(s)
    else if Closes(s, text[0]) then None
    else Pass(text[1..], Advance(s, text[0]))
  }

  function Then(first: Option<Scan>, text: string): Option<Scan> {
    if first.None? then None else Pass(text, first.value)
  }

  lemma {:induction false} PassConcat(a: string, b: string, s: Scan)
    ensures Pass(a + b, s) == Then(Pass(a, s), b)
  {
    if a == "" {
      assert a + b == b;
    } else {
      assert (a + b)[1..] == a[1..] + b;
      if !Closes(s, a[0]) { PassConcat(a[1..], b, Advance(s, a[0])); }
    }
  }

  lemma PassOne(c: char, s: Scan)
    ensures Pass([c], s) == if Closes(s, c) then None else Some(Advance(s, c))
  {
    assert [c][1..] == "";
  }

  lemma {:induction false} ClosesAfter(front: string, back: string, s: Scan)
    requires back != "" && Pass(front, s).Some? && Closes(Pass(front, s).value, back[0])
    ensures CloseAt(front + back, s) == Some(|front|)
  {
    if front == "" {
      assert front + back == back;
    } else {
      assert (front + back)[1..] == front[1..] + back;
      ClosesAfter(front[1..], back, Advance(s, front[0]));
    }
  }

  function Outside(depth: nat): Scan {
    Scan(depth, false, false)
  }

  /** Text the scan goes through without changing state, outside strings. */
  ghost predicate Neutral(text: string) {
    forall depth: nat | depth > 0 :: Pass(text, Outside(depth)) == Some(Outside(depth))
  }

  lemma NeutralConcat(a: string, b: string)
    requires Neutral(a) && Neutral(b)
    ensures Neutral(a + b)
  {
    forall depth: nat | depth > 0 ensures Pass(a + b, Outside(depth)) == Some(Outside(depth)) {
      PassConcat(a, b, Outside(depth));
    }
  }

  predicate IsQuiet(text: string) {
    forall i | 0 <= i < |text| :: text[i] != '"' && text[i] != '{' && text[i] != '}'
  }

  lemma {:induction false} QuietPasses(text: string, s: Scan)
    requires IsQuiet(text) && !s.inString
    ensures Pass(text, s) == Some(s)
  {
    if text != "" { QuietPasses(text[1..], s); }
  }

  lemma QuietIsNeutral(text: string)
    requires IsQuiet(text)
    ensures Neutral(text)
  {
    forall depth: nat | depth > 0 ensures Pass(text, Outside(depth)) == Some(Outside(depth)) {
      QuietPasses(text, Outside(depth));
    }
  }

  lemma {:induction false} ElementsPass(elements: seq<JsonText.Element>, depth: nat)
    requires JsonText.ElementsOk(elements)
    ensures Pass(JsonText.PrintElements(elements), Scan(depth, true, false)) == Some(Scan(depth, true, false))
  {
    if elements != [] {
      var e := elements[0];
      var head := if e.Plain? then [e.c] else ['\\', e.c];
      ElementsPass(elements[1..], depth);
      PassConcat(head, JsonText.PrintElements(elements[1..]), Scan(depth, true, false));
      if e.Escape? { assert head[1..] == [e.c] && [e.c][1..] == ""; }
    }
  }

  lemma QuotedIsNeutral(elements: seq<JsonText.Element>)
    requires JsonText.ElementsOk(elements)
    ensures Neutral(JsonText.PrintQuoted(elements))
  {
    var inside := JsonText.PrintElements(elements);
    forall depth: nat | depth > 0 ensures Pass(JsonText.PrintQuoted(elements), Outside(depth)) == Some(Outside(depth)) {
      ElementsPass(elements, depth);
      PassOne('"', Outside(depth));
      PassOne('"', Scan(depth, true, false));
      PassConcat("\"", inside, Outside(depth));
      PassConcat("\"" + inside, "\"", Outside(depth));
    }
  }

  lemma SpaceIsNeutral(s: string)
    requires JsonText.IsSpace(s)
    ensures Neutral(s)
  {
    QuietIsNeutral(s);
  }

  lemma {:induction false} TextIsNeutral(t: JsonText.Text)
    requires JsonText.Ok(t)
    ensures Neutral(JsonText.Print(t))
    decreases t, 2
  {
    match t {
      case Scalar(token) => QuietIsNeutral(token);
      case Quoted(elements) => QuotedIsNeutral(elements);
      case ArrayText(space, items) =>
        SpaceIsNeutral(space);
        ItemsAreNeutral(items);
        QuietIsNeutral("[");
        QuietIsNeutral("]");
        NeutralConcat("[", space);
        NeutralConcat("[" + space, JsonText.PrintItems(items));
        NeutralConcat("[" + space + JsonText.PrintItems(items), "]");
      case ObjectText(space, members) =>
        ObjectIsNeutral(space, members);
    }
  }

  lemma PaddedIsNeutral(p: JsonText.Padded)
    requires JsonText.PaddedOk(p)
    ensures Neutral(JsonText.PrintPadded(p))
    decreases p, 0
  {
    SpaceIsNeutral(p.before);
    SpaceIsNeutral(p.after);
    TextIsNeutral(p.item);
    NeutralConcat(p.before, JsonText.Print(p.item));
    NeutralConcat(p.before + JsonText.Print(p.item), p.after);
  }

  lemma {:induction false} ItemsAreNeutral(items: seq<JsonText.Padded>)
    requires forall i | 0 <= i < |items| :: JsonText.PaddedOk(items[i])
    ensures Neutral(JsonText.PrintItems(items))
    decreases items, 1
  {
    if items == [] {
      QuietIsNeutral("");
    } else {
      PaddedIsNeutral(items[0]);
      if |items| > 1 {
        ItemsAreNeutral(items[1..]);
        QuietIsNeutral(",");
        NeutralConcat(JsonText.PrintPadded(items[0]), ",");
        NeutralConcat(JsonText.PrintPadded(items[0]) + ",", JsonText.PrintItems(items[1..]));
      }
    }
  }

  lemma MemberIsNeutral(m: JsonText.Member)
    requires JsonText.MemberOk(m)
    ensures Neutral(JsonText.PrintMember(m))
    decreases m, 0
  {
    SpaceIsNeutral(m.before);
    SpaceIsNeutral(m.colon);
    QuotedIsNeutral(m.key);
    QuietIsNeutral(":");
    PaddedIsNeutral(m.value);
    NeutralConcat(m.before, JsonText.PrintQuoted(m.key));
    NeutralConcat(m.before + JsonText.PrintQuoted(m.key), m.colon);
    NeutralConcat(m.before + JsonText.PrintQuoted(m.key) + m.colon, ":");
    NeutralConcat(m.before + JsonText.PrintQuoted(m.key) + m.colon + ":", JsonText.PrintPadded(m.value));
  }

  lemma {:induction false} MembersAreNeutral(members: seq<JsonText.Member>)
    requires forall i | 0 <= i < |members| :: JsonText.MemberOk(members[i])
    ensures Neutral(JsonText.PrintMembers(members))
    decreases members, 1
  {
    if members == [] {
      QuietIsNeutral("");
    } else {
      MemberIsNeutral(members[0]);
      if |members| > 1 {
        MembersAreNeutral(members[1..]);
        QuietIsNeutral(",");
        NeutralConcat(JsonText.PrintMember(members[0]), ",");
        NeutralConcat(JsonText.PrintMember(members[0]) + ",", JsonText.PrintMembers(members[1..]));
      }
    }
  }

  /** All of an object but its closing brace: the scan ends one level deeper. */
  lemma ObjectFrontPasses(space: string, members: seq<JsonText.Member>, depth: nat)
    requires JsonText.IsSpace(space) && forall i | 0 <= i < |members| :: JsonText.MemberOk(members[i])
    ensures Pass("{" + space + JsonText.PrintMembers(members), Outside(depth)) == Some(Outside(depth + 1))
    decreases members, 2
  {
    var body := space + JsonText.PrintMembers(members);
    SpaceIsNeutral(space);
    MembersAreNeutral(members);
    NeutralConcat(space, JsonText.PrintMembers(members));
    PassConcat("{", body, Outside(depth));
    assert "{" + body == "{" + space + JsonText.PrintMembers(members);
  }

  lemma ObjectIsNeutral(space: string, members: seq<JsonText.Member>)
    requires JsonText.IsSpace(space) && forall i | 0 <= i < |members| :: JsonText.MemberOk(members[i])
    ensures Neutral(JsonText.Print(JsonText.ObjectText(space, members)))
    decreases members, 3
  {
    var front := "{" + space + JsonText.PrintMembers(members);
    forall depth: nat | depth > 0 ensures Pass(front + "}", Outside(depth)) == Some(Outside(depth)) {
      ObjectFrontPasses(space, members, depth);
      PassConcat(front, "}", Outside(depth));
      PassOne('}', Outside(depth + 1));
    }
  }

  /** The string- and escape-aware scan of an object, whatever follows it, first reaches depth zero
      at the object's own last brace. */
  lemma ScanClosesAtLastBrace(j: JsonText.Text, suffix: string)
    requires JsonText.Ok(j) && j.ObjectText?
    ensures CloseAt(JsonText.Print(j) + suffix, START) == Some(|JsonText.Print(j)| - 1)
  {
    var front := "{" + j.space + JsonText.PrintMembers(j.members);
    ObjectFrontPasses(j.space, j.members, 0);
    ClosesAfter(front, "}" + suffix, START);
    assert front + ("}" + suffix) == JsonText.Print(j) + suffix;
  }

  // ---------------------------------------------------------------- the extractor

  /** The first brace of the text, through its balanced close. */
  function Lead(text: string): Option<string> {
    if text == "" then None
    else if text[0] == '{' then Candidate(text, 0)
    else Lead(text[1..])
  }

  lemma {:induction false} LeadIs(prefix: string, j: JsonText.Text, suffix: string)
    requires '{' !in prefix && JsonText.Ok(j) && j.ObjectText?
    ensures Lead(prefix + JsonText.Print(j) + suffix) == Some(JsonText.Print(j))
  {
    var text := prefix + JsonText.Print(j) + suffix;
    if prefix == "" {
      assert text == JsonText.Print(j) + suffix == text[0..];
      ScanClosesAtLastBrace(j, suffix);
      assert text[..|JsonText.Print(j)|] == JsonText.Print(j);
    } else {
      assert text[1..] == prefix[1..] + JsonText.Print(j) + suffix;
      LeadIs(prefix[1..], j, suffix);
    }
  }

  lemma {:induction false} FirstCandidateIsLead(isObject: Reader, text: string, start: nat)
    requires start <= |text| && Lead(text[start..]).Some? && isObject(Lead(text[start..]).value)
    ensures FirstCandidate(isObject, text, start) == Lead(text[start..])
    decreases |text| - start
  {
    assert text[start..][0] == text[start];
    assert text[start..][0..] == text[start..];
    if text[start] == '{' {
      var close := CloseAt(text[start..], START).value;
      assert text[start..][0..close + 1] == text[start..start + close + 1];
    } else {
      assert text[start..][1..] == text[start + 1..];
      FirstCandidateIsLead(isObject, text, start + 1);
    }
  }

  ghost predicate ObjectAt(isObject: Reader, text: string, start: nat) {
    start < |text| && Candidate(text, start).Some? && isObject(Candidate(text, start).value)
  }

  /** On any text the search gives the balanced candidate of the leftmost brace whose candidate the
      parser accepts, and nothing iff there is none. */
  lemma {:induction false} FirstCandidateMeans(isObject: Reader, text: string, start: nat)
    requires start <= |text|
    ensures var r := FirstCandidate(isObject, text, start);
            && (r.None? <==> forall i: nat | start <= i :: !ObjectAt(isObject, text, i))
            && (r.Some? ==> exists i: nat | start <= i ::
                  && ObjectAt(isObject, text, i) && r == Candidate(text, i)
                  && forall k: nat | start <= k < i :: !ObjectAt(isObject, text, k))
    decreases |text| - start
  {
    if start < |text| {
      if ObjectAt(isObject, text, start) {
        assert FirstCandidate(isObject, text, start) == Candidate(text, start);
      } else {
        FirstCandidateMeans(isObject, text, start + 1);
      }
    }
  }

  /** What the parser accepts is an object text with JSON white space around it. */
  ghost predicate Sound(isObject: Reader) {
    forall s | isObject(s) :: IsPaddedObject(s)
  }

  ghost predicate IsPaddedObject(s: string) {
    exists j, before, after ::
      JsonText.Ok(j) && j.ObjectText? && JsonText.IsSpace(before) && JsonText.IsSpace(after)
      && s == before + JsonText.Print(j) + after
  }

  predicate IsTrimmed(s: string) {
    s == "" || (!Text.IsWhitespace(s[0]) && !Text.IsWhitespace(s[|s| - 1]))
  }

  lemma SplitStart(s: string) returns (before: string)
    ensures s == before + Text.TrimStart(s) && Text.IsBlank(before)
  {
    var t := Text.TrimStart(s);
    Text.TrimStartMeans(s);
    before := s[..|s| - |t|];
    assert s == before + s[|s| - |t|..];
  }

  lemma SplitEnd(s: string) returns (after: string)
    ensures s == Text.TrimEnd(s) + after && Text.IsBlank(after)
  {
    var t := Text.TrimEnd(s);
    Text.TrimEndMeans(s);
    after := s[|t|..];
    assert s == s[..|t|] + after && s[..|t|] == t;
  }

  lemma TrimIsTrimmed(s: string) returns (before: string, after: string)
    ensures IsTrimmed(Text.Trim(s))
    ensures s == before + Text.Trim(s) + after && Text.IsBlank(before) && Text.IsBlank(after)
  {
    var t, u := Text.TrimStart(s), Text.Trim(s);
    before := SplitStart(s);
    after := SplitEnd(t);
    Text.TrimStartMeans(s);
    Text.TrimEndMeans(t);
    if u != "" { assert u[0] == t[0]; }
    Text.Regroup(before, u, after);
  }

  lemma SpaceInFront(before: string, rest: string)
    requires JsonText.IsSpace(before) && before != ""
    ensures !IsTrimmed(before + rest)
  {
    assert (before + rest)[0] == before[0];
  }

  lemma SpaceBehind(rest: string, after: string)
    requires JsonText.IsSpace(after) && after != ""
    ensures !IsTrimmed(rest + after)
  {
    var s := rest + after;
    assert s[|s| - 1] == after[|after| - 1];
  }

  /** A trimmed text the parser accepts has no white space around the object. */
  lemma TrimmedObject(isObject: Reader, s: string) returns (j: JsonText.Text)
    requires Sound(isObject) && isObject(s) && IsTrimmed(s)
    ensures JsonText.Ok(j) && j.ObjectText? && s == JsonText.Print(j)
  {
    assert IsPaddedObject(s);
    var j', before, after :|
      JsonText.Ok(j') && j'.ObjectText? && JsonText.IsSpace(before) && JsonText.IsSpace(after)
      && s == before + JsonText.Print(j') + after;
    assert s == before + (JsonText.Print(j') + after);
    if before != "" {
      SpaceInFront(before, JsonText.Print(j') + after);
    } else if after != "" {
      SpaceBehind(before + JsonText.Print(j'), after);
    }
    j := j';
  }

  /** Trimming a text with a trimmed part in it keeps the part and trims what is around it. */
  lemma TrimAround(prefix: string, body: string, suffix: string)
    requires body != "" && IsTrimmed(body)
    ensures Text.Trim(prefix + body + suffix) == Text.TrimStart(prefix) + body + Text.TrimEnd(suffix)
  {
    var rest := body + suffix;
    var start := Text.TrimStart(prefix);
    var front := start + body;
    assert rest[0] == body[0] && front[|front| - 1] == body[|body| - 1];
    calc {
      Text.Trim(prefix + body + suffix);
      { assert prefix + body + suffix == prefix + rest; }
      Text.TrimEnd(Text.TrimStart(prefix + rest));
      { TrimStartKeeps(prefix, rest); }
      Text.TrimEnd(start + rest);
      { assert start + rest == front + suffix; }
      Text.TrimEnd(front + suffix);
      { TrimEndKeeps(front, suffix); }
      front + Text.TrimEnd(suffix);
    }
  }

  lemma {:induction false} TrimStartAddsNoBrace(prefix: string)
    requires '{' !in prefix
    ensures '{' !in Text.TrimStart(prefix)
  {
    if prefix != "" && Text.IsWhitespace(prefix[0]) { TrimStartAddsNoBrace(prefix[1..]); }
  }

  lemma {:induction false} TrimStartKeeps(prefix: string, rest: string)
    requires rest != "" && !Text.IsWhitespace(rest[0])
    ensures Text.TrimStart(prefix + rest) == Text.TrimStart(prefix) + rest
  {
    if prefix == "" {
      assert prefix + rest == rest;
    } else {
      assert (prefix + rest)[1..] == prefix[1..] + rest;
      if Text.IsWhitespace(prefix[0]) { TrimStartKeeps(prefix[1..], rest); }
    }
  }

  lemma {:induction false} TrimEndKeeps(front: string, suffix: string)
    requires front != "" && !Text.IsWhitespace(front[|front| - 1])
    ensures Text.TrimEnd(front + suffix) == front + Text.TrimEnd(suffix)
  {
    if suffix == "" {
      assert front + suffix == front;
    } else {
      assert (front + suffix)[..|front + suffix| - 1] == front + suffix[..|suffix| - 1];
      if Text.IsWhitespace(suffix[|suffix| - 1]) { TrimEndKeeps(front, suffix[..|suffix| - 1]); }
    }
  }

  /** A fenced block's inside is where the scan would find it. */
  lemma FencedIsLead(isObject: Reader, text: string)
    requires Sound(isObject) && Unfence(text).Some? && isObject(Unfence(text).value)
    ensures Lead(text) == Some(Unfence(text).value)
  {
    if StripFence(text, JSON_FENCE).Some? {
      StrippedIsLead(isObject, text, JSON_FENCE);
    } else {
      StrippedIsLead(isObject, text, FENCE);
    }
  }

  lemma StripFenceMeans(text: string, opening: string)
    requires StripFence(text, opening).Some?
    ensures text == opening + StripFence(text, opening).value + FENCE
  {
    var rest := text[|opening|..];
    assert text == opening + rest;
    assert rest == rest[..|rest| - |FENCE|] + rest[|rest| - |FENCE|..];
  }

  lemma RegroupFive(a: string, b: string, c: string, d: string, e: string)
    ensures a + (b + c + d) + e == (a + b) + c + (d + e)
  {
  }

  lemma StrippedIsLead(isObject: Reader, text: string, opening: string)
    requires Sound(isObject) && '{' !in opening
    requires StripFence(text, opening).Some? && isObject(Text.Trim(StripFence(text, opening).value))
    ensures Lead(text) == Some(Text.Trim(StripFence(text, opening).value))
  {
    var raw := StripFence(text, opening).value;
    var inner := Text.Trim(raw);
    var before, after := TrimIsTrimmed(raw);
    var j := TrimmedObject(isObject, inner);
    StripFenceMeans(text, opening);
    RegroupFive(opening, before, inner, after, FENCE);
    assert '{' !in before;
    LeadIs(opening + before, j, after + FENCE);
  }

  /** What the direct strategy returns is what the brace scan would find. */
  lemma DirectIsLead(isObject: Reader, text: string)
    requires Sound(isObject) && isObject(text) && IsTrimmed(text)
    ensures Lead(text) == Some(text)
  {
    var j := TrimmedObject(isObject, text);
    assert text == "" + JsonText.Print(j) + "";
    LeadIs("", j, "");
  }

  /** For any JSON object the parser accepts, any prefix without an opening brace and any suffix, the
      extractor returns exactly the object's text. The three strategies agree; the direct one is used
      iff there is nothing but white space around the object. */
  lemma ExtractsTheObject(isObject: Reader, prefix: string, j: JsonText.Text, suffix: string)
    requires Sound(isObject)
    requires JsonText.Ok(j) && j.ObjectText? && isObject(JsonText.Print(j))
    requires '{' !in prefix
    ensures var r := Extract(isObject, prefix + JsonText.Print(j) + suffix);
            && r.Some? && r.value.0 == JsonText.Print(j)
            && (r.value.1 == Direct <==> Text.IsBlank(prefix) && Text.IsBlank(suffix))
  {
    var text := prefix + JsonText.Print(j) + suffix;
    var trimmed := Text.Trim(text);
    TrimAround(prefix, JsonText.Print(j), suffix);
    TrimStartAddsNoBrace(prefix);
    Text.BlankIffNothingAtStart(prefix);
    Text.BlankIffNothingAtEnd(suffix);
    var p, s := Text.TrimStart(prefix), Text.TrimEnd(suffix);
    LeadIs(p, j, s);
    var _, _ := TrimIsTrimmed(text);
    assert trimmed[0..] == trimmed;
    if isObject(trimmed) {
      DirectIsLead(isObject, trimmed);
    } else {
      assert p == "" && s == "" ==> trimmed == JsonText.Print(j);
      if Unfence(trimmed).Some? && isObject(Unfence(trimmed).value) {
        FencedIsLead(isObject, trimmed);
      } else {
        FirstCandidateIsLead(isObject, trimmed, 0);
      }
    }
  }
}
