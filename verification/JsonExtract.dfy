/** Finding the business JSON object in a provider's answer: the whole text, a fenced block, or the
    first balanced object found by a brace scan that understands strings and escapes. */
module JsonExtract {
  import opened Wrappers
  import Text

  /** The locals of the inner scan loop. */
  datatype Scan = Scan(depth: nat, inString: bool, escaped: bool)

  const START := Scan(0, false, false)

  function Advance(s: Scan, c: char): Scan {
    if s.inString then
      if s.escaped then s.(escaped := false)
      else if c == '\\' then s.(escaped := true)
      else if c == '"' then s.(inString := false)
      else s
    else if c == '"' then s.(inString := true)
    else if c == '{' then s.(depth := s.depth + 1)
    else if c == '}' then s.(depth := if s.depth == 0 then 0 else s.depth - 1)
    else s
  }

  /** A closing brace, outside strings, that leaves depth zero. */
  predicate Closes(s: Scan, c: char) {
    !s.inString && c == '}' && s.depth <= 1
  }

  /** The index where the scan first closes. */
  function CloseAt(text: string, s: Scan): (r: Option<nat>)
    ensures r.Some? ==> r.value < |text|
  {
    if text == "" then None
    else if Closes(s, text[0]) then Some(0)
    else
      var rest := CloseAt(text[1..], Advance(s, text[0]));
      if rest.None? then None else Some(rest.value + 1)
  }

  /** Whether `serde_json` reads the text as an object. */
  type Reader = string -> bool

  /** The candidate starting at a brace. */
  function Candidate(text: string, start: nat): Option<string>
    requires start < |text|
  {
    var close := CloseAt(text[start..], START);
    if text[start] == '{' && close.Some? then Some(text[start..start + close.value + 1]) else None
  }

  function FirstCandidate(isObject: Reader, text: string, start: nat): Option<string>
    requires start <= |text|
    decreases |text| - start
  {
    if start == |text| then None
    else
      var c := Candidate(text, start);
      if c.Some? && isObject(c.value) then c else FirstCandidate(isObject, text, start + 1)
  }

  function ShiftedClose(text: string, s: Scan, offset: nat): Option<nat> {
    var r := CloseAt(text, s);
    if r.None? then None else Some(r.value + offset)
  }

  lemma OneStep(text: string, s: Scan, offset: nat)
    requires text != ""
    ensures ShiftedClose(text, s, offset) ==
              if Closes(s, text[0]) then Some(offset) else ShiftedClose(text[1..], Advance(s, text[0]), offset + 1)
  {
  }

  /** The inner loop: from a brace on, find where the depth comes back to zero. */
  method ScanFrom(text: string, start: nat) returns (close: Option<nat>)
    requires start < |text|
    ensures close == CloseAt(text[start..], START)
  {
    var depth, inString, escaped := 0, false, false;
    var relative := 0;
    ghost var closeAt := CloseAt(text[start..], START);
    while start + relative < |text|
      invariant 0 <= depth && 0 <= relative && start + relative <= |text|
      invariant closeAt == ShiftedClose(text[start + relative..], Scan(depth, inString, escaped), relative)
    {
      var c := text[start + relative];
      ghost var before := Scan(depth, inString, escaped);
      assert text[start + relative..][0] == c;
      assert text[start + relative..][1..] == text[start + relative + 1..];
      OneStep(text[start + relative..], before, relative);
      relative := relative + 1;
      if inString {
        if escaped { escaped := false; }
        else if c == '\\' { escaped := true; }
        else if c == '"' { inString := false; }
        assert Scan(depth, inString, escaped) == Advance(before, c);
        continue;
      }
      if c == '"' { inString := true; }
      else if c == '{' { depth := depth + 1; }
      else if c == '}' {
        depth := if depth == 0 then 0 else depth - 1;
        if depth == 0 { return Some(relative - 1); }
      }
      assert Scan(depth, inString, escaped) == Advance(before, c);
    }
    return None;
  }

  /** `first_balanced_json_object_candidate`. */
  method FindBalanced(isObject: Reader, text: string) returns (r: Option<string>)
    ensures r == FirstCandidate(isObject, text, 0)
  {
    var start := 0;
    while start < |text|
      invariant 0 <= start <= |text|
      invariant FirstCandidate(isObject, text, 0) == FirstCandidate(isObject, text, start)
    {
      if text[start] == '{' {
        var close := ScanFrom(text, start);
        if close.Some? {
          var candidate := text[start..start + close.value + 1];
          assert Candidate(text, start) == Some(candidate);
          if isObject(candidate) { return Some(candidate); }
        }
      }
      start := start + 1;
    }
    return None;
  }

  datatype Source = Direct | Fenced | Embedded

  const FENCE := "```"
  const JSON_FENCE := "```json"

  function StripFence(text: string, opening: string): Option<string> {
    if Text.StartsWith(text, opening) && Text.EndsWith(text[|opening|..], FENCE)
    then Some(text[|opening|..|text| - |FENCE|]) else None
  }

  function Unfence(text: string): Option<string> {
    var tagged := StripFence(text, JSON_FENCE);
    if tagged.Some? then Some(Text.Trim(tagged.value))
    else
      var bare := StripFence(text, FENCE);
      if bare.Some? then Some(Text.Trim(bare.value)) else None
  }

  /** `extract_business_json_candidate`. */
  function Extract(isObject: Reader, text: string): Option<(string, Source)> {
    var trimmed := Text.Trim(text);
    if trimmed == "" then None
    else if isObject(trimmed) then Some((trimmed, Direct))
    else
      var unfenced := Unfence(trimmed);
      if unfenced.Some? && isObject(unfenced.value) then Some((unfenced.value, Fenced))
      else
        var found := FirstCandidate(isObject, trimmed, 0);
        if found.None? then None else Some((found.value, Embedded))
  }
}
