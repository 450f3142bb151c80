/** On any text whatever, the extractor gives the leftmost object text in it. */
module JsonExtractLeftmost {
  import opened Wrappers
  import opened JsonExtract
  import opened JsonExtractTheorems
  import JsonText
  import Text

  /** j is an object the parser accepts, and its text stands in the text at i. */
  ghost predicate StandsAt(isObject: Reader, text: string, i: nat, j: JsonText.Text) {
    && JsonText.Ok(j) && j.ObjectText? && isObject(JsonText.Print(j))
    && i <= |text| && JsonText.Print(j) <= text[i..]
  }

  ghost predicate SomeStandsAt(isObject: Reader, text: string, i: nat) {
    exists j :: StandsAt(isObject, text, i, j)
  }

  lemma {:induction false} ClosesAtBrace(text: string, s: Scan)
    ensures var close := CloseAt(text, s); close.Some? ==> text[close.value] == '}'
  {
    if text != "" && !Closes(s, text[0]) { ClosesAtBrace(text[1..], Advance(s, text[0])); }
  }

  lemma Standing(isObject: Reader, text: string, i: nat, j: JsonText.Text)
    requires StandsAt(isObject, text, i, j)
    ensures ObjectAt(isObject, text, i) && Candidate(text, i) == Some(JsonText.Print(j))
  {
    var p := JsonText.Print(j);
    var suffix := text[i..][|p|..];
    assert text[i..] == p + suffix;
    ScanClosesAtLastBrace(j, suffix);
    assert p[0] == '{';
    assert text[i..][0] == text[i];
    assert text[i..i + |p|] == text[i..][..|p|] == p;
  }

  lemma Accepted(isObject: Reader, text: string, i: nat) returns (j: JsonText.Text)
    requires Sound(isObject) && ObjectAt(isObject, text, i)
    ensures StandsAt(isObject, text, i, j) && Candidate(text, i) == Some(JsonText.Print(j))
  {
    var c := Candidate(text, i).value;
    var close := CloseAt(text[i..], START).value;
    ClosesAtBrace(text[i..], START);
    assert c == text[i..][..close + 1];
    assert c[0] == '{' && c[|c| - 1] == '}';
    j := TrimmedObject(isObject, c);
  }

  /** The brace scan gives the leftmost object text, and nothing iff there is none. */
  lemma ScanFindsLeftmost(isObject: Reader, text: string)
    requires Sound(isObject)
    ensures var r := FirstCandidate(isObject, text, 0);
            && (r.None? <==> forall i: nat :: !SomeStandsAt(isObject, text, i))
            && (r.Some? ==> IsLeftmost(isObject, text, r.value))
  {
    FirstCandidateMeans(isObject, text, 0);
    forall i: nat ensures ObjectAt(isObject, text, i) <==> SomeStandsAt(isObject, text, i) {
      if ObjectAt(isObject, text, i) { var _ := Accepted(isObject, text, i); }
      if SomeStandsAt(isObject, text, i) {
        var j :| StandsAt(isObject, text, i, j);
        Standing(isObject, text, i, j);
      }
    }
    if FirstCandidate(isObject, text, 0).Some? {
      var i: nat :| ObjectAt(isObject, text, i) && FirstCandidate(isObject, text, 0) == Candidate(text, i)
          && forall k: nat | 0 <= k < i :: !ObjectAt(isObject, text, k);
      var j := Accepted(isObject, text, i);
      assert StandsAt(isObject, text, i, j);
    }
  }

  /** s is the text of an object standing in the text, and none stands further left. */
  ghost predicate IsLeftmost(isObject: Reader, text: string, s: string) {
    exists i: nat, j ::
      && StandsAt(isObject, text, i, j) && s == JsonText.Print(j)
      && forall k: nat | k < i :: !SomeStandsAt(isObject, text, k)
  }

  /** The text is one accepted object between two fences, the first of them tagged or not. */
  ghost predicate IsFenced(isObject: Reader, text: string, j: JsonText.Text) {
    && JsonText.Ok(j) && j.ObjectText? && isObject(JsonText.Print(j))
    && exists tag, before, after ::
         && (tag == "" || tag == "json") && Text.IsBlank(before) && Text.IsBlank(after)
         && text == FENCE + tag + (before + JsonText.Print(j) + after) + FENCE
  }

  lemma TrimBlankAround(before: string, body: string, after: string)
    requires body != "" && IsTrimmed(body) && Text.IsBlank(before) && Text.IsBlank(after)
    ensures Text.Trim(before + body + after) == body
  {
    TrimAround(before, body, after);
    Text.BlankIffNothingAtStart(before);
    Text.BlankIffNothingAtEnd(after);
    assert "" + body + "" == body;
  }

  lemma StripsWhatIsBetween(opening: string, inside: string)
    ensures StripFence(opening + inside + FENCE, opening) == Some(inside)
  {
    var text := opening + inside + FENCE;
    assert text[|opening|..] == inside + FENCE;
    assert text[|opening|..|text| - |FENCE|] == inside;
  }

  lemma ObjectIsTrimmed(j: JsonText.Text)
    requires JsonText.Ok(j) && j.ObjectText?
    ensures var p := JsonText.Print(j); p != "" && p[0] == '{' && IsTrimmed(p)
  {
    var p := JsonText.Print(j);
    assert p[0] == '{' && p[|p| - 1] == '}';
  }

  /** Between untagged fences the object's text does not begin with the tag. */
  lemma NoTag(before: string, rest: string)
    requires Text.IsBlank(before) && rest != "" && rest[0] == '{'
    ensures StripFence(FENCE + (before + rest), JSON_FENCE).None?
  {
    var text := FENCE + (before + rest);
    if before != "" { assert text[3] == before[0]; } else { assert text[3] == rest[0]; }
    assert JSON_FENCE[3] == 'j';
  }

  lemma UnfenceTagged(inside: string)
    ensures Unfence(FENCE + "json" + inside + FENCE) == Some(Text.Trim(inside))
  {
    assert FENCE + "json" == JSON_FENCE;
    StripsWhatIsBetween(JSON_FENCE, inside);
  }

  lemma UnfenceBare(before: string, rest: string)
    requires Text.IsBlank(before) && rest != "" && rest[0] == '{'
    ensures Unfence(FENCE + (before + rest) + FENCE) == Some(Text.Trim(before + rest))
  {
    Text.Regroup(FENCE, before + rest, FENCE);
    Text.Regroup(before, rest, FENCE);
    NoTag(before, rest + FENCE);
    StripsWhatIsBetween(FENCE, before + rest);
  }

  lemma UnfenceFenced(isObject: Reader, text: string, j: JsonText.Text)
    requires IsFenced(isObject, text, j)
    ensures Unfence(text) == Some(JsonText.Print(j))
  {
    var p := JsonText.Print(j);
    var tag, before, after :|
      && (tag == "" || tag == "json") && Text.IsBlank(before) && Text.IsBlank(after)
      && text == FENCE + tag + (before + p + after) + FENCE;
    ObjectIsTrimmed(j);
    TrimBlankAround(before, p, after);
    Text.Regroup(before, p, after);
    if tag == "" {
      assert FENCE + tag == FENCE;
      UnfenceBare(before, p + after);
    } else {
      UnfenceTagged(before + p + after);
    }
  }

  lemma StrippedIsBetween(text: string, tag: string)
    requires StripFence(text, FENCE + tag).Some?
    ensures text == FENCE + tag + StripFence(text, FENCE + tag).value + FENCE
  {
    StripFenceMeans(text, FENCE + tag);
  }

  lemma UnfenceStrips(text: string) returns (tag: string)
    requires Unfence(text).Some?
    ensures tag == "" || tag == "json"
    ensures StripFence(text, FENCE + tag).Some?
    ensures Unfence(text).value == Text.Trim(StripFence(text, FENCE + tag).value)
  {
    assert FENCE + "json" == JSON_FENCE && FENCE + "" == FENCE;
    tag := if StripFence(text, JSON_FENCE).Some? then "json" else "";
  }

  lemma FencedUnfence(isObject: Reader, text: string) returns (j: JsonText.Text)
    requires Sound(isObject) && Unfence(text).Some? && isObject(Unfence(text).value)
    ensures IsFenced(isObject, text, j) && Unfence(text).value == JsonText.Print(j)
  {
    var tag := UnfenceStrips(text);
    var raw := StripFence(text, FENCE + tag).value;
    StrippedIsBetween(text, tag);
    var before, after := TrimIsTrimmed(raw);
    j := TrimmedObject(isObject, Text.Trim(raw));
    assert raw == before + JsonText.Print(j) + after;
  }

  /** What the three strategies agree on. */
  lemma StrategiesAgree(isObject: Reader, text: string)
    requires Sound(isObject)
    ensures var r, found := Extract(isObject, text), FirstCandidate(isObject, Text.Trim(text), 0);
            if r.None? then found.None? else found == Some(r.value.0)
  {
    var trimmed := Text.Trim(text);
    var _, _ := TrimIsTrimmed(text);
    assert trimmed[0..] == trimmed;
    if trimmed != "" {
      if isObject(trimmed) {
        DirectIsLead(isObject, trimmed);
        FirstCandidateIsLead(isObject, trimmed, 0);
      } else if Unfence(trimmed).Some? && isObject(Unfence(trimmed).value) {
        FencedIsLead(isObject, trimmed);
        FirstCandidateIsLead(isObject, trimmed, 0);
      }
    }
  }

  /** On any text the extractor gives the leftmost object text in it, and nothing iff there is none. The
      direct strategy is named iff the trimmed text is that object. */
  lemma ExtractsTheLeftmost(isObject: Reader, text: string)
    requires Sound(isObject)
    ensures var r, trimmed := Extract(isObject, text), Text.Trim(text);
            && (r.None? <==> forall i: nat :: !SomeStandsAt(isObject, trimmed, i))
            && (r.Some? ==>
                  && IsLeftmost(isObject, trimmed, r.value.0)
                  && (r.value.1 == Direct <==> r.value.0 == trimmed))
  {
    StrategiesAgree(isObject, text);
    ScanFindsLeftmost(isObject, Text.Trim(text));
    var r := Extract(isObject, text);
    if r.Some? && r.value.0 == Text.Trim(text) {
      assert isObject(r.value.0) by {
        var i: nat, j :| StandsAt(isObject, Text.Trim(text), i, j) && r.value.0 == JsonText.Print(j);
      }
    }
  }

  /** The fenced strategy is named iff the trimmed text is not an object itself, but one between fences. */
  lemma FencedIff(isObject: Reader, text: string)
    requires Sound(isObject)
    ensures var r, trimmed := Extract(isObject, text), Text.Trim(text);
            (r.Some? && r.value.1 == Fenced) <==> (!isObject(trimmed) && exists j :: IsFenced(isObject, trimmed, j))
  {
    var trimmed := Text.Trim(text);
    if Unfence(trimmed).Some? && isObject(Unfence(trimmed).value) {
      var j := FencedUnfence(isObject, trimmed);
    }
    if j :| IsFenced(isObject, trimmed, j) { UnfenceFenced(isObject, trimmed, j); }
  }
}
