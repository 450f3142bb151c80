/** The draft gate, the two reviewers and the revision loop that decide whether a final answer may
    go out. Deserializing a JSON value into a record is the readers' business. */
module DraftGate {
  import opened Wrappers
  import opened Json

  const DRAFT_VERSION := "tonglingyu-draft-candidate-v1"
  const REVISION_VERSION := "tonglingyu-draft-revision-v1"
  const REVIEW_VERSION := "tonglingyu-review-observation-v1"
  const MIN_CONFIDENCE := 0.5
  const MAX_REVISIONS := 2

  const DRAFT_FORBIDDEN := [
    "final_answer", "reviewer_decision", "reviewer_state", "tool_policy", "tool_choice", "allowed_tools",
    "forbidden_tools", "acl", "read_refs", "memory_card_id", "memory_read_refs", "raw_memory", "context_pack_id",
    "context_pack_ref", "trace_id", "system_prompt", "profile", "evidence_package_write", "package_mutated"]

  const REVIEW_FORBIDDEN := [
    "final_answer", "final_decision", "reviewer_decision", "local_reviewer_status", "tool_policy", "tool_choice",
    "allowed_tools", "forbidden_tools", "acl", "read_refs", "memory_card_id", "memory_read_refs", "raw_memory",
    "context_pack_id", "context_pack_ref", "trace_id", "system_prompt", "evidence_package_write", "package_mutated"]

  // ---------------------------------------------------------------- forbidden keys

  function FirstKeyIn(keys: seq<Field>, forbidden: seq<string>): Option<string> {
    if keys == [] then None
    else if keys[0].key in forbidden then Some(keys[0].key)
    else FirstKeyIn(keys[1..], forbidden)
  }

  /** `first_forbidden_field`: an object's own keys first, then its values in order. */
  function FirstForbidden(v: Json, forbidden: seq<string>): Option<string>
    decreases v, 0
  {
    match v
    case Obj(fields) =>
      var own := FirstKeyIn(fields, forbidden);
      if own.Some? then own else FirstInFields(fields, forbidden)
    case Arr(items) => FirstInItems(items, forbidden)
    case _ => None
  }

  function FirstInFields(fields: seq<Field>, forbidden: seq<string>): Option<string>
    decreases fields, 1
  {
    if fields == [] then None
    else
      var first := FirstForbidden(fields[0].value, forbidden);
      if first.Some? then first else FirstInFields(fields[1..], forbidden)
  }

  function FirstInItems(items: seq<Json>, forbidden: seq<string>): Option<string>
    decreases items, 1
  {
    if items == [] then None
    else
      var first := FirstForbidden(items[0], forbidden);
      if first.Some? then first else FirstInItems(items[1..], forbidden)
  }

  /** The value reached by going to the i-th member or item, for each i of the path. */
  function At(v: Json, path: seq<nat>): Option<Json>
    decreases |path|
  {
    if path == [] then Some(v)
    else match v
      case Obj(fields) => if path[0] < |fields| then At(fields[path[0]].value, path[1..]) else None
      case Arr(items) => if path[0] < |items| then At(items[path[0]], path[1..]) else None
      case _ => None
  }

  /** There is an object with the key somewhere in the value. */
  ghost predicate KeyOccurs(v: Json, key: string) {
    exists path :: KeyAt(v, path, key)
  }

  ghost predicate KeyAt(v: Json, path: seq<nat>, key: string) {
    At(v, path).Some? && At(v, path).value.Obj? && HasKey(At(v, path).value.fields, key)
  }

  lemma {:induction false} FirstKeyMeans(fields: seq<Field>, forbidden: seq<string>)
    ensures var r := FirstKeyIn(fields, forbidden);
            && (r.Some? ==> r.value in forbidden && HasKey(fields, r.value))
            && (r.None? ==> forall key | key in forbidden :: !HasKey(fields, key))
  {
    if fields != [] {
      FirstKeyMeans(fields[1..], forbidden);
      assert forall i | 0 <= i < |fields| - 1 :: fields[1..][i] == fields[i + 1];
      assert forall i | 0 < i < |fields| :: fields[i] == fields[1..][i - 1];
    }
  }

  /** A field found is forbidden and occurs. */
  lemma {:induction false} FoundOccurs(v: Json, forbidden: seq<string>) returns (path: seq<nat>)
    requires FirstForbidden(v, forbidden).Some?
    ensures FirstForbidden(v, forbidden).value in forbidden
    ensures KeyAt(v, path, FirstForbidden(v, forbidden).value)
    decreases v, 0
  {
    path := [];
    match v {
      case Obj(fields) =>
        FirstKeyMeans(fields, forbidden);
        if FirstKeyIn(fields, forbidden).None? {
          var i, rest := FoundInFields(fields, forbidden);
          path := [i] + rest;
          assert path[1..] == rest;
        }
      case Arr(items) =>
        var i, rest := FoundInItems(items, forbidden);
        path := [i] + rest;
        assert path[1..] == rest;
      case _ =>
    }
  }

  lemma {:induction false} FoundInFields(fields: seq<Field>, forbidden: seq<string>) returns (i: nat, rest: seq<nat>)
    requires FirstInFields(fields, forbidden).Some?
    ensures FirstInFields(fields, forbidden).value in forbidden
    ensures i < |fields| && KeyAt(fields[i].value, rest, FirstInFields(fields, forbidden).value)
    decreases fields, 1
  {
    if FirstForbidden(fields[0].value, forbidden).Some? {
      rest := FoundOccurs(fields[0].value, forbidden);
      i := 0;
    } else {
      i, rest := FoundInFields(fields[1..], forbidden);
      i := i + 1;
    }
  }

  lemma {:induction false} FoundInItems(items: seq<Json>, forbidden: seq<string>) returns (i: nat, rest: seq<nat>)
    requires FirstInItems(items, forbidden).Some?
    ensures FirstInItems(items, forbidden).value in forbidden
    ensures i < |items| && KeyAt(items[i], rest, FirstInItems(items, forbidden).value)
    decreases items, 1
  {
    if FirstForbidden(items[0], forbidden).Some? {
      rest := FoundOccurs(items[0], forbidden);
      i := 0;
    } else {
      i, rest := FoundInItems(items[1..], forbidden);
      i := i + 1;
    }
  }

  lemma {:induction false} OccurringIsFound(v: Json, forbidden: seq<string>, path: seq<nat>, key: string)
    requires KeyAt(v, path, key) && key in forbidden
    ensures FirstForbidden(v, forbidden).Some?
    decreases |path|
  {
    if path == [] {
      FirstKeyMeans(v.fields, forbidden);
    } else {
      match v {
        case Obj(fields) =>
          OccurringIsFound(fields[path[0]].value, forbidden, path[1..], key);
          FieldIsFound(fields, forbidden, path[0]);
        case Arr(items) =>
          OccurringIsFound(items[path[0]], forbidden, path[1..], key);
          ItemIsFound(items, forbidden, path[0]);
        case _ =>
      }
    }
  }

  lemma {:induction false} FieldIsFound(fields: seq<Field>, forbidden: seq<string>, i: nat)
    requires i < |fields| && FirstForbidden(fields[i].value, forbidden).Some?
    ensures FirstInFields(fields, forbidden).Some?
  {
    if i > 0 { FieldIsFound(fields[1..], forbidden, i - 1); }
  }

  lemma {:induction false} ItemIsFound(items: seq<Json>, forbidden: seq<string>, i: nat)
    requires i < |items| && FirstForbidden(items[i], forbidden).Some?
    ensures FirstInItems(items, forbidden).Some?
  {
    if i > 0 { ItemIsFound(items[1..], forbidden, i - 1); }
  }

  /** The search finds something iff a forbidden key occurs at some depth. */
  lemma FoundIffOccurs(v: Json, forbidden: seq<string>)
    ensures FirstForbidden(v, forbidden).Some? <==> exists key :: key in forbidden && KeyOccurs(v, key)
  {
    if FirstForbidden(v, forbidden).Some? { var path := FoundOccurs(v, forbidden); }
    forall key, path | key in forbidden && KeyAt(v, path, key) ensures FirstForbidden(v, forbidden).Some? {
      OccurringIsFound(v, forbidden, path, key);
    }
  }

  // ---------------------------------------------------------------- records

  datatype Claim = Claim(claimId: string, text: string, evidenceRefs: seq<string>, confidence: real)

  datatype Draft = Draft(
    schemaVersion: string, draftCandidateId: Option<string>, evidencePackageId: string, resolvedQuestion: string,
    draft: string, claims: seq<Claim>, unsupportedClaims: seq<string>, styleNotes: seq<string>,
    memoryUsedAsEvidence: bool)

  datatype Issue = Issue(
    issueId: string, category: string, severity: string, claimId: Option<string>, evidenceRefs: seq<string>,
    summary: string)

  datatype Review = Review(
    schemaVersion: string, status: string, severity: string, issues: seq<Issue>, requiredRevisions: seq<string>,
    confidence: real)

  datatype Revision = Revision(
    schemaVersion: string, revisionId: string, revisionIndex: nat, evidencePackageId: string, previousDraftId: string,
    previousReviewId: string, reasons: seq<string>, revisedDraftId: string, packageMutated: bool)

  /** `serde_json::from_value` into the three record types. */
  datatype Readers = Readers(
    draft: Json -> Result<Draft, string>,
    review: Json -> Result<Review, string>,
    revision: Json -> Result<Revision, string>)

  datatype Package = Package(packageId: string, evidenceIds: set<string>, replayOk: bool)

  function StrOr(v: Json, key: string, default: string): string {
    var r := GetStr(v, key);
    if r.Some? then r.value else default
  }

  function BoolOr(v: Json, key: string, default: bool): bool {
    var r := GetBool(v, key);
    if r.Some? then r.value else default
  }

  function ArrOr(v: Json, key: string): seq<Json> {
    var r := GetArr(v, key);
    if r.Some? then r.value else []
  }

  function GetOrNull(v: Json, key: string): Json {
    var r := Get(v, key);
    if r.Some? then r.value else Null
  }

  function StringSet(v: Json, key: string): (r: set<string>)
    ensures forall s :: s in r <==> Str(s) in ArrOr(v, key)
  {
    set s | s in Strings(ArrOr(v, key))
  }

  ghost predicate CardOffers(cards: seq<Json>, n: nat, id: string)
    requires n <= |cards|
  {
    exists i | 0 <= i < n :: GetStr(cards[i], "evidence_id") == Some(id)
  }

  ghost predicate ClaimMapOffers(entries: seq<Json>, n: nat, id: string)
    requires n <= |entries|
  {
    exists i | 0 <= i < n :: Str(id) in ArrOr(entries[i], "evidence_ids")
  }

  /** The evidence a package offers: its own ids, its cards', and its claim map's. */
  ghost predicate Offers(package: Json, id: string) {
    var cards, entries := ArrOr(package, "cards"), ArrOr(package, "claim_evidence_map");
    || Str(id) in ArrOr(package, "evidence_ids")
    || CardOffers(cards, |cards|, id)
    || ClaimMapOffers(entries, |entries|, id)
  }

  method AddCardIds(cards: seq<Json>, start: set<string>) returns (ids: set<string>)
    ensures forall id :: id in ids <==> id in start || CardOffers(cards, |cards|, id)
  {
    ids := start;
    var i := 0;
    while i < |cards|
      invariant 0 <= i <= |cards|
      invariant forall id :: id in ids <==> id in start || CardOffers(cards, i, id)
    {
      var id := GetStr(cards[i], "evidence_id");
      if id.Some? { ids := ids + {id.value}; }
      i := i + 1;
    }
  }

  method AddClaimMapIds(entries: seq<Json>, start: set<string>) returns (ids: set<string>)
    ensures forall id :: id in ids <==> id in start || ClaimMapOffers(entries, |entries|, id)
  {
    ids := start;
    var i := 0;
    while i < |entries|
      invariant 0 <= i <= |entries|
      invariant forall id :: id in ids <==> id in start || ClaimMapOffers(entries, i, id)
    {
      ids := ids + StringSet(entries[i], "evidence_ids");
      i := i + 1;
    }
  }

  /** `package_snapshot`. */
  method SnapshotPackage(value: Json) returns (p: Package)
    ensures p.packageId == StrOr(value, "package_id", "") && p.replayOk == BoolOr(value, "replay_ok", true)
    ensures forall id :: id in p.evidenceIds <==> Offers(value, id)
  {
    var ids := StringSet(value, "evidence_ids");
    ids := AddCardIds(ArrOr(value, "cards"), ids);
    ids := AddClaimMapIds(ArrOr(value, "claim_evidence_map"), ids);
    p := Package(StrOr(value, "package_id", ""), ids, BoolOr(value, "replay_ok", true));
  }
}
