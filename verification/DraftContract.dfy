/** The draft gate: what a draft candidate must satisfy before the reviewers look at it. */
module DraftContract {
  import opened Wrappers
  import opened Json
  import opened DraftGate
  import Text

  datatype GateError =
    | PackageIdMissing | PackageReplayFailed | ForbiddenField | SchemaInvalid(message: string)
    | VersionMismatch(found: string) | PackageIdMismatch | QuestionMissing | EmptyDraft | UnsupportedClaims
    | MemoryUsedAsEvidence | ClaimMapIncomplete | ExternalEvidenceRef

  datatype Report = Report(
    accepted: bool, errors: seq<GateError>, draftCandidateId: Option<string>, externalRef: bool, unsupportedClaim: bool,
    memoryAsEvidence: bool, internalField: bool, finalAnswerAttempt: bool, packageMutated: bool, claimMapComplete: bool,
    replayOk: bool, reviewRequired: bool, claimCount: nat, styleNoteCount: nat)

  predicate ClaimComplete(c: Claim) {
    && !Text.IsBlank(c.claimId) && !Text.IsBlank(c.text) && c.evidenceRefs != []
    && MIN_CONFIDENCE <= c.confidence <= 1.0
  }

  predicate ClaimsComplete(d: Draft) {
    d.claims != [] && forall c | c in d.claims :: ClaimComplete(c)
  }

  /** There are claims, and each has an id, a text, evidence and a confidence in range. */
  ghost predicate MapComplete(d: Draft) {
    && d.claims != []
    && forall c | c in d.claims ::
         && (exists i | 0 <= i < |c.claimId| :: !Text.IsWhitespace(c.claimId[i]))
         && (exists i | 0 <= i < |c.text| :: !Text.IsWhitespace(c.text[i]))
         && |c.evidenceRefs| > 0 && 0.5 <= c.confidence && c.confidence <= 1.0
  }

  lemma ClaimsCompleteMeans(d: Draft)
    ensures ClaimsComplete(d) <==> MapComplete(d)
  {
  }

  /** Some claim cites what the package does not offer. */
  ghost predicate CitesOutside(package: Json, d: Draft) {
    exists c, ref | c in d.claims && ref in c.evidenceRefs :: !Offers(package, ref)
  }

  ghost predicate HasForbidden(v: Json, forbidden: seq<string>) {
    exists key :: key in forbidden && KeyOccurs(v, key)
  }

  /** When each error is due. */
  ghost predicate Faulty(readers: Readers, package: Json, output: Json, e: GateError) {
    PackageFaulty(package, output, e) || ReadFaulty(readers, package, output, e)
  }

  ghost predicate PackageFaulty(package: Json, output: Json, e: GateError) {
    match e
    case PackageIdMissing => StrOr(package, "package_id", "") == ""
    case PackageReplayFailed => !BoolOr(package, "replay_ok", true)
    case ForbiddenField => HasForbidden(output, DRAFT_FORBIDDEN)
    case _ => false
  }

  ghost predicate ReadFaulty(readers: Readers, package: Json, output: Json, e: GateError) {
    match readers.draft(output)
    case Err(message) => e == SchemaInvalid(message)
    case Ok(d) => DraftFaulty(package, d, e)
  }

  ghost predicate DraftFaulty(package: Json, d: Draft, e: GateError) {
    match e
    case VersionMismatch(found) => d.schemaVersion == found != DRAFT_VERSION
    case PackageIdMismatch => d.evidencePackageId != StrOr(package, "package_id", "")
    case QuestionMissing => Text.IsBlank(d.resolvedQuestion)
    case EmptyDraft => Text.IsBlank(d.draft)
    case UnsupportedClaims => d.unsupportedClaims != []
    case MemoryUsedAsEvidence => d.memoryUsedAsEvidence
    case ClaimMapIncomplete => !MapComplete(d)
    case ExternalEvidenceRef => CitesOutside(package, d)
    case _ => false
  }

  /** What an accepted draft is: well-formed, about this package, every claim complete and backed by the
      package's own evidence, and without a forbidden key at any depth. */
  ghost predicate Acceptable(readers: Readers, package: Json, output: Json) {
    var packageId := StrOr(package, "package_id", "");
    && packageId != "" && BoolOr(package, "replay_ok", true)
    && (forall key | key in DRAFT_FORBIDDEN :: !KeyOccurs(output, key))
    && readers.draft(output).Ok?
    && var d := readers.draft(output).value;
       && d.schemaVersion == DRAFT_VERSION && d.evidencePackageId == packageId
       && !Text.IsBlank(d.resolvedQuestion) && !Text.IsBlank(d.draft)
       && d.unsupportedClaims == [] && !d.memoryUsedAsEvidence
       && MapComplete(d)
       && forall c, ref | c in d.claims && ref in c.evidenceRefs :: Offers(package, ref)
  }

  /** The part of Acceptable that is about the deserialized draft. */
  ghost predicate DraftAcceptable(package: Json, d: Draft) {
    && d.schemaVersion == DRAFT_VERSION && d.evidencePackageId == StrOr(package, "package_id", "")
    && !Text.IsBlank(d.resolvedQuestion) && !Text.IsBlank(d.draft)
    && d.unsupportedClaims == [] && !d.memoryUsedAsEvidence
    && MapComplete(d) && !CitesOutside(package, d)
  }

  lemma AcceptableHasNoFault(package: Json, d: Draft, e: GateError)
    requires DraftAcceptable(package, d)
    ensures !DraftFaulty(package, d, e)
  {
  }

  lemma NoTextFaults(package: Json, d: Draft)
    requires forall e :: !DraftFaulty(package, d, e)
    ensures d.schemaVersion == DRAFT_VERSION && d.evidencePackageId == StrOr(package, "package_id", "")
    ensures !Text.IsBlank(d.resolvedQuestion) && !Text.IsBlank(d.draft)
  {
    assert !DraftFaulty(package, d, VersionMismatch(d.schemaVersion));
    assert !DraftFaulty(package, d, PackageIdMismatch);
    assert !DraftFaulty(package, d, QuestionMissing);
    assert !DraftFaulty(package, d, EmptyDraft);
  }

  lemma NoClaimFaults(package: Json, d: Draft)
    requires forall e :: !DraftFaulty(package, d, e)
    ensures d.unsupportedClaims == [] && !d.memoryUsedAsEvidence && MapComplete(d) && !CitesOutside(package, d)
  {
    assert !DraftFaulty(package, d, UnsupportedClaims);
    assert !DraftFaulty(package, d, MemoryUsedAsEvidence);
    assert !DraftFaulty(package, d, ClaimMapIncomplete);
    assert !DraftFaulty(package, d, ExternalEvidenceRef);
  }

  lemma FaultlessIsAcceptable(package: Json, d: Draft)
    requires forall e :: !DraftFaulty(package, d, e)
    ensures DraftAcceptable(package, d)
  {
    NoTextFaults(package, d);
    NoClaimFaults(package, d);
  }

  lemma DraftAcceptableIffFaultless(package: Json, d: Draft)
    ensures DraftAcceptable(package, d) <==> forall e :: !DraftFaulty(package, d, e)
  {
    if DraftAcceptable(package, d) {
      forall e ensures !DraftFaulty(package, d, e) {
        AcceptableHasNoFault(package, d, e);
      }
    } else if forall e :: !DraftFaulty(package, d, e) {
      FaultlessIsAcceptable(package, d);
    }
  }

  ghost predicate PackageAcceptable(package: Json, output: Json) {
    StrOr(package, "package_id", "") != "" && BoolOr(package, "replay_ok", true)
        && !HasForbidden(output, DRAFT_FORBIDDEN)
  }

  lemma PackageAcceptableIffFaultless(package: Json, output: Json)
    ensures PackageAcceptable(package, output) <==> forall e :: !PackageFaulty(package, output, e)
  {
    if forall e :: !PackageFaulty(package, output, e) {
      assert !PackageFaulty(package, output, PackageIdMissing) && !PackageFaulty(package, output, PackageReplayFailed);
      assert !PackageFaulty(package, output, ForbiddenField);
    }
  }

  lemma ReadAcceptableIffFaultless(readers: Readers, package: Json, output: Json)
    ensures (readers.draft(output).Ok? && DraftAcceptable(package, readers.draft(output).value)) <==>
            forall e :: !ReadFaulty(readers, package, output, e)
  {
    var read := readers.draft(output);
    if read.Err? {
      assert ReadFaulty(readers, package, output, SchemaInvalid(read.error));
    } else {
      DraftAcceptableIffFaultless(package, read.value);
      assert forall e :: ReadFaulty(readers, package, output, e) <==> DraftFaulty(package, read.value, e);
    }
  }

  /** Push an error when a check fails. */
  function Push(errors: seq<GateError>, failed: bool, e: GateError): (r: seq<GateError>)
    ensures forall x :: x in r <==> x in errors || (failed && x == e)
  {
    if failed then errors + [e] else errors
  }

  method CitesOutsidePackage(d: Draft, value: Json, package: Package) returns (outside: bool)
    requires forall id :: id in package.evidenceIds <==> Offers(value, id)
    ensures outside == CitesOutside(value, d)
  {
    outside := exists c, ref | c in d.claims && ref in c.evidenceRefs :: ref !in package.evidenceIds;
  }

  /** The eight checks of a deserialized draft, failed or not. */
  datatype Checks = Checks(
    version: bool, package: bool, question: bool, empty: bool, unsupported: bool, memory: bool, incomplete: bool,
    outside: bool)

  predicate Fails(c: Checks, version: string, e: GateError) {
    FailsInText(c, version, e) || FailsInClaims(c, e)
  }

  predicate FailsInText(c: Checks, version: string, e: GateError) {
    match e
    case VersionMismatch(found) => c.version && found == version
    case PackageIdMismatch => c.package
    case QuestionMissing => c.question
    case EmptyDraft => c.empty
    case _ => false
  }

  predicate FailsInClaims(c: Checks, e: GateError) {
    match e
    case UnsupportedClaims => c.unsupported
    case MemoryUsedAsEvidence => c.memory
    case ClaimMapIncomplete => c.incomplete
    case ExternalEvidenceRef => c.outside
    case _ => false
  }

  function PushChecks(errors: seq<GateError>, c: Checks, version: string): (r: seq<GateError>)
    ensures forall x :: x in r <==> x in errors || Fails(c, version, x)
  {
    PushClaimChecks(PushTextChecks(errors, c, version), c)
  }

  function PushTextChecks(errors: seq<GateError>, c: Checks, version: string): (r: seq<GateError>)
    ensures forall x :: x in r <==> x in errors || FailsInText(c, version, x)
  {
    var errors := Push(errors, c.version, VersionMismatch(version));
    var errors := Push(errors, c.package, PackageIdMismatch);
    var errors := Push(errors, c.question, QuestionMissing);
    Push(errors, c.empty, EmptyDraft)
  }

  function PushClaimChecks(errors: seq<GateError>, c: Checks): (r: seq<GateError>)
    ensures forall x :: x in r <==> x in errors || FailsInClaims(c, x)
  {
    var errors := Push(errors, c.unsupported, UnsupportedClaims);
    var errors := Push(errors, c.memory, MemoryUsedAsEvidence);
    var errors := Push(errors, c.incomplete, ClaimMapIncomplete);
    Push(errors, c.outside, ExternalEvidenceRef)
  }

  method CheckDraft(d: Draft, value: Json, package: Package) returns (c: Checks)
    requires package.packageId == StrOr(value, "package_id", "")
    requires forall id :: id in package.evidenceIds <==> Offers(value, id)
    ensures forall e :: Fails(c, d.schemaVersion, e) <==> DraftFaulty(value, d, e)
  {
    var outside := CitesOutsidePackage(d, value, package);
    ClaimsCompleteMeans(d);
    c := Checks(d.schemaVersion != DRAFT_VERSION, d.evidencePackageId != package.packageId,
                Text.IsBlank(d.resolvedQuestion), Text.IsBlank(d.draft), d.unsupportedClaims != [],
                d.memoryUsedAsEvidence, !ClaimsComplete(d), outside);
  }

  lemma ChecksAreFlags(value: Json, d: Draft, c: Checks)
    requires forall e :: Fails(c, d.schemaVersion, e) <==> DraftFaulty(value, d, e)
    ensures c.outside <==> CitesOutside(value, d)
    ensures c.unsupported <==> d.unsupportedClaims != []
    ensures c.memory <==> d.memoryUsedAsEvidence
    ensures c.incomplete <==> !MapComplete(d)
  {
    assert Fails(c, d.schemaVersion, ExternalEvidenceRef) <==> DraftFaulty(value, d, ExternalEvidenceRef);
    assert Fails(c, d.schemaVersion, UnsupportedClaims) <==> DraftFaulty(value, d, UnsupportedClaims);
    assert Fails(c, d.schemaVersion, MemoryUsedAsEvidence) <==> DraftFaulty(value, d, MemoryUsedAsEvidence);
    assert Fails(c, d.schemaVersion, ClaimMapIncomplete) <==> DraftFaulty(value, d, ClaimMapIncomplete);
  }

  method ScanFlags(output: Json) returns (finalAnswerAttempt: bool, packageMutated: bool)
    ensures finalAnswerAttempt <==> KeyOccurs(output, "final_answer")
    ensures packageMutated <==> KeyOccurs(output, "package_mutated") || KeyOccurs(output, "evidence_package_write")
  {
    FoundIffOccurs(output, ["final_answer"]);
    FoundIffOccurs(output, ["package_mutated", "evidence_package_write"]);
    assert "final_answer" in ["final_answer"];
    assert "package_mutated" in ["package_mutated", "evidence_package_write"];
    assert "evidence_package_write" in ["package_mutated", "evidence_package_write"];
    finalAnswerAttempt := FirstForbidden(output, ["final_answer"]).Some?;
    packageMutated := FirstForbidden(output, ["package_mutated", "evidence_package_write"]).Some?;
  }

  /** What the flags of a report say about the draft that was read, if one was. */
  ghost predicate ReadFlags(readers: Readers, package: Json, output: Json, externalRef: bool, unsupported: bool,
      memory: bool, complete: bool) {
    match readers.draft(output)
    case Err(_) => !externalRef && !unsupported && !memory && !complete
    case Ok(d) =>
      && (externalRef <==> CitesOutside(package, d))
      && (unsupported <==> d.unsupportedClaims != [])
      && (memory <==> d.memoryUsedAsEvidence)
      && (complete <==> MapComplete(d))
  }

  method ReadDraft(readers: Readers, package: Json, output: Json, snapshot: Package, start: seq<GateError>)
    returns (errors: seq<GateError>, checks: Checks)
    requires snapshot.packageId == StrOr(package, "package_id", "")
    requires forall id :: id in snapshot.evidenceIds <==> Offers(package, id)
    ensures forall e :: e in errors <==> e in start || ReadFaulty(readers, package, output, e)
    ensures ReadFlags(readers, package, output, checks.outside, checks.unsupported, checks.memory, !checks.incomplete)
  {
    match readers.draft(output) {
      case Err(message) =>
        checks := Checks(false, false, false, false, false, false, true, false);
        errors := Push(start, true, SchemaInvalid(message));
      case Ok(d) =>
        checks := CheckDraft(d, package, snapshot);
        errors := PushChecks(start, checks, d.schemaVersion);
        ChecksAreFlags(package, d, checks);
    }
  }

  method CheckPackage(snapshot: Package, package: Json, output: Json)
      returns (errors: seq<GateError>, internalField: bool)
    requires snapshot.packageId == StrOr(package, "package_id", "")
        && snapshot.replayOk == BoolOr(package, "replay_ok", true)
    ensures internalField <==> HasForbidden(output, DRAFT_FORBIDDEN)
    ensures forall e :: e in errors <==> PackageFaulty(package, output, e)
  {
    FoundIffOccurs(output, DRAFT_FORBIDDEN);
    internalField := FirstForbidden(output, DRAFT_FORBIDDEN).Some?;
    errors := Push([], snapshot.packageId == "", PackageIdMissing);
    errors := Push(errors, !snapshot.replayOk, PackageReplayFailed);
    errors := Push(errors, internalField, ForbiddenField);
  }

  lemma AcceptableSplits(readers: Readers, package: Json, output: Json)
    ensures Acceptable(readers, package, output) <==>
            PackageAcceptable(package, output) && readers.draft(output).Ok?
                && DraftAcceptable(package, readers.draft(output).value)
  {
  }

  lemma AcceptedIffNoErrors(readers: Readers, package: Json, output: Json, errors: seq<GateError>)
    requires forall e :: e in errors <==> PackageFaulty(package, output, e) || ReadFaulty(readers, package, output, e)
    ensures forall e :: e in errors <==> Faulty(readers, package, output, e)
    ensures errors == [] <==> Acceptable(readers, package, output)
  {
    PackageAcceptableIffFaultless(package, output);
    ReadAcceptableIffFaultless(readers, package, output);
    AcceptableSplits(readers, package, output);
    assert errors != [] ==> errors[0] in errors;
  }

  method GatherErrors(readers: Readers, package: Json, output: Json, snapshot: Package)
    returns (errors: seq<GateError>, internalField: bool, checks: Checks)
    requires snapshot.packageId == StrOr(package, "package_id", "")
        && snapshot.replayOk == BoolOr(package, "replay_ok", true)
    requires forall id :: id in snapshot.evidenceIds <==> Offers(package, id)
    ensures forall e :: e in errors <==> Faulty(readers, package, output, e)
    ensures errors == [] <==> Acceptable(readers, package, output)
    ensures internalField <==> HasForbidden(output, DRAFT_FORBIDDEN)
    ensures ReadFlags(readers, package, output, checks.outside, checks.unsupported, checks.memory, !checks.incomplete)
  {
    errors, internalField := CheckPackage(snapshot, package, output);
    errors, checks := ReadDraft(readers, package, output, snapshot, errors);
    AcceptedIffNoErrors(readers, package, output, errors);
  }

  /** The report's id and counts are those of the draft, if one was read; its id may also stand there alone. */
  ghost predicate Counts(read: Result<Draft, string>, rawId: Option<string>, r: Report) {
    match read
    case Err(_) => r.draftCandidateId == rawId && r.claimCount == 0 && r.styleNoteCount == 0
    case Ok(d) =>
      && (if d.draftCandidateId.Some? then r.draftCandidateId == d.draftCandidateId else r.draftCandidateId == rawId)
      && r.claimCount == |d.claims| && r.styleNoteCount == |d.styleNotes|
  }

  function AssembleReport(read: Result<Draft, string>, rawId: Option<string>, errors: seq<GateError>, checks: Checks,
                          internalField: bool, finalAnswerAttempt: bool, packageMutated: bool,
                              replayOk: bool): (r: Report)
    ensures r.errors == errors && r.accepted == r.reviewRequired == (errors == [])
    ensures r.internalField == internalField && r.finalAnswerAttempt == finalAnswerAttempt
        && r.packageMutated == packageMutated
    ensures r.externalRef == checks.outside && r.unsupportedClaim == checks.unsupported
    ensures r.memoryAsEvidence == checks.memory && r.claimMapComplete == !checks.incomplete
    ensures r.replayOk == replayOk && Counts(read, rawId, r)
  {
    var id := if read.Ok? && read.value.draftCandidateId.Some? then read.value.draftCandidateId else rawId;
    Report(errors == [], errors, id, checks.outside, checks.unsupported, checks.memory,
           internalField, finalAnswerAttempt, packageMutated, !checks.incomplete, replayOk, errors == [],
           if read.Ok? then |read.value.claims| else 0, if read.Ok? then |read.value.styleNotes| else 0)
  }

  /** `evaluate_draft_candidate_contract`. */
  method EvaluateDraft(readers: Readers, package: Json, output: Json) returns (r: Report)
    ensures forall e :: e in r.errors <==> Faulty(readers, package, output, e)
    ensures r.accepted == r.reviewRequired == (r.errors == [])
    ensures r.accepted <==> Acceptable(readers, package, output)
    ensures r.internalField <==> HasForbidden(output, DRAFT_FORBIDDEN)
    ensures r.finalAnswerAttempt <==> KeyOccurs(output, "final_answer")
    ensures r.packageMutated <==> KeyOccurs(output, "package_mutated") || KeyOccurs(output, "evidence_package_write")
    ensures ReadFlags(readers, package, output, r.externalRef, r.unsupportedClaim, r.memoryAsEvidence,
        r.claimMapComplete)
    ensures r.replayOk == BoolOr(package, "replay_ok", true)
    ensures Counts(readers.draft(output), GetStr(output, "draft_candidate_id"), r)
  {
    var snapshot := SnapshotPackage(package);
    var finalAnswerAttempt, packageMutated := ScanFlags(output);
    var errors, internalField, checks := GatherErrors(readers, package, output, snapshot);
    r := AssembleReport(readers.draft(output), GetStr(output, "draft_candidate_id"), errors, checks,
                        internalField, finalAnswerAttempt, packageMutated, snapshot.replayOk);
  }
}
