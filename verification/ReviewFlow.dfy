/** The two reviewers and the revision loop: whether a final answer may go out. */
module ReviewFlow {
  import opened Wrappers
  import opened Json
  import opened DraftGate
  import DraftContract
  import Text

  datatype Status = Pass | Warning | Fail

  datatype Severity = NoRisk | Low | High

  datatype Decision = RevisionRequired | Passed | PassedWithWarning

  datatype Terminal = FailedClosed | Decided(decision: Decision) | StillRevisionRequired | PassedAfterRevision

  datatype Reason = LlmHighRiskBlocks | LocalBlocksLlmPass | LowRiskWarning | BothBlock | ReviewPass

  function NormalizeStatus(s: string): Status {
    match s
    case "pass" => Pass
    case "passed" => Pass
    case "warning" => Warning
    case "passed_with_warning" => Warning
    case _ => Fail
  }

  function NormalizeSeverity(s: string): Severity {
    match s
    case "none" => NoRisk
    case "low" => Low
    case _ => High
  }

  /** A reviewer's status field, missing or not a string meaning fail. */
  function StatusField(v: Json, key: string): Status {
    var s := GetStr(v, key);
    if s.Some? then NormalizeStatus(s.value) else Fail
  }

  /** The words of a pass and of a warning; any other word is a failure. */
  ghost predicate SaysPass(s: string) {
    s == "pass" || s == "passed"
  }

  ghost predicate SaysWarning(s: string) {
    s == "warning" || s == "passed_with_warning"
  }

  lemma StatusMeans(s: string)
    ensures NormalizeStatus(s) == Pass <==> SaysPass(s)
    ensures NormalizeStatus(s) == Warning <==> SaysWarning(s)
  {
  }

  lemma SeverityMeans(s: string)
    ensures NormalizeSeverity(s) == NoRisk <==> s == "none"
    ensures NormalizeSeverity(s) == Low <==> s == "low"
  {
  }

  /** The member is a string that says pass. */
  ghost predicate PassesAt(v: Json, key: string) {
    exists s :: Get(v, key) == Some(Str(s)) && SaysPass(s)
  }

  lemma StatusFieldMeans(v: Json, key: string)
    ensures StatusField(v, key) == Pass <==> PassesAt(v, key)
  {
    if GetStr(v, key).Some? { StatusMeans(GetStr(v, key).value); }
  }

  // ---------------------------------------------------------------- the review conflict

  predicate CountsAsHighRisk(i: Issue) {
    && NormalizeSeverity(i.severity) == High
    && !Text.IsBlank(i.issueId) && !Text.IsBlank(i.category) && !Text.IsBlank(i.summary)
    && (i.claimId.Some? ==> i.claimId.value != "")
    && forall ref | ref in i.evidenceRefs :: ref != ""
  }

  function CountHighRisk(issues: seq<Issue>): nat {
    if issues == [] then 0 else (if CountsAsHighRisk(issues[0]) then 1 else 0) + CountHighRisk(issues[1..])
  }

  datatype Conflict = Conflict(
    localStatus: Status, llmStatus: Status, llmSeverity: Severity, decision: Decision, reason: Reason,
    requiredRevisions: seq<string>, draftId: string, highRiskFalsePass: bool, llmHighRiskIssues: nat)

  /** `review_conflict`. A review that did not parse counts as a failed, high-severity one. */
  function ReviewConflict(accepted: bool, draftId: Option<string>, localStatus: Status, review: Option<Review>,
                          highRiskIssue: bool, parseError: bool): Conflict
  {
    var localPass := localStatus == Pass;
    var llmStatus := if review.Some? then NormalizeStatus(review.value.status) else Fail;
    var llmSeverity := if review.Some? then NormalizeSeverity(review.value.severity) else High;
    var highRiskIssues := if review.Some? then CountHighRisk(review.value.issues) else if parseError then 1 else 0;
    var llmHighRisk := llmSeverity == High || highRiskIssues > 0;
    var falsePass := highRiskIssue && llmStatus == Pass;
    var (decision, reason) :=
      if !accepted && localPass then (RevisionRequired, LlmHighRiskBlocks)
      else if !localPass && llmStatus == Pass then (RevisionRequired, LocalBlocksLlmPass)
      else if falsePass || (localPass && llmStatus == Fail && llmHighRisk) then (RevisionRequired, LlmHighRiskBlocks)
      else if localPass && llmStatus == Fail && llmSeverity == Low then (PassedWithWarning, LowRiskWarning)
      else if !localPass && llmStatus == Fail then (RevisionRequired, BothBlock)
      else if localPass && llmStatus == Pass then (Passed, ReviewPass)
      else if localPass && parseError then (RevisionRequired, LlmHighRiskBlocks)
      else (RevisionRequired, BothBlock);
    var required := if decision != RevisionRequired then []
                    else if review.Some? && review.value.requiredRevisions != [] then review.value.requiredRevisions
                    else ["revision:required"];
    Conflict(localStatus, llmStatus, llmSeverity, decision, reason, required,
             if draftId.Some? then draftId.value else "draft:missing", falsePass, highRiskIssues)
  }

  /** A complete issue that is called neither harmless nor low. */
  ghost predicate HighRisk(i: Issue) {
    && i.severity != "none" && i.severity != "low"
    && !Text.IsBlank(i.issueId) && !Text.IsBlank(i.category) && !Text.IsBlank(i.summary)
    && i.claimId != Some("") && "" !in i.evidenceRefs
  }

  lemma HighRiskMeans(i: Issue)
    ensures CountsAsHighRisk(i) <==> HighRisk(i)
  {
    SeverityMeans(i.severity);
  }

  lemma {:induction false} NoHighRiskMeans(issues: seq<Issue>)
    ensures CountHighRisk(issues) == 0 <==> forall i | i in issues :: !HighRisk(i)
  {
    if issues != [] {
      HighRiskMeans(issues[0]);
      NoHighRiskMeans(issues[1..]);
      assert forall i | i in issues :: i == issues[0] || i in issues[1..];
      assert issues[0] in issues && forall i | i in issues[1..] :: i in issues;
    }
  }

  /** Straight through: an accepted draft, a local pass, and an LLM pass with no high-risk issue. */
  ghost predicate PassesDirectly(accepted: bool, localPass: bool, review: Option<Review>, highRiskIssue: bool) {
    accepted && localPass && review.Some? && SaysPass(review.value.status) && !highRiskIssue
  }

  /** The review fails the draft: there is none, or its status says neither pass nor warning. */
  ghost predicate Condemns(review: Option<Review>) {
    review.Some? ==> !SaysPass(review.value.status) && !SaysWarning(review.value.status)
  }

  /** The review names a high risk, in its severity or in an issue; a missing one does too. */
  ghost predicate NamesHighRisk(review: Option<Review>) {
    review.Some? ==>
      || (review.value.severity != "none" && review.value.severity != "low")
      || exists i | i in review.value.issues :: HighRisk(i)
  }

  /** With a warning: the LLM reviewer fails it for a low-severity reason and names no high-risk issue. */
  ghost predicate PassesWithWarning(accepted: bool, localPass: bool, review: Option<Review>) {
    && accepted && localPass && review.Some?
    && Condemns(review) && review.value.severity == "low"
    && forall i | i in review.value.issues :: !HighRisk(i)
  }

  /** What the conflict takes of a review. */
  lemma ReviewMeans(review: Review)
    ensures NormalizeStatus(review.status) == Pass <==> SaysPass(review.status)
    ensures NormalizeStatus(review.status) == Fail <==> Condemns(Some(review))
    ensures NormalizeSeverity(review.severity) == Low <==> review.severity == "low"
    ensures NormalizeSeverity(review.severity) == High || CountHighRisk(review.issues) > 0 <==>
            NamesHighRisk(Some(review))
    ensures CountHighRisk(review.issues) == 0 <==> forall i | i in review.issues :: !HighRisk(i)
  {
    StatusMeans(review.status);
    SeverityMeans(review.severity);
    NoHighRiskMeans(review.issues);
  }

  /** The eight branches of the decision come to this. */
  lemma DecisionMeans(accepted: bool, draftId: Option<string>, localStatus: Status, review: Option<Review>,
                      highRiskIssue: bool, parseError: bool)
    ensures var d := ReviewConflict(accepted, draftId, localStatus, review, highRiskIssue, parseError).decision;
            && (d == Passed <==> PassesDirectly(accepted, localStatus == Pass, review, highRiskIssue))
            && (d == PassedWithWarning <==> PassesWithWarning(accepted, localStatus == Pass, review))
  {
    if review.Some? { ReviewMeans(review.value); }
  }

  /** The reasons of a decision: the local reviewer alone blocks; it passes what the contract, a high risk or
      a missing review blocks; or nobody passes the draft. */
  ghost predicate ReasonFits(c: Conflict, accepted: bool, localPass: bool, review: Option<Review>, highRisk: bool) {
    var llmPass := review.Some? && SaysPass(review.value.status);
    && (c.reason == ReviewPass <==> c.decision == Passed)
    && (c.reason == LowRiskWarning <==> c.decision == PassedWithWarning)
    && (c.reason == LocalBlocksLlmPass <==> !localPass && llmPass)
    && (c.reason == LlmHighRiskBlocks <==>
          localPass && (!accepted || (llmPass && highRisk) || (Condemns(review) && NamesHighRisk(review))))
  }

  lemma ReasonMeans(accepted: bool, draftId: Option<string>, localStatus: Status, review: Option<Review>,
                    highRiskIssue: bool)
    ensures var c := ReviewConflict(accepted, draftId, localStatus, review, highRiskIssue, review.None?);
            ReasonFits(c, accepted, localStatus == Pass, review, highRiskIssue)
  {
    if review.Some? { ReviewMeans(review.value); }
  }

  /** Revisions are asked for iff the decision requires one: the review's own, or a stand-in when it names none. */
  ghost predicate RevisionsFit(c: Conflict, review: Option<Review>) {
    && (c.requiredRevisions == [] <==> c.decision != RevisionRequired)
    && (c.decision == RevisionRequired ==>
          if exists r :: review == Some(r) && r.requiredRevisions != []
          then c.requiredRevisions == review.value.requiredRevisions
          else c.requiredRevisions == ["revision:required"])
  }

  lemma RevisionsAskedFor(accepted: bool, draftId: Option<string>, localStatus: Status, review: Option<Review>,
                          highRiskIssue: bool, parseError: bool)
    ensures var c := ReviewConflict(accepted, draftId, localStatus, review, highRiskIssue, parseError);
            && RevisionsFit(c, review)
            && (c.highRiskFalsePass <==> highRiskIssue && review.Some? && SaysPass(review.value.status))
            && (draftId.Some? ==> c.draftId == draftId.value) && (draftId.None? ==> c.draftId == "draft:missing")
  {
    if review.Some? { StatusMeans(review.value.status); }
  }

  // ---------------------------------------------------------------- the revision loop

  datatype RevisionError =
    | VersionMismatch(found: string) | IndexNotSequential | PackageMismatch | RefMissing | ReasonMissing
        | PackageMutated
    | SchemaInvalid(message: string) | LimitExceeded

  datatype RevisionReport = RevisionReport(
    required: bool, count: nat, limitRespected: bool, packageMutated: bool, terminal: Terminal,
    finalAnswerAllowed: bool, errors: seq<RevisionError>)

  /** A revision record at position i (from zero) that raises no error. */
  ghost predicate RevisionSound(readers: Readers, v: Json, i: nat, packageId: string) {
    && readers.revision(v).Ok?
    && var r := readers.revision(v).value;
       && r.schemaVersion == REVISION_VERSION && r.revisionIndex == i + 1 && r.evidencePackageId == packageId
       && !Text.IsBlank(r.revisionId) && !Text.IsBlank(r.previousDraftId) && !Text.IsBlank(r.previousReviewId)
       && !Text.IsBlank(r.revisedDraftId) && r.reasons != [] && !r.packageMutated
  }

  /** Sequential records about one package, error-free, and not too many. */
  ghost predicate RevisionsSound(readers: Readers, revisions: seq<Json>, packageId: string) {
    |revisions| <= MAX_REVISIONS && forall i | 0 <= i < |revisions| ::
        RevisionSound(readers, revisions[i], i, packageId)
  }

  ghost predicate Mutates(readers: Readers, v: Json) {
    readers.revision(v).Ok? && readers.revision(v).value.packageMutated
  }

  /** When each error of the record at position i is due. */
  ghost predicate RevisionFaulty(readers: Readers, v: Json, i: nat, packageId: string, e: RevisionError) {
    match readers.revision(v)
    case Err(message) => e == SchemaInvalid(message)
    case Ok(r) => RecordFaulty(r, i, packageId, e)
  }

  ghost predicate RecordFaulty(r: Revision, i: nat, packageId: string, e: RevisionError) {
    match e
    case VersionMismatch(found) => r.schemaVersion == found != REVISION_VERSION
    case IndexNotSequential => r.revisionIndex != i + 1
    case PackageMismatch => r.evidencePackageId != packageId
    case RefMissing =>
      || Text.IsBlank(r.revisionId) || Text.IsBlank(r.previousDraftId) || Text.IsBlank(r.previousReviewId)
      || Text.IsBlank(r.revisedDraftId)
    case ReasonMissing => r.reasons == []
    case PackageMutated => r.packageMutated
    case _ => false
  }

  lemma SoundIffNotFaulty(readers: Readers, v: Json, i: nat, packageId: string)
    ensures RevisionSound(readers, v, i, packageId) <==> forall e :: !RevisionFaulty(readers, v, i, packageId, e)
  {
    if forall e :: !RevisionFaulty(readers, v, i, packageId, e) {
      match readers.revision(v) {
        case Err(message) => assert RevisionFaulty(readers, v, i, packageId, SchemaInvalid(message));
        case Ok(r) =>
          assert !RevisionFaulty(readers, v, i, packageId, VersionMismatch(r.schemaVersion));
          assert !RevisionFaulty(readers, v, i, packageId, IndexNotSequential);
          assert !RevisionFaulty(readers, v, i, packageId, PackageMismatch);
          assert !RevisionFaulty(readers, v, i, packageId, RefMissing);
          assert !RevisionFaulty(readers, v, i, packageId, ReasonMissing);
          assert !RevisionFaulty(readers, v, i, packageId, PackageMutated);
      }
    }
  }

  function Note(errors: seq<RevisionError>, failed: bool, e: RevisionError): (r: seq<RevisionError>)
    ensures forall x :: x in r <==> x in errors || (failed && x == e)
  {
    if failed then errors + [e] else errors
  }

  method CheckRecord(r: Revision, i: nat, packageId: string) returns (errors: seq<RevisionError>)
    ensures forall e :: e in errors <==> RecordFaulty(r, i, packageId, e)
  {
    errors := Note([], r.schemaVersion != REVISION_VERSION, VersionMismatch(r.schemaVersion));
    errors := Note(errors, r.revisionIndex != i + 1, IndexNotSequential);
    errors := Note(errors, r.evidencePackageId != packageId, PackageMismatch);
    errors := Note(errors, Text.IsBlank(r.revisionId) || Text.IsBlank(r.previousDraftId)
        || Text.IsBlank(r.previousReviewId) || Text.IsBlank(r.revisedDraftId), RefMissing);
    errors := Note(errors, r.reasons == [], ReasonMissing);
    errors := Note(errors, r.packageMutated, PackageMutated);
  }

  method CheckRevision(readers: Readers, v: Json, i: nat, packageId: string)
      returns (errors: seq<RevisionError>, mutated: bool)
    ensures forall e :: e in errors <==> RevisionFaulty(readers, v, i, packageId, e)
    ensures errors == [] <==> RevisionSound(readers, v, i, packageId)
    ensures mutated <==> Mutates(readers, v)
  {
    SoundIffNotFaulty(readers, v, i, packageId);
    match readers.revision(v) {
      case Err(message) => errors, mutated := [SchemaInvalid(message)], false;
      case Ok(r) =>
        errors := CheckRecord(r, i, packageId);
        mutated := r.packageMutated;
    }
    assert errors != [] ==> errors[0] in errors;
  }

  predicate PostRevisionPassed(input: Json) {
    var post := Get(input, "post_revision");
    post.Some? && StatusField(post.value, "local_reviewer_status") == Pass
        && StatusField(post.value, "llm_reviewer_status") == Pass
  }

  /** After the revision both reviewers pass. */
  ghost predicate PassesAfterwards(input: Json) {
    exists post :: && Get(input, "post_revision") == Some(post)
                   && PassesAt(post, "local_reviewer_status") && PassesAt(post, "llm_reviewer_status")
  }

  lemma PostRevisionMeans(input: Json)
    ensures PostRevisionPassed(input) <==> PassesAfterwards(input)
  {
    if Get(input, "post_revision").Some? {
      StatusFieldMeans(Get(input, "post_revision").value, "local_reviewer_status");
      StatusFieldMeans(Get(input, "post_revision").value, "llm_reviewer_status");
    }
  }

  /** The error is due for one of the first n records. */
  ghost predicate FaultyBefore(readers: Readers, revisions: seq<Json>, n: nat, packageId: string, e: RevisionError)
    requires n <= |revisions|
  {
    exists i | 0 <= i < n :: RevisionFaulty(readers, revisions[i], i, packageId, e)
  }

  /** `revision_loop_report`. */
  method ReviseLoop(readers: Readers, input: Json, packageId: string, conflict: Conflict, accepted: bool)
      returns (r: RevisionReport)
    ensures var revisions := ArrOr(input, "revisions");
            && r.required == (conflict.decision == RevisionRequired) && r.count == |revisions|
            && r.limitRespected == (|revisions| <= MAX_REVISIONS)
            && (r.errors == [] <==> RevisionsSound(readers, revisions, packageId))
            && (r.finalAnswerAllowed <==>
                  && accepted && RevisionsSound(readers, revisions, packageId)
                  && if conflict.decision == RevisionRequired then revisions != [] && PassesAfterwards(input)
                      else true)
            && (r.terminal == FailedClosed <==>
                  || !RevisionsSound(readers, revisions, packageId)
                  || (conflict.decision == RevisionRequired && |revisions| == MAX_REVISIONS
                      && !PassesAfterwards(input)))
            && (r.terminal == PassedAfterRevision <==>
                  && RevisionsSound(readers, revisions, packageId) && conflict.decision == RevisionRequired
                  && revisions != [] && PassesAfterwards(input))
            && (r.terminal == Decided(conflict.decision) <==>
                  RevisionsSound(readers, revisions, packageId) && conflict.decision != RevisionRequired)
            && (r.packageMutated <==> exists i | 0 <= i < |revisions| :: Mutates(readers, revisions[i]))
            && (forall e :: e in r.errors <==>
                  || (e == LimitExceeded && |revisions| > MAX_REVISIONS)
                  || FaultyBefore(readers, revisions, |revisions|, packageId, e))
  {
    PostRevisionMeans(input);
    var revisions := ArrOr(input, "revisions");
    var required := conflict.decision == RevisionRequired;
    var errors: seq<RevisionError> := [];
    var mutated, count := false, 0;
    var i := 0;
    while i < |revisions|
      invariant 0 <= i <= |revisions| && count == i
      invariant errors == [] <==> forall j | 0 <= j < i :: RevisionSound(readers, revisions[j], j, packageId)
      invariant mutated <==> exists j | 0 <= j < i :: Mutates(readers, revisions[j])
      invariant forall e :: e in errors <==> FaultyBefore(readers, revisions, i, packageId, e)
    {
      count := count + 1;
      var found, bad := CheckRevision(readers, revisions[i], i, packageId);
      errors := errors + found;
      mutated := mutated || bad;
      i := i + 1;
    }
    var limitRespected := count <= MAX_REVISIONS;
    if !limitRespected { errors := errors + [LimitExceeded]; }
    var terminal :=
      if errors != [] then FailedClosed
      else if !required then Decided(conflict.decision)
      else if count == 0 then StillRevisionRequired
      else if PostRevisionPassed(input) then PassedAfterRevision
      else if count >= MAX_REVISIONS then FailedClosed
      else StillRevisionRequired;
    var allowed := accepted
        && (terminal == Decided(Passed) || terminal == Decided(PassedWithWarning) || terminal == PassedAfterRevision);
    r := RevisionReport(required, count, limitRespected, mutated, terminal, allowed, errors);
  }

  // ---------------------------------------------------------------- the whole flow

  datatype FlowReport = FlowReport(
    draft: DraftContract.Report, conflict: Conflict, revision: RevisionReport,
    highRiskFalsePass: bool, overrideViolation: bool, parseError: bool)

  /** The LLM review counts only when it has no forbidden key, the right version and a confidence in range. */
  ghost predicate ReviewUsable(readers: Readers, v: Json) {
    && !DraftContract.HasForbidden(v, REVIEW_FORBIDDEN)
    && readers.review(v).Ok?
    && readers.review(v).value.schemaVersion == REVIEW_VERSION
    && MIN_CONFIDENCE <= readers.review(v).value.confidence <= 1.0
  }

  method ReadReview(readers: Readers, v: Json) returns (review: Option<Review>)
    ensures review.Some? <==> ReviewUsable(readers, v)
    ensures review.Some? ==> readers.review(v) == Ok(review.value)
  {
    FoundIffOccurs(v, REVIEW_FORBIDDEN);
    var forbidden := FirstForbidden(v, REVIEW_FORBIDDEN);
    match readers.review(v) {
      case Err(_) => return None;
      case Ok(r) =>
        if forbidden.None? && r.schemaVersion == REVIEW_VERSION && r.confidence >= MIN_CONFIDENCE
            && r.confidence <= 1.0 {
          return Some(r);
        }
        return None;
    }
  }

  /** The input's LLM review, if it counts. */
  ghost function UsableReview(readers: Readers, input: Json): Option<Review> {
    var llm := GetOrNull(input, "llm_review");
    if ReviewUsable(readers, llm) then Some(readers.review(llm).value) else None
  }

  /** The conflict gives its reason and the revisions it asks for. */
  ghost predicate Explained(readers: Readers, input: Json, accepted: bool, c: Conflict) {
    var localPass := PassesAt(GetOrNull(input, "local_review"), "status");
    && ReasonFits(c, accepted, localPass, UsableReview(readers, input), HighRiskPresent(readers, input))
    && RevisionsFit(c, UsableReview(readers, input))
  }

  /** Both reviewers let the draft pass, directly or with a low-risk warning. */
  ghost predicate ReviewsPass(readers: Readers, input: Json) {
    var localPass := PassesAt(GetOrNull(input, "local_review"), "status");
    var review := UsableReview(readers, input);
    || PassesDirectly(true, localPass, review, BoolOr(input, "high_risk_issue_present", false))
    || PassesWithWarning(true, localPass, review)
  }

  /** When a final answer may go out. */
  ghost predicate FinalAnswerDue(readers: Readers, input: Json) {
    var package, output := GetOrNull(input, "package"), GetOrNull(input, "draft_candidate");
    var revisions := ArrOr(input, "revisions");
    && DraftContract.Acceptable(readers, package, output)
    && RevisionsSound(readers, revisions, StrOr(package, "package_id", ""))
    && (ReviewsPass(readers, input) || (revisions != [] && PassesAfterwards(input)))
  }

  /** The caller flags a high-risk issue, or the draft itself shows one. */
  ghost predicate HighRiskPresent(readers: Readers, input: Json) {
    var package, output := GetOrNull(input, "package"), GetOrNull(input, "draft_candidate");
    || BoolOr(input, "high_risk_issue_present", false)
    || DraftContract.HasForbidden(output, DRAFT_FORBIDDEN)
    || (readers.draft(output).Ok?
        && var d := readers.draft(output).value;
           DraftContract.CitesOutside(package, d) || d.unsupportedClaims != [] || d.memoryUsedAsEvidence)
  }

  predicate RiskFlagged(draft: DraftContract.Report) {
    draft.externalRef || draft.unsupportedClaim || draft.memoryAsEvidence || draft.internalField
  }

  /** The report of the draft gate about the input's draft, as far as the reviews depend on it. */
  ghost predicate ReportsOn(readers: Readers, input: Json, draft: DraftContract.Report) {
    var package, output := GetOrNull(input, "package"), GetOrNull(input, "draft_candidate");
    && (draft.accepted <==> DraftContract.Acceptable(readers, package, output))
    && (draft.internalField <==> DraftContract.HasForbidden(output, DRAFT_FORBIDDEN))
    && DraftContract.ReadFlags(readers, package, output, draft.externalRef, draft.unsupportedClaim,
                               draft.memoryAsEvidence, draft.claimMapComplete)
  }

  lemma RiskFlagsMean(readers: Readers, input: Json, draft: DraftContract.Report)
    requires ReportsOn(readers, input, draft)
    ensures BoolOr(input, "high_risk_issue_present", false) || RiskFlagged(draft) <==> HighRiskPresent(readers, input)
  {
  }

  lemma ConflictIsExplained(readers: Readers, input: Json, draft: DraftContract.Report, localStatus: Status,
                            review: Option<Review>, highRiskIssue: bool)
    requires localStatus == StatusField(GetOrNull(input, "local_review"), "status")
    requires review == UsableReview(readers, input) && (highRiskIssue <==> HighRiskPresent(readers, input))
    ensures Explained(readers, input, draft.accepted,
              ReviewConflict(draft.accepted, draft.draftCandidateId, localStatus, review, highRiskIssue, review.None?))
  {
    StatusFieldMeans(GetOrNull(input, "local_review"), "status");
    ReasonMeans(draft.accepted, draft.draftCandidateId, localStatus, review, highRiskIssue);
    RevisionsAskedFor(draft.accepted, draft.draftCandidateId, localStatus, review, highRiskIssue, review.None?);
  }

  lemma ConflictDecides(readers: Readers, input: Json, draft: DraftContract.Report, localStatus: Status,
                        review: Option<Review>, highRiskIssue: bool)
    requires localStatus == StatusField(GetOrNull(input, "local_review"), "status") && ReportsOn(readers, input, draft)
    requires review == UsableReview(readers, input) && (highRiskIssue <==> HighRiskPresent(readers, input))
    ensures var c := ReviewConflict(draft.accepted, draft.draftCandidateId, localStatus, review, highRiskIssue,
                                    review.None?);
            && (c.decision != RevisionRequired <==> draft.accepted && ReviewsPass(readers, input))
            && (localStatus == Fail && c.llmStatus == Pass ==> c.decision == RevisionRequired)
            && (c.highRiskFalsePass <==> highRiskIssue && review.Some? && SaysPass(review.value.status))
  {
    RiskFlagsMean(readers, input, draft);
    AcceptedDraftHasNoRiskFlags(readers, input, draft);
    StatusFieldMeans(GetOrNull(input, "local_review"), "status");
    DecisionMeans(draft.accepted, draft.draftCandidateId, localStatus, review, highRiskIssue, review.None?);
    RevisionsAskedFor(draft.accepted, draft.draftCandidateId, localStatus, review, highRiskIssue, review.None?);
  }

  /** Both reviews, and what they decide about the draft. */
  method DecideReviews(readers: Readers, input: Json, draft: DraftContract.Report)
    returns (conflict: Conflict, parseError: bool, localStatus: Status)
    requires ReportsOn(readers, input, draft)
    ensures parseError <==> !ReviewUsable(readers, GetOrNull(input, "llm_review"))
    ensures conflict.decision != RevisionRequired <==> draft.accepted && ReviewsPass(readers, input)
    ensures localStatus == Fail && conflict.llmStatus == Pass ==> conflict.decision == RevisionRequired
    ensures conflict.highRiskFalsePass <==>
              var llm := GetOrNull(input, "llm_review");
              && HighRiskPresent(readers, input) && ReviewUsable(readers, llm)
              && SaysPass(readers.review(llm).value.status)
    ensures Explained(readers, input, draft.accepted, conflict)
  {
    localStatus := StatusField(GetOrNull(input, "local_review"), "status");
    var review := ReadReview(readers, GetOrNull(input, "llm_review"));
    parseError := review.None?;
    var highRiskIssue := BoolOr(input, "high_risk_issue_present", false) || RiskFlagged(draft);
    RiskFlagsMean(readers, input, draft);
    conflict := ReviewConflict(draft.accepted, draft.draftCandidateId, localStatus, review, highRiskIssue, parseError);
    ConflictIsExplained(readers, input, draft, localStatus, review, highRiskIssue);
    ConflictDecides(readers, input, draft, localStatus, review, highRiskIssue);
  }

  /** `evaluate_reviewer_flow`: a final answer is allowed exactly when it is due, and the override
      violation is exactly the high-risk false pass. */
  method EvaluateReviewerFlow(readers: Readers, input: Json) returns (r: FlowReport)
    ensures r.revision.finalAnswerAllowed <==> FinalAnswerDue(readers, input)
    ensures r.overrideViolation == r.highRiskFalsePass
    ensures r.highRiskFalsePass <==>
              var llm := GetOrNull(input, "llm_review");
              && HighRiskPresent(readers, input) && ReviewUsable(readers, llm)
              && SaysPass(readers.review(llm).value.status)
    ensures r.draft.accepted <==>
              DraftContract.Acceptable(readers, GetOrNull(input, "package"), GetOrNull(input, "draft_candidate"))
    ensures r.parseError <==> !ReviewUsable(readers, GetOrNull(input, "llm_review"))
    ensures r.conflict.decision == RevisionRequired <==> r.revision.required
    ensures Explained(readers, input, r.draft.accepted, r.conflict)
  {
    var package := GetOrNull(input, "package");
    var draft := DraftContract.EvaluateDraft(readers, package, GetOrNull(input, "draft_candidate"));
    var snapshot := SnapshotPackage(package);
    var conflict, parseError, localStatus := DecideReviews(readers, input, draft);
    var revision := ReviseLoop(readers, input, snapshot.packageId, conflict, draft.accepted);
    var violation := (localStatus == Fail && conflict.llmStatus == Pass && conflict.decision != RevisionRequired)
                     || conflict.highRiskFalsePass;
    r := FlowReport(draft, conflict, revision, conflict.highRiskFalsePass, violation, parseError);
  }

  lemma AcceptedDraftHasNoRiskFlags(readers: Readers, input: Json, draft: DraftContract.Report)
    requires ReportsOn(readers, input, draft)
    ensures draft.accepted ==> !RiskFlagged(draft)
  {
  }
}
