/** The release-gate decision: every check in order, the findings, and the terminal decision. */
module GateDecision {
  import opened Text
  import opened Json
  import opened PathRules
  import opened GateContext
  import opened GateEvidence

  datatype Decision =
    | AllowAutonomousMerge | DenyPolicyViolation | DenyMissingEvidence | DenyStaleBranch
    | DenyUntrustedContext | ErrorFailClosed

  // ----- the terminal decision -----

  predicate UntrustedFinding(f: Finding) {
    || f.WrongRepository? || f.UntrustedFork? || f.PullRequestTargetContext? || f.ReviewEvidenceContextUnbound?
    || f.BundleContextUnbound? || f.SupersessionContextUnbound?
  }

  predicate ForbiddenFinding(f: Finding) {
    || f.BundleSameProvider? || f.SupersessionSameProvider? || f.SupersessionAuthorityOpen?
  }

  predicate MissingFinding(f: Finding) {
    || f.MissingPullRequest? || f.MissingIssue? || f.BranchFreshnessUnknown? || f.RequiredChecksMissing?
    || f.RequiredChecksNotGreen? || f.DiffScopeMissing? || f.GppStatusMissing? || f.GppIssueMismatch?
    || f.ReviewEvidenceMissing? || f.ReviewEvidenceSchemaInvalid? || f.ReviewEvidenceNotAccepting?
    || f.ReviewEvidenceContextUnverifiable? || f.BundleMissing? || f.BundleSchemaInvalid?
    || f.BundleConsensusNotAgree? || f.BundleContextUnverifiable? || f.SupersessionMissing?
    || f.SupersessionSchemaInvalid? || f.SupersessionStale? || f.SupersessionConsensusNotAgree?
    || f.SupersessionContextUnverifiable?
  }

  predicate AnyFinding(findings: seq<Finding>, p: Finding -> bool) {
    exists i :: 0 <= i < |findings| && p(findings[i])
  }

  /** The decision for a list of findings, tested in the order of the code. */
  function DecisionFromFindings(findings: seq<Finding>): Decision {
    if PayloadNotObject in findings then ErrorFailClosed
    else if BranchNotUpToDate in findings then DenyStaleBranch
    else if AnyFinding(findings, UntrustedFinding) then DenyUntrustedContext
    else if AnyFinding(findings, ForbiddenFinding) then DenyPolicyViolation
    else if AnyFinding(findings, MissingFinding) then DenyMissingEvidence
    else if findings != [] then DenyPolicyViolation
    else AllowAutonomousMerge
  }

  // ----- conditions on the context -----

  /** A current-head approval by someone other than the author. */
  predicate HasNonAuthorApproval(w: World, ctx: Context) {
    && ctx.prAuthor.Some? && ctx.headSha.Some?
    && exists i :: 0 <= i < |ctx.humanReviews| && Approves(w, ctx.humanReviews[i], ctx.prAuthor.value, ctx.headSha)
  }

  predicate Approves(w: World, review: HumanReview, author: string, headSha: Option<string>) {
    && review.author.Some? && w.lower(review.author.value) != w.lower(author)
    && w.upper(review.state.GetOr("")) == "APPROVED"
    && review.commitOid == headSha
  }

  predicate HumanReviewSatisfied(w: World, ctx: Context, supersessionValid: bool) {
    || ctx.pathSensitiveHumanReviewEnabled != Some(true)
    || ctx.highRiskChangedPaths == []
    || supersessionValid
    || HasNonAuthorApproval(w, ctx)
  }

  const CHECK_NAME := "ao-release-gate"

  function OtherChecks(checks: seq<InputCheck>): seq<InputCheck> {
    if checks == [] then []
    else (if checks[0].name != CHECK_NAME then [checks[0]] else []) + OtherChecks(checks[1..])
  }

  predicate IsGreen(w: World, check: InputCheck) {
    && w.lower(check.status.GetOr("")) in ["completed", "success"]
    && w.lower(check.conclusion.GetOr("")) == "success"
  }

  predicate RequiredChecksAreGreen(w: World, checks: seq<InputCheck>) {
    var relevant := OtherChecks(checks);
    relevant != [] && forall i | 0 <= i < |relevant| :: IsGreen(w, relevant[i])
  }

  predicate DiffInScope(ctx: Context) {
    && ctx.changedPaths != [] && ctx.allowedPathPrefixes != []
    && forall i | 0 <= i < |ctx.changedPaths| :: PathAllowed(ctx.changedPaths[i], ctx.allowedPathPrefixes)
  }

  // ----- the checks, in order -----

  const EXPECTED_REPOSITORY := "Halildeu/ao-kernel"
  const EXPECTED_BASE_REF := "main"

  function ContextChecks(w: World, payload: Value, ctx: Context): seq<Check> {
    [ CheckThat(PayloadShape, payload.Dict?, PayloadNotObject),
      CheckThat(Repository, ctx.repository == Some(EXPECTED_REPOSITORY), WrongRepository),
      CheckThat(PullRequest, ctx.pullRequestNumber.Some? && ctx.headSha.Some?, MissingPullRequest),
      CheckThat(IssueLink, ctx.issueUrl.Some?, MissingIssue),
      CheckThat(BaseRef, ctx.baseRef == Some(EXPECTED_BASE_REF), WrongBaseRef),
      CheckThat(BranchFreshness, ctx.branchUpToDate == Some(true),
                if ctx.branchUpToDate.None? then BranchFreshnessUnknown else BranchNotUpToDate),
      CheckThat(ForkBoundary, ctx.fromFork == Some(false), UntrustedFork),
      CheckThat(EventBoundary, ctx.eventName != Some("pull_request_target"), PullRequestTargetContext),
      CheckThat(RequiredChecks, RequiredChecksAreGreen(w, ctx.requiredChecks),
                if ctx.requiredChecks == [] then RequiredChecksMissing else RequiredChecksNotGreen),
      CheckThat(GppStatus, ctx.gppCurrentWpId.Some? && ctx.gppCurrentWpStatus.Some?, GppStatusMissing),
      CheckThat(GppIssueConsistency, ctx.issueUrl.Some? && ctx.issueUrl == ctx.gppCurrentWpIssue, GppIssueMismatch),
      CheckThat(GppClosedBoundaries,
                && ctx.gppSupportWideningAllowed == Some(false)
                && ctx.gppProductionPlatformClaimAllowed == Some(false)
                && ctx.gppLiveAdapterExecutionAllowed == Some(false), GppBoundaryOpen),
      CheckThat(DiffScope, DiffInScope(ctx),
                if ctx.changedPaths == [] || ctx.allowedPathPrefixes == [] then DiffScopeMissing else DiffOutOfScope),
      Pass(PrDeliveryMetadataDiagnostic) ]
  }

  function BoundaryChecks(w: World, ctx: Context, supersessionValid: bool): seq<Check> {
    [ CheckThat(PathSensitiveHumanReview, HumanReviewSatisfied(w, ctx, supersessionValid), HighRiskHumanReviewMissing),
      CheckThat(SecretBoundary, ctx.forbiddenSecretContextDetected == Some(false), ForbiddenSecretContext),
      CheckThat(AdminBypassBoundary, ctx.adminBypassRequested == Some(false), AdminBypassRequested),
      CheckThat(BotBoundary, ctx.patBackedBotActor == Some(false), PatBackedBotActor),
      CheckThat(AgentAuthorityBoundary, ctx.codexOrClaudeReleaseAuthority == Some(false), AgentReleaseAuthority),
      CheckThat(LiveAdapterBoundary, ctx.liveAdapterExecutionRequested == Some(false), LiveAdapterExecutionRequested) ]
  }

  /** Everything a decision is made from besides the platform. */
  datatype Inputs = Inputs(
    payload: Value, gppStatus: Value, reviewEvidence: Value, bundle: Value, supersession: Value, now: string)

  function ChecksOf(w: World, inputs: Inputs, ctx: Context): Outcome<seq<Check>> {
    match SupersessionChecks(w, inputs.supersession, ctx, inputs.now)
    case Raised => Raised
    case Done((supersession, valid)) =>
      match BundleChecks(w, inputs.bundle, ctx)
      case Raised => Raised
      case Done(bundle) =>
        Done(ContextChecks(w, inputs.payload, ctx) + supersession + BoundaryChecks(w, ctx, valid)
             + ReviewOrSmokeChecks(w, inputs.reviewEvidence, ctx) + bundle)
  }

  /** The finding codes of the blocked checks, in order. */
  function Findings(checks: seq<Check>): seq<Finding> {
    if checks == [] then []
    else (if checks[0].finding.Some? then [checks[0].finding.value] else []) + Findings(checks[1..])
  }

  datatype GateResult = GateResult(decision: Decision, allow: bool, checks: seq<Check>, findings: seq<Finding>)

  function ResultOf(checks: seq<Check>): GateResult {
    var findings := Findings(checks);
    var decision := DecisionFromFindings(findings);
    GateResult(decision, decision == AllowAutonomousMerge, checks, findings)
  }

  function DecideIn(w: World, inputs: Inputs, ctx: Context): Outcome<GateResult> {
    match ChecksOf(w, inputs, ctx)
    case Raised => Raised
    case Done(checks) => Done(ResultOf(checks))
  }

  function Decide(w: World, inputs: Inputs): Outcome<GateResult> {
    DecideIn(w, inputs, ExtractContext(inputs.payload, inputs.gppStatus))
  }
}
