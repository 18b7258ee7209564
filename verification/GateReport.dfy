/** How a decision is reported: the checks and their order, and the check each finding stands at. */
module GateReport {
  import opened Text
  import opened Json
  import opened GateContext
  import opened GateEvidence
  import opened GateDecision
  import opened GatePolicy
  import opened GateFindings

  /** The check that a finding blocks; codes the gate never emits block none. */
  ghost function Place(f: Finding): Option<CheckName> {
    match f
    case PayloadNotObject => Some(PayloadShape)
    case WrongRepository => Some(Repository)
    case MissingPullRequest => Some(PullRequest)
    case MissingIssue => Some(IssueLink)
    case WrongBaseRef => Some(BaseRef)
    case BranchFreshnessUnknown | BranchNotUpToDate => Some(BranchFreshness)
    case UntrustedFork => Some(ForkBoundary)
    case PullRequestTargetContext => Some(EventBoundary)
    case RequiredChecksMissing | RequiredChecksNotGreen => Some(CheckName.RequiredChecks)
    case GppStatusMissing => Some(CheckName.GppStatus)
    case GppIssueMismatch => Some(GppIssueConsistency)
    case GppBoundaryOpen => Some(GppClosedBoundaries)
    case DiffScopeMissing | DiffOutOfScope => Some(DiffScope)
    case HighRiskHumanReviewMissing => Some(PathSensitiveHumanReview)
    case ForbiddenSecretContext => Some(SecretBoundary)
    case AdminBypassRequested => Some(AdminBypassBoundary)
    case PatBackedBotActor => Some(BotBoundary)
    case AgentReleaseAuthority => Some(AgentAuthorityBoundary)
    case LiveAdapterExecutionRequested => Some(LiveAdapterBoundary)
    case ReviewEvidenceMissing | ReviewEvidenceSchemaInvalid | ReviewEvidenceNotAccepting => Some(CheckName.ReviewEvidence)
    case ReviewEvidenceContextUnverifiable | ReviewEvidenceContextUnbound => Some(ReviewEvidenceContextBound)
    case AutonomousRequestInvalid => Some(CheckName.AutonomousRequest)
    case BundleMissing => Some(EvidenceBundle)
    case BundleSchemaInvalid => Some(EvidenceBundleSchema)
    case BundleSameProvider | BundleConsensusNotAgree => Some(BundleConsensus)
    case BundleContextUnverifiable | BundleContextUnbound => Some(BundleContextBound)
    case BundleAuthorityOpen => Some(BundleAuthorityBoundary)
    case SupersessionMissing => Some(SupersessionEvidence)
    case SupersessionSchemaInvalid => Some(SupersessionSchema)
    case SupersessionStale => Some(SupersessionFreshness)
    case SupersessionConsensusNotAgree | SupersessionSameProvider => Some(SupersessionConsensus)
    case SupersessionContextUnverifiable | SupersessionContextUnbound => Some(SupersessionContextBound)
    case SupersessionAuthorityOpen => Some(SupersessionAuthorityBoundary)
    case Unknown(_) => None
  }

  /** No finding, or one that belongs to the check. */
  ghost predicate Belongs(finding: Option<Finding>, name: CheckName) {
    finding.Some? ==> Place(finding.value) == Some(name)
  }

  ghost predicate Stands(c: Check, name: CheckName) {
    c.name == name && Belongs(c.finding, name)
  }

  /** Each check has its name and its own findings. */
  ghost predicate Are(checks: seq<Check>, names: seq<CheckName>) {
    && |checks| == |names|
    && forall i | 0 <= i < |names| :: Stands(checks[i], names[i])
  }

  lemma AreAppend(a: seq<Check>, names: seq<CheckName>, b: seq<Check>, more: seq<CheckName>)
    requires Are(a, names) && Are(b, more)
    ensures Are(a + b, names + more)
  {
  }

  ghost function ContextNames(): seq<CheckName> {
    [PayloadShape, Repository, PullRequest, IssueLink, BaseRef, BranchFreshness, ForkBoundary, EventBoundary,
     CheckName.RequiredChecks, CheckName.GppStatus, GppIssueConsistency, GppClosedBoundaries, DiffScope,
     PrDeliveryMetadataDiagnostic]
  }

  ghost function BoundaryNames(): seq<CheckName> {
    [PathSensitiveHumanReview, SecretBoundary, AdminBypassBoundary, BotBoundary, AgentAuthorityBoundary,
     LiveAdapterBoundary]
  }

  ghost function ReviewNames(): seq<CheckName> {
    [CheckName.ReviewEvidence, ReviewEvidenceContextBound]
  }

  ghost function BundleNames(): seq<CheckName> {
    [CheckName.AutonomousRequest, EvidenceBundle, EvidenceBundleSchema, BundleConsensus, BundleContextBound,
     BundleAuthorityBoundary]
  }

  /** The freshness check stands before the consensus check, unless the evidence fails its schema. */
  ghost function SupersessionNames(swapped: bool): seq<CheckName> {
    [SupersessionEvidence, SupersessionSchema]
    + (if swapped then [SupersessionConsensus, SupersessionFreshness] else [SupersessionFreshness, SupersessionConsensus])
    + [SupersessionContextBound, SupersessionAuthorityBoundary]
  }

  // ----- the context and the boundaries -----

  /** The check is one that blocks with this finding. */
  ghost predicate IsTest(c: Check, name: CheckName, f: Finding) {
    c == CheckThat(name, true, f) || c == CheckThat(name, false, f)
  }

  lemma TestStands(c: Check, name: CheckName, f: Finding)
    requires IsTest(c, name, f) && Place(f) == Some(name)
    ensures Stands(c, name)
  {
  }

  lemma IdentityTests(w: World, payload: Value, ctx: Context, c: seq<Check>)
    requires c == ContextChecks(w, payload, ctx)
    ensures |c| == 14
    ensures IsTest(c[0], PayloadShape, PayloadNotObject) && IsTest(c[1], Repository, WrongRepository)
    ensures IsTest(c[2], PullRequest, MissingPullRequest) && IsTest(c[3], IssueLink, MissingIssue)
    ensures IsTest(c[4], BaseRef, WrongBaseRef)
  {
  }

  lemma BranchTests(w: World, payload: Value, ctx: Context, c: seq<Check>)
    requires c == ContextChecks(w, payload, ctx)
    ensures |c| == 14
    ensures IsTest(c[5], BranchFreshness, BranchFreshnessUnknown) || IsTest(c[5], BranchFreshness, BranchNotUpToDate)
    ensures IsTest(c[6], ForkBoundary, UntrustedFork) && IsTest(c[7], EventBoundary, PullRequestTargetContext)
    ensures || IsTest(c[8], CheckName.RequiredChecks, RequiredChecksMissing)
            || IsTest(c[8], CheckName.RequiredChecks, RequiredChecksNotGreen)
  {
  }

  lemma WorkTests(w: World, payload: Value, ctx: Context, c: seq<Check>)
    requires c == ContextChecks(w, payload, ctx)
    ensures |c| == 14
    ensures IsTest(c[9], CheckName.GppStatus, GppStatusMissing) && IsTest(c[10], GppIssueConsistency, GppIssueMismatch)
    ensures IsTest(c[11], GppClosedBoundaries, GppBoundaryOpen)
    ensures IsTest(c[12], DiffScope, DiffScopeMissing) || IsTest(c[12], DiffScope, DiffOutOfScope)
    ensures c[13] == Pass(PrDeliveryMetadataDiagnostic)
  {
  }

  lemma EitherStands(c: Check, name: CheckName, f: Finding, g: Finding)
    requires IsTest(c, name, f) || IsTest(c, name, g)
    requires Place(f) == Some(name) && Place(g) == Some(name)
    ensures Stands(c, name)
  {
  }

  lemma IdentityStands(c: seq<Check>)
    requires |c| == 14
    requires IsTest(c[0], PayloadShape, PayloadNotObject) && IsTest(c[1], Repository, WrongRepository)
    requires IsTest(c[2], PullRequest, MissingPullRequest) && IsTest(c[3], IssueLink, MissingIssue)
    requires IsTest(c[4], BaseRef, WrongBaseRef)
    ensures Stands(c[0], PayloadShape) && Stands(c[1], Repository) && Stands(c[2], PullRequest) && Stands(c[3], IssueLink)
    ensures Stands(c[4], BaseRef)
  {
    TestStands(c[0], PayloadShape, PayloadNotObject);
    TestStands(c[1], Repository, WrongRepository);
    TestStands(c[2], PullRequest, MissingPullRequest);
    TestStands(c[3], IssueLink, MissingIssue);
    TestStands(c[4], BaseRef, WrongBaseRef);
  }

  lemma BranchStands(c: seq<Check>)
    requires |c| == 14
    requires IsTest(c[5], BranchFreshness, BranchFreshnessUnknown) || IsTest(c[5], BranchFreshness, BranchNotUpToDate)
    requires IsTest(c[6], ForkBoundary, UntrustedFork) && IsTest(c[7], EventBoundary, PullRequestTargetContext)
    requires || IsTest(c[8], CheckName.RequiredChecks, RequiredChecksMissing)
             || IsTest(c[8], CheckName.RequiredChecks, RequiredChecksNotGreen)
    ensures Stands(c[5], BranchFreshness) && Stands(c[6], ForkBoundary) && Stands(c[7], EventBoundary)
    ensures Stands(c[8], CheckName.RequiredChecks)
  {
    EitherStands(c[5], BranchFreshness, BranchFreshnessUnknown, BranchNotUpToDate);
    TestStands(c[6], ForkBoundary, UntrustedFork);
    TestStands(c[7], EventBoundary, PullRequestTargetContext);
    EitherStands(c[8], CheckName.RequiredChecks, RequiredChecksMissing, RequiredChecksNotGreen);
  }

  lemma WorkStands(c: seq<Check>)
    requires |c| == 14
    requires IsTest(c[9], CheckName.GppStatus, GppStatusMissing) && IsTest(c[10], GppIssueConsistency, GppIssueMismatch)
    requires IsTest(c[11], GppClosedBoundaries, GppBoundaryOpen)
    requires IsTest(c[12], DiffScope, DiffScopeMissing) || IsTest(c[12], DiffScope, DiffOutOfScope)
    requires c[13] == Pass(PrDeliveryMetadataDiagnostic)
    ensures Stands(c[9], CheckName.GppStatus) && Stands(c[10], GppIssueConsistency) && Stands(c[11], GppClosedBoundaries)
    ensures Stands(c[12], DiffScope) && Stands(c[13], PrDeliveryMetadataDiagnostic)
  {
    TestStands(c[9], CheckName.GppStatus, GppStatusMissing);
    TestStands(c[10], GppIssueConsistency, GppIssueMismatch);
    TestStands(c[11], GppClosedBoundaries, GppBoundaryOpen);
    EitherStands(c[12], DiffScope, DiffScopeMissing, DiffOutOfScope);
  }

  lemma FourteenStand(c: seq<Check>, names: seq<CheckName>)
    requires |c| == |names| == 14
    requires Stands(c[0], names[0]) && Stands(c[1], names[1]) && Stands(c[2], names[2]) && Stands(c[3], names[3])
    requires Stands(c[4], names[4]) && Stands(c[5], names[5]) && Stands(c[6], names[6]) && Stands(c[7], names[7])
    requires Stands(c[8], names[8]) && Stands(c[9], names[9]) && Stands(c[10], names[10])
    requires Stands(c[11], names[11]) && Stands(c[12], names[12]) && Stands(c[13], names[13])
    ensures Are(c, names)
  {
  }

  lemma ContextAre(w: World, payload: Value, ctx: Context, c: seq<Check>)
    requires c == ContextChecks(w, payload, ctx)
    ensures Are(c, ContextNames())
  {
    IdentityTests(w, payload, ctx, c);
    IdentityStands(c);
    BranchTests(w, payload, ctx, c);
    BranchStands(c);
    WorkTests(w, payload, ctx, c);
    WorkStands(c);
    FourteenStand(c, ContextNames());
  }

  lemma SixStand(c: seq<Check>, names: seq<CheckName>)
    requires |c| == |names| == 6
    requires Stands(c[0], names[0]) && Stands(c[1], names[1]) && Stands(c[2], names[2])
    requires Stands(c[3], names[3]) && Stands(c[4], names[4]) && Stands(c[5], names[5])
    ensures Are(c, names)
  {
  }

  lemma BoundaryIsTests(w: World, ctx: Context, valid: bool, c: seq<Check>)
    requires c == BoundaryChecks(w, ctx, valid)
    ensures |c| == 6
    ensures IsTest(c[0], PathSensitiveHumanReview, HighRiskHumanReviewMissing) && IsTest(c[1], SecretBoundary, ForbiddenSecretContext)
    ensures IsTest(c[2], AdminBypassBoundary, AdminBypassRequested) && IsTest(c[3], BotBoundary, PatBackedBotActor)
    ensures IsTest(c[4], AgentAuthorityBoundary, AgentReleaseAuthority)
    ensures IsTest(c[5], LiveAdapterBoundary, LiveAdapterExecutionRequested)
  {
  }

  lemma BoundaryStands(c: seq<Check>)
    requires |c| == 6
    requires IsTest(c[0], PathSensitiveHumanReview, HighRiskHumanReviewMissing) && IsTest(c[1], SecretBoundary, ForbiddenSecretContext)
    requires IsTest(c[2], AdminBypassBoundary, AdminBypassRequested) && IsTest(c[3], BotBoundary, PatBackedBotActor)
    requires IsTest(c[4], AgentAuthorityBoundary, AgentReleaseAuthority)
    requires IsTest(c[5], LiveAdapterBoundary, LiveAdapterExecutionRequested)
    ensures Stands(c[0], PathSensitiveHumanReview) && Stands(c[1], SecretBoundary) && Stands(c[2], AdminBypassBoundary)
    ensures Stands(c[3], BotBoundary) && Stands(c[4], AgentAuthorityBoundary) && Stands(c[5], LiveAdapterBoundary)
  {
    TestStands(c[0], PathSensitiveHumanReview, HighRiskHumanReviewMissing);
    TestStands(c[1], SecretBoundary, ForbiddenSecretContext);
    TestStands(c[2], AdminBypassBoundary, AdminBypassRequested);
    TestStands(c[3], BotBoundary, PatBackedBotActor);
    TestStands(c[4], AgentAuthorityBoundary, AgentReleaseAuthority);
    TestStands(c[5], LiveAdapterBoundary, LiveAdapterExecutionRequested);
  }

  lemma BoundaryAre(w: World, ctx: Context, valid: bool, c: seq<Check>)
    requires c == BoundaryChecks(w, ctx, valid)
    ensures Are(c, BoundaryNames())
  {
    BoundaryIsTests(w, ctx, valid, c);
    BoundaryStands(c);
    SixStand(c, BoundaryNames());
  }

  // ----- the evaluators -----

  lemma TwoAre(evidence: Option<Finding>, bound: Option<Finding>)
    requires Belongs(evidence, CheckName.ReviewEvidence) && Belongs(bound, ReviewEvidenceContextBound)
    ensures Are(TwoChecks(evidence, bound), ReviewNames())
  {
  }

  lemma AcceptedAre(w: World, evidence: Value, ctx: Context)
    ensures Are(ReviewEvidenceChecks(w, evidence, ctx), ReviewNames())
  {
    ReviewChecksAre(w, evidence, ctx);
    if Accepting(w, evidence) {
      BoundOrNot(AcceptedReview(w, evidence, ctx));
    } else {
      WhyStands(w, evidence);
    }
  }

  lemma BoundOrNot(accepted: bool)
    ensures Are(TwoChecks(None, IfNot(accepted, ReviewEvidenceContextUnbound)), ReviewNames())
  {
    TwoAre(None, IfNot(accepted, ReviewEvidenceContextUnbound));
  }

  lemma WhyStands(w: World, evidence: Value)
    ensures Are(TwoChecks(Some(WhyNotAccepted(w, evidence)), Some(ReviewEvidenceContextUnverifiable)), ReviewNames())
  {
    TwoAre(Some(ReviewEvidenceMissing), Some(ReviewEvidenceContextUnverifiable));
    TwoAre(Some(ReviewEvidenceSchemaInvalid), Some(ReviewEvidenceContextUnverifiable));
    TwoAre(Some(ReviewEvidenceNotAccepting), Some(ReviewEvidenceContextUnverifiable));
  }

  lemma ReviewAre(w: World, evidence: Value, ctx: Context)
    ensures Are(ReviewOrSmokeChecks(w, evidence, ctx), ReviewNames())
  {
    ReviewOrSmoke(w, evidence, ctx);
    TwoAre(None, None);
    AcceptedAre(w, evidence, ctx);
  }

  lemma BundleSixAre(request: Check, present: Option<Finding>, schema: Option<Finding>, consensus: Option<Finding>,
                     bound: Option<Finding>, authority: Option<Finding>)
    requires Stands(request, CheckName.AutonomousRequest) && Belongs(present, EvidenceBundle)
    requires Belongs(schema, EvidenceBundleSchema) && Belongs(consensus, BundleConsensus)
    requires Belongs(bound, BundleContextBound) && Belongs(authority, BundleAuthorityBoundary)
    ensures Are(BundleSix(request, present, schema, consensus, bound, authority), BundleNames())
  {
    SixStand(BundleSix(request, present, schema, consensus, bound, authority), BundleNames());
  }

  lemma OutcomeAre(request: Check, t: Terms)
    requires Stands(request, CheckName.AutonomousRequest)
    ensures Are(OutcomeSix(request, t), BundleNames())
  {
    var authority := IfNot(t.closed, BundleAuthorityOpen);
    if t.open {
      BundleSixAre(request, None, None, None, None, Some(BundleAuthorityOpen));
    } else if !t.schema {
      BundleSixAre(request, None, Some(BundleSchemaInvalid), None, Some(BundleContextUnverifiable), None);
    } else if !t.cover {
      BundleSixAre(request, None, None, Some(BundleSameProvider), Some(BundleContextUnverifiable), authority);
    } else if !t.agree {
      BundleSixAre(request, None, None, Some(BundleConsensusNotAgree), Some(BundleContextUnverifiable), authority);
    } else {
      BundleSixAre(request, None, None, None, IfNot(t.bound, BundleContextUnbound), authority);
    }
  }

  lemma NoBundleAre(w: World, bundle: Value, ctx: Context, request: Check)
    requires Stands(request, CheckName.AutonomousRequest)
    ensures Are(if Excused(w, bundle, ctx) then BundleSix(request, None, None, None, None, None)
                else BundleSix(request, Some(BundleMissing), None, None, Some(BundleContextUnverifiable), None), BundleNames())
  {
    if Excused(w, bundle, ctx) {
      BundleSixAre(request, None, None, None, None, None);
    } else {
      BundleSixAre(request, Some(BundleMissing), None, None, Some(BundleContextUnverifiable), None);
    }
  }

  lemma BundleAre(w: World, bundle: Value, ctx: Context)
    requires BundleChecks(w, bundle, ctx).Done?
    ensures Are(BundleChecks(w, bundle, ctx).value, BundleNames())
  {
    var request := CheckThat(CheckName.AutonomousRequest, ctx.autonomousMergeRequestValid, AutonomousRequestInvalid);
    TestStands(request, CheckName.AutonomousRequest, AutonomousRequestInvalid);
    if bundle.Dict? {
      BundleIsObject(w, bundle.fields, ctx, request);
      BundleObjectChecksAre(w, request, bundle.fields, ctx);
      OutcomeAre(request, TermsOf(w, bundle.fields, ctx));
    } else {
      NoBundleChecksAre(w, bundle, ctx);
      NoBundleAre(w, bundle, ctx, request);
    }
  }

  lemma SupersessionSixAre(evidence: Option<Finding>, schema: Option<Finding>, freshness: Option<Finding>,
                           consensus: Option<Finding>, bound: Option<Finding>, authority: Option<Finding>)
    requires Belongs(evidence, SupersessionEvidence) && Belongs(schema, SupersessionSchema)
    requires Belongs(freshness, SupersessionFreshness) && Belongs(consensus, SupersessionConsensus)
    requires Belongs(bound, SupersessionContextBound) && Belongs(authority, SupersessionAuthorityBoundary)
    ensures Are(SixChecks(evidence, schema, freshness, consensus, bound, authority), SupersessionNames(false))
  {
    SixStand(SixChecks(evidence, schema, freshness, consensus, bound, authority), SupersessionNames(false));
  }

  lemma SwappedAre()
    ensures Are(StageChecks(SchemaInvalid), SupersessionNames(true))
  {
    SixStand(StageChecks(SchemaInvalid), SupersessionNames(true));
  }

  lemma StageAre(stage: Stage)
    ensures Are(StageChecks(stage), SupersessionNames(stage == SchemaInvalid))
  {
    var unverifiable := Some(SupersessionContextUnverifiable);
    match stage
    case Absent => SupersessionSixAre(None, None, None, None, None, None);
    case NotObject => SupersessionSixAre(Some(SupersessionMissing), None, None, None, unverifiable, None);
    case AuthorityOpened => SupersessionSixAre(None, None, None, None, None, Some(SupersessionAuthorityOpen));
    case Dissent => SupersessionSixAre(None, None, None, Some(SupersessionConsensusNotAgree), unverifiable, None);
    case SchemaInvalid => SwappedAre();
    case Stale => SupersessionSixAre(None, None, Some(SupersessionStale), None, unverifiable, None);
    case NotQuorum => SupersessionSixAre(None, None, None, Some(SupersessionSameProvider), unverifiable, None);
    case Bound(ok) => SupersessionSixAre(None, None, None, None, if ok then None else Some(SupersessionContextUnbound), None);
  }

  // ----- the decision -----

  lemma FiveAre(a: seq<Check>, b: seq<Check>, c: seq<Check>, d: seq<Check>, e: seq<Check>, swapped: bool)
    requires Are(a, ContextNames()) && Are(b, SupersessionNames(swapped)) && Are(c, BoundaryNames())
    requires Are(d, ReviewNames()) && Are(e, BundleNames())
    ensures Are(a + b + c + d + e, ContextNames() + SupersessionNames(swapped) + BoundaryNames() + ReviewNames() + BundleNames())
  {
    AreAppend(a, ContextNames(), b, SupersessionNames(swapped));
    AreAppend(a + b, ContextNames() + SupersessionNames(swapped), c, BoundaryNames());
    AreAppend(a + b + c, ContextNames() + SupersessionNames(swapped) + BoundaryNames(), d, ReviewNames());
    AreAppend(a + b + c + d, ContextNames() + SupersessionNames(swapped) + BoundaryNames() + ReviewNames(), e, BundleNames());
  }

  /** For every decision: 34 checks in this order, and a finding blocks the check it belongs to. */
  lemma ChecksInOrder(w: World, inputs: Inputs)
    requires Decide(w, inputs).Done?
    ensures exists swapped ::
      Are(Decide(w, inputs).value.checks, ContextNames() + SupersessionNames(swapped) + BoundaryNames() + ReviewNames() + BundleNames())
  {
    ChecksOfAre(w, inputs, ExtractContext(inputs.payload, inputs.gppStatus));
  }

  lemma ChecksOfAre(w: World, inputs: Inputs, ctx: Context)
    requires ChecksOf(w, inputs, ctx).Done?
    ensures exists swapped ::
      Are(ChecksOf(w, inputs, ctx).value, ContextNames() + SupersessionNames(swapped) + BoundaryNames() + ReviewNames() + BundleNames())
  {
    var stage := SupersessionStage(w, inputs.supersession, ctx, inputs.now).value;
    ContextAre(w, inputs.payload, ctx, ContextChecks(w, inputs.payload, ctx));
    StageAre(stage);
    BoundaryAre(w, ctx, stage == Bound(true), BoundaryChecks(w, ctx, stage == Bound(true)));
    ReviewAre(w, inputs.reviewEvidence, ctx);
    BundleAre(w, inputs.bundle, ctx);
    FiveAre(ContextChecks(w, inputs.payload, ctx), StageChecks(stage), BoundaryChecks(w, ctx, stage == Bound(true)),
            ReviewOrSmokeChecks(w, inputs.reviewEvidence, ctx), BundleChecks(w, inputs.bundle, ctx).value, stage == SchemaInvalid);
  }

  // ----- the order of the findings -----

  lemma {:induction false} FindingsAppend(a: seq<Check>, b: seq<Check>)
    ensures Findings(a + b) == Findings(a) + Findings(b)
  {
    if a == [] {
      assert a + b == b;
    } else {
      assert (a + b)[1..] == a[1..] + b;
      FindingsAppend(a[1..], b);
    }
  }

  /** The findings are those of the checks one by one, in the order of the checks. */
  lemma FindingsInOrder(a: seq<Check>, c: Check, b: seq<Check>)
    ensures Findings(a + [c] + b) == Findings(a) + (if c.finding.Some? then [c.finding.value] else []) + Findings(b)
    ensures Findings([]) == []
  {
    FindingsAppend(a + [c], b);
    FindingsAppend(a, [c]);
    assert [c][1..] == [];
  }
}
