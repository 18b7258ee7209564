/** Why the gate denies: each finding of a decision is there exactly when its condition holds, and the
    decision is that of the most severe one. */
module GateFindings {
  import opened Text
  import opened Json
  import opened GateContext
  import opened GateEvidence
  import opened GateDecision
  import opened GatePolicy
  import opened GateSupersession
  import opened GateTheorems

  // ----- findings of lists of checks -----

  ghost predicate Blocks(c: Check, f: Finding) {
    c.finding == Some(f)
  }

  ghost predicate Hits(checks: seq<Check>, f: Finding) {
    exists i :: 0 <= i < |checks| && Blocks(checks[i], f)
  }

  lemma {:induction false} FindingsMean(checks: seq<Check>, f: Finding)
    ensures f in Findings(checks) <==> Hits(checks, f)
  {
    if checks != [] {
      FindingsMean(checks[1..], f);
      assert checks == [checks[0]] + checks[1..];
    }
  }

  lemma HitsAppend(a: seq<Check>, b: seq<Check>, f: Finding)
    ensures Hits(a + b, f) <==> Hits(a, f) || Hits(b, f)
  {
    var c := a + b;
    if i :| 0 <= i < |a| && Blocks(a[i], f) {
      assert c[i] == a[i];
    }
    if i :| 0 <= i < |b| && Blocks(b[i], f) {
      assert c[|a| + i] == b[i];
    }
  }

  lemma SixFindings(c: seq<Check>, f: Finding)
    requires |c| == 6
    ensures Hits(c, f) <==>
            Blocks(c[0], f) || Blocks(c[1], f) || Blocks(c[2], f) || Blocks(c[3], f) || Blocks(c[4], f) || Blocks(c[5], f)
  {
  }

  lemma SixHits(c: seq<Check>, o0: Option<Finding>, o1: Option<Finding>, o2: Option<Finding>,
                o3: Option<Finding>, o4: Option<Finding>, o5: Option<Finding>, f: Finding)
    requires |c| == 6 && c[0].finding == o0 && c[1].finding == o1 && c[2].finding == o2
    requires c[3].finding == o3 && c[4].finding == o4 && c[5].finding == o5
    ensures Hits(c, f) <==>
            || Some(f) == o0 || Some(f) == o1 || Some(f) == o2 || Some(f) == o3 || Some(f) == o4 || Some(f) == o5
  {
    SixFindings(c, f);
  }

  // ----- the context and the boundaries -----

  /** A check that blocks with its finding unless its condition holds. */
  datatype Test = Test(condition: bool, finding: Finding)

  ghost predicate Runs(c: Check, t: Test) {
    c.finding == if t.condition then None else Some(t.finding)
  }

  /** The checks are those of the tests, and any further ones pass. */
  ghost predicate AreTests(c: seq<Check>, tests: seq<Test>) {
    && |tests| <= |c|
    && (forall i | 0 <= i < |tests| :: Runs(c[i], tests[i]))
    && (forall i | |tests| <= i < |c| :: c[i].finding.None?)
  }

  ghost predicate Fails(t: Test, f: Finding) {
    !t.condition && t.finding == f
  }

  ghost predicate SomeFails(tests: seq<Test>, f: Finding) {
    exists i :: 0 <= i < |tests| && Fails(tests[i], f)
  }

  lemma HitsAreFailures(c: seq<Check>, tests: seq<Test>, f: Finding)
    requires AreTests(c, tests)
    ensures Hits(c, f) <==> SomeFails(tests, f)
  {
    forall i | 0 <= i < |tests| ensures Blocks(c[i], f) <==> Fails(tests[i], f) {
      assert Runs(c[i], tests[i]);
    }
  }

  ghost predicate GppClosed(ctx: Context) {
    && ctx.gppSupportWideningAllowed == ctx.gppProductionPlatformClaimAllowed
       == ctx.gppLiveAdapterExecutionAllowed == Some(false)
  }

  ghost function FreshnessFinding(ctx: Context): Finding {
    if ctx.branchUpToDate == Some(false) then BranchNotUpToDate else BranchFreshnessUnknown
  }

  ghost function ChecksFinding(ctx: Context): Finding {
    if ctx.requiredChecks == [] then RequiredChecksMissing else RequiredChecksNotGreen
  }

  ghost function ScopeFinding(ctx: Context): Finding {
    if ctx.changedPaths != [] && ctx.allowedPathPrefixes != [] then DiffOutOfScope else DiffScopeMissing
  }

  /** What is asked of the payload and the status, and what is found otherwise. */
  ghost function ContextTests(w: World, payload: Value, ctx: Context): seq<Test> {
    [ Test(payload.Dict?, PayloadNotObject),
      Test(ctx.repository == Some("Halildeu/ao-kernel"), WrongRepository),
      Test(ctx.pullRequestNumber.Some? && ctx.headSha.Some?, MissingPullRequest),
      Test(ctx.issueUrl.Some?, MissingIssue),
      Test(ctx.baseRef == Some("main"), WrongBaseRef),
      Test(ctx.branchUpToDate == Some(true), FreshnessFinding(ctx)),
      Test(ctx.fromFork == Some(false), UntrustedFork),
      Test(ctx.eventName != Some("pull_request_target"), PullRequestTargetContext),
      Test(OtherChecksGreen(w, ctx), ChecksFinding(ctx)),
      Test(ctx.gppCurrentWpId.Some? && ctx.gppCurrentWpStatus.Some?, GppStatusMissing),
      Test(ctx.issueUrl.Some? && ctx.issueUrl == ctx.gppCurrentWpIssue, GppIssueMismatch),
      Test(GppClosed(ctx), GppBoundaryOpen),
      Test(InScope(ctx), ScopeFinding(ctx)) ]
  }

  /** A high-risk change was approved by another person, or supersession evidence stands for that. */
  ghost predicate Approved(w: World, ctx: Context, valid: bool) {
    ctx.pathSensitiveHumanReviewEnabled == Some(true) && ctx.highRiskChangedPaths != [] ==> valid || ApprovedByAnother(w, ctx)
  }

  ghost function BoundaryTests(w: World, ctx: Context, valid: bool): seq<Test> {
    [ Test(Approved(w, ctx, valid), HighRiskHumanReviewMissing),
      Test(ctx.forbiddenSecretContextDetected == Some(false), ForbiddenSecretContext),
      Test(ctx.adminBypassRequested == Some(false), AdminBypassRequested),
      Test(ctx.patBackedBotActor == Some(false), PatBackedBotActor),
      Test(ctx.codexOrClaudeReleaseAuthority == Some(false), AgentReleaseAuthority),
      Test(ctx.liveAdapterExecutionRequested == Some(false), LiveAdapterExecutionRequested) ]
  }

  lemma ContextHits(w: World, payload: Value, ctx: Context, f: Finding)
    ensures Hits(ContextChecks(w, payload, ctx), f) <==> SomeFails(ContextTests(w, payload, ctx), f)
  {
    var c, tests := ContextChecks(w, payload, ctx), ContextTests(w, payload, ctx);
    GreenMeans(w, ctx);
    ScopeIs(ctx);
    FreshnessIs(ctx);
    assert |c| == 14 && |tests| == 13 && c[13].finding.None?;
    HitsAreFailures(c, tests, f);
  }

  lemma FreshnessIs(ctx: Context)
    ensures ctx.branchUpToDate == Some(true)
         || FreshnessFinding(ctx) == if ctx.branchUpToDate.None? then BranchFreshnessUnknown else BranchNotUpToDate
  {
    assert ctx.branchUpToDate.Some? && !ctx.branchUpToDate.value ==> ctx.branchUpToDate == Some(false);
  }

  lemma BoundaryHits(w: World, ctx: Context, valid: bool, f: Finding)
    ensures Hits(BoundaryChecks(w, ctx, valid), f) <==> SomeFails(BoundaryTests(w, ctx, valid), f)
  {
    var c, tests := BoundaryChecks(w, ctx, valid), BoundaryTests(w, ctx, valid);
    ApprovalIs(w, ctx);
    assert |c| == 6 && |tests| == 6;
    HitsAreFailures(c, tests, f);
  }

  // ----- review evidence -----

  ghost predicate NotAccepted(w: World, evidence: Value, f: Finding) {
    || (f == ReviewEvidenceMissing && !evidence.Dict?)
    || (f == ReviewEvidenceSchemaInvalid && evidence.Dict? && !w.localGateSchema(evidence))
    || (f == ReviewEvidenceNotAccepting && evidence.Dict? && w.localGateSchema(evidence) && !MayBeMerged(evidence.fields))
  }

  ghost predicate ReviewFinding(w: World, evidence: Value, ctx: Context, f: Finding) {
    && (evidence.Dict? || !SmokeLane(w, ctx))
    && (|| NotAccepted(w, evidence, f)
        || (f == ReviewEvidenceContextUnverifiable
            && !(evidence.Dict? && w.localGateSchema(evidence) && MayBeMerged(evidence.fields)))
        || (f == ReviewEvidenceContextUnbound && evidence.Dict? && w.localGateSchema(evidence)
            && MayBeMerged(evidence.fields) && !AcceptedReview(w, evidence, ctx)))
  }

  function IfNot(condition: bool, g: Finding): Option<Finding> {
    if condition then None else Some(g)
  }

  /** The two checks of an evaluation of review evidence. */
  function TwoChecks(evidence: Option<Finding>, bound: Option<Finding>): seq<Check> {
    [Check(ReviewEvidence, evidence), Check(ReviewEvidenceContextBound, bound)]
  }

  lemma TwoFindings(evidence: Option<Finding>, bound: Option<Finding>, f: Finding)
    ensures Hits(TwoChecks(evidence, bound), f) <==> Some(f) == evidence || Some(f) == bound
  {
    var c := TwoChecks(evidence, bound);
    assert Hits(c, f) <==> Blocks(c[0], f) || Blocks(c[1], f);
  }

  function WhyNotAccepted(w: World, evidence: Value): Finding
  {
    if !evidence.Dict? then ReviewEvidenceMissing
    else if !w.localGateSchema(evidence) then ReviewEvidenceSchemaInvalid
    else ReviewEvidenceNotAccepting
  }

  ghost predicate Accepting(w: World, evidence: Value) {
    evidence.Dict? && w.localGateSchema(evidence) && MayBeMerged(evidence.fields)
  }

  lemma ReviewChecksAre(w: World, evidence: Value, ctx: Context)
    ensures ReviewEvidenceChecks(w, evidence, ctx) ==
            if !Accepting(w, evidence) then TwoChecks(Some(WhyNotAccepted(w, evidence)), Some(ReviewEvidenceContextUnverifiable))
            else TwoChecks(None, IfNot(AcceptedReview(w, evidence, ctx), ReviewEvidenceContextUnbound))
  {
    if evidence.Dict? {
      ProfileIs(evidence.fields);
      ReviewTied(w, evidence.fields, AsDict(Get(evidence.fields, KContextBinding)), ctx);
    }
  }

  lemma AcceptingFindings(w: World, evidence: Value, ctx: Context, f: Finding)
    requires Accepting(w, evidence)
    ensures Hits(TwoChecks(None, IfNot(AcceptedReview(w, evidence, ctx), ReviewEvidenceContextUnbound)), f)
       <==> ReviewFinding(w, evidence, ctx, f)
  {
    TwoFindings(None, IfNot(AcceptedReview(w, evidence, ctx), ReviewEvidenceContextUnbound), f);
  }

  lemma NotAcceptingFindings(w: World, evidence: Value, ctx: Context, f: Finding)
    requires !Accepting(w, evidence) && (evidence.Dict? || !SmokeLane(w, ctx))
    ensures Hits(TwoChecks(Some(WhyNotAccepted(w, evidence)), Some(ReviewEvidenceContextUnverifiable)), f)
       <==> ReviewFinding(w, evidence, ctx, f)
  {
    TwoFindings(Some(WhyNotAccepted(w, evidence)), Some(ReviewEvidenceContextUnverifiable), f);
  }

  lemma ReviewOrSmoke(w: World, evidence: Value, ctx: Context)
    ensures ReviewOrSmokeChecks(w, evidence, ctx)
         == if !evidence.Dict? && SmokeLane(w, ctx) then TwoChecks(None, None) else ReviewEvidenceChecks(w, evidence, ctx)
  {
    SmokeIs(w, ctx);
  }

  lemma ReviewFindings(w: World, evidence: Value, ctx: Context, f: Finding)
    ensures Hits(ReviewOrSmokeChecks(w, evidence, ctx), f) <==> ReviewFinding(w, evidence, ctx, f)
  {
    ReviewOrSmoke(w, evidence, ctx);
    ReviewChecksAre(w, evidence, ctx);
    if !evidence.Dict? && SmokeLane(w, ctx) {
      TwoFindings(None, None, f);
    } else if Accepting(w, evidence) {
      AcceptingFindings(w, evidence, ctx, f);
    } else {
      NotAcceptingFindings(w, evidence, ctx, f);
    }
  }

  // ----- the bundle -----

  ghost predicate BundleBound(w: World, ev: Object, ctx: Context) {
    Get(ev, KContextBinding).Dict? && TiedToChange(w, Get(ev, KContextBinding).fields, ctx)
  }

  /** The conditions on a bundle. */
  datatype Terms = Terms(open: bool, schema: bool, cover: bool, agree: bool, bound: bool, closed: bool)

  ghost function TermsOf(w: World, ev: Object, ctx: Context): Terms {
    Terms(!RecordOpensNothing(ev), w.bundleSchema(Dict(ev)), ProvidersCover(ev), AllAgree(ev),
          BundleBound(w, ev, ctx), ClaimsNothing(ev))
  }

  /** What is found on the conditions of a bundle. */
  ghost predicate OutcomeFinding(t: Terms, f: Finding) {
    || (f == BundleAuthorityOpen && (t.open || (t.schema && !t.closed)))
    || (f == BundleSchemaInvalid && !t.open && !t.schema)
    || (f == BundleSameProvider && !t.open && t.schema && !t.cover)
    || (f == BundleConsensusNotAgree && !t.open && t.schema && t.cover && !t.agree)
    || (f == BundleContextUnverifiable && !t.open && !(t.schema && t.cover && t.agree))
    || (f == BundleContextUnbound && !t.open && t.schema && t.cover && t.agree && !t.bound)
  }

  ghost predicate BundleFinding(w: World, bundle: Value, ctx: Context, f: Finding) {
    || (f == AutonomousRequestInvalid && !ctx.autonomousMergeRequestValid)
    || (bundle.Dict? && OutcomeFinding(TermsOf(w, bundle.fields, ctx), f))
    || ((f == BundleMissing || f == BundleContextUnverifiable) && !bundle.Dict?
        && !Excused(w, bundle, ctx))
  }

  /** The six checks of an evaluation of a bundle. */
  function BundleSix(request: Check, present: Option<Finding>, schema: Option<Finding>, consensus: Option<Finding>,
                     bound: Option<Finding>, authority: Option<Finding>): seq<Check> {
    [request, Check(EvidenceBundle, present), Check(EvidenceBundleSchema, schema), Check(CheckName.BundleConsensus, consensus),
     Check(BundleContextBound, bound), Check(BundleAuthorityBoundary, authority)]
  }

  lemma BundleSixFindings(request: Check, present: Option<Finding>, schema: Option<Finding>, consensus: Option<Finding>,
                          bound: Option<Finding>, authority: Option<Finding>, f: Finding)
    ensures Hits(BundleSix(request, present, schema, consensus, bound, authority), f) <==>
            || Blocks(request, f) || Some(f) == present || Some(f) == schema || Some(f) == consensus
            || Some(f) == bound || Some(f) == authority
  {
    SixHits(BundleSix(request, present, schema, consensus, bound, authority),
            request.finding, present, schema, consensus, bound, authority, f);
  }

  ghost function OutcomeSix(request: Check, t: Terms): seq<Check> {
    var authority := IfNot(t.closed, BundleAuthorityOpen);
    if t.open then BundleSix(request, None, None, None, None, Some(BundleAuthorityOpen))
    else if !t.schema then BundleSix(request, None, Some(BundleSchemaInvalid), None, Some(BundleContextUnverifiable), None)
    else if !t.cover then BundleSix(request, None, None, Some(BundleSameProvider), Some(BundleContextUnverifiable), authority)
    else if !t.agree then BundleSix(request, None, None, Some(BundleConsensusNotAgree), Some(BundleContextUnverifiable), authority)
    else BundleSix(request, None, None, None, IfNot(t.bound, BundleContextUnbound), authority)
  }

  lemma BundleObjectChecksAre(w: World, request: Check, ev: Object, ctx: Context)
    requires BundleObjectChecks(w, request, ev, ctx).Done?
    ensures BundleObjectChecks(w, request, ev, ctx).value == OutcomeSix(request, TermsOf(w, ev, ctx))
  {
    RecordOpenIs(ev);
    ClosedIs(ev);
    CoverIs(ev);
    AgreesIs(ev);
    ChangeTied(w, AsDict(Get(ev, KContextBinding)), ctx);
  }

  lemma EarlyOutcome(request: Check, t: Terms, f: Finding)
    requires t.open || !t.schema
    ensures Hits(OutcomeSix(request, t), f) <==> Blocks(request, f) || OutcomeFinding(t, f)
  {
    if t.open {
      BundleSixFindings(request, None, None, None, None, Some(BundleAuthorityOpen), f);
    } else {
      BundleSixFindings(request, None, Some(BundleSchemaInvalid), None, Some(BundleContextUnverifiable), None, f);
    }
  }

  lemma DissentOutcome(request: Check, t: Terms, f: Finding)
    requires !t.open && t.schema && !(t.cover && t.agree)
    ensures Hits(OutcomeSix(request, t), f) <==> Blocks(request, f) || OutcomeFinding(t, f)
  {
    var why := if !t.cover then BundleSameProvider else BundleConsensusNotAgree;
    BundleSixFindings(request, None, None, Some(why), Some(BundleContextUnverifiable), IfNot(t.closed, BundleAuthorityOpen), f);
  }

  lemma LastOutcome(request: Check, t: Terms, f: Finding)
    requires !t.open && t.schema && t.cover && t.agree
    ensures Hits(OutcomeSix(request, t), f) <==> Blocks(request, f) || OutcomeFinding(t, f)
  {
    BundleSixFindings(request, None, None, None, IfNot(t.bound, BundleContextUnbound), IfNot(t.closed, BundleAuthorityOpen), f);
  }

  lemma OutcomeHits(request: Check, t: Terms, f: Finding)
    ensures Hits(OutcomeSix(request, t), f) <==> Blocks(request, f) || OutcomeFinding(t, f)
  {
    if t.open || !t.schema {
      EarlyOutcome(request, t, f);
    } else if !t.cover || !t.agree {
      DissentOutcome(request, t, f);
    } else {
      LastOutcome(request, t, f);
    }
  }

  lemma BundleObjectFindings(w: World, request: Check, ev: Object, ctx: Context, f: Finding)
    requires BundleObjectChecks(w, request, ev, ctx).Done?
    ensures Hits(BundleObjectChecks(w, request, ev, ctx).value, f) <==>
            Blocks(request, f) || OutcomeFinding(TermsOf(w, ev, ctx), f)
  {
    BundleObjectChecksAre(w, request, ev, ctx);
    OutcomeHits(request, TermsOf(w, ev, ctx), f);
  }

  ghost predicate Excused(w: World, bundle: Value, ctx: Context) {
    bundle.Null? && (ctx.autonomousMergeRequested != Some(true) || SmokeLane(w, ctx))
  }

  lemma NoBundleChecksAre(w: World, bundle: Value, ctx: Context)
    requires !bundle.Dict?
    ensures BundleChecks(w, bundle, ctx).Done?
    ensures var request := CheckThat(AutonomousRequest, ctx.autonomousMergeRequestValid, AutonomousRequestInvalid);
      BundleChecks(w, bundle, ctx).value ==
        if Excused(w, bundle, ctx) then BundleSix(request, None, None, None, None, None)
        else BundleSix(request, Some(BundleMissing), None, None, Some(BundleContextUnverifiable), None)
  {
    SmokeIs(w, ctx);
  }

  lemma NoBundleFindings(w: World, bundle: Value, ctx: Context, request: Check, f: Finding)
    requires !bundle.Dict?
    ensures Hits(if Excused(w, bundle, ctx) then BundleSix(request, None, None, None, None, None)
                          else BundleSix(request, Some(BundleMissing), None, None, Some(BundleContextUnverifiable), None), f) <==>
            Blocks(request, f) || ((f == BundleMissing || f == BundleContextUnverifiable) && !Excused(w, bundle, ctx))
  {
    if Excused(w, bundle, ctx) {
      BundleSixFindings(request, None, None, None, None, None, f);
    } else {
      BundleSixFindings(request, Some(BundleMissing), None, None, Some(BundleContextUnverifiable), None, f);
    }
  }

  lemma BundleFindings(w: World, bundle: Value, ctx: Context, f: Finding)
    requires BundleChecks(w, bundle, ctx).Done?
    ensures Hits(BundleChecks(w, bundle, ctx).value, f) <==> BundleFinding(w, bundle, ctx, f)
  {
    var request := CheckThat(AutonomousRequest, ctx.autonomousMergeRequestValid, AutonomousRequestInvalid);
    if bundle.Dict? {
      BundleIsObject(w, bundle.fields, ctx, request);
      BundleObjectFindings(w, request, bundle.fields, ctx, f);
    } else {
      NoBundleChecksAre(w, bundle, ctx);
      NoBundleFindings(w, bundle, ctx, request, f);
    }
  }

  lemma BundleIsObject(w: World, ev: Object, ctx: Context, request: Check)
    requires request == CheckThat(AutonomousRequest, ctx.autonomousMergeRequestValid, AutonomousRequestInvalid)
    ensures BundleChecks(w, Dict(ev), ctx) == BundleObjectChecks(w, request, ev, ctx)
  {
  }

  // ----- supersession evidence -----

  /** One verdict of each provider of the quorum, as named by the evidence; or, for an implementer that
      is no string, nobody at all. No schema lets the latter through, and it binds nothing. */
  ghost predicate QuorumOf(ev: Object) {
    var ids, implementer := ProviderIds(AsList(Get(ev, KProviderVerdicts))), Get(ev, KImplementerProvider);
    || QuorumHolds(ids, implementer, Get(ev, KReviewerProviders), Get(ev, KRequiredReviewerProviders))
    || (ids == [] && !implementer.Str? && !Unhashable(implementer)
        && NamesNobody(Get(ev, KReviewerProviders)) && NamesNobody(Get(ev, KRequiredReviewerProviders)))
  }

  ghost predicate NamesNobody(v: Value) {
    v.List? && forall x | x in v.items :: !x.Str?
  }

  ghost predicate BoundTo(w: World, ev: Object, ctx: Context) {
    var binding, verdicts := Get(ev, KContextBinding), AsList(Get(ev, KProviderVerdicts));
    binding.Dict? && TiedToHighRisk(w, binding.fields, ctx) && AllTied(w, verdicts, ctx) && exists v :: v in verdicts && v.Dict?
  }

  /** The stage that six conditions lead to. */
  ghost function StageOf(open: bool, assents: bool, schema: bool, recent: bool, quorum: bool, bound: bool): Stage {
    if open then AuthorityOpened
    else if !assents then Dissent
    else if !schema then SchemaInvalid
    else if !recent then Stale
    else if !quorum then NotQuorum
    else Bound(bound)
  }

  /** What is found on six conditions: the first that fails, and whether the binding stays unread. */
  ghost predicate FirstFailure(open: bool, assents: bool, schema: bool, recent: bool, quorum: bool, bound: bool, f: Finding) {
    || (f == SupersessionAuthorityOpen && open)
    || (f == SupersessionConsensusNotAgree && !open && !assents)
    || (f == SupersessionSchemaInvalid && !open && assents && !schema)
    || (f == SupersessionStale && !open && assents && schema && !recent)
    || (f == SupersessionSameProvider && !open && assents && schema && recent && !quorum)
    || (f == SupersessionContextUnverifiable && !open && !(assents && schema && recent && quorum))
    || (f == SupersessionContextUnbound && !open && assents && schema && recent && quorum && !bound)
  }

  ghost predicate FailsFirst(w: World, ev: Object, ctx: Context, now: string, f: Finding) {
    FirstFailure(!OpensNothing(ev), NoDissent(ev), w.supersessionSchema(Dict(ev)), Recent(w, ev, now),
                 QuorumOf(ev), BoundTo(w, ev, ctx), f)
  }

  ghost predicate SupersessionFinding(w: World, evidence: Value, ctx: Context, now: string, f: Finding) {
    || (evidence.Dict? && FailsFirst(w, evidence.fields, ctx, now, f))
    || (!evidence.Dict? && !evidence.Null? && (f == SupersessionMissing || f == SupersessionContextUnverifiable))
  }

  lemma SixOf(evidence: Option<Finding>, schema: Option<Finding>, freshness: Option<Finding>,
              consensus: Option<Finding>, bound: Option<Finding>, authority: Option<Finding>, f: Finding)
    ensures Hits(SixChecks(evidence, schema, freshness, consensus, bound, authority), f) <==>
            || Some(f) == evidence || Some(f) == schema || Some(f) == freshness || Some(f) == consensus
            || Some(f) == bound || Some(f) == authority
  {
    SixHits(SixChecks(evidence, schema, freshness, consensus, bound, authority),
            evidence, schema, freshness, consensus, bound, authority, f);
  }

  /** The finding of a stage, and whether the binding is left unverified there. */
  ghost predicate StageFinding(stage: Stage, f: Finding) {
    match stage
    case Absent => false
    case NotObject => f == SupersessionMissing || f == SupersessionContextUnverifiable
    case AuthorityOpened => f == SupersessionAuthorityOpen
    case Dissent => f == SupersessionConsensusNotAgree || f == SupersessionContextUnverifiable
    case SchemaInvalid => f == SupersessionSchemaInvalid || f == SupersessionContextUnverifiable
    case Stale => f == SupersessionStale || f == SupersessionContextUnverifiable
    case NotQuorum => f == SupersessionSameProvider || f == SupersessionContextUnverifiable
    case Bound(ok) => !ok && f == SupersessionContextUnbound
  }

  lemma NotObjectFindings(f: Finding)
    ensures Hits(StageChecks(NotObject), f) <==> StageFinding(NotObject, f)
  {
    SixOf(Some(SupersessionMissing), None, None, None, Some(SupersessionContextUnverifiable), None, f);
  }

  lemma AuthorityOpenedFindings(f: Finding)
    ensures Hits(StageChecks(AuthorityOpened), f) <==> StageFinding(AuthorityOpened, f)
  {
    SixOf(None, None, None, None, None, Some(SupersessionAuthorityOpen), f);
  }

  lemma DissentFindings(f: Finding)
    ensures Hits(StageChecks(Dissent), f) <==> StageFinding(Dissent, f)
  {
    SixOf(None, None, None, Some(SupersessionConsensusNotAgree), Some(SupersessionContextUnverifiable), None, f);
  }

  lemma StaleFindings(f: Finding)
    ensures Hits(StageChecks(Stale), f) <==> StageFinding(Stale, f)
  {
    SixOf(None, None, Some(SupersessionStale), None, Some(SupersessionContextUnverifiable), None, f);
  }

  lemma NotQuorumFindings(f: Finding)
    ensures Hits(StageChecks(NotQuorum), f) <==> StageFinding(NotQuorum, f)
  {
    SixOf(None, None, None, Some(SupersessionSameProvider), Some(SupersessionContextUnverifiable), None, f);
  }

  lemma SchemaInvalidFindings(f: Finding)
    ensures Hits(StageChecks(SchemaInvalid), f) <==> StageFinding(SchemaInvalid, f)
  {
    SixFindings(StageChecks(SchemaInvalid), f);
  }

  lemma BoundFindings(ok: bool, f: Finding)
    ensures Hits(StageChecks(Bound(ok)), f) <==> StageFinding(Bound(ok), f)
  {
    SixOf(None, None, None, None, IfNot(ok, SupersessionContextUnbound), None, f);
  }

  lemma AbsentFindings(f: Finding)
    ensures f !in Findings(StageChecks(Absent))
  {
    SixOf(None, None, None, None, None, None, f);
  }

  lemma StageFindings(stage: Stage, f: Finding)
    ensures Hits(StageChecks(stage), f) <==> StageFinding(stage, f)
  {
    match stage
    case Absent => AbsentFindings(f);
    case NotObject => NotObjectFindings(f);
    case AuthorityOpened => AuthorityOpenedFindings(f);
    case Dissent => DissentFindings(f);
    case SchemaInvalid => SchemaInvalidFindings(f);
    case Stale => StaleFindings(f);
    case NotQuorum => NotQuorumFindings(f);
    case Bound(ok) => BoundFindings(ok, f);
  }

  /** The quorum test with and without verdicts. */
  lemma QuorumOfMeans(ev: Object)
    requires QuorumMet(ev).Done?
    ensures QuorumMet(ev) == Done(true) <==> QuorumOf(ev)
  {
    if ProviderIds(Verdicts(ev)) != [] {
      QuorumMeans(ev);
    } else {
      NobodyMeans(ev);
    }
  }

  lemma NobodyIs(v: Value)
    ensures NamesNobody(v) <==> v.List? && SameSet(StrItems(v.items), [])
  {
    if v.List? {
      var named := StrItems(v.items);
      forall x: Value ensures x in named <==> x in v.items && x.Str? {
        StrItemsMean(v.items, x);
      }
      if named != [] {
        assert named[0] in named && !Member(named[0], []);
      }
    }
  }

  lemma NobodyMeans(ev: Object)
    requires QuorumMet(ev).Done? && ProviderIds(Verdicts(ev)) == []
    ensures QuorumMet(ev) == Done(true) <==> QuorumOf(ev)
  {
    var implementer := Get(ev, KImplementerProvider);
    NobodyIs(Get(ev, KReviewerProviders));
    NobodyIs(Get(ev, KRequiredReviewerProviders));
    if implementer.Str? {
      IdsAreQuorum([], implementer.s);
      QuorumTest(ev, [], implementer.s);
    }
  }

  lemma {:induction false} SomeVerdict(verdicts: seq<Value>)
    ensures ProviderBindings(verdicts) != [] <==> exists v :: v in verdicts && v.Dict?
  {
    if verdicts != [] {
      SomeVerdict(verdicts[1..]);
    }
  }

  lemma BoundToMeans(w: World, ev: Object, ctx: Context)
    ensures SupersessionBound(w, ev, ctx) <==> BoundTo(w, ev, ctx)
  {
    BoundMeans(w, ev, ctx);
    SomeVerdict(Verdicts(ev));
    BindingsMean(w, Verdicts(ev), ctx);
    HighRiskTied(w, AsDict(Get(ev, KContextBinding)), ctx);
  }

  /** The stage at which an evaluation with a result stops. */
  lemma StageIs(w: World, ev: Object, ctx: Context, now: string, stage: Stage)
    requires ObjectStage(w, ev, ctx, now) == Done(stage)
    ensures stage == StageOf(!OpensNothing(ev), NoDissent(ev), w.supersessionSchema(Dict(ev)), Recent(w, ev, now),
                             QuorumOf(ev), BoundTo(w, ev, ctx))
  {
    OpenIs(ev);
    NoDissentMeans(ev);
    RecentIs(w, ev, now);
    BoundToMeans(w, ev, ctx);
    if QuorumMet(ev).Done? {
      QuorumOfMeans(ev);
    }
  }

  lemma StageOfFinds(open: bool, assents: bool, schema: bool, recent: bool, quorum: bool, bound: bool, f: Finding)
    ensures StageFinding(StageOf(open, assents, schema, recent, quorum, bound), f) <==>
            FirstFailure(open, assents, schema, recent, quorum, bound, f)
  {
  }

  lemma ObjectFindings(w: World, ev: Object, ctx: Context, now: string, stage: Stage, f: Finding)
    requires ObjectStage(w, ev, ctx, now) == Done(stage)
    ensures Hits(StageChecks(stage), f) <==> FailsFirst(w, ev, ctx, now, f)
  {
    StageIs(w, ev, ctx, now, stage);
    StageFindings(stage, f);
    StageOfFinds(!OpensNothing(ev), NoDissent(ev), w.supersessionSchema(Dict(ev)), Recent(w, ev, now),
                 QuorumOf(ev), BoundTo(w, ev, ctx), f);
  }

  lemma SupersessionFindings(w: World, evidence: Value, ctx: Context, now: string, f: Finding)
    requires SupersessionChecks(w, evidence, ctx, now).Done?
    ensures Hits(SupersessionChecks(w, evidence, ctx, now).value.0, f) <==> SupersessionFinding(w, evidence, ctx, now, f)
  {
    var stage := SupersessionStage(w, evidence, ctx, now).value;
    if evidence.Dict? {
      ObjectFindings(w, evidence.fields, ctx, now, stage, f);
    } else {
      StageFindings(stage, f);
    }
  }

  // ----- the decision -----

  /** What a decision finds. */
  ghost predicate Found(w: World, inputs: Inputs, ctx: Context, f: Finding) {
    || SomeFails(ContextTests(w, inputs.payload, ctx), f)
    || SupersessionFinding(w, inputs.supersession, ctx, inputs.now, f)
    || SomeFails(BoundaryTests(w, ctx, ValidSupersession(w, inputs.supersession, ctx, inputs.now)), f)
    || ReviewFinding(w, inputs.reviewEvidence, ctx, f)
    || BundleFinding(w, inputs.bundle, ctx, f)
  }

  lemma FiveFindings(a: seq<Check>, b: seq<Check>, c: seq<Check>, d: seq<Check>, e: seq<Check>, f: Finding)
    ensures Hits(a + b + c + d + e, f) <==>
            Hits(a, f) || Hits(b, f) || Hits(c, f) || Hits(d, f) || Hits(e, f)
  {
    HitsAppend(a + b + c + d, e, f);
    HitsAppend(a + b + c, d, f);
    HitsAppend(a + b, c, f);
    HitsAppend(a, b, f);
  }

  lemma FoundIn(w: World, inputs: Inputs, ctx: Context, f: Finding)
    requires ChecksOf(w, inputs, ctx).Done?
    ensures Hits(ChecksOf(w, inputs, ctx).value, f) <==> Found(w, inputs, ctx, f)
  {
    var s, b := SupersessionChecks(w, inputs.supersession, ctx, inputs.now), BundleChecks(w, inputs.bundle, ctx);
    SupersessionPasses(w, inputs.supersession, ctx, inputs.now);
    ContextHits(w, inputs.payload, ctx, f);
    SupersessionFindings(w, inputs.supersession, ctx, inputs.now, f);
    BoundaryHits(w, ctx, s.value.1, f);
    ReviewFindings(w, inputs.reviewEvidence, ctx, f);
    BundleFindings(w, inputs.bundle, ctx, f);
    FiveFindings(ContextChecks(w, inputs.payload, ctx), s.value.0, BoundaryChecks(w, ctx, s.value.1),
                 ReviewOrSmokeChecks(w, inputs.reviewEvidence, ctx), b.value, f);
  }

  lemma FindingIn(w: World, inputs: Inputs, ctx: Context, f: Finding)
    requires DecideIn(w, inputs, ctx).Done?
    ensures f in DecideIn(w, inputs, ctx).value.findings <==> Found(w, inputs, ctx, f)
  {
    FoundIn(w, inputs, ctx, f);
    FindingsMean(ChecksOf(w, inputs, ctx).value, f);
  }

  /** For every input on which the gate decides: its findings are exactly those whose conditions hold. */
  lemma FindingIff(w: World, inputs: Inputs, f: Finding)
    requires Decide(w, inputs).Done?
    ensures f in Decide(w, inputs).value.findings <==>
            Found(w, inputs, ExtractContext(inputs.payload, inputs.gppStatus), f)
  {
    FindingIn(w, inputs, ExtractContext(inputs.payload, inputs.gppStatus), f);
  }
}
