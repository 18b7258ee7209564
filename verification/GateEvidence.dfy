/** The checks of a release-gate decision and the three evidence evaluators. */
module GateEvidence {
  import opened Text
  import opened Json
  import opened PathRules
  import opened GateContext
  import DiffDigest

  /** Finding codes. Codes the gate never emits itself are Unknown. */
  datatype Finding =
    | PayloadNotObject | WrongRepository | MissingPullRequest | MissingIssue | WrongBaseRef
    | BranchFreshnessUnknown | BranchNotUpToDate | UntrustedFork | PullRequestTargetContext
    | RequiredChecksMissing | RequiredChecksNotGreen | GppStatusMissing | GppIssueMismatch | GppBoundaryOpen
    | DiffScopeMissing | DiffOutOfScope | HighRiskHumanReviewMissing | ForbiddenSecretContext
    | AdminBypassRequested | PatBackedBotActor | AgentReleaseAuthority | LiveAdapterExecutionRequested
    | ReviewEvidenceMissing | ReviewEvidenceSchemaInvalid | ReviewEvidenceNotAccepting
    | ReviewEvidenceContextUnverifiable | ReviewEvidenceContextUnbound
    | AutonomousRequestInvalid | BundleMissing | BundleAuthorityOpen | BundleSchemaInvalid
    | BundleSameProvider | BundleConsensusNotAgree | BundleContextUnverifiable | BundleContextUnbound
    | SupersessionMissing | SupersessionAuthorityOpen | SupersessionConsensusNotAgree
    | SupersessionSchemaInvalid | SupersessionStale | SupersessionSameProvider
    | SupersessionContextUnverifiable | SupersessionContextUnbound
    | Unknown(code: string)

  datatype CheckName =
    | PayloadShape | Repository | PullRequest | IssueLink | BaseRef | BranchFreshness | ForkBoundary
    | EventBoundary | RequiredChecks | GppStatus | GppIssueConsistency | GppClosedBoundaries | DiffScope
    | PrDeliveryMetadataDiagnostic | PathSensitiveHumanReview | SecretBoundary | AdminBypassBoundary
    | BotBoundary | AgentAuthorityBoundary | LiveAdapterBoundary
    | ReviewEvidence | ReviewEvidenceContextBound
    | AutonomousRequest | EvidenceBundle | EvidenceBundleSchema | BundleConsensus | BundleContextBound
    | BundleAuthorityBoundary
    | SupersessionEvidence | SupersessionSchema | SupersessionFreshness | SupersessionConsensus
    | SupersessionContextBound | SupersessionAuthorityBoundary

  /** A check passes when it has no finding and is blocked by its finding otherwise. */
  datatype Check = Check(name: CheckName, finding: Option<Finding>)

  function Pass(name: CheckName): Check {
    Check(name, None)
  }

  function Blocked(name: CheckName, finding: Finding): Check {
    Check(name, Some(finding))
  }

  function CheckThat(name: CheckName, condition: bool, finding: Finding): Check {
    if condition then Pass(name) else Blocked(name, finding)
  }

  function Digest(w: World, paths: seq<string>): string {
    DiffDigest.Digest(w.hash, paths)
  }

  // ----- review evidence -----

  predicate AcceptanceProfile(ev: Object) {
    && Get(ev, KSchemaVersion) == Str("local-gpp-gate-evidence.v1")
    && Get(ev, KDecision) == Str("operator_may_merge")
    && Get(ev, KRepo).Str? && Get(ev, KRepo).s != ""
    && Get(ev, KWorkPackage).Str? && Get(ev, KWorkPackage).s != ""
    && Get(ev, KChecks).Dict?
    && Get(Get(ev, KChecks).fields, KReviewerAgree) == TRUE
    && Get(Get(ev, KChecks).fields, KCrossProviderVerified) == TRUE
    && Get(ev, KGpp2Status) == Str("closed")
    && Get(ev, KSupportWidening) == FALSE
    && Get(ev, KProductionPlatformClaim) == FALSE
    && Get(ev, KLiveAdapterExecution) == FALSE
  }

  predicate IsString(v: Value, s: Option<string>) {
    s.Some? && v == Str(s.value)
  }

  predicate CountIs(v: Value, n: nat) {
    PyEq(v, Int(n))
  }

  predicate ReviewBindingMatches(w: World, ev: Object, binding: Object, ctx: Context) {
    && IsString(Get(binding, KHeadSha), ctx.headSha)
    && IsString(Get(ev, KRepo), ctx.repository)
    && IsString(Get(ev, KWorkPackage), ctx.reviewedSlice)
    && Get(binding, KDiffDigest) == Str(Digest(w, ctx.changedPaths))
    && CountIs(Get(binding, KChangedFilesCount), |ctx.changedPaths|)
  }

  function ReviewEvidenceChecks(w: World, evidence: Value, ctx: Context): seq<Check> {
    if !evidence.Dict? then
      [Blocked(ReviewEvidence, ReviewEvidenceMissing),
       Blocked(ReviewEvidenceContextBound, ReviewEvidenceContextUnverifiable)]
    else if !w.localGateSchema(evidence) then
      [Blocked(ReviewEvidence, ReviewEvidenceSchemaInvalid),
       Blocked(ReviewEvidenceContextBound, ReviewEvidenceContextUnverifiable)]
    else if !AcceptanceProfile(evidence.fields) then
      [Blocked(ReviewEvidence, ReviewEvidenceNotAccepting),
       Blocked(ReviewEvidenceContextBound, ReviewEvidenceContextUnverifiable)]
    else
      var binding := Get(evidence.fields, KContextBinding);
      var bound := binding.Dict? && ReviewBindingMatches(w, evidence.fields, binding.fields, ctx);
      [Pass(ReviewEvidence), CheckThat(ReviewEvidenceContextBound, bound, ReviewEvidenceContextUnbound)]
  }

  const DEDICATED_MERGE_ACTOR := "gladyatore-lab"
  const OPERATOR_PRODUCER_ACTOR := "halildeu"

  predicate SmokeActor(w: World, ctx: Context) {
    w.lower(ctx.prAuthor.GetOr("")) in [DEDICATED_MERGE_ACTOR, OPERATOR_PRODUCER_ACTOR]
  }

  predicate SmokeScope(w: World, ctx: Context) {
    && ctx.autonomousMergeRequestValid
    && ctx.autonomousMergeRequested == Some(true)
    && SmokeActor(w, ctx)
    && ctx.changedPaths != []
    && ctx.highRiskChangedPaths == []
    && forall i | 0 <= i < |ctx.changedPaths| :: IsSmokePath(ctx.changedPaths[i])
  }

  function ReviewOrSmokeChecks(w: World, evidence: Value, ctx: Context): seq<Check> {
    if evidence.Dict? then ReviewEvidenceChecks(w, evidence, ctx)
    else if SmokeScope(w, ctx) then [Pass(ReviewEvidence), Pass(ReviewEvidenceContextBound)]
    else ReviewEvidenceChecks(w, evidence, ctx)
  }

  // ----- authority boundary -----

  const RELEASE_AUTHORITY := "ao-release-gate+github-ruleset"

  /** The key is present with another value than the closed one. */
  predicate Opens(d: Object, k: Key, closed: Value) {
    k in d && d[k] != closed
  }

  predicate AuthorityOpen(ev: Object) {
    var flags := AsDict(Get(ev, KGuardFlags));
    || Opens(ev, KReleaseAuthority, Str(RELEASE_AUTHORITY))
    || Opens(ev, KAiOutputReleaseAuthority, FALSE)
    || Opens(ev, KMutationsPerformed, FALSE)
    || Opens(ev, KSecretsRecorded, FALSE)
    || Opens(flags, KSupportWidening, FALSE)
    || Opens(flags, KProductionPlatformClaim, FALSE)
    || Opens(flags, KLiveAdapterExecution, FALSE)
  }

  predicate VerdictAuthorityOpen(v: Value) {
    && v.Dict?
    && (|| Opens(v.fields, KReleaseAuthority, Str(RELEASE_AUTHORITY))
        || Opens(v.fields, KAiOutputReleaseAuthority, FALSE)
        || Opens(v.fields, KSecretsRecorded, FALSE)
        || Opens(v.fields, KSupportWidening, FALSE)
        || Opens(v.fields, KProductionPlatformClaim, FALSE)
        || Opens(v.fields, KLiveAdapterExecution, FALSE))
  }

  predicate SupersessionAuthorityIsOpen(ev: Object) {
    || AuthorityOpen(ev)
    || exists i :: 0 <= i < |Verdicts(ev)| && VerdictAuthorityOpen(Verdicts(ev)[i])
  }

  function Verdicts(ev: Object): seq<Value> {
    AsList(Get(ev, KProviderVerdicts))
  }

  // ----- high-risk supersession -----

  /** `v not in {None, "AGREE"}`. */
  function NotAgree(v: Value): Outcome<bool> {
    if Hashable(v) then Done(v != Null && v != Str("AGREE")) else Raised
  }

  /** `any(...)` over the verdict objects, stopping at the first that does not agree. */
  function AnyNotAgree(verdicts: seq<Value>): Outcome<bool> {
    if verdicts == [] then Done(false)
    else if !verdicts[0].Dict? then AnyNotAgree(verdicts[1..])
    else
      match NotAgree(Get(verdicts[0].fields, KVerdict))
      case Raised => Raised
      case Done(true) => Done(true)
      case Done(false) => AnyNotAgree(verdicts[1..])
  }

  function ExplicitNonAgree(ev: Object): Outcome<bool> {
    match NotAgree(Get(ev, KConsensusStatus))
    case Raised => Raised
    case Done(true) => Done(true)
    case Done(false) => AnyNotAgree(Verdicts(ev))
  }

  /** The evidence is not dated after the decision, and not older than its maximum age. */
  predicate Timely(w: World, generatedAt: string, now: string, maxAge: int) {
    var start := if StringOf(Str(generatedAt)).Some? then w.instant(StringOf(Str(generatedAt)).value) else None;
    var end := if StringOf(Str(now)).Some? then w.instant(StringOf(Str(now)).value) else None;
    start.Some? && end.Some? && maxAge > 0 && 0.0 <= end.value - start.value <= maxAge as real
  }

  predicate Fresh(w: World, ev: Object, now: string) {
    var generated := Get(ev, KGeneratedAt);
    var maxAge := IntOf(Get(AsDict(Get(ev, KFreshness)), KMaxAgeSeconds));
    generated.Str? && maxAge.Some? && Timely(w, generated.s, now, maxAge.value)
  }

  const POOL := ["openai", "anthropic", "minimax"]
  const DEFAULT_REVIEWERS := ["openai", "anthropic"]

  function Without(pool: seq<string>, provider: string): seq<string> {
    Filter(pool, p => p != provider)
  }

  /** The two providers that must review a high-risk change: the pool without the implementer. */
  function Quorum(implementer: string): seq<string> {
    if implementer in POOL then Without(POOL, implementer) else DEFAULT_REVIEWERS
  }

  /** The provider ids of the verdict objects. */
  function ProviderIds(verdicts: seq<Value>): seq<Value> {
    if verdicts == [] then []
    else (if verdicts[0].Dict? then [Get(verdicts[0].fields, KProviderId)] else []) + ProviderIds(verdicts[1..])
  }

  predicate AllHashable(vs: seq<Value>) {
    forall i | 0 <= i < |vs| :: Hashable(vs[i])
  }

  /** `len(set(vs)) == len(vs)` for hashable values. */
  predicate Distinct(vs: seq<Value>) {
    forall i, j | 0 <= i < j < |vs| :: !PyEq(vs[i], vs[j])
  }

  predicate Member(v: Value, vs: seq<Value>) {
    exists i :: 0 <= i < |vs| && PyEq(v, vs[i])
  }

  /** `set(a) == set(b)`. */
  predicate SameSet(a: seq<Value>, b: seq<Value>) {
    && (forall i | 0 <= i < |a| :: Member(a[i], b))
    && (forall i | 0 <= i < |b| :: Member(b[i], a))
  }

  function StrItems(vs: seq<Value>): seq<Value> {
    if vs == [] then [] else (if vs[0].Str? then [vs[0]] else []) + StrItems(vs[1..])
  }

  /** Whether the providers of the verdicts are the independent quorum of the implementer. */
  function QuorumMet(ev: Object): Outcome<bool> {
    var ids := ProviderIds(Verdicts(ev));
    var implementer := Get(ev, KImplementerProvider);
    var expected := if implementer.Str? then StrValues(Quorum(implementer.s)) else [];
    var reviewers, required := Get(ev, KReviewerProviders), Get(ev, KRequiredReviewerProviders);
    if !AllHashable(ids) || !Hashable(implementer) then Raised
    else Done(
      && Distinct(ids)
      && SameSet(ids, expected)
      && reviewers.List? && SameSet(StrItems(reviewers.items), expected)
      && required.List? && SameSet(StrItems(required.items), expected)
      && !Member(implementer, ids))
  }

  predicate RefMatches(v: Value, ref: Option<string>) {
    ref.Some? && NormalizeBindingRef(v) == NormalizeBindingRef(Str(ref.value))
  }

  predicate BindingMatches(w: World, binding: Object, ctx: Context) {
    && IsString(Get(binding, KRepositoryFullName), ctx.repository)
    && RefMatches(Get(binding, KBaseRef), ctx.baseRef)
    && RefMatches(Get(binding, KHeadRef), ctx.headRef)
    && IsString(Get(binding, KHeadSha), ctx.headSha)
    && Get(binding, KDiffDigest) == Str(Digest(w, ctx.changedPaths))
    && CountIs(Get(binding, KChangedFilesCount), |ctx.changedPaths|)
  }

  predicate SupersessionBindingMatches(w: World, binding: Object, ctx: Context) {
    && BindingMatches(w, binding, ctx)
    && DiffDigest.Sorted(Strings(Get(binding, KHighRiskChangedPaths))) == DiffDigest.Sorted(ctx.highRiskChangedPaths)
  }

  predicate BindingsEquivalent(left: Object, right: Object) {
    && PyEq(Get(left, KRepositoryFullName), Get(right, KRepositoryFullName))
    && NormalizeBindingRef(Get(left, KBaseRef)) == NormalizeBindingRef(Get(right, KBaseRef))
    && NormalizeBindingRef(Get(left, KHeadRef)) == NormalizeBindingRef(Get(right, KHeadRef))
    && PyEq(Get(left, KHeadSha), Get(right, KHeadSha))
    && PyEq(Get(left, KDiffDigest), Get(right, KDiffDigest))
    && PyEq(Get(left, KChangedFilesCount), Get(right, KChangedFilesCount))
    && DiffDigest.Sorted(Strings(Get(left, KHighRiskChangedPaths)))
       == DiffDigest.Sorted(Strings(Get(right, KHighRiskChangedPaths)))
  }

  /** The context bindings of the verdict objects; a missing one reads as empty. */
  function ProviderBindings(verdicts: seq<Value>): seq<Object> {
    if verdicts == [] then []
    else (if verdicts[0].Dict? then [AsDict(Get(verdicts[0].fields, KContextBinding))] else [])
         + ProviderBindings(verdicts[1..])
  }

  predicate SupersessionBound(w: World, ev: Object, ctx: Context) {
    var binding := Get(ev, KContextBinding);
    var bindings := ProviderBindings(Verdicts(ev));
    && binding.Dict?
    && SupersessionBindingMatches(w, binding.fields, ctx)
    && bindings != []
    && forall i | 0 <= i < |bindings| ::
         SupersessionBindingMatches(w, bindings[i], ctx) && BindingsEquivalent(bindings[i], binding.fields)
  }

  /** Where the evaluator stops. */
  datatype Stage = Absent | NotObject | AuthorityOpened | Dissent | SchemaInvalid | Stale | NotQuorum | Bound(ok: bool)

  function SupersessionStage(w: World, evidence: Value, ctx: Context, now: string): Outcome<Stage> {
    if evidence.Null? then Done(Absent)
    else if !evidence.Dict? then Done(NotObject)
    else ObjectStage(w, evidence.fields, ctx, now)
  }

  function ObjectStage(w: World, ev: Object, ctx: Context, now: string): Outcome<Stage> {
    if SupersessionAuthorityIsOpen(ev) then Done(AuthorityOpened)
    else
      match ExplicitNonAgree(ev)
      case Raised => Raised
      case Done(true) => Done(Dissent)
      case Done(false) =>
        if !w.supersessionSchema(Dict(ev)) then Done(SchemaInvalid)
        else if !Fresh(w, ev, now) then Done(Stale)
        else
          match QuorumMet(ev)
          case Raised => Raised
          case Done(false) => Done(NotQuorum)
          case Done(true) => Done(Bound(SupersessionBound(w, ev, ctx)))
  }

  function SixChecks(evidence: Option<Finding>, schema: Option<Finding>, freshness: Option<Finding>,
                     consensus: Option<Finding>, bound: Option<Finding>, authority: Option<Finding>): seq<Check> {
    [Check(SupersessionEvidence, evidence), Check(SupersessionSchema, schema),
     Check(SupersessionFreshness, freshness), Check(SupersessionConsensus, consensus),
     Check(SupersessionContextBound, bound), Check(SupersessionAuthorityBoundary, authority)]
  }

  /** The six checks returned at each stage. */
  function StageChecks(stage: Stage): seq<Check> {
    var unverifiable := Some(SupersessionContextUnverifiable);
    match stage
    case Absent => SixChecks(None, None, None, None, None, None)
    case NotObject => SixChecks(Some(SupersessionMissing), None, None, None, unverifiable, None)
    case AuthorityOpened => SixChecks(None, None, None, None, None, Some(SupersessionAuthorityOpen))
    case Dissent => SixChecks(None, None, None, Some(SupersessionConsensusNotAgree), unverifiable, None)
    case SchemaInvalid =>
      // the one stage that lists the consensus check before the freshness check
      [Pass(SupersessionEvidence), Blocked(SupersessionSchema, SupersessionSchemaInvalid),
       Pass(SupersessionConsensus), Pass(SupersessionFreshness),
       Check(SupersessionContextBound, unverifiable), Pass(SupersessionAuthorityBoundary)]
    case Stale => SixChecks(None, None, Some(SupersessionStale), None, unverifiable, None)
    case NotQuorum => SixChecks(None, None, None, Some(SupersessionSameProvider), unverifiable, None)
    case Bound(ok) => SixChecks(None, None, None, None, if ok then None else Some(SupersessionContextUnbound), None)
  }

  /** The six supersession checks and whether the evidence can stand for a human approval. */
  function SupersessionChecks(w: World, evidence: Value, ctx: Context, now: string): Outcome<(seq<Check>, bool)> {
    match SupersessionStage(w, evidence, ctx, now)
    case Raised => Raised
    case Done(stage) => Done((StageChecks(stage), stage == Bound(true)))
  }

  // ----- autonomous-merge evidence bundle -----

  predicate AuthorityClosed(ev: Object) {
    var flags := AsDict(Get(ev, KGuardFlags));
    && Get(ev, KReleaseAuthority) == Str(RELEASE_AUTHORITY)
    && Get(ev, KAiOutputReleaseAuthority) == FALSE
    && Get(ev, KMutationsPerformed) == FALSE
    && Get(ev, KSecretsRecorded) == FALSE
    && Get(flags, KSupportWidening) == FALSE
    && Get(flags, KProductionPlatformClaim) == FALSE
    && Get(flags, KLiveAdapterExecution) == FALSE
  }

  predicate VerdictAgrees(v: Value) {
    v.Dict? && Get(v.fields, KVerdict) == Str("AGREE")
  }

  predicate BundleAgrees(ev: Object) {
    && Get(ev, KConsensusStatus) == Str("AGREE")
    && forall i | 0 <= i < |Verdicts(ev)| :: VerdictAgrees(Verdicts(ev)[i])
  }

  predicate BundleProvidersMet(ev: Object) {
    var ids := ProviderIds(Verdicts(ev));
    var required := StrItems(AsList(Get(ev, KRequiredReviewerProviders)));
    && Distinct(ids)
    && forall i | 0 <= i < |required| :: Member(required[i], ids)
  }

  function BundleChecks(w: World, bundle: Value, ctx: Context): Outcome<seq<Check>> {
    var requested := ctx.autonomousMergeRequested == Some(true);
    var request := CheckThat(AutonomousRequest, ctx.autonomousMergeRequestValid, AutonomousRequestInvalid);
    if bundle.Null? && (!requested || SmokeScope(w, ctx)) then
      Done([request, Pass(EvidenceBundle), Pass(EvidenceBundleSchema), Pass(BundleConsensus),
            Pass(BundleContextBound), Pass(BundleAuthorityBoundary)])
    else if !bundle.Dict? then
      Done([request, Blocked(EvidenceBundle, BundleMissing), Pass(EvidenceBundleSchema), Pass(BundleConsensus),
            Blocked(BundleContextBound, BundleContextUnverifiable), Pass(BundleAuthorityBoundary)])
    else BundleObjectChecks(w, request, bundle.fields, ctx)
  }

  function BundleObjectChecks(w: World, request: Check, ev: Object, ctx: Context): Outcome<seq<Check>> {
    var authority := CheckThat(BundleAuthorityBoundary, AuthorityClosed(ev), BundleAuthorityOpen);
    if AuthorityOpen(ev) then
      Done([request, Pass(EvidenceBundle), Pass(EvidenceBundleSchema), Pass(BundleConsensus),
            Pass(BundleContextBound), Blocked(BundleAuthorityBoundary, BundleAuthorityOpen)])
    else if !w.bundleSchema(Dict(ev)) then
      Done([request, Pass(EvidenceBundle), Blocked(EvidenceBundleSchema, BundleSchemaInvalid),
            Pass(BundleConsensus), Blocked(BundleContextBound, BundleContextUnverifiable),
            Pass(BundleAuthorityBoundary)])
    else if !AllHashable(ProviderIds(Verdicts(ev))) then Raised
    else if !BundleProvidersMet(ev) then
      Done([request, Pass(EvidenceBundle), Pass(EvidenceBundleSchema),
            Blocked(BundleConsensus, BundleSameProvider),
            Blocked(BundleContextBound, BundleContextUnverifiable), authority])
    else if !BundleAgrees(ev) then
      Done([request, Pass(EvidenceBundle), Pass(EvidenceBundleSchema),
            Blocked(BundleConsensus, BundleConsensusNotAgree),
            Blocked(BundleContextBound, BundleContextUnverifiable), authority])
    else
      var binding := Get(ev, KContextBinding);
      var bound := binding.Dict? && BindingMatches(w, binding.fields, ctx);
      Done([request, Pass(EvidenceBundle), Pass(EvidenceBundleSchema), Pass(BundleConsensus),
            CheckThat(BundleContextBound, bound, BundleContextUnbound), authority])
  }
}
