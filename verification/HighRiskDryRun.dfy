/** The high-risk dry run: it builds a payload and evidence from raw reviews and asks the release
    gate for its decision. */
module HighRiskDryRun {
  import opened Text
  import opened Json
  import opened GateContext
  import opened GateDecision
  import GateEvidence
  import GateTheorems
  import PathRules
  import DiffDigest
  import TraceIds

  /** The arguments of a run, what git and the raw review files say, and two readings of the clock:
      the supersession evidence's own and that of the gate. */
  datatype Run = Run(
    repository: string,
    workPackage: string,
    implementer: string,
    baseRef: string,
    headRef: string,
    headSha: string,
    changed: seq<string>,
    rawReviews: seq<Value>,
    maxAge: int,
    generatedAt: string,
    now: string)

  /** Schema validators besides those of the gate, and Python's `str`. */
  datatype Tools = Tools(gate: World, rawReviewSchema: Value -> bool, artifactSchema: Artifact -> bool, str: Value -> string)

  datatype Artifact = Artifact(run: Run, pass: bool, decision: GateResult, supersession: Value)

  // ----- the records -----

  predicate CanonicalSha(s: string) {
    |s| == 40 && TraceIds.AllHex(s)
  }

  function ContextBinding(run: Run, digest: string): Object {
    map[
      KRepositoryFullName := Str(run.repository),
      KBaseRef := Str(run.baseRef),
      KHeadRef := Str(run.headRef),
      KHeadSha := Str(run.headSha),
      KDiffDigest := Str(digest),
      KChangedFilesCount := Int(|run.changed|)]
  }

  function WithHighRisk(binding: Object, highRisk: seq<string>): Object {
    binding[KHighRiskChangedPaths := List(StrValues(highRisk))]
  }

  function HighRiskBinding(w: World, run: Run): Object {
    WithHighRisk(ContextBinding(run, GateEvidence.Digest(w, run.changed)), PathRules.HighRiskPaths(run.changed))
  }

  function ClosedFlags(): Object {
    map[KSupportWidening := FALSE, KProductionPlatformClaim := FALSE, KLiveAdapterExecution := FALSE]
  }

  /** The verdict record of one provider, when its raw review may be used. */
  function ProviderVerdict(t: Tools, binding: Object, provider: string, review: Value): Option<Value> {
    var raw := AsDict(review);
    var reviewer := Get(raw, KReviewer);
    if !review.Dict? || !t.rawReviewSchema(review) then None
    else if !reviewer.Dict? || Get(reviewer.fields, KProvider) != Str(provider) then None
    else if Get(reviewer.fields, KVerdict) != Str("AGREE") then None
    else if Get(raw, KSecretsRecorded) != FALSE || Get(raw, KSupportWidening) != FALSE
         || Get(raw, KProductionPlatformClaim) != FALSE || Get(raw, KLiveAdapterExecution) != FALSE then None
    else if !Get(raw, KFindings).List? then None
    else Some(VerdictRecord(
      binding, provider,
      t.str(Or(Get(reviewer.fields, KAgent), Str(provider + "-reviewer"))), |Get(raw, KFindings).items|))
  }

  function VerdictRecord(binding: Object, provider: string, agent: string, findings: nat): Value {
    Dict(map[
      KSchemaVersion := Str("ao-ma-10-provider-consensus.v1"),
      KArtifactKind := Str("ao_ma_10_provider_consensus"),
      KProviderId := Str(provider),
      KAgentId := Str(agent),
      KRole := Str("reviewer"),
      KRiskClassification := Str("high"),
      KVerdict := Str("AGREE"),
      KRoundIndex := Int(1),
      KContextBinding := Dict(binding),
      KBindingMode := Str("added"),
      KFindingsCount := Int(findings),
      KSecretsRecorded := FALSE,
      KSupportWidening := FALSE,
      KProductionPlatformClaim := FALSE,
      KLiveAdapterExecution := FALSE,
      KReleaseAuthority := Str(GateEvidence.RELEASE_AUTHORITY),
      KAiOutputReleaseAuthority := FALSE])
  }

  /** One verdict per required provider, in order; nothing when one of them cannot be made. */
  function ProviderVerdicts(t: Tools, binding: Object, providers: seq<string>, reviews: map<string, Value>): Option<seq<Value>> {
    if providers == [] then Some([])
    else
      var provider := providers[|providers| - 1];
      var before := ProviderVerdicts(t, binding, providers[..|providers| - 1], reviews);
      var verdict := if provider in reviews then ProviderVerdict(t, binding, provider, reviews[provider]) else None;
      if before.None? || verdict.None? then None else Some(before.value + [verdict.value])
  }

  function ReviewFields(run: Run, binding: Object, required: seq<string>, verdicts: seq<Value>): Object {
    map[
      KContextBinding := Dict(binding),
      KImplementerProvider := Str(run.implementer),
      KReviewerProviders := List(StrValues(DiffDigest.Sorted(required))),
      KRequiredReviewerProviders := List(StrValues(required)),
      KProviderVerdicts := List(verdicts),
      KConsensusStatus := Str("AGREE")]
  }

  function AuthorityFields(): Object {
    map[
      KReleaseAuthority := Str(GateEvidence.RELEASE_AUTHORITY),
      KAiOutputReleaseAuthority := FALSE,
      KGuardFlags := Dict(ClosedFlags()),
      KSecretsRecorded := FALSE,
      KMutationsPerformed := FALSE]
  }

  function HeaderFields(run: Run): Object {
    map[
      KSchemaVersion := Str("ao-ma-10-high-risk-supersession-evidence.v1"),
      KArtifactKind := Str("ao_ma_10_high_risk_supersession_evidence"),
      KGeneratedAt := Str(run.generatedAt),
      KRepo := Str(run.repository),
      KWorkPackage := Str(run.workPackage),
      KPlanningOnly := TRUE,
      KMaxReviseRounds := Int(3),
      KEscalationAction := Str("operator_human_review_fallback"),
      KFreshness := Dict(map[KStatus := Str("fresh"), KMaxAgeSeconds := Int(run.maxAge)])]
  }

  function SupersessionRecord(run: Run, binding: Object, required: seq<string>, verdicts: seq<Value>): Object {
    HeaderFields(run) + AuthorityFields() + ReviewFields(run, binding, required, verdicts)
  }

  /** The supersession evidence, when every required provider has a usable review. */
  function Supersession(t: Tools, run: Run, reviews: map<string, Value>): Option<Value> {
    var binding, required := HighRiskBinding(t.gate, run), GateEvidence.Quorum(run.implementer);
    match ProviderVerdicts(t, binding, required, reviews)
    case None => None
    case Some(verdicts) =>
      var evidence := Dict(SupersessionRecord(run, binding, required, verdicts));
      if t.gate.supersessionSchema(evidence) then Some(evidence) else None
  }

  // ----- the payload -----

  /** `s.replace(w, "")`. */
  function RemoveAll(s: string, w: string): (r: string)
    requires w != ""
    ensures |r| <= |s|
  {
    if s == "" then "" else if w <= s then RemoveAll(s[|w|..], w) else [s[0]] + RemoveAll(s[1..], w)
  }

  /** What follows the first slash, or the whole name. */
  function RepoName(repository: string): string {
    match Find(repository, "/", 0)
    case Some(i) => repository[i + 1..]
    case None => repository
  }

  /** The fixed texts of a dry-run payload. */
  datatype Labels = Labels(
    issueUrl: string, author: string, baseRef: string, event: string, prefixes: seq<string>, checks: seq<Value>,
    workId: string, workStatus: string)

  function GreenCheck(name: string): Value {
    Dict(map[KName := Str(name), KStatus := Str("completed"), KConclusion := Str("success")])
  }

  function AllowedPrefixes(): seq<string> {
    [".github/", ".claude/", "AGENTS.md", "CLAUDE.md", "local-ai-review-evidence.v1.json",
     "local-gpp-gate-evidence.v1.json", "ao-ma-10-high-risk-reviews/", "ao_kernel/", "scripts/", "tests/",
     "deploy/", "CHANGELOG.md"]
  }

  function GreenChecks(): seq<Value> {
    [GreenCheck("lint"), GreenCheck("test (3.13)"), GreenCheck(CHECK_NAME)]
  }

  function DryRunLabels(): Labels {
    Labels("https://github.com/" + EXPECTED_REPOSITORY + "/issues/0", "ao-kernel-dry-run", "main", "pull_request",
           AllowedPrefixes(), GreenChecks(), "GPP-9", "closed")
  }

  function PullRequest(run: Run, l: Labels): Object {
    map[
      KNumber := Int(0),
      KAuthor := Dict(map[KLogin := Str(l.author)]),
      KBase := Dict(map[KRef := Str(l.baseRef)]),
      KHead := Dict(map[
        KRef := Str(RemoveAll(run.headRef, HEADS)),
        KSha := Str(run.headSha),
        KRepo := Dict(map[KFork := FALSE, KName := Str(RepoName(run.repository))])])]
  }

  function Payload(run: Run, l: Labels): Object {
    map[
      KRepository := Dict(map[KFullName := Str(run.repository)]),
      KPullRequest := Dict(PullRequest(run, l)),
      KIssueUrl := Str(l.issueUrl),
      KBranchUpToDate := TRUE,
      KEventName := Str(l.event),
      KReviewedSlice := Str(run.workPackage),
      KChangedPaths := List(StrValues(run.changed)),
      KPrAuthor := Str(l.author),
      KHumanReviews := List([]),
      KPathSensitiveHumanReviewEnabled := TRUE,
      KAllowedPathPrefixes := List(StrValues(l.prefixes)),
      KRequiredChecks := List(l.checks),
      KForbiddenSecretContextDetected := FALSE,
      KAdminBypassRequested := FALSE,
      KPatBackedBotActor := FALSE,
      KCodexOrClaudeReleaseAuthority := FALSE,
      KLiveAdapterExecutionRequested := FALSE]
  }

  function GppStatus(l: Labels): Object {
    map[
      KCurrentWp := Dict(map[KId := Str(l.workId), KStatus := Str(l.workStatus), KIssue := Str(l.issueUrl)]),
      KSupportWideningAllowed := FALSE,
      KProductionPlatformClaimAllowed := FALSE,
      KLiveAdapterExecutionAllowed := FALSE]
  }

  // ----- the review evidence -----

  function ReviewRecord(run: Run, digest: string, generatedAt: string): Object {
    map[
      KSchemaVersion := Str("local-gpp-gate-evidence.v1"),
      KDecision := Str("operator_may_merge"),
      KRepo := Str(run.repository),
      KWorkPackage := Str(run.workPackage),
      KGeneratedAt := Str(generatedAt),
      KChecks := Dict(map[
        KStartupPreflightPassed := TRUE, KGppStatusChecked := TRUE, KScopeAllowed := TRUE, KTestsPassed := TRUE,
        KSecretScanPassed := TRUE, KReviewerAgree := TRUE, KCrossProviderVerified := TRUE,
        KForbiddenActionsAbsent := TRUE]),
      KFindings := List([]),
      KReviewerFindingsCount := Int(0),
      KGpp2Status := Str("closed"),
      KSupportWidening := FALSE,
      KProductionPlatformClaim := FALSE,
      KLiveAdapterExecution := FALSE,
      KContextBinding := Dict(map[
        KHeadSha := Str(run.headSha),
        KBaseRef := Str(run.baseRef),
        KDiffDigest := Str(digest),
        KChangedFilesCount := Int(|run.changed|)])]
  }

  function ReviewEvidence(w: World, run: Run, generatedAt: string): Object {
    ReviewRecord(run, GateEvidence.Digest(w, run.changed), generatedAt)
  }

  // ----- the raw reviews -----

  /** The provider a raw review names. */
  function ReviewProvider(review: Value): Option<string> {
    var provider := Get(AsDict(Get(AsDict(review), KReviewer)), KProvider);
    if review.Dict? && Get(review.fields, KReviewer).Dict? && provider.Str? then Some(provider.s) else None
  }

  /** The raw reviews by provider, the last one of each; nothing when one names no provider. */
  function ReviewsByProvider(reviews: seq<Value>): Option<map<string, Value>> {
    if reviews == [] then Some(map[])
    else
      var before := ReviewsByProvider(reviews[..|reviews| - 1]);
      var provider := ReviewProvider(reviews[|reviews| - 1]);
      if before.None? || provider.None? then None else Some(before.value[provider.value := reviews[|reviews| - 1]])
  }

  /** A provider's review is the last one that names it. */
  lemma {:induction false} LastReviewCounts(reviews: seq<Value>, provider: string)
    requires ReviewsByProvider(reviews).Some?
    ensures var byProvider := ReviewsByProvider(reviews).value;
      && (provider in byProvider <==> exists i :: 0 <= i < |reviews| && ReviewProvider(reviews[i]) == Some(provider))
      && (provider in byProvider ==>
            exists i :: 0 <= i < |reviews| && ReviewProvider(reviews[i]) == Some(provider) && byProvider[provider] == reviews[i]
              && forall j | i < j < |reviews| :: ReviewProvider(reviews[j]) != Some(provider))
  {
    if reviews != [] {
      var k := |reviews| - 1;
      var before := reviews[..k];
      LastReviewCounts(before, provider);
      if ReviewProvider(reviews[k]) != Some(provider) && provider in ReviewsByProvider(before).value {
        var i :| 0 <= i < k && ReviewProvider(before[i]) == Some(provider)
          && ReviewsByProvider(before).value[provider] == before[i]
          && forall j | i < j < k :: ReviewProvider(before[j]) != Some(provider);
        assert reviews[i] == before[i];
        forall j | i < j < |reviews| ensures ReviewProvider(reviews[j]) != Some(provider) {
          if j < k {
            assert reviews[j] == before[j];
          }
        }
      }
      if i :| 0 <= i < |reviews| && ReviewProvider(reviews[i]) == Some(provider) {
        if i < k {
          assert before[i] == reviews[i];
        }
      }
    }
  }

  lemma {:induction false} ReviewsByProviderPrefix(reviews: seq<Value>, k: nat)
    requires k <= |reviews| && ReviewsByProvider(reviews[..k]).None?
    ensures ReviewsByProvider(reviews).None?
    decreases |reviews|
  {
    if k < |reviews| {
      assert reviews[..|reviews| - 1][..k] == reviews[..k];
      ReviewsByProviderPrefix(reviews[..|reviews| - 1], k);
    } else {
      assert reviews[..k] == reviews;
    }
  }

  method CollectRawReviews(reviews: seq<Value>) returns (r: Option<map<string, Value>>)
    ensures r == ReviewsByProvider(reviews)
  {
    var byProvider: map<string, Value> := map[];
    for i := 0 to |reviews|
      invariant ReviewsByProvider(reviews[..i]) == Some(byProvider)
    {
      assert reviews[..i + 1][..i] == reviews[..i];
      var provider := ReviewProvider(reviews[i]);
      if provider.None? {
        ReviewsByProviderPrefix(reviews, i + 1);
        return None;
      }
      byProvider := byProvider[provider.value := reviews[i]];
    }
    assert reviews[..|reviews|] == reviews;
    return Some(byProvider);
  }

  lemma {:induction false} ProviderVerdictsPrefix(t: Tools, binding: Object, providers: seq<string>, reviews: map<string, Value>, k: nat)
    requires k <= |providers| && ProviderVerdicts(t, binding, providers[..k], reviews).None?
    ensures ProviderVerdicts(t, binding, providers, reviews).None?
    decreases |providers|
  {
    if k < |providers| {
      assert providers[..|providers| - 1][..k] == providers[..k];
      ProviderVerdictsPrefix(t, binding, providers[..|providers| - 1], reviews, k);
    } else {
      assert providers[..k] == providers;
    }
  }

  method CollectVerdicts(t: Tools, binding: Object, providers: seq<string>, reviews: map<string, Value>) returns (r: Option<seq<Value>>)
    ensures r == ProviderVerdicts(t, binding, providers, reviews)
  {
    var verdicts: seq<Value> := [];
    for i := 0 to |providers|
      invariant ProviderVerdicts(t, binding, providers[..i], reviews) == Some(verdicts)
    {
      assert providers[..i + 1][..i] == providers[..i];
      var provider := providers[i];
      if provider !in reviews || ProviderVerdict(t, binding, provider, reviews[provider]).None? {
        ProviderVerdictsPrefix(t, binding, providers, reviews, i + 1);
        return None;
      }
      verdicts := verdicts + [ProviderVerdict(t, binding, provider, reviews[provider]).value];
    }
    assert providers[..|providers|] == providers;
    return Some(verdicts);
  }

  // ----- the run -----

  function GateInputs(w: World, run: Run, supersession: Value, reviewedAt: string): Inputs {
    var l := DryRunLabels();
    Inputs(Dict(Payload(run, l)), Dict(GppStatus(l)), Dict(ReviewEvidence(w, run, reviewedAt)), Null, supersession, run.now)
  }

  /** The outcome of a run; nothing when it raises. */
  function DryRunOf(t: Tools, run: Run, reviewedAt: string): Option<Artifact> {
    if PathRules.HighRiskPaths(run.changed) == [] || !CanonicalSha(run.headSha) then None
    else
      match ReviewsByProvider(run.rawReviews)
      case None => None
      case Some(reviews) =>
        match Supersession(t, run, reviews)
        case None => None
        case Some(supersession) =>
          if !t.gate.localGateSchema(Dict(ReviewEvidence(t.gate, run, reviewedAt))) then None
          else Evaluated(t, run, supersession, Decide(t.gate, GateInputs(t.gate, run, supersession, reviewedAt)))
  }

  function Evaluated(t: Tools, run: Run, supersession: Value, decision: Outcome<GateResult>): Option<Artifact> {
    match decision
    case Raised => None
    case Done(result) => Reported(t, Artifact(run, result.allow, result, supersession))
  }

  function Reported(t: Tools, artifact: Artifact): Option<Artifact> {
    if t.artifactSchema(artifact) then Some(artifact) else None
  }

  method MakeSupersession(t: Tools, run: Run, reviews: map<string, Value>) returns (r: Option<Value>)
    ensures r == Supersession(t, run, reviews)
  {
    var binding, required := HighRiskBinding(t.gate, run), GateEvidence.Quorum(run.implementer);
    var verdicts := CollectVerdicts(t, binding, required, reviews);
    if verdicts.None? {
      return None;
    }
    var evidence := Dict(SupersessionRecord(run, binding, required, verdicts.value));
    return if t.gate.supersessionSchema(evidence) then Some(evidence) else None;
  }

  method Evaluate(t: Tools, run: Run, supersession: Value, reviewedAt: string) returns (r: Option<Artifact>)
    ensures r == Evaluated(t, run, supersession, Decide(t.gate, GateInputs(t.gate, run, supersession, reviewedAt)))
  {
    var decision := GateTheorems.BuildDecision(t.gate, GateInputs(t.gate, run, supersession, reviewedAt));
    r := Evaluated(t, run, supersession, decision);
  }

  method RunHighRiskDryRun(t: Tools, run: Run, reviewedAt: string) returns (r: Option<Artifact>)
    ensures r == DryRunOf(t, run, reviewedAt)
  {
    if PathRules.HighRiskPaths(run.changed) == [] || !CanonicalSha(run.headSha) {
      return None;
    }
    var reviews := CollectRawReviews(run.rawReviews);
    if reviews.None? {
      return None;
    }
    var supersession := MakeSupersession(t, run, reviews.value);
    if supersession.None? || !t.gate.localGateSchema(Dict(ReviewEvidence(t.gate, run, reviewedAt))) {
      return None;
    }
    r := Evaluate(t, run, supersession.value, reviewedAt);
  }
}
