/** What service-enriched context can change about a decision when the payload gives every field
    itself: nothing, or it contradicts the payload's autonomous merge request, and that denies. */
module GatePrecedence {
  import opened Text
  import opened Json
  import opened GateContext
  import opened GateEvidence
  import opened GateDecision
  import opened GateTheorems
  import opened GateSupersession

  /** The places service-enriched context may stand. */
  predicate IsServiceKey(k: Key) {
    k.KReleaseGateContext? || k.KAoReleaseGate? || k.KVerifiedContext? || k.KAoKernel?
  }

  /** Two payloads that differ at most in their service-enriched context. */
  ghost predicate SameButService(a: Object, b: Object) {
    forall k: Key | !IsServiceKey(k) :: Get(a, k) == Get(b, k)
  }

  function Own(root: Object, k: Key): Option<string> {
    StringOf(Get(root, k))
  }

  function Inner(root: Object, k: Key, inner: Key): Object {
    AsDict(Get(AsDict(Get(root, k)), inner))
  }

  /** The payload gives its own repository, refs, commit, author, issue, event and slice. */
  ghost predicate GivesTexts(root: Object) {
    && StringOf(Get(AsDict(Get(root, KRepository)), KFullName)).Some?
    && StringOf(Get(Inner(root, KPullRequest, KBase), KRef)).Some?
    && StringOf(Get(Inner(root, KPullRequest, KHead), KRef)).Some?
    && StringOf(Get(Inner(root, KPullRequest, KHead), KSha)).Some?
    && Own(root, KPrAuthor).Some? && Own(root, KIssueUrl).Some? && Own(root, KEventName).Some?
    && Own(root, KReviewedSlice).Some?
  }

  /** It gives its own flags. */
  ghost predicate GivesFlags(root: Object) {
    && BoolOf(Get(root, KBranchUpToDate)).Some? && BoolOf(Get(root, KFromFork)).Some?
    && BoolOf(Get(root, KPathSensitiveHumanReviewEnabled)).Some?
    && BoolOf(Get(root, KForbiddenSecretContextDetected)).Some? && BoolOf(Get(root, KAdminBypassRequested)).Some?
    && BoolOf(Get(root, KPatBackedBotActor)).Some? && BoolOf(Get(root, KCodexOrClaudeReleaseAuthority)).Some?
    && BoolOf(Get(root, KLiveAdapterExecutionRequested)).Some?
  }

  /** And its own changed paths and allowlist. */
  ghost predicate GivesLists(root: Object) {
    Strings(Get(root, KChangedPaths)) != [] && Strings(Get(root, KAllowedPathPrefixes)) != []
  }

  lemma TextsAreShared(a: Object, b: Object)
    requires SameButService(a, b)
    ensures Get(a, KRepository) == Get(b, KRepository) && Get(a, KPullRequest) == Get(b, KPullRequest)
    ensures Get(a, KPrAuthor) == Get(b, KPrAuthor) && Get(a, KIssueUrl) == Get(b, KIssueUrl)
    ensures Get(a, KEventName) == Get(b, KEventName) && Get(a, KReviewedSlice) == Get(b, KReviewedSlice)
  {
  }

  /** The fields that are texts, read off the payload alone. */
  lemma TextsAreOwn(root: Object, status: Value, ctx: Context)
    requires GivesTexts(root) && ctx == ExtractContext(Dict(root), status)
    ensures ctx.repository == StringOf(Get(AsDict(Get(root, KRepository)), KFullName))
    ensures ctx.baseRef == NormalizeRef(StringOf(Get(Inner(root, KPullRequest, KBase), KRef)))
    ensures ctx.headRef == NormalizeRef(StringOf(Get(Inner(root, KPullRequest, KHead), KRef)))
    ensures ctx.headSha == StringOf(Get(Inner(root, KPullRequest, KHead), KSha))
    ensures ctx.prAuthor == Own(root, KPrAuthor) && ctx.issueUrl == Own(root, KIssueUrl)
    ensures ctx.eventName == Own(root, KEventName) && ctx.reviewedSlice == Own(root, KReviewedSlice)
  {
  }

  lemma FlagsAreOwn(root: Object, status: Value, ctx: Context)
    requires GivesFlags(root) && ctx == ExtractContext(Dict(root), status)
    ensures ctx.branchUpToDate == BoolOf(Get(root, KBranchUpToDate)) && ctx.fromFork == BoolOf(Get(root, KFromFork))
    ensures ctx.pathSensitiveHumanReviewEnabled == BoolOf(Get(root, KPathSensitiveHumanReviewEnabled))
    ensures ctx.forbiddenSecretContextDetected == BoolOf(Get(root, KForbiddenSecretContextDetected))
    ensures ctx.adminBypassRequested == BoolOf(Get(root, KAdminBypassRequested))
    ensures ctx.patBackedBotActor == BoolOf(Get(root, KPatBackedBotActor))
    ensures ctx.codexOrClaudeReleaseAuthority == BoolOf(Get(root, KCodexOrClaudeReleaseAuthority))
    ensures ctx.liveAdapterExecutionRequested == BoolOf(Get(root, KLiveAdapterExecutionRequested))
  {
  }

  lemma ListsAreOwn(root: Object, status: Value, ctx: Context)
    requires GivesLists(root) && ctx == ExtractContext(Dict(root), status)
    ensures ctx.changedPaths == Strings(Get(root, KChangedPaths))
    ensures ctx.allowedPathPrefixes == Strings(Get(root, KAllowedPathPrefixes))
  {
  }

  // ----- one group of fields after the other -----

  ghost predicate SameTexts(x: Context, y: Context) {
    && x.repository == y.repository && x.baseRef == y.baseRef && x.headRef == y.headRef && x.headSha == y.headSha
    && x.prAuthor == y.prAuthor && x.issueUrl == y.issueUrl && x.eventName == y.eventName
    && x.reviewedSlice == y.reviewedSlice
  }

  ghost predicate SameFlags(x: Context, y: Context) {
    && x.branchUpToDate == y.branchUpToDate && x.fromFork == y.fromFork
    && x.pathSensitiveHumanReviewEnabled == y.pathSensitiveHumanReviewEnabled
    && x.forbiddenSecretContextDetected == y.forbiddenSecretContextDetected
    && x.adminBypassRequested == y.adminBypassRequested && x.patBackedBotActor == y.patBackedBotActor
    && x.codexOrClaudeReleaseAuthority == y.codexOrClaudeReleaseAuthority
    && x.liveAdapterExecutionRequested == y.liveAdapterExecutionRequested
  }

  ghost predicate SameLists(x: Context, y: Context) {
    && x.changedPaths == y.changedPaths && x.highRiskChangedPaths == y.highRiskChangedPaths
    && x.allowedPathPrefixes == y.allowedPathPrefixes
  }

  lemma TextsStand(a: Object, b: Object, status: Value)
    requires SameButService(a, b) && GivesTexts(a)
    ensures SameTexts(ExtractContext(Dict(a), status), ExtractContext(Dict(b), status))
  {
    TextsAreShared(a, b);
    TextsAreOwn(a, status, ExtractContext(Dict(a), status));
    TextsAreOwn(b, status, ExtractContext(Dict(b), status));
  }

  lemma FlagsStand(a: Object, b: Object, status: Value)
    requires SameButService(a, b) && GivesFlags(a)
    ensures SameFlags(ExtractContext(Dict(a), status), ExtractContext(Dict(b), status))
  {
    assert GivesFlags(b);
    FlagsAreOwn(a, status, ExtractContext(Dict(a), status));
    FlagsAreOwn(b, status, ExtractContext(Dict(b), status));
  }

  lemma ListsStand(a: Object, b: Object, status: Value)
    requires SameButService(a, b) && GivesLists(a)
    ensures SameLists(ExtractContext(Dict(a), status), ExtractContext(Dict(b), status))
  {
    assert GivesLists(b);
    ListsAreOwn(a, status, ExtractContext(Dict(a), status));
    ListsAreOwn(b, status, ExtractContext(Dict(b), status));
  }

  ghost predicate SameRest(x: Context, y: Context) {
    && x.pullRequestNumber == y.pullRequestNumber
    && x.requiredChecks == y.requiredChecks && x.humanReviews == y.humanReviews
    && x.gppCurrentWpId == y.gppCurrentWpId && x.gppCurrentWpIssue == y.gppCurrentWpIssue
    && x.gppCurrentWpStatus == y.gppCurrentWpStatus
    && x.gppSupportWideningAllowed == y.gppSupportWideningAllowed
    && x.gppProductionPlatformClaimAllowed == y.gppProductionPlatformClaimAllowed
    && x.gppLiveAdapterExecutionAllowed == y.gppLiveAdapterExecutionAllowed
  }

  lemma RestIsRead(root: Object, status: Value, ctx: Context)
    requires ctx == ExtractContext(Dict(root), status)
    ensures ctx.pullRequestNumber
         == FirstInt([Get(AsDict(Get(root, KPullRequest)), KNumber), Get(root, KPullRequestNumber)])
    ensures ctx.requiredChecks == NormalChecks(AsList(Or(Get(root, KRequiredChecks), Get(root, KChecks))))
    ensures ctx.humanReviews == NormalReviews(AsList(Or(Get(root, KHumanReviews), Get(root, KReviews))))
  {
  }

  lemma StatusIsShared(a: Object, b: Object, status: Value)
    ensures var x, y := ExtractContext(Dict(a), status), ExtractContext(Dict(b), status);
      && x.gppCurrentWpId == y.gppCurrentWpId && x.gppCurrentWpIssue == y.gppCurrentWpIssue
      && x.gppCurrentWpStatus == y.gppCurrentWpStatus
      && x.gppSupportWideningAllowed == y.gppSupportWideningAllowed
      && x.gppProductionPlatformClaimAllowed == y.gppProductionPlatformClaimAllowed
      && x.gppLiveAdapterExecutionAllowed == y.gppLiveAdapterExecutionAllowed
  {
  }

  lemma RestIsShared(a: Object, b: Object)
    requires SameButService(a, b)
    ensures Get(a, KPullRequest) == Get(b, KPullRequest) && Get(a, KPullRequestNumber) == Get(b, KPullRequestNumber)
    ensures Get(a, KRequiredChecks) == Get(b, KRequiredChecks) && Get(a, KChecks) == Get(b, KChecks)
    ensures Get(a, KHumanReviews) == Get(b, KHumanReviews) && Get(a, KReviews) == Get(b, KReviews)
  {
  }

  lemma RestStands(a: Object, b: Object, status: Value)
    requires SameButService(a, b)
    ensures SameRest(ExtractContext(Dict(a), status), ExtractContext(Dict(b), status))
  {
    RestIsShared(a, b);
    RestIsRead(a, status, ExtractContext(Dict(a), status));
    RestIsRead(b, status, ExtractContext(Dict(b), status));
    StatusIsShared(a, b, status);
  }

  // ----- the autonomous merge request -----

  /** The values of the request that one place gives. */
  function Requests(source: Object): seq<Value> {
    Present(source, KLowRiskAutonomousMergeRequested) + Present(source, KAoMa10AutonomousMergeRequested)
  }

  /** Every value given is this one. */
  ghost predicate AllAre(values: seq<Value>, requested: bool) {
    forall i | 0 <= i < |values| :: values[i] == Bool(requested)
  }

  /** The payload gives the request itself, and means one thing by it. */
  ghost predicate GivesRequest(root: Object, requested: bool) {
    Requests(root) != [] && AllAre(Requests(root), requested)
  }

  /** Every value the service gives for the request is the payload's own. */
  ghost predicate ServiceAgrees(root: Object, requested: bool) {
    AllAre(Requests(ServiceContext(root)), requested)
  }

  lemma RequestStands(own: seq<Value>, service: seq<Value>, requested: bool)
    requires own != [] && AllAre(own, requested)
    ensures RequestOf(own + service) == if AllAre(service, requested) then (Some(requested), true) else (None, false)
  {
    var all := own + service;
    assert all[0] == own[0] == Bool(requested);
    assert forall i | 0 <= i < |own| :: all[i] == own[i];
    assert forall i | 0 <= i < |service| :: all[|own| + i] == service[i];
    if !AllAre(service, requested) {
      var i :| 0 <= i < |service| && service[i] != Bool(requested);
      assert all[|own| + i] != all[0];
    }
  }

  lemma RequestOfPayload(root: Object, status: Value, requested: bool)
    requires GivesRequest(root, requested)
    ensures var ctx := ExtractContext(Dict(root), status);
      (ctx.autonomousMergeRequested, ctx.autonomousMergeRequestValid)
      == if ServiceAgrees(root, requested) then (Some(requested), true) else (None, false)
  {
    var service := ServiceContext(root);
    RequestStands(Requests(root), Requests(service), requested);
    assert RequestCandidates(root, service) == Requests(root) + Requests(service);
  }

  // ----- the decision -----

  /** The payload gives every field itself. */
  ghost predicate Gives(root: Object, requested: bool) {
    GivesTexts(root) && GivesFlags(root) && GivesLists(root) && GivesRequest(root, requested)
  }

  lemma SameFields(x: Context, y: Context)
    requires SameTexts(x, y) && SameFlags(x, y) && SameLists(x, y) && SameRest(x, y)
    requires x.autonomousMergeRequested == y.autonomousMergeRequested
    requires x.autonomousMergeRequestValid == y.autonomousMergeRequestValid
    ensures x == y
  {
  }

  lemma RequestIsOwn(a: Object, b: Object)
    requires SameOwnRequest(a, b)
    ensures Requests(a) == Requests(b)
  {
  }

  /** The request keys are the same, present or absent. */
  ghost predicate SameOwnRequest(a: Object, b: Object) {
    && Present(a, KLowRiskAutonomousMergeRequested) == Present(b, KLowRiskAutonomousMergeRequested)
    && Present(a, KAoMa10AutonomousMergeRequested) == Present(b, KAoMa10AutonomousMergeRequested)
  }

  lemma AgreeingServiceKeepsContext(a: Object, b: Object, status: Value, requested: bool)
    requires SameButService(a, b) && SameOwnRequest(a, b) && Gives(a, requested)
    requires ServiceAgrees(a, requested) && ServiceAgrees(b, requested)
    ensures ExtractContext(Dict(a), status) == ExtractContext(Dict(b), status)
  {
    TextsStand(a, b, status);
    FlagsStand(a, b, status);
    ListsStand(a, b, status);
    RestStands(a, b, status);
    RequestIsOwn(a, b);
    RequestOfPayload(a, status, requested);
    RequestOfPayload(b, status, requested);
    SameFields(ExtractContext(Dict(a), status), ExtractContext(Dict(b), status));
  }

  /** The check of the request, wherever the bundle evaluator stops. */
  lemma RequestCheck(w: World, bundle: Value, ctx: Context)
    requires BundleChecks(w, bundle, ctx).Done?
    ensures BundleChecks(w, bundle, ctx).value != []
    ensures BundleChecks(w, bundle, ctx).value[0]
         == CheckThat(AutonomousRequest, ctx.autonomousMergeRequestValid, AutonomousRequestInvalid)
  {
  }

  lemma FourteenSixTwo(w: World, inputs: Inputs, ctx: Context, valid: bool)
    ensures |ContextChecks(w, inputs.payload, ctx)| == 14 && |BoundaryChecks(w, ctx, valid)| == 6
    ensures |ReviewOrSmokeChecks(w, inputs.reviewEvidence, ctx)| == 2
  {
  }

  lemma FirstOfLast(a: seq<Check>, b: seq<Check>, c: seq<Check>, d: seq<Check>, e: seq<Check>)
    requires |a| == 14 && |b| == 6 && |c| == 6 && |d| == 2 && e != []
    ensures |a + b + c + d + e| > 28 && (a + b + c + d + e)[28] == e[0]
  {
  }

  /** Where the check of the request stands among all checks. */
  lemma RequestAt28(w: World, inputs: Inputs, ctx: Context)
    requires ChecksOf(w, inputs, ctx).Done?
    ensures |ChecksOf(w, inputs, ctx).value| > 28
    ensures ChecksOf(w, inputs, ctx).value[28]
         == CheckThat(AutonomousRequest, ctx.autonomousMergeRequestValid, AutonomousRequestInvalid)
  {
    var s := SupersessionChecks(w, inputs.supersession, ctx, inputs.now).value;
    SixChecksWhateverTheEvidence(w, inputs.supersession, ctx, inputs.now);
    FourteenSixTwo(w, inputs, ctx, s.1);
    RequestCheck(w, inputs.bundle, ctx);
    FirstOfLast(ContextChecks(w, inputs.payload, ctx), s.0, BoundaryChecks(w, ctx, s.1),
                ReviewOrSmokeChecks(w, inputs.reviewEvidence, ctx), BundleChecks(w, inputs.bundle, ctx).value);
  }

  /** A decision without a valid request denies. */
  lemma InvalidRequestDenies(w: World, inputs: Inputs, ctx: Context)
    requires DecideIn(w, inputs, ctx).Done? && !ctx.autonomousMergeRequestValid
    ensures !DecideIn(w, inputs, ctx).value.allow
  {
    AllowedIn(w, inputs, ctx);
  }

  lemma DecisionsDiffer(w: World, a: Inputs, b: Inputs, x: Context, y: Context)
    requires DecideIn(w, a, x).Done? && DecideIn(w, b, y).Done?
    requires x.autonomousMergeRequestValid && !y.autonomousMergeRequestValid
    ensures DecideIn(w, a, x) != DecideIn(w, b, y)
  {
    RequestAt28(w, a, x);
    RequestAt28(w, b, y);
  }

  lemma SameContextDecides(w: World, a: Inputs, b: Inputs, ctx: Context)
    requires a.payload.Dict? && b == a.(payload := b.payload) && b.payload.Dict?
    ensures DecideIn(w, a, ctx) == DecideIn(w, b, ctx)
  {
  }

  /** Two payloads that give every field themselves, and differ only in what a service adds to them.
      One that adds nothing to the contrary is decided as it stands. The other is decided the same
      exactly when every request value its service gives is the payload's own; otherwise it is
      denied. */
  lemma ServiceCannotDecide(w: World, inputs: Inputs, a: Object, b: Object, requested: bool)
    requires inputs.payload == Dict(a) && SameButService(a, b) && SameOwnRequest(a, b)
    requires Gives(a, requested) && ServiceAgrees(a, requested) && Decide(w, inputs).Done?
    ensures var other := Decide(w, inputs.(payload := Dict(b)));
      && other.Done?
      && (other == Decide(w, inputs) <==> ServiceAgrees(b, requested))
      && (!ServiceAgrees(b, requested) ==> !other.value.allow)
  {
    var others := inputs.(payload := Dict(b));
    var x, y := ExtractContext(Dict(a), inputs.gppStatus), ExtractContext(Dict(b), inputs.gppStatus);
    DecideRaisesIff(w, inputs);
    DecideRaisesIff(w, others);
    RequestIsOwn(a, b);
    RequestOfPayload(a, inputs.gppStatus, requested);
    RequestOfPayload(b, inputs.gppStatus, requested);
    if ServiceAgrees(b, requested) {
      AgreeingServiceKeepsContext(a, b, inputs.gppStatus, requested);
      SameContextDecides(w, inputs, others, x);
    } else {
      DecisionsDiffer(w, inputs, others, x, y);
      InvalidRequestDenies(w, others, y);
    }
  }
}
