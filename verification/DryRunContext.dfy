/** The context the release gate extracts from the payload of a dry run. */
module DryRunContext {
  import opened Text
  import opened Json
  import opened GateContext
  import opened GateDecision
  import opened GatePolicy
  import opened HighRiskDryRun
  import PathRules

  // ----- what the gate reads from the payload -----

  lemma FirstOfThree(v: Value)
    ensures FirstString([v, Null, Null]) == StringOf(v)
  {
    var three, two, one := [v, Null, Null], [Null, Null], [Null];
    assert three[1..] == two && two[1..] == one && one[1..] == [];
    assert FirstString(one) == None && FirstString(two) == None;
  }

  lemma FirstOfTwo(v: Value)
    ensures FirstString([v, Null]) == StringOf(v)
  {
    var two, one := [v, Null], [Null];
    assert two[1..] == one && one[1..] == [] && FirstString(one) == None;
  }

  lemma LastBool(b: bool)
    ensures FirstBool([Null, Null, Bool(b)]) == Some(b)
  {
    var three, two := [Null, Null, Bool(b)], [Null, Bool(b)];
    assert three[1..] == two && FirstBool(two[1..]) == Some(b) && FirstBool(two) == Some(b);
  }

  lemma NoObject()
    ensures FirstObject([Null, Null, Null, Null]) == map[]
  {
    var four, three, two, one := [Null, Null, Null, Null], [Null, Null, Null], [Null, Null], [Null];
    assert four[1..] == three && three[1..] == two && two[1..] == one && one[1..] == [];
    assert FirstObject(one) == map[] && FirstObject(two) == map[] && FirstObject(three) == map[];
  }

  /** No service-enriched context, no autonomous merge request, and no second place for a field. */
  ghost predicate Plain(root: Object) {
    && KReleaseGateContext !in root && KAoReleaseGate !in root && KVerifiedContext !in root && KAoKernel !in root
    && KLowRiskAutonomousMergeRequested !in root && KAoMa10AutonomousMergeRequested !in root
    && KRepositoryFullName !in root && KBaseRef !in root && KHeadRef !in root && KHeadSha !in root && KFromFork !in root
  }

  const PAYLOAD_KEYS: set<Key> := {
    KRepository, KPullRequest, KIssueUrl, KBranchUpToDate, KEventName, KReviewedSlice, KChangedPaths, KPrAuthor,
    KHumanReviews, KPathSensitiveHumanReviewEnabled, KAllowedPathPrefixes, KRequiredChecks,
    KForbiddenSecretContextDetected, KAdminBypassRequested, KPatBackedBotActor, KCodexOrClaudeReleaseAuthority,
    KLiveAdapterExecutionRequested }

  lemma KeysOfPayload(run: Run, l: Labels)
    ensures Payload(run, l).Keys == PAYLOAD_KEYS
  {
  }

  lemma KeysArePlain(root: Object)
    requires root.Keys == PAYLOAD_KEYS
    ensures Plain(root)
  {
  }

  /** The fields of the payload that vary. */
  ghost predicate Carries(root: Object, run: Run, l: Labels) {
    && Get(root, KRepository) == Dict(map[KFullName := Str(run.repository)])
    && Get(root, KPullRequest) == Dict(PullRequest(run, l))
    && Get(root, KIssueUrl) == Str(l.issueUrl)
    && Get(root, KEventName) == Str(l.event)
    && Get(root, KReviewedSlice) == Str(run.workPackage)
    && Get(root, KChangedPaths) == List(StrValues(run.changed))
    && Get(root, KAllowedPathPrefixes) == List(StrValues(l.prefixes))
    && Get(root, KRequiredChecks) == List(l.checks)
  }

  lemma PayloadCarries(run: Run, l: Labels)
    ensures Carries(Payload(run, l), run, l)
  {
  }

  /** The fields of the payload that do not. */
  ghost predicate Closed(root: Object) {
    && Get(root, KBranchUpToDate) == Get(root, KPathSensitiveHumanReviewEnabled) == TRUE
    && Get(root, KForbiddenSecretContextDetected) == Get(root, KAdminBypassRequested) == Get(root, KPatBackedBotActor)
       == Get(root, KCodexOrClaudeReleaseAuthority) == Get(root, KLiveAdapterExecutionRequested) == FALSE
  }

  lemma PayloadIsClosed(run: Run, l: Labels)
    ensures Closed(Payload(run, l))
  {
  }

  lemma NoService(root: Object)
    requires Plain(root)
    ensures ServiceContext(root) == map[] && RequestCandidates(root, map[]) == []
  {
    NoObject();
  }

  // the fields of the context, one reader at a time

  lemma PullRequestFields(root: Object, status: Value, ctx: Context)
    requires Plain(root) && ctx == ExtractContext(Dict(root), status)
    ensures var pr := AsDict(Get(root, KPullRequest));
      && ctx.repository == StringOf(Get(AsDict(Get(root, KRepository)), KFullName))
      && ctx.baseRef == NormalizeRef(StringOf(Get(AsDict(Get(pr, KBase)), KRef)))
      && ctx.headRef == NormalizeRef(StringOf(Get(AsDict(Get(pr, KHead)), KRef)))
      && ctx.headSha == StringOf(Get(AsDict(Get(pr, KHead)), KSha))
  {
    var pr := AsDict(Get(root, KPullRequest));
    NoService(root);
    FirstOfThree(Get(AsDict(Get(root, KRepository)), KFullName));
    FirstOfThree(Get(AsDict(Get(pr, KBase)), KRef));
    FirstOfThree(Get(AsDict(Get(pr, KHead)), KRef));
    FirstOfThree(Get(AsDict(Get(pr, KHead)), KSha));
  }

  lemma TextFields(root: Object, status: Value, ctx: Context)
    requires Plain(root) && ctx == ExtractContext(Dict(root), status)
    ensures ctx.issueUrl == StringOf(Get(root, KIssueUrl))
    ensures ctx.eventName == StringOf(Get(root, KEventName))
    ensures ctx.reviewedSlice == StringOf(Get(root, KReviewedSlice))
    ensures Get(AsDict(Get(root, KPullRequest)), KNumber).Int? ==> ctx.pullRequestNumber.Some?
    ensures ctx.autonomousMergeRequested == None && ctx.autonomousMergeRequestValid
  {
    NoService(root);
    FirstOfTwo(Get(root, KIssueUrl));
    FirstOfTwo(Get(root, KEventName));
    FirstOfTwo(Get(root, KReviewedSlice));
  }

  lemma FlagFields(root: Object, status: Value, ctx: Context)
    requires Plain(root) && Closed(root) && ctx == ExtractContext(Dict(root), status)
    ensures ctx.branchUpToDate == ctx.pathSensitiveHumanReviewEnabled == Some(true)
    ensures ctx.forbiddenSecretContextDetected == ctx.adminBypassRequested == ctx.patBackedBotActor
         == ctx.codexOrClaudeReleaseAuthority == ctx.liveAdapterExecutionRequested == Some(false)
  {
    NoService(root);
  }

  lemma ListFieldsRead(root: Object, status: Value, ctx: Context)
    requires Plain(root) && ctx == ExtractContext(Dict(root), status)
    ensures ctx.changedPaths == Strings(Get(root, KChangedPaths))
    ensures ctx.highRiskChangedPaths == PathRules.HighRiskPaths(ctx.changedPaths)
    ensures ctx.allowedPathPrefixes == Strings(Get(root, KAllowedPathPrefixes))
    ensures Truthy(Get(root, KRequiredChecks)) ==> ctx.requiredChecks == NormalChecks(AsList(Get(root, KRequiredChecks)))
  {
    NoService(root);
  }

  lemma CleanListRead(v: Value, ss: seq<string>)
    requires v == List(StrValues(ss)) && AllClean(ss)
    ensures Strings(v) == ss
  {
    StringsOfStrValues(ss);
  }

  lemma ListFields(root: Object, status: Value, ctx: Context, changed: seq<string>, prefixes: seq<string>, checks: seq<Value>)
    requires Plain(root) && ctx == ExtractContext(Dict(root), status)
    requires Get(root, KChangedPaths) == List(StrValues(changed)) && AllClean(changed)
    requires Get(root, KAllowedPathPrefixes) == List(StrValues(prefixes)) && AllClean(prefixes)
    requires Get(root, KRequiredChecks) == List(checks) && checks != []
    ensures ctx.changedPaths == changed && ctx.highRiskChangedPaths == PathRules.HighRiskPaths(changed)
    ensures ctx.allowedPathPrefixes == prefixes
    ensures ctx.requiredChecks == NormalChecks(checks)
  {
    ListFieldsRead(root, status, ctx);
    CleanListRead(Get(root, KChangedPaths), changed);
    CleanListRead(Get(root, KAllowedPathPrefixes), prefixes);
  }

  lemma ForkField(root: Object, status: Value, ctx: Context)
    requires Plain(root) && ctx == ExtractContext(Dict(root), status)
    requires Get(AsDict(Get(AsDict(Get(AsDict(Get(root, KPullRequest)), KHead)), KRepo)), KFork) == FALSE
    ensures ctx.fromFork == Some(false)
  {
    NoService(root);
    LastBool(false);
  }

  lemma StatusFields(payload: Value, status: Object, ctx: Context)
    requires ctx == ExtractContext(payload, Dict(status))
    ensures var work := AsDict(Get(status, KCurrentWp));
      && ctx.gppCurrentWpId == StringOf(Get(work, KId)) && ctx.gppCurrentWpStatus == StringOf(Get(work, KStatus))
      && ctx.gppCurrentWpIssue == StringOf(Get(work, KIssue))
    ensures ctx.gppSupportWideningAllowed == BoolOf(Get(status, KSupportWideningAllowed))
    ensures ctx.gppProductionPlatformClaimAllowed == BoolOf(Get(status, KProductionPlatformClaimAllowed))
    ensures ctx.gppLiveAdapterExecutionAllowed == BoolOf(Get(status, KLiveAdapterExecutionAllowed))
  {
  }

  lemma StatusOf(l: Labels)
    ensures var status := GppStatus(l);
      var work := AsDict(Get(status, KCurrentWp));
      && Get(work, KId) == Str(l.workId) && Get(work, KStatus) == Str(l.workStatus) && Get(work, KIssue) == Str(l.issueUrl)
      && Get(status, KSupportWideningAllowed) == Get(status, KProductionPlatformClaimAllowed)
         == Get(status, KLiveAdapterExecutionAllowed) == FALSE
  {
  }

  // ----- the context of a run -----

  /** What the gate extracts that varies from run to run. */
  ghost predicate Identity(run: Run, l: Labels, ctx: Context) {
    && ctx.repository == StringOf(Str(run.repository))
    && ctx.baseRef == NormalizeRef(StringOf(Str(l.baseRef)))
    && ctx.headRef == NormalizeRef(StringOf(Str(RemoveAll(run.headRef, HEADS))))
    && ctx.headSha == StringOf(Str(run.headSha))
    && ctx.reviewedSlice == StringOf(Str(run.workPackage))
    && ctx.changedPaths == run.changed && ctx.highRiskChangedPaths == PathRules.HighRiskPaths(run.changed)
    && ctx.allowedPathPrefixes == l.prefixes
  }

  ghost predicate Constant(l: Labels, ctx: Context) {
    && ctx.pullRequestNumber.Some? && ctx.issueUrl == ctx.gppCurrentWpIssue == StringOf(Str(l.issueUrl))
    && ctx.eventName == StringOf(Str(l.event))
    && ctx.requiredChecks == NormalChecks(l.checks)
    && ctx.gppCurrentWpId == StringOf(Str(l.workId)) && ctx.gppCurrentWpStatus == StringOf(Str(l.workStatus))
    && ctx.branchUpToDate == Some(true) && ctx.fromFork == Some(false)
    && ctx.autonomousMergeRequested == None && ctx.autonomousMergeRequestValid
    && BoundariesClosed(ctx)
  }

  /** What is always true of the changed files and of the labels. */
  ghost predicate AllClean(ss: seq<string>) {
    forall i | 0 <= i < |ss| :: Clean(ss[i])
  }

  lemma HeadOf(run: Run, l: Labels)
    ensures var pr := PullRequest(run, l);
      && Get(pr, KNumber) == Int(0) && Get(AsDict(Get(pr, KBase)), KRef) == Str(l.baseRef)
      && Get(AsDict(Get(pr, KHead)), KRef) == Str(RemoveAll(run.headRef, HEADS))
      && Get(AsDict(Get(pr, KHead)), KSha) == Str(run.headSha)
      && Get(AsDict(Get(AsDict(Get(pr, KHead)), KRepo)), KFork) == FALSE
  {
  }

  lemma IdentityOf(run: Run, l: Labels, root: Object, status: Value, ctx: Context)
    requires Plain(root) && Carries(root, run, l) && ctx == ExtractContext(Dict(root), status)
    requires AllClean(run.changed) && AllClean(l.prefixes) && l.checks != []
    ensures Identity(run, l, ctx)
  {
    HeadOf(run, l);
    PullRequestFields(root, status, ctx);
    TextFields(root, status, ctx);
    ListFields(root, status, ctx, run.changed, l.prefixes, l.checks);
  }

  lemma ConstantOf(run: Run, l: Labels, root: Object, ctx: Context)
    requires Plain(root) && Carries(root, run, l) && Closed(root) && ctx == ExtractContext(Dict(root), Dict(GppStatus(l)))
    requires AllClean(run.changed) && AllClean(l.prefixes) && l.checks != []
    ensures Constant(l, ctx)
  {
    HeadOf(run, l);
    TextFields(root, Dict(GppStatus(l)), ctx);
    FlagFields(root, Dict(GppStatus(l)), ctx);
    ForkField(root, Dict(GppStatus(l)), ctx);
    StatusOf(l);
    StatusFields(Dict(root), GppStatus(l), ctx);
    ListFields(root, Dict(GppStatus(l)), ctx, run.changed, l.prefixes, l.checks);
  }

  // ----- the labels -----

  lemma CleanConstants()
    ensures Clean("completed") && Clean("success") && Clean("lint") && Clean("test (3.13)") && Clean(CHECK_NAME)
    ensures "lint" != CHECK_NAME
  {
  }

  lemma CheckRecord(raw: Object, name: string, status: string, conclusion: string)
    requires Clean(name) && Clean(status) && Clean(conclusion)
    requires Get(raw, KName) == Str(name) && Get(raw, KStatus) == Str(status) && Get(raw, KConclusion) == Str(conclusion)
    ensures NormalCheck(Dict(raw)) == Some(InputCheck(name, Some(status), Some(conclusion)))
  {
    StringOfClean(name);
    StringOfClean(status);
    StringOfClean(conclusion);
  }

  lemma GreenCheckNormal(name: string)
    requires Clean(name) && Clean("completed") && Clean("success")
    ensures NormalCheck(GreenCheck(name)) == Some(InputCheck(name, Some("completed"), Some("success")))
  {
    CheckRecord(GreenCheck(name).fields, name, "completed", "success");
  }

  /** The platform's lower-casing leaves lower-case words alone. */
  predicate LowerFixes(w: World) {
    w.lower("completed") == "completed" && w.lower("success") == "success"
  }

  lemma ThreeNormal(a: Value, b: Value, c: Value)
    requires NormalCheck(a).Some? && NormalCheck(b).Some? && NormalCheck(c).Some?
    ensures NormalChecks([a, b, c]) == [NormalCheck(a).value, NormalCheck(b).value, NormalCheck(c).value]
  {
    var three, two, one := [a, b, c], [b, c], [c];
    assert three[1..] == two && two[1..] == one && one[1..] == [];
    assert NormalChecks(one) == [NormalCheck(c).value];
    assert NormalChecks(two) == [NormalCheck(b).value, NormalCheck(c).value];
  }

  predicate AsGreen(check: InputCheck, name: string) {
    check == InputCheck(name, Some("completed"), Some("success"))
  }

  lemma GreenMeansGreen(w: World, check: InputCheck, name: string)
    requires LowerFixes(w) && AsGreen(check, name)
    ensures Succeeded(w, check) && check.name == name
  {
  }

  lemma NormalIsGreen(name: string)
    requires Clean(name)
    ensures NormalCheck(GreenCheck(name)).Some? && AsGreen(NormalCheck(GreenCheck(name)).value, name)
  {
    CleanConstants();
    GreenCheckNormal(name);
  }

  lemma ThreeGreen(w: World, ctx: Context, a: InputCheck, b: InputCheck, c: InputCheck)
    requires ctx.requiredChecks == [a, b, c] && Succeeded(w, a) && Succeeded(w, b) && Succeeded(w, c) && a.name != CHECK_NAME
    ensures OtherChecksGreen(w, ctx)
  {
    assert ctx.requiredChecks[0] in ctx.requiredChecks;
  }

  lemma NamedChecksAreGreen(w: World, ctx: Context, a: string, b: string, c: string)
    requires LowerFixes(w) && Clean(a) && Clean(b) && Clean(c) && a != CHECK_NAME
    requires ctx.requiredChecks == NormalChecks([GreenCheck(a), GreenCheck(b), GreenCheck(c)])
    ensures OtherChecksGreen(w, ctx)
  {
    NormalIsGreen(a);
    NormalIsGreen(b);
    NormalIsGreen(c);
    ThreeNormal(GreenCheck(a), GreenCheck(b), GreenCheck(c));
    var x, y, z := NormalCheck(GreenCheck(a)).value, NormalCheck(GreenCheck(b)).value, NormalCheck(GreenCheck(c)).value;
    GreenMeansGreen(w, x, a);
    GreenMeansGreen(w, y, b);
    GreenMeansGreen(w, z, c);
    ThreeGreen(w, ctx, x, y, z);
  }

  lemma ChecksAreGreen(w: World, ctx: Context)
    requires LowerFixes(w) && ctx.requiredChecks == NormalChecks(GreenChecks())
    ensures OtherChecksGreen(w, ctx)
  {
    CleanConstants();
    NamedChecksAreGreen(w, ctx, "lint", "test (3.13)", CHECK_NAME);
  }

  ghost predicate CleanLabels(l: Labels) {
    && Clean(l.issueUrl) && Clean(l.baseRef) && Clean(l.event) && Clean(l.workId) && Clean(l.workStatus)
    && AllClean(l.prefixes) && l.prefixes != []
  }
}
