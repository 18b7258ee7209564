/** What the release gate decides: one declarative policy that is equivalent to its allow, and
    what each evaluator accepts. */
module GatePolicy {
  import opened Text
  import opened Json
  import opened GateContext
  import opened GateEvidence
  import opened GateDecision
  import opened PathForms
  import DiffDigest
  import PathRules

  // ----- the policy -----

  ghost predicate TrustedContext(payload: Value, ctx: Context) {
    && payload.Dict?
    && ctx.repository == Some("Halildeu/ao-kernel") && ctx.baseRef == Some("main")
    && ctx.pullRequestNumber.Some? && ctx.headSha.Some? && ctx.issueUrl.Some?
    && ctx.branchUpToDate == Some(true) && ctx.fromFork == Some(false)
    && ctx.eventName != Some("pull_request_target")
  }

  /** A check that is over and ended with success. */
  ghost predicate Succeeded(w: World, c: InputCheck) {
    && (w.lower(c.status.GetOr("")) == "completed" || w.lower(c.status.GetOr("")) == "success")
    && w.lower(c.conclusion.GetOr("")) == "success"
  }

  /** Some check other than the gate's own is reported, and all of them succeeded. */
  ghost predicate OtherChecksGreen(w: World, ctx: Context) {
    && (exists c | c in ctx.requiredChecks :: c.name != "ao-release-gate")
    && (forall c | c in ctx.requiredChecks :: c.name != "ao-release-gate" ==> Succeeded(w, c))
  }

  /** Something was changed, and nothing outside the allowlist. */
  ghost predicate InScope(ctx: Context) {
    && ctx.changedPaths != []
    && forall i | 0 <= i < |ctx.changedPaths| :: InsideOne(ctx.changedPaths[i], ctx.allowedPathPrefixes)
  }

  /** Someone other than the author approved the head commit. */
  ghost predicate ApprovedByAnother(w: World, ctx: Context) {
    exists r :: r in ctx.humanReviews && ctx.prAuthor.Some? && ctx.headSha.Some? && r.author.Some?
      && w.lower(r.author.value) != w.lower(ctx.prAuthor.value) && r.commitOid == ctx.headSha
      && w.upper(r.state.GetOr("")) == "APPROVED"
  }

  ghost predicate BoundariesClosed(ctx: Context) {
    && ctx.gppSupportWideningAllowed == ctx.gppProductionPlatformClaimAllowed
       == ctx.gppLiveAdapterExecutionAllowed == Some(false)
    && ctx.forbiddenSecretContextDetected == ctx.adminBypassRequested == ctx.patBackedBotActor
       == ctx.codexOrClaudeReleaseAuthority == ctx.liveAdapterExecutionRequested == Some(false)
  }

  ghost predicate GovernedWork(ctx: Context) {
    && ctx.gppCurrentWpId.Some? && ctx.gppCurrentWpStatus.Some?
    && ctx.issueUrl.Some? && ctx.gppCurrentWpIssue == ctx.issueUrl
  }

  /** Review evidence that says the operator may merge. */
  ghost predicate MayBeMerged(ev: Object) {
    && Get(ev, KSchemaVersion) == Str("local-gpp-gate-evidence.v1")
    && Get(ev, KDecision) == Str("operator_may_merge") && Get(ev, KGpp2Status) == Str("closed")
    && (exists repo :: repo != "" && Get(ev, KRepo) == Str(repo))
    && (exists slice :: slice != "" && Get(ev, KWorkPackage) == Str(slice))
    && Get(ev, KChecks).Dict?
    && Get(Get(ev, KChecks).fields, KReviewerAgree) == Get(Get(ev, KChecks).fields, KCrossProviderVerified) == Bool(true)
    && Get(ev, KSupportWidening) == Get(ev, KProductionPlatformClaim) == Get(ev, KLiveAdapterExecution) == Bool(false)
  }

  /** A JSON number, or a bool in its place, that counts `n` in Python's eyes. */
  ghost predicate Counts(v: Value, n: nat) {
    v == Int(n) || v == Float(n as real) || (v == Bool(true) && n == 1) || (v == Bool(false) && n == 0)
  }

  ghost predicate Says(d: Object, k: Key, s: Option<string>) {
    s.Some? && Get(d, k) == Str(s.value)
  }

  /** A binding to the head commit and to the diff, told by its digest and the number of its files. */
  ghost predicate TiedToDiff(w: World, binding: Object, ctx: Context) {
    && Says(binding, KHeadSha, ctx.headSha)
    && Says(binding, KDiffDigest, Some(Digest(w, ctx.changedPaths)))
    && Counts(Get(binding, KChangedFilesCount), |ctx.changedPaths|)
  }

  /** Accepting review evidence bound to this pull request. */
  ghost predicate AcceptedReview(w: World, evidence: Value, ctx: Context) {
    && evidence.Dict? && w.localGateSchema(evidence) && MayBeMerged(evidence.fields)
    && Says(evidence.fields, KRepo, ctx.repository) && Says(evidence.fields, KWorkPackage, ctx.reviewedSlice)
    && Get(evidence.fields, KContextBinding).Dict?
    && TiedToDiff(w, Get(evidence.fields, KContextBinding).fields, ctx)
  }

  /** The lane of disposable smoke evidence: asked for, by one of two actors, markdown files of its
      directory and nothing else. */
  ghost predicate SmokeLane(w: World, ctx: Context) {
    && ctx.autonomousMergeRequestValid && ctx.autonomousMergeRequested == Some(true)
    && (w.lower(ctx.prAuthor.GetOr("")) == "gladyatore-lab" || w.lower(ctx.prAuthor.GetOr("")) == "halildeu")
    && ctx.changedPaths != [] && ctx.highRiskChangedPaths == []
    && forall i | 0 <= i < |ctx.changedPaths| :: SmokeFile(ctx.changedPaths[i])
  }

  /** The name of a branch, without a leading "refs/heads/" and then without a leading "origin/". */
  ghost function Branch(v: Value): Option<string> {
    if !v.Str? || Strip(v.s) == "" then None
    else
      var s := Strip(v.s);
      var t := if StartsWith(s, "refs/heads/") then s[11..] else s;
      Some(if StartsWith(t, "origin/") then t[7..] else t)
  }

  ghost predicate SameBranch(v: Value, ref: Option<string>) {
    ref.Some? && Branch(v) == Branch(Str(ref.value))
  }

  /** A binding to this pull request. */
  ghost predicate TiedToChange(w: World, binding: Object, ctx: Context) {
    && Says(binding, KRepositoryFullName, ctx.repository)
    && SameBranch(Get(binding, KBaseRef), ctx.baseRef) && SameBranch(Get(binding, KHeadRef), ctx.headRef)
    && TiedToDiff(w, binding, ctx)
  }

  /** And to its high-risk paths, in any order. */
  ghost predicate TiedToHighRisk(w: World, binding: Object, ctx: Context) {
    TiedToChange(w, binding, ctx) && multiset(Strings(Get(binding, KHighRiskChangedPaths))) == multiset(ctx.highRiskChangedPaths)
  }

  /** The record claims no authority beyond its own. */
  ghost predicate ClaimsNothing(ev: Object) {
    && Get(ev, KReleaseAuthority) == Str("ao-release-gate+github-ruleset")
    && Get(ev, KAiOutputReleaseAuthority) == Get(ev, KMutationsPerformed) == Get(ev, KSecretsRecorded) == Bool(false)
    && var flags := AsDict(Get(ev, KGuardFlags));
       Get(flags, KSupportWidening) == Get(flags, KProductionPlatformClaim) == Get(flags, KLiveAdapterExecution) == Bool(false)
  }

  ghost predicate AllAgree(ev: Object) {
    && Get(ev, KConsensusStatus) == Str("AGREE")
    && forall v | v in AsList(Get(ev, KProviderVerdicts)) :: v.Dict? && Get(v.fields, KVerdict) == Str("AGREE")
  }

  /** A value that cannot be put into a set. */
  ghost predicate Unhashable(v: Value) {
    v.List? || v.Dict?
  }

  ghost predicate NoneUnhashable(vs: seq<Value>) {
    forall i | 0 <= i < |vs| :: !Unhashable(vs[i])
  }

  /** The verdicts are of providers that all differ, and each required provider is among them. */
  ghost predicate ProvidersCover(ev: Object) {
    var ids := ProviderIds(AsList(Get(ev, KProviderVerdicts)));
    && NoneUnhashable(ids)
    && (forall i, j | 0 <= i < j < |ids| :: !PyEq(ids[i], ids[j]))
    && (forall p | Str(p) in AsList(Get(ev, KRequiredReviewerProviders)) :: Str(p) in ids)
  }

  /** A bundle whose providers all agree, are distinct and cover the required ones. */
  ghost predicate AcceptedBundle(w: World, bundle: Value, ctx: Context) {
    && bundle.Dict? && w.bundleSchema(bundle)
    && ClaimsNothing(bundle.fields) && ProvidersCover(bundle.fields) && AllAgree(bundle.fields)
    && Get(bundle.fields, KContextBinding).Dict?
    && TiedToChange(w, Get(bundle.fields, KContextBinding).fields, ctx)
  }

  ghost predicate NoneOrAgree(v: Value) {
    v == Null || v == Str("AGREE")
  }

  ghost predicate NoDissent(ev: Object) {
    && NoneOrAgree(Get(ev, KConsensusStatus))
    && forall v | v in AsList(Get(ev, KProviderVerdicts)) :: v.Dict? ==> NoneOrAgree(Get(v.fields, KVerdict))
  }

  /** Where the record speaks of a boundary it says that it is closed. */
  ghost predicate Keeps(d: Object, k: Key, closed: Value) {
    k in d ==> d[k] == closed
  }

  ghost predicate OpensNothing(ev: Object) {
    && RecordOpensNothing(ev)
    && forall v | v in AsList(Get(ev, KProviderVerdicts)) :: v.Dict? ==> VerdictOpensNothing(v.fields)
  }

  ghost predicate RecordOpensNothing(ev: Object) {
    var flags := AsDict(Get(ev, KGuardFlags));
    && Keeps(ev, KReleaseAuthority, Str("ao-release-gate+github-ruleset"))
    && Keeps(ev, KAiOutputReleaseAuthority, Bool(false)) && Keeps(ev, KMutationsPerformed, Bool(false))
    && Keeps(ev, KSecretsRecorded, Bool(false)) && Keeps(flags, KSupportWidening, Bool(false))
    && Keeps(flags, KProductionPlatformClaim, Bool(false)) && Keeps(flags, KLiveAdapterExecution, Bool(false))
  }

  ghost predicate VerdictOpensNothing(v: Object) {
    && Keeps(v, KReleaseAuthority, Str("ao-release-gate+github-ruleset"))
    && Keeps(v, KAiOutputReleaseAuthority, Bool(false)) && Keeps(v, KSecretsRecorded, Bool(false))
    && Keeps(v, KSupportWidening, Bool(false)) && Keeps(v, KProductionPlatformClaim, Bool(false))
    && Keeps(v, KLiveAdapterExecution, Bool(false))
  }

  /** Between two texts that stand for times there are at least 0 and at most `maxAge` seconds. */
  ghost predicate NotOlder(w: World, generatedAt: string, now: string, maxAge: int) {
    && maxAge > 0 && Strip(generatedAt) != "" && Strip(now) != ""
    && w.instant(Strip(generatedAt)).Some? && w.instant(Strip(now)).Some?
    && 0.0 <= w.instant(Strip(now)).value - w.instant(Strip(generatedAt)).value <= maxAge as real
  }

  ghost predicate Recent(w: World, ev: Object, now: string) {
    exists made, maxAge | Get(ev, KGeneratedAt) == Str(made) && NotOlder(w, made, now, maxAge) ::
      var stated := Get(AsDict(Get(ev, KFreshness)), KMaxAgeSeconds);
      stated == Int(maxAge) || (stated == Bool(true) && maxAge == 1)
  }

  /** The providers that have to review what an implementer made. */
  ghost function Reviewers(implementer: string): (string, string) {
    if implementer == "openai" then ("anthropic", "minimax")
    else if implementer == "anthropic" then ("openai", "minimax")
    else ("openai", "anthropic")
  }

  ghost predicate IsQuorum(ids: seq<Value>, implementer: string) {
    var (a, b) := Reviewers(implementer);
    ids == [Str(a), Str(b)] || ids == [Str(b), Str(a)]
  }

  ghost predicate NamesQuorum(v: Value, implementer: string) {
    var (a, b) := Reviewers(implementer);
    v.List? && Str(a) in v.items && Str(b) in v.items
    && forall x | x in v.items && x.Str? :: x == Str(a) || x == Str(b)
  }

  ghost predicate AllTied(w: World, verdicts: seq<Value>, ctx: Context) {
    forall v | v in verdicts && v.Dict? :: TiedToHighRisk(w, AsDict(Get(v.fields, KContextBinding)), ctx)
  }

  /** Supersession evidence that can stand for a human approval of this pull request. */
  ghost predicate ValidSupersession(w: World, evidence: Value, ctx: Context, now: string) {
    && evidence.Dict? && w.supersessionSchema(evidence)
    && OpensNothing(evidence.fields)
    && NoDissent(evidence.fields)
    && Recent(w, evidence.fields, now)
    && var implementer := Get(evidence.fields, KImplementerProvider);
       var verdicts := AsList(Get(evidence.fields, KProviderVerdicts));
       && implementer.Str?
       && IsQuorum(ProviderIds(verdicts), implementer.s)
       && NamesQuorum(Get(evidence.fields, KReviewerProviders), implementer.s)
       && NamesQuorum(Get(evidence.fields, KRequiredReviewerProviders), implementer.s)
       && Get(evidence.fields, KContextBinding).Dict?
       && TiedToHighRisk(w, Get(evidence.fields, KContextBinding).fields, ctx)
       && AllTied(w, verdicts, ctx)
  }

  ghost predicate Policy(w: World, inputs: Inputs) {
    var ctx := ExtractContext(inputs.payload, inputs.gppStatus);
    PolicyFor(w, inputs, ctx)
  }

  ghost predicate PolicyFor(w: World, inputs: Inputs, ctx: Context) {
    && TrustedContext(inputs.payload, ctx)
    && OtherChecksGreen(w, ctx)
    && GovernedWork(ctx)
    && BoundariesClosed(ctx)
    && InScope(ctx)
    // the change was reviewed, or is confined to the smoke lane
    && (AcceptedReview(w, inputs.reviewEvidence, ctx)
        || (!inputs.reviewEvidence.Dict? && SmokeLane(w, ctx)))
    // an autonomous merge needs an agreeing bundle outside the smoke lane
    && ctx.autonomousMergeRequestValid
    && (AcceptedBundle(w, inputs.bundle, ctx)
        || (inputs.bundle.Null? && (ctx.autonomousMergeRequested != Some(true) || SmokeLane(w, ctx))))
    // supersession evidence is optional but never ignored
    && (inputs.supersession.Null? || ValidSupersession(w, inputs.supersession, ctx, inputs.now))
    // a high-risk change needs a human approval or that evidence
    && (ctx.pathSensitiveHumanReviewEnabled == Some(true) && ctx.highRiskChangedPaths != [] ==>
          inputs.supersession.Dict? || ApprovedByAnother(w, ctx))
  }

  // ----- the tests of the gate are the conditions of the policy -----

  lemma ScopeIs(ctx: Context)
    ensures DiffInScope(ctx) <==> InScope(ctx)
  {
    forall i | 0 <= i < |ctx.changedPaths|
      ensures PathRules.PathAllowed(ctx.changedPaths[i], ctx.allowedPathPrefixes) <==>
              InsideOne(ctx.changedPaths[i], ctx.allowedPathPrefixes)
    {
      PathAllowedMeans(ctx.changedPaths[i], ctx.allowedPathPrefixes);
    }
    if InScope(ctx) {
      assert InsideOne(ctx.changedPaths[0], ctx.allowedPathPrefixes);
    }
  }

  lemma ApprovalIs(w: World, ctx: Context)
    ensures HasNonAuthorApproval(w, ctx) <==> ApprovedByAnother(w, ctx)
  {
    if HasNonAuthorApproval(w, ctx) {
      var i :| 0 <= i < |ctx.humanReviews| && Approves(w, ctx.humanReviews[i], ctx.prAuthor.value, ctx.headSha);
      assert ctx.humanReviews[i] in ctx.humanReviews;
    }
  }

  lemma ProfileIs(ev: Object)
    ensures AcceptanceProfile(ev) <==> MayBeMerged(ev)
  {
  }

  lemma CountsIs(v: Value, n: nat)
    ensures CountIs(v, n) <==> Counts(v, n)
  {
  }

  lemma ReviewTied(w: World, ev: Object, binding: Object, ctx: Context)
    ensures ReviewBindingMatches(w, ev, binding, ctx) <==>
            Says(ev, KRepo, ctx.repository) && Says(ev, KWorkPackage, ctx.reviewedSlice) && TiedToDiff(w, binding, ctx)
  {
    CountsIs(Get(binding, KChangedFilesCount), |ctx.changedPaths|);
  }

  lemma ActorIs(w: World, ctx: Context)
    ensures SmokeActor(w, ctx) <==>
            w.lower(ctx.prAuthor.GetOr("")) == "gladyatore-lab" || w.lower(ctx.prAuthor.GetOr("")) == "halildeu"
  {
  }

  lemma SmokeIs(w: World, ctx: Context)
    ensures SmokeScope(w, ctx) <==> SmokeLane(w, ctx)
  {
    forall i | 0 <= i < |ctx.changedPaths|
      ensures PathRules.IsSmokePath(ctx.changedPaths[i]) <==> SmokeFile(ctx.changedPaths[i])
    {
      SmokePathMeans(ctx.changedPaths[i]);
    }
    ActorIs(w, ctx);
  }

  lemma BranchIs(v: Value)
    ensures NormalizeBindingRef(v) == Branch(v)
  {
    assert |HEADS| == 11 && |ORIGIN| == 7;
  }

  lemma ChangeTied(w: World, binding: Object, ctx: Context)
    ensures BindingMatches(w, binding, ctx) <==> TiedToChange(w, binding, ctx)
  {
    BranchIs(Get(binding, KBaseRef));
    BranchIs(Get(binding, KHeadRef));
    BranchIs(Str(ctx.baseRef.GetOr("")));
    BranchIs(Str(ctx.headRef.GetOr("")));
    CountsIs(Get(binding, KChangedFilesCount), |ctx.changedPaths|);
  }

  lemma HighRiskTied(w: World, binding: Object, ctx: Context)
    ensures SupersessionBindingMatches(w, binding, ctx) <==> TiedToHighRisk(w, binding, ctx)
  {
    ChangeTied(w, binding, ctx);
    DiffDigest.SortedIsCanonical(Strings(Get(binding, KHighRiskChangedPaths)), ctx.highRiskChangedPaths);
  }

  lemma ClosedIs(ev: Object)
    ensures AuthorityClosed(ev) <==> ClaimsNothing(ev)
  {
  }

  lemma AgreesIs(ev: Object)
    ensures BundleAgrees(ev) <==> AllAgree(ev)
  {
    var verdicts := Verdicts(ev);
    if BundleAgrees(ev) {
      forall v | v in verdicts ensures v.Dict? && Get(v.fields, KVerdict) == Str("AGREE") {
        var i :| 0 <= i < |verdicts| && verdicts[i] == v;
        assert VerdictAgrees(verdicts[i]);
      }
    }
    if AllAgree(ev) {
      forall i | 0 <= i < |verdicts| ensures VerdictAgrees(verdicts[i]) {
        assert verdicts[i] in verdicts;
      }
    }
  }

  lemma {:induction false} StrItemsMean(vs: seq<Value>, v: Value)
    ensures v in StrItems(vs) <==> v in vs && v.Str?
  {
    if vs != [] {
      StrItemsMean(vs[1..], v);
    }
  }

  lemma StringIsMember(s: string, vs: seq<Value>)
    ensures Member(Str(s), vs) <==> Str(s) in vs
  {
    forall i | 0 <= i < |vs| ensures PyEq(Str(s), vs[i]) <==> vs[i] == Str(s) {
    }
  }

  lemma CoverIs(ev: Object)
    ensures AllHashable(ProviderIds(Verdicts(ev))) && BundleProvidersMet(ev) <==> ProvidersCover(ev)
  {
    var ids, listed := ProviderIds(Verdicts(ev)), AsList(Get(ev, KRequiredReviewerProviders));
    var required := StrItems(listed);
    forall p: string ensures Str(p) in required <==> Str(p) in listed {
      StrItemsMean(listed, Str(p));
    }
    forall p: string ensures Member(Str(p), ids) <==> Str(p) in ids {
      StringIsMember(p, ids);
    }
    forall i | 0 <= i < |required| ensures required[i].Str? {
      StrItemsMean(listed, required[i]);
    }
  }

  lemma RecordOpenIs(ev: Object)
    ensures AuthorityOpen(ev) <==> !RecordOpensNothing(ev)
  {
  }

  lemma VerdictOpenIs(v: Value)
    ensures VerdictAuthorityOpen(v) <==> v.Dict? && !VerdictOpensNothing(v.fields)
  {
  }

  lemma OpenIs(ev: Object)
    ensures SupersessionAuthorityIsOpen(ev) <==> !OpensNothing(ev)
  {
    var verdicts := Verdicts(ev);
    RecordOpenIs(ev);
    forall i | 0 <= i < |verdicts|
      ensures VerdictAuthorityOpen(verdicts[i]) <==> verdicts[i].Dict? && !VerdictOpensNothing(verdicts[i].fields)
      ensures verdicts[i] in verdicts
    {
      VerdictOpenIs(verdicts[i]);
    }
  }

  lemma TimelyIs(w: World, generatedAt: string, now: string, maxAge: int)
    ensures Timely(w, generatedAt, now, maxAge) <==> NotOlder(w, generatedAt, now, maxAge)
  {
  }

  lemma RecentIs(w: World, ev: Object, now: string)
    ensures Fresh(w, ev, now) <==> Recent(w, ev, now)
  {
    var generated, stated := Get(ev, KGeneratedAt), Get(AsDict(Get(ev, KFreshness)), KMaxAgeSeconds);
    if generated.Str? && IntOf(stated).Some? {
      TimelyIs(w, generated.s, now, IntOf(stated).value);
    }
    if Recent(w, ev, now) {
      var made, maxAge :| Get(ev, KGeneratedAt) == Str(made) && NotOlder(w, made, now, maxAge)
        && (stated == Int(maxAge) || (stated == Bool(true) && maxAge == 1));
      TimelyIs(w, made, now, maxAge);
    }
  }

  lemma QuorumIs(p: string)
    ensures Quorum(p) == [Reviewers(p).0, Reviewers(p).1]
  {
    var keep := x => x != p;
    assert POOL[1..] == ["anthropic", "minimax"] && POOL[1..][1..] == ["minimax"];
    assert PathRules.Filter(["minimax"], keep) == if p != "minimax" then ["minimax"] else [];
    assert "openai" != "anthropic" && "openai" != "minimax" && "anthropic" != "minimax";
  }

  // ----- checks and findings -----

  ghost predicate AllPass(checks: seq<Check>) {
    forall i | 0 <= i < |checks| :: checks[i].finding.None?
  }

  lemma {:induction false} NoFindingsWhenAllPass(checks: seq<Check>)
    ensures Findings(checks) == [] <==> AllPass(checks)
  {
    if checks != [] {
      NoFindingsWhenAllPass(checks[1..]);
      assert checks == [checks[0]] + checks[1..];
    }
  }

  lemma AllPassAppend(a: seq<Check>, b: seq<Check>)
    ensures AllPass(a + b) <==> AllPass(a) && AllPass(b)
  {
    if AllPass(a + b) {
      assert forall i | 0 <= i < |a| :: a[i] == (a + b)[i];
      assert forall i | 0 <= i < |b| :: b[i] == (a + b)[|a| + i];
    }
  }

  /** Only an empty list of findings allows: every finding denies. */
  lemma AllowWhenAllPass(checks: seq<Check>)
    ensures ResultOf(checks).allow <==> AllPass(checks)
  {
    NoFindingsWhenAllPass(checks);
  }

  // ----- required checks -----

  lemma {:induction false} OtherChecksMeans(checks: seq<InputCheck>, c: InputCheck)
    ensures c in OtherChecks(checks) <==> c in checks && c.name != CHECK_NAME
  {
    if checks != [] {
      OtherChecksMeans(checks[1..], c);
    }
  }

  lemma GreenMeans(w: World, ctx: Context)
    ensures RequiredChecksAreGreen(w, ctx.requiredChecks) <==> OtherChecksGreen(w, ctx)
  {
    var relevant := OtherChecks(ctx.requiredChecks);
    forall c: InputCheck ensures IsGreen(w, c) <==> Succeeded(w, c) {
    }
    forall c: InputCheck ensures c in relevant <==> c in ctx.requiredChecks && c.name != CHECK_NAME {
      OtherChecksMeans(ctx.requiredChecks, c);
    }
    if relevant != [] {
      assert relevant[0] in relevant;
    }
  }

  // ----- review and bundle -----

  lemma ReviewPasses(w: World, evidence: Value, ctx: Context)
    ensures AllPass(ReviewOrSmokeChecks(w, evidence, ctx)) <==>
            AcceptedReview(w, evidence, ctx) || (!evidence.Dict? && SmokeLane(w, ctx))
  {
    var checks := ReviewOrSmokeChecks(w, evidence, ctx);
    SmokeIs(w, ctx);
    if evidence.Dict? {
      ProfileIs(evidence.fields);
      ReviewTied(w, evidence.fields, AsDict(Get(evidence.fields, KContextBinding)), ctx);
    }
    assert |checks| == 2;
    assert AllPass(checks) <==> checks[0].finding.None? && checks[1].finding.None?;
  }

  lemma ClosedIsNotOpen(ev: Object)
    requires AuthorityClosed(ev)
    ensures !AuthorityOpen(ev)
  {
  }

  lemma SixPass(checks: seq<Check>)
    requires |checks| == 6
    ensures AllPass(checks) <==>
            && checks[0].finding.None? && checks[1].finding.None? && checks[2].finding.None?
            && checks[3].finding.None? && checks[4].finding.None? && checks[5].finding.None?
  {
  }

  lemma BundleObjectPasses(w: World, request: Check, ev: Object, ctx: Context)
    requires request.finding.None? <==> ctx.autonomousMergeRequestValid
    ensures var r := BundleObjectChecks(w, request, ev, ctx);
      r.Done? && AllPass(r.value) <==> ctx.autonomousMergeRequestValid && AcceptedBundle(w, Dict(ev), ctx)
  {
    ClosedIs(ev);
    if AuthorityClosed(ev) {
      ClosedIsNotOpen(ev);
    }
    CoverIs(ev);
    AgreesIs(ev);
    ChangeTied(w, AsDict(Get(ev, KContextBinding)), ctx);
    var r := BundleObjectChecks(w, request, ev, ctx);
    if r.Done? {
      SixPass(r.value);
    }
  }

  lemma BundlePasses(w: World, bundle: Value, ctx: Context)
    ensures BundleChecks(w, bundle, ctx).Done? && AllPass(BundleChecks(w, bundle, ctx).value) <==>
            && ctx.autonomousMergeRequestValid
            && (AcceptedBundle(w, bundle, ctx)
                || (bundle.Null? && (ctx.autonomousMergeRequested != Some(true) || SmokeLane(w, ctx))))
  {
    var request := CheckThat(AutonomousRequest, ctx.autonomousMergeRequestValid, AutonomousRequestInvalid);
    SmokeIs(w, ctx);
    if bundle.Dict? {
      BundleObjectPasses(w, request, bundle.fields, ctx);
      assert BundleChecks(w, bundle, ctx) == BundleObjectChecks(w, request, bundle.fields, ctx);
    } else {
      SixPass(BundleChecks(w, bundle, ctx).value);
    }
  }
}
