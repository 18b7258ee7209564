/** The release gate as a whole: allow is the policy, supersession evidence never weakens it, and
    bound evidence names the paths of the pull request. */
module GateTheorems {
  import opened Text
  import opened Json
  import opened GateContext
  import opened GateEvidence
  import opened GateDecision
  import opened GatePolicy
  import opened GateSupersession
  import opened PathRules
  import DiffDigest

  lemma ContextPasses(w: World, payload: Value, ctx: Context)
    ensures AllPass(ContextChecks(w, payload, ctx)) <==>
            && TrustedContext(payload, ctx) && OtherChecksGreen(w, ctx) && GovernedWork(ctx) && InScope(ctx)
            && ctx.gppSupportWideningAllowed == ctx.gppProductionPlatformClaimAllowed
               == ctx.gppLiveAdapterExecutionAllowed == Some(false)
  {
    GreenMeans(w, ctx);
    ScopeIs(ctx);
    var c := ContextChecks(w, payload, ctx);
    assert |c| == 14;
    assert AllPass(c) <==>
      && c[0].finding.None? && c[1].finding.None? && c[2].finding.None? && c[3].finding.None? && c[4].finding.None?
      && c[5].finding.None? && c[6].finding.None? && c[7].finding.None? && c[8].finding.None? && c[9].finding.None?
      && c[10].finding.None? && c[11].finding.None? && c[12].finding.None? && c[13].finding.None?;
  }

  lemma BoundaryPasses(w: World, ctx: Context, valid: bool)
    ensures AllPass(BoundaryChecks(w, ctx, valid)) <==>
            && (ctx.pathSensitiveHumanReviewEnabled == Some(true) && ctx.highRiskChangedPaths != [] ==>
                  valid || ApprovedByAnother(w, ctx))
            && ctx.forbiddenSecretContextDetected == ctx.adminBypassRequested == ctx.patBackedBotActor
               == ctx.codexOrClaudeReleaseAuthority == ctx.liveAdapterExecutionRequested == Some(false)
  {
    ApprovalIs(w, ctx);
    SixPass(BoundaryChecks(w, ctx, valid));
  }

  lemma FivePass(a: seq<Check>, b: seq<Check>, c: seq<Check>, d: seq<Check>, e: seq<Check>)
    ensures AllPass(a + b + c + d + e) <==> AllPass(a) && AllPass(b) && AllPass(c) && AllPass(d) && AllPass(e)
  {
    AllPassAppend(a + b + c + d, e);
    AllPassAppend(a + b + c, d);
    AllPassAppend(a + b, c);
    AllPassAppend(a, b);
  }

  /** The supersession part of the policy, in terms of the evaluator. */
  lemma SupersessionPasses(w: World, evidence: Value, ctx: Context, now: string)
    ensures var r := SupersessionChecks(w, evidence, ctx, now);
      && (r.Done? && AllPass(r.value.0) <==> evidence.Null? || ValidSupersession(w, evidence, ctx, now))
      && (r.Done? ==> (r.value.1 <==> ValidSupersession(w, evidence, ctx, now)))
  {
    SixChecksWhateverTheEvidence(w, evidence, ctx, now);
    FlagMeans(w, evidence, ctx, now);
    var stage := SupersessionStage(w, evidence, ctx, now);
    if evidence.Null? {
      StageChecksAreSix(Absent);
    }
  }

  ghost predicate Passes(checks: Outcome<seq<Check>>) {
    checks.Done? && AllPass(checks.value)
  }

  lemma ChecksPass(w: World, inputs: Inputs, ctx: Context)
    ensures Passes(ChecksOf(w, inputs, ctx)) <==> PolicyFor(w, inputs, ctx)
  {
    SupersessionPasses(w, inputs.supersession, ctx, inputs.now);
    BundlePasses(w, inputs.bundle, ctx);
    ReviewPasses(w, inputs.reviewEvidence, ctx);
    ContextPasses(w, inputs.payload, ctx);
    var s, b := SupersessionChecks(w, inputs.supersession, ctx, inputs.now), BundleChecks(w, inputs.bundle, ctx);
    if s.Done? && b.Done? {
      BoundaryPasses(w, ctx, s.value.1);
      FivePass(ContextChecks(w, inputs.payload, ctx), s.value.0, BoundaryChecks(w, ctx, s.value.1),
               ReviewOrSmokeChecks(w, inputs.reviewEvidence, ctx), b.value);
    }
  }

  ghost predicate Allowed(r: Outcome<GateResult>) {
    r.Done? && r.value.allow
  }

  ghost predicate Allows(w: World, inputs: Inputs) {
    Allowed(Decide(w, inputs))
  }

  lemma AllowedIn(w: World, inputs: Inputs, ctx: Context)
    ensures Allowed(DecideIn(w, inputs, ctx)) <==> PolicyFor(w, inputs, ctx)
  {
    ChecksPass(w, inputs, ctx);
    var checks := ChecksOf(w, inputs, ctx);
    if checks.Done? {
      AllowWhenAllPass(checks.value);
    }
  }

  /** Soundness and completeness: for every payload, status, evidence and platform, the gate
      allows exactly when the policy holds. */
  lemma AllowIffPolicy(w: World, inputs: Inputs)
    ensures Allows(w, inputs) <==> Policy(w, inputs)
  {
    AllowedIn(w, inputs, ExtractContext(inputs.payload, inputs.gppStatus));
  }

  /** Supersession evidence is never ignored and never weakens the gate: supplied evidence that is
      not valid denies, and valid evidence keeps every allow. */
  lemma SupersessionOnlyStrengthens(w: World, inputs: Inputs)
    ensures var ctx := ExtractContext(inputs.payload, inputs.gppStatus);
      && (!inputs.supersession.Null? && !ValidSupersession(w, inputs.supersession, ctx, inputs.now) ==> !Allows(w, inputs))
      && (ValidSupersession(w, inputs.supersession, ctx, inputs.now) && Allows(w, inputs.(supersession := Null)) ==>
            Allows(w, inputs))
  {
    AllowIffPolicy(w, inputs);
    AllowIffPolicy(w, inputs.(supersession := Null));
  }

  /** Evidence bound by a digest names the paths of the pull request: when the digest in a binding
      was taken over some list of one-line paths, that list is the changed paths reordered. */
  lemma BoundDigestNamesPaths(w: World, binding: Object, paths: seq<string>, ctx: Context)
    requires DiffDigest.Injective(w.hash)
    requires forall i | 0 <= i < |paths| :: DiffDigest.OneLine(paths[i])
    requires forall i | 0 <= i < |ctx.changedPaths| :: DiffDigest.OneLine(ctx.changedPaths[i])
    requires Get(binding, KDiffDigest) == Str(Digest(w, paths)) && TiedToChange(w, binding, ctx)
    ensures multiset(paths) == multiset(ctx.changedPaths)
  {
    DiffDigest.DigestIdentifiesPaths(w.hash, paths, ctx.changedPaths);
  }

  // ----- what an allow rests on -----

  /** Review evidence approves one change: two payloads it is allowed for have the same repository,
      head commit and reviewed slice, and the same changed paths. */
  lemma ReviewEvidenceApprovesOneChange(w: World, a: Inputs, b: Inputs)
    requires Allows(w, a) && Allows(w, b) && a.reviewEvidence == b.reviewEvidence && a.reviewEvidence.Dict?
    ensures var x, y := ExtractContext(a.payload, a.gppStatus), ExtractContext(b.payload, b.gppStatus);
      && x.repository == y.repository && x.headSha == y.headSha && x.reviewedSlice == y.reviewedSlice
      && Digest(w, x.changedPaths) == Digest(w, y.changedPaths)
      && (DiffDigest.Injective(w.hash) && OneLinePaths(x) && OneLinePaths(y) ==>
            multiset(x.changedPaths) == multiset(y.changedPaths))
  {
    AllowIffPolicy(w, a);
    AllowIffPolicy(w, b);
    var x, y := ExtractContext(a.payload, a.gppStatus), ExtractContext(b.payload, b.gppStatus);
    ReviewBindsOne(w, a.reviewEvidence, x, y);
    if DiffDigest.Injective(w.hash) && OneLinePaths(x) && OneLinePaths(y) {
      DiffDigest.DigestIdentifiesPaths(w.hash, x.changedPaths, y.changedPaths);
    }
  }

  ghost predicate OneLinePaths(ctx: Context) {
    forall i | 0 <= i < |ctx.changedPaths| :: DiffDigest.OneLine(ctx.changedPaths[i])
  }

  lemma ReviewBindsOne(w: World, evidence: Value, x: Context, y: Context)
    requires AcceptedReview(w, evidence, x) && AcceptedReview(w, evidence, y)
    ensures x.repository == y.repository && x.headSha == y.headSha && x.reviewedSlice == y.reviewedSlice
    ensures Digest(w, x.changedPaths) == Digest(w, y.changedPaths)
  {
  }

  /** So does supersession evidence, and for both payloads it names the same refs. */
  lemma SupersessionApprovesOneChange(w: World, a: Inputs, b: Inputs)
    requires Allows(w, a) && Allows(w, b) && a.supersession == b.supersession && a.supersession.Dict?
    ensures var x, y := ExtractContext(a.payload, a.gppStatus), ExtractContext(b.payload, b.gppStatus);
      && x.repository == y.repository && x.headSha == y.headSha && x.headRef.Some? && y.headRef.Some?
      && Branch(Str(x.headRef.value)) == Branch(Str(y.headRef.value))
      && Digest(w, x.changedPaths) == Digest(w, y.changedPaths)
      && multiset(x.highRiskChangedPaths) == multiset(y.highRiskChangedPaths)
  {
    AllowIffPolicy(w, a);
    AllowIffPolicy(w, b);
    var x, y := ExtractContext(a.payload, a.gppStatus), ExtractContext(b.payload, b.gppStatus);
    SupersessionBindsOne(w, a.supersession, x, y, a.now, b.now);
  }

  lemma SupersessionBindsOne(w: World, evidence: Value, x: Context, y: Context, now: string, later: string)
    requires ValidSupersession(w, evidence, x, now) && ValidSupersession(w, evidence, y, later)
    ensures x.repository == y.repository && x.headSha == y.headSha && x.headRef.Some? && y.headRef.Some?
    ensures Branch(Str(x.headRef.value)) == Branch(Str(y.headRef.value))
    ensures Digest(w, x.changedPaths) == Digest(w, y.changedPaths)
    ensures multiset(x.highRiskChangedPaths) == multiset(y.highRiskChangedPaths)
  {
    var binding := Get(evidence.fields, KContextBinding).fields;
    BindsOne(w, binding, x, y);
  }

  lemma BindsOne(w: World, binding: Object, x: Context, y: Context)
    requires TiedToHighRisk(w, binding, x) && TiedToHighRisk(w, binding, y)
    ensures x.repository == y.repository && x.headSha == y.headSha && x.headRef.Some? && y.headRef.Some?
    ensures Branch(Str(x.headRef.value)) == Branch(Str(y.headRef.value))
    ensures Digest(w, x.changedPaths) == Digest(w, y.changedPaths)
    ensures multiset(x.highRiskChangedPaths) == multiset(y.highRiskChangedPaths)
  {
  }

  /** Supersession evidence expires, and cannot be from the future: when a change is allowed, the
      time since the evidence was made is between zero and its maximum age. */
  lemma AllowedEvidenceIsYoung(w: World, inputs: Inputs, ev: Object, generatedAt: string, maxAge: int)
    requires Allows(w, inputs) && inputs.supersession == Dict(ev)
    requires Get(ev, KGeneratedAt) == Str(generatedAt) && Get(AsDict(Get(ev, KFreshness)), KMaxAgeSeconds) == Int(maxAge)
    ensures w.instant(Strip(generatedAt)).Some? && w.instant(Strip(inputs.now)).Some?
    ensures 0.0 <= w.instant(Strip(inputs.now)).value - w.instant(Strip(generatedAt)).value <= maxAge as real
  {
    AllowIffPolicy(w, inputs);
    ValidIsRecent(w, ev, ExtractContext(inputs.payload, inputs.gppStatus), inputs.now);
  }

  lemma ValidIsRecent(w: World, ev: Object, ctx: Context, now: string)
    requires ValidSupersession(w, Dict(ev), ctx, now)
    ensures Recent(w, ev, now)
  {
  }

  /** Two verdicts of the evidence, by providers other than the implementer and different from each
      other, are about this commit and do not dissent. */
  ghost predicate TwoIndependentVerdicts(ev: Object, ctx: Context) {
    var verdicts := AsList(Get(ev, KProviderVerdicts));
    exists i, j :: 0 <= i < |verdicts| && 0 <= j < |verdicts|
      && VerdictAbout(verdicts[i], ev, ctx) && VerdictAbout(verdicts[j], ev, ctx)
      && Get(verdicts[i].fields, KProviderId) != Get(verdicts[j].fields, KProviderId)
  }

  ghost predicate VerdictAbout(v: Value, ev: Object, ctx: Context) {
    && v.Dict? && ctx.headSha.Some? && NoneOrAgree(Get(v.fields, KVerdict))
    && Get(v.fields, KProviderId).Str? && Get(v.fields, KProviderId) != Get(ev, KImplementerProvider)
    && Get(AsDict(Get(v.fields, KContextBinding)), KHeadSha) == Str(ctx.headSha.value)
  }

  /** The verdict objects of a list, each with its provider and its binding. */
  lemma {:induction false} VerdictAt(verdicts: seq<Value>, k: nat) returns (i: nat)
    requires k < |ProviderIds(verdicts)| && |ProviderIds(verdicts)| == |ProviderBindings(verdicts)|
    ensures i < |verdicts| && verdicts[i].Dict?
    ensures ProviderIds(verdicts)[k] == Get(verdicts[i].fields, KProviderId)
    ensures ProviderBindings(verdicts)[k] == AsDict(Get(verdicts[i].fields, KContextBinding))
  {
    SameCounts(verdicts[1..]);
    if !verdicts[0].Dict? {
      i := VerdictAt(verdicts[1..], k);
      i := i + 1;
    } else if k == 0 {
      i := 0;
    } else {
      i := VerdictAt(verdicts[1..], k - 1);
      i := i + 1;
    }
  }

  lemma ValidHasTwoVerdicts(w: World, ev: Object, ctx: Context, now: string)
    requires ValidSupersession(w, Dict(ev), ctx, now)
    ensures TwoIndependentVerdicts(ev, ctx)
  {
    var implementer := Get(ev, KImplementerProvider).s;
    var verdicts := AsList(Get(ev, KProviderVerdicts));
    SameCounts(verdicts);
    PairAbout(ProviderIds(verdicts), implementer);
    var i := VerdictAt(verdicts, 0);
    var j := VerdictAt(verdicts, 1);
    TiedIsAbout(w, verdicts, i, ev, ctx);
    TiedIsAbout(w, verdicts, j, ev, ctx);
  }

  lemma TiedIsAbout(w: World, verdicts: seq<Value>, i: nat, ev: Object, ctx: Context)
    requires verdicts == AsList(Get(ev, KProviderVerdicts)) && i < |verdicts| && verdicts[i].Dict?
    requires AllTied(w, verdicts, ctx) && NoDissent(ev)
    requires Get(verdicts[i].fields, KProviderId).Str?
    requires Get(verdicts[i].fields, KProviderId) != Get(ev, KImplementerProvider)
    ensures VerdictAbout(verdicts[i], ev, ctx)
  {
    var v := verdicts[i];
    assert v in verdicts;
  }

  lemma PairAbout(ids: seq<Value>, implementer: string)
    requires IsQuorum(ids, implementer)
    ensures |ids| == 2 && ids[0].Str? && ids[1].Str? && ids[0] != ids[1]
    ensures ids[0] != Str(implementer) && ids[1] != Str(implementer)
  {
  }

  /** No high-risk change is allowed on its author's or its implementer's word: when the review of
      such paths is required, an allow rests on another person's approval of the head commit or on
      two different providers, neither the implementer, whose verdicts on that commit do not dissent. */
  lemma HighRiskIsReviewed(w: World, inputs: Inputs, path: string)
    requires Allows(w, inputs)
    requires ExtractContext(inputs.payload, inputs.gppStatus).pathSensitiveHumanReviewEnabled == Some(true)
    requires path in ExtractContext(inputs.payload, inputs.gppStatus).changedPaths && IsHighRisk(path)
    ensures var ctx := ExtractContext(inputs.payload, inputs.gppStatus);
      ApprovedByAnother(w, ctx) || (inputs.supersession.Dict? && TwoIndependentVerdicts(inputs.supersession.fields, ctx))
  {
    AllowIffPolicy(w, inputs);
    var ctx := ExtractContext(inputs.payload, inputs.gppStatus);
    HighRiskListed(inputs.payload, inputs.gppStatus, path);
    if inputs.supersession.Dict? {
      ValidHasTwoVerdicts(w, inputs.supersession.fields, ctx, inputs.now);
    } else {
    }
  }

  /** A supersession schema that requires the verdict of every provider record. */
  ghost predicate RequiresVerdicts(w: World) {
    forall ev: Object, v | w.supersessionSchema(Dict(ev)) && v in AsList(Get(ev, KProviderVerdicts)) && v.Dict? ::
      !Get(v.fields, KVerdict).Null?
  }

  /** Two different providers, neither the implementer, agreed to this commit. */
  ghost predicate TwoAgree(ev: Object, ctx: Context) {
    var verdicts := AsList(Get(ev, KProviderVerdicts));
    exists i, j :: 0 <= i < |verdicts| && 0 <= j < |verdicts|
      && VerdictAbout(verdicts[i], ev, ctx) && VerdictAbout(verdicts[j], ev, ctx)
      && Get(verdicts[i].fields, KProviderId) != Get(verdicts[j].fields, KProviderId)
      && Get(verdicts[i].fields, KVerdict) == Get(verdicts[j].fields, KVerdict) == Str("AGREE")
  }

  lemma VerdictsAgree(w: World, ev: Object, ctx: Context)
    requires RequiresVerdicts(w) && w.supersessionSchema(Dict(ev)) && TwoIndependentVerdicts(ev, ctx)
    ensures TwoAgree(ev, ctx)
  {
    var verdicts := AsList(Get(ev, KProviderVerdicts));
    var i, j :| 0 <= i < |verdicts| && 0 <= j < |verdicts|
      && VerdictAbout(verdicts[i], ev, ctx) && VerdictAbout(verdicts[j], ev, ctx)
      && Get(verdicts[i].fields, KProviderId) != Get(verdicts[j].fields, KProviderId);
    assert verdicts[i] in verdicts && verdicts[j] in verdicts;
  }

  /** With a schema that requires the verdicts, the two of them agree. */
  lemma HighRiskIsAgreed(w: World, inputs: Inputs, path: string)
    requires Allows(w, inputs) && RequiresVerdicts(w)
    requires ExtractContext(inputs.payload, inputs.gppStatus).pathSensitiveHumanReviewEnabled == Some(true)
    requires path in ExtractContext(inputs.payload, inputs.gppStatus).changedPaths && IsHighRisk(path)
    ensures var ctx := ExtractContext(inputs.payload, inputs.gppStatus);
      ApprovedByAnother(w, ctx) || (inputs.supersession.Dict? && TwoAgree(inputs.supersession.fields, ctx))
  {
    AllowIffPolicy(w, inputs);
    var ctx := ExtractContext(inputs.payload, inputs.gppStatus);
    HighRiskIsReviewed(w, inputs, path);
    if inputs.supersession.Dict? {
      ValidHasTwoVerdicts(w, inputs.supersession.fields, ctx, inputs.now);
      VerdictsAgree(w, inputs.supersession.fields, ctx);
    }
  }

  lemma HighRiskListed(payload: Value, status: Value, path: string)
    requires path in ExtractContext(payload, status).changedPaths && IsHighRisk(path)
    ensures ExtractContext(payload, status).highRiskChangedPaths != []
  {
    var changed := ExtractContext(payload, status).changedPaths;
    FilterMeans(changed, IsHighRisk);
    assert ExtractContext(payload, status).highRiskChangedPaths == HighRiskPaths(changed);
  }

  // ----- evaluations without a result -----

  /** The first verdict that is not plain assent is a list or an object. */
  ghost predicate UnhashableVerdict(verdicts: seq<Value>) {
    exists i :: 0 <= i < |verdicts| && verdicts[i].Dict? && Unhashable(Get(verdicts[i].fields, KVerdict))
      && forall j | 0 <= j < i :: verdicts[j].Dict? ==> NoneOrAgree(Get(verdicts[j].fields, KVerdict))
  }

  lemma {:induction false} AnyNotAgreeRaises(verdicts: seq<Value>)
    ensures AnyNotAgree(verdicts).Raised? <==> UnhashableVerdict(verdicts)
  {
    if verdicts != [] {
      var v, rest := verdicts[0], verdicts[1..];
      AnyNotAgreeRaises(rest);
      if UnhashableVerdict(rest) && (v.Dict? ==> NoneOrAgree(Get(v.fields, KVerdict))) {
        var i :| 0 <= i < |rest| && rest[i].Dict? && !Hashable(Get(rest[i].fields, KVerdict))
          && forall j | 0 <= j < i :: rest[j].Dict? ==> NoneOrAgree(Get(rest[j].fields, KVerdict));
        assert verdicts[i + 1] == rest[i];
        assert forall j | 0 < j < i + 1 :: verdicts[j] == rest[j - 1];
      }
      if UnhashableVerdict(verdicts) {
        var i :| 0 <= i < |verdicts| && verdicts[i].Dict? && !Hashable(Get(verdicts[i].fields, KVerdict))
          && forall j | 0 <= j < i :: verdicts[j].Dict? ==> NoneOrAgree(Get(verdicts[j].fields, KVerdict));
        if i > 0 {
          assert rest[i - 1] == verdicts[i];
          assert forall j | 0 <= j < i - 1 :: rest[j] == verdicts[j + 1];
        }
      }
    }
  }

  /** Evidence on which the evaluator raises instead of returning checks: a value it puts into a
      set, or tests for membership in one, is a list or an object when it gets there. */
  ghost predicate RaisesOn(w: World, ev: Object, now: string) {
    var verdicts := AsList(Get(ev, KProviderVerdicts));
    && OpensNothing(ev)
    && (|| Unhashable(Get(ev, KConsensusStatus))
        || (NoneOrAgree(Get(ev, KConsensusStatus)) && UnhashableVerdict(verdicts))
        || (&& NoDissent(ev) && w.supersessionSchema(Dict(ev)) && Recent(w, ev, now)
            && !(NoneUnhashable(ProviderIds(verdicts)) && !Unhashable(Get(ev, KImplementerProvider)))))
  }

  /** The evaluator has a result for every other evidence. */
  lemma SupersessionRaisesIff(w: World, evidence: Value, ctx: Context, now: string)
    ensures SupersessionChecks(w, evidence, ctx, now).Raised? <==>
            evidence.Dict? && RaisesOn(w, evidence.fields, now)
  {
    if evidence.Dict? {
      var ev := evidence.fields;
      NoDissentMeans(ev);
      OpenIs(ev);
      RecentIs(w, ev, now);
      NonAgreeRaises(ev);
      QuorumRaises(ev);
      StageRaises(w, ev, ctx, now);
    }
  }

  lemma NonAgreeRaises(ev: Object)
    ensures ExplicitNonAgree(ev).Raised? <==>
            || Unhashable(Get(ev, KConsensusStatus))
            || (NoneOrAgree(Get(ev, KConsensusStatus)) && UnhashableVerdict(AsList(Get(ev, KProviderVerdicts))))
  {
    AnyNotAgreeRaises(Verdicts(ev));
  }

  lemma QuorumRaises(ev: Object)
    ensures QuorumMet(ev).Raised? <==>
            !(NoneUnhashable(ProviderIds(AsList(Get(ev, KProviderVerdicts)))) && !Unhashable(Get(ev, KImplementerProvider)))
  {
    var ids := ProviderIds(Verdicts(ev));
    assert AllHashable(ids) <==> NoneUnhashable(ids);
  }

  /** The two tests that may raise, each when those before it have passed. */
  lemma StageRaises(w: World, ev: Object, ctx: Context, now: string)
    ensures ObjectStage(w, ev, ctx, now).Raised? <==>
            && !SupersessionAuthorityIsOpen(ev)
            && (|| ExplicitNonAgree(ev).Raised?
                || (ExplicitNonAgree(ev) == Done(false) && w.supersessionSchema(Dict(ev)) && Fresh(w, ev, now)
                    && QuorumMet(ev).Raised?))
  {
  }

  /** A bundle on which the gate raises: its provider ids are put into a set, and one is a list or
      an object. */
  ghost predicate BundleRaisesOn(w: World, bundle: Value) {
    && bundle.Dict? && RecordOpensNothing(bundle.fields) && w.bundleSchema(bundle)
    && !NoneUnhashable(ProviderIds(AsList(Get(bundle.fields, KProviderVerdicts))))
  }

  ghost predicate RaisesDecision(w: World, inputs: Inputs) {
    || (inputs.supersession.Dict? && RaisesOn(w, inputs.supersession.fields, inputs.now))
    || BundleRaisesOn(w, inputs.bundle)
  }

  lemma BundleRaisesIff(w: World, bundle: Value, ctx: Context)
    ensures BundleChecks(w, bundle, ctx).Raised? <==> BundleRaisesOn(w, bundle)
  {
    if bundle.Dict? {
      RecordOpenIs(bundle.fields);
    }
  }

  lemma RaisesIn(w: World, inputs: Inputs, ctx: Context)
    ensures DecideIn(w, inputs, ctx).Raised? <==> RaisesDecision(w, inputs)
  {
    SupersessionRaisesIff(w, inputs.supersession, ctx, inputs.now);
    BundleRaisesIff(w, inputs.bundle, ctx);
  }

  /** The gate has no decision exactly on this evidence; on every other it allows or denies. */
  lemma DecideRaisesIff(w: World, inputs: Inputs)
    ensures Decide(w, inputs).Raised? <==> RaisesDecision(w, inputs)
  {
    RaisesIn(w, inputs, ExtractContext(inputs.payload, inputs.gppStatus));
  }

  lemma ListConsensusRaisesIn(w: World, inputs: Inputs, ctx: Context)
    requires inputs.supersession == Dict(map[KConsensusStatus := List([])])
    ensures DecideIn(w, inputs, ctx).Raised?
  {
    var ev := map[KConsensusStatus := List([])];
    assert Verdicts(ev) == [] && AsDict(Get(ev, KGuardFlags)) == map[];
    assert RaisesOn(w, ev, inputs.now);
    SupersessionRaisesIff(w, inputs.supersession, ctx, inputs.now);
  }

  /** The shortest such evidence: no decision is made on it, whatever else is supplied. */
  lemma ListConsensusRaises(w: World, inputs: Inputs)
    requires inputs.supersession == Dict(map[KConsensusStatus := List([])])
    ensures Decide(w, inputs).Raised?
  {
    ListConsensusRaisesIn(w, inputs, ExtractContext(inputs.payload, inputs.gppStatus));
  }

  // ----- the builder -----

  /** The straight-line builder: it extends one list of checks, evaluator by evaluator. */
  method BuildDecision(w: World, inputs: Inputs) returns (r: Outcome<GateResult>)
    ensures r == Decide(w, inputs)
    ensures r.Raised? <==> RaisesDecision(w, inputs)
    ensures r.Done? ==> (r.value.allow <==> Policy(w, inputs))
  {
    DecideRaisesIff(w, inputs);
    AllowIffPolicy(w, inputs);
    var ctx := ExtractContext(inputs.payload, inputs.gppStatus);
    var supersession := SupersessionChecks(w, inputs.supersession, ctx, inputs.now);
    if supersession.Raised? {
      return Raised;
    }
    var checks := ContextChecks(w, inputs.payload, ctx) + supersession.value.0
                  + BoundaryChecks(w, ctx, supersession.value.1);
    checks := checks + ReviewOrSmokeChecks(w, inputs.reviewEvidence, ctx);
    var bundle := BundleChecks(w, inputs.bundle, ctx);
    if bundle.Raised? {
      return Raised;
    }
    checks := checks + bundle.value;
    var findings := Findings(checks);
    var decision := DecisionFromFindings(findings);
    return Done(GateResult(decision, decision == AllowAutonomousMerge, checks, findings));
  }
}
