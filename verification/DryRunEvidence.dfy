/** What the release gate finds in the evidence of a dry run. */
module DryRunEvidence {
  import opened Text
  import opened Json
  import opened GateContext
  import opened GatePolicy
  import opened HighRiskDryRun
  import opened DryRunContext
  import GateEvidence
  import GateSupersession
  import PathRules
  import DiffDigest

  // ----- the verdicts -----

  /** A verdict record of a provider, as the gate reads it. */
  ghost predicate IsVerdict(v: Value, provider: string, binding: Object) {
    && v.Dict? && Get(v.fields, KProviderId) == Str(provider) && NoneOrAgree(Get(v.fields, KVerdict))
    && Get(v.fields, KContextBinding) == Dict(binding)
    && !GateEvidence.VerdictAuthorityOpen(v)
  }

  lemma VerdictRecordIsVerdict(binding: Object, provider: string, agent: string, findings: nat)
    ensures IsVerdict(VerdictRecord(binding, provider, agent, findings), provider, binding)
  {
  }

  lemma ProviderVerdictIs(t: Tools, binding: Object, provider: string, review: Value)
    requires ProviderVerdict(t, binding, provider, review).Some?
    ensures IsVerdict(ProviderVerdict(t, binding, provider, review).value, provider, binding)
  {
    var raw := AsDict(review);
    var agent := t.str(Or(Get(AsDict(Get(raw, KReviewer)), KAgent), Str(provider + "-reviewer")));
    VerdictRecordIsVerdict(binding, provider, agent, |Get(raw, KFindings).items|);
  }

  ghost predicate AreVerdicts(verdicts: seq<Value>, providers: seq<string>, binding: Object) {
    && |verdicts| == |providers|
    && forall i | 0 <= i < |verdicts| :: IsVerdict(verdicts[i], providers[i], binding)
  }

  lemma VerdictsSnoc(verdicts: seq<Value>, providers: seq<string>, binding: Object, v: Value, provider: string)
    requires AreVerdicts(verdicts, providers, binding) && IsVerdict(v, provider, binding)
    ensures AreVerdicts(verdicts + [v], providers + [provider], binding)
  {
    var more, all := verdicts + [v], providers + [provider];
    forall i | 0 <= i < |more| ensures IsVerdict(more[i], all[i], binding) {
      if i < |verdicts| {
        assert more[i] == verdicts[i] && all[i] == providers[i];
      }
    }
  }

  lemma {:induction false} VerdictsAre(t: Tools, binding: Object, providers: seq<string>, reviews: map<string, Value>)
    requires ProviderVerdicts(t, binding, providers, reviews).Some?
    ensures AreVerdicts(ProviderVerdicts(t, binding, providers, reviews).value, providers, binding)
  {
    if providers != [] {
      var before, provider := providers[..|providers| - 1], providers[|providers| - 1];
      VerdictsAre(t, binding, before, reviews);
      var v := ProviderVerdict(t, binding, provider, reviews[provider]);
      ProviderVerdictIs(t, binding, provider, reviews[provider]);
      VerdictsSnoc(ProviderVerdicts(t, binding, before, reviews).value, before, binding, v.value, provider);
      assert providers == before + [provider];
    }
  }

  lemma {:induction false} VerdictIds(verdicts: seq<Value>, providers: seq<string>, binding: Object)
    requires AreVerdicts(verdicts, providers, binding)
    ensures GateEvidence.ProviderIds(verdicts) == StrValues(providers)
    ensures |GateEvidence.ProviderBindings(verdicts)| == |verdicts|
    ensures forall i | 0 <= i < |verdicts| :: GateEvidence.ProviderBindings(verdicts)[i] == binding
    decreases |verdicts|
  {
    if verdicts != [] {
      assert IsVerdict(verdicts[0], providers[0], binding);
      assert AreVerdicts(verdicts[1..], providers[1..], binding);
      VerdictIds(verdicts[1..], providers[1..], binding);
      assert StrValues(providers) == [Str(providers[0])] + StrValues(providers[1..]);
    }
  }

  // ----- the supersession evidence -----

  /** The supersession evidence, as the gate reads it. */
  ghost predicate Supersedes(ev: Object, run: Run, binding: Object, required: seq<string>, verdicts: seq<Value>) {
    && Get(ev, KProviderVerdicts) == List(verdicts)
    && Get(ev, KContextBinding) == Dict(binding)
    && Get(ev, KImplementerProvider) == Str(run.implementer)
    && Get(ev, KReviewerProviders) == List(StrValues(DiffDigest.Sorted(required)))
    && Get(ev, KRequiredReviewerProviders) == List(StrValues(required))
    && Get(ev, KGeneratedAt) == Str(run.generatedAt)
    && Get(AsDict(Get(ev, KFreshness)), KMaxAgeSeconds) == Int(run.maxAge)
  }

  ghost predicate IsReviewPart(r: Object, run: Run, binding: Object, required: seq<string>, verdicts: seq<Value>) {
    && r.Keys == {KContextBinding, KImplementerProvider, KReviewerProviders, KRequiredReviewerProviders,
                  KProviderVerdicts, KConsensusStatus}
    && r[KProviderVerdicts] == List(verdicts) && r[KContextBinding] == Dict(binding)
    && r[KImplementerProvider] == Str(run.implementer)
    && r[KReviewerProviders] == List(StrValues(DiffDigest.Sorted(required)))
    && r[KRequiredReviewerProviders] == List(StrValues(required))
    && NoneOrAgree(r[KConsensusStatus])
  }

  lemma ReviewPart(run: Run, binding: Object, required: seq<string>, verdicts: seq<Value>)
    ensures IsReviewPart(ReviewFields(run, binding, required, verdicts), run, binding, required, verdicts)
  {
  }

  ghost predicate IsAuthorityPart(r: Object) {
    && r.Keys == {KReleaseAuthority, KAiOutputReleaseAuthority, KGuardFlags, KSecretsRecorded, KMutationsPerformed}
    && !GateEvidence.AuthorityOpen(r)
  }

  lemma AuthorityPart()
    ensures IsAuthorityPart(AuthorityFields())
  {
  }

  ghost predicate IsHeaderPart(r: Object, run: Run) {
    && r.Keys == {KSchemaVersion, KArtifactKind, KGeneratedAt, KRepo, KWorkPackage, KPlanningOnly,
                  KMaxReviseRounds, KEscalationAction, KFreshness}
    && r[KGeneratedAt] == Str(run.generatedAt)
    && Get(AsDict(r[KFreshness]), KMaxAgeSeconds) == Int(run.maxAge)
  }

  lemma HeaderPart(run: Run)
    ensures IsHeaderPart(HeaderFields(run), run)
  {
  }

  lemma PartsSupersede(h: Object, a: Object, r: Object, run: Run, binding: Object, required: seq<string>, verdicts: seq<Value>)
    requires IsHeaderPart(h, run) && IsAuthorityPart(a) && IsReviewPart(r, run, binding, required, verdicts)
    ensures Supersedes(h + a + r, run, binding, required, verdicts)
    ensures NoneOrAgree(Get(h + a + r, KConsensusStatus))
  {
    HeaderOfUnion(h, a, r, KGeneratedAt);
    HeaderOfUnion(h, a, r, KFreshness);
  }

  lemma HeaderOfUnion(h: Object, a: Object, r: Object, k: Key)
    requires k !in a && k !in r
    ensures Get(h + a + r, k) == Get(h, k)
  {
  }

  predicate NoAuthority(part: Object) {
    && KReleaseAuthority !in part && KAiOutputReleaseAuthority !in part && KGuardFlags !in part
    && KSecretsRecorded !in part && KMutationsPerformed !in part
  }

  lemma OnlyAuthorityPart(h: Object, r: Object, run: Run, binding: Object, required: seq<string>, verdicts: seq<Value>)
    requires IsHeaderPart(h, run) && IsReviewPart(r, run, binding, required, verdicts)
    ensures NoAuthority(h) && NoAuthority(r)
  {
  }

  /** The other parts do not change what is read from the authority fields. */
  lemma AuthorityOfUnion(h: Object, a: Object, r: Object)
    requires NoAuthority(h) && NoAuthority(r) && !GateEvidence.AuthorityOpen(a)
    ensures !GateEvidence.AuthorityOpen(h + a + r)
  {
    assert Get(h + a + r, KGuardFlags) == Get(a, KGuardFlags);
  }

  lemma RecordSupersedes(run: Run, binding: Object, required: seq<string>, verdicts: seq<Value>)
    ensures var ev := SupersessionRecord(run, binding, required, verdicts);
      Supersedes(ev, run, binding, required, verdicts) && NoneOrAgree(Get(ev, KConsensusStatus))
      && !GateEvidence.AuthorityOpen(ev)
  {
    var h, a, r := HeaderFields(run), AuthorityFields(), ReviewFields(run, binding, required, verdicts);
    HeaderPart(run);
    AuthorityPart();
    ReviewPart(run, binding, required, verdicts);
    PartsSupersede(h, a, r, run, binding, required, verdicts);
    OnlyAuthorityPart(h, r, run, binding, required, verdicts);
    AuthorityOfUnion(h, a, r);
  }

  // ----- validity -----

  lemma RecentMeans(w: World, ev: Object, run: Run, now: string)
    requires Get(ev, KGeneratedAt) == Str(run.generatedAt)
    requires Get(AsDict(Get(ev, KFreshness)), KMaxAgeSeconds) == Int(run.maxAge)
    ensures Recent(w, ev, now) <==> NotOlder(w, run.generatedAt, now, run.maxAge)
  {
  }

  lemma {:induction false} StrItemsOfStrValues(ss: seq<string>)
    ensures GateEvidence.StrItems(StrValues(ss)) == StrValues(ss)
  {
    if ss != [] {
      assert StrValues(ss)[1..] == StrValues(ss[1..]);
      StrItemsOfStrValues(ss[1..]);
    }
  }

  lemma SameStrings(a: seq<string>, b: seq<string>)
    requires multiset(a) == multiset(b)
    ensures GateEvidence.SameSet(StrValues(a), StrValues(b))
  {
    forall i | 0 <= i < |a| ensures GateEvidence.Member(StrValues(a)[i], StrValues(b)) {
      assert a[i] in multiset(b);
      GateSupersession.MemberString(a[i], StrValues(b));
      var j :| 0 <= j < |b| && b[j] == a[i];
      assert StrValues(b)[j] == Str(a[i]);
    }
    forall i | 0 <= i < |b| ensures GateEvidence.Member(StrValues(b)[i], StrValues(a)) {
      assert b[i] in multiset(a);
      GateSupersession.MemberString(b[i], StrValues(a));
      var j :| 0 <= j < |a| && a[j] == b[i];
      assert StrValues(a)[j] == Str(b[i]);
    }
  }

  lemma NamesItsQuorum(implementer: string, required: seq<string>, named: seq<string>)
    requires required == GateEvidence.Quorum(implementer) && multiset(named) == multiset(required)
    ensures NamesQuorum(List(StrValues(named)), implementer)
  {
    StrItemsOfStrValues(named);
    SameStrings(named, required);
    GateSupersession.NamesAreQuorum(List(StrValues(named)), implementer);
  }

  lemma IsItsQuorum(implementer: string, required: seq<string>)
    requires required == GateEvidence.Quorum(implementer)
    ensures IsQuorum(StrValues(required), implementer)
  {
    QuorumIs(implementer);
    GateSupersession.StrValuesOfTwo(required);
  }

  lemma NothingOpen(ev: Object, verdicts: seq<Value>, providers: seq<string>, binding: Object)
    requires Get(ev, KProviderVerdicts) == List(verdicts) && AreVerdicts(verdicts, providers, binding)
    requires RecordOpensNothing(ev) && NoneOrAgree(Get(ev, KConsensusStatus))
    ensures OpensNothing(ev) && NoDissent(ev)
  {
    forall v | v in verdicts ensures v.Dict? && VerdictOpensNothing(v.fields) && NoneOrAgree(Get(v.fields, KVerdict)) {
      var i :| 0 <= i < |verdicts| && verdicts[i] == v;
      assert IsVerdict(verdicts[i], providers[i], binding);
      VerdictOpenIs(v);
    }
  }

  ghost predicate QuorumNamed(ev: Object, implementer: string) {
    && IsQuorum(GateEvidence.ProviderIds(AsList(Get(ev, KProviderVerdicts))), implementer)
    && NamesQuorum(Get(ev, KReviewerProviders), implementer)
    && NamesQuorum(Get(ev, KRequiredReviewerProviders), implementer)
  }

  lemma QuorumIsNamed(run: Run, ev: Object, binding: Object, required: seq<string>, verdicts: seq<Value>)
    requires required == GateEvidence.Quorum(run.implementer)
    requires Supersedes(ev, run, binding, required, verdicts) && AreVerdicts(verdicts, required, binding)
    ensures QuorumNamed(ev, run.implementer)
  {
    VerdictIds(verdicts, required, binding);
    IsItsQuorum(run.implementer, required);
    NamesItsQuorum(run.implementer, required, required);
    NamesItsQuorum(run.implementer, required, DiffDigest.Sorted(required));
  }

  /** What the gate tests about the bindings of the evidence and of its verdicts. */
  ghost predicate AllBound(w: World, ev: Object, ctx: Context) {
    && Get(ev, KContextBinding).Dict?
    && TiedToHighRisk(w, Get(ev, KContextBinding).fields, ctx)
    && AllTied(w, AsList(Get(ev, KProviderVerdicts)), ctx)
  }

  lemma AllBoundMeans(w: World, run: Run, ev: Object, binding: Object, required: seq<string>, verdicts: seq<Value>, ctx: Context)
    requires Supersedes(ev, run, binding, required, verdicts) && AreVerdicts(verdicts, required, binding)
    ensures AllBound(w, ev, ctx) <==> TiedToHighRisk(w, binding, ctx)
  {
    VerdictsAreTied(w, verdicts, required, binding, ctx);
  }

  lemma VerdictsAreTied(w: World, verdicts: seq<Value>, providers: seq<string>, binding: Object, ctx: Context)
    requires AreVerdicts(verdicts, providers, binding)
    ensures TiedToHighRisk(w, binding, ctx) ==> AllTied(w, verdicts, ctx)
  {
    forall v | v in verdicts ensures AsDict(Get(AsDict(v), KContextBinding)) == binding {
      var i :| 0 <= i < |verdicts| && verdicts[i] == v;
      assert IsVerdict(verdicts[i], providers[i], binding);
    }
  }

  lemma ValidIs(w: World, ev: Object, ctx: Context, now: string, implementer: string)
    requires Get(ev, KImplementerProvider) == Str(implementer)
    requires w.supersessionSchema(Dict(ev))
    requires OpensNothing(ev) && NoDissent(ev) && QuorumNamed(ev, implementer)
    ensures ValidSupersession(w, Dict(ev), ctx, now) <==> Recent(w, ev, now) && AllBound(w, ev, ctx)
  {
  }

  /** The gate finds nothing wrong with the evidence but, perhaps, its age or its binding. */
  lemma ValidMeans(w: World, run: Run, ev: Object, binding: Object, required: seq<string>, verdicts: seq<Value>,
                   ctx: Context, now: string)
    requires required == GateEvidence.Quorum(run.implementer)
    requires Supersedes(ev, run, binding, required, verdicts) && AreVerdicts(verdicts, required, binding)
    requires NoneOrAgree(Get(ev, KConsensusStatus)) && !GateEvidence.AuthorityOpen(ev)
    requires w.supersessionSchema(Dict(ev))
    ensures ValidSupersession(w, Dict(ev), ctx, now) <==>
            NotOlder(w, run.generatedAt, now, run.maxAge) && TiedToHighRisk(w, binding, ctx)
  {
    RecentMeans(w, ev, run, now);
    RecordOpenIs(ev);
    NothingOpen(ev, verdicts, required, binding);
    QuorumIsNamed(run, ev, binding, required, verdicts);
    AllBoundMeans(w, run, ev, binding, required, verdicts, ctx);
    ValidIs(w, ev, ctx, now, run.implementer);
  }

  // ----- the bindings -----

  lemma CleanMeans(s: string)
    ensures StringOf(Str(s)) == Some(s) <==> Clean(s)
  {
    if Clean(s) {
      StringOfClean(s);
    }
  }

  /** A context binding, as the gate reads it. */
  ghost predicate Binds(binding: Object, run: Run, digest: string) {
    && Get(binding, KRepositoryFullName) == Str(run.repository)
    && Get(binding, KBaseRef) == Str(run.baseRef) && Get(binding, KHeadRef) == Str(run.headRef)
    && Get(binding, KHeadSha) == Str(run.headSha)
    && Get(binding, KDiffDigest) == Str(digest)
    && Get(binding, KChangedFilesCount) == Int(|run.changed|)
  }

  lemma BindingBinds(run: Run, digest: string, highRisk: seq<string>)
    ensures var binding := WithHighRisk(ContextBinding(run, digest), highRisk);
      Binds(binding, run, digest) && Get(binding, KHighRiskChangedPaths) == List(StrValues(highRisk))
  {
  }

  lemma {:induction false} FilterClean(ss: seq<string>, keep: string -> bool)
    requires AllClean(ss)
    ensures AllClean(PathRules.Filter(ss, keep))
  {
    if ss != [] {
      assert AllClean(ss[1..]) by {
        forall i | 0 <= i < |ss[1..]| ensures Clean(ss[1..][i]) {
          assert ss[1..][i] == ss[i + 1];
        }
      }
      FilterClean(ss[1..], keep);
    }
  }

  /** Whether a ref named in a binding is the one the gate read from the payload. */
  ghost predicate RefAgrees(ref: string, read: Option<string>) {
    SameBranch(Str(ref), read)
  }

  lemma PlainBindingMeans(w: World, run: Run, binding: Object, ctx: Context)
    requires ctx.repository == StringOf(Str(run.repository)) && ctx.headSha == Some(run.headSha)
    requires ctx.changedPaths == run.changed && Binds(binding, run, GateEvidence.Digest(w, run.changed))
    ensures TiedToChange(w, binding, ctx) <==>
            Clean(run.repository) && RefAgrees(run.baseRef, ctx.baseRef) && RefAgrees(run.headRef, ctx.headRef)
  {
    CleanMeans(run.repository);
  }

  lemma HighRiskRead(binding: Object, changed: seq<string>)
    requires AllClean(changed) && Get(binding, KHighRiskChangedPaths) == List(StrValues(PathRules.HighRiskPaths(changed)))
    ensures Strings(Get(binding, KHighRiskChangedPaths)) == PathRules.HighRiskPaths(changed)
  {
    FilterClean(changed, PathRules.IsHighRisk);
    StringsOfStrValues(PathRules.HighRiskPaths(changed));
  }

  lemma BindingMeans(w: World, run: Run, l: Labels, binding: Object, ctx: Context)
    requires Identity(run, l, ctx) && Clean(run.headSha) && AllClean(run.changed)
    requires Binds(binding, run, GateEvidence.Digest(w, run.changed))
    requires Get(binding, KHighRiskChangedPaths) == List(StrValues(PathRules.HighRiskPaths(run.changed)))
    ensures TiedToHighRisk(w, binding, ctx) <==>
            Clean(run.repository) && RefAgrees(run.baseRef, ctx.baseRef) && RefAgrees(run.headRef, ctx.headRef)
  {
    CleanMeans(run.headSha);
    PlainBindingMeans(w, run, binding, ctx);
    HighRiskRead(binding, run.changed);
  }

  // ----- the review evidence -----

  /** The review evidence, as the gate reads it. */
  ghost predicate Reviews(ev: Object, run: Run, digest: string) {
    && Get(ev, KRepo) == Str(run.repository) && Get(ev, KWorkPackage) == Str(run.workPackage)
    && Get(ev, KContextBinding).Dict?
    && var binding := Get(ev, KContextBinding).fields;
       && Get(binding, KHeadSha) == Str(run.headSha) && Get(binding, KBaseRef) == Str(run.baseRef)
       && Get(binding, KDiffDigest) == Str(digest)
       && Get(binding, KChangedFilesCount) == Int(|run.changed|)
  }

  lemma RecordReviews(run: Run, digest: string, generatedAt: string)
    ensures Reviews(ReviewRecord(run, digest, generatedAt), run, digest)
  {
  }

  lemma RecordIsAccepting(run: Run, digest: string, generatedAt: string)
    ensures MayBeMerged(ReviewRecord(run, digest, generatedAt)) <==>
            run.repository != "" && run.workPackage != ""
  {
  }

  ghost predicate Tied(w: World, ev: Object, ctx: Context)
    requires Get(ev, KContextBinding).Dict?
  {
    && Says(ev, KRepo, ctx.repository) && Says(ev, KWorkPackage, ctx.reviewedSlice)
    && TiedToDiff(w, Get(ev, KContextBinding).fields, ctx)
  }

  lemma ReviewBindingMeans(w: World, run: Run, ev: Object, ctx: Context)
    requires ctx.repository == StringOf(Str(run.repository)) && ctx.reviewedSlice == StringOf(Str(run.workPackage))
    requires ctx.headSha == Some(run.headSha) && ctx.changedPaths == run.changed
    requires Reviews(ev, run, GateEvidence.Digest(w, run.changed))
    ensures Tied(w, ev, ctx) <==> Clean(run.repository) && Clean(run.workPackage)
  {
    CleanMeans(run.repository);
    CleanMeans(run.workPackage);
  }

  lemma AcceptedIs(w: World, ev: Object, ctx: Context)
    requires w.localGateSchema(Dict(ev)) && Get(ev, KContextBinding).Dict?
    ensures AcceptedReview(w, Dict(ev), ctx) <==>
            MayBeMerged(ev) && Tied(w, ev, ctx)
  {
  }

  lemma ReviewMeans(w: World, run: Run, l: Labels, ev: Object, ctx: Context)
    requires Identity(run, l, ctx) && Clean(run.headSha) && w.localGateSchema(Dict(ev))
    requires Reviews(ev, run, GateEvidence.Digest(w, run.changed))
    requires MayBeMerged(ev) <==> run.repository != "" && run.workPackage != ""
    ensures AcceptedReview(w, Dict(ev), ctx) <==> Clean(run.repository) && Clean(run.workPackage)
  {
    CleanMeans(run.headSha);
    ReviewBindingMeans(w, run, ev, ctx);
    AcceptedIs(w, ev, ctx);
  }
}
