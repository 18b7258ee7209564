/** When the release gate passes the evidence that the high-risk dry run produces. */
module DryRunLaws {
  import opened Text
  import opened Json
  import opened GateContext
  import opened GateDecision
  import opened GatePolicy
  import opened HighRiskDryRun
  import opened DryRunContext
  import opened DryRunEvidence
  import DryRunHead
  import GateEvidence
  import GateTheorems
  import PathForms
  import PathRules

  // ----- the decision -----

  /** When a run is passed, given the refs the gate reads from its payload. */
  ghost predicate Accepted(w: World, run: Run, prefixes: seq<string>, base: Option<string>, head: Option<string>) {
    && run.repository == EXPECTED_REPOSITORY && Clean(run.workPackage)
    && RefAgrees(run.baseRef, base) && RefAgrees(run.headRef, head)
    && (forall i | 0 <= i < |run.changed| :: PathForms.InsideOne(run.changed[i], prefixes))
    && NotOlder(w, run.generatedAt, run.now, run.maxAge)
  }

  lemma ExpectedIsClean()
    ensures Clean(EXPECTED_REPOSITORY)
  {
  }

  lemma RepositoryIsExpected(run: Run, ctx: Context)
    requires ctx.repository == StringOf(Str(run.repository))
    ensures ctx.repository == Some(EXPECTED_REPOSITORY) && Clean(run.repository) <==> run.repository == EXPECTED_REPOSITORY
  {
    ExpectedIsClean();
    CleanMeans(run.repository);
    CleanMeans(EXPECTED_REPOSITORY);
  }

  lemma TrustMeans(run: Run, l: Labels, payload: Value, ctx: Context)
    requires Identity(run, l, ctx) && Constant(l, ctx) && CleanLabels(l) && payload.Dict? && Clean(run.headSha)
    requires ctx.baseRef == Some(EXPECTED_BASE_REF) && l.event != "pull_request_target"
    ensures TrustedContext(payload, ctx) <==> ctx.repository == Some(EXPECTED_REPOSITORY)
  {
    CleanMeans(run.headSha);
    CleanMeans(l.issueUrl);
    CleanMeans(l.event);
  }

  lemma GovernedMeans(l: Labels, ctx: Context)
    requires Constant(l, ctx) && CleanLabels(l)
    ensures GovernedWork(ctx)
  {
    CleanMeans(l.issueUrl);
    CleanMeans(l.workId);
    CleanMeans(l.workStatus);
  }

  lemma ScopeMeans(run: Run, l: Labels, ctx: Context)
    requires Identity(run, l, ctx) && l.prefixes != [] && run.changed != []
    ensures InScope(ctx) <==> forall i | 0 <= i < |run.changed| :: PathForms.InsideOne(run.changed[i], l.prefixes)
  {
  }

  /** The policy of the gate, on what a run asks it. */
  lemma PolicyMeans(w: World, run: Run, l: Labels, inputs: Inputs, ctx: Context)
    requires Identity(run, l, ctx) && Constant(l, ctx) && CleanLabels(l) && Clean(run.headSha) && run.changed != []
    requires ctx.baseRef == Some(EXPECTED_BASE_REF) && l.event != "pull_request_target" && OtherChecksGreen(w, ctx)
    requires inputs.payload.Dict? && inputs.reviewEvidence.Dict? && inputs.bundle.Null? && inputs.supersession.Dict?
    requires AcceptedReview(w, inputs.reviewEvidence, ctx) <==> Clean(run.repository) && Clean(run.workPackage)
    requires ValidSupersession(w, inputs.supersession, ctx, inputs.now) <==>
      && NotOlder(w, run.generatedAt, run.now, run.maxAge) && Clean(run.repository)
      && RefAgrees(run.baseRef, ctx.baseRef) && RefAgrees(run.headRef, ctx.headRef)
    ensures PolicyFor(w, inputs, ctx) <==> Accepted(w, run, l.prefixes, ctx.baseRef, ctx.headRef)
  {
    RepositoryIsExpected(run, ctx);
    TrustMeans(run, l, inputs.payload, ctx);
    GovernedMeans(l, ctx);
    ScopeMeans(run, l, ctx);
  }

  lemma LabelsAreClean()
    ensures CleanLabels(DryRunLabels())
    ensures DryRunLabels().event != "pull_request_target" && DryRunLabels().baseRef == EXPECTED_BASE_REF
  {
    PrefixesAreClean();
    JoinIsClean("https://github.com/", EXPECTED_REPOSITORY, "/issues/0");
    NamesAreClean();
  }

  lemma NamesAreClean()
    ensures Clean("pull_request") && Clean("GPP-9") && Clean("closed") && Clean("main")
    ensures "pull_request" != "pull_request_target"
  {
    assert |"pull_request"| != |"pull_request_target"|;
  }

  lemma JoinIsClean(a: string, b: string, c: string)
    requires Clean(a) && Clean(c)
    ensures Clean(a + b + c)
  {
  }

  lemma PrefixesAreClean()
    ensures AllClean(AllowedPrefixes())
  {
    var prefixes := AllowedPrefixes();
    forall i | 0 <= i < |prefixes| ensures Clean(prefixes[i]) {
      assert prefixes[i][0] in ['.', 'A', 'C', 'l', 'a', 's', 't', 'd'];
      assert prefixes[i][|prefixes[i]| - 1] in ['/', 'd', 'n'];
    }
  }

  lemma HexIsClean(sha: string)
    requires CanonicalSha(sha)
    ensures Clean(sha)
  {
  }

  lemma SomeChanged(changed: seq<string>)
    requires PathRules.HighRiskPaths(changed) != []
    ensures changed != []
  {
  }

  /** Everything a run that returns has done before it asks for the decision. */
  ghost predicate Prepared(t: Tools, run: Run, reviewedAt: string, supersession: Value) {
    && PathRules.HighRiskPaths(run.changed) != [] && CanonicalSha(run.headSha)
    && (exists reviews :: Supersession(t, run, reviews) == Some(supersession))
    && t.gate.localGateSchema(Dict(ReviewEvidence(t.gate, run, reviewedAt)))
  }

  lemma ReturnsWhenPrepared(t: Tools, run: Run, reviewedAt: string, artifact: Artifact)
    requires DryRunOf(t, run, reviewedAt) == Some(artifact)
    ensures Prepared(t, run, reviewedAt, artifact.supersession)
    ensures artifact.pass <==> GateTheorems.Allows(t.gate, GateInputs(t.gate, run, artifact.supersession, reviewedAt))
  {
    var reviews := ReviewsByProvider(run.rawReviews).value;
    assert Supersession(t, run, reviews) == Some(artifact.supersession);
  }

  lemma SupersessionMeans(t: Tools, run: Run, l: Labels, reviews: map<string, Value>, evidence: Value, ctx: Context)
    requires Supersession(t, run, reviews) == Some(evidence)
    requires Identity(run, l, ctx) && Clean(run.headSha) && AllClean(run.changed)
    ensures ValidSupersession(t.gate, evidence, ctx, run.now) <==>
      && NotOlder(t.gate, run.generatedAt, run.now, run.maxAge) && Clean(run.repository)
      && RefAgrees(run.baseRef, ctx.baseRef) && RefAgrees(run.headRef, ctx.headRef)
  {
    var binding, required := HighRiskBinding(t.gate, run), GateEvidence.Quorum(run.implementer);
    var verdicts := ProviderVerdicts(t, binding, required, reviews).value;
    VerdictsAre(t, binding, required, reviews);
    RecordSupersedes(run, binding, required, verdicts);
    BindingBinds(run, GateEvidence.Digest(t.gate, run.changed), PathRules.HighRiskPaths(run.changed));
    BindingMeans(t.gate, run, l, binding, ctx);
    ValidMeans(t.gate, run, SupersessionRecord(run, binding, required, verdicts), binding, required, verdicts, ctx, run.now);
  }

  lemma ReviewEvidenceMeans(w: World, run: Run, l: Labels, reviewedAt: string, ctx: Context)
    requires Identity(run, l, ctx) && Clean(run.headSha) && w.localGateSchema(Dict(ReviewEvidence(w, run, reviewedAt)))
    ensures AcceptedReview(w, Dict(ReviewEvidence(w, run, reviewedAt)), ctx) <==> Clean(run.repository) && Clean(run.workPackage)
  {
    var digest := GateEvidence.Digest(w, run.changed);
    RecordReviews(run, digest, reviewedAt);
    RecordIsAccepting(run, digest, reviewedAt);
    ReviewMeans(w, run, l, ReviewEvidence(w, run, reviewedAt), ctx);
  }

  lemma ContextOfRun(run: Run, l: Labels, ctx: Context)
    requires AllClean(run.changed) && CleanLabels(l) && l.checks != []
    requires ctx == ExtractContext(Dict(Payload(run, l)), Dict(GppStatus(l)))
    ensures Identity(run, l, ctx) && Constant(l, ctx)
  {
    var root := Payload(run, l);
    KeysOfPayload(run, l);
    KeysArePlain(root);
    PayloadCarries(run, l);
    PayloadIsClosed(run, l);
    IdentityOf(run, l, root, Dict(GppStatus(l)), ctx);
    ConstantOf(run, l, root, ctx);
  }

  lemma MainIsPlain()
    ensures Clean(EXPECTED_BASE_REF) && !(HEADS <= EXPECTED_BASE_REF) && !(ORIGIN <= EXPECTED_BASE_REF)
  {
    assert EXPECTED_BASE_REF[0] == 'm';
  }

  lemma PlainRefIsItself(ref: string)
    requires Clean(ref) && !(HEADS <= ref) && !(ORIGIN <= ref)
    ensures NormalizeRef(StringOf(Str(ref))) == Some(ref) && NormalizeBindingRef(Str(ref)) == Some(ref)
  {
    StringOfClean(ref);
  }

  lemma DecisionMeans(t: Tools, run: Run, l: Labels, reviewedAt: string, supersession: Value, inputs: Inputs, ctx: Context)
    requires l == DryRunLabels() && inputs == GateInputs(t.gate, run, supersession, reviewedAt)
    requires ctx == ExtractContext(inputs.payload, inputs.gppStatus)
    requires Prepared(t, run, reviewedAt, supersession) && AllClean(run.changed) && LowerFixes(t.gate)
    ensures PolicyFor(t.gate, inputs, ctx) <==>
            Accepted(t.gate, run, l.prefixes, Some(EXPECTED_BASE_REF), DryRunHead.ReadHead(run.headRef))
  {
    LabelsAreClean();
    HexIsClean(run.headSha);
    SomeChanged(run.changed);
    ContextOfRun(run, l, ctx);
    MainIsPlain();
    PlainRefIsItself(l.baseRef);
    ChecksAreGreen(t.gate, ctx);
    var reviews :| Supersession(t, run, reviews) == Some(supersession);
    SupersessionMeans(t, run, l, reviews, supersession, ctx);
    ReviewEvidenceMeans(t.gate, run, l, reviewedAt, ctx);
    PolicyMeans(t.gate, run, l, inputs, ctx);
  }

  lemma PassMeans(t: Tools, run: Run, reviewedAt: string, artifact: Artifact)
    requires DryRunOf(t, run, reviewedAt) == Some(artifact) && AllClean(run.changed) && LowerFixes(t.gate)
    ensures artifact.pass <==>
            Accepted(t.gate, run, AllowedPrefixes(), Some(EXPECTED_BASE_REF), DryRunHead.ReadHead(run.headRef))
  {
    var inputs := GateInputs(t.gate, run, artifact.supersession, reviewedAt);
    ReturnsWhenPrepared(t, run, reviewedAt, artifact);
    GateTheorems.AllowIffPolicy(t.gate, inputs);
    DecisionMeans(t, run, DryRunLabels(), reviewedAt, artifact.supersession, inputs,
                  ExtractContext(inputs.payload, inputs.gppStatus));
  }

  lemma BaseAgreesIff(baseRef: string, base: string)
    requires base == EXPECTED_BASE_REF
    ensures RefAgrees(baseRef, Some(base)) <==> Branch(Str(baseRef)) == Some(base)
  {
    BranchIs(Str(base));
    MainIsPlain();
    PlainRefIsItself(base);
  }

  lemma HeadAgreesIff(headRef: string)
    requires Trimmed(headRef)
    ensures RefAgrees(headRef, DryRunHead.ReadHead(headRef)) <==> DryRunHead.PlainHead(headRef)
  {
    BranchIs(Str(headRef));
    BranchIs(Str(DryRunHead.ReadHead(headRef).GetOr("")));
    DryRunHead.HeadAgreesIff(headRef);
  }

  lemma AcceptedMeans(w: World, run: Run, prefixes: seq<string>)
    requires Trimmed(run.headRef)
    ensures Accepted(w, run, prefixes, Some(EXPECTED_BASE_REF), DryRunHead.ReadHead(run.headRef)) <==>
      && run.repository == EXPECTED_REPOSITORY
      && Branch(Str(run.baseRef)) == Some(EXPECTED_BASE_REF)
      && (forall i | 0 <= i < |run.changed| :: PathForms.InsideOne(run.changed[i], prefixes))
      && DryRunHead.PlainHead(run.headRef)
      && Clean(run.workPackage)
      && NotOlder(w, run.generatedAt, run.now, run.maxAge)
  {
    BaseAgreesIff(run.baseRef, EXPECTED_BASE_REF);
    HeadAgreesIff(run.headRef);
  }

  /** What a dry run may change. */
  ghost function DryRunAllowlist(): seq<string> {
    [".github/", ".claude/", "AGENTS.md", "CLAUDE.md", "local-ai-review-evidence.v1.json",
     "local-gpp-gate-evidence.v1.json", "ao-ma-10-high-risk-reviews/", "ao_kernel/", "scripts/", "tests/",
     "deploy/", "CHANGELOG.md"]
  }

  /** A run that returns is passed exactly when it is about the expected repository and base, every
      changed path is in its allowlist, its head ref is plain, its work package is clean, and its
      evidence is not too old: whatever the implementer, the reviews and the schemas. */
  lemma DryRunPassesIff(t: Tools, run: Run, reviewedAt: string, artifact: Artifact)
    requires DryRunOf(t, run, reviewedAt) == Some(artifact)
    requires AllClean(run.changed) && Trimmed(run.headRef) && LowerFixes(t.gate)
    ensures artifact.pass <==>
      && run.repository == "Halildeu/ao-kernel"
      && Branch(Str(run.baseRef)) == Some("main")
      && (forall i | 0 <= i < |run.changed| :: PathForms.InsideOne(run.changed[i], DryRunAllowlist()))
      && DryRunHead.PlainHead(run.headRef)
      && run.workPackage != "" && Strip(run.workPackage) == run.workPackage
      && NotOlder(t.gate, run.generatedAt, run.now, run.maxAge)
  {
    PassMeans(t, run, reviewedAt, artifact);
    AcceptedMeans(t.gate, run, AllowedPrefixes());
    TrimmedMeans(run.workPackage);
  }

  lemma TrimmedMeans(s: string)
    ensures Trimmed(s) <==> Strip(s) == s
  {
    if Trimmed(s) {
      StripTrimmed(s);
    }
  }

  // ----- a run that is prepared is decided -----

  lemma AgreeingIsHashable(verdicts: seq<Value>, providers: seq<string>, binding: Object)
    requires AreVerdicts(verdicts, providers, binding)
    ensures !GateTheorems.UnhashableVerdict(verdicts)
  {
    forall i | 0 <= i < |verdicts| ensures Hashable(Get(verdicts[i].fields, KVerdict)) {
      assert IsVerdict(verdicts[i], providers[i], binding);
    }
  }

  lemma HashableIs(vs: seq<Value>)
    requires GateEvidence.AllHashable(vs)
    ensures NoneUnhashable(vs)
  {
  }

  lemma NothingRaises(w: World, ev: Object, now: string)
    requires NoneOrAgree(Get(ev, KConsensusStatus)) && !GateTheorems.UnhashableVerdict(AsList(Get(ev, KProviderVerdicts)))
    requires NoneUnhashable(GateEvidence.ProviderIds(AsList(Get(ev, KProviderVerdicts))))
    requires !Unhashable(Get(ev, KImplementerProvider))
    ensures !GateTheorems.RaisesOn(w, ev, now)
  {
  }

  lemma EvidenceNeverRaises(w: World, run: Run, ev: Object, binding: Object, required: seq<string>, verdicts: seq<Value>, now: string)
    requires Supersedes(ev, run, binding, required, verdicts) && AreVerdicts(verdicts, required, binding)
    requires NoneOrAgree(Get(ev, KConsensusStatus))
    ensures !GateTheorems.RaisesOn(w, ev, now)
  {
    VerdictIds(verdicts, required, binding);
    AgreeingIsHashable(verdicts, required, binding);
    HashableIs(GateEvidence.ProviderIds(verdicts));
    NothingRaises(w, ev, now);
  }

  lemma SupersessionDecides(t: Tools, run: Run, reviews: map<string, Value>, evidence: Value, ctx: Context)
    requires Supersession(t, run, reviews) == Some(evidence)
    ensures GateEvidence.SupersessionChecks(t.gate, evidence, ctx, run.now).Done?
  {
    var binding, required := HighRiskBinding(t.gate, run), GateEvidence.Quorum(run.implementer);
    var verdicts := ProviderVerdicts(t, binding, required, reviews).value;
    VerdictsAre(t, binding, required, reviews);
    RecordSupersedes(run, binding, required, verdicts);
    EvidenceNeverRaises(t.gate, run, evidence.fields, binding, required, verdicts, run.now);
    GateTheorems.SupersessionRaisesIff(t.gate, evidence, ctx, run.now);
  }

  lemma GateDecides(w: World, inputs: Inputs, ctx: Context)
    requires inputs.bundle == Null
    requires GateEvidence.SupersessionChecks(w, inputs.supersession, ctx, inputs.now).Done?
    ensures Decide(w, inputs).Done?
  {
    GateTheorems.SupersessionRaisesIff(w, inputs.supersession, ctx, inputs.now);
    GateTheorems.DecideRaisesIff(w, inputs);
  }

  lemma PreparedIsEvaluated(t: Tools, run: Run, reviewedAt: string, reviews: map<string, Value>, supersession: Value)
    requires PathRules.HighRiskPaths(run.changed) != [] && CanonicalSha(run.headSha)
    requires ReviewsByProvider(run.rawReviews) == Some(reviews) && Supersession(t, run, reviews) == Some(supersession)
    requires t.gate.localGateSchema(Dict(ReviewEvidence(t.gate, run, reviewedAt)))
    ensures DryRunOf(t, run, reviewedAt)
         == Evaluated(t, run, supersession, Decide(t.gate, GateInputs(t.gate, run, supersession, reviewedAt)))
  {
  }

  /** The gate never raises on what a run gives it: once the evidence is made and accepted by its
      schemas, a decision is reached and only the artifact's own schema can stop the run. */
  lemma PreparedRunsAreDecided(t: Tools, run: Run, reviewedAt: string, reviews: map<string, Value>, supersession: Value)
    requires PathRules.HighRiskPaths(run.changed) != [] && CanonicalSha(run.headSha)
    requires ReviewsByProvider(run.rawReviews) == Some(reviews) && Supersession(t, run, reviews) == Some(supersession)
    requires t.gate.localGateSchema(Dict(ReviewEvidence(t.gate, run, reviewedAt)))
    ensures var decision := Decide(t.gate, GateInputs(t.gate, run, supersession, reviewedAt));
      && decision.Done?
      && DryRunOf(t, run, reviewedAt) == Reported(t, Artifact(run, decision.value.allow, decision.value, supersession))
  {
    PreparedIsEvaluated(t, run, reviewedAt, reviews, supersession);
    RunDecides(t, run, reviewedAt, reviews, supersession, GateInputs(t.gate, run, supersession, reviewedAt));
  }

  lemma RunDecides(t: Tools, run: Run, reviewedAt: string, reviews: map<string, Value>, supersession: Value, inputs: Inputs)
    requires Supersession(t, run, reviews) == Some(supersession)
    requires inputs.supersession == supersession && inputs.bundle == Null && inputs.now == run.now
    ensures Decide(t.gate, inputs).Done?
  {
    var ctx := ExtractContext(inputs.payload, inputs.gppStatus);
    SupersessionDecides(t, run, reviews, supersession, ctx);
    GateDecides(t.gate, inputs, ctx);
  }
}
