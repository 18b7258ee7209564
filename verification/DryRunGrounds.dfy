/** What a dry run that returns rests on: one usable raw review of each required provider, each the
    last that names its provider; and what it records of them. */
module DryRunGrounds {
  import opened Text
  import opened Json
  import opened GateContext
  import opened HighRiskDryRun
  import opened GatePolicy
  import DryRunEvidence
  import DryRunLaws
  import DiffDigest
  import GateEvidence
  import PathForms
  import PathRules

  // ----- usable reviews -----

  /** The review names the provider. */
  ghost predicate Names(review: Value, provider: string) {
    && review.Dict? && Get(review.fields, KReviewer).Dict?
    && Get(Get(review.fields, KReviewer).fields, KProvider) == Str(provider)
  }

  /** The review agrees, claims nothing and lists its findings. */
  ghost predicate UsableReview(t: Tools, provider: string, review: Value) {
    && Names(review, provider) && t.rawReviewSchema(review)
    && Get(Get(review.fields, KReviewer).fields, KVerdict) == Str("AGREE")
    && Get(review.fields, KSecretsRecorded) == Bool(false) && Get(review.fields, KSupportWidening) == Bool(false)
    && Get(review.fields, KProductionPlatformClaim) == Bool(false) && Get(review.fields, KLiveAdapterExecution) == Bool(false)
    && Get(review.fields, KFindings).List?
  }

  lemma VerdictIffUsable(t: Tools, binding: Object, provider: string, review: Value)
    ensures ProviderVerdict(t, binding, provider, review).Some? <==> UsableReview(t, provider, review)
  {
  }

  ghost predicate IsLastNaming(files: seq<Value>, provider: string, i: int) {
    && 0 <= i < |files| && Names(files[i], provider)
    && forall j | i < j < |files| :: !Names(files[j], provider)
  }

  /** The last file that names the provider is usable. */
  ghost predicate Reviewed(t: Tools, files: seq<Value>, provider: string) {
    exists i :: IsLastNaming(files, provider, i) && UsableReview(t, provider, files[i])
  }

  ghost predicate NamesOne(review: Value) {
    exists p :: Names(review, p)
  }

  ghost predicate EachNamesOne(files: seq<Value>) {
    forall i | 0 <= i < |files| :: NamesOne(files[i])
  }

  lemma NamesIs(review: Value, provider: string)
    ensures ReviewProvider(review) == Some(provider) <==> Names(review, provider)
  {
  }

  lemma NamesOneIs(review: Value)
    ensures ReviewProvider(review).Some? <==> NamesOne(review)
  {
    if ReviewProvider(review).Some? {
      NamesIs(review, ReviewProvider(review).value);
    }
    if p :| Names(review, p) {
      NamesIs(review, p);
    }
  }

  lemma {:induction false} FiledIff(files: seq<Value>)
    ensures ReviewsByProvider(files).Some? <==> EachNamesOne(files)
  {
    if files != [] {
      var k := |files| - 1;
      var before := files[..k];
      FiledIff(before);
      NamesOneIs(files[k]);
      assert forall i | 0 <= i < k :: before[i] == files[i];
    }
  }

  /** The file of a provider is the last that names it. */
  lemma FiledIsLast(files: seq<Value>, provider: string, i: int)
    requires ReviewsByProvider(files).Some? && IsLastNaming(files, provider, i)
    ensures provider in ReviewsByProvider(files).value && ReviewsByProvider(files).value[provider] == files[i]
  {
    LastReviewCounts(files, provider);
    NamesIs(files[i], provider);
    var k :| 0 <= k < |files| && ReviewProvider(files[k]) == Some(provider)
      && ReviewsByProvider(files).value[provider] == files[k]
      && forall j | k < j < |files| :: ReviewProvider(files[j]) != Some(provider);
    NamesIs(files[k], provider);
    assert k == i;
  }

  lemma LastIsFiled(files: seq<Value>, provider: string) returns (i: int)
    requires ReviewsByProvider(files).Some? && provider in ReviewsByProvider(files).value
    ensures IsLastNaming(files, provider, i) && ReviewsByProvider(files).value[provider] == files[i]
  {
    LastReviewCounts(files, provider);
    i :| 0 <= i < |files| && ReviewProvider(files[i]) == Some(provider)
      && ReviewsByProvider(files).value[provider] == files[i]
      && forall j | i < j < |files| :: ReviewProvider(files[j]) != Some(provider);
    forall j | i <= j < |files| ensures ReviewProvider(files[j]) == Some(provider) <==> Names(files[j], provider) {
      NamesIs(files[j], provider);
    }
  }

  lemma ReviewedIff(t: Tools, binding: Object, files: seq<Value>, provider: string)
    requires ReviewsByProvider(files).Some?
    ensures var reviews := ReviewsByProvider(files).value;
      provider in reviews && ProviderVerdict(t, binding, provider, reviews[provider]).Some? <==> Reviewed(t, files, provider)
  {
    var reviews := ReviewsByProvider(files).value;
    if provider in reviews {
      var i := LastIsFiled(files, provider);
      VerdictIffUsable(t, binding, provider, files[i]);
      if j :| IsLastNaming(files, provider, j) && UsableReview(t, provider, files[j]) {
        FiledIsLast(files, provider, j);
      }
    } else if j :| IsLastNaming(files, provider, j) {
      FiledIsLast(files, provider, j);
    }
  }

  ghost predicate AllReviewed(t: Tools, files: seq<Value>, providers: seq<string>) {
    forall i | 0 <= i < |providers| :: Reviewed(t, files, providers[i])
  }

  lemma ReviewedSnoc(t: Tools, files: seq<Value>, providers: seq<string>, before: seq<string>, last: string)
    requires providers == before + [last]
    ensures AllReviewed(t, files, providers) <==> AllReviewed(t, files, before) && Reviewed(t, files, last)
  {
    assert providers[|before|] == last;
    assert forall i | 0 <= i < |before| :: providers[i] == before[i];
  }

  /** There are verdicts exactly when the last review of every provider is usable. */
  lemma {:induction false} VerdictsIffReviewed(t: Tools, binding: Object, providers: seq<string>, files: seq<Value>)
    requires ReviewsByProvider(files).Some?
    ensures ProviderVerdicts(t, binding, providers, ReviewsByProvider(files).value).Some? <==> AllReviewed(t, files, providers)
  {
    if providers != [] {
      var before, last := providers[..|providers| - 1], providers[|providers| - 1];
      VerdictsIffReviewed(t, binding, before, files);
      ReviewedIff(t, binding, files, last);
      ReviewedSnoc(t, files, providers, before, last);
    }
  }

  // ----- the records -----

  /** What is recorded of a usable review. */
  ghost predicate Records(verdict: Value, t: Tools, provider: string, review: Value) {
    && verdict.Dict? && review.Dict? && Get(review.fields, KReviewer).Dict? && Get(review.fields, KFindings).List?
    && Get(verdict.fields, KProviderId) == Str(provider)
    && Get(verdict.fields, KVerdict) == Str("AGREE")
    && Get(verdict.fields, KFindingsCount) == Int(|Get(review.fields, KFindings).items|)
    && var agent := Get(Get(review.fields, KReviewer).fields, KAgent);
       Get(verdict.fields, KAgentId) == Str(if Truthy(agent) then t.str(agent) else t.str(Str(provider + "-reviewer")))
  }

  ghost predicate HasForm(verdict: Value) {
    && verdict.Dict?
    && Get(verdict.fields, KSchemaVersion) == Str("ao-ma-10-provider-consensus.v1")
    && Get(verdict.fields, KArtifactKind) == Str("ao_ma_10_provider_consensus")
    && Get(verdict.fields, KRole) == Str("reviewer") && Get(verdict.fields, KRiskClassification) == Str("high")
    && Get(verdict.fields, KRoundIndex) == Int(1) && Get(verdict.fields, KBindingMode) == Str("added")
  }

  lemma FormOf(binding: Object, provider: string, agent: string, findings: nat)
    ensures HasForm(VerdictRecord(binding, provider, agent, findings))
  {
  }

  lemma RecordOf(binding: Object, provider: string, agent: string, findings: nat)
    ensures var r := VerdictRecord(binding, provider, agent, findings).fields;
      && Get(r, KProviderId) == Str(provider) && Get(r, KVerdict) == Str("AGREE")
      && Get(r, KFindingsCount) == Int(findings) && Get(r, KAgentId) == Str(agent)
  {
  }

  lemma VerdictRecords(t: Tools, binding: Object, provider: string, review: Value)
    requires ProviderVerdict(t, binding, provider, review).Some?
    ensures var verdict := ProviderVerdict(t, binding, provider, review).value;
      && Records(verdict, t, provider, review) && HasForm(verdict)
      && Get(verdict.fields, KContextBinding) == Dict(binding)
      && VerdictOpensNothing(verdict.fields)
  {
    var raw := review.fields;
    var agent := Get(Get(raw, KReviewer).fields, KAgent);
    var name := t.str(Or(agent, Str(provider + "-reviewer")));
    FormOf(binding, provider, name, |Get(raw, KFindings).items|);
    RecordOf(binding, provider, name, |Get(raw, KFindings).items|);
    DryRunEvidence.ProviderVerdictIs(t, binding, provider, review);
    VerdictOpenIs(ProviderVerdict(t, binding, provider, review).value);
  }

  /** The verdict is that of the provider's last review. */
  ghost predicate RecordsLast(verdict: Value, t: Tools, files: seq<Value>, provider: string) {
    exists i :: IsLastNaming(files, provider, i) && UsableReview(t, provider, files[i]) && Records(verdict, t, provider, files[i])
  }

  ghost predicate AllRecordLast(verdicts: seq<Value>, t: Tools, files: seq<Value>, providers: seq<string>) {
    && |verdicts| == |providers|
    && forall i | 0 <= i < |providers| :: RecordsLast(verdicts[i], t, files, providers[i])
  }

  lemma OneRecords(t: Tools, binding: Object, provider: string, files: seq<Value>)
    requires ReviewsByProvider(files).Some? && provider in ReviewsByProvider(files).value
    requires ProviderVerdict(t, binding, provider, ReviewsByProvider(files).value[provider]).Some?
    ensures RecordsLast(ProviderVerdict(t, binding, provider, ReviewsByProvider(files).value[provider]).value, t, files, provider)
  {
    var i := LastIsFiled(files, provider);
    VerdictRecords(t, binding, provider, files[i]);
    VerdictIffUsable(t, binding, provider, files[i]);
  }

  lemma RecordsSnoc(verdicts: seq<Value>, t: Tools, files: seq<Value>, providers: seq<string>, v: Value, p: string)
    requires AllRecordLast(verdicts, t, files, providers) && RecordsLast(v, t, files, p)
    ensures AllRecordLast(verdicts + [v], t, files, providers + [p])
  {
  }

  lemma {:induction false} VerdictsRecord(t: Tools, binding: Object, providers: seq<string>, files: seq<Value>, verdicts: seq<Value>)
    requires ReviewsByProvider(files).Some?
    requires ProviderVerdicts(t, binding, providers, ReviewsByProvider(files).value) == Some(verdicts)
    ensures AllRecordLast(verdicts, t, files, providers)
  {
    if providers != [] {
      var before, last := providers[..|providers| - 1], providers[|providers| - 1];
      var reviews := ReviewsByProvider(files).value;
      var sofar := ProviderVerdicts(t, binding, before, reviews).value;
      VerdictsRecord(t, binding, before, files, sofar);
      OneRecords(t, binding, last, files);
      RecordsSnoc(sofar, t, files, before, ProviderVerdict(t, binding, last, reviews[last]).value, last);
      assert providers == before + [last];
    }
  }

  // ----- runs that return -----

  ghost predicate LowerHexOfForty(s: string) {
    |s| == 40 && forall i | 0 <= i < |s| :: '0' <= s[i] <= '9' || 'a' <= s[i] <= 'f'
  }

  lemma ShaIs(s: string)
    ensures CanonicalSha(s) <==> LowerHexOfForty(s)
  {
  }

  /** What a run has to have before it may ask for a decision, on the raw files. */
  ghost predicate Grounded(t: Tools, run: Run) {
    && PathForms.TouchesHighRisk(run.changed) && LowerHexOfForty(run.headSha)
    && EachNamesOne(run.rawReviews)
    && Reviewed(t, run.rawReviews, Reviewers(run.implementer).0)
    && Reviewed(t, run.rawReviews, Reviewers(run.implementer).1)
  }

  /** The verdicts recorded in the evidence: those of the two reviewers of the implementer. */
  ghost predicate RestsOn(evidence: Value, t: Tools, run: Run) {
    && evidence.Dict? && Get(evidence.fields, KProviderVerdicts).List?
    && var verdicts := Get(evidence.fields, KProviderVerdicts).items;
       && |verdicts| == 2
       && RecordsLast(verdicts[0], t, run.rawReviews, Reviewers(run.implementer).0)
       && RecordsLast(verdicts[1], t, run.rawReviews, Reviewers(run.implementer).1)
  }

  lemma TwoReviewers(t: Tools, run: Run, binding: Object)
    requires ReviewsByProvider(run.rawReviews).Some?
    ensures ProviderVerdicts(t, binding, GateEvidence.Quorum(run.implementer), ReviewsByProvider(run.rawReviews).value).Some? <==>
            && Reviewed(t, run.rawReviews, Reviewers(run.implementer).0)
            && Reviewed(t, run.rawReviews, Reviewers(run.implementer).1)
  {
    var a, b := Reviewers(run.implementer).0, Reviewers(run.implementer).1;
    QuorumIs(run.implementer);
    VerdictsIffReviewed(t, binding, [a, b], run.rawReviews);
    assert [a, b][0] == a && [a, b][1] == b;
  }

  /** Every check of the review evidence passed, and nothing was found. */
  ghost predicate AllChecked(review: Object, reviewedAt: string) {
    && Get(review, KGeneratedAt) == Str(reviewedAt)
    && Get(review, KFindings) == List([]) && Get(review, KReviewerFindingsCount) == Int(0)
    && Get(review, KChecks).Dict?
    && var checks := Get(review, KChecks).fields;
       && Get(checks, KStartupPreflightPassed) == Get(checks, KGppStatusChecked) == Get(checks, KScopeAllowed)
          == Get(checks, KTestsPassed) == Bool(true)
       && Get(checks, KSecretScanPassed) == Get(checks, KReviewerAgree) == Get(checks, KCrossProviderVerified)
          == Get(checks, KForbiddenActionsAbsent) == Bool(true)
  }

  lemma RecordIsChecked(run: Run, digest: string, reviewedAt: string)
    ensures AllChecked(ReviewRecord(run, digest, reviewedAt), reviewedAt)
  {
  }

  /** The schemas accept what the run made: its evidence, the review evidence and its artifact. */
  ghost predicate Accepted(t: Tools, run: Run, reviewedAt: string, artifact: Artifact) {
    && t.gate.supersessionSchema(artifact.supersession) && t.artifactSchema(artifact)
    && exists review ::
         t.gate.localGateSchema(Dict(review)) && MayBeMergedFor(t.gate, run, review) && AllChecked(review, reviewedAt)
  }

  /** Review evidence of the run, that lets the operator merge. */
  ghost predicate MayBeMergedFor(w: World, run: Run, review: Object) {
    && DryRunEvidence.Reviews(review, run, DiffDigest.Digest(w.hash, run.changed))
    && (MayBeMerged(review) <==> run.repository != "" && run.workPackage != "")
  }

  lemma ReviewIsMade(w: World, run: Run, reviewedAt: string, review: Object)
    requires review == ReviewEvidence(w, run, reviewedAt)
    ensures MayBeMergedFor(w, run, review) && AllChecked(review, reviewedAt)
  {
    var digest := GateEvidence.Digest(w, run.changed);
    DryRunEvidence.RecordReviews(run, digest, reviewedAt);
    DryRunEvidence.RecordIsAccepting(run, digest, reviewedAt);
    RecordIsChecked(run, digest, reviewedAt);
  }

  lemma AcceptedRuns(t: Tools, run: Run, reviewedAt: string, artifact: Artifact)
    requires DryRunOf(t, run, reviewedAt) == Some(artifact)
    ensures Accepted(t, run, reviewedAt, artifact) && artifact.run == run
  {
    var review := ReviewEvidence(t.gate, run, reviewedAt);
    assert t.gate.localGateSchema(Dict(review));
    ReviewIsMade(t.gate, run, reviewedAt, review);
  }

  /** For every run that returns: it is grounded, its evidence records the two reviews, and the schemas
      accept what it made. */
  lemma ReturnedRunsAreGrounded(t: Tools, run: Run, reviewedAt: string, artifact: Artifact)
    requires DryRunOf(t, run, reviewedAt) == Some(artifact)
    ensures Grounded(t, run) && RestsOn(artifact.supersession, t, run) && Accepted(t, run, reviewedAt, artifact)
  {
    AcceptedRuns(t, run, reviewedAt, artifact);
    PathForms.HighRiskIff(run.changed);
    ShaIs(run.headSha);
    FiledIff(run.rawReviews);
    var reviews := ReviewsByProvider(run.rawReviews).value;
    assert Supersession(t, run, reviews) == Some(artifact.supersession);
    EvidenceRests(t, run, artifact.supersession);
  }

  lemma EvidenceRests(t: Tools, run: Run, evidence: Value)
    requires ReviewsByProvider(run.rawReviews).Some?
    requires Supersession(t, run, ReviewsByProvider(run.rawReviews).value) == Some(evidence)
    ensures Reviewed(t, run.rawReviews, Reviewers(run.implementer).0)
    ensures Reviewed(t, run.rawReviews, Reviewers(run.implementer).1)
    ensures RestsOn(evidence, t, run)
  {
    var reviews := ReviewsByProvider(run.rawReviews).value;
    var binding, required := HighRiskBinding(t.gate, run), GateEvidence.Quorum(run.implementer);
    var verdicts := ProviderVerdicts(t, binding, required, reviews).value;
    TwoReviewers(t, run, binding);
    QuorumIs(run.implementer);
    VerdictsRecord(t, binding, required, run.rawReviews, verdicts);
    DryRunEvidence.RecordSupersedes(run, binding, required, verdicts);
  }

  // ----- what the evidence states -----

  /** Whose evidence it is, and for how long it holds. */
  ghost predicate Heads(ev: Object, run: Run) {
    && Get(ev, KSchemaVersion) == Str("ao-ma-10-high-risk-supersession-evidence.v1")
    && Get(ev, KArtifactKind) == Str("ao_ma_10_high_risk_supersession_evidence")
    && Get(ev, KGeneratedAt) == Str(run.generatedAt) && Get(ev, KRepo) == Str(run.repository)
    && Get(ev, KWorkPackage) == Str(run.workPackage) && Get(ev, KPlanningOnly) == Bool(true)
    && Get(ev, KMaxReviseRounds) == Int(3) && Get(ev, KEscalationAction) == Str("operator_human_review_fallback")
    && Get(ev, KFreshness).Dict?
    && Get(Get(ev, KFreshness).fields, KStatus) == Str("fresh")
    && Get(Get(ev, KFreshness).fields, KMaxAgeSeconds) == Int(run.maxAge)
  }

  lemma HeaderHeads(run: Run)
    ensures Heads(HeaderFields(run), run)
    ensures HeaderFields(run).Keys == {KSchemaVersion, KArtifactKind, KGeneratedAt, KRepo, KWorkPackage, KPlanningOnly,
                                       KMaxReviseRounds, KEscalationAction, KFreshness}
  {
  }

  lemma ReviewKeys(run: Run, binding: Object, required: seq<string>, verdicts: seq<Value>)
    ensures ReviewFields(run, binding, required, verdicts).Keys ==
            {KContextBinding, KImplementerProvider, KReviewerProviders, KRequiredReviewerProviders, KProviderVerdicts,
             KConsensusStatus}
    ensures ReviewFields(run, binding, required, verdicts)[KConsensusStatus] == Str("AGREE")
  {
  }

  lemma AuthorityStates()
    ensures ClaimsNothing(AuthorityFields())
    ensures AuthorityFields().Keys ==
            {KReleaseAuthority, KAiOutputReleaseAuthority, KGuardFlags, KSecretsRecorded, KMutationsPerformed}
  {
  }

  /** Fields of one part are fields of the record. */
  lemma OnlyIn(h: Object, a: Object, r: Object)
    requires h.Keys !! a.Keys && h.Keys !! r.Keys && a.Keys !! r.Keys
    ensures forall k | k in h :: Get(h + a + r, k) == h[k]
    ensures forall k | k in a :: Get(h + a + r, k) == a[k]
    ensures forall k | k in r :: Get(h + a + r, k) == r[k]
  {
  }

  lemma UnionHeads(h: Object, ev: Object, run: Run)
    requires Heads(h, run) && forall k | k in h :: Get(ev, k) == h[k]
    ensures Heads(ev, run)
  {
  }

  lemma UnionClaims(a: Object, ev: Object)
    requires ClaimsNothing(a) && forall k | k in a :: Get(ev, k) == a[k]
    ensures ClaimsNothing(ev)
  {
  }

  /** The two reviewers, in the order of their names. */
  ghost function Alphabetical(implementer: string): (string, string) {
    if implementer == "openai" then ("anthropic", "minimax")
    else if implementer == "anthropic" then ("minimax", "openai")
    else ("anthropic", "openai")
  }

  lemma SortedPair(a: string, b: string)
    requires a != "" && b != "" && a[0] < b[0]
    ensures DiffDigest.Sorted([a, b]) == DiffDigest.Sorted([b, a]) == [a, b]
  {
    assert DiffDigest.DifferAt(a, b, 0);
    DiffDigest.LeMeans(a, b);
    DiffDigest.SortedIsOrdered([a, b]);
    DiffDigest.OrderedIsCanonical(DiffDigest.Sorted([a, b]), [a, b]);
    assert multiset([a, b]) == multiset([b, a]);
    DiffDigest.SortedIsCanonical([a, b], [b, a]);
  }

  lemma ReviewersInOrder(implementer: string)
    ensures var (a, b) := Reviewers(implementer);
      DiffDigest.Sorted([a, b]) == [Alphabetical(implementer).0, Alphabetical(implementer).1]
  {
    if implementer == "openai" {
      SortedPair("anthropic", "minimax");
    } else if implementer == "anthropic" {
      SortedPair("minimax", "openai");
    } else {
      SortedPair("anthropic", "openai");
    }
  }

  /** The evidence is about this run: who made the change, where it is, and who reviewed it. */
  ghost predicate IsAbout(w: World, ev: Object, run: Run) {
    && Get(ev, KImplementerProvider) == Str(run.implementer)
    && Get(ev, KConsensusStatus) == Str("AGREE")
    && Get(ev, KRequiredReviewerProviders) == List([Str(Reviewers(run.implementer).0), Str(Reviewers(run.implementer).1)])
    && Get(ev, KReviewerProviders) == List([Str(Alphabetical(run.implementer).0), Str(Alphabetical(run.implementer).1)])
    && Get(ev, KContextBinding).Dict?
    && var binding := Get(ev, KContextBinding).fields;
       && DryRunEvidence.Binds(binding, run, DiffDigest.Digest(w.hash, run.changed))
       && exists risky :: Get(binding, KHighRiskChangedPaths) == List(StrValues(risky)) && PathForms.AreHighRisk(risky, run.changed)
  }

  ghost predicate Apart(h: Object, a: Object, r: Object) {
    h.Keys !! a.Keys && h.Keys !! r.Keys && a.Keys !! r.Keys
  }

  lemma PartsState(h: Object, a: Object, r: Object, run: Run)
    requires Apart(h, a, r) && Heads(h, run) && ClaimsNothing(a)
    requires KConsensusStatus in r && r[KConsensusStatus] == Str("AGREE")
    ensures Heads(h + a + r, run) && ClaimsNothing(h + a + r) && Get(h + a + r, KConsensusStatus) == Str("AGREE")
  {
    OnlyIn(h, a, r);
    UnionHeads(h, h + a + r, run);
    UnionClaims(a, h + a + r);
  }

  lemma RecordStates(run: Run, binding: Object, required: seq<string>, verdicts: seq<Value>)
    ensures var ev := SupersessionRecord(run, binding, required, verdicts);
      Heads(ev, run) && ClaimsNothing(ev) && Get(ev, KConsensusStatus) == Str("AGREE")
  {
    var h, a, r := HeaderFields(run), AuthorityFields(), ReviewFields(run, binding, required, verdicts);
    HeaderHeads(run);
    AuthorityStates();
    ReviewKeys(run, binding, required, verdicts);
    PartsAreApart(h, a, r);
    PartsState(h, a, r, run);
  }

  lemma PartsAreApart(h: Object, a: Object, r: Object)
    requires h.Keys == {KSchemaVersion, KArtifactKind, KGeneratedAt, KRepo, KWorkPackage, KPlanningOnly,
                        KMaxReviseRounds, KEscalationAction, KFreshness}
    requires a.Keys == {KReleaseAuthority, KAiOutputReleaseAuthority, KGuardFlags, KSecretsRecorded, KMutationsPerformed}
    requires r.Keys == {KContextBinding, KImplementerProvider, KReviewerProviders, KRequiredReviewerProviders,
                        KProviderVerdicts, KConsensusStatus}
    ensures Apart(h, a, r)
  {
  }

  /** For every run that returns: what its evidence says of the run, field by field. */
  lemma ReturnedEvidenceStates(t: Tools, run: Run, reviewedAt: string, artifact: Artifact)
    requires DryRunOf(t, run, reviewedAt) == Some(artifact)
    ensures artifact.supersession.Dict? && Heads(artifact.supersession.fields, run)
    ensures ClaimsNothing(artifact.supersession.fields) && IsAbout(t.gate, artifact.supersession.fields, run)
  {
    var reviews := ReviewsByProvider(run.rawReviews).value;
    assert Supersession(t, run, reviews) == Some(artifact.supersession);
    EvidenceStates(t, run, reviews, artifact.supersession);
  }

  lemma BindingIsOf(w: World, run: Run)
    ensures DryRunEvidence.Binds(HighRiskBinding(w, run), run, DiffDigest.Digest(w.hash, run.changed))
    ensures Get(HighRiskBinding(w, run), KHighRiskChangedPaths) == List(StrValues(PathRules.HighRiskPaths(run.changed)))
  {
    DryRunEvidence.BindingBinds(run, GateEvidence.Digest(w, run.changed), PathRules.HighRiskPaths(run.changed));
  }

  lemma RecordIsAbout(w: World, ev: Object, run: Run, binding: Object, required: seq<string>, risky: seq<string>)
    requires Get(ev, KImplementerProvider) == Str(run.implementer) && Get(ev, KConsensusStatus) == Str("AGREE")
    requires Get(ev, KRequiredReviewerProviders) == List(StrValues(required)) && Get(ev, KContextBinding) == Dict(binding)
    requires required == [Reviewers(run.implementer).0, Reviewers(run.implementer).1]
    requires Get(ev, KReviewerProviders) == List(StrValues(DiffDigest.Sorted(required)))
    requires DryRunEvidence.Binds(binding, run, DiffDigest.Digest(w.hash, run.changed))
    requires Get(binding, KHighRiskChangedPaths) == List(StrValues(risky)) && PathForms.AreHighRisk(risky, run.changed)
    ensures IsAbout(w, ev, run)
  {
    ReviewersInOrder(run.implementer);
    TwoValues(required, Reviewers(run.implementer).0, Reviewers(run.implementer).1);
    TwoValues(DiffDigest.Sorted(required), Alphabetical(run.implementer).0, Alphabetical(run.implementer).1);
  }

  lemma TwoValues(ss: seq<string>, a: string, b: string)
    requires ss == [a, b]
    ensures StrValues(ss) == [Str(a), Str(b)]
  {
  }

  lemma EvidenceStates(t: Tools, run: Run, reviews: map<string, Value>, evidence: Value)
    requires Supersession(t, run, reviews) == Some(evidence)
    ensures evidence.Dict? && Heads(evidence.fields, run) && ClaimsNothing(evidence.fields)
    ensures IsAbout(t.gate, evidence.fields, run)
  {
    var binding, required := HighRiskBinding(t.gate, run), GateEvidence.Quorum(run.implementer);
    var verdicts := ProviderVerdicts(t, binding, required, reviews).value;
    var risky := PathRules.HighRiskPaths(run.changed);
    RecordStates(run, binding, required, verdicts);
    DryRunEvidence.RecordSupersedes(run, binding, required, verdicts);
    BindingIsOf(t.gate, run);
    QuorumIs(run.implementer);
    PathForms.HighRiskAre(run.changed, risky);
    RecordIsAbout(t.gate, evidence.fields, run, binding, required, risky);
  }

  // ----- when a run returns -----

  /** Every schema accepts. */
  ghost predicate Lenient(t: Tools) {
    && (forall v :: t.gate.supersessionSchema(v)) && (forall v :: t.gate.localGateSchema(v))
    && forall a :: t.artifactSchema(a)
  }

  /** Past the schemas of what it makes itself, a run returns exactly when it is grounded. */
  lemma ReturnsIffGrounded(t: Tools, run: Run, reviewedAt: string)
    requires Lenient(t)
    ensures DryRunOf(t, run, reviewedAt).Some? <==> Grounded(t, run)
  {
    if DryRunOf(t, run, reviewedAt).Some? {
      ReturnedRunsAreGrounded(t, run, reviewedAt, DryRunOf(t, run, reviewedAt).value);
    }
    if Grounded(t, run) {
      GroundedReturns(t, run, reviewedAt);
    }
  }

  lemma GroundedReturns(t: Tools, run: Run, reviewedAt: string)
    requires Lenient(t) && Grounded(t, run)
    ensures DryRunOf(t, run, reviewedAt).Some?
  {
    PathForms.HighRiskIff(run.changed);
    ShaIs(run.headSha);
    FiledIff(run.rawReviews);
    var reviews := ReviewsByProvider(run.rawReviews).value;
    TwoReviewers(t, run, HighRiskBinding(t.gate, run));
    EvidenceIsMade(t, run, reviews);
    EvidenceIsDecided(t, run, reviewedAt, reviews, Supersession(t, run, reviews).value);
  }

  lemma EvidenceIsMade(t: Tools, run: Run, reviews: map<string, Value>)
    requires Lenient(t)
    requires ProviderVerdicts(t, HighRiskBinding(t.gate, run), GateEvidence.Quorum(run.implementer), reviews).Some?
    ensures Supersession(t, run, reviews).Some?
  {
  }

  lemma EvidenceIsDecided(t: Tools, run: Run, reviewedAt: string, reviews: map<string, Value>, evidence: Value)
    requires Lenient(t) && PathRules.HighRiskPaths(run.changed) != [] && CanonicalSha(run.headSha)
    requires ReviewsByProvider(run.rawReviews) == Some(reviews) && Supersession(t, run, reviews) == Some(evidence)
    ensures DryRunOf(t, run, reviewedAt).Some?
  {
    DryRunLaws.PreparedRunsAreDecided(t, run, reviewedAt, reviews, evidence);
  }
}
