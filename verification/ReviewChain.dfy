/** From consensus to dry run: the raw reviews that an agreeing consensus run writes are fit for the
    high-risk dry run of the same implementer. */
module ReviewChain {
  import opened Text
  import opened Json
  import opened Consensus
  import opened ConsensusLaws
  import HighRiskDryRun
  import GateEvidence

  /** One record passes the tests that the dry run makes of it. */
  lemma RecordIsUsable(t: HighRiskDryRun.Tools, subject: Subject, result: ProviderResult, binding: Object)
    requires t.rawReviewSchema(RawRecord(subject, result))
    ensures HighRiskDryRun.ReviewProvider(RawRecord(subject, result)) == Some(result.provider)
    ensures HighRiskDryRun.ProviderVerdict(t, binding, result.provider, RawRecord(subject, result)).Some?
  {
  }

  ghost predicate IsWritten(raws: map<string, Value>, v: Value) {
    exists p :: p in raws && raws[p] == v
  }

  ghost predicate AllWritten(raws: map<string, Value>, files: seq<Value>) {
    forall i | 0 <= i < |files| :: IsWritten(raws, files[i])
  }

  /** The files that were written, in any order and with any repetition. */
  ghost predicate AreWritten(raws: map<string, Value>, files: seq<Value>) {
    && AllWritten(raws, files)
    && (forall p | p in raws :: raws[p] in files)
  }

  /** Each written record names its provider. */
  ghost predicate Name(raws: map<string, Value>) {
    forall p | p in raws :: HighRiskDryRun.ReviewProvider(raws[p]) == Some(p)
  }

  lemma {:induction false} AllAreNamed(raws: map<string, Value>, files: seq<Value>)
    requires Name(raws) && AllWritten(raws, files)
    ensures HighRiskDryRun.ReviewsByProvider(files).Some?
  {
    if files != [] {
      var k := |files| - 1;
      assert AllWritten(raws, files[..k]);
      AllAreNamed(raws, files[..k]);
      assert IsWritten(raws, files[k]);
    }
  }

  /** The dry run finds the record of each provider. */
  lemma RecordsAreFound(raws: map<string, Value>, files: seq<Value>, p: string)
    requires Name(raws) && AreWritten(raws, files) && p in raws
    ensures HighRiskDryRun.ReviewsByProvider(files).Some?
    ensures p in HighRiskDryRun.ReviewsByProvider(files).value
    ensures HighRiskDryRun.ReviewsByProvider(files).value[p] == raws[p]
  {
    AllAreNamed(raws, files);
    HighRiskDryRun.LastReviewCounts(files, p);
    var k :| 0 <= k < |files| && files[k] == raws[p];
    assert HighRiskDryRun.ReviewProvider(files[k]) == Some(p);
    var i :| 0 <= i < |files| && HighRiskDryRun.ReviewProvider(files[i]) == Some(p)
      && HighRiskDryRun.ReviewsByProvider(files).value[p] == files[i];
    assert IsWritten(raws, files[i]);
  }

  lemma {:induction false} VerdictsExist(t: HighRiskDryRun.Tools, binding: Object, providers: seq<string>, reviews: map<string, Value>)
    requires forall i | 0 <= i < |providers| ::
      providers[i] in reviews && HighRiskDryRun.ProviderVerdict(t, binding, providers[i], reviews[providers[i]]).Some?
    ensures HighRiskDryRun.ProviderVerdicts(t, binding, providers, reviews).Some?
  {
    if providers != [] {
      VerdictsExist(t, binding, providers[..|providers| - 1], reviews);
    }
  }

  lemma EvidenceIsUsable(w: World, t: HighRiskDryRun.Tools, subject: Subject, record: Value, result: ProviderResult, binding: Object)
    requires IsEvidence(w, subject, record, result)
    requires forall v :: w.rawReviewSchema(v) ==> t.rawReviewSchema(v)
    ensures HighRiskDryRun.ReviewProvider(record) == Some(result.provider)
    ensures HighRiskDryRun.ProviderVerdict(t, binding, result.provider, record).Some?
  {
    RecordIsUsable(t, subject, result, binding);
  }

  lemma EvidenceMakesVerdicts(w: World, t: HighRiskDryRun.Tools, subject: Subject, raws: map<string, Value>, round: Round,
                              providers: seq<string>, files: seq<Value>, binding: Object)
    requires EvidenceOf(w, subject, raws, round, providers) && IsRoundOf(w, round, providers)
    requires AreWritten(raws, files)
    requires forall v :: w.rawReviewSchema(v) ==> t.rawReviewSchema(v)
    ensures HighRiskDryRun.ReviewsByProvider(files).Some?
    ensures HighRiskDryRun.ProviderVerdicts(t, binding, providers, HighRiskDryRun.ReviewsByProvider(files).value).Some?
  {
    forall i | 0 <= i < |providers|
      ensures HighRiskDryRun.ReviewProvider(raws[providers[i]]) == Some(providers[i])
      ensures HighRiskDryRun.ProviderVerdict(t, binding, providers[i], raws[providers[i]]).Some?
    {
      EvidenceIsUsable(w, t, subject, raws[providers[i]], round.results[i], binding);
    }
    assert Name(raws);
    AllAreNamed(raws, files);
    var reviews := HighRiskDryRun.ReviewsByProvider(files).value;
    forall i | 0 <= i < |providers| ensures providers[i] in reviews && reviews[providers[i]] == raws[providers[i]] {
      RecordsAreFound(raws, files, providers[i]);
    }
    VerdictsExist(t, binding, providers, reviews);
  }

  /** When a consensus run agrees, a dry run of the same implementer over the files it wrote never
      raises on a raw review: every required provider has a verdict, whatever the binding. */
  lemma ConsensusFeedsDryRun(w: World, t: HighRiskDryRun.Tools, subject: Subject, maxRounds: int, artifact: Artifact,
                             files: seq<Value>, binding: Object)
    requires ConsensusOf(w, subject, maxRounds) == Some(artifact) && artifact.agreed
    requires AreWritten(artifact.rawReviews, files)
    requires forall v :: w.rawReviewSchema(v) ==> t.rawReviewSchema(v)
    ensures HighRiskDryRun.ReviewsByProvider(files).Some?
    ensures HighRiskDryRun.ProviderVerdicts(t, binding, GateEvidence.Quorum(subject.implementer),
                                            HighRiskDryRun.ReviewsByProvider(files).value).Some?
  {
    EvidenceIsOfTheUnanimousRound(w, subject, maxRounds, artifact);
    LastRoundAnswers(w, subject, maxRounds, artifact);
    EvidenceMakesVerdicts(w, t, subject, artifact.rawReviews, LastRound(artifact),
                          GateEvidence.Quorum(subject.implementer), files, binding);
  }
}
