/** What every run of the consensus protocol keeps, whatever the providers answer. */
module ConsensusLaws {
  import opened Text
  import opened Json
  import opened Consensus
  import GateEvidence
  import GateSupersession
  import Sequences

  // ----- the rounds -----

  /** What a provider answered to a request became its result. */
  ghost predicate AnswersRequest(w: World, result: ProviderResult, provider: string, request: Request) {
    var output := w.answer(provider, request);
    output.Some? && ResultFrom(w, output.value, provider) == Some(result)
  }

  lemma {:induction false} ResultsAnswer(w: World, providers: seq<string>, request: Request)
    requires ResultsOf(w, providers, request).Some?
    ensures var results := ResultsOf(w, providers, request).value;
      |results| == |providers|
      && forall i | 0 <= i < |providers| ::
           results[i].provider == providers[i] && AnswersRequest(w, results[i], providers[i], request)
  {
    if providers != [] {
      ResultsAnswer(w, providers[1..], request);
    }
  }

  /** One round's results come from the required providers, in order, answering one request. */
  ghost predicate IsRoundOf(w: World, round: Round, providers: seq<string>) {
    && |round.results| == |providers|
    && forall i | 0 <= i < |providers| ::
         round.results[i].provider == providers[i] && AnswersRequest(w, round.results[i], providers[i], round.request)
  }

  /** A round that starts from some feedback. */
  ghost predicate StartsFrom(subject: Subject, round: Round, index: nat, previous: seq<Feedback>) {
    round.index == index && round.request == Request(subject, index, previous)
  }

  /** A round that follows one without consensus: it is told of the results that did not agree. */
  ghost predicate Follows(subject: Subject, before: Round, after: Round) {
    && !Unanimous(before.results)
    && after.index == before.index + 1
    && after.request == Request(subject, after.index, FeedbackOf(before.results))
  }

  ghost predicate Chained(subject: Subject, rounds: seq<Round>) {
    forall k | 0 < k < |rounds| :: Follows(subject, rounds[k - 1], rounds[k])
  }

  ghost predicate AllRounds(w: World, rounds: seq<Round>, providers: seq<string>) {
    forall k | 0 <= k < |rounds| :: IsRoundOf(w, rounds[k], providers)
  }

  /** The last round is unanimous, or no more are allowed. */
  ghost predicate Ends(rounds: seq<Round>, maxRounds: nat) {
    rounds != [] && var last := rounds[|rounds| - 1]; Unanimous(last.results) || last.index == maxRounds
  }

  ghost predicate WellPlayed(subject: Subject, rounds: seq<Round>, i: nat, previous: seq<Feedback>, maxRounds: nat) {
    && rounds != [] && StartsFrom(subject, rounds[0], i, previous)
    && Chained(subject, rounds) && Ends(rounds, maxRounds)
  }

  lemma ChainedCons(subject: Subject, round: Round, rest: seq<Round>)
    requires rest != [] && Chained(subject, rest) && Follows(subject, round, rest[0])
    ensures Chained(subject, [round] + rest)
  {
    var rounds := [round] + rest;
    forall k | 0 < k < |rounds| ensures Follows(subject, rounds[k - 1], rounds[k]) {
      if k > 1 {
        assert Follows(subject, rest[k - 2], rest[k - 1]);
      }
    }
  }

  lemma WellPlayedCons(subject: Subject, round: Round, rest: seq<Round>,
                       i: nat, next: nat, previous: seq<Feedback>, maxRounds: nat)
    requires next == i + 1 && !Unanimous(round.results) && StartsFrom(subject, round, i, previous)
    requires WellPlayed(subject, rest, next, FeedbackOf(round.results), maxRounds)
    ensures WellPlayed(subject, [round] + rest, i, previous, maxRounds)
  {
    assert Follows(subject, round, rest[0]);
    ChainedCons(subject, round, rest);
    var rounds := [round] + rest;
    assert rounds[|rounds| - 1] == rest[|rest| - 1];
  }

  lemma AllRoundsCons(w: World, round: Round, rest: seq<Round>, providers: seq<string>)
    requires IsRoundOf(w, round, providers) && AllRounds(w, rest, providers)
    ensures AllRounds(w, [round] + rest, providers)
  {
    var rounds := [round] + rest;
    forall k | 0 <= k < |rounds| ensures IsRoundOf(w, rounds[k], providers) {
      if k > 0 {
        assert rounds[k] == rest[k - 1];
      }
    }
  }

  lemma OneRound(w: World, subject: Subject, providers: seq<string>, i: nat, previous: seq<Feedback>, round: Round)
    requires i >= 1 && PlayRound(w, subject, providers, i, previous) == Some(round)
    ensures StartsFrom(subject, round, i, previous) && IsRoundOf(w, round, providers)
  {
    ResultsAnswer(w, providers, round.request);
  }

  /** The rounds from the i-th on are the i-th and, unless it ends the run, those from the next on. */
  lemma Played(w: World, subject: Subject, providers: seq<string>, i: nat, previous: seq<Feedback>, maxRounds: nat,
               rounds: seq<Round>, next: nat) returns (round: Round, rest: seq<Round>)
    requires 1 <= i <= maxRounds && next == i + 1
    requires PlayFrom(w, subject, providers, i, previous, maxRounds) == Some(rounds)
    ensures PlayRound(w, subject, providers, i, previous) == Some(round) && rounds == [round] + rest
    ensures if Unanimous(round.results) || i == maxRounds then rest == []
            else rest != [] && PlayFrom(w, subject, providers, next, FeedbackOf(round.results), maxRounds) == Some(rest)
  {
    round := PlayRound(w, subject, providers, i, previous).value;
    var feedback := FeedbackOf(round.results);
    AfterRound(w, subject, providers, i, previous, maxRounds, round, next, feedback);
    if Unanimous(round.results) || i == maxRounds {
      rest := [];
      Sequences.SumNone([round]);
    } else {
      rest := PlayFrom(w, subject, providers, next, feedback, maxRounds).value;
    }
  }

  lemma WellPlayedLast(subject: Subject, round: Round, i: nat, previous: seq<Feedback>, maxRounds: nat)
    requires StartsFrom(subject, round, i, previous) && (Unanimous(round.results) || i == maxRounds)
    ensures WellPlayed(subject, [round] + [], i, previous, maxRounds)
  {
  }

  lemma {:induction false} RoundsAreWellPlayed(w: World, subject: Subject, providers: seq<string>,
                                               i: nat, previous: seq<Feedback>, maxRounds: nat, rounds: seq<Round>)
    requires 1 <= i <= maxRounds
    requires PlayFrom(w, subject, providers, i, previous, maxRounds) == Some(rounds)
    ensures WellPlayed(subject, rounds, i, previous, maxRounds)
    decreases maxRounds - i
  {
    var next := i + 1;
    var round, rest := Played(w, subject, providers, i, previous, maxRounds, rounds, next);
    OneRound(w, subject, providers, i, previous, round);
    if rest == [] {
      WellPlayedLast(subject, round, i, previous, maxRounds);
    } else {
      var feedback := FeedbackOf(round.results);
      RoundsAreWellPlayed(w, subject, providers, next, feedback, maxRounds, rest);
      WellPlayedCons(subject, round, rest, i, next, previous, maxRounds);
    }
  }

  lemma {:induction false} RoundsAreAnswered(w: World, subject: Subject, providers: seq<string>,
                                             i: nat, previous: seq<Feedback>, maxRounds: nat, rounds: seq<Round>)
    requires 1 <= i <= maxRounds
    requires PlayFrom(w, subject, providers, i, previous, maxRounds) == Some(rounds)
    ensures AllRounds(w, rounds, providers)
    decreases maxRounds - i
  {
    var next := i + 1;
    var round, rest := Played(w, subject, providers, i, previous, maxRounds, rounds, next);
    OneRound(w, subject, providers, i, previous, round);
    if rest != [] {
      RoundsAreAnswered(w, subject, providers, next, FeedbackOf(round.results), maxRounds, rest);
    }
    AllRoundsCons(w, round, rest, providers);
  }

  lemma {:induction false} IndicesAreConsecutive(subject: Subject, rounds: seq<Round>, k: nat)
    requires Chained(subject, rounds) && k < |rounds|
    ensures rounds[k].index == rounds[0].index + k
  {
    if k > 0 {
      IndicesAreConsecutive(subject, rounds, k - 1);
      assert Follows(subject, rounds[k - 1], rounds[k]);
    }
  }

  /** A run that returns has consecutive rounds about one subject. Each is answered by the required
      providers in order, each starts from the dissent of the one before, only the last may be
      unanimous, and it is the last allowed one when it is not. */
  lemma RunKeeps(w: World, subject: Subject, maxRounds: int, artifact: Artifact)
    requires ConsensusOf(w, subject, maxRounds) == Some(artifact)
    ensures var rounds := artifact.rounds;
      && 1 <= |rounds| <= maxRounds <= 3
      && (forall k | 0 <= k < |rounds| :: rounds[k].index == k + 1 == rounds[k].request.roundIndex)
      && (forall k | 0 <= k < |rounds| :: rounds[k].request.subject == subject)
      && rounds[0].request.previous == []
      && (forall k | 0 < k < |rounds| :: rounds[k].request.previous == FeedbackOf(rounds[k - 1].results))
      && AllRounds(w, rounds, GateEvidence.Quorum(subject.implementer))
      && (forall k | 0 <= k < |rounds| - 1 :: !Unanimous(rounds[k].results))
      && (artifact.agreed <==> Unanimous(rounds[|rounds| - 1].results))
      && (!artifact.agreed ==> |rounds| == maxRounds)
  {
    var rounds, providers := artifact.rounds, GateEvidence.Quorum(subject.implementer);
    RunConcludes(w, subject, maxRounds, artifact);
    RoundsAreWellPlayed(w, subject, providers, 1, [], maxRounds, rounds);
    RoundsAreAnswered(w, subject, providers, 1, [], maxRounds, rounds);
    RoundBudget(w, subject, providers, 1, [], maxRounds, rounds);
    ChainKeeps(subject, rounds);
    ConcludeMeans(w, subject, rounds, maxRounds, artifact);
    IndicesAreConsecutive(subject, rounds, |rounds| - 1);
  }

  /** What chained rounds that start afresh have in common. */
  lemma ChainKeeps(subject: Subject, rounds: seq<Round>)
    requires rounds != [] && StartsFrom(subject, rounds[0], 1, []) && Chained(subject, rounds)
    ensures forall k | 0 <= k < |rounds| :: rounds[k].index == k + 1 == rounds[k].request.roundIndex
    ensures forall k | 0 <= k < |rounds| :: rounds[k].request.subject == subject
    ensures forall k | 0 < k < |rounds| :: rounds[k].request.previous == FeedbackOf(rounds[k - 1].results)
    ensures forall k | 0 <= k < |rounds| - 1 :: !Unanimous(rounds[k].results)
  {
    forall k | 0 <= k < |rounds|
      ensures rounds[k].index == k + 1 == rounds[k].request.roundIndex && rounds[k].request.subject == subject
    {
      IndicesAreConsecutive(subject, rounds, k);
      if k > 0 {
        assert Follows(subject, rounds[k - 1], rounds[k]);
      }
    }
    forall k | 0 <= k < |rounds| - 1 ensures !Unanimous(rounds[k].results) {
      assert Follows(subject, rounds[k], rounds[k + 1]);
    }
  }

  lemma {:induction false} RoundBudget(w: World, subject: Subject, providers: seq<string>,
                                       i: nat, previous: seq<Feedback>, maxRounds: nat, rounds: seq<Round>)
    requires 1 <= i <= maxRounds
    requires PlayFrom(w, subject, providers, i, previous, maxRounds) == Some(rounds)
    ensures |rounds| <= maxRounds - i + 1
    decreases maxRounds - i
  {
    var next := i + 1;
    var round, rest := Played(w, subject, providers, i, previous, maxRounds, rounds, next);
    if rest != [] {
      RoundBudget(w, subject, providers, next, FeedbackOf(round.results), maxRounds, rest);
    }
  }

  lemma {:induction false} FeedbackAppend(a: seq<ProviderResult>, b: seq<ProviderResult>)
    ensures FeedbackOf(a + b) == FeedbackOf(a) + FeedbackOf(b)
  {
    if a == [] {
      assert a + b == b;
    } else {
      assert (a + b)[1..] == a[1..] + b;
      FeedbackAppend(a[1..], b);
    }
  }

  lemma {:induction false} FeedbackMembers(results: seq<ProviderResult>, f: Feedback)
    ensures f in FeedbackOf(results) <==>
            exists i :: 0 <= i < |results| && results[i].verdict != Agree && f == FeedbackFrom(results[i])
  {
    if results != [] {
      FeedbackMembers(results[1..], f);
      assert results == [results[0]] + results[1..];
    }
  }

  /** The feedback is the dissent and nothing else, and it keeps the order of the results: it
      distributes over concatenation. */
  lemma FeedbackIsDissent(a: seq<ProviderResult>, b: seq<ProviderResult>)
    ensures FeedbackOf(a + b) == FeedbackOf(a) + FeedbackOf(b)
    ensures forall f :: f in FeedbackOf(a) <==>
      exists i :: 0 <= i < |a| && a[i].verdict != Agree && f == FeedbackFrom(a[i])
  {
    FeedbackAppend(a, b);
    forall f: Feedback ensures f in FeedbackOf(a) <==>
      exists i :: 0 <= i < |a| && a[i].verdict != Agree && f == FeedbackFrom(a[i])
    {
      FeedbackMembers(a, f);
    }
  }

  // ----- the evidence of a unanimous run -----

  /** A result that can stand as evidence. */
  predicate GatePassing(result: ProviderResult) {
    && result.verdict == Agree && !Forbidden(result.findings)
    && CheckPresent(result.checks, "tests") && CheckPresent(result.checks, "secret_scan")
  }

  ghost predicate DistinctProviders(results: seq<ProviderResult>) {
    forall i, j | 0 <= i < j < |results| :: results[i].provider != results[j].provider
  }

  lemma RawReviewMeans(w: World, subject: Subject, result: ProviderResult)
    ensures RawReviewOf(w, subject, result) == if GatePassing(result) && Writable(w, RawRecord(subject, result)) then Some(RawRecord(subject, result)) else None
  {
  }

  ghost predicate Provides(results: seq<ProviderResult>, provider: string) {
    exists i :: 0 <= i < |results| && results[i].provider == provider
  }

  lemma {:induction false} RawReviewsCover(w: World, subject: Subject, results: seq<ProviderResult>)
    ensures RawReviewsOf(w, subject, results).Some? <==> forall i | 0 <= i < |results| :: RawReviewOf(w, subject, results[i]).Some?
    ensures RawReviewsOf(w, subject, results).Some? ==>
            forall p :: p in RawReviewsOf(w, subject, results).value <==> Provides(results, p)
  {
    if results != [] {
      var k := |results| - 1;
      RawReviewsCover(w, subject, results[..k]);
      assert forall i | 0 <= i < k :: results[..k][i] == results[i];
      forall p: string ensures Provides(results, p) <==> Provides(results[..k], p) || p == results[k].provider {
        if Provides(results[..k], p) {
          var i :| 0 <= i < k && results[..k][i].provider == p;
          assert results[i].provider == p;
        }
        if i :| 0 <= i < |results| && results[i].provider == p {
          if i < k {
            assert results[..k][i].provider == p;
          }
        }
      }
    }
  }

  lemma {:induction false} RawReviewsAre(w: World, subject: Subject, results: seq<ProviderResult>, i: nat)
    requires DistinctProviders(results) && RawReviewsOf(w, subject, results).Some? && i < |results|
    ensures results[i].provider in RawReviewsOf(w, subject, results).value
    ensures Some(RawReviewsOf(w, subject, results).value[results[i].provider]) == RawReviewOf(w, subject, results[i])
  {
    var k := |results| - 1;
    if i < k {
      assert forall j | 0 <= j < k :: results[..k][j] == results[j];
      RawReviewsAre(w, subject, results[..k], i);
    }
  }

  lemma RunConcludes(w: World, subject: Subject, maxRounds: int, artifact: Artifact)
    requires ConsensusOf(w, subject, maxRounds) == Some(artifact)
    ensures artifact.rounds != [] && 1 <= maxRounds <= 3
    ensures PlayFrom(w, subject, GateEvidence.Quorum(subject.implementer), 1, [], maxRounds) == Some(artifact.rounds)
    ensures Conclude(w, subject, artifact.rounds, maxRounds) == Some(artifact)
  {
  }

  /** The evidence is complete or absent: it exists exactly when every result passes the gate. */
  lemma RawReviewsMean(w: World, subject: Subject, results: seq<ProviderResult>)
    ensures RawReviewsOf(w, subject, results).Some? <==>
            forall i | 0 <= i < |results| :: GatePassing(results[i]) && Writable(w, RawRecord(subject, results[i]))
  {
    RawReviewsCover(w, subject, results);
    forall i | 0 <= i < |results|
      ensures RawReviewOf(w, subject, results[i]).Some? <==> GatePassing(results[i]) && Writable(w, RawRecord(subject, results[i]))
    {
      RawReviewMeans(w, subject, results[i]);
    }
  }

  lemma RoundEvidence(w: World, subject: Subject, round: Round, providers: seq<string>, raws: map<string, Value>, i: nat)
    requires IsRoundOf(w, round, providers) && RawReviewsOf(w, subject, round.results) == Some(raws) && i < |providers|
    requires forall a, b | 0 <= a < b < |providers| :: providers[a] != providers[b]
    ensures providers[i] in raws && IsEvidence(w, subject, raws[providers[i]], round.results[i])
  {
    RawReviewsAre(w, subject, round.results, i);
    RawReviewMeans(w, subject, round.results[i]);
  }

  lemma RoundProviders(w: World, round: Round, providers: seq<string>, p: string)
    requires IsRoundOf(w, round, providers)
    ensures Provides(round.results, p) <==> p in providers
  {
    if p in providers {
      var i :| 0 <= i < |providers| && providers[i] == p;
      assert round.results[i].provider == p;
    }
  }

  function LastRound(artifact: Artifact): Round
    requires artifact.rounds != []
  {
    artifact.rounds[|artifact.rounds| - 1]
  }

  lemma ConcludeMeans(w: World, subject: Subject, rounds: seq<Round>, maxRounds: nat, artifact: Artifact)
    requires rounds != [] && Conclude(w, subject, rounds, maxRounds) == Some(artifact)
    ensures artifact.rounds == rounds && (artifact.collected <==> artifact.agreed)
    ensures artifact.agreed <==> Unanimous(LastRound(artifact).results)
    ensures if artifact.agreed then RawReviewsOf(w, subject, LastRound(artifact).results) == Some(artifact.rawReviews)
            else artifact.rawReviews == map[]
  {
  }

  /** The written record of a result that can stand as evidence. */
  ghost predicate IsEvidence(w: World, subject: Subject, record: Value, result: ProviderResult) {
    GatePassing(result) && record == RawRecord(subject, result) && Writable(w, record)
  }

  ghost predicate EvidenceOf(w: World, subject: Subject, raws: map<string, Value>, round: Round, providers: seq<string>) {
    && |round.results| == |providers|
    && (forall p :: p in raws <==> p in providers)
    && forall i | 0 <= i < |providers| ::
         providers[i] in raws && IsEvidence(w, subject, raws[providers[i]], round.results[i])
  }

  lemma RoundHasEvidence(w: World, subject: Subject, round: Round, providers: seq<string>, raws: map<string, Value>)
    requires IsRoundOf(w, round, providers) && RawReviewsOf(w, subject, round.results) == Some(raws)
    requires forall a, b | 0 <= a < b < |providers| :: providers[a] != providers[b]
    ensures EvidenceOf(w, subject, raws, round, providers)
  {
    RawReviewsCover(w, subject, round.results);
    forall p: string ensures p in raws <==> p in providers {
      RoundProviders(w, round, providers, p);
    }
    forall i | 0 <= i < |providers|
      ensures providers[i] in raws && IsEvidence(w, subject, raws[providers[i]], round.results[i])
    {
      RoundEvidence(w, subject, round, providers, raws, i);
    }
  }

  lemma LastRoundAnswers(w: World, subject: Subject, maxRounds: int, artifact: Artifact)
    requires ConsensusOf(w, subject, maxRounds) == Some(artifact) && artifact.rounds != []
    ensures IsRoundOf(w, LastRound(artifact), GateEvidence.Quorum(subject.implementer))
  {
    RunKeeps(w, subject, maxRounds, artifact);
  }

  lemma QuorumIsDistinct(implementer: string)
    ensures var q := GateEvidence.Quorum(implementer); forall a, b | 0 <= a < b < |q| :: q[a] != q[b]
  {
    GateSupersession.QuorumExcludesImplementer(implementer);
  }

  /** The evidence written by a run is that of its unanimous last round: one gate-passing raw review
      for each required provider and no other, and none when there is no consensus. */
  lemma EvidenceIsOfTheUnanimousRound(w: World, subject: Subject, maxRounds: int, artifact: Artifact)
    requires ConsensusOf(w, subject, maxRounds) == Some(artifact)
    ensures artifact.rounds != [] && (artifact.collected <==> artifact.agreed)
    ensures if artifact.agreed then EvidenceOf(w, subject, artifact.rawReviews, LastRound(artifact), GateEvidence.Quorum(subject.implementer))
            else artifact.rawReviews == map[]
  {
    RunConcludes(w, subject, maxRounds, artifact);
    ConcludeMeans(w, subject, artifact.rounds, maxRounds, artifact);
    if artifact.agreed {
      LastRoundAnswers(w, subject, maxRounds, artifact);
      QuorumIsDistinct(subject.implementer);
      RoundHasEvidence(w, subject, LastRound(artifact), GateEvidence.Quorum(subject.implementer), artifact.rawReviews);
    }
  }

  // ----- what an agreement rests on -----

  /** A check entry of a provider's output that has this name and status. */
  ghost predicate Reported(entries: seq<Value>, name: string, status: string) {
    exists i :: 0 <= i < |entries| && entries[i].Dict?
      && Get(entries[i].fields, KName) == Str(name) && Get(entries[i].fields, KStatus) == Str(status)
  }

  /** The verdict of an output: in its reviewer block, if it has one. */
  function Stated(output: Object): Value {
    if Get(output, KReviewer).Dict? then Get(Get(output, KReviewer).fields, KVerdict) else Get(output, KVerdict)
  }

  /** An output that says AGREE, reports the two required checks as passing and never as failing,
      and has no forbidden finding. */
  ghost predicate SaysAgree(output: Value) {
    && output.Dict?
    && Stated(output.fields) == Str("AGREE")
    && Get(output.fields, KChecksConsidered).List? && Get(output.fields, KFindings).List?
    && (forall v | v in Get(output.fields, KFindings).items :: v.Str? && !StartsWith(v.s, "FORBIDDEN:"))
    && var entries := Get(output.fields, KChecksConsidered).items;
       && Reported(entries, "tests", "pass") && !Reported(entries, "tests", "fail")
       && Reported(entries, "secret_scan", "pass") && !Reported(entries, "secret_scan", "fail")
  }

  lemma {:induction false} ChecksAreEntries(vs: seq<Value>)
    requires ChecksOf(vs).Some?
    ensures |ChecksOf(vs).value| == |vs|
    ensures forall i | 0 <= i < |vs| :: CheckOf(vs[i]) == Some(ChecksOf(vs).value[i])
  {
    if vs != [] {
      ChecksAreEntries(vs[..|vs| - 1]);
    }
  }

  lemma PresentIsReported(vs: seq<Value>, name: string)
    requires ChecksOf(vs).Some? && CheckPresent(ChecksOf(vs).value, name)
    ensures Reported(vs, name, "pass") && !Reported(vs, name, "fail")
  {
    ChecksAreEntries(vs);
    var checks := ChecksOf(vs).value;
    var i :| 0 <= i < |checks| && checks[i].name == name;
    assert CheckOf(vs[i]) == Some(checks[i]) && checks[i].pass;
    forall j | 0 <= j < |vs| && vs[j].Dict? && Get(vs[j].fields, KName) == Str(name)
      ensures Get(vs[j].fields, KStatus) != Str("fail")
    {
      assert CheckOf(vs[j]) == Some(checks[j]);
    }
  }

  lemma PassingSaysAgree(w: World, output: Value, provider: string)
    requires ResultFrom(w, output, provider).Some? && GatePassing(ResultFrom(w, output, provider).value)
    ensures SaysAgree(output)
  {
    var result := ResultFrom(w, output, provider).value;
    var entries := Get(output.fields, KChecksConsidered).items;
    PresentIsReported(entries, "tests");
    PresentIsReported(entries, "secret_scan");
    VerdictIsStated(Stated(output.fields));
    FindingsAreAllowed(w, Get(output.fields, KFindings), result.findings);
  }

  lemma VerdictIsStated(v: Value)
    requires VerdictOf(v) == Some(Agree)
    ensures v == Str("AGREE")
  {
  }

  lemma FindingsAreAllowed(w: World, v: Value, findings: seq<string>)
    requires FindingsOf(w, v) == Some(findings) && !Forbidden(findings)
    ensures v.List? && forall f | f in v.items :: f.Str? && !StartsWith(f.s, "FORBIDDEN:")
  {
    assert StrValues(findings) == v.items;
  }

  /** An agreement rests on what the providers said: each required provider answered the last
      request with an output that agrees and is fit to be evidence. */
  lemma AgreementIsStated(w: World, subject: Subject, maxRounds: int, artifact: Artifact, i: nat)
    requires ConsensusOf(w, subject, maxRounds) == Some(artifact) && artifact.agreed
    requires i < |GateEvidence.Quorum(subject.implementer)|
    ensures artifact.rounds != []
    ensures var output := w.answer(GateEvidence.Quorum(subject.implementer)[i], LastRound(artifact).request);
      output.Some? && SaysAgree(output.value)
  {
    var provider := GateEvidence.Quorum(subject.implementer)[i];
    EvidenceIsOfTheUnanimousRound(w, subject, maxRounds, artifact);
    LastRoundAnswers(w, subject, maxRounds, artifact);
    var round := LastRound(artifact);
    AnsweredAndPassing(w, subject, artifact.rawReviews, round, GateEvidence.Quorum(subject.implementer), i);
    PassingSaysAgree(w, w.answer(provider, round.request).value, provider);
  }

  lemma AnsweredAndPassing(w: World, subject: Subject, raws: map<string, Value>, round: Round, providers: seq<string>, i: nat)
    requires EvidenceOf(w, subject, raws, round, providers) && IsRoundOf(w, round, providers) && i < |providers|
    ensures var output := w.answer(providers[i], round.request);
      output.Some? && ResultFrom(w, output.value, providers[i]).Some?
      && GatePassing(ResultFrom(w, output.value, providers[i]).value)
  {
    assert AnswersRequest(w, round.results[i], providers[i], round.request);
  }
}
