/** What a consensus run does, on the outputs of the providers: when another round is played, what it
    is told, when the run agrees, and what it records. */
module ConsensusGrounds {
  import opened Text
  import opened Json
  import opened Consensus
  import opened ConsensusLaws
  import GateEvidence
  import GatePolicy
  import PathForms
  import PathRules

  // ----- one output -----

  function Word(v: Verdict): string {
    match v
    case Agree => "AGREE"
    case Revise => "REVISE"
    case Block => "BLOCK"
    case Partial => "PARTIAL"
    case Red => "RED"
  }

  function StatedAgent(output: Object): Value {
    if Get(output, KReviewer).Dict? then Get(Get(output, KReviewer).fields, KAgent) else Get(output, KAgent)
  }

  lemma VerdictIs(v: Value)
    ensures VerdictOf(v).Some? ==> v == Str(Word(VerdictOf(v).value))
    ensures VerdictOf(v).None? ==>
            v != Str("AGREE") && v != Str("REVISE") && v != Str("BLOCK") && v != Str("PARTIAL") && v != Str("RED")
  {
  }

  lemma WordsDiffer(v: Verdict)
    ensures Word(v) == "AGREE" <==> v == Agree
  {
    assert "REVISE"[0] != 'A' && "BLOCK"[0] != 'A' && "PARTIAL"[0] != 'A' && "RED"[0] != 'A';
  }

  /** An entry of the reported checks that has a name and passed or failed. */
  ghost predicate IsEntry(v: Value) {
    && v.Dict? && Get(v.fields, KName).Str?
    && (Get(v.fields, KStatus) == Str("pass") || Get(v.fields, KStatus) == Str("fail"))
  }

  /** An output that can be read. */
  ghost predicate Readable(w: World, output: Value) {
    && output.Dict?
    && Stated(output.fields) in [Str("AGREE"), Str("REVISE"), Str("BLOCK"), Str("PARTIAL"), Str("RED")]
    && Get(output.fields, KChecksConsidered).List? && Get(output.fields, KFindings).List?
    && (forall v | v in Get(output.fields, KChecksConsidered).items :: IsEntry(v))
    && (forall v | v in Get(output.fields, KFindings).items :: v.Str? && v.s != "" && w.noSecret(v.s))
    && (StatedAgent(output.fields).Str? && StatedAgent(output.fields) != Str("") ==> w.noSecret(StatedAgent(output.fields).s))
  }

  lemma {:induction false} EntriesRead(vs: seq<Value>)
    ensures ChecksOf(vs).Some? <==> forall i | 0 <= i < |vs| :: IsEntry(vs[i])
  {
    if vs != [] {
      var k := |vs| - 1;
      EntriesRead(vs[..k]);
      assert forall i | 0 <= i < k :: vs[..k][i] == vs[i];
      assert CheckOf(vs[k]).Some? <==> IsEntry(vs[k]);
    }
  }

  /** A provider's output becomes a result exactly when it can be read. */
  lemma ResultIffReadable(w: World, output: Value, provider: string)
    ensures ResultFrom(w, output, provider).Some? <==> Readable(w, output)
  {
    if output.Dict? {
      VerdictIs(Stated(output.fields));
      if Get(output.fields, KChecksConsidered).List? {
        EntriesRead(Get(output.fields, KChecksConsidered).items);
      }
    }
  }

  /** What a result says, on the output it was read from. */
  ghost predicate Tells(result: ProviderResult, output: Value, provider: string) {
    && output.Dict? && result.provider == provider
    && Stated(output.fields) == Str(Word(result.verdict))
    && Get(output.fields, KFindings) == List(StrValues(result.findings))
    && (if StatedAgent(output.fields).Str? && StatedAgent(output.fields) != Str("")
        then Str(result.agent) == StatedAgent(output.fields) else result.agent == provider + "-reviewer")
    && Get(output.fields, KChecksConsidered).List? && EntriesAre(Get(output.fields, KChecksConsidered).items, result.checks)
  }

  ghost predicate EntriesAre(entries: seq<Value>, checks: seq<ReviewCheck>) {
    && |entries| == |checks|
    && forall i | 0 <= i < |entries| ::
         && entries[i].Dict? && Get(entries[i].fields, KName) == Str(checks[i].name)
         && Get(entries[i].fields, KStatus) == Str(if checks[i].pass then "pass" else "fail")
  }

  lemma ChecksAreTheEntries(vs: seq<Value>)
    requires ChecksOf(vs).Some?
    ensures EntriesAre(vs, ChecksOf(vs).value)
  {
    ChecksAreEntries(vs);
    var checks := ChecksOf(vs).value;
    forall i | 0 <= i < |vs|
      ensures vs[i].Dict? && Get(vs[i].fields, KName) == Str(checks[i].name)
      ensures Get(vs[i].fields, KStatus) == Str(if checks[i].pass then "pass" else "fail")
    {
      assert CheckOf(vs[i]) == Some(checks[i]);
    }
  }

  lemma ResultTells(w: World, output: Value, provider: string, result: ProviderResult)
    requires ResultFrom(w, output, provider) == Some(result)
    ensures Tells(result, output, provider)
  {
    VerdictIs(Stated(output.fields));
    ChecksAreTheEntries(Get(output.fields, KChecksConsidered).items);
  }

  // ----- rounds -----

  /** The provider answered with an output that does not agree. */
  ghost predicate Dissents(w: World, provider: string, request: Request) {
    && w.answer(provider, request).Some? && w.answer(provider, request).value.Dict?
    && Stated(w.answer(provider, request).value.fields) != Str("AGREE")
  }

  /** What the next round is told of a provider's output: nothing when it agreed. */
  ghost predicate IsToldOf(w: World, provider: string, request: Request, told: seq<Feedback>) {
    if !Dissents(w, provider, request) then told == []
    else
      var output := w.answer(provider, request).value.fields;
      && |told| == 1 && told[0].provider == provider
      && Stated(output) == Str(Word(told[0].verdict)) && Get(output, KFindings) == List(StrValues(told[0].findings))
  }

  ghost predicate IsTold(w: World, a: string, b: string, request: Request, told: seq<Feedback>) {
    exists x, y :: IsToldOf(w, a, request, x) && IsToldOf(w, b, request, y) && told == x + y
  }

  lemma OneIsTold(w: World, result: ProviderResult, provider: string, request: Request)
    requires result.provider == provider && AnswersRequest(w, result, provider, request)
    ensures IsToldOf(w, provider, request, if result.verdict != Agree then [FeedbackFrom(result)] else [])
    ensures Dissents(w, provider, request) <==> result.verdict != Agree
  {
    var output := w.answer(provider, request).value;
    ResultTells(w, output, provider, result);
    WordsDiffer(result.verdict);
  }

  lemma FeedbackOfTwo(results: seq<ProviderResult>)
    requires |results| == 2
    ensures FeedbackOf(results) ==
            (if results[0].verdict != Agree then [FeedbackFrom(results[0])] else [])
            + (if results[1].verdict != Agree then [FeedbackFrom(results[1])] else [])
  {
    var rest := results[1..];
    assert rest[1..] == [] && rest[0] == results[1];
    assert FeedbackOf(rest) == (if rest[0].verdict != Agree then [FeedbackFrom(rest[0])] else []) + FeedbackOf(rest[1..]);
  }

  lemma TwoResults(w: World, round: Round, a: string, b: string)
    requires IsRoundOf(w, round, [a, b])
    ensures Unanimous(round.results) <==> !Dissents(w, a, round.request) && !Dissents(w, b, round.request)
    ensures IsTold(w, a, b, round.request, FeedbackOf(round.results))
  {
    var r := round.results;
    assert [a, b][0] == a && [a, b][1] == b;
    OneIsTold(w, r[0], a, round.request);
    OneIsTold(w, r[1], b, round.request);
    FeedbackOfTwo(r);
  }

  lemma ReviewersAnswer(w: World, subject: Subject, maxRounds: int, artifact: Artifact, k: nat)
    requires ConsensusOf(w, subject, maxRounds) == Some(artifact) && k < |artifact.rounds|
    ensures IsRoundOf(w, artifact.rounds[k], [GatePolicy.Reviewers(subject.implementer).0, GatePolicy.Reviewers(subject.implementer).1])
  {
    RunKeeps(w, subject, maxRounds, artifact);
    GatePolicy.QuorumIs(subject.implementer);
  }

  lemma AnotherUnlessUnanimous(w: World, subject: Subject, maxRounds: int, artifact: Artifact, k: nat)
    requires ConsensusOf(w, subject, maxRounds) == Some(artifact) && k < |artifact.rounds|
    ensures k + 1 < |artifact.rounds| <==> k + 1 < maxRounds && !Unanimous(artifact.rounds[k].results)
    ensures k + 1 < |artifact.rounds| ==> artifact.rounds[k + 1].request.previous == FeedbackOf(artifact.rounds[k].results)
    ensures k + 1 == |artifact.rounds| ==> (artifact.agreed <==> Unanimous(artifact.rounds[k].results))
  {
    RunKeeps(w, subject, maxRounds, artifact);
    if k + 1 < |artifact.rounds| {
      assert !Unanimous(artifact.rounds[k].results);
    }
  }

  /** For every run that returns: a round is followed by another exactly when one of the two
      reviewers did not say AGREE and rounds remain, and the other is told just what the dissenting
      outputs say, in order. The run agrees exactly when both said AGREE in the last round. */
  lemma AnotherRoundIff(w: World, subject: Subject, maxRounds: int, artifact: Artifact, k: nat)
    requires ConsensusOf(w, subject, maxRounds) == Some(artifact) && k < |artifact.rounds|
    ensures var (a, b) := GatePolicy.Reviewers(subject.implementer);
      var request := artifact.rounds[k].request;
      && (k + 1 < |artifact.rounds| <==>
            k + 1 < maxRounds && (Dissents(w, a, request) || Dissents(w, b, request)))
      && (k + 1 < |artifact.rounds| ==> IsTold(w, a, b, request, artifact.rounds[k + 1].request.previous))
      && (k + 1 == |artifact.rounds| ==> (artifact.agreed <==> !Dissents(w, a, request) && !Dissents(w, b, request)))
  {
    AnotherUnlessUnanimous(w, subject, maxRounds, artifact, k);
    ReviewersAnswer(w, subject, maxRounds, artifact, k);
    TwoResults(w, artifact.rounds[k], GatePolicy.Reviewers(subject.implementer).0, GatePolicy.Reviewers(subject.implementer).1);
  }

  // ----- outputs that are fit to be evidence -----

  /** The entry at one index says what the check there says. */
  ghost predicate Matches(entry: Value, check: ReviewCheck, name: string) {
    && entry.Dict?
    && (check.name == name <==> Get(entry.fields, KName) == Str(name))
    && (check.pass <==> Get(entry.fields, KStatus) == Str("pass"))
    && (!check.pass <==> Get(entry.fields, KStatus) == Str("fail"))
  }

  lemma EntryMatches(entry: Value, check: ReviewCheck, name: string)
    requires entry.Dict? && Get(entry.fields, KName) == Str(check.name)
    requires Get(entry.fields, KStatus) == Str(if check.pass then "pass" else "fail")
    ensures Matches(entry, check, name)
  {
    assert "pass" != "fail";
  }

  ghost predicate AllMatch(entries: seq<Value>, checks: seq<ReviewCheck>, name: string) {
    |entries| == |checks| && forall i | 0 <= i < |checks| :: Matches(entries[i], checks[i], name)
  }

  lemma PresentIsPassing(entries: seq<Value>, checks: seq<ReviewCheck>, name: string)
    requires AllMatch(entries, checks, name) && CheckPresent(checks, name)
    ensures Reported(entries, name, "pass") && !Reported(entries, name, "fail")
  {
    var i :| 0 <= i < |checks| && checks[i].name == name;
    assert Matches(entries[i], checks[i], name);
    forall j | 0 <= j < |entries| && Get(AsDict(entries[j]), KName) == Str(name)
      ensures Get(AsDict(entries[j]), KStatus) != Str("fail")
    {
      assert Matches(entries[j], checks[j], name);
    }
  }

  lemma PassingIsPresent(entries: seq<Value>, checks: seq<ReviewCheck>, name: string)
    requires AllMatch(entries, checks, name)
    requires Reported(entries, name, "pass") && !Reported(entries, name, "fail")
    ensures CheckPresent(checks, name)
  {
    var i :| 0 <= i < |entries| && entries[i].Dict?
      && Get(entries[i].fields, KName) == Str(name) && Get(entries[i].fields, KStatus) == Str("pass");
    assert Matches(entries[i], checks[i], name);
    forall j | 0 <= j < |checks| && checks[j].name == name ensures checks[j].pass {
      assert Matches(entries[j], checks[j], name);
    }
  }

  lemma ReportedIsPresent(entries: seq<Value>, checks: seq<ReviewCheck>, name: string)
    requires EntriesAre(entries, checks)
    ensures CheckPresent(checks, name) <==> Reported(entries, name, "pass") && !Reported(entries, name, "fail")
  {
    forall i | 0 <= i < |checks| ensures Matches(entries[i], checks[i], name) {
      EntryMatches(entries[i], checks[i], name);
    }
    if CheckPresent(checks, name) {
      PresentIsPassing(entries, checks, name);
    } else if Reported(entries, name, "pass") && !Reported(entries, name, "fail") {
      PassingIsPresent(entries, checks, name);
    }
  }

  lemma NothingForbidden(findings: seq<string>, items: seq<Value>)
    requires items == StrValues(findings)
    ensures !Forbidden(findings) <==> forall v | v in items :: v.Str? && !StartsWith(v.s, "FORBIDDEN:")
  {
    if Forbidden(findings) {
      var i :| 0 <= i < |findings| && StartsWith(findings[i], "FORBIDDEN:");
      assert items[i] in items;
    }
  }

  /** A readable output is fit to be evidence exactly when it says so. */
  lemma FitIffSaysAgree(w: World, output: Value, provider: string, result: ProviderResult)
    requires ResultFrom(w, output, provider) == Some(result)
    ensures GatePassing(result) <==> SaysAgree(output)
  {
    ResultTells(w, output, provider, result);
    WordsDiffer(result.verdict);
    var entries := Get(output.fields, KChecksConsidered).items;
    ReportedIsPresent(entries, result.checks, "tests");
    ReportedIsPresent(entries, result.checks, "secret_scan");
    NothingForbidden(result.findings, Get(output.fields, KFindings).items);
  }

  // ----- the written reviews -----

  /** The record is of this subject. */
  ghost predicate IsOf(record: Object, subject: Subject) {
    && Get(record, KSchemaVersion) == Str("local-ai-review-evidence.v1")
    && Get(record, KRepo) == Str(subject.repository) && Get(record, KWorkPackage) == Str(subject.workPackage)
    && Get(record, KImplementer).Dict?
    && Get(Get(record, KImplementer).fields, KAgent) == Str(subject.agent)
    && Get(Get(record, KImplementer).fields, KProvider) == Str(subject.implementer)
    && Get(record, KScopeReviewed).Dict?
    && Get(Get(record, KScopeReviewed).fields, KBaseRef) == Str(subject.baseRef)
    && Get(Get(record, KScopeReviewed).fields, KHeadRef) == Str(subject.headRef)
    && Get(Get(record, KScopeReviewed).fields, KChangedFiles) == List(StrValues(subject.changed))
  }

  /** And states the result. */
  ghost predicate StatesResult(record: Object, result: ProviderResult) {
    && Get(record, KReviewer).Dict?
    && Get(Get(record, KReviewer).fields, KAgent) == Str(result.agent)
    && Get(Get(record, KReviewer).fields, KProvider) == Str(result.provider)
    && Get(Get(record, KReviewer).fields, KVerdict) == Str("AGREE")
    && Get(record, KFindings) == List(StrValues(result.findings))
    && Get(record, KSecretsRecorded) == Bool(false) && Get(record, KLiveAdapterExecution) == Bool(false)
    && Get(record, KSupportWidening) == Bool(false) && Get(record, KProductionPlatformClaim) == Bool(false)
    && Get(record, KChecksConsidered).List? && EntriesAre(Get(record, KChecksConsidered).items, result.checks)
  }

  lemma RecordIsOf(subject: Subject, result: ProviderResult)
    ensures IsOf(RawRecord(subject, result).fields, subject)
  {
  }

  lemma RecordChecks(checks: seq<ReviewCheck>)
    ensures EntriesAre(CheckRecords(checks), checks)
  {
  }

  lemma RecordStatesResult(subject: Subject, result: ProviderResult)
    ensures StatesResult(RawRecord(subject, result).fields, result)
  {
    RecordChecks(result.checks);
  }

  /** For every run that agrees: what is written for each reviewer is a record of this subject and of
      what that reviewer's last output says, and that output is fit to be evidence. */
  lemma RecordsTellOutputs(w: World, subject: Subject, maxRounds: int, artifact: Artifact, i: nat)
    requires ConsensusOf(w, subject, maxRounds) == Some(artifact) && artifact.agreed && i < 2
    ensures artifact.rounds != []
    ensures var (a, b) := GatePolicy.Reviewers(subject.implementer);
      var provider := if i == 0 then a else b;
      var output := w.answer(provider, LastRound(artifact).request);
      && provider in artifact.rawReviews && artifact.rawReviews[provider].Dict?
      && IsOf(artifact.rawReviews[provider].fields, subject)
      && output.Some? && SaysAgree(output.value)
      && exists result :: StatesResult(artifact.rawReviews[provider].fields, result) && Tells(result, output.value, provider)
  {
    var providers := GateEvidence.Quorum(subject.implementer);
    GatePolicy.QuorumIs(subject.implementer);
    EvidenceIsOfTheUnanimousRound(w, subject, maxRounds, artifact);
    LastRoundAnswers(w, subject, maxRounds, artifact);
    RecordTells(w, subject, artifact.rawReviews, LastRound(artifact), providers, i);
  }

  lemma RecordTells(w: World, subject: Subject, raws: map<string, Value>, round: Round, providers: seq<string>, i: nat)
    requires EvidenceOf(w, subject, raws, round, providers) && IsRoundOf(w, round, providers) && i < |providers|
    ensures var output := w.answer(providers[i], round.request);
      && providers[i] in raws && raws[providers[i]].Dict? && IsOf(raws[providers[i]].fields, subject)
      && output.Some? && SaysAgree(output.value)
      && exists result :: StatesResult(raws[providers[i]].fields, result) && Tells(result, output.value, providers[i])
  {
    var result, output := round.results[i], w.answer(providers[i], round.request);
    assert AnswersRequest(w, result, providers[i], round.request);
    assert IsEvidence(w, subject, raws[providers[i]], result);
    RecordIsOf(subject, result);
    RecordStatesResult(subject, result);
    ResultTells(w, output.value, providers[i], result);
    FitIffSaysAgree(w, output.value, providers[i], result);
  }

  // ----- what a run has tested -----

  /** The tests from one to before another found the refs in place. */
  ghost predicate StableWithin(w: World, from: nat, to: nat) {
    forall k: nat | from <= k < to :: w.stable(k)
  }

  ghost predicate FitRequests(w: World, rounds: seq<Round>) {
    forall k | 0 <= k < |rounds| :: w.requestOk(rounds[k].request)
  }

  lemma StableCons(w: World, from: nat, to: nat)
    requires w.stable(from) && w.stable(from + 1) && StableWithin(w, from + 2, to)
    ensures StableWithin(w, from, to)
  {
  }

  lemma FitCons(w: World, round: Round, rest: seq<Round>)
    requires w.requestOk(round.request) && FitRequests(w, rest)
    ensures FitRequests(w, [round] + rest)
  {
  }

  lemma RoundWasTested(w: World, subject: Subject, providers: seq<string>, i: nat, previous: seq<Feedback>, round: Round, from: nat)
    requires i >= 1 && PlayRound(w, subject, providers, i, previous) == Some(round) && from == 2 * i - 2
    ensures w.requestOk(round.request) && w.stable(from) && w.stable(from + 1)
  {
  }

  lemma {:induction false} RoundsWereTested(w: World, subject: Subject, providers: seq<string>, i: nat, previous: seq<Feedback>,
                                            maxRounds: nat, rounds: seq<Round>, from: nat, to: nat)
    requires 1 <= i <= maxRounds && from == 2 * i - 2 && to == from + 2 * |rounds|
    requires PlayFrom(w, subject, providers, i, previous, maxRounds) == Some(rounds)
    ensures FitRequests(w, rounds) && StableWithin(w, from, to)
    decreases maxRounds - i
  {
    var next, later := i + 1, from + 2;
    var round, rest := Played(w, subject, providers, i, previous, maxRounds, rounds, next);
    RoundWasTested(w, subject, providers, i, previous, round, from);
    if rest != [] {
      RoundsWereTested(w, subject, providers, next, FeedbackOf(round.results), maxRounds, rest, later, to);
    }
    FitCons(w, round, rest);
    StableCons(w, from, to);
  }

  /** For every run that returns: the refs had not moved before, within or after any of its rounds,
      every request was fit to be sent, and its artifact and its collection of reviews are accepted. */
  lemma RunWasTested(w: World, subject: Subject, maxRounds: int, artifact: Artifact)
    requires ConsensusOf(w, subject, maxRounds) == Some(artifact)
    ensures StableWithin(w, 0, 2 * |artifact.rounds| + 1) && FitRequests(w, artifact.rounds)
    ensures w.artifactOk(artifact) && (artifact.agreed ==> w.collectionOk(artifact.rawReviews)) && artifact.maxRounds == maxRounds
  {
    RunConcludes(w, subject, maxRounds, artifact);
    RunIsStable(w, subject, GateEvidence.Quorum(subject.implementer), maxRounds, artifact.rounds, artifact, 1, []);
  }

  lemma RunIsStable(w: World, subject: Subject, providers: seq<string>, maxRounds: nat, rounds: seq<Round>, artifact: Artifact,
                    first: nat, none: seq<Feedback>)
    requires first == 1 && none == [] && 1 <= maxRounds && rounds != []
    requires PlayFrom(w, subject, providers, first, none, maxRounds) == Some(rounds)
    requires Conclude(w, subject, rounds, maxRounds) == Some(artifact)
    ensures StableWithin(w, 0, 2 * |rounds| + 1) && FitRequests(w, rounds)
    ensures w.artifactOk(artifact) && (artifact.agreed ==> w.collectionOk(artifact.rawReviews)) && artifact.maxRounds == maxRounds
  {
    var to := 2 * |rounds|;
    RoundsWereTested(w, subject, providers, first, none, maxRounds, rounds, 0, to);
    EndWasTested(w, subject, rounds, maxRounds, artifact);
    forall k: nat | k < to + 1 ensures w.stable(k) {
      assert k < to ==> w.stable(k);
    }
  }

  /** And what was written holds no secret and is accepted by its schema. */
  lemma ReviewsWereTested(w: World, subject: Subject, maxRounds: int, artifact: Artifact, p: string)
    requires ConsensusOf(w, subject, maxRounds) == Some(artifact) && p in artifact.rawReviews
    ensures w.noSecretIn(artifact.rawReviews[p]) && w.rawReviewSchema(artifact.rawReviews[p])
  {
    EvidenceIsOfTheUnanimousRound(w, subject, maxRounds, artifact);
    WrittenIsWritable(w, subject, artifact.rawReviews, LastRound(artifact), GateEvidence.Quorum(subject.implementer));
  }

  lemma EndWasTested(w: World, subject: Subject, rounds: seq<Round>, maxRounds: nat, artifact: Artifact)
    requires rounds != [] && Conclude(w, subject, rounds, maxRounds) == Some(artifact)
    ensures w.stable(2 * |rounds|) && w.artifactOk(artifact) && artifact.maxRounds == maxRounds
    ensures artifact.agreed ==> w.collectionOk(artifact.rawReviews)
  {
  }

  lemma WrittenIsWritable(w: World, subject: Subject, raws: map<string, Value>, round: Round, providers: seq<string>)
    requires EvidenceOf(w, subject, raws, round, providers)
    ensures forall p | p in raws :: w.noSecretIn(raws[p]) && w.rawReviewSchema(raws[p])
  {
    forall p | p in raws ensures w.noSecretIn(raws[p]) && w.rawReviewSchema(raws[p]) {
      var i :| 0 <= i < |providers| && providers[i] == p;
      assert IsEvidence(w, subject, raws[providers[i]], round.results[i]);
    }
  }

  // ----- when a run returns -----

  /** The refs never move, and every test of what the run makes itself passes. */
  ghost predicate Lenient(w: World) {
    && (forall k :: w.stable(k)) && (forall r :: w.requestOk(r))
    && (forall v :: w.noSecretIn(v)) && (forall v :: w.rawReviewSchema(v))
    && (forall raws :: w.collectionOk(raws)) && forall a :: w.artifactOk(a)
  }

  ghost predicate AnswersReadably(w: World, provider: string, request: Request) {
    w.answer(provider, request).Some? && Readable(w, w.answer(provider, request).value)
  }

  ghost predicate AnswersAgree(w: World, provider: string, request: Request) {
    w.answer(provider, request).Some? && SaysAgree(w.answer(provider, request).value)
  }

  /** The protocol goes through from the i-th round on: both providers answer readably; when both
      agree, both outputs are fit to be evidence; and otherwise this is the last round, or the next,
      told of the dissent, goes through. */
  ghost predicate GoesThrough(w: World, subject: Subject, a: string, b: string, i: nat, previous: seq<Feedback>, maxRounds: nat)
    decreases maxRounds - i
  {
    var request := Request(subject, i, previous);
    && AnswersReadably(w, a, request) && AnswersReadably(w, b, request)
    && if !Dissents(w, a, request) && !Dissents(w, b, request)
       then AnswersAgree(w, a, request) && AnswersAgree(w, b, request)
       else i >= maxRounds || exists told :: IsTold(w, a, b, request, told) && GoesThrough(w, subject, a, b, i + 1, told, maxRounds)
  }

  lemma SameFeedback(x: Feedback, y: Feedback)
    requires x.provider == y.provider && Word(x.verdict) == Word(y.verdict) && StrValues(x.findings) == StrValues(y.findings)
    ensures x == y
  {
    assert VerdictOf(Str(Word(x.verdict))) == Some(x.verdict) && VerdictOf(Str(Word(y.verdict))) == Some(y.verdict);
    forall k | 0 <= k < |x.findings| ensures k < |y.findings| && x.findings[k] == y.findings[k] {
      assert StrValues(x.findings)[k] == StrValues(y.findings)[k];
    }
    assert |StrValues(x.findings)| == |StrValues(y.findings)|;
  }

  lemma ToldOnce(w: World, provider: string, request: Request, x: seq<Feedback>, y: seq<Feedback>)
    requires IsToldOf(w, provider, request, x) && IsToldOf(w, provider, request, y)
    ensures x == y
  {
    if Dissents(w, provider, request) {
      SameFeedback(x[0], y[0]);
    }
  }

  /** The outputs of a round determine what the next is told. */
  lemma OneTelling(w: World, a: string, b: string, request: Request, told: seq<Feedback>, other: seq<Feedback>)
    requires IsTold(w, a, b, request, told) && IsTold(w, a, b, request, other)
    ensures told == other
  {
    var x, y :| IsToldOf(w, a, request, x) && IsToldOf(w, b, request, y) && told == x + y;
    var u, v :| IsToldOf(w, a, request, u) && IsToldOf(w, b, request, v) && other == u + v;
    ToldOnce(w, a, request, x, u);
    ToldOnce(w, b, request, y, v);
  }

  lemma ResultsIffReadable(w: World, a: string, b: string, request: Request)
    ensures ResultsOf(w, [a, b], request).Some? <==> AnswersReadably(w, a, request) && AnswersReadably(w, b, request)
  {
    var both, rest := [a, b], [b];
    assert both[1..] == rest && rest[1..] == [];
    assert ResultsOf(w, [], request) == Some([]);
    if w.answer(a, request).Some? {
      ResultIffReadable(w, w.answer(a, request).value, a);
    }
    if w.answer(b, request).Some? {
      ResultIffReadable(w, w.answer(b, request).value, b);
    }
    assert ResultsOf(w, rest, request).Some? <==> AnswersReadably(w, b, request);
  }

  lemma RoundIffReadable(w: World, subject: Subject, a: string, b: string, i: nat, previous: seq<Feedback>)
    requires Lenient(w) && i >= 1
    ensures var request := Request(subject, i, previous);
      PlayRound(w, subject, [a, b], i, previous).Some? <==> AnswersReadably(w, a, request) && AnswersReadably(w, b, request)
  {
    ResultsIffReadable(w, a, b, Request(subject, i, previous));
  }

  /** The rounds from the i-th on are played, and the last can be turned into evidence if it agrees. */
  ghost predicate EndsWell(w: World, subject: Subject, rounds: Option<seq<Round>>) {
    && rounds.Some? && rounds.value != []
    && var last := rounds.value[|rounds.value| - 1];
       Unanimous(last.results) ==> RawReviewsOf(w, subject, last.results).Some?
  }

  lemma FitsIff(w: World, subject: Subject, result: ProviderResult, provider: string, request: Request)
    requires Lenient(w) && AnswersRequest(w, result, provider, request)
    ensures Fits(w, subject, result) <==> AnswersAgree(w, provider, request)
  {
    FitIffSaysAgree(w, w.answer(provider, request).value, provider, result);
  }

  ghost predicate Fits(w: World, subject: Subject, result: ProviderResult) {
    GatePassing(result) && Writable(w, RawRecord(subject, result))
  }

  lemma TwoFit(w: World, subject: Subject, r: seq<ProviderResult>)
    requires |r| == 2
    ensures RawReviewsOf(w, subject, r).Some? <==> Fits(w, subject, r[0]) && Fits(w, subject, r[1])
  {
    RawReviewsMean(w, subject, r);
  }

  lemma EvidenceIffAgree(w: World, subject: Subject, a: string, b: string, round: Round)
    requires Lenient(w) && IsRoundOf(w, round, [a, b])
    ensures RawReviewsOf(w, subject, round.results).Some? <==> AnswersAgree(w, a, round.request) && AnswersAgree(w, b, round.request)
  {
    var r, providers := round.results, [a, b];
    assert providers[0] == a && providers[1] == b;
    assert AnswersRequest(w, r[0], a, round.request) && AnswersRequest(w, r[1], b, round.request);
    TwoFit(w, subject, r);
    FitsIff(w, subject, r[0], a, round.request);
    FitsIff(w, subject, r[1], b, round.request);
  }

  lemma EndsWellCons(w: World, subject: Subject, round: Round, rest: Option<seq<Round>>)
    requires rest.Some? ==> rest.value != []
    ensures EndsWell(w, subject, Prepend([round], rest)) <==> EndsWell(w, subject, rest)
  {
    if rest.Some? {
      assert ([round] + rest.value)[|rest.value|] == rest.value[|rest.value| - 1];
    }
  }

  lemma LastGoesThrough(w: World, subject: Subject, a: string, b: string, i: nat, previous: seq<Feedback>, maxRounds: nat, round: Round)
    requires Lenient(w) && i >= 1 && PlayRound(w, subject, [a, b], i, previous) == Some(round)
    requires Unanimous(round.results) || i >= maxRounds
    ensures EndsWell(w, subject, Some([round])) <==> GoesThrough(w, subject, a, b, i, previous, maxRounds)
  {
    RoundIffReadable(w, subject, a, b, i, previous);
    OneRound(w, subject, [a, b], i, previous, round);
    TwoResults(w, round, a, b);
    EvidenceIffAgree(w, subject, a, b, round);
  }

  lemma NextGoesThrough(w: World, subject: Subject, a: string, b: string, i: nat, next: nat, previous: seq<Feedback>,
                        maxRounds: nat, request: Request, told: seq<Feedback>)
    requires request == Request(subject, i, previous) && i < maxRounds && next == i + 1
    requires AnswersReadably(w, a, request) && AnswersReadably(w, b, request)
    requires Dissents(w, a, request) || Dissents(w, b, request)
    requires IsTold(w, a, b, request, told) && forall other | IsTold(w, a, b, request, other) :: other == told
    ensures GoesThrough(w, subject, a, b, next, told, maxRounds) <==> GoesThrough(w, subject, a, b, i, previous, maxRounds)
  {
  }

  lemma OnwardGoesThrough(w: World, subject: Subject, a: string, b: string, i: nat, next: nat, previous: seq<Feedback>,
                          maxRounds: nat, round: Round, told: seq<Feedback>)
    requires Lenient(w) && i >= 1 && PlayRound(w, subject, [a, b], i, previous) == Some(round)
    requires !Unanimous(round.results) && i < maxRounds && next == i + 1 && told == FeedbackOf(round.results)
    ensures GoesThrough(w, subject, a, b, next, told, maxRounds) <==> GoesThrough(w, subject, a, b, i, previous, maxRounds)
  {
    var request := Request(subject, i, previous);
    DissentIsTold(w, subject, a, b, i, previous, round, request);
    forall other | IsTold(w, a, b, request, other) ensures other == told {
      OneTelling(w, a, b, request, other, told);
    }
    NextGoesThrough(w, subject, a, b, i, next, previous, maxRounds, request, told);
  }

  lemma DissentIsTold(w: World, subject: Subject, a: string, b: string, i: nat, previous: seq<Feedback>, round: Round, request: Request)
    requires Lenient(w) && i >= 1 && PlayRound(w, subject, [a, b], i, previous) == Some(round)
    requires !Unanimous(round.results) && request == Request(subject, i, previous)
    ensures AnswersReadably(w, a, request) && AnswersReadably(w, b, request)
    ensures Dissents(w, a, request) || Dissents(w, b, request)
    ensures IsTold(w, a, b, request, FeedbackOf(round.results))
  {
    RoundIffReadable(w, subject, a, b, i, previous);
    OneRound(w, subject, [a, b], i, previous, round);
    TwoResults(w, round, a, b);
  }

  lemma NothingGoesThrough(w: World, subject: Subject, a: string, b: string, i: nat, previous: seq<Feedback>, maxRounds: nat)
    requires Lenient(w) && 1 <= i <= maxRounds && PlayRound(w, subject, [a, b], i, previous).None?
    ensures PlayFrom(w, subject, [a, b], i, previous, maxRounds).None?
    ensures !GoesThrough(w, subject, a, b, i, previous, maxRounds)
  {
    RoundIffReadable(w, subject, a, b, i, previous);
  }

  lemma {:induction false} PlayedIffGoesThrough(w: World, subject: Subject, a: string, b: string, i: nat, next: nat,
                                                previous: seq<Feedback>, maxRounds: nat)
    requires Lenient(w) && 1 <= i <= maxRounds && next == i + 1
    ensures EndsWell(w, subject, PlayFrom(w, subject, [a, b], i, previous, maxRounds)) <==>
            GoesThrough(w, subject, a, b, i, previous, maxRounds)
    decreases maxRounds - i
  {
    var played := PlayRound(w, subject, [a, b], i, previous);
    if played.None? {
      NothingGoesThrough(w, subject, a, b, i, previous, maxRounds);
    } else {
      var round, told := played.value, FeedbackOf(played.value.results);
      AfterRound(w, subject, [a, b], i, previous, maxRounds, round, next, told);
      if Unanimous(round.results) || i == maxRounds {
        LastGoesThrough(w, subject, a, b, i, previous, maxRounds, round);
      } else {
        EndsWellCons(w, subject, round, PlayFrom(w, subject, [a, b], next, told, maxRounds));
        PlayedIffGoesThrough(w, subject, a, b, next, next + 1, told, maxRounds);
        OnwardGoesThrough(w, subject, a, b, i, next, previous, maxRounds, round, told);
      }
    }
  }

  lemma ConcludesIff(w: World, subject: Subject, rounds: seq<Round>, maxRounds: nat)
    requires Lenient(w) && rounds != []
    ensures Conclude(w, subject, rounds, maxRounds).Some? <==> EndsWell(w, subject, Some(rounds))
  {
  }

  /** Past the tests of what it makes itself, a run returns exactly when it is asked for one to three
      rounds of a change that touches a high-risk path, and the protocol goes through. */
  lemma ReturnsIffGoesThrough(w: World, subject: Subject, maxRounds: int)
    requires Lenient(w)
    ensures var (a, b) := GatePolicy.Reviewers(subject.implementer);
      ConsensusOf(w, subject, maxRounds).Some? <==>
        1 <= maxRounds <= 3 && PathForms.TouchesHighRisk(subject.changed) && GoesThrough(w, subject, a, b, 1, [], maxRounds)
  {
    PathForms.HighRiskIff(subject.changed);
    GatePolicy.QuorumIs(subject.implementer);
    if 1 <= maxRounds <= 3 && PathForms.TouchesHighRisk(subject.changed) {
      var (a, b) := GatePolicy.Reviewers(subject.implementer);
      RunIffGoesThrough(w, subject, a, b, maxRounds, 1, []);
    }
  }

  lemma RunIffGoesThrough(w: World, subject: Subject, a: string, b: string, maxRounds: nat, first: nat, none: seq<Feedback>)
    requires Lenient(w) && first == 1 && none == [] && 1 <= maxRounds <= 3
    requires GateEvidence.Quorum(subject.implementer) == [a, b] && PathRules.HighRiskPaths(subject.changed) != []
    ensures ConsensusOf(w, subject, maxRounds).Some? <==> GoesThrough(w, subject, a, b, first, none, maxRounds)
  {
    var rounds := PlayFrom(w, subject, [a, b], first, none, maxRounds);
    PlayedIffGoesThrough(w, subject, a, b, first, first + 1, none, maxRounds);
    if rounds.Some? {
      ConcludesIff(w, subject, rounds.value, maxRounds);
    }
  }
}
