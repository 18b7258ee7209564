/** The bounded consensus protocol: rounds of provider reviews with feedback, and the raw reviews
    that a unanimous round is turned into. What a provider answers is arbitrary. */
module Consensus {
  import opened Text
  import opened Json
  import GateEvidence
  import PathRules

  datatype Verdict = Agree | Revise | Block | Partial | Red

  datatype ReviewCheck = ReviewCheck(name: string, pass: bool)

  datatype ProviderResult = ProviderResult(
    provider: string, agent: string, verdict: Verdict, checks: seq<ReviewCheck>, findings: seq<string>)

  datatype Feedback = Feedback(provider: string, verdict: Verdict, findings: seq<string>)

  /** What is reviewed, and for whom. */
  datatype Subject = Subject(
    repository: string, workPackage: string, agent: string, implementer: string, baseRef: string, headRef: string,
    changed: seq<string>, diff: string, preflight: Value)

  /** A review request; the rest of its text is a function of the subject. */
  datatype Request = Request(subject: Subject, roundIndex: nat, previous: seq<Feedback>)

  datatype Round = Round(index: nat, request: Request, results: seq<ProviderResult>)

  datatype Artifact = Artifact(
    rounds: seq<Round>, agreed: bool, rawReviews: map<string, Value>, collected: bool, maxRounds: nat)

  /** What the protocol calls out to. A provider command answers a JSON document or fails; a
      request carries its round, so an answer may differ from round to round. `stable(k)` is the
      outcome of the k-th test that the reviewed refs have not moved. */
  datatype World = World(
    answer: (string, Request) -> Option<Value>,
    noSecret: string -> bool,
    requestOk: Request -> bool,
    stable: nat -> bool,
    rawReviewSchema: Value -> bool,
    noSecretIn: Value -> bool,
    collectionOk: map<string, Value> -> bool,
    artifactOk: Artifact -> bool)

  // ----- reading a provider's output -----

  function VerdictOf(v: Value): Option<Verdict> {
    if v == Str("AGREE") then Some(Agree)
    else if v == Str("REVISE") then Some(Revise)
    else if v == Str("BLOCK") then Some(Block)
    else if v == Str("PARTIAL") then Some(Partial)
    else if v == Str("RED") then Some(Red)
    else None
  }

  function CheckOf(v: Value): Option<ReviewCheck> {
    var name, status := Get(AsDict(v), KName), Get(AsDict(v), KStatus);
    if !v.Dict? || !name.Str? || !(status == Str("pass") || status == Str("fail")) then None
    else Some(ReviewCheck(name.s, status == Str("pass")))
  }

  /** Every entry, or nothing when one is malformed. */
  function ChecksOf(vs: seq<Value>): Option<seq<ReviewCheck>> {
    if vs == [] then Some([])
    else
      var before, last := ChecksOf(vs[..|vs| - 1]), CheckOf(vs[|vs| - 1]);
      if before.None? || last.None? then None else Some(before.value + [last.value])
  }

  predicate IsFinding(w: World, v: Value) {
    v.Str? && v.s != "" && w.noSecret(v.s)
  }

  function FindingsOf(w: World, v: Value): (r: Option<seq<string>>)
    ensures r.Some? <==> v.List? && forall i | 0 <= i < |v.items| :: IsFinding(w, v.items[i])
    ensures r.Some? ==> StrValues(r.value) == v.items
  {
    if v.List? && forall i | 0 <= i < |v.items| :: IsFinding(w, v.items[i])
    then Some(seq(|v.items|, i requires 0 <= i < |v.items| => v.items[i].s))
    else None
  }

  /** The verdict and the agent stand in a reviewer block if there is one. */
  function ReviewerBlock(output: Object): Object {
    if Get(output, KReviewer).Dict? then Get(output, KReviewer).fields else output
  }

  function AgentOf(w: World, output: Object, provider: string): Option<string> {
    var raw := Get(ReviewerBlock(output), KAgent);
    if !raw.Str? || raw.s == "" then Some(provider + "-reviewer")
    else if w.noSecret(raw.s) then Some(raw.s)
    else None
  }

  function ResultFrom(w: World, output: Value, provider: string): Option<ProviderResult> {
    var fields := AsDict(output);
    var verdict := VerdictOf(Get(ReviewerBlock(fields), KVerdict));
    var checks := if Get(fields, KChecksConsidered).List? then ChecksOf(Get(fields, KChecksConsidered).items) else None;
    var findings := FindingsOf(w, Get(fields, KFindings));
    var agent := AgentOf(w, fields, provider);
    if !output.Dict? || agent.None? || verdict.None? || checks.None? || findings.None? then None
    else Some(ProviderResult(provider, agent.value, verdict.value, checks.value, findings.value))
  }

  lemma {:induction false} ChecksOfPrefix(vs: seq<Value>, k: nat)
    requires k <= |vs| && ChecksOf(vs[..k]).None?
    ensures ChecksOf(vs).None?
    decreases |vs|
  {
    if k < |vs| {
      assert vs[..|vs| - 1][..k] == vs[..k];
      ChecksOfPrefix(vs[..|vs| - 1], k);
    } else {
      assert vs[..k] == vs;
    }
  }

  /** The loop that normalises the reported checks; it raises at the first malformed one. */
  method CollectChecks(vs: seq<Value>) returns (r: Option<seq<ReviewCheck>>)
    ensures r == ChecksOf(vs)
  {
    var normalized: seq<ReviewCheck> := [];
    for i := 0 to |vs|
      invariant ChecksOf(vs[..i]) == Some(normalized)
    {
      assert vs[..i + 1][..i] == vs[..i];
      var check := CheckOf(vs[i]);
      if check.None? {
        ChecksOfPrefix(vs, i + 1);
        return None;
      }
      normalized := normalized + [check.value];
    }
    assert vs[..|vs|] == vs;
    return Some(normalized);
  }

  // ----- a round -----

  predicate Unanimous(results: seq<ProviderResult>) {
    forall i | 0 <= i < |results| :: results[i].verdict == Agree
  }

  function FeedbackFrom(r: ProviderResult): Feedback {
    Feedback(r.provider, r.verdict, r.findings)
  }

  /** The results that do not agree, in order, for the next round. */
  function FeedbackOf(results: seq<ProviderResult>): seq<Feedback> {
    if results == [] then []
    else (if results[0].verdict != Agree then [FeedbackFrom(results[0])] else []) + FeedbackOf(results[1..])
  }

  /** One result per provider, in order; nothing when one of the commands fails. */
  function ResultsOf(w: World, providers: seq<string>, request: Request): Option<seq<ProviderResult>> {
    if providers == [] then Some([])
    else
      match w.answer(providers[0], request)
      case None => None
      case Some(output) =>
        var result := ResultFrom(w, output, providers[0]);
        if result.None? then None
        else
          var rest := ResultsOf(w, providers[1..], request);
          if rest.Some? then Some([result.value] + rest.value) else None
  }

  /** The i-th round, or nothing when it raises. */
  function PlayRound(w: World, subject: Subject, providers: seq<string>, i: nat, previous: seq<Feedback>): Option<Round>
    requires i >= 1
  {
    var request := Request(subject, i, previous);
    if !w.stable(2 * i - 2) || !w.requestOk(request) then None
    else
      match ResultsOf(w, providers, request)
      case None => None
      case Some(results) => if w.stable(2 * i - 1) then Some(Round(i, request, results)) else None
  }

  /** The rounds from the i-th on. */
  function PlayFrom(w: World, subject: Subject, providers: seq<string>, i: nat, previous: seq<Feedback>, maxRounds: nat)
      : (r: Option<seq<Round>>)
    requires 1 <= i <= maxRounds
    ensures r.Some? ==> r.value != []
    decreases maxRounds - i, 1
  {
    Onward(w, subject, providers, i, PlayRound(w, subject, providers, i, previous), maxRounds)
  }

  /** The rounds from one on that is played, or not. */
  function Onward(w: World, subject: Subject, providers: seq<string>, i: nat, played: Option<Round>, maxRounds: nat)
      : (r: Option<seq<Round>>)
    requires 1 <= i <= maxRounds
    ensures r.Some? ==> r.value != []
    decreases maxRounds - i, 0
  {
    match played
    case None => None
    case Some(round) =>
      if Unanimous(round.results) || i == maxRounds then Some([round])
      else Prepend([round], PlayFrom(w, subject, providers, i + 1, FeedbackOf(round.results), maxRounds))
  }

  function Prepend(rounds: seq<Round>, rest: Option<seq<Round>>): Option<seq<Round>> {
    match rest
    case None => None
    case Some(more) => Some(rounds + more)
  }

  // ----- raw reviews -----

  /** The named check was reported, and every report of it passed. */
  predicate CheckPresent(checks: seq<ReviewCheck>, name: string) {
    && (exists i :: 0 <= i < |checks| && checks[i].name == name)
    && (forall i | 0 <= i < |checks| && checks[i].name == name :: checks[i].pass)
  }

  predicate Forbidden(findings: seq<string>) {
    exists i :: 0 <= i < |findings| && StartsWith(findings[i], "FORBIDDEN:")
  }

  function CheckRecord(check: ReviewCheck): Value {
    Dict(map[KName := Str(check.name), KStatus := Str(if check.pass then "pass" else "fail")])
  }

  function CheckRecords(checks: seq<ReviewCheck>): (r: seq<Value>)
    ensures |r| == |checks| && forall i | 0 <= i < |checks| :: r[i] == CheckRecord(checks[i])
  {
    seq(|checks|, i requires 0 <= i < |checks| => CheckRecord(checks[i]))
  }

  /** The raw review that is written for a result. */
  function RawRecord(subject: Subject, result: ProviderResult): Value {
    Dict(map[
      KSchemaVersion := Str("local-ai-review-evidence.v1"),
      KRepo := Str(subject.repository),
      KWorkPackage := Str(subject.workPackage),
      KImplementer := Dict(map[KAgent := Str(subject.agent), KProvider := Str(subject.implementer)]),
      KReviewer := Dict(map[KAgent := Str(result.agent), KProvider := Str(result.provider), KVerdict := Str("AGREE")]),
      KScopeReviewed := Dict(map[
        KBaseRef := Str(subject.baseRef), KHeadRef := Str(subject.headRef),
        KChangedFiles := List(StrValues(subject.changed))]),
      KChecksConsidered := List(CheckRecords(result.checks)),
      KFindings := List(StrValues(result.findings)),
      KSecretsRecorded := FALSE,
      KLiveAdapterExecution := FALSE,
      KSupportWidening := FALSE,
      KProductionPlatformClaim := FALSE])
  }

  /** The record holds no secret and its schema accepts it. */
  predicate Writable(w: World, record: Value) {
    w.noSecretIn(record) && w.rawReviewSchema(record)
  }

  function RawReviewOf(w: World, subject: Subject, result: ProviderResult): Option<Value> {
    if result.verdict != Agree then None
    else if Forbidden(result.findings) then None
    else if !CheckPresent(result.checks, "tests") then None
    else if !CheckPresent(result.checks, "secret_scan") then None
    else if Writable(w, RawRecord(subject, result)) then Some(RawRecord(subject, result))
    else None
  }

  /** The raw reviews by provider, or nothing when one of the results cannot become one. */
  function RawReviewsOf(w: World, subject: Subject, results: seq<ProviderResult>): Option<map<string, Value>> {
    if results == [] then Some(map[])
    else
      var last := results[|results| - 1];
      match (RawReviewsOf(w, subject, results[..|results| - 1]), RawReviewOf(w, subject, last))
      case (Some(written), Some(raw)) => Some(written[last.provider := raw])
      case _ => None
  }

  lemma {:induction false} RawReviewsPrefix(w: World, subject: Subject, results: seq<ProviderResult>, k: nat)
    requires k <= |results| && RawReviewsOf(w, subject, results[..k]).None?
    ensures RawReviewsOf(w, subject, results).None?
    decreases |results|
  {
    if k < |results| {
      assert results[..|results| - 1][..k] == results[..k];
      RawReviewsPrefix(w, subject, results[..|results| - 1], k);
    } else {
      assert results[..k] == results;
    }
  }

  /** The loop that writes the raw reviews. */
  method WriteRawReviews(w: World, subject: Subject, results: seq<ProviderResult>) returns (r: Option<map<string, Value>>)
    ensures r == RawReviewsOf(w, subject, results)
  {
    var written: map<string, Value> := map[];
    for i := 0 to |results|
      invariant RawReviewsOf(w, subject, results[..i]) == Some(written)
    {
      assert results[..i + 1][..i] == results[..i];
      var raw := RawReviewOf(w, subject, results[i]);
      if raw.None? {
        RawReviewsPrefix(w, subject, results, i + 1);
        return None;
      }
      written := written[results[i].provider := raw.value];
    }
    assert results[..|results|] == results;
    return Some(written);
  }

  // ----- the protocol -----

  /** The artifact of a run whose rounds are played. */
  function Conclude(w: World, subject: Subject, rounds: seq<Round>, maxRounds: nat): Option<Artifact>
    requires rounds != []
  {
    var last := rounds[|rounds| - 1].results;
    if !w.stable(2 * |rounds|) then None
    else if !Unanimous(last) then Checked(w, Artifact(rounds, false, map[], false, maxRounds))
    else
      match RawReviewsOf(w, subject, last)
      case None => None
      case Some(raws) =>
        if w.collectionOk(raws) then Checked(w, Artifact(rounds, true, raws, true, maxRounds)) else None
  }

  function Checked(w: World, artifact: Artifact): Option<Artifact> {
    if w.artifactOk(artifact) then Some(artifact) else None
  }

  /** The outcome of a run; nothing when it raises. */
  function ConsensusOf(w: World, subject: Subject, maxRounds: int): Option<Artifact> {
    if maxRounds <= 0 || maxRounds > 3 then None
    else if PathRules.HighRiskPaths(subject.changed) == [] then None
    else
      match PlayFrom(w, subject, GateEvidence.Quorum(subject.implementer), 1, [], maxRounds)
      case None => None
      case Some(rounds) => Conclude(w, subject, rounds, maxRounds)
  }

  lemma PrependTwice(before: seq<Round>, round: Round, rest: Option<seq<Round>>)
    ensures Prepend(before, Prepend([round], rest)) == Prepend(before + [round], rest)
  {
    if rest.Some? {
      assert before + ([round] + rest.value) == before + [round] + rest.value;
    }
  }

  lemma PrependNothing(rest: Option<seq<Round>>)
    ensures Prepend([], rest) == rest
  {
    if rest.Some? {
      assert [] + rest.value == rest.value;
    }
  }

  lemma OneMore(w: World, subject: Subject, providers: seq<string>, i: nat, maxRounds: nat,
                round: Round, next: nat, feedback: seq<Feedback>, tail: Option<seq<Round>>)
    requires 1 <= i < maxRounds && !Unanimous(round.results) && next == i + 1 && feedback == FeedbackOf(round.results)
    requires tail == PlayFrom(w, subject, providers, next, feedback, maxRounds)
    ensures Onward(w, subject, providers, i, Some(round), maxRounds) == Prepend([round], tail)
  {
  }

  /** The rounds from the i-th on, once the i-th is played. */
  lemma AfterRound(w: World, subject: Subject, providers: seq<string>, i: nat, previous: seq<Feedback>, maxRounds: nat,
                   round: Round, next: nat, feedback: seq<Feedback>)
    requires 1 <= i <= maxRounds && next == i + 1 && feedback == FeedbackOf(round.results)
    requires PlayRound(w, subject, providers, i, previous) == Some(round)
    ensures PlayFrom(w, subject, providers, i, previous, maxRounds) ==
            if Unanimous(round.results) || i == maxRounds then Some([round])
            else Prepend([round], PlayFrom(w, subject, providers, next, feedback, maxRounds))
  {
    if !Unanimous(round.results) && i < maxRounds {
      OneMore(w, subject, providers, i, maxRounds, round, next, feedback,
              PlayFrom(w, subject, providers, next, feedback, maxRounds));
    }
  }

  /** What one more round settles about the whole run. */
  lemma RoundPlayed(w: World, subject: Subject, providers: seq<string>, i: nat, previous: seq<Feedback>, maxRounds: nat,
                    before: seq<Round>, whole: Option<seq<Round>>, round: Round, next: nat, feedback: seq<Feedback>)
    requires 1 <= i <= maxRounds && next == i + 1 && feedback == FeedbackOf(round.results)
    requires PlayRound(w, subject, providers, i, previous) == Some(round)
    requires whole == Prepend(before, PlayFrom(w, subject, providers, i, previous, maxRounds))
    ensures whole == if Unanimous(round.results) || i == maxRounds then Some(before + [round])
                     else Prepend(before + [round], PlayFrom(w, subject, providers, next, feedback, maxRounds))
  {
    AfterRound(w, subject, providers, i, previous, maxRounds, round, next, feedback);
    if !Unanimous(round.results) && i < maxRounds {
      PrependTwice(before, round, PlayFrom(w, subject, providers, next, feedback, maxRounds));
    }
  }

  /** The round loop. */
  method PlayRounds(w: World, subject: Subject, providers: seq<string>, maxRounds: nat) returns (r: Option<seq<Round>>)
    requires maxRounds >= 1
    ensures r == PlayFrom(w, subject, providers, 1, [], maxRounds)
  {
    ghost var whole := PlayFrom(w, subject, providers, 1, [], maxRounds);
    PrependNothing(whole);
    var previous: seq<Feedback> := [];
    var rounds: seq<Round> := [];
    for i := 1 to maxRounds + 1
      invariant if i <= maxRounds then whole == Prepend(rounds, PlayFrom(w, subject, providers, i, previous, maxRounds))
                else whole == Some(rounds)
    {
      var round := PlayRound(w, subject, providers, i, previous);
      if round.None? {
        return None;
      }
      var feedback := FeedbackOf(round.value.results);
      RoundPlayed(w, subject, providers, i, previous, maxRounds, rounds, whole, round.value, i + 1, feedback);
      rounds := rounds + [round.value];
      if Unanimous(round.value.results) {
        return Some(rounds);
      }
      previous := feedback;
    }
    return Some(rounds);
  }

  /** The whole run. */
  method RunConsensus(w: World, subject: Subject, maxRounds: int) returns (r: Option<Artifact>)
    ensures r == ConsensusOf(w, subject, maxRounds)
  {
    if maxRounds <= 0 || maxRounds > 3 || PathRules.HighRiskPaths(subject.changed) == [] {
      return None;
    }
    var rounds := PlayRounds(w, subject, GateEvidence.Quorum(subject.implementer), maxRounds);
    if rounds.None? {
      return None;
    }
    var agreeing: seq<ProviderResult> := rounds.value[|rounds.value| - 1].results;
    if !w.stable(2 * |rounds.value|) {
      return None;
    }
    var agreed := Unanimous(agreeing);
    var raws: map<string, Value> := map[];
    if agreed {
      var written := WriteRawReviews(w, subject, agreeing);
      if written.None? || !w.collectionOk(written.value) {
        return None;
      }
      raws := written.value;
    }
    var artifact := Artifact(rounds.value, agreed, raws, agreed, maxRounds);
    return Checked(w, artifact);
  }
}
