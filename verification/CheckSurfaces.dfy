/** How a decision and its findings surface on the published check runs. */
module CheckSurfaces {
  import opened GateEvidence
  import opened GateDecision

  // ----- the decision as a rank -----

  /** How severe a finding is: a policy violation stands at two levels, above and below missing
      evidence. */
  function Rank(f: Finding): nat {
    match f
    case PayloadNotObject => 6
    case BranchNotUpToDate => 5
    case WrongRepository | UntrustedFork | PullRequestTargetContext | ReviewEvidenceContextUnbound
       | BundleContextUnbound | SupersessionContextUnbound => 4
    case BundleSameProvider | SupersessionSameProvider | SupersessionAuthorityOpen => 3
    case MissingPullRequest | MissingIssue | BranchFreshnessUnknown | RequiredChecksMissing | RequiredChecksNotGreen
       | DiffScopeMissing | GppStatusMissing | GppIssueMismatch | ReviewEvidenceMissing | ReviewEvidenceSchemaInvalid
       | ReviewEvidenceNotAccepting | ReviewEvidenceContextUnverifiable | BundleMissing | BundleSchemaInvalid
       | BundleConsensusNotAgree | BundleContextUnverifiable | SupersessionMissing | SupersessionSchemaInvalid
       | SupersessionStale | SupersessionConsensusNotAgree | SupersessionContextUnverifiable => 2
    case _ => 1
  }

  function DecisionOfRank(n: nat): Decision {
    match n
    case 0 => AllowAutonomousMerge
    case 1 => DenyPolicyViolation
    case 2 => DenyMissingEvidence
    case 3 => DenyPolicyViolation
    case 4 => DenyUntrustedContext
    case 5 => DenyStaleBranch
    case _ => ErrorFailClosed
  }

  function MaxRank(findings: seq<Finding>): nat {
    if findings == [] then 0
    else if Rank(findings[0]) >= MaxRank(findings[1..]) then Rank(findings[0])
    else MaxRank(findings[1..])
  }

  lemma {:induction false} MaxRankIsMax(findings: seq<Finding>)
    ensures forall i | 0 <= i < |findings| :: Rank(findings[i]) <= MaxRank(findings)
    ensures findings != [] ==> exists i :: 0 <= i < |findings| && Rank(findings[i]) == MaxRank(findings)
  {
    if findings != [] {
      var rest := findings[1..];
      MaxRankIsMax(rest);
      assert forall i | 0 < i < |findings| :: findings[i] == rest[i - 1];
      if Rank(findings[0]) < MaxRank(rest) {
        var j :| 0 <= j < |rest| && Rank(rest[j]) == MaxRank(rest);
        assert findings[1 + j] == rest[j];
      }
    }
  }

  lemma RankMeans(f: Finding)
    ensures Rank(f) == 6 <==> f == PayloadNotObject
    ensures Rank(f) == 5 <==> f == BranchNotUpToDate
    ensures Rank(f) == 4 <==> UntrustedFinding(f)
    ensures Rank(f) == 3 <==> ForbiddenFinding(f)
    ensures Rank(f) == 2 <==> MissingFinding(f)
  {
    UntrustedRank(f);
    ForbiddenRank(f);
    MissingRank(f);
  }

  lemma UntrustedRank(f: Finding)
    ensures Rank(f) == 4 <==> UntrustedFinding(f)
  {
  }

  lemma ForbiddenRank(f: Finding)
    ensures Rank(f) == 3 <==> ForbiddenFinding(f)
  {
  }

  lemma MissingRank(f: Finding)
    ensures Rank(f) == 2 <==> MissingFinding(f)
  {
  }

  ghost predicate Ranked(findings: seq<Finding>, n: nat) {
    exists i :: 0 <= i < |findings| && Rank(findings[i]) == n
  }

  lemma RankedMeans(findings: seq<Finding>)
    ensures Ranked(findings, 6) <==> PayloadNotObject in findings
    ensures Ranked(findings, 5) <==> BranchNotUpToDate in findings
    ensures Ranked(findings, 4) <==> AnyFinding(findings, UntrustedFinding)
    ensures Ranked(findings, 3) <==> AnyFinding(findings, ForbiddenFinding)
    ensures Ranked(findings, 2) <==> AnyFinding(findings, MissingFinding)
  {
    forall i | 0 <= i < |findings|
      ensures Rank(findings[i]) == 4 <==> UntrustedFinding(findings[i])
      ensures Rank(findings[i]) == 3 <==> ForbiddenFinding(findings[i])
      ensures Rank(findings[i]) == 2 <==> MissingFinding(findings[i])
    {
      RankMeans(findings[i]);
    }
  }

  lemma HighestRanked(findings: seq<Finding>, n: nat)
    requires n == MaxRank(findings)
    ensures findings != [] ==> 1 <= n <= 6 && Ranked(findings, n)
    ensures findings == [] ==> n == 0
    ensures forall k | k > n :: !Ranked(findings, k)
  {
    MaxRankIsMax(findings);
  }

  /** The ordered tests of the decision pick the most severe finding. */
  lemma DecisionIsMaxRank(findings: seq<Finding>)
    ensures DecisionFromFindings(findings) == DecisionOfRank(MaxRank(findings))
  {
    RankedMeans(findings);
    HighestRanked(findings, MaxRank(findings));
  }

  /** Adding findings, in any order and any number of times, never lowers the rank; so lists with
      the same findings decide alike. */
  lemma MoreFindingsRankHigher(a: seq<Finding>, b: seq<Finding>)
    requires forall f | f in a :: f in b
    ensures MaxRank(a) <= MaxRank(b)
    ensures (forall f | f in b :: f in a) ==> DecisionFromFindings(a) == DecisionFromFindings(b)
  {
    RankAtMost(a, b);
    if forall f | f in b :: f in a {
      RankAtMost(b, a);
      DecisionIsMaxRank(a);
      DecisionIsMaxRank(b);
    }
  }

  lemma RankAtMost(a: seq<Finding>, b: seq<Finding>)
    requires forall f | f in a :: f in b
    ensures MaxRank(a) <= MaxRank(b)
  {
    MaxRankIsMax(a);
    MaxRankIsMax(b);
    if a != [] {
      var i :| 0 <= i < |a| && Rank(a[i]) == MaxRank(a);
      assert a[i] in b;
      var j :| 0 <= j < |b| && b[j] == a[i];
    }
  }

  // ----- conclusions -----

  datatype Kind = FailureKind | ReviewActionKind | StaleKind
  datatype Conclusion = Success | Failure | Neutral | ActionRequired | StaleConclusion
  datatype Mode = Shadow | Enforce

  function KindOf(f: Finding): Kind {
    if f in {HighRiskHumanReviewMissing, ReviewEvidenceNotAccepting, ReviewEvidenceContextUnverifiable} then ReviewActionKind
    else if f == BranchNotUpToDate then StaleKind
    else FailureKind
  }

  predicate HasKind(findings: seq<Finding>, k: Kind) {
    exists i :: 0 <= i < |findings| && KindOf(findings[i]) == k
  }

  function ConclusionFor(findings: seq<Finding>): Conclusion {
    if findings == [] then Success
    else if HasKind(findings, FailureKind) then Failure
    else if HasKind(findings, ReviewActionKind) then ActionRequired
    else if HasKind(findings, StaleKind) then StaleConclusion
    else Failure
  }

  predicate OnlyReviewAction(findings: seq<Finding>) {
    forall i | 0 <= i < |findings| :: KindOf(findings[i]) == ReviewActionKind
  }

  function WrapperExitCode(decision: Decision, findings: seq<Finding>): int {
    if decision == AllowAutonomousMerge then 0
    else if findings == [] then 1
    else if OnlyReviewAction(findings) then 0
    else 1
  }

  function LegacyConclusion(decision: Decision, findings: seq<Finding>, mode: Mode): Conclusion {
    if decision == AllowAutonomousMerge then Success
    else if mode == Enforce then (if findings != [] && OnlyReviewAction(findings) then Success else Failure)
    else Neutral
  }

  function Select(findings: seq<Finding>, keep: Finding -> bool): seq<Finding> {
    if findings == [] then []
    else (if keep(findings[0]) then [findings[0]] else []) + Select(findings[1..], keep)
  }

  predicate IsReviewAction(f: Finding) {
    KindOf(f) == ReviewActionKind
  }

  predicate IsTechnical(f: Finding) {
    KindOf(f) != ReviewActionKind
  }

  function TechnicalFindings(findings: seq<Finding>): seq<Finding> {
    Select(findings, IsTechnical)
  }

  function ReviewFindings(findings: seq<Finding>): seq<Finding> {
    Select(findings, IsReviewAction)
  }

  function TechnicalConclusion(decision: Decision, findings: seq<Finding>, mode: Mode): Conclusion {
    var technical := TechnicalFindings(findings);
    if decision == AllowAutonomousMerge || technical == [] then Success
    else if mode == Enforce then ConclusionFor(technical)
    else Neutral
  }

  function ReviewConclusion(findings: seq<Finding>, mode: Mode): Conclusion {
    if ReviewFindings(findings) == [] then Success
    else if mode == Enforce then ActionRequired
    else Neutral
  }

  // ----- what is concluded, finding by finding -----

  /** The findings that call for a reviewer. */
  ghost predicate NeedsReview(f: Finding) {
    f == HighRiskHumanReviewMissing || f == ReviewEvidenceNotAccepting || f == ReviewEvidenceContextUnverifiable
  }

  ghost predicate Defect(f: Finding) {
    !NeedsReview(f) && f != BranchNotUpToDate
  }

  ghost predicate SomeNeedReview(findings: seq<Finding>) {
    exists f :: f in findings && NeedsReview(f)
  }

  ghost predicate SomeDefect(findings: seq<Finding>) {
    exists f :: f in findings && Defect(f)
  }

  ghost predicate NothingButReview(findings: seq<Finding>) {
    forall f | f in findings :: NeedsReview(f)
  }

  lemma KindIs(f: Finding)
    ensures KindOf(f) == ReviewActionKind <==> NeedsReview(f)
    ensures KindOf(f) == StaleKind <==> f == BranchNotUpToDate
    ensures KindOf(f) == FailureKind <==> Defect(f)
  {
  }

  lemma HasKindIs(findings: seq<Finding>)
    ensures HasKind(findings, FailureKind) <==> SomeDefect(findings)
    ensures HasKind(findings, ReviewActionKind) <==> SomeNeedReview(findings)
    ensures HasKind(findings, StaleKind) <==> BranchNotUpToDate in findings
    ensures OnlyReviewAction(findings) <==> NothingButReview(findings)
  {
    forall f: Finding
      ensures KindOf(f) == ReviewActionKind <==> NeedsReview(f)
      ensures KindOf(f) == StaleKind <==> f == BranchNotUpToDate
      ensures KindOf(f) == FailureKind <==> Defect(f)
    {
      KindIs(f);
    }
    forall f: Finding, k: Kind | f in findings && KindOf(f) == k ensures HasKind(findings, k) {
      var i :| 0 <= i < |findings| && findings[i] == f;
    }
  }

  /** One conclusion over all findings: a failure for any defect, else a call for action, else stale. */
  lemma ConclusionMeans(findings: seq<Finding>)
    ensures ConclusionFor(findings) ==
            if findings == [] then Success
            else if SomeDefect(findings) then Failure
            else if SomeNeedReview(findings) then ActionRequired
            else StaleConclusion
  {
    HasKindIs(findings);
    if findings != [] && !SomeDefect(findings) && !SomeNeedReview(findings) {
      assert findings[0] in findings;
    }
  }

  lemma TechnicalIs(findings: seq<Finding>, technical: seq<Finding>)
    requires technical == TechnicalFindings(findings)
    ensures technical == [] <==> NothingButReview(findings)
    ensures SomeDefect(technical) <==> SomeDefect(findings)
    ensures !SomeNeedReview(technical)
    ensures ReviewFindings(findings) == [] <==> !SomeNeedReview(findings)
  {
    forall f: Finding ensures KindOf(f) == ReviewActionKind <==> NeedsReview(f) {
      KindIs(f);
    }
    forall f: Finding ensures f in technical <==> f in findings && !NeedsReview(f) {
      SelectMeans(findings, IsTechnical, f);
    }
    forall f: Finding ensures f in ReviewFindings(findings) <==> f in findings && NeedsReview(f) {
      SelectMeans(findings, IsReviewAction, f);
    }
    if technical != [] {
      assert technical[0] in technical;
    }
    if ReviewFindings(findings) != [] {
      assert ReviewFindings(findings)[0] in ReviewFindings(findings);
    }
  }

  /** For every list of findings: what the wrapper, the technical run and the review run say of it. */
  lemma SurfacesMean(findings: seq<Finding>)
    ensures var d := DecisionFromFindings(findings);
      && WrapperExitCode(d, findings) == (if NothingButReview(findings) then 0 else 1)
      && TechnicalConclusion(d, findings, Enforce)
         == (if NothingButReview(findings) then Success else if SomeDefect(findings) then Failure else StaleConclusion)
      && ReviewConclusion(findings, Enforce) == (if SomeNeedReview(findings) then ActionRequired else Success)
  {
    AllowMeansNone(findings);
    HasKindIs(findings);
    TechnicalIs(findings, TechnicalFindings(findings));
    ConclusionMeans(TechnicalFindings(findings));
  }

  // ----- agreement -----

  lemma {:induction false} SelectMeans(findings: seq<Finding>, keep: Finding -> bool, f: Finding)
    ensures f in Select(findings, keep) <==> f in findings && keep(f)
  {
    if findings != [] {
      SelectMeans(findings[1..], keep, f);
    }
  }

  lemma {:induction false} SelectEmpty(findings: seq<Finding>, keep: Finding -> bool)
    ensures Select(findings, keep) == [] <==> forall i | 0 <= i < |findings| :: !keep(findings[i])
  {
    if findings != [] {
      SelectEmpty(findings[1..], keep);
      assert forall i | 0 < i < |findings| :: findings[i] == findings[1..][i - 1];
    }
  }

  /** Every finding surfaces on exactly one of the two runs, as often as it was found. */
  lemma {:induction false} SurfacesPartition(findings: seq<Finding>)
    ensures multiset(TechnicalFindings(findings)) + multiset(ReviewFindings(findings)) == multiset(findings)
  {
    if findings != [] {
      SurfacesPartition(findings[1..]);
      assert findings == [findings[0]] + findings[1..];
    }
  }

  lemma AllowMeansNone(findings: seq<Finding>)
    ensures DecisionFromFindings(findings) == AllowAutonomousMerge <==> findings == []
  {
  }

  /** In enforce mode the legacy run, the wrapper and the technical run say the same; in either
      mode the two runs together succeed exactly when the merge is allowed. */
  lemma SurfacesAgree(findings: seq<Finding>, mode: Mode)
    ensures var d := DecisionFromFindings(findings);
      && (LegacyConclusion(d, findings, Enforce) == Success <==> WrapperExitCode(d, findings) == 0)
      && (TechnicalConclusion(d, findings, Enforce) == Success <==> WrapperExitCode(d, findings) == 0)
      && (TechnicalConclusion(d, findings, mode) == Success && ReviewConclusion(findings, mode) == Success
          <==> d == AllowAutonomousMerge)
  {
    AllowMeansNone(findings);
    SelectEmpty(findings, IsTechnical);
    SelectEmpty(findings, IsReviewAction);
    var technical := TechnicalFindings(findings);
    if technical != [] {
      SelectMeans(findings, IsTechnical, technical[0]);
    }
    if findings != [] {
      assert IsTechnical(findings[0]) || IsReviewAction(findings[0]);
    }
  }

  /** success < stale < action required < failure. */
  function Severity(c: Conclusion): nat {
    match c
    case Success => 0
    case Neutral => 0
    case StaleConclusion => 1
    case ActionRequired => 2
    case Failure => 3
  }

  function Worse(a: Conclusion, b: Conclusion): Conclusion {
    if Severity(a) >= Severity(b) then a else b
  }

  lemma HasKindOfSelected(findings: seq<Finding>, keep: Finding -> bool, k: Kind)
    requires forall f :: KindOf(f) == k ==> keep(f)
    ensures HasKind(Select(findings, keep), k) <==> HasKind(findings, k)
  {
    var selected := Select(findings, keep);
    if HasKind(selected, k) {
      var i :| 0 <= i < |selected| && KindOf(selected[i]) == k;
      SelectMeans(findings, keep, selected[i]);
    }
    if HasKind(findings, k) {
      var i :| 0 <= i < |findings| && KindOf(findings[i]) == k;
      SelectMeans(findings, keep, findings[i]);
    }
  }

  /** In enforce mode the conclusion over all findings is the worse of the two published ones. */
  lemma JointConclusionIsWorse(findings: seq<Finding>)
    ensures var d := DecisionFromFindings(findings);
      ConclusionFor(findings) == Worse(TechnicalConclusion(d, findings, Enforce), ReviewConclusion(findings, Enforce))
  {
    AllowMeansNone(findings);
    SelectEmpty(findings, IsTechnical);
    SelectEmpty(findings, IsReviewAction);
    HasKindOfSelected(findings, IsTechnical, FailureKind);
    HasKindOfSelected(findings, IsTechnical, StaleKind);
    if HasKind(TechnicalFindings(findings), ReviewActionKind) {
      var technical := TechnicalFindings(findings);
      var i :| 0 <= i < |technical| && KindOf(technical[i]) == ReviewActionKind;
      SelectMeans(findings, IsTechnical, technical[i]);
    }
  }

  /** Shadow mode is advisory: no run ever fails, is stale or asks for action. */
  lemma ShadowNeverFails(findings: seq<Finding>)
    ensures var d := DecisionFromFindings(findings);
      && LegacyConclusion(d, findings, Shadow) in {Success, Neutral}
      && TechnicalConclusion(d, findings, Shadow) in {Success, Neutral}
      && ReviewConclusion(findings, Shadow) in {Success, Neutral}
      && (LegacyConclusion(d, findings, Shadow) == Success <==> findings == [])
  {
    AllowMeansNone(findings);
  }
}
