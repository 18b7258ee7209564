/** The normalised context of a release-gate decision and its extraction from the payload. */
module GateContext {
  import opened Text
  import opened Json
  import opened PathRules

  /** What the gate calls out to: a digest, case mapping, timestamp parsing and the JSON Schema
      validator. The theorems hold for every choice of these. */
  datatype World = World(
    hash: string -> string,
    lower: string -> string,
    upper: string -> string,
    instant: string -> Option<real>,
    localGateSchema: Value -> bool,
    bundleSchema: Value -> bool,
    supersessionSchema: Value -> bool)

  datatype InputCheck = InputCheck(name: string, status: Option<string>, conclusion: Option<string>)
  datatype HumanReview = HumanReview(author: Option<string>, state: Option<string>, commitOid: Option<string>)

  datatype Context = Context(
    repository: Option<string>,
    pullRequestNumber: Option<int>,
    issueUrl: Option<string>,
    baseRef: Option<string>,
    headRef: Option<string>,
    headSha: Option<string>,
    prAuthor: Option<string>,
    branchUpToDate: Option<bool>,
    fromFork: Option<bool>,
    eventName: Option<string>,
    changedPaths: seq<string>,
    highRiskChangedPaths: seq<string>,
    allowedPathPrefixes: seq<string>,
    requiredChecks: seq<InputCheck>,
    humanReviews: seq<HumanReview>,
    pathSensitiveHumanReviewEnabled: Option<bool>,
    forbiddenSecretContextDetected: Option<bool>,
    adminBypassRequested: Option<bool>,
    patBackedBotActor: Option<bool>,
    codexOrClaudeReleaseAuthority: Option<bool>,
    liveAdapterExecutionRequested: Option<bool>,
    autonomousMergeRequested: Option<bool>,
    autonomousMergeRequestValid: bool,
    reviewedSlice: Option<string>,
    gppCurrentWpId: Option<string>,
    gppCurrentWpIssue: Option<string>,
    gppCurrentWpStatus: Option<string>,
    gppSupportWideningAllowed: Option<bool>,
    gppProductionPlatformClaimAllowed: Option<bool>,
    gppLiveAdapterExecutionAllowed: Option<bool>)

  // ----- refs -----

  const HEADS := "refs/heads/"
  const ORIGIN := "origin/"

  function NormalizeRef(ref: Option<string>): Option<string> {
    match ref
    case None => None
    case Some(s) => Some(RemovePrefix(s, HEADS))
  }

  function NormalizeBindingRef(v: Value): Option<string> {
    match NormalizeRef(StringOf(v))
    case None => None
    case Some(s) => Some(RemovePrefix(s, ORIGIN))
  }

  // ----- service context -----

  /** The first non-empty object among the places service-enriched context may stand. */
  function ServiceContext(root: Object): Object {
    FirstObject([
      Get(root, KReleaseGateContext), Get(root, KAoReleaseGate), Get(root, KVerifiedContext),
      Get(AsDict(Get(root, KAoKernel)), KReleaseGateContext)])
  }

  function FirstObject(vs: seq<Value>): Object {
    if vs == [] then map[]
    else if AsDict(vs[0]) != map[] then AsDict(vs[0])
    else FirstObject(vs[1..])
  }

  // ----- lists of records -----

  function NormalCheck(item: Value): Option<InputCheck> {
    var raw := AsDict(item);
    match FirstString([Get(raw, KName), Get(raw, KContext)])
    case None => None
    case Some(name) => Some(InputCheck(name, StringOf(Get(raw, KStatus)),
                                       FirstString([Get(raw, KConclusion), Get(raw, KState)])))
  }

  function NormalChecks(items: seq<Value>): seq<InputCheck> {
    if items == [] then []
    else
      var rest := NormalChecks(items[1..]);
      match NormalCheck(items[0])
      case Some(check) => [check] + rest
      case None => rest
  }

  function NormalReview(item: Value): HumanReview {
    var raw := AsDict(item);
    HumanReview(
      FirstString([Get(AsDict(Get(raw, KAuthor)), KLogin), Get(raw, KAuthor)]),
      StringOf(Get(raw, KState)),
      FirstString([Get(AsDict(Get(raw, KCommit)), KOid), Get(raw, KCommitOid)]))
  }

  function NormalReviews(items: seq<Value>): (r: seq<HumanReview>)
    ensures |r| == |items|
  {
    if items == [] then [] else [NormalReview(items[0])] + NormalReviews(items[1..])
  }

  lemma {:induction false} NormalChecksSnoc(items: seq<Value>, item: Value)
    ensures NormalChecks(items + [item])
         == NormalChecks(items) + match NormalCheck(item) { case Some(check) => [check] case None => [] }
  {
    if items == [] {
      assert items + [item] == [item];
    } else {
      assert (items + [item])[1..] == items[1..] + [item];
      NormalChecksSnoc(items[1..], item);
    }
  }

  lemma {:induction false} NormalReviewsSnoc(items: seq<Value>, item: Value)
    ensures NormalReviews(items + [item]) == NormalReviews(items) + [NormalReview(item)]
  {
    if items == [] {
      assert items + [item] == [item];
    } else {
      assert (items + [item])[1..] == items[1..] + [item];
      NormalReviewsSnoc(items[1..], item);
    }
  }

  /** The loop that normalises check records: nameless ones are skipped, the rest keep their order. */
  method CollectChecks(payload: Value) returns (checks: seq<InputCheck>)
    ensures checks == NormalChecks(AsList(payload))
  {
    var items := AsList(payload);
    checks := [];
    for i := 0 to |items|
      invariant checks == NormalChecks(items[..i])
    {
      assert items[..i + 1] == items[..i] + [items[i]];
      NormalChecksSnoc(items[..i], items[i]);
      var check := NormalCheck(items[i]);
      if check.Some? {
        checks := checks + [check.value];
      }
    }
    assert items[..|items|] == items;
  }

  /** The loop that normalises review records: every item yields one. */
  method CollectReviews(payload: Value) returns (reviews: seq<HumanReview>)
    ensures reviews == NormalReviews(AsList(payload))
  {
    var items := AsList(payload);
    reviews := [];
    for i := 0 to |items|
      invariant reviews == NormalReviews(items[..i])
    {
      assert items[..i + 1] == items[..i] + [items[i]];
      NormalReviewsSnoc(items[..i], items[i]);
      reviews := reviews + [NormalReview(items[i])];
    }
    assert items[..|items|] == items;
  }

  // ----- the autonomous merge request -----

  function Present(source: Object, k: Key): seq<Value> {
    if k in source then [source[k]] else []
  }

  function RequestCandidates(root: Object, service: Object): seq<Value> {
    Present(root, KLowRiskAutonomousMergeRequested) + Present(root, KAoMa10AutonomousMergeRequested)
    + Present(service, KLowRiskAutonomousMergeRequested) + Present(service, KAoMa10AutonomousMergeRequested)
  }

  /** The request flag and whether it is well-formed: every given value is the same boolean. */
  ghost predicate RequestIs(candidates: seq<Value>, requested: Option<bool>, valid: bool) {
    && (valid <==> forall i | 0 <= i < |candidates| :: candidates[i].Bool? && candidates[i] == candidates[0])
    && (requested.Some? <==> valid && candidates != [])
    && (requested.Some? ==> Bool(requested.value) == candidates[0])
  }

  function RequestOf(candidates: seq<Value>): (r: (Option<bool>, bool))
    ensures RequestIs(candidates, r.0, r.1)
  {
    if candidates == [] then (None, true)
    else if exists i :: 0 <= i < |candidates| && !candidates[i].Bool? then (None, false)
    else if exists i :: 0 <= i < |candidates| && candidates[i] != candidates[0] then (None, false)
    else (Some(candidates[0].b), true)
  }

  /** The loops that collect the candidate values and then their booleans. */
  method AutonomousRequest(root: Object, service: Object) returns (requested: Option<bool>, valid: bool)
    ensures (requested, valid) == RequestOf(RequestCandidates(root, service))
  {
    var candidates: seq<Value> := [];
    var sources := [root, service];
    for i := 0 to 2
      invariant candidates == if i == 0 then [] else if i == 1
        then Present(root, KLowRiskAutonomousMergeRequested) + Present(root, KAoMa10AutonomousMergeRequested)
        else RequestCandidates(root, service)
    {
      candidates := candidates + Present(sources[i], KLowRiskAutonomousMergeRequested);
      candidates := candidates + Present(sources[i], KAoMa10AutonomousMergeRequested);
    }
    if candidates == [] {
      return None, true;
    }
    var values: seq<bool> := [];
    for i := 0 to |candidates|
      invariant |values| == i
      invariant forall j | 0 <= j < i :: candidates[j] == Bool(values[j])
    {
      if !candidates[i].Bool? {
        return None, false;
      }
      values := values + [candidates[i].b];
    }
    if exists i :: 0 <= i < |values| && values[i] != values[0] {
      return None, false;
    }
    return Some(values[0]), true;
  }

  // ----- extraction -----

  function OrStrings(a: seq<string>, b: seq<string>): seq<string> {
    if a != [] then a else b
  }

  function ExtractContext(payload: Value, gppStatus: Value): Context {
    var root := AsDict(payload);
    var service := ServiceContext(root);
    var status := AsDict(gppStatus);
    var currentWp := AsDict(Get(status, KCurrentWp));
    var pullRequest := AsDict(Get(root, KPullRequest));
    var base := AsDict(Get(pullRequest, KBase));
    var head := AsDict(Get(pullRequest, KHead));
    var changedPaths := OrStrings(Strings(Get(root, KChangedPaths)), Strings(Get(service, KChangedPaths)));
    var request := RequestOf(RequestCandidates(root, service));
    Context(
      FirstString([Get(AsDict(Get(root, KRepository)), KFullName), Get(root, KRepositoryFullName), Get(service, KRepository)]),
      FirstInt([Get(pullRequest, KNumber), Get(root, KPullRequestNumber)]),
      FirstString([Get(root, KIssueUrl), Get(service, KIssueUrl)]),
      NormalizeRef(FirstString([Get(base, KRef), Get(root, KBaseRef), Get(service, KBaseRef)])),
      NormalizeRef(FirstString([Get(head, KRef), Get(root, KHeadRef), Get(service, KHeadRef)])),
      FirstString([Get(head, KSha), Get(root, KHeadSha), Get(service, KHeadSha)]),
      FirstString([Get(root, KPrAuthor), Get(service, KPrAuthor), Get(AsDict(Get(pullRequest, KAuthor)), KLogin)]),
      FirstBool([Get(root, KBranchUpToDate), Get(service, KBranchUpToDate)]),
      FirstBool([Get(root, KFromFork), Get(service, KFromFork), Get(AsDict(Get(head, KRepo)), KFork)]),
      FirstString([Get(root, KEventName), Get(service, KEventName)]),
      changedPaths,
      HighRiskPaths(changedPaths),
      OrStrings(Strings(Get(root, KAllowedPathPrefixes)), Strings(Get(service, KAllowedPathPrefixes))),
      NormalChecks(AsList(Or(Get(root, KRequiredChecks), Get(root, KChecks)))),
      NormalReviews(AsList(Or(Get(root, KHumanReviews), Get(root, KReviews)))),
      FirstBool([Get(root, KPathSensitiveHumanReviewEnabled), Get(service, KPathSensitiveHumanReviewEnabled)]),
      FirstBool([Get(root, KForbiddenSecretContextDetected), Get(service, KForbiddenSecretContextDetected)]),
      FirstBool([Get(root, KAdminBypassRequested), Get(service, KAdminBypassRequested)]),
      FirstBool([Get(root, KPatBackedBotActor), Get(service, KPatBackedBotActor)]),
      FirstBool([Get(root, KCodexOrClaudeReleaseAuthority), Get(service, KCodexOrClaudeReleaseAuthority)]),
      FirstBool([Get(root, KLiveAdapterExecutionRequested), Get(service, KLiveAdapterExecutionRequested)]),
      request.0,
      request.1,
      FirstString([Get(root, KReviewedSlice), Get(service, KReviewedSlice)]),
      StringOf(Get(currentWp, KId)),
      StringOf(Get(currentWp, KIssue)),
      StringOf(Get(currentWp, KStatus)),
      BoolOf(Get(status, KSupportWideningAllowed)),
      BoolOf(Get(status, KProductionPlatformClaimAllowed)),
      BoolOf(Get(status, KLiveAdapterExecutionAllowed)))
  }
}
