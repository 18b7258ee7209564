/** The autonomous merge executor: it reads the state of a pull request through `gh`, evaluates it,
    merges when nothing blocks, and evaluates again. What `gh` answers is arbitrary. */
module MergeExecutor {
  import opened Text
  import opened Json
  import RequiredChecks

  datatype Request = Request(
    baseRef: string,
    expectedActor: string,
    eventHeadSha: Option<string>,
    execute: bool,
    confirmation: Option<string>,
    ghBin: string,
    tokenProof: bool)  // the environment shows the repository's own Actions token

  const DEFAULT_EXPECTED_ACTOR := "github-actions[bot]"
  const EXECUTE_CONFIRMATION := "AO-AUTONOMOUS-MERGE-EXECUTE"
  const GITHUB_ACTIONS_APP_ID := 15368
  const PINNED_TECHNICAL := "ao-release-gate-technical"
  const PINNED_REVIEW := "ao-release-gate-review"
  const ADMIN_FLAG := "--admin"

  // ----- the command runner -----

  datatype Command =
    | GetUser | GetPermission(login: string) | GetRepo | ViewPr | ListChecks | ListCheckRuns(sha: string)
    | Merge(sha: string) | DeleteBranch(ref: string)

  /** An exit code, the decoded standard output if it is JSON, and whether the error text names the
      integration-token limitation. */
  datatype Answer = Answer(exit: int, json: Option<Value>, integrationError: bool)

  datatype Event = Event(command: Command, answer: Answer)

  /** The `gh` program: it answers every command in any way, and remembers what it was asked. */
  class Gh {
    var log: seq<Event>

    constructor ()
      ensures log == []
    {
      log := [];
    }

    method Run(command: Command) returns (answer: Answer)
      modifies this
      ensures log == old(log) + [Event(command, answer)]
    {
      answer := *;
      log := log + [Event(command, answer)];
    }
  }

  function ObjectAnswer(a: Answer): Option<Object> {
    if a.exit == 0 && a.json.Some? && a.json.value.Dict? then Some(a.json.value.fields) else None
  }

  function ListAnswer(a: Answer): Option<seq<Value>> {
    if a.exit == 0 && a.json.Some? && a.json.value.List? then Some(a.json.value.items) else None
  }

  // ----- collection -----

  datatype Step = ViewerStep | PermissionStep | RepoPermissionStep | ViewStep | ChecksStep | CheckRunsStep

  datatype LiveState = LiveState(
    viewer: Object,
    permission: Object,
    prView: Object,
    requiredChecks: seq<Value>,
    checkRuns: Object,
    tokenVerified: bool,
    integrationToken: bool,
    errors: set<Step>)

  /** What `gh` answered to the four or five reads of a run. */
  datatype Answers = Answers(user: Answer, access: Answer, view: Answer, checks: Answer, runs: Option<Answer>)

  predicate IntegrationToken(req: Request, user: Answer) {
    ObjectAnswer(user).None? && req.expectedActor == DEFAULT_EXPECTED_ACTOR && user.exit != 0 && user.integrationError
  }

  function Viewer(req: Request, user: Answer): Object {
    if IntegrationToken(req, user) then map[KLogin := Str(req.expectedActor)] else ObjectAnswer(user).GetOr(map[])
  }

  function Login(req: Request, user: Answer): Option<string> {
    RequiredChecks.NonEmpty(Get(Viewer(req, user), KLogin))
  }

  predicate IsOther(req: Request, login: Option<string>) {
    login.Some? && login.value != req.expectedActor
  }

  function AccessCommand(req: Request, login: Option<string>): Command {
    if IsOther(req, login) then GetPermission(login.value) else GetRepo
  }

  function Role(name: string): Object {
    map[KPermission := Str(name), KRoleName := Str(name)]
  }

  /** The strongest permission a repository record grants. */
  function RepoPermission(repo: Object): Object {
    var granted := AsDict(Get(repo, KPermissions));
    if Get(granted, KAdmin) == TRUE then Role("admin")
    else if Get(granted, KMaintain) == TRUE then Role("maintain")
    else if Get(granted, KPush) == TRUE then Role("write")
    else if Get(granted, KTriage) == TRUE then Role("triage")
    else if Get(granted, KPull) == TRUE then Role("read")
    else map[]
  }

  function PermissionOf(req: Request, login: Option<string>, access: Answer): Object {
    match ObjectAnswer(access)
    case None => map[]
    case Some(payload) => if IsOther(req, login) then payload else RepoPermission(payload)
  }

  function AccessStep(req: Request, login: Option<string>): Step {
    if IsOther(req, login) then PermissionStep else RepoPermissionStep
  }

  function PrView(a: Answers): Object {
    ObjectAnswer(a.view).GetOr(map[])
  }

  function HeadSha(prView: Object): Option<string> {
    RequiredChecks.NonEmpty(Get(prView, KHeadRefOid))
  }

  /** The check runs are read exactly when the pull request has a head commit. */
  predicate Complete(a: Answers) {
    a.runs.Some? <==> HeadSha(PrView(a)).Some?
  }

  function RunsRead(headSha: Option<string>, runs: Option<Answer>): seq<Event>
    requires runs.Some? <==> headSha.Some?
  {
    if runs.Some? then [Event(ListCheckRuns(headSha.value), runs.value)] else []
  }

  function RunsOf(runs: Option<Answer>): Object {
    if runs.Some? then ObjectAnswer(runs.value).GetOr(map[]) else map[]
  }

  /** The commands of the reading phase with their answers. */
  function Reads(req: Request, a: Answers): seq<Event>
    requires Complete(a)
  {
    [Event(GetUser, a.user), Event(AccessCommand(req, Login(req, a.user)), a.access),
     Event(ViewPr, a.view), Event(ListChecks, a.checks)]
    + RunsRead(HeadSha(PrView(a)), a.runs)
  }

  function When(condition: bool, step: Step): set<Step> {
    if condition then {step} else {}
  }

  function Errors(req: Request, a: Answers): set<Step> {
    When(ObjectAnswer(a.user).None? && !IntegrationToken(req, a.user), ViewerStep)
    + When(ObjectAnswer(a.access).None?, AccessStep(req, Login(req, a.user)))
    + When(ObjectAnswer(a.view).None?, ViewStep)
    + When(ListAnswer(a.checks).None?, ChecksStep)
    + When(a.runs.Some? && ObjectAnswer(a.runs.value).None?, CheckRunsStep)
  }

  function LiveOf(req: Request, a: Answers): LiveState {
    LiveState(
      Viewer(req, a.user),
      PermissionOf(req, Login(req, a.user), a.access),
      PrView(a),
      ListAnswer(a.checks).GetOr([]),
      RunsOf(a.runs),
      IntegrationToken(req, a.user) && req.tokenProof,
      IntegrationToken(req, a.user),
      Errors(req, a))
  }

  method CollectViewer(gh: Gh, req: Request)
    returns (viewer: Object, integration: bool, errors: set<Step>, user: Answer)
    modifies gh
    ensures gh.log == old(gh.log) + [Event(GetUser, user)]
    ensures viewer == Viewer(req, user) && integration == IntegrationToken(req, user)
    ensures errors == When(ObjectAnswer(user).None? && !IntegrationToken(req, user), ViewerStep)
  {
    user := gh.Run(GetUser);
    viewer, integration, errors := map[], false, {};
    if ObjectAnswer(user).Some? {
      viewer := ObjectAnswer(user).value;
    } else if req.expectedActor == DEFAULT_EXPECTED_ACTOR && user.exit != 0 && user.integrationError {
      viewer := map[KLogin := Str(req.expectedActor)];
      integration := true;
    } else {
      errors := {ViewerStep};
    }
  }

  method CollectPermission(gh: Gh, req: Request, login: Option<string>)
    returns (permission: Object, errors: set<Step>, access: Answer)
    modifies gh
    ensures gh.log == old(gh.log) + [Event(AccessCommand(req, login), access)]
    ensures permission == PermissionOf(req, login, access)
    ensures errors == When(ObjectAnswer(access).None?, AccessStep(req, login))
  {
    permission, errors := map[], {};
    if login.Some? && login.value != req.expectedActor {
      access := gh.Run(GetPermission(login.value));
      if ObjectAnswer(access).Some? {
        permission := ObjectAnswer(access).value;
      } else {
        errors := {PermissionStep};
      }
    } else {
      access := gh.Run(GetRepo);
      if ObjectAnswer(access).Some? {
        permission := RepoPermission(ObjectAnswer(access).value);
      } else {
        errors := {RepoPermissionStep};
      }
    }
  }

  method CollectCheckRuns(gh: Gh, headSha: Option<string>)
    returns (checkRuns: Object, errors: set<Step>, runs: Option<Answer>)
    modifies gh
    ensures runs.Some? <==> headSha.Some?
    ensures gh.log == old(gh.log) + RunsRead(headSha, runs)
    ensures checkRuns == RunsOf(runs)
    ensures errors == When(runs.Some? && ObjectAnswer(runs.value).None?, CheckRunsStep)
  {
    checkRuns, errors, runs := map[], {}, None;
    if headSha.Some? {
      var answer := gh.Run(ListCheckRuns(headSha.value));
      runs := Some(answer);
      if ObjectAnswer(answer).Some? {
        checkRuns := ObjectAnswer(answer).value;
      } else {
        errors := {CheckRunsStep};
      }
    }
  }

  /** The reading phase. */
  method CollectLiveState(gh: Gh, req: Request) returns (live: LiveState, ghost a: Answers)
    modifies gh
    ensures Complete(a) && gh.log == old(gh.log) + Reads(req, a)
    ensures live == LiveOf(req, a)
  {
    var viewer, integration, errors, user := CollectViewer(gh, req);
    var permission, accessErrors, access := CollectPermission(gh, req, RequiredChecks.NonEmpty(Get(viewer, KLogin)));
    var view := gh.Run(ViewPr);
    var viewErrors := When(ObjectAnswer(view).None?, ViewStep);
    var prView := ObjectAnswer(view).GetOr(map[]);
    var checks := gh.Run(ListChecks);
    var checksErrors := When(ListAnswer(checks).None?, ChecksStep);
    var checkRuns, runsErrors, runs := CollectCheckRuns(gh, HeadSha(prView));
    a := Answers(user, access, view, checks, runs);
    live := LiveState(viewer, permission, prView, ListAnswer(checks).GetOr([]), checkRuns,
                      integration && req.tokenProof, integration,
                      errors + accessErrors + viewErrors + checksErrors + runsErrors);
  }

  // ----- source-pinned checks -----

  /** A run of the named check by the Actions app that completed with success. */
  predicate PinnedRun(raw: Value, name: string) {
    var run := AsDict(raw);
    && Get(run, KName) == Str(name)
    && PyEq(Get(AsDict(Get(run, KApp)), KId), Int(GITHUB_ACTIONS_APP_ID))
    && Get(run, KStatus) == Str("completed")
    && Get(run, KConclusion) == Str("success")
  }

  ghost predicate HasPinnedRun(checkRuns: Object, name: string) {
    exists raw :: raw in AsList(Get(checkRuns, KCheckRuns)) && PinnedRun(raw, name)
  }

  ghost predicate BothPinnedRuns(checkRuns: Object) {
    HasPinnedRun(checkRuns, PINNED_TECHNICAL) && HasPinnedRun(checkRuns, PINNED_REVIEW)
  }

  method SourcePinnedChecks(checkRuns: Object) returns (ok: bool)
    ensures ok <==> BothPinnedRuns(checkRuns)
  {
    var runs := AsList(Get(checkRuns, KCheckRuns));
    var required := [PINNED_TECHNICAL, PINNED_REVIEW];
    ok := true;
    for n := 0 to |required|
      invariant ok <==> forall m | 0 <= m < n :: HasPinnedRun(checkRuns, required[m])
    {
      var matches: seq<Value> := [];
      for i := 0 to |runs|
        invariant forall raw :: raw in matches <==> raw in runs[..i] && Get(AsDict(raw), KName) == Str(required[n])
      {
        assert runs[..i + 1] == runs[..i] + [runs[i]];
        if Get(AsDict(runs[i]), KName) == Str(required[n]) {
          matches := matches + [runs[i]];
        }
      }
      assert runs[..|runs|] == runs;
      var found := exists raw :: raw in matches && PinnedRun(raw, required[n]);
      assert found <==> HasPinnedRun(checkRuns, required[n]);
      ok := ok && found;
    }
    assert ok <==> HasPinnedRun(checkRuns, required[0]) && HasPinnedRun(checkRuns, required[1]);
  }

  // ----- evaluation -----

  datatype Blocker =
    | CollectionFailed(step: Step) | UnexpectedMergeActor | IdentityUnverified | AdminPermissionObserved
    | PermissionUnobservable | ActorNotWrite | PrNotOpen | PrIsDraft | BaseNotExpected | CrossRepository
    | MergeStateNotClean | HeadShaMissing | EventHeadShaStale | RequiredChecksNotPassed | PinnedChecksNotSuccess
    | AdminMergeCommand | ConfirmationMissing | MergeCommandFailed

  datatype Result = NoopAlreadyMerged | IsBlocked | Merged | ReadyToMerge | ReadyForDryRun

  datatype Report = Report(result: Result, blockers: set<Blocker>, mergeAttempted: bool, mutationsPerformed: bool)

  function Actor(live: LiveState): Option<string> {
    RequiredChecks.NonEmpty(Get(live.viewer, KLogin))
  }

  function PermissionName(live: LiveState): Option<string> {
    var name := RequiredChecks.NonEmpty(Get(live.permission, KPermission));
    if name.Some? then name else RequiredChecks.NonEmpty(Get(live.permission, KRoleName))
  }

  predicate SyntheticActor(req: Request, live: LiveState) {
    Actor(live) == Some(req.expectedActor) && live.integrationToken
  }

  predicate Unobservable(req: Request, live: LiveState) {
    SyntheticActor(req, live) && PermissionName(live).None?
  }

  function PrState(live: LiveState): Value {
    Get(live.prView, KState)
  }

  function MergedAt(prView: Object): Option<string> {
    RequiredChecks.NonEmpty(Get(prView, KMergedAt))
  }

  predicate ReadyMergeState(v: Value) {
    v == Str("CLEAN") || v == Str("HAS_HOOKS")
  }

  predicate Stale(event: Option<string>, sha: Option<string>) {
    event.Some? && event.value != "" && sha.Some? && event.value != sha.value
  }

  /** What each blocker reports about the reading phase, the actor and the permissions. */
  predicate ActorBlocker(req: Request, live: LiveState, b: Blocker) {
    match b
    case CollectionFailed(step) => step in live.errors
    case UnexpectedMergeActor => Actor(live) != Some(req.expectedActor)
    case IdentityUnverified => SyntheticActor(req, live) && !live.tokenVerified
    case AdminPermissionObserved =>
      PermissionName(live) == Some("admin") || Get(live.permission, KRoleName) == Str("admin")
    case PermissionUnobservable => Unobservable(req, live) && !live.tokenVerified
    case ActorNotWrite => !Unobservable(req, live) && PermissionName(live) != Some("write")
    case _ => false
  }

  /** What each blocker reports about the pull request. */
  predicate PullRequestBlocker(req: Request, live: LiveState, b: Blocker) {
    match b
    case PrNotOpen => PrState(live) != Str("OPEN") && PrState(live) != Str("MERGED") && MergedAt(live.prView).None?
    case PrIsDraft => Get(live.prView, KIsDraft) == TRUE
    case BaseNotExpected => Get(live.prView, KBaseRefName) != Str(req.baseRef)
    case CrossRepository => Get(live.prView, KIsCrossRepository) == TRUE
    case MergeStateNotClean =>
      !ReadyMergeState(Get(live.prView, KMergeStateStatus)) && PrState(live) == Str("OPEN")
    case HeadShaMissing => HeadSha(live.prView).None?
    case EventHeadShaStale => Stale(req.eventHeadSha, HeadSha(live.prView))
    case _ => false
  }

  /** What each blocker reports about the checks and the request. Of the arguments of the merge
      command only the program name can be the administrator flag. */
  ghost predicate CheckBlocker(req: Request, live: LiveState, b: Blocker) {
    Flagged(b, RequiredChecks.EveryGroupPasses(live.requiredChecks), BothPinnedRuns(live.checkRuns),
            UsesAdminFlag(req), Unconfirmed(req))
  }

  predicate Flagged(b: Blocker, checksOk: bool, pinnedOk: bool, admin: bool, unconfirmed: bool) {
    match b
    case RequiredChecksNotPassed => !checksOk
    case PinnedChecksNotSuccess => !pinnedOk
    case AdminMergeCommand => admin
    case ConfirmationMissing => unconfirmed
    case _ => false
  }

  predicate UsesAdminFlag(req: Request) {
    req.ghBin == ADMIN_FLAG
  }

  predicate Unconfirmed(req: Request) {
    req.execute && req.confirmation != Some(EXECUTE_CONFIRMATION)
  }

  ghost predicate Holds(req: Request, live: LiveState, mergeExit: Option<int>, b: Blocker) {
    || ActorBlocker(req, live, b) || PullRequestBlocker(req, live, b) || CheckBlocker(req, live, b)
    || (b == MergeCommandFailed && mergeExit.Some? && mergeExit.value != 0)
  }

  ghost predicate Clear(req: Request, live: LiveState, mergeExit: Option<int>) {
    forall b :: !Holds(req, live, mergeExit, b)
  }

  predicate Noop(live: LiveState) {
    PrState(live) == Str("MERGED") || MergedAt(live.prView).Some?
  }

  ghost function ResultOf(req: Request, live: LiveState, mergeExit: Option<int>): Result {
    if Noop(live) then NoopAlreadyMerged
    else if !Clear(req, live, mergeExit) then IsBlocked
    else if req.execute && mergeExit == Some(0) then Merged
    else if req.execute && mergeExit == None then ReadyToMerge
    else ReadyForDryRun
  }

  /** A report of an evaluation. A merge state that is a list or an object has none: testing it for
      membership in a set raises. */
  ghost predicate Reports(req: Request, live: LiveState, mergeExit: Option<int>, r: Outcome<Report>) {
    && (r.Raised? <==> !Hashable(Get(live.prView, KMergeStateStatus)))
    && (r.Done? ==>
          && r.value.result == ResultOf(req, live, mergeExit)
          && (forall b :: b in r.value.blockers <==> !Noop(live) && Holds(req, live, mergeExit, b))
          && (r.value.mergeAttempted <==> req.execute && Clear(req, live, None) && PrState(live) == Str("OPEN"))
          && (r.value.mutationsPerformed <==> r.value.result == Merged))
  }

  method ActorBlockers(req: Request, live: LiveState) returns (blockers: set<Blocker>)
    ensures forall b :: b in blockers <==> ActorBlocker(req, live, b)
  {
    blockers := set step | step in live.errors :: CollectionFailed(step);
    var actor := Actor(live);
    var permissionName := PermissionName(live);
    var synthetic := actor == Some(req.expectedActor) && live.integrationToken;
    if actor != Some(req.expectedActor) {
      blockers := blockers + {UnexpectedMergeActor};
    }
    if synthetic && !live.tokenVerified {
      blockers := blockers + {IdentityUnverified};
    }
    if permissionName == Some("admin") || Get(live.permission, KRoleName) == Str("admin") {
      blockers := blockers + {AdminPermissionObserved};
    }
    if synthetic && permissionName.None? {
      if !live.tokenVerified {
        blockers := blockers + {PermissionUnobservable};
      }
    } else if permissionName != Some("write") {
      blockers := blockers + {ActorNotWrite};
    }
  }

  method PullRequestBlockers(req: Request, live: LiveState) returns (r: Outcome<set<Blocker>>)
    ensures r.Raised? <==> !Hashable(Get(live.prView, KMergeStateStatus))
    ensures r.Done? ==> forall b :: b in r.value <==> PullRequestBlocker(req, live, b)
  {
    var blockers: set<Blocker> := {};
    var prState := PrState(live);
    if prState != Str("OPEN") && prState != Str("MERGED") && MergedAt(live.prView).None? {
      blockers := blockers + {PrNotOpen};
    }
    if Get(live.prView, KIsDraft) == TRUE {
      blockers := blockers + {PrIsDraft};
    }
    if Get(live.prView, KBaseRefName) != Str(req.baseRef) {
      blockers := blockers + {BaseNotExpected};
    }
    if Get(live.prView, KIsCrossRepository) == TRUE {
      blockers := blockers + {CrossRepository};
    }
    if !Hashable(Get(live.prView, KMergeStateStatus)) {
      return Raised;
    }
    if !ReadyMergeState(Get(live.prView, KMergeStateStatus)) && prState == Str("OPEN") {
      blockers := blockers + {MergeStateNotClean};
    }
    var headSha := HeadSha(live.prView);
    if headSha.None? {
      blockers := blockers + {HeadShaMissing};
    }
    if Stale(req.eventHeadSha, headSha) {
      blockers := blockers + {EventHeadShaStale};
    }
    r := Done(blockers);
  }

  /** The blockers of the checks and of the request. */
  method CheckBlockers(req: Request, live: LiveState) returns (blockers: set<Blocker>)
    ensures forall b :: b in blockers <==> CheckBlocker(req, live, b)
  {
    var checksOk, _ := RequiredChecks.RequiredChecksPass(live.requiredChecks);
    var pinnedOk := SourcePinnedChecks(live.checkRuns);
    blockers := Flags(checksOk, pinnedOk, UsesAdminFlag(req), Unconfirmed(req));
  }

  method Flags(checksOk: bool, pinnedOk: bool, admin: bool, unconfirmed: bool) returns (blockers: set<Blocker>)
    ensures forall b :: b in blockers <==> Flagged(b, checksOk, pinnedOk, admin, unconfirmed)
  {
    blockers := {};
    if !checksOk {
      blockers := blockers + {RequiredChecksNotPassed};
    }
    if !pinnedOk {
      blockers := blockers + {PinnedChecksNotSuccess};
    }
    if admin {
      blockers := blockers + {AdminMergeCommand};
    }
    if unconfirmed {
      blockers := blockers + {ConfirmationMissing};
    }
  }

  /** The evaluation: it adds up the blockers, and forgets them when the pull request is already
      merged. */
  method BuildResult(req: Request, live: LiveState, mergeExit: Option<int>) returns (r: Outcome<Report>)
    ensures Reports(req, live, mergeExit, r)
  {
    var blockers := ActorBlockers(req, live);
    var state := PullRequestBlockers(req, live);
    if state.Raised? {
      return Raised;
    }
    var checks := CheckBlockers(req, live);
    blockers := blockers + state.value + checks;
    assert forall b :: b in blockers <==> Holds(req, live, None, b);
    var prState, mergedAt := PrState(live), MergedAt(live.prView);
    var attempted := req.execute && blockers == {} && prState == Str("OPEN");
    if mergeExit.Some? && mergeExit.value != 0 {
      blockers := blockers + {MergeCommandFailed};
    }
    assert forall b :: b in blockers <==> Holds(req, live, mergeExit, b);
    var result;
    if prState == Str("MERGED") || (mergedAt.Some? && PrNotOpen !in blockers) {
      result := NoopAlreadyMerged;
      blockers := {};
    } else if blockers != {} {
      result := IsBlocked;
    } else if req.execute && mergeExit == Some(0) {
      result := Merged;
    } else if req.execute && mergeExit == None {
      result := ReadyToMerge;
    } else {
      result := ReadyForDryRun;
    }
    r := Done(Report(result, blockers, attempted, result == Merged));
  }

  // ----- merging -----

  /** The head branch, when it may be deleted after the merge. */
  function SafeHeadRef(prView: Object, baseRef: string): Option<string> {
    var head := Get(prView, KHeadRefName);
    if Get(prView, KIsCrossRepository) == TRUE then None
    else if !head.Str? || head.s == "" then None
    else if head.s == baseRef || StartsWith(head.s, "refs/") then None
    else Some(head.s)
  }

  /** One merge, and a delete when the merge succeeded and the head branch may go. */
  predicate MergeActs(prView: Object, baseRef: string, acts: seq<Event>) {
    var sha, ref := HeadSha(prView), SafeHeadRef(prView, baseRef);
    if sha.None? then acts == []
    else
      && acts != [] && acts[0].command == Merge(sha.value)
      && if acts[0].answer.exit == 0 && ref.Some? then |acts| == 2 && acts[1].command == DeleteBranch(ref.value)
         else |acts| == 1
  }

  function MergeExit(acts: seq<Event>): int {
    if acts == [] then 1 else acts[0].answer.exit
  }

  method ExecuteMerge(gh: Gh, prView: Object, baseRef: string) returns (exit: int, ghost acts: seq<Event>)
    modifies gh
    ensures gh.log == old(gh.log) + acts
    ensures MergeActs(prView, baseRef, acts) && exit == MergeExit(acts)
  {
    var headSha := HeadSha(prView);
    acts := [];
    if headSha.None? {
      return 1, acts;
    }
    var merge := gh.Run(Merge(headSha.value));
    acts := [Event(Merge(headSha.value), merge)];
    var ref := SafeHeadRef(prView, baseRef);
    if merge.exit == 0 && ref.Some? {
      var delete := gh.Run(DeleteBranch(ref.value));
      acts := acts + [Event(DeleteBranch(ref.value), delete)];
    }
    exit := merge.exit;
  }

  /** One run of the program: what was asked for and answered, the two evaluations, and what was
      done between them. */
  datatype Execution = Execution(
    req: Request, answers: Answers, first: Outcome<Report>, acts: seq<Event>, last: Outcome<Report>)

  /** The reads, a first evaluation, the merge if that says ready, and a second evaluation of the
      same state with the exit code of the merge. */
  ghost predicate IsRun(x: Execution) {
    var live := LiveOf(x.req, x.answers);
    && Complete(x.answers)
    && Reports(x.req, live, None, x.first)
    && if x.first.Done? && x.first.value.result == ReadyToMerge
       then MergeActs(live.prView, x.req.baseRef, x.acts) && Reports(x.req, live, Some(MergeExit(x.acts)), x.last)
       else x.acts == [] && Reports(x.req, live, None, x.last)
  }

  function Trace(x: Execution): seq<Event>
    requires Complete(x.answers)
  {
    Reads(x.req, x.answers) + x.acts
  }

  predicate Succeeds(result: Result) {
    result == ReadyForDryRun || result == Merged || result == NoopAlreadyMerged
  }

  /** The program: its exit code is 0 when the last result is a success, and 1 when it is not or the
      evaluation raised. */
  method RunExecutor(gh: Gh, req: Request) returns (exitCode: int, ghost x: Execution)
    modifies gh
    ensures IsRun(x) && x.req == req
    ensures gh.log == old(gh.log) + Trace(x)
    ensures exitCode == if x.last.Done? && Succeeds(x.last.value.result) then 0 else 1
  {
    var live;
    ghost var a;
    ghost var acts: seq<Event> := [];
    live, a := CollectLiveState(gh, req);
    var preliminary := BuildResult(req, live, None);
    if preliminary.Raised? {
      return 1, Execution(req, a, Raised, acts, Raised);
    }
    var mergeExit: Option<int> := None;
    if preliminary.value.result == ReadyToMerge {
      var exit;
      exit, acts := ExecuteMerge(gh, live.prView, req.baseRef);
      mergeExit := Some(exit);
    }
    var last := BuildResult(req, live, mergeExit);
    exitCode := if last.Done? && Succeeds(last.value.result) then 0 else 1;
    x := Execution(req, a, preliminary, acts, last);
  }
}
