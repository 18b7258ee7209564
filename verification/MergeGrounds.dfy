/** Why a run of the merge executor does not merge, and which commands one that does has issued, all
    on what `gh` answered. */
module MergeGrounds {
  import opened Text
  import opened Json
  import opened MergeExecutor
  import opened MergeSafety
  import RequiredChecks

  // ----- blockers -----

  /** The answer names a user other than the expected actor. */
  predicate ByAnother(req: Request, user: Answer) {
    && IsObject(user) && Get(user.json.value.fields, KLogin).Str?
    && Get(user.json.value.fields, KLogin) != Str("") && Get(user.json.value.fields, KLogin) != Str(req.expectedActor)
  }

  /** The permission of a collaborator record, or its role when there is no permission. */
  predicate StatesRole(record: Object, role: string) {
    || Get(record, KPermission) == Str(role)
    || ((!Get(record, KPermission).Str? || Get(record, KPermission) == Str("")) && Get(record, KRoleName) == Str(role))
  }

  predicate NoAccessShown(access: Answer) {
    IsObject(access) ==> NothingGranted(access.json.value.fields)
  }

  /** Administrator rights were observed. */
  predicate ShowsAdmin(req: Request, a: Answers) {
    && IsObject(a.access)
    && var record := a.access.json.value.fields;
       if ByAnother(req, a.user) then StatesRole(record, "admin") || Get(record, KRoleName) == Str("admin")
       else Grants(record, KAdmin)
  }

  predicate ShowsWrite(req: Request, a: Answers) {
    && IsObject(a.access)
    && var record := a.access.json.value.fields;
       if ByAnother(req, a.user) then StatesRole(record, "write") else ExactlyWrite(record)
  }

  ghost predicate WhyCollection(req: Request, a: Answers, step: Step) {
    match step
    case ViewerStep => !IsObject(a.user) && !ByActionsToken(req, a.user)
    case PermissionStep => !IsObject(a.access) && ByAnother(req, a.user)
    case RepoPermissionStep => !IsObject(a.access) && !ByAnother(req, a.user)
    case ViewStep => !IsObject(a.view)
    case ChecksStep => !IsList(a.checks)
    case CheckRunsStep => a.runs.Some? && !IsObject(a.runs.value)
  }

  ghost predicate WhyActor(req: Request, a: Answers, b: Blocker) {
    match b
    case CollectionFailed(step) => WhyCollection(req, a, step)
    case UnexpectedMergeActor => !ByExpectedUser(req, a.user) && !ByActionsToken(req, a.user)
    case IdentityUnverified => ByActionsToken(req, a.user) && !req.tokenProof
    case AdminPermissionObserved => ShowsAdmin(req, a)
    case PermissionUnobservable => ByActionsToken(req, a.user) && !req.tokenProof && NoAccessShown(a.access)
    case ActorNotWrite => !ShowsWrite(req, a) && !(ByActionsToken(req, a.user) && NoAccessShown(a.access))
    case _ => false
  }

  /** The pull request as it was answered, or nothing. */
  function Viewed(a: Answers): Object {
    if IsObject(a.view) then a.view.json.value.fields else map[]
  }

  ghost predicate WhyPullRequest(req: Request, pr: Object, b: Blocker) {
    match b
    case PrNotOpen => Get(pr, KState) != Str("OPEN") && Get(pr, KState) != Str("MERGED") && !IsMerged(pr)
    case PrIsDraft => Get(pr, KIsDraft) == Bool(true)
    case BaseNotExpected => Get(pr, KBaseRefName) != Str(req.baseRef)
    case CrossRepository => Get(pr, KIsCrossRepository) == Bool(true)
    case MergeStateNotClean =>
      && Get(pr, KState) == Str("OPEN")
      && Get(pr, KMergeStateStatus) != Str("CLEAN") && Get(pr, KMergeStateStatus) != Str("HAS_HOOKS")
    case HeadShaMissing => forall sha :: !IsHead(pr, sha)
    case EventHeadShaStale =>
      exists sha, event :: IsHead(pr, sha) && req.eventHeadSha == Some(event) && event != "" && event != sha
    case _ => false
  }

  ghost predicate WhyChecks(req: Request, a: Answers, b: Blocker) {
    match b
    case RequiredChecksNotPassed => IsList(a.checks) && !RequiredChecks.EveryGroupPasses(a.checks.json.value.items)
    case PinnedChecksNotSuccess =>
      !(a.runs.Some? && IsObject(a.runs.value) && GateSucceeded(a.runs.value.json.value.fields))
    case AdminMergeCommand => req.ghBin == "--admin"
    case ConfirmationMissing => req.execute && req.confirmation != Some("AO-AUTONOMOUS-MERGE-EXECUTE")
    case _ => false
  }

  /** What blocks, on the answers. */
  ghost predicate Why(req: Request, a: Answers, b: Blocker) {
    WhyActor(req, a, b) || WhyPullRequest(req, Viewed(a), b) || WhyChecks(req, a, b)
  }

  lemma OtherIs(req: Request, user: Answer)
    ensures IsOther(req, Login(req, user)) <==> ByAnother(req, user)
  {
    assert "github-actions[bot]" != "";
  }

  lemma CollectionIs(req: Request, a: Answers, step: Step)
    ensures step in Errors(req, a) <==> WhyCollection(req, a, step)
  {
    OtherIs(req, a.user);
    TokenIs(req, a.user);
  }

  lemma RepoRole(repo: Object)
    ensures var p := RepoPermission(repo);
      && (RequiredChecks.NonEmpty(Get(p, KPermission)) == Some("admin") <==> Grants(repo, KAdmin))
      && (Get(p, KRoleName) == Str("admin") <==> Grants(repo, KAdmin))
      && (RequiredChecks.NonEmpty(Get(p, KPermission)).None? <==> NothingGranted(repo))
      && Get(p, KRoleName) == Get(p, KPermission)
  {
  }

  lemma NameIs(live: LiveState, role: string)
    requires role != ""
    ensures PermissionName(live) == Some(role) <==> StatesRole(live.permission, role)
  {
  }

  lemma AdminIs(req: Request, a: Answers)
    ensures var live := LiveOf(req, a);
      PermissionName(live) == Some("admin") || Get(live.permission, KRoleName) == Str("admin") <==> ShowsAdmin(req, a)
  {
    OtherIs(req, a.user);
    NameIs(LiveOf(req, a), "admin");
    if IsObject(a.access) {
      RepoRole(a.access.json.value.fields);
    }
  }

  lemma WriteIs(req: Request, a: Answers)
    ensures PermissionName(LiveOf(req, a)) == Some("write") <==> ShowsWrite(req, a)
  {
    OtherIs(req, a.user);
    NameIs(LiveOf(req, a), "write");
    if IsObject(a.access) {
      RepoRole(a.access.json.value.fields);
      RoleIsWrite(a.access.json.value.fields);
    }
  }

  lemma UnobservableIs(req: Request, a: Answers)
    ensures SyntheticActor(req, LiveOf(req, a)) <==> ByActionsToken(req, a.user)
    ensures Unobservable(req, LiveOf(req, a)) <==> ByActionsToken(req, a.user) && NoAccessShown(a.access)
  {
    OtherIs(req, a.user);
    TokenIs(req, a.user);
    if IsObject(a.access) {
      RepoRole(a.access.json.value.fields);
    }
  }

  lemma ActorIs(req: Request, a: Answers, b: Blocker)
    ensures ActorBlocker(req, LiveOf(req, a), b) <==> WhyActor(req, a, b)
  {
    TokenIs(req, a.user);
    if b.CollectionFailed? {
      CollectionIs(req, a, b.step);
    }
    AdminIs(req, a);
    WriteIs(req, a);
    UnobservableIs(req, a);
  }

  lemma PullRequestIs(req: Request, live: LiveState, b: Blocker)
    ensures PullRequestBlocker(req, live, b) <==> WhyPullRequest(req, live.prView, b)
  {
    var pr := live.prView;
    if HeadSha(pr).Some? {
      assert IsHead(pr, HeadSha(pr).value);
    }
    assert forall sha :: IsHead(pr, sha) ==> HeadSha(pr) == Some(sha);
  }

  lemma ChecksIs(req: Request, a: Answers, b: Blocker)
    ensures CheckBlocker(req, LiveOf(req, a), b) <==> WhyChecks(req, a, b)
  {
    BothPinnedIs(LiveOf(req, a).checkRuns);
  }

  lemma HoldsIs(req: Request, a: Answers, b: Blocker)
    ensures Holds(req, LiveOf(req, a), None, b) <==> Why(req, a, b)
  {
    ActorIs(req, a, b);
    PullRequestIs(req, LiveOf(req, a), b);
    ChecksIs(req, a, b);
  }

  /** For every run that is evaluated and whose pull request is not merged yet: what blocks it is
      exactly what the answers give as a reason. */
  lemma BlockedIff(x: Execution, b: Blocker)
    requires IsRun(x) && x.first.Done? && !AlreadyMerged(x.answers)
    ensures b in x.first.value.blockers <==> Why(x.req, x.answers, b)
  {
    NoopIs(x.req, x.answers);
    HoldsIs(x.req, x.answers, b);
  }

  /** The report claims an attempt exactly when a merge was requested, nothing blocks, and the pull
      request is open: also when it carries a merge time, and no merge is issued. */
  lemma AttemptClaimedIff(x: Execution)
    requires IsRun(x) && x.last.Done?
    ensures x.last.value.mergeAttempted <==>
            && x.req.execute && Get(Viewed(x.answers), KState) == Str("OPEN")
            && forall b :: !Why(x.req, x.answers, b)
  {
    forall b: Blocker ensures Holds(x.req, LiveOf(x.req, x.answers), None, b) <==> Why(x.req, x.answers, b) {
      HoldsIs(x.req, x.answers, b);
    }
  }

  // ----- commands -----

  /** The head branch may be deleted. */
  predicate Disposable(pr: Object, ref: string, baseRef: string) {
    && Get(pr, KHeadRefName) == Str(ref) && Get(pr, KIsCrossRepository) != Bool(true)
    && ref != "" && ref != baseRef && !StartsWith(ref, "refs/")
  }

  function Asked(trace: seq<Event>): seq<Command> {
    seq(|trace|, i requires 0 <= i < |trace| => trace[i].command)
  }

  lemma ReadsAsked(req: Request, a: Answers, sha: string)
    requires Complete(a) && HeadSha(PrView(a)) == Some(sha) && !IsOther(req, Login(req, a.user))
    ensures Asked(Reads(req, a)) == [GetUser, GetRepo, ViewPr, ListChecks, ListCheckRuns(sha)]
  {
  }

  lemma AskedAppend(a: seq<Event>, b: seq<Event>)
    ensures Asked(a + b) == Asked(a) + Asked(b)
  {
  }

  lemma DisposableIs(pr: Object, baseRef: string, ref: string)
    ensures SafeHeadRef(pr, baseRef) == Some(ref) <==> Disposable(pr, ref, baseRef)
  {
  }

  /** The reads and the merge of a commit. */
  function MergeOf(sha: string): seq<Command> {
    [GetUser, GetRepo, ViewPr, ListChecks, ListCheckRuns(sha), Merge(sha)]
  }

  /** The commands of a run that merges the commit: the head branch goes when the merge succeeded
      and the branch is disposable. */
  ghost predicate Issues(asked: seq<Command>, sha: string, pr: Object, baseRef: string, merged: bool) {
    if merged && exists ref :: Disposable(pr, ref, baseRef)
    then exists ref :: Disposable(pr, ref, baseRef) && asked == MergeOf(sha) + [DeleteBranch(ref)]
    else asked == MergeOf(sha)
  }

  lemma ActsIssue(read: seq<Event>, acts: seq<Event>, pr: Object, baseRef: string, sha: string)
    requires MergeActs(pr, baseRef, acts) && HeadSha(pr) == Some(sha)
    requires Asked(read) == [GetUser, GetRepo, ViewPr, ListChecks, ListCheckRuns(sha)]
    ensures acts != [] && Issues(Asked(read + acts), sha, pr, baseRef, acts[0].answer.exit == 0)
  {
    AskedAppend(read, acts);
    forall ref ensures SafeHeadRef(pr, baseRef) == Some(ref) <==> Disposable(pr, ref, baseRef) {
      DisposableIs(pr, baseRef, ref);
    }
    if acts[0].answer.exit == 0 && SafeHeadRef(pr, baseRef).Some? {
      var ref := SafeHeadRef(pr, baseRef).value;
      assert Asked(acts) == [Merge(sha), DeleteBranch(ref)];
      assert Asked(read) + Asked(acts) == MergeOf(sha) + [DeleteBranch(ref)];
    } else {
      assert Asked(acts) == [Merge(sha)];
      assert Asked(read) + Asked(acts) == MergeOf(sha);
    }
  }

  /** Every run that may merge issues these commands and no others: five reads, the merge of the
      head commit, and the deletion of the head branch if it may go. */
  lemma MergeCommands(x: Execution)
    requires IsRun(x) && MayMerge(x.req, x.answers)
    ensures x.acts != []
    ensures exists sha ::
      && IsHead(Viewed(x.answers), sha)
      && Issues(Asked(Trace(x)), sha, Viewed(x.answers), x.req.baseRef, x.acts[0].answer.exit == 0)
  {
    var pr := Viewed(x.answers);
    MergesIffAllowed(x);
    ActsIffReady(x);
    assert pr == PrView(x.answers);
    var sha := HeadSha(pr).value;
    TokenIs(x.req, x.answers.user);
    ReadsAsked(x.req, x.answers, sha);
    ActsIssue(Reads(x.req, x.answers), x.acts, pr, x.req.baseRef, sha);
    assert IsHead(pr, sha);
  }
}
