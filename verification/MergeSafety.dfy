/** What every run of the merge executor keeps, whatever `gh` answers. */
module MergeSafety {
  import opened Text
  import opened Json
  import opened MergeExecutor
  import RequiredChecks

  // ----- when the executor merges -----

  /** The answer is an object, given with exit code 0. */
  predicate IsObject(a: Answer) {
    a.exit == 0 && a.json.Some? && a.json.value.Dict?
  }

  predicate IsList(a: Answer) {
    a.exit == 0 && a.json.Some? && a.json.value.List?
  }

  predicate Grants(repo: Object, k: Key) {
    Get(repo, KPermissions).Dict? && Get(Get(repo, KPermissions).fields, k) == Bool(true)
  }

  predicate ExactlyWrite(repo: Object) {
    Grants(repo, KPush) && !Grants(repo, KAdmin) && !Grants(repo, KMaintain)
  }

  predicate NothingGranted(repo: Object) {
    && !Grants(repo, KAdmin) && !Grants(repo, KMaintain) && !Grants(repo, KPush)
    && !Grants(repo, KTriage) && !Grants(repo, KPull)
  }

  /** The user cannot be shown because the token is that of an Actions integration. */
  predicate ByActionsToken(req: Request, user: Answer) {
    req.expectedActor == "github-actions[bot]" && user.exit != 0 && user.integrationError
  }

  predicate ByExpectedUser(req: Request, user: Answer) {
    req.expectedActor != "" && IsObject(user) && Get(user.json.value.fields, KLogin) == Str(req.expectedActor)
  }

  /** The actor is the expected one and can write but no more; an Actions token, whose identity and
      permissions `gh` cannot show, needs the proof of the environment instead. */
  predicate TrustedActor(req: Request, a: Answers) {
    && IsObject(a.access)
    && var repo := a.access.json.value.fields;
       || (ByExpectedUser(req, a.user) && ExactlyWrite(repo))
       || (ByActionsToken(req, a.user) && req.tokenProof && (ExactlyWrite(repo) || NothingGranted(repo)))
  }

  /** The head commit of the pull request. */
  predicate IsHead(pr: Object, sha: string) {
    sha != "" && Get(pr, KHeadRefOid) == Str(sha)
  }

  predicate IsMerged(pr: Object) {
    Get(pr, KMergedAt).Str? && Get(pr, KMergedAt) != Str("")
  }

  /** Open, on the expected base, clean, and at the commit of the event if there was one. */
  ghost predicate MergeablePr(req: Request, pr: Object) {
    && Get(pr, KState) == Str("OPEN") && !IsMerged(pr)
    && Get(pr, KIsDraft) != Bool(true) && Get(pr, KIsCrossRepository) != Bool(true)
    && Get(pr, KBaseRefName) == Str(req.baseRef)
    && (Get(pr, KMergeStateStatus) == Str("CLEAN") || Get(pr, KMergeStateStatus) == Str("HAS_HOOKS"))
    && exists sha :: IsHead(pr, sha) && (req.eventHeadSha == None || req.eventHeadSha == Some("") || req.eventHeadSha == Some(sha))
  }

  /** Among the check runs there is one of that name, of the Actions app, that ended with success. */
  ghost predicate Succeeded(runs: Object, name: string) {
    && Get(runs, KCheckRuns).List?
    && exists run: Object :: Dict(run) in Get(runs, KCheckRuns).items && Get(run, KName) == Str(name)
         && Get(run, KApp).Dict? && IsActionsApp(Get(Get(run, KApp).fields, KId))
         && Get(run, KStatus) == Str("completed") && Get(run, KConclusion) == Str("success")
  }

  /** The number of the Actions app. */
  predicate IsActionsApp(id: Value) {
    id == Int(15368) || id == Float(15368.0)
  }

  ghost predicate GateSucceeded(runs: Object) {
    Succeeded(runs, "ao-release-gate-technical") && Succeeded(runs, "ao-release-gate-review")
  }

  ghost predicate ChecksPassed(a: Answers) {
    && IsList(a.checks) && RequiredChecks.EveryGroupPasses(a.checks.json.value.items)
    && a.runs.Some? && IsObject(a.runs.value) && GateSucceeded(a.runs.value.json.value.fields)
  }

  /** What has to have been asked for and answered for a merge. */
  ghost predicate MayMerge(req: Request, a: Answers) {
    && req.execute && req.confirmation == Some("AO-AUTONOMOUS-MERGE-EXECUTE") && req.ghBin != "--admin"
    && TrustedActor(req, a)
    && IsObject(a.view) && MergeablePr(req, a.view.json.value.fields)
    && ChecksPassed(a)
  }

  // ----- the tests of the executor are these conditions -----

  lemma TokenIs(req: Request, user: Answer)
    ensures IntegrationToken(req, user) <==> ByActionsToken(req, user)
    ensures Login(req, user) == Some(req.expectedActor) <==> ByActionsToken(req, user) || ByExpectedUser(req, user)
  {
    assert "github-actions[bot]" != "";
  }

  lemma PinnedIs(raw: Value, name: string)
    ensures PinnedRun(raw, name) <==>
         && raw.Dict? && Get(raw.fields, KName) == Str(name)
         && Get(raw.fields, KApp).Dict? && IsActionsApp(Get(Get(raw.fields, KApp).fields, KId))
         && Get(raw.fields, KStatus) == Str("completed") && Get(raw.fields, KConclusion) == Str("success")
  {
  }

  lemma HasPinnedIs(runs: Object, name: string)
    ensures HasPinnedRun(runs, name) <==> Succeeded(runs, name)
  {
    var items := AsList(Get(runs, KCheckRuns));
    if HasPinnedRun(runs, name) {
      var raw :| raw in items && PinnedRun(raw, name);
      PinnedIs(raw, name);
      assert Dict(raw.fields) in Get(runs, KCheckRuns).items;
    }
    if Succeeded(runs, name) {
      var run: Object :| Dict(run) in Get(runs, KCheckRuns).items && Get(run, KName) == Str(name)
         && Get(run, KApp).Dict? && IsActionsApp(Get(Get(run, KApp).fields, KId))
         && Get(run, KStatus) == Str("completed") && Get(run, KConclusion) == Str("success");
      PinnedIs(Dict(run), name);
    }
  }

  lemma BothPinnedIs(runs: Object)
    ensures BothPinnedRuns(runs) <==> GateSucceeded(runs)
  {
    HasPinnedIs(runs, "ao-release-gate-technical");
    HasPinnedIs(runs, "ao-release-gate-review");
  }

  lemma MergeableIs(req: Request, pr: Object)
    ensures MergeablePr(req, pr) <==>
            && Get(pr, KState) == Str("OPEN") && MergedAt(pr).None?
            && Get(pr, KIsDraft) != TRUE && Get(pr, KIsCrossRepository) != TRUE
            && Get(pr, KBaseRefName) == Str(req.baseRef)
            && ReadyMergeState(Get(pr, KMergeStateStatus))
            && HeadSha(pr).Some? && !Stale(req.eventHeadSha, HeadSha(pr))
  {
    if HeadSha(pr).Some? {
      assert IsHead(pr, HeadSha(pr).value);
    }
  }

  // ----- nothing blocks -----

  predicate ActorClear(req: Request, live: LiveState) {
    && live.errors == {}
    && Actor(live) == Some(req.expectedActor)
    && (live.integrationToken ==> live.tokenVerified)
    && Get(live.permission, KRoleName) != Str("admin")
    && (PermissionName(live) == Some("write") || (live.integrationToken && PermissionName(live).None?))
  }

  lemma ActorBlockersAre(req: Request, live: LiveState)
    ensures (forall b :: !ActorBlocker(req, live, b)) <==> ActorClear(req, live)
  {
    if forall b :: !ActorBlocker(req, live, b) {
      forall step: Step ensures step !in live.errors {
        assert !ActorBlocker(req, live, CollectionFailed(step));
      }
      assert !ActorBlocker(req, live, UnexpectedMergeActor) && !ActorBlocker(req, live, IdentityUnverified);
      assert !ActorBlocker(req, live, AdminPermissionObserved) && !ActorBlocker(req, live, ActorNotWrite);
    }
  }

  predicate PullRequestClear(req: Request, live: LiveState) {
    var pr := live.prView;
    && (PrState(live) == Str("OPEN") || PrState(live) == Str("MERGED") || MergedAt(live.prView).Some?)
    && Get(pr, KIsDraft) != TRUE && Get(pr, KIsCrossRepository) != TRUE
    && Get(pr, KBaseRefName) == Str(req.baseRef)
    && (ReadyMergeState(Get(pr, KMergeStateStatus)) || PrState(live) != Str("OPEN"))
    && HeadSha(pr).Some? && !Stale(req.eventHeadSha, HeadSha(pr))
  }

  lemma PullRequestBlockersAre(req: Request, live: LiveState)
    ensures (forall b :: !PullRequestBlocker(req, live, b)) <==> PullRequestClear(req, live)
  {
    if forall b :: !PullRequestBlocker(req, live, b) {
      assert !PullRequestBlocker(req, live, PrNotOpen) && !PullRequestBlocker(req, live, PrIsDraft);
      assert !PullRequestBlocker(req, live, BaseNotExpected) && !PullRequestBlocker(req, live, CrossRepository);
      assert !PullRequestBlocker(req, live, MergeStateNotClean) && !PullRequestBlocker(req, live, HeadShaMissing);
      assert !PullRequestBlocker(req, live, EventHeadShaStale);
    }
  }

  ghost predicate ChecksClear(req: Request, live: LiveState) {
    && RequiredChecks.EveryGroupPasses(live.requiredChecks)
    && BothPinnedRuns(live.checkRuns) && !UsesAdminFlag(req) && !Unconfirmed(req)
  }

  lemma CheckBlockersAre(req: Request, live: LiveState)
    ensures (forall b :: !CheckBlocker(req, live, b)) <==> ChecksClear(req, live)
  {
    var checksOk, pinnedOk := RequiredChecks.EveryGroupPasses(live.requiredChecks), BothPinnedRuns(live.checkRuns);
    var admin, unconfirmed := UsesAdminFlag(req), Unconfirmed(req);
    forall b: Blocker ensures CheckBlocker(req, live, b) <==> Flagged(b, checksOk, pinnedOk, admin, unconfirmed) {
    }
    NothingFlagged(checksOk, pinnedOk, admin, unconfirmed);
  }

  lemma NothingFlagged(checksOk: bool, pinnedOk: bool, admin: bool, unconfirmed: bool)
    ensures (forall b :: !Flagged(b, checksOk, pinnedOk, admin, unconfirmed)) <==>
            checksOk && pinnedOk && !admin && !unconfirmed
  {
    if forall b :: !Flagged(b, checksOk, pinnedOk, admin, unconfirmed) {
      assert !Flagged(RequiredChecksNotPassed, checksOk, pinnedOk, admin, unconfirmed);
      assert !Flagged(PinnedChecksNotSuccess, checksOk, pinnedOk, admin, unconfirmed);
      assert !Flagged(AdminMergeCommand, checksOk, pinnedOk, admin, unconfirmed);
      assert !Flagged(ConfirmationMissing, checksOk, pinnedOk, admin, unconfirmed);
    }
  }

  lemma ClearMeans(req: Request, live: LiveState)
    ensures Clear(req, live, None) <==> ActorClear(req, live) && PullRequestClear(req, live) && ChecksClear(req, live)
  {
    ActorBlockersAre(req, live);
    PullRequestBlockersAre(req, live);
    CheckBlockersAre(req, live);
    if Clear(req, live, None) {
      forall b ensures !ActorBlocker(req, live, b) && !PullRequestBlocker(req, live, b) && !CheckBlocker(req, live, b) {
        assert !Holds(req, live, None, b);
      }
    }
  }

  lemma RoleIsWrite(repo: Object)
    ensures var p := RepoPermission(repo);
      && (RequiredChecks.NonEmpty(Get(p, KPermission)) == Some("write") <==> ExactlyWrite(repo))
      && (p == map[] <==> NothingGranted(repo))
      && (ExactlyWrite(repo) ==> p == Role("write"))
      && (p != map[] ==> RequiredChecks.NonEmpty(Get(p, KPermission)).Some?)
  {
  }

  lemma NoErrors(req: Request, a: Answers)
    requires Complete(a)
    ensures Errors(req, a) == {} <==>
            && (ObjectAnswer(a.user).Some? || IntegrationToken(req, a.user)) && ObjectAnswer(a.access).Some?
            && ObjectAnswer(a.view).Some? && ListAnswer(a.checks).Some?
            && (a.runs.Some? ==> ObjectAnswer(a.runs.value).Some?)
  {
    var e := Errors(req, a);
    assert ObjectAnswer(a.user).None? && !IntegrationToken(req, a.user) ==> ViewerStep in e;
    assert ObjectAnswer(a.access).None? ==> AccessStep(req, Login(req, a.user)) in e;
    assert ObjectAnswer(a.view).None? ==> ViewStep in e;
    assert ListAnswer(a.checks).None? ==> ChecksStep in e;
    assert a.runs.Some? && ObjectAnswer(a.runs.value).None? ==> CheckRunsStep in e;
  }

  lemma ActorClearMeans(req: Request, a: Answers)
    requires Errors(req, a) == {} && Complete(a)
    ensures ActorClear(req, LiveOf(req, a)) <==> TrustedActor(req, a)
  {
    NoErrors(req, a);
    TokenIs(req, a.user);
    RoleIsWrite(ObjectAnswer(a.access).value);
  }

  lemma PullRequestClearMeans(req: Request, live: LiveState)
    ensures PullRequestClear(req, live) && !Noop(live) <==> MergeablePr(req, live.prView)
  {
    MergeableIs(req, live.prView);
  }

  lemma ReadyMeans(req: Request, live: LiveState)
    ensures ResultOf(req, live, None) == ReadyToMerge <==>
            req.execute && ActorClear(req, live) && MergeablePr(req, live.prView) && ChecksClear(req, live)
  {
    ClearMeans(req, live);
    PullRequestClearMeans(req, live);
  }

  /** The checks, as they were answered. */
  lemma ChecksClearMeans(req: Request, a: Answers)
    requires Errors(req, a) == {} && Complete(a) && HeadSha(PrView(a)).Some?
    ensures ChecksClear(req, LiveOf(req, a)) <==> ChecksPassed(a) && !UsesAdminFlag(req) && !Unconfirmed(req)
  {
    NoErrors(req, a);
    BothPinnedIs(LiveOf(req, a).checkRuns);
  }

  lemma ReadyWithoutErrors(req: Request, a: Answers)
    requires Errors(req, a) == {} && Complete(a)
    ensures req.execute && ActorClear(req, LiveOf(req, a)) && MergeablePr(req, PrView(a)) && ChecksClear(req, LiveOf(req, a))
       <==> MayMerge(req, a)
  {
    NoErrors(req, a);
    ActorClearMeans(req, a);
    MergeableIs(req, PrView(a));
    if HeadSha(PrView(a)).Some? {
      ChecksClearMeans(req, a);
    }
  }

  lemma ErrorsForbid(req: Request, a: Answers)
    requires Errors(req, a) != {} && Complete(a)
    ensures !MayMerge(req, a)
  {
    NoErrors(req, a);
    TokenIs(req, a.user);
  }

  lemma ReadyIffMayMerge(req: Request, a: Answers)
    requires Complete(a)
    ensures ResultOf(req, LiveOf(req, a), None) == ReadyToMerge <==> MayMerge(req, a)
  {
    ReadyMeans(req, LiveOf(req, a));
    if Errors(req, a) == {} {
      ReadyWithoutErrors(req, a);
    } else {
      ErrorsForbid(req, a);
    }
  }

  lemma ActsIffReady(x: Execution)
    requires IsRun(x)
    ensures x.acts != [] <==> ResultOf(x.req, LiveOf(x.req, x.answers), None) == ReadyToMerge
    ensures x.acts != [] ==> MergeActs(PrView(x.answers), x.req.baseRef, x.acts) && HeadSha(PrView(x.answers)).Some?
  {
    ReadyMeans(x.req, LiveOf(x.req, x.answers));
  }

  /** Soundness and completeness: over everything `gh` may answer, a run merges exactly when it was
      asked to, with the confirmation, and what was read allows it. */
  lemma MergesIffAllowed(x: Execution)
    requires IsRun(x)
    ensures x.acts != [] <==> MayMerge(x.req, x.answers)
  {
    ActsIffReady(x);
    ReadyIffMayMerge(x.req, x.answers);
  }

  // ----- the trace -----

  predicate IsMerge(e: Event) {
    e.command.Merge?
  }

  lemma ReadsNeverAct(req: Request, a: Answers, i: nat)
    requires Complete(a) && i < |Reads(req, a)|
    ensures !Reads(req, a)[i].command.Merge? && !Reads(req, a)[i].command.DeleteBranch?
  {
  }

  lemma LastRead(req: Request, a: Answers)
    requires Complete(a) && HeadSha(PrView(a)).Some?
    ensures Reads(req, a)[|Reads(req, a)| - 1] == Event(ListCheckRuns(HeadSha(PrView(a)).value), a.runs.value)
  {
  }

  /** The acts come after the reads: a merge is the first and a delete the second. */
  lemma ActsAreLast(x: Execution, i: nat)
    requires IsRun(x) && i < |Trace(x)|
    ensures IsMerge(Trace(x)[i]) <==> x.acts != [] && i == |Reads(x.req, x.answers)|
    ensures Trace(x)[i].command.DeleteBranch? <==> |x.acts| == 2 && i == |Reads(x.req, x.answers)| + 1
    ensures x.acts != [] ==> Trace(x)[|Reads(x.req, x.answers)|] == x.acts[0]
    ensures x.acts != [] ==> Trace(x)[|Reads(x.req, x.answers)| - 1] == Reads(x.req, x.answers)[|Reads(x.req, x.answers)| - 1]
  {
    var r := |Reads(x.req, x.answers)|;
    if i < r {
      ReadsNeverAct(x.req, x.answers, i);
      assert Trace(x)[i] == Reads(x.req, x.answers)[i];
    } else {
      assert Trace(x)[i] == x.acts[i - r];
      ActsIffReady(x);
    }
  }

  /** The command before a merge read the check runs of the very commit that is merged, the head of
      the pull request, and both gate checks succeeded in its answer. */
  lemma MergeIsOfTheExaminedCommit(x: Execution, i: nat)
    requires IsRun(x) && i < |Trace(x)| && IsMerge(Trace(x)[i])
    ensures var trace := Trace(x);
      && IsObject(x.answers.view) && IsHead(x.answers.view.json.value.fields, trace[i].command.sha)
      && i > 0 && trace[i - 1].command == ListCheckRuns(trace[i].command.sha)
      && IsObject(trace[i - 1].answer) && GateSucceeded(trace[i - 1].answer.json.value.fields)
  {
    ActsAreLast(x, i);
    ActsIffReady(x);
    MergesIffAllowed(x);
    LastRead(x.req, x.answers);
  }

  /** A run merges at most once. */
  lemma AtMostOneMerge(x: Execution, i: nat, j: nat)
    requires IsRun(x) && i < |Trace(x)| && j < |Trace(x)|
    requires IsMerge(Trace(x)[i]) && IsMerge(Trace(x)[j])
    ensures i == j
  {
    ActsAreLast(x, i);
    ActsAreLast(x, j);
  }

  /** A branch is deleted only right after a merge that exited with zero, and it is the head branch
      of the pull request: never the base branch, and never a full ref. */
  lemma DeleteFollowsMerge(x: Execution, i: nat)
    requires IsRun(x) && i < |Trace(x)| && Trace(x)[i].command.DeleteBranch?
    ensures var trace := Trace(x);
      var ref := trace[i].command.ref;
      && i > 0 && IsMerge(trace[i - 1]) && trace[i - 1].answer.exit == 0
      && Get(PrView(x.answers), KHeadRefName) == Str(ref) && Get(PrView(x.answers), KIsCrossRepository) != TRUE
      && ref != "" && ref != x.req.baseRef && !StartsWith(ref, "refs/")
  {
    ActsAreLast(x, i);
    ActsIffReady(x);
    assert Trace(x)[i] == x.acts[1];
  }

  // ----- the two evaluations -----

  /** Evaluating the same state again, with the exit code of a merge that the first evaluation
      called for. */
  lemma SecondReport(req: Request, live: LiveState, first: Report, exit: Option<int>, last: Report)
    requires Reports(req, live, None, Done(first)) && Reports(req, live, exit, Done(last))
    requires exit.Some? <==> first.result == ReadyToMerge
    ensures last.blockers == first.blockers + (if exit.Some? && exit.value != 0 then {MergeCommandFailed} else {})
    ensures last.result == if exit == None then first.result else if exit == Some(0) then Merged else IsBlocked
  {
    forall b: Blocker ensures
      Holds(req, live, exit, b) <==> Holds(req, live, None, b) || (b == MergeCommandFailed && exit.Some? && exit.value != 0)
    {
    }
    if exit.Some? && exit.value != 0 {
      assert Holds(req, live, exit, MergeCommandFailed);
    }
    if exit.Some? {
      assert Clear(req, live, None);
      if exit.value == 0 {
        assert Clear(req, live, exit);
      }
    }
    if exit == None {
      assert forall b: Blocker :: b in first.blockers <==> b in last.blockers;
    }
  }

  lemma ReportsOf(x: Execution)
    requires IsRun(x)
    ensures x.first.Done? <==> x.last.Done?
    ensures x.acts != [] ==> x.first.Done?
    ensures var exit := if x.acts == [] then None else Some(x.acts[0].answer.exit);
      x.first.Done? ==>
        && x.last.value.blockers
           == x.first.value.blockers + (if exit.Some? && exit.value != 0 then {MergeCommandFailed} else {})
        && x.last.value.result == if exit == None then x.first.value.result else if exit == Some(0) then Merged else IsBlocked
  {
    ActsIffReady(x);
    var exit := if x.acts == [] then None else Some(x.acts[0].answer.exit);
    if x.first.Done? {
      SecondReport(x.req, LiveOf(x.req, x.answers), x.first.value, exit, x.last.value);
    }
  }

  /** The second evaluation finds what the first found, and the failure of the merge if it failed. */
  lemma SecondEvaluationAddsOnlyFailure(x: Execution)
    requires IsRun(x)
    ensures x.first.Done? <==> x.last.Done?
    ensures x.first.Done? ==>
      var failed := x.acts != [] && x.acts[0].answer.exit != 0;
      x.last.value.blockers == x.first.value.blockers + if failed then {MergeCommandFailed} else {}
  {
    ReportsOf(x);
  }

  /** The last result is merged exactly when the merge was issued and exited with zero, and then
      alone does the report claim a mutation. */
  lemma MergedIffMergeSucceeded(x: Execution)
    requires IsRun(x)
    ensures x.last.Done? && x.last.value.result == Merged <==> x.acts != [] && x.acts[0].answer.exit == 0
    ensures x.last.Done? && x.last.value.mutationsPerformed <==> x.acts != [] && x.acts[0].answer.exit == 0
  {
    ReportsOf(x);
  }

  /** The pull request was merged when it was read. */
  predicate AlreadyMerged(a: Answers) {
    && IsObject(a.view)
    && (Get(a.view.json.value.fields, KState) == Str("MERGED") || IsMerged(a.view.json.value.fields))
  }

  lemma NoopIs(req: Request, a: Answers)
    ensures Noop(LiveOf(req, a)) <==> AlreadyMerged(a)
  {
  }

  /** A requested run exits with 0 exactly when the pull request is merged: it was when it was
      read, or the run merged it. */
  lemma ExecuteExitsZeroIffMerged(x: Execution)
    requires IsRun(x) && x.req.execute && x.last.Done?
    ensures Succeeds(x.last.value.result) <==> AlreadyMerged(x.answers) || (x.acts != [] && x.acts[0].answer.exit == 0)
  {
    ReportsOf(x);
    ActsIffReady(x);
    NoopIs(x.req, x.answers);
  }

  lemma AttemptedIn(req: Request, live: LiveState)
    ensures req.execute && Clear(req, live, None) && PrState(live) == Str("OPEN") <==>
            || ResultOf(req, live, None) == ReadyToMerge
            || (req.execute && Clear(req, live, None) && PrState(live) == Str("OPEN") && MergedAt(live.prView).Some?)
  {
    ClearMeans(req, live);
  }

  /** The report says that a merge was attempted whenever one was issued, and on one other occasion:
      when nothing blocks an open pull request that already carries a merge time. */
  lemma AttemptedMeans(x: Execution)
    requires IsRun(x) && x.last.Done?
    ensures var live := LiveOf(x.req, x.answers);
      x.last.value.mergeAttempted <==>
        || x.acts != []
        || (x.req.execute && Clear(x.req, live, None) && PrState(live) == Str("OPEN") && MergedAt(live.prView).Some?)
  {
    ActsIffReady(x);
    AttemptedIn(x.req, LiveOf(x.req, x.answers));
  }

  // ----- a merge reported but not issued -----

  function Answered(v: Value): Answer {
    Answer(0, Some(v), false)
  }

  function Successful(name: string): Value {
    Dict(map[KName := Str(name), KApp := Dict(map[KId := Int(GITHUB_ACTIONS_APP_ID)]),
             KStatus := Str("completed"), KConclusion := Str("success")])
  }

  const REQUESTED := Request("main", "bot", None, true, Some(EXECUTE_CONFIRMATION), "gh", false)

  /** An open, mergeable pull request with a merge time. */
  const OPEN_AND_MERGED: Object := map[
    KState := Str("OPEN"), KMergedAt := Str("2026-01-01T00:00:00Z"), KBaseRefName := Str("main"),
    KMergeStateStatus := Str("CLEAN"), KHeadRefOid := Str("c0ffee")]

  const ANSWERS := Answers(
    Answered(Dict(map[KLogin := Str("bot")])),
    Answered(Dict(map[KPermissions := Dict(map[KPush := TRUE])])),
    Answered(Dict(OPEN_AND_MERGED)),
    Answered(List([])),
    Some(Answered(Dict(map[KCheckRuns := List([Successful(PINNED_TECHNICAL), Successful(PINNED_REVIEW)])]))))

  lemma ExampleActor()
    ensures Complete(ANSWERS) && ActorClear(REQUESTED, LiveOf(REQUESTED, ANSWERS))
  {
    var repo := ObjectAnswer(ANSWERS.access).value;
    assert ExactlyWrite(repo);
    RoleIsWrite(repo);
    assert Login(REQUESTED, ANSWERS.user) == Some("bot");
    NoErrors(REQUESTED, ANSWERS);
    ActorClearMeans(REQUESTED, ANSWERS);
  }

  lemma BothPinned(runs: Object)
    requires AsList(Get(runs, KCheckRuns)) == [Successful(PINNED_TECHNICAL), Successful(PINNED_REVIEW)]
    ensures HasPinnedRun(runs, PINNED_TECHNICAL) && HasPinnedRun(runs, PINNED_REVIEW)
  {
    var list := AsList(Get(runs, KCheckRuns));
    assert list[0] in list && PinnedRun(list[0], PINNED_TECHNICAL);
    assert list[1] in list && PinnedRun(list[1], PINNED_REVIEW);
  }

  lemma ExampleChecks()
    ensures ChecksClear(REQUESTED, LiveOf(REQUESTED, ANSWERS))
  {
    BothPinned(LiveOf(REQUESTED, ANSWERS).checkRuns);
    assert LiveOf(REQUESTED, ANSWERS).requiredChecks == [];
  }

  lemma ExampleFields()
    ensures Get(OPEN_AND_MERGED, KState) == Str("OPEN") && MergedAt(OPEN_AND_MERGED).Some?
    ensures Get(OPEN_AND_MERGED, KBaseRefName) == Str("main") && HeadSha(OPEN_AND_MERGED).Some?
    ensures Get(OPEN_AND_MERGED, KMergeStateStatus) == Str("CLEAN")
    ensures Get(OPEN_AND_MERGED, KIsDraft) == Null == Get(OPEN_AND_MERGED, KIsCrossRepository)
  {
  }

  lemma ExamplePr()
    ensures var live := LiveOf(REQUESTED, ANSWERS);
      && PullRequestClear(REQUESTED, live) && PrState(live) == Str("OPEN") && MergedAt(live.prView).Some?
      && ReadyMergeState(Get(live.prView, KMergeStateStatus))
  {
    assert LiveOf(REQUESTED, ANSWERS).prView == OPEN_AND_MERGED;
    ExampleFields();
  }

  lemma OpenNoopReport(req: Request, live: LiveState)
    requires ActorClear(req, live) && PullRequestClear(req, live) && ChecksClear(req, live) && req.execute
    requires PrState(live) == Str("OPEN") && MergedAt(live.prView).Some?
    requires ReadyMergeState(Get(live.prView, KMergeStateStatus))
    ensures Reports(req, live, None, Done(Report(NoopAlreadyMerged, {}, true, false)))
  {
    ClearMeans(req, live);
  }

  /** The other occasion exists: this run issues no merge and reports that one was attempted. */
  lemma AttemptedWithoutMerge()
    ensures var report := Done(Report(NoopAlreadyMerged, {}, true, false));
      IsRun(Execution(REQUESTED, ANSWERS, report, [], report))
  {
    ExampleActor();
    ExampleChecks();
    ExamplePr();
    OpenNoopReport(REQUESTED, LiveOf(REQUESTED, ANSWERS));
  }
}
