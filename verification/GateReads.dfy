/** Where in a payload the gate reads what, and what an allow says about the payload itself. */
module GateReads {
  import opened Text
  import opened Json
  import opened GateContext
  import opened GateDecision
  import opened GatePolicy
  import opened GateTheorems
  import PathForms
  import Sequences

  // ----- the first of several places -----

  /** A string that is not blank. */
  predicate IsText(v: Value) {
    v.Str? && Strip(v.s) != ""
  }

  /** The first text among the values, stripped, or none of them is one. */
  ghost predicate FirstText(vs: seq<Value>, r: Option<string>) {
    match r
    case None => forall i | 0 <= i < |vs| :: !IsText(vs[i])
    case Some(s) => exists i :: TextAt(vs, i, s)
  }

  ghost predicate FirstFlag(vs: seq<Value>, r: Option<bool>) {
    match r
    case None => forall i | 0 <= i < |vs| :: !vs[i].Bool?
    case Some(b) => exists i :: 0 <= i < |vs| && vs[i] == Bool(b) && forall j | 0 <= j < i :: !vs[j].Bool?
  }

  /** A bool stands for a number too. */
  ghost predicate FirstNumber(vs: seq<Value>, r: Option<int>) {
    match r
    case None => forall i | 0 <= i < |vs| :: !vs[i].Int? && !vs[i].Bool?
    case Some(n) =>
      exists i :: 0 <= i < |vs| && (vs[i] == Int(n) || (vs[i] == Bool(true) && n == 1) || (vs[i] == Bool(false) && n == 0))
        && forall j | 0 <= j < i :: !vs[j].Int? && !vs[j].Bool?
  }

  ghost predicate TextAt(vs: seq<Value>, i: int, s: string) {
    0 <= i < |vs| && IsText(vs[i]) && Strip(vs[i].s) == s && forall j | 0 <= j < i :: !IsText(vs[j])
  }

  lemma Later(v: Value, rest: seq<Value>, i: nat, p: Value -> bool)
    requires !p(v) && i < |rest| && forall j | 0 <= j < i :: !p(rest[j])
    ensures var vs, k := [v] + rest, i + 1; vs[k] == rest[i] && forall j | 0 <= j < k :: !p(vs[j])
  {
    var vs := [v] + rest;
    forall j | 0 <= j < i + 1 ensures !p(vs[j]) {
      assert j > 0 ==> vs[j] == rest[j - 1];
    }
  }

  lemma TextLater(v: Value, rest: seq<Value>, i: nat, s: string)
    requires !IsText(v) && TextAt(rest, i, s)
    ensures TextAt([v] + rest, i + 1, s)
  {
    Later(v, rest, i, IsText);
  }

  lemma NoTextLater(v: Value, rest: seq<Value>)
    requires !IsText(v) && forall i | 0 <= i < |rest| :: !IsText(rest[i])
    ensures var vs := [v] + rest; forall i | 0 <= i < |vs| :: !IsText(vs[i])
  {
  }

  lemma {:induction false} FirstTextIs(vs: seq<Value>)
    ensures FirstText(vs, FirstString(vs))
  {
    if vs != [] {
      var v, rest := vs[0], vs[1..];
      assert vs == [v] + rest;
      if IsText(v) {
        assert TextAt(vs, 0, Strip(v.s));
      } else {
        FirstTextIs(rest);
        if FirstString(rest).Some? {
          var i :| TextAt(rest, i, FirstString(rest).value);
          TextLater(v, rest, i, FirstString(rest).value);
        } else {
          NoTextLater(v, rest);
        }
      }
    }
  }

  lemma {:induction false} FirstFlagIs(vs: seq<Value>)
    ensures FirstFlag(vs, FirstBool(vs))
  {
    if vs != [] && !vs[0].Bool? {
      var rest := vs[1..];
      FirstFlagIs(rest);
      if FirstBool(rest).Some? {
        var i :| 0 <= i < |rest| && rest[i] == Bool(FirstBool(rest).value) && forall j | 0 <= j < i :: !rest[j].Bool?;
        assert vs[i + 1] == rest[i];
        forall j | 0 <= j < i + 1 ensures !vs[j].Bool? {
          assert j > 0 ==> vs[j] == rest[j - 1];
        }
      } else {
        forall j | 0 <= j < |vs| ensures !vs[j].Bool? {
          assert j > 0 ==> vs[j] == rest[j - 1];
        }
      }
    }
  }

  lemma FirstNumberIs(a: Value, b: Value)
    ensures FirstNumber([a, b], FirstInt([a, b]))
  {
    var vs, one := [a, b], [b];
    assert vs[0] == a && vs[1] == b && vs[1..] == one && one[1..] == [];
    assert FirstInt(one) == IntOf(b);
    assert FirstInt(vs) == if IntOf(a).Some? then IntOf(a) else IntOf(b);
  }

  // ----- service context -----

  ghost predicate IsFirstFull(places: seq<Value>, i: int) {
    0 <= i < |places| && AsDict(places[i]) != map[] && forall j | 0 <= j < i :: AsDict(places[j]) == map[]
  }

  /** The first of four objects that is not empty, or the empty one. */
  ghost predicate IsService(root: Object, service: Object) {
    var places := [Get(root, KReleaseGateContext), Get(root, KAoReleaseGate), Get(root, KVerifiedContext),
                   Get(AsDict(Get(root, KAoKernel)), KReleaseGateContext)];
    || (service == map[] && forall i | 0 <= i < |places| :: AsDict(places[i]) == map[])
    || (service != map[] && exists i :: IsFirstFull(places, i) && AsDict(places[i]) == service)
  }

  lemma {:induction false} FirstObjectIs(vs: seq<Value>, d: Object)
    requires d == FirstObject(vs)
    ensures d == map[] ==> forall i | 0 <= i < |vs| :: AsDict(vs[i]) == map[]
    ensures d != map[] ==> exists i :: IsFirstFull(vs, i) && AsDict(vs[i]) == d
  {
    if vs != [] {
      var v, rest := vs[0], vs[1..];
      assert vs == [v] + rest;
      if AsDict(v) != map[] {
        assert IsFirstFull(vs, 0);
      } else {
        FirstObjectIs(rest, d);
        if i :| IsFirstFull(rest, i) && AsDict(rest[i]) == d {
          Later(v, rest, i, (x: Value) => AsDict(x) != map[]);
          assert IsFirstFull(vs, i + 1);
        }
      }
    }
  }

  lemma ServiceIs(root: Object)
    ensures IsService(root, ServiceContext(root))
  {
    FirstObjectIs([Get(root, KReleaseGateContext), Get(root, KAoReleaseGate), Get(root, KVerifiedContext),
                   Get(AsDict(Get(root, KAoKernel)), KReleaseGateContext)], ServiceContext(root));
  }

  lemma OneService(root: Object, a: Object, b: Object)
    requires IsService(root, a) && IsService(root, b)
    ensures a == b
  {
  }

  // ----- the fields of the context -----

  /** A text without a leading "refs/heads/". */
  ghost predicate FirstRef(vs: seq<Value>, r: Option<string>) {
    exists raw :: FirstText(vs, raw)
      && (raw.None? <==> r.None?)
      && (raw.Some? ==> r == Some(if StartsWith(raw.value, "refs/heads/") then raw.value[11..] else raw.value))
  }

  lemma RefIs(vs: seq<Value>)
    ensures FirstRef(vs, NormalizeRef(FirstString(vs)))
  {
    FirstTextIs(vs);
    assert |HEADS| == 11;
  }

  /** The texts of a payload, each with the places it may stand, in order. */
  ghost predicate TextsRead(root: Object, service: Object, ctx: Context) {
    var pr := AsDict(Get(root, KPullRequest));
    var base, head := AsDict(Get(pr, KBase)), AsDict(Get(pr, KHead));
    && FirstText([Get(AsDict(Get(root, KRepository)), KFullName), Get(root, KRepositoryFullName), Get(service, KRepository)],
                 ctx.repository)
    && FirstText([Get(root, KIssueUrl), Get(service, KIssueUrl)], ctx.issueUrl)
    && FirstRef([Get(base, KRef), Get(root, KBaseRef), Get(service, KBaseRef)], ctx.baseRef)
    && FirstRef([Get(head, KRef), Get(root, KHeadRef), Get(service, KHeadRef)], ctx.headRef)
    && FirstText([Get(head, KSha), Get(root, KHeadSha), Get(service, KHeadSha)], ctx.headSha)
    && FirstText([Get(root, KPrAuthor), Get(service, KPrAuthor), Get(AsDict(Get(pr, KAuthor)), KLogin)], ctx.prAuthor)
    && FirstText([Get(root, KEventName), Get(service, KEventName)], ctx.eventName)
    && FirstText([Get(root, KReviewedSlice), Get(service, KReviewedSlice)], ctx.reviewedSlice)
    && FirstNumber([Get(pr, KNumber), Get(root, KPullRequestNumber)], ctx.pullRequestNumber)
  }

  lemma TextsAreRead(root: Object, status: Value)
    ensures TextsRead(root, ServiceContext(root), ExtractContext(Dict(root), status))
  {
    var service, pr := ServiceContext(root), AsDict(Get(root, KPullRequest));
    var base, head := AsDict(Get(pr, KBase)), AsDict(Get(pr, KHead));
    FirstTextIs([Get(AsDict(Get(root, KRepository)), KFullName), Get(root, KRepositoryFullName), Get(service, KRepository)]);
    FirstTextIs([Get(root, KIssueUrl), Get(service, KIssueUrl)]);
    RefIs([Get(base, KRef), Get(root, KBaseRef), Get(service, KBaseRef)]);
    RefIs([Get(head, KRef), Get(root, KHeadRef), Get(service, KHeadRef)]);
    FirstTextIs([Get(head, KSha), Get(root, KHeadSha), Get(service, KHeadSha)]);
    FirstTextIs([Get(root, KPrAuthor), Get(service, KPrAuthor), Get(AsDict(Get(pr, KAuthor)), KLogin)]);
    FirstTextIs([Get(root, KEventName), Get(service, KEventName)]);
    FirstTextIs([Get(root, KReviewedSlice), Get(service, KReviewedSlice)]);
    FirstNumberIs(Get(pr, KNumber), Get(root, KPullRequestNumber));
  }

  ghost predicate RootOrService(root: Object, service: Object, k: Key, r: Option<bool>) {
    FirstFlag([Get(root, k), Get(service, k)], r)
  }

  /** The flags. */
  ghost predicate FlagsRead(root: Object, service: Object, ctx: Context) {
    var repo := AsDict(Get(AsDict(Get(AsDict(Get(root, KPullRequest)), KHead)), KRepo));
    && RootOrService(root, service, KBranchUpToDate, ctx.branchUpToDate)
    && FirstFlag([Get(root, KFromFork), Get(service, KFromFork), Get(repo, KFork)], ctx.fromFork)
    && RootOrService(root, service, KPathSensitiveHumanReviewEnabled, ctx.pathSensitiveHumanReviewEnabled)
    && RootOrService(root, service, KForbiddenSecretContextDetected, ctx.forbiddenSecretContextDetected)
    && RootOrService(root, service, KAdminBypassRequested, ctx.adminBypassRequested)
    && RootOrService(root, service, KPatBackedBotActor, ctx.patBackedBotActor)
    && RootOrService(root, service, KCodexOrClaudeReleaseAuthority, ctx.codexOrClaudeReleaseAuthority)
    && RootOrService(root, service, KLiveAdapterExecutionRequested, ctx.liveAdapterExecutionRequested)
  }

  lemma FlagsAreRead(root: Object, status: Value)
    ensures FlagsRead(root, ServiceContext(root), ExtractContext(Dict(root), status))
  {
    var service := ServiceContext(root);
    var repo := AsDict(Get(AsDict(Get(AsDict(Get(root, KPullRequest)), KHead)), KRepo));
    forall k: Key ensures RootOrService(root, service, k, FirstBool([Get(root, k), Get(service, k)])) {
      FirstFlagIs([Get(root, k), Get(service, k)]);
    }
    FirstFlagIs([Get(root, KFromFork), Get(service, KFromFork), Get(repo, KFork)]);
  }

  /** The strings of a list that are texts, stripped, in order. */
  ghost predicate TextsOf(v: Value, r: seq<string>) {
    r == TextsIn(if v.List? then v.items else [])
  }

  ghost function TextsIn(vs: seq<Value>): seq<string> {
    if vs == [] then [] else (if IsText(vs[0]) then [Strip(vs[0].s)] else []) + TextsIn(vs[1..])
  }

  lemma {:induction false} TextsInSnoc(vs: seq<Value>, v: Value)
    ensures TextsIn(vs + [v]) == TextsIn(vs) + if IsText(v) then [Strip(v.s)] else []
  {
    if vs == [] {
      Sequences.SumNone([v]);
      Sequences.SumNone(if IsText(v) then [Strip(v.s)] else []);
    } else {
      var tail := vs[1..];
      Sequences.SumTail(vs, [v]);
      TextsInSnoc(tail, v);
      Sequences.Assoc(if IsText(vs[0]) then [Strip(vs[0].s)] else [], TextsIn(tail), if IsText(v) then [Strip(v.s)] else []);
    }
  }

  lemma {:induction false} TextsAre(vs: seq<Value>)
    ensures StringsIn(vs) == TextsIn(vs)
  {
    if vs != [] {
      var init, last := vs[..|vs| - 1], vs[|vs| - 1];
      Sequences.SplitLast(vs);
      TextsAre(init);
      TextsInSnoc(init, last);
    }
  }

  ghost predicate ListRead(root: Object, service: Object, k: Key, r: seq<string>) {
    if TextsOf(Get(root, k), []) then TextsOf(Get(service, k), r) else TextsOf(Get(root, k), r)
  }

  lemma ListIsRead(root: Object, service: Object, k: Key)
    ensures ListRead(root, service, k, OrStrings(Strings(Get(root, k)), Strings(Get(service, k))))
  {
    TextsAre(AsList(Get(root, k)));
    TextsAre(AsList(Get(service, k)));
  }

  /** The lists, and the high-risk paths among the changed ones. */
  ghost predicate ListsRead(root: Object, service: Object, ctx: Context) {
    && ListRead(root, service, KChangedPaths, ctx.changedPaths)
    && ListRead(root, service, KAllowedPathPrefixes, ctx.allowedPathPrefixes)
    && PathForms.AreHighRisk(ctx.highRiskChangedPaths, ctx.changedPaths)
  }

  lemma ListsAreRead(root: Object, status: Value)
    ensures ListsRead(root, ServiceContext(root), ExtractContext(Dict(root), status))
  {
    var ctx, service := ExtractContext(Dict(root), status), ServiceContext(root);
    ListIsRead(root, service, KChangedPaths);
    ListIsRead(root, service, KAllowedPathPrefixes);
    PathForms.HighRiskAre(ctx.changedPaths, ctx.highRiskChangedPaths);
  }

  /** The governance status. */
  ghost predicate StatusRead(status: Object, ctx: Context) {
    var work := AsDict(Get(status, KCurrentWp));
    && FirstText([Get(work, KId)], ctx.gppCurrentWpId) && FirstText([Get(work, KIssue)], ctx.gppCurrentWpIssue)
    && FirstText([Get(work, KStatus)], ctx.gppCurrentWpStatus)
    && FirstFlag([Get(status, KSupportWideningAllowed)], ctx.gppSupportWideningAllowed)
    && FirstFlag([Get(status, KProductionPlatformClaimAllowed)], ctx.gppProductionPlatformClaimAllowed)
    && FirstFlag([Get(status, KLiveAdapterExecutionAllowed)], ctx.gppLiveAdapterExecutionAllowed)
  }

  lemma OneText(v: Value)
    ensures FirstText([v], StringOf(v)) && FirstFlag([v], BoolOf(v))
  {
    var vs := [v];
    assert vs[0] == v;
    if IsText(v) {
      assert TextAt(vs, 0, StringOf(v).value);
    }
  }

  lemma StatusIsRead(payload: Value, status: Object)
    ensures StatusRead(status, ExtractContext(payload, Dict(status)))
  {
    var work := AsDict(Get(status, KCurrentWp));
    OneText(Get(work, KId));
    OneText(Get(work, KIssue));
    OneText(Get(work, KStatus));
    OneText(Get(status, KSupportWideningAllowed));
    OneText(Get(status, KProductionPlatformClaimAllowed));
    OneText(Get(status, KLiveAdapterExecutionAllowed));
  }

  /** A value given for the autonomous merge request: under either name, by the payload or by the
      service context. */
  ghost predicate Asked(root: Object, service: Object, v: Value) {
    exists source, k | (source == root || source == service)
        && (k == KLowRiskAutonomousMergeRequested || k == KAoMa10AutonomousMergeRequested) ::
      k in source && source[k] == v
  }

  /** The request is valid unless two given values differ or one is no bool, and is the given one. */
  ghost predicate RequestRead(root: Object, service: Object, requested: Option<bool>, valid: bool) {
    && (valid <==> forall v, u | Asked(root, service, v) && Asked(root, service, u) :: v.Bool? && u == v)
    && (forall b :: requested == Some(b) <==> valid && Asked(root, service, Bool(b)))
  }

  lemma CandidatesAre(root: Object, service: Object, v: Value)
    ensures v in RequestCandidates(root, service) <==> Asked(root, service, v)
  {
    if v in RequestCandidates(root, service) {
      assert v in Present(root, KLowRiskAutonomousMergeRequested) || v in Present(root, KAoMa10AutonomousMergeRequested)
        || v in Present(service, KLowRiskAutonomousMergeRequested) || v in Present(service, KAoMa10AutonomousMergeRequested);
    }
  }

  lemma RequestIsRead(root: Object, status: Value, service: Object, ctx: Context)
    requires service == ServiceContext(root) && ctx == ExtractContext(Dict(root), status)
    ensures RequestRead(root, service, ctx.autonomousMergeRequested, ctx.autonomousMergeRequestValid)
  {
    var candidates := RequestCandidates(root, service);
    assert (ctx.autonomousMergeRequested, ctx.autonomousMergeRequestValid) == RequestOf(candidates);
    RequestMeans(root, service, candidates, ctx.autonomousMergeRequested, ctx.autonomousMergeRequestValid);
  }

  ghost predicate AllOneBool(vs: seq<Value>) {
    forall v, u | v in vs && u in vs :: v.Bool? && u == v
  }

  lemma AllOneBoolMeans(vs: seq<Value>)
    ensures AllOneBool(vs) <==> forall i | 0 <= i < |vs| :: vs[i].Bool? && vs[i] == vs[0]
  {
    forall i | 0 <= i < |vs| ensures vs[i] in vs && vs[0] in vs {
    }
  }

  lemma RequestMeans(root: Object, service: Object, candidates: seq<Value>, requested: Option<bool>, valid: bool)
    requires candidates == RequestCandidates(root, service) && RequestIs(candidates, requested, valid)
    ensures RequestRead(root, service, requested, valid)
  {
    forall v: Value ensures v in candidates <==> Asked(root, service, v) {
      CandidatesAre(root, service, v);
    }
    AllOneBoolMeans(candidates);
    OneIsGiven(candidates, requested, valid);
  }

  lemma OneIsGiven(candidates: seq<Value>, requested: Option<bool>, valid: bool)
    requires RequestIs(candidates, requested, valid)
    ensures forall b :: requested == Some(b) <==> valid && Bool(b) in candidates
  {
    if candidates != [] {
      assert candidates[0] in candidates;
    }
  }

  // ----- reported checks and reviews -----

  /** What Python takes for false. */
  predicate Falsy(v: Value) {
    v == Null || v == Bool(false) || v == Int(0) || v == Float(0.0) || v == Str("") || v == List([]) || v == Dict(map[])
  }

  /** The entries of a list, or of another when the first is missing or empty. */
  ghost function Entries(first: Value, second: Value): seq<Value> {
    var v := if Falsy(first) then second else first;
    if v.List? then v.items else []
  }

  /** An entry that reports a check. */
  ghost predicate Reports(entry: Value, c: InputCheck) {
    var raw := AsDict(entry);
    && FirstText([Get(raw, KName), Get(raw, KContext)], Some(c.name))
    && FirstText([Get(raw, KStatus)], c.status)
    && FirstText([Get(raw, KConclusion), Get(raw, KState)], c.conclusion)
  }

  /** An entry that reports a review. */
  ghost predicate Reviewed(entry: Value, r: HumanReview) {
    var raw := AsDict(entry);
    && FirstText([Get(AsDict(Get(raw, KAuthor)), KLogin), Get(raw, KAuthor)], r.author)
    && FirstText([Get(raw, KState)], r.state)
    && FirstText([Get(AsDict(Get(raw, KCommit)), KOid), Get(raw, KCommitOid)], r.commitOid)
  }

  lemma CheckIsReported(entry: Value)
    ensures NormalCheck(entry).Some? ==> Reports(entry, NormalCheck(entry).value)
    ensures NormalCheck(entry).None? ==> FirstText([Get(AsDict(entry), KName), Get(AsDict(entry), KContext)], None)
  {
    var raw := AsDict(entry);
    FirstTextIs([Get(raw, KName), Get(raw, KContext)]);
    OneText(Get(raw, KStatus));
    FirstTextIs([Get(raw, KConclusion), Get(raw, KState)]);
  }

  lemma ReviewIsReported(entry: Value)
    ensures Reviewed(entry, NormalReview(entry))
  {
    var raw := AsDict(entry);
    FirstTextIs([Get(AsDict(Get(raw, KAuthor)), KLogin), Get(raw, KAuthor)]);
    OneText(Get(raw, KState));
    FirstTextIs([Get(AsDict(Get(raw, KCommit)), KOid), Get(raw, KCommitOid)]);
  }

  lemma {:induction false} CheckFrom(items: seq<Value>, c: InputCheck) returns (entry: Value)
    requires c in NormalChecks(items)
    ensures entry in items && NormalCheck(entry) == Some(c)
  {
    if NormalCheck(items[0]) == Some(c) {
      entry := items[0];
    } else {
      entry := CheckFrom(items[1..], c);
    }
  }

  lemma {:induction false} CheckKept(items: seq<Value>, entry: Value, c: InputCheck)
    requires entry in items && NormalCheck(entry) == Some(c)
    ensures c in NormalChecks(items)
  {
    if items[0] != entry {
      CheckKept(items[1..], entry, c);
    }
  }

  lemma {:induction false} ReviewFrom(items: seq<Value>, r: HumanReview) returns (entry: Value)
    requires r in NormalReviews(items)
    ensures entry in items && NormalReview(entry) == r
  {
    if NormalReview(items[0]) == r {
      entry := items[0];
    } else {
      entry := ReviewFrom(items[1..], r);
    }
  }

  lemma EntriesAre(first: Value, second: Value)
    ensures AsList(Or(first, second)) == Entries(first, second)
  {
  }

  lemma SameText(vs: seq<Value>, a: Option<string>, b: Option<string>)
    requires FirstText(vs, a) && FirstText(vs, b)
    ensures a == b
  {
  }

  lemma SameCheck(entry: Value, c: InputCheck)
    requires Reports(entry, c)
    ensures NormalCheck(entry) == Some(c)
  {
    var raw := AsDict(entry);
    CheckIsReported(entry);
    var names, ends := [Get(raw, KName), Get(raw, KContext)], [Get(raw, KConclusion), Get(raw, KState)];
    if NormalCheck(entry).Some? {
      var d := NormalCheck(entry).value;
      SameText(names, Some(c.name), Some(d.name));
      SameText([Get(raw, KStatus)], c.status, d.status);
      SameText(ends, c.conclusion, d.conclusion);
    } else {
      SameText(names, Some(c.name), None);
    }
  }

  /** The checks are those that some entry reports; the reviews are those of the entries, one by one. */
  ghost predicate EntriesRead(root: Object, ctx: Context) {
    var checks := Entries(Get(root, KRequiredChecks), Get(root, KChecks));
    var reviews := Entries(Get(root, KHumanReviews), Get(root, KReviews));
    && (forall c :: c in ctx.requiredChecks <==> ReportedBy(checks, c))
    && |ctx.humanReviews| == |reviews|
    && forall i | 0 <= i < |reviews| :: Reviewed(reviews[i], ctx.humanReviews[i])
  }

  ghost predicate ReportedBy(entries: seq<Value>, c: InputCheck) {
    exists entry :: entry in entries && Reports(entry, c)
  }

  lemma ChecksAreReported(entries: seq<Value>, c: InputCheck)
    ensures c in NormalChecks(entries) <==> ReportedBy(entries, c)
  {
    if c in NormalChecks(entries) {
      var entry := CheckFrom(entries, c);
      CheckIsReported(entry);
    }
    if entry :| entry in entries && Reports(entry, c) {
      SameCheck(entry, c);
      CheckKept(entries, entry, c);
    }
  }

  lemma {:induction false} ReviewAt(entries: seq<Value>, i: nat)
    requires i < |entries|
    ensures NormalReviews(entries)[i] == NormalReview(entries[i])
  {
    if i > 0 {
      var rest, k := entries[1..], i - 1;
      ReviewAt(rest, k);
      assert NormalReviews(entries)[i] == NormalReviews(rest)[k];
    }
  }

  lemma EntriesAreRead(root: Object, status: Value, ctx: Context)
    requires ctx == ExtractContext(Dict(root), status)
    ensures EntriesRead(root, ctx)
  {
    var checks := Entries(Get(root, KRequiredChecks), Get(root, KChecks));
    var reviews := Entries(Get(root, KHumanReviews), Get(root, KReviews));
    EntriesAre(Get(root, KRequiredChecks), Get(root, KChecks));
    EntriesAre(Get(root, KHumanReviews), Get(root, KReviews));
    assert ctx.requiredChecks == NormalChecks(checks) && ctx.humanReviews == NormalReviews(reviews);
    forall c: InputCheck ensures c in NormalChecks(checks) <==> ReportedBy(checks, c) {
      ChecksAreReported(checks, c);
    }
    forall i | 0 <= i < |reviews| ensures Reviewed(reviews[i], NormalReviews(reviews)[i]) {
      ReviewAt(reviews, i);
      ReviewIsReported(reviews[i]);
    }
  }

  // ----- what an allow says about the payload -----

  /** The whole context of a decision is read off payload and status as said above; no other value
      of a place matters. */
  lemma ContextIsRead(root: Object, status: Object, service: Object)
    requires IsService(root, service)
    ensures var ctx := ExtractContext(Dict(root), Dict(status));
      TextsRead(root, service, ctx) && FlagsRead(root, service, ctx) && ListsRead(root, service, ctx)
      && RequestRead(root, service, ctx.autonomousMergeRequested, ctx.autonomousMergeRequestValid) && StatusRead(status, ctx)
      && EntriesRead(root, ctx)
  {
    ServiceIs(root);
    OneService(root, service, ServiceContext(root));
    TextsAreRead(root, Dict(status));
    FlagsAreRead(root, Dict(status));
    ListsAreRead(root, Dict(status));
    RequestIsRead(root, Dict(status), service, ExtractContext(Dict(root), Dict(status)));
    StatusIsRead(Dict(root), status);
    EntriesAreRead(root, Dict(status), ExtractContext(Dict(root), Dict(status)));
  }

  ghost predicate IsOther(entries: seq<Value>, entry: Value, c: InputCheck) {
    entry in entries && Reports(entry, c) && c.name != "ao-release-gate"
  }

  /** An allow needs a payload that is an object with a required check other than the gate's own, and
      every such check that it names is over and has "success" for its conclusion, or for its state
      when it has no conclusion. */
  lemma AllowedChecksSucceeded(w: World, inputs: Inputs)
    requires Allows(w, inputs)
    ensures inputs.payload.Dict?
    ensures var entries := Entries(Get(inputs.payload.fields, KRequiredChecks), Get(inputs.payload.fields, KChecks));
      && (exists entry, c :: IsOther(entries, entry, c))
      && (forall entry, c | IsOther(entries, entry, c) ::
            && (w.lower(c.status.GetOr("")) == "completed" || w.lower(c.status.GetOr("")) == "success")
            && w.lower(c.conclusion.GetOr("")) == "success")
  {
    AllowIffPolicy(w, inputs);
    ChecksAreRead(w, inputs.payload.fields, inputs.gppStatus, ExtractContext(inputs.payload, inputs.gppStatus));
  }

  lemma ChecksAreRead(w: World, root: Object, status: Value, ctx: Context)
    requires ctx == ExtractContext(Dict(root), status) && OtherChecksGreen(w, ctx)
    ensures var entries := Entries(Get(root, KRequiredChecks), Get(root, KChecks));
      && (exists entry, c :: IsOther(entries, entry, c))
      && (forall entry, c | IsOther(entries, entry, c) :: Succeeded(w, c))
  {
    var entries := Entries(Get(root, KRequiredChecks), Get(root, KChecks));
    EntriesAre(Get(root, KRequiredChecks), Get(root, KChecks));
    assert ctx.requiredChecks == NormalChecks(entries);
    var c :| c in ctx.requiredChecks && c.name != "ao-release-gate";
    var entry := CheckFrom(entries, c);
    CheckIsReported(entry);
    assert IsOther(entries, entry, c);
    forall entry, c | IsOther(entries, entry, c) ensures Succeeded(w, c) {
      SameCheck(entry, c);
      CheckKept(entries, entry, c);
    }
  }

  /** A reported review of the commit that approves it and is not the author's. */
  ghost predicate ApprovingEntry(w: World, root: Object, author: string, sha: string) {
    exists entry, r :: entry in Entries(Get(root, KHumanReviews), Get(root, KReviews)) && Reviewed(entry, r)
      && r.author.Some? && w.lower(r.author.value) != w.lower(author)
      && w.upper(r.state.GetOr("")) == "APPROVED" && r.commitOid == Some(sha)
  }

  lemma ReviewsAreRead(w: World, root: Object, status: Value, ctx: Context)
    requires ctx == ExtractContext(Dict(root), status) && ApprovedByAnother(w, ctx)
    ensures ApprovingEntry(w, root, ctx.prAuthor.value, ctx.headSha.value)
  {
    var r :| r in ctx.humanReviews && r.author.Some? && w.lower(r.author.value) != w.lower(ctx.prAuthor.value)
      && r.commitOid == ctx.headSha && w.upper(r.state.GetOr("")) == "APPROVED";
    var entries := Entries(Get(root, KHumanReviews), Get(root, KReviews));
    EntriesAre(Get(root, KHumanReviews), Get(root, KReviews));
    assert ctx.humanReviews == NormalReviews(entries);
    var entry := ReviewFrom(entries, r);
    ReviewIsReported(entry);
  }

  /** Without supersession evidence, an allow of a payload that asks for the review of high-risk paths
      and changes one needs a reported review: approved, of the head commit, by another than the author. */
  lemma AllowedHighRiskWasApproved(w: World, inputs: Inputs, path: string)
    requires Allows(w, inputs) && inputs.supersession.Null?
    requires ExtractContext(inputs.payload, inputs.gppStatus).pathSensitiveHumanReviewEnabled == Some(true)
    requires path in ExtractContext(inputs.payload, inputs.gppStatus).highRiskChangedPaths
    ensures var ctx := ExtractContext(inputs.payload, inputs.gppStatus);
      && inputs.payload.Dict? && ctx.prAuthor.Some? && ctx.headSha.Some?
      && ApprovingEntry(w, inputs.payload.fields, ctx.prAuthor.value, ctx.headSha.value)
  {
    AllowIffPolicy(w, inputs);
    var ctx := ExtractContext(inputs.payload, inputs.gppStatus);
    NeedsApproval(w, inputs, ctx);
    ReviewsAreRead(w, inputs.payload.fields, inputs.gppStatus, ctx);
  }

  lemma NeedsApproval(w: World, inputs: Inputs, ctx: Context)
    requires PolicyFor(w, inputs, ctx) && inputs.supersession.Null?
    requires ctx.pathSensitiveHumanReviewEnabled == Some(true) && ctx.highRiskChangedPaths != []
    ensures inputs.payload.Dict? && ApprovedByAnother(w, ctx)
  {
  }
}
