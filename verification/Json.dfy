/** Decoded JSON documents as Python sees them, with the accessors the gate reads them through. */
module Json {
  import Sequences
  import opened Text

  /** Object keys. The keys the modelled code reads or writes are constructors, so that distinct
      keys are distinct by construction; every other key is a KOther. */
  datatype Key =
    | KAdminBypassRequested | KAgent | KAiOutputReleaseAuthority | KAllowedPathPrefixes | KAoKernel
    | KAoMa10AutonomousMergeRequested | KAoReleaseGate | KApp | KAuthor | KBase | KBaseRef | KBaseRefName
    | KBranchUpToDate | KBucket | KChangedFilesCount | KChangedPaths | KCheckRuns | KChecks
    | KCodexOrClaudeReleaseAuthority | KCommit | KCommitOid | KConclusion | KConsensusStatus | KContext
    | KContextBinding | KCrossProviderVerified | KCurrentWp | KCycleDetection | KDecision | KDefault
    | KDiffDigest | KEnabled | KEventName | KFindings | KForbiddenSecretContextDetected | KFork | KFreshness
    | KFromFork | KFullName | KGeneratedAt | KGpp2Status | KGuardFlags | KHead | KHeadRef | KHeadRefName
    | KHeadRefOid | KHeadSha | KHighRiskChangedPaths | KHumanReviews | KId | KImplementerProvider
    | KIsCrossRepository | KIsDraft | KIssue | KIssueUrl | KLiveAdapterExecution
    | KLiveAdapterExecutionAllowed | KLiveAdapterExecutionRequested | KLogin | KLowRiskAutonomousMergeRequested
    | KMaxAgeSeconds | KMaxIdenticalCalls | KMaxToolCallsPerRequest | KMaxToolRounds | KMergedAt
    | KMergeStateStatus | KMutatingRequiresConfirmation | KMutationsPerformed | KName | KNumber | KOid
    | KPatBackedBotActor | KPathSensitiveHumanReviewEnabled | KPermission | KPermissions | KPlanningOnly
    | KPrAuthor | KProductionPlatformClaim | KProductionPlatformClaimAllowed | KProvider | KProviderId
    | KProviderVerdicts | KPullRequest | KPullRequestNumber | KRef | KReleaseAuthority | KReleaseGateContext
    | KRepo | KRepository | KRepositoryFullName | KRequiredChecks | KRequiredReviewerProviders
    | KReviewedSlice | KReviewer | KReviewerAgree | KReviewerProviders | KReviews | KRoleName | KRoundIndex
    | KSchemaVersion | KSecretsRecorded | KSha | KState | KStatus | KSupportWidening
    | KSupportWideningAllowed | KToolPermissions | KVerdict | KVerifiedContext | KWorkPackage
    | KChecksConsidered | KArtifactKind | KAgentId | KRole | KRiskClassification | KBindingMode | KFindingsCount
    | KMaxReviseRounds | KEscalationAction | KStartupPreflightPassed | KGppStatusChecked | KScopeAllowed
    | KTestsPassed | KSecretScanPassed | KForbiddenActionsAbsent | KReviewerFindingsCount | KImplementer | KScopeReviewed | KChangedFiles | KAllowUnknown | KAllowedTools | KBlockedTools | KAdmin | KMaintain | KPush | KTriage | KPull
    | KOther(text: string)

  type Object = map<Key, Value>

  datatype Value =
    | Null
    | Bool(b: bool)
    | Int(n: int)
    | Float(r: real)
    | Str(s: string)
    | List(items: seq<Value>)
    | Dict(fields: Object)

  const TRUE := Bool(true)
  const FALSE := Bool(false)

  /** `d.get(k)`: an absent key reads as None. */
  function Get(d: Object, k: Key): Value {
    if k in d then d[k] else Null
  }

  /** `bool(v)`. */
  predicate Truthy(v: Value) {
    match v
    case Null => false
    case Bool(b) => b
    case Int(n) => n != 0
    case Float(r) => r != 0.0
    case Str(s) => s != ""
    case List(items) => items != []
    case Dict(fields) => fields != map[]
  }

  /** `a or b`. */
  function Or(a: Value, b: Value): Value {
    if Truthy(a) then a else b
  }

  /** Values that a Python set can hold; testing any other for membership raises TypeError. */
  predicate Hashable(v: Value) {
    !v.List? && !v.Dict?
  }

  /** A call either has a result or raises. */
  datatype Outcome<+T> = Raised | Done(value: T)

  /** The number a bool, int or float stands for in a Python comparison. */
  function Number(v: Value): Option<real> {
    match v
    case Bool(b) => Some(if b then 1.0 else 0.0)
    case Int(n) => Some(n as real)
    case Float(r) => Some(r)
    case _ => None
  }

  /** `a == b`: structural, except that bools, ints and floats compare as numbers. */
  predicate PyEq(a: Value, b: Value)
    decreases a
  {
    match (a, b)
    case (List(xs), List(ys)) => |xs| == |ys| && forall i | 0 <= i < |xs| :: PyEq(xs[i], ys[i])
    case (Dict(m), Dict(n)) => m.Keys == n.Keys && forall k | k in m :: PyEq(m[k], n[k])
    case _ => a == b || (Number(a).Some? && Number(a) == Number(b))
  }

  function AsDict(v: Value): Object {
    if v.Dict? then v.fields else map[]
  }

  function AsList(v: Value): seq<Value> {
    if v.List? then v.items else []
  }

  /** A non-blank string, trimmed. */
  function StringOf(v: Value): (r: Option<string>)
    ensures r.Some? ==> Clean(r.value)
  {
    if v.Str? && Strip(v.s) != "" then Some(Strip(v.s)) else None
  }

  /** Strings the gate reads as they are: neither blank nor padded. */
  predicate Clean(s: string) {
    s != "" && Trimmed(s)
  }

  lemma StringOfClean(s: string)
    requires Clean(s)
    ensures StringOf(Str(s)) == Some(s)
  {
    StripTrimmed(s);
  }

  function BoolOf(v: Value): Option<bool> {
    if v.Bool? then Some(v.b) else None
  }

  /** `isinstance(v, int)`, which takes a bool for an int. */
  function IntOf(v: Value): Option<int> {
    match v
    case Int(n) => Some(n)
    case Bool(b) => Some(if b then 1 else 0)
    case _ => None
  }

  function FirstString(vs: seq<Value>): Option<string> {
    if vs == [] then None
    else if StringOf(vs[0]).Some? then StringOf(vs[0])
    else FirstString(vs[1..])
  }

  function FirstBool(vs: seq<Value>): Option<bool> {
    if vs == [] then None
    else if BoolOf(vs[0]).Some? then BoolOf(vs[0])
    else FirstBool(vs[1..])
  }

  function FirstInt(vs: seq<Value>): Option<int> {
    if vs == [] then None
    else if IntOf(vs[0]).Some? then IntOf(vs[0])
    else FirstInt(vs[1..])
  }

  /** The trimmed string of a value, if it is a non-blank string. */
  function StringList(v: Value): (r: seq<string>)
    ensures forall i | 0 <= i < |r| :: Clean(r[i])
  {
    match StringOf(v)
    case Some(s) => [s]
    case None => []
  }

  /** The trimmed non-blank strings of a list, in order. */
  function StringsIn(vs: seq<Value>): (r: seq<string>)
    ensures forall i | 0 <= i < |r| :: Clean(r[i])
  {
    if vs == [] then [] else StringsIn(vs[..|vs| - 1]) + StringList(vs[|vs| - 1])
  }

  function Strings(v: Value): seq<string> {
    StringsIn(AsList(v))
  }

  lemma StringsNext(vs: seq<Value>, i: nat)
    requires i < |vs|
    ensures StringsIn(vs[..i + 1]) == StringsIn(vs[..i]) + StringList(vs[i])
  {
    Sequences.TakeNext(vs, i);
  }

  /** The loop that collects the strings of a payload. */
  method CollectStrings(payload: Value) returns (result: seq<string>)
    ensures result == Strings(payload)
  {
    var items := AsList(payload);
    result := [];
    for i := 0 to |items|
      invariant result == StringsIn(items[..i])
    {
      StringsNext(items, i);
      result := result + StringList(items[i]);
    }
    assert items[..|items|] == items;
  }

  function StrValues(ss: seq<string>): (r: seq<Value>)
    ensures |r| == |ss| && forall i | 0 <= i < |ss| :: r[i] == Str(ss[i])
  {
    seq(|ss|, i requires 0 <= i < |ss| => Str(ss[i]))
  }

  lemma CleanIsListed(s: string)
    requires Clean(s)
    ensures StringList(Str(s)) == [s]
  {
    StringOfClean(s);
  }

  lemma CleanNext(ss: seq<string>, vs: seq<Value>, j: nat)
    requires j < |ss| == |vs| && vs[j] == Str(ss[j]) && Clean(ss[j])
    requires StringsIn(vs[..j]) == ss[..j]
    ensures StringsIn(vs[..j + 1]) == ss[..j + 1]
  {
    StringsNext(vs, j);
    CleanIsListed(ss[j]);
    Sequences.TakeNext(ss, j);
  }

  lemma {:induction false} CleanPrefixIsRead(ss: seq<string>, vs: seq<Value>, k: nat)
    requires vs == StrValues(ss) && k <= |ss| && forall i | 0 <= i < |ss| :: Clean(ss[i])
    ensures StringsIn(vs[..k]) == ss[..k]
    decreases k
  {
    if k > 0 {
      CleanPrefixIsRead(ss, vs, k - 1);
      CleanNext(ss, vs, k - 1);
    }
  }

  /** A list of trimmed non-blank strings is read back as it was written. */
  lemma StringsOfStrValues(ss: seq<string>)
    requires forall i | 0 <= i < |ss| :: Clean(ss[i])
    ensures StringsIn(StrValues(ss)) == ss
  {
    CleanPrefixIsRead(ss, StrValues(ss), |ss|);
    assert StrValues(ss)[..|ss|] == StrValues(ss) && ss[..|ss|] == ss;
  }
}
