/** The tool-call policy and its strict parser. */
module ToolPolicy {
  import opened Text
  import opened Json

  datatype Permission = ReadOnly | Mutating

  datatype ToolCallPolicy = ToolCallPolicy(
    enabled: bool,
    maxRounds: int,
    allowUnknown: bool,
    maxCallsPerRequest: int,
    allowedTools: seq<string>,
    blockedTools: seq<string>,
    defaultPermission: Permission,
    mutatingRequiresConfirmation: bool,
    cycleDetectionEnabled: bool,
    cycleMaxIdenticalCalls: int)

  const DEFAULT_POLICY := ToolCallPolicy(true, 10, false, 5, [], [], ReadOnly, true, true, 2)

  /** `d.get(k, default)`: the default stands in for an absent key only. */
  function GetOr(d: Object, k: Key, default: Value): Value {
    if k in d then d[k] else default
  }

  predicate AllStrings(v: Value) {
    v.List? && forall i | 0 <= i < |v.items| :: v.items[i].Str?
  }

  function StringItems(v: Value): (r: seq<string>)
    requires AllStrings(v)
    ensures |r| == |v.items| && forall i | 0 <= i < |r| :: v.items[i] == Str(r[i])
  {
    seq(|v.items|, i requires 0 <= i < |v.items| => v.items[i].s)
  }

  /** Parse a policy; None stands for the ValueError of the first field that is malformed. */
  function FromDict(d: Object): Option<ToolCallPolicy> {
    var enabled := GetOr(d, KEnabled, TRUE);
    var rounds := GetOr(d, KMaxToolRounds, Int(10));
    var unknown := GetOr(d, KAllowUnknown, FALSE);
    var calls := GetOr(d, KMaxToolCallsPerRequest, Int(5));
    var allowed := GetOr(d, KAllowedTools, List([]));
    var blocked := GetOr(d, KBlockedTools, List([]));
    var permissions := GetOr(d, KToolPermissions, Dict(map[]));
    var cycle := GetOr(d, KCycleDetection, Dict(map[]));
    if !enabled.Bool? then None
    else if !rounds.Int? || rounds.n < 1 || rounds.n > 10 then None
    else if !unknown.Bool? then None
    else if !calls.Int? || calls.n < 1 then None
    else if !AllStrings(allowed) then None
    else if !AllStrings(blocked) then None
    else if !permissions.Dict? then None
    else
      var default := GetOr(permissions.fields, KDefault, Str("read_only"));
      var confirm := GetOr(permissions.fields, KMutatingRequiresConfirmation, TRUE);
      if default != Str("read_only") && default != Str("mutating") then None
      else if !confirm.Bool? then None
      else if !cycle.Dict? then None
      else
        var detect := GetOr(cycle.fields, KEnabled, TRUE);
        var identical := GetOr(cycle.fields, KMaxIdenticalCalls, Int(2));
        if !detect.Bool? then None
        else if !identical.Int? || identical.n < 1 then None
        else Some(ToolCallPolicy(
          enabled.b, rounds.n, unknown.b, calls.n, StringItems(allowed), StringItems(blocked),
          if default == Str("read_only") then ReadOnly else Mutating, confirm.b, detect.b, identical.n))
  }

  /** A key is absent, or present with a value of the right shape. */
  ghost predicate Well(d: Object, k: Key, shape: Value -> bool) {
    k in d ==> shape(d[k])
  }

  ghost predicate WellFormed(d: Object) {
    && Well(d, KEnabled, (v: Value) => v.Bool?) && Well(d, KAllowUnknown, (v: Value) => v.Bool?)
    && Well(d, KMaxToolRounds, (v: Value) => v.Int? && 1 <= v.n <= 10)
    && Well(d, KMaxToolCallsPerRequest, (v: Value) => v.Int? && 1 <= v.n)
    && Well(d, KAllowedTools, (v: Value) => AllStrings(v)) && Well(d, KBlockedTools, (v: Value) => AllStrings(v))
    && Well(d, KToolPermissions, (v: Value) => v.Dict?
         && Well(v.fields, KDefault, (x: Value) => x in {Str("read_only"), Str("mutating")})
         && Well(v.fields, KMutatingRequiresConfirmation, (x: Value) => x.Bool?))
    && Well(d, KCycleDetection, (v: Value) => v.Dict?
         && Well(v.fields, KEnabled, (x: Value) => x.Bool?)
         && Well(v.fields, KMaxIdenticalCalls, (x: Value) => x.Int? && 1 <= x.n))
  }

  /** The parser accepts exactly the well-formed policies, and every bound it returns is usable. */
  lemma FromDictMeans(d: Object)
    ensures FromDict(d).Some? <==> WellFormed(d)
    ensures FromDict(d).Some? ==>
              var p := FromDict(d).value;
              1 <= p.maxRounds <= 10 && 1 <= p.maxCallsPerRequest && 1 <= p.cycleMaxIdenticalCalls
    ensures FromDict(map[]) == Some(DEFAULT_POLICY)
  {
  }

  lemma ItemsAreRead(v: Value)
    requires AllStrings(v)
    ensures List(StrValues(StringItems(v))) == v
  {
    assert StrValues(StringItems(v)) == v.items;
  }

  /** A parsed policy says what the document says, field by field, with the defaults for absent keys. */
  lemma FromDictReads(d: Object, p: ToolCallPolicy)
    requires FromDict(d) == Some(p)
    ensures Bool(p.enabled) == GetOr(d, KEnabled, TRUE) && Bool(p.allowUnknown) == GetOr(d, KAllowUnknown, FALSE)
    ensures Int(p.maxRounds) == GetOr(d, KMaxToolRounds, Int(10))
    ensures Int(p.maxCallsPerRequest) == GetOr(d, KMaxToolCallsPerRequest, Int(5))
    ensures List(StrValues(p.allowedTools)) == GetOr(d, KAllowedTools, List([]))
    ensures List(StrValues(p.blockedTools)) == GetOr(d, KBlockedTools, List([]))
    ensures var permissions := AsDict(GetOr(d, KToolPermissions, Dict(map[])));
      && (p.defaultPermission == Mutating <==> GetOr(permissions, KDefault, Str("read_only")) == Str("mutating"))
      && Bool(p.mutatingRequiresConfirmation) == GetOr(permissions, KMutatingRequiresConfirmation, TRUE)
    ensures var cycle := AsDict(GetOr(d, KCycleDetection, Dict(map[])));
      && Bool(p.cycleDetectionEnabled) == GetOr(cycle, KEnabled, TRUE)
      && Int(p.cycleMaxIdenticalCalls) == GetOr(cycle, KMaxIdenticalCalls, Int(2))
  {
    ItemsAreRead(GetOr(d, KAllowedTools, List([])));
    ItemsAreRead(GetOr(d, KBlockedTools, List([])));
  }
}
