/** The tool gateway on values: what one call decides, and what a tree of re-entrant calls does. */
module GatewayModel {
  import Sequences
  import opened Text
  import opened ToolPolicy

  datatype ToolSpec = ToolSpec(name: string, allowed: bool, isMutating: bool)

  datatype Reason =
    | PolicyDisabled | ToolNotRegistered | ToolNotAllowed | BlockedByPolicy | NotInAllowlist
    | MutatingRequiresConfirmation | MaxRoundsExceeded | MaxCallsPerRequest | CycleDetected

  datatype CallResult = Denied(reason: Reason) | Ok(roundNumber: nat) | Error(roundNumber: nat)

  datatype State = State(callCount: nat, requestCallCount: nat, recent: seq<string>)

  const FRESH := State(0, 0, [])

  type Tools = map<string, ToolSpec>

  // ----- one call -----

  /** The name of the tool and the dumped parameters: what cycle detection compares. */
  function Fingerprint(tool: string, input: string): string {
    tool + "|" + input
  }

  /** The static checks; None authorises. */
  function Authorize(policy: ToolCallPolicy, tools: Tools, callCount: nat, tool: string): Option<Reason> {
    if !policy.enabled then Some(PolicyDisabled)
    else if tool !in tools && !policy.allowUnknown then Some(ToolNotRegistered)
    else if tool in tools && !tools[tool].allowed then Some(ToolNotAllowed)
    else if tool in policy.blockedTools then Some(BlockedByPolicy)
    else if policy.allowedTools != [] && tool !in policy.allowedTools then Some(NotInAllowlist)
    else if tool in tools && tools[tool].isMutating && policy.defaultPermission == ReadOnly
            && policy.mutatingRequiresConfirmation then Some(MutatingRequiresConfirmation)
    else if callCount >= policy.maxRounds then Some(MaxRoundsExceeded)
    else None
  }

  predicate CycleHit(policy: ToolCallPolicy, recent: seq<string>, fingerprint: string) {
    && policy.cycleDetectionEnabled
    && policy.cycleMaxIdenticalCalls >= 1
    && |recent| == policy.cycleMaxIdenticalCalls
    && forall i | 0 <= i < |recent| :: recent[i] == fingerprint
  }

  /** Every check a dispatch makes before it runs a handler; None lets the handler run. */
  function Gate(policy: ToolCallPolicy, tools: Tools, st: State, tool: string, input: string): Option<Reason> {
    var refused := Authorize(policy, tools, st.callCount, tool);
    if refused.Some? then refused
    else if tool !in tools then Some(ToolNotRegistered)
    else if st.requestCallCount >= policy.maxCallsPerRequest then Some(MaxCallsPerRequest)
    else if CycleHit(policy, st.recent, Fingerprint(tool, input)) then Some(CycleDetected)
    else None
  }

  /** The length of the bounded history. */
  function Window(policy: ToolCallPolicy): (n: nat)
    ensures n >= 1
  {
    if policy.cycleMaxIdenticalCalls >= 1 then policy.cycleMaxIdenticalCalls else 1
  }

  function LastN(s: seq<string>, n: nat): (r: seq<string>)
    ensures |r| == if |s| < n then |s| else n
  {
    if |s| <= n then s else s[|s| - n..]
  }

  /** The counters move and the history grows before the handler runs. */
  function Advance(policy: ToolCallPolicy, st: State, fingerprint: string): State {
    State(st.callCount + 1, st.requestCallCount + 1, LastN(st.recent + [fingerprint], Window(policy)))
  }

  // ----- re-entrant runs -----

  /** One attempted dispatch of a run: the calls its handler would make on the same gateway, in
      order, and whether the handler raises. A handler that does not run makes none of them. */
  datatype Call = Call(tool: string, input: string, nested: seq<Call>, raises: bool)

  /** A handler that ran: the name of its tool and its parameters. */
  datatype Invocation = Invocation(tool: string, input: string)

  function Print(i: Invocation): string {
    Fingerprint(i.tool, i.input)
  }

  function Prints(history: seq<Invocation>): (r: seq<string>)
    ensures |r| == |history| && forall k | 0 <= k < |r| :: r[k] == Print(history[k])
  {
    seq(|history|, k requires 0 <= k < |history| => Print(history[k]))
  }

  lemma PrintsAppend(a: seq<Invocation>, b: seq<Invocation>)
    ensures Prints(a + b) == Prints(a) + Prints(b)
  {
  }

  /** What a run leaves: the state, the result of the call, and what was run, in order. */
  datatype Ran = Ran(state: State, result: CallResult, log: seq<Invocation>)
  datatype RanAll = RanAll(state: State, log: seq<Invocation>)

  function RunCall(policy: ToolCallPolicy, tools: Tools, st: State, c: Call): Ran
    decreases c
  {
    match Gate(policy, tools, st, c.tool, c.input)
    case Some(reason) => Ran(st, Denied(reason), [])
    case None =>
      var fingerprint := Fingerprint(c.tool, c.input);
      var inner := RunAll(policy, tools, Advance(policy, st, fingerprint), c.nested);
      var round := inner.state.callCount;
      Ran(inner.state, if c.raises then Error(round) else Ok(round), [Invocation(c.tool, c.input)] + inner.log)
  }

  function RunAll(policy: ToolCallPolicy, tools: Tools, st: State, calls: seq<Call>): RanAll
    decreases calls
  {
    if calls == [] then RanAll(st, [])
    else
      var first := RunCall(policy, tools, st, calls[0]);
      var rest := RunAll(policy, tools, first.state, calls[1..]);
      RanAll(rest.state, first.log + rest.log)
  }

  lemma {:induction false} RunAllSnoc(policy: ToolCallPolicy, tools: Tools, st: State, calls: seq<Call>, c: Call)
    ensures var before := RunAll(policy, tools, st, calls);
      var last := RunCall(policy, tools, before.state, c);
      RunAll(policy, tools, st, calls + [c]) == RanAll(last.state, before.log + last.log)
    decreases |calls|
  {
    if calls == [] {
      Sequences.SumNone([c]);
      Sequences.HeadOf(c, []);
      RunAllHead(policy, tools, st, c, []);
      Sequences.SumNone(RunCall(policy, tools, st, c).log);
    } else {
      var head, tail := calls[0], calls[1..];
      var first := RunCall(policy, tools, st, head);
      var rest := RunAll(policy, tools, first.state, tail);
      assert calls == [head] + tail;
      Sequences.Assoc([head], tail, [c]);
      RunAllHead(policy, tools, st, head, tail);
      RunAllHead(policy, tools, st, head, tail + [c]);
      RunAllSnoc(policy, tools, first.state, tail, c);
      Sequences.Assoc(first.log, rest.log, RunCall(policy, tools, rest.state, c).log);
    }
  }

  lemma RunAllHead(policy: ToolCallPolicy, tools: Tools, st: State, head: Call, tail: seq<Call>)
    ensures var first := RunCall(policy, tools, st, head);
      var rest := RunAll(policy, tools, first.state, tail);
      RunAll(policy, tools, st, [head] + tail) == RanAll(rest.state, first.log + rest.log)
  {
    Sequences.HeadOf(head, tail);
  }

  // ----- what every run keeps -----

  /** The state is exactly what the executed history since the last reset says: both counters are
      its length and the bounded history is its suffix. */
  ghost predicate Tracks(policy: ToolCallPolicy, st: State, history: seq<Invocation>) {
    && st.callCount == st.requestCallCount == |history|
    && st.recent == LastN(Prints(history), Window(policy))
  }

  /** Running one more handler keeps the state and the history together. */
  lemma TracksNext(policy: ToolCallPolicy, st: State, history: seq<Invocation>, i: Invocation)
    requires Tracks(policy, st, history)
    ensures Tracks(policy, Advance(policy, st, Print(i)), history + [i])
  {
    PrintsAppend(history, [i]);
    assert Prints([i]) == [Print(i)];
    LastNSnoc(Prints(history), Print(i), Window(policy));
  }

  lemma LastNSnoc(s: seq<string>, x: string, n: nat)
    requires n >= 1
    ensures LastN(LastN(s, n) + [x], n) == LastN(s + [x], n)
  {
  }

  lemma {:induction false} RunCallTracks(policy: ToolCallPolicy, tools: Tools, st: State, c: Call, history: seq<Invocation>)
    requires Tracks(policy, st, history)
    ensures var r := RunCall(policy, tools, st, c); Tracks(policy, r.state, history + r.log)
    decreases c
  {
    if Gate(policy, tools, st, c.tool, c.input).Some? {
      assert history + [] == history;
    } else {
      var i := Invocation(c.tool, c.input);
      TracksNext(policy, st, history, i);
      RunAllTracks(policy, tools, Advance(policy, st, Print(i)), c.nested, history + [i]);
      var inner := RunAll(policy, tools, Advance(policy, st, Print(i)), c.nested);
      assert history + [i] + inner.log == history + ([i] + inner.log);
    }
  }

  lemma {:induction false} RunAllTracks(policy: ToolCallPolicy, tools: Tools, st: State, calls: seq<Call>, history: seq<Invocation>)
    requires Tracks(policy, st, history)
    ensures var r := RunAll(policy, tools, st, calls); Tracks(policy, r.state, history + r.log)
    decreases calls
  {
    if calls == [] {
      assert history + [] == history;
    } else {
      var first := RunCall(policy, tools, st, calls[0]);
      RunCallTracks(policy, tools, st, calls[0], history);
      RunAllTracks(policy, tools, first.state, calls[1..], history + first.log);
      var rest := RunAll(policy, tools, first.state, calls[1..]);
      assert history + first.log + rest.log == history + (first.log + rest.log);
    }
  }

  /** How many handlers one request may run. */
  function Cap(policy: ToolCallPolicy): (n: nat)
    ensures n == 0 || (n <= policy.maxRounds && n <= policy.maxCallsPerRequest)
  {
    var m := if policy.maxRounds <= policy.maxCallsPerRequest then policy.maxRounds else policy.maxCallsPerRequest;
    if m < 0 then 0 else m
  }

  lemma {:induction false} RunCallCapped(policy: ToolCallPolicy, tools: Tools, st: State, c: Call)
    requires st.callCount == st.requestCallCount
    ensures var r := RunCall(policy, tools, st, c);
      && r.state.callCount == r.state.requestCallCount == st.callCount + |r.log|
      && (|r.log| > 0 ==> r.state.callCount <= Cap(policy))
    decreases c
  {
    if Gate(policy, tools, st, c.tool, c.input).None? {
      RunAllCapped(policy, tools, Advance(policy, st, Fingerprint(c.tool, c.input)), c.nested);
    }
  }

  /** A whole tree of re-entrant calls, to any depth, runs at most as many handlers as the cap
      leaves: the counters move before a handler runs, so nothing it does can pass them. */
  lemma {:induction false} RunAllCapped(policy: ToolCallPolicy, tools: Tools, st: State, calls: seq<Call>)
    requires st.callCount == st.requestCallCount
    ensures var r := RunAll(policy, tools, st, calls);
      && r.state.callCount == r.state.requestCallCount == st.callCount + |r.log|
      && (|r.log| > 0 ==> r.state.callCount <= Cap(policy))
    decreases calls
  {
    if calls != [] {
      RunCallCapped(policy, tools, st, calls[0]);
      RunAllCapped(policy, tools, RunCall(policy, tools, st, calls[0]).state, calls[1..]);
    }
  }

  /** A denied call leaves the state alone and runs nothing. */
  lemma DeniedChangesNothing(policy: ToolCallPolicy, tools: Tools, st: State, c: Call)
    ensures var r := RunCall(policy, tools, st, c);
      r.result.Denied? <==> Gate(policy, tools, st, c.tool, c.input).Some?
    ensures var r := RunCall(policy, tools, st, c); r.result.Denied? ==> r.state == st && r.log == []
    ensures var r := RunCall(policy, tools, st, c); !r.result.Denied? ==> r.log != [] && r.log[0] == Invocation(c.tool, c.input)
  {
  }

  /** The result of a call that ran: an error exactly when its handler raised, and with the number
      of handlers run by then, those the handler itself called for included. */
  lemma RanResultMeans(policy: ToolCallPolicy, tools: Tools, st: State, c: Call)
    requires st.callCount == st.requestCallCount
    ensures var r := RunCall(policy, tools, st, c);
      !r.result.Denied? ==>
        (r.result.Error? <==> c.raises) && r.result.roundNumber == st.callCount + |r.log|
  {
    RunCallCapped(policy, tools, st, c);
  }

  // ----- authority -----

  /** What the policy asks of a tool before any handler of it runs. */
  ghost predicate Permitted(policy: ToolCallPolicy, tools: Tools, tool: string) {
    && policy.enabled
    && tool in tools && tools[tool].allowed
    && tool !in policy.blockedTools
    && (policy.allowedTools == [] || tool in policy.allowedTools)
    && (tools[tool].isMutating ==> policy.defaultPermission == Mutating || !policy.mutatingRequiresConfirmation)
  }

  /** A call runs exactly when its tool is permitted, both caps leave room, and it closes no cycle. */
  lemma GateMeans(policy: ToolCallPolicy, tools: Tools, st: State, tool: string, input: string)
    ensures Gate(policy, tools, st, tool, input).None? <==>
            && Permitted(policy, tools, tool)
            && st.callCount < policy.maxRounds && st.requestCallCount < policy.maxCallsPerRequest
            && !CycleHit(policy, st.recent, Fingerprint(tool, input))
  {
  }

  /** The grounds on which a call may be refused, each with its reason, in the order in which they
      are looked at. */
  ghost function Grounds(policy: ToolCallPolicy, tools: Tools, st: State, tool: string, cycle: bool): seq<(bool, Reason)> {
    [ (!policy.enabled, PolicyDisabled),
      (tool !in tools && !policy.allowUnknown, ToolNotRegistered),
      (tool in tools && !tools[tool].allowed, ToolNotAllowed),
      (tool in policy.blockedTools, BlockedByPolicy),
      (policy.allowedTools != [] && tool !in policy.allowedTools, NotInAllowlist),
      (tool in tools && tools[tool].isMutating && policy.defaultPermission.ReadOnly?
         && policy.mutatingRequiresConfirmation, MutatingRequiresConfirmation),
      (st.callCount >= policy.maxRounds, MaxRoundsExceeded),
      (tool !in tools, ToolNotRegistered),
      (st.requestCallCount >= policy.maxCallsPerRequest, MaxCallsPerRequest),
      (cycle, CycleDetected) ]
  }

  ghost predicate IsFirstGround(grounds: seq<(bool, Reason)>, k: nat) {
    k < |grounds| && grounds[k].0 && forall j | 0 <= j < k :: !grounds[j].0
  }

  /** A call is refused for the first ground there is. */
  lemma RefusedForTheFirstGround(policy: ToolCallPolicy, tools: Tools, st: State, tool: string, input: string, k: nat)
    requires IsFirstGround(Grounds(policy, tools, st, tool, CycleHit(policy, st.recent, Fingerprint(tool, input))), k)
    ensures Gate(policy, tools, st, tool, input)
         == Some(Grounds(policy, tools, st, tool, CycleHit(policy, st.recent, Fingerprint(tool, input)))[k].1)
  {
    var g := Grounds(policy, tools, st, tool, CycleHit(policy, st.recent, Fingerprint(tool, input)));
    assert k > 0 ==> !g[0].0;
    assert k > 1 ==> !g[1].0;
    assert k > 2 ==> !g[2].0;
    assert k > 3 ==> !g[3].0;
    assert k > 4 ==> !g[4].0;
    assert k > 5 ==> !g[5].0;
    assert k > 6 ==> !g[6].0;
    assert k > 7 ==> !g[7].0;
    assert k > 8 ==> !g[8].0;
  }

  /** Every handler that ran was that of a permitted tool. */
  ghost predicate AllPermitted(policy: ToolCallPolicy, tools: Tools, log: seq<Invocation>) {
    forall k | 0 <= k < |log| :: Permitted(policy, tools, log[k].tool)
  }

  lemma {:induction false} RunCallPermitted(policy: ToolCallPolicy, tools: Tools, st: State, c: Call)
    ensures AllPermitted(policy, tools, RunCall(policy, tools, st, c).log)
    decreases c
  {
    GateMeans(policy, tools, st, c.tool, c.input);
    if Gate(policy, tools, st, c.tool, c.input).None? {
      RunAllPermitted(policy, tools, Advance(policy, st, Fingerprint(c.tool, c.input)), c.nested);
    }
  }

  /** Whatever is attempted, at any depth, only permitted tools ever run. */
  lemma {:induction false} RunAllPermitted(policy: ToolCallPolicy, tools: Tools, st: State, calls: seq<Call>)
    ensures AllPermitted(policy, tools, RunAll(policy, tools, st, calls).log)
    decreases calls
  {
    if calls != [] {
      RunCallPermitted(policy, tools, st, calls[0]);
      RunAllPermitted(policy, tools, RunCall(policy, tools, st, calls[0]).state, calls[1..]);
    }
  }

  // ----- cycles -----

  /** Two calls that cycle detection takes for one: the same text of tool, bar and parameters. */
  ghost predicate Alike(i: Invocation, j: Invocation) {
    i.tool + "|" + i.input == j.tool + "|" + j.input
  }

  lemma PrintMeans(i: Invocation, j: Invocation)
    ensures Print(i) == Print(j) <==> Alike(i, j)
  {
  }

  predicate NoBar(tool: string) {
    forall k | 0 <= k < |tool| :: tool[k] != '|'
  }

  lemma FirstBar(tool: string, input: string, n: nat)
    requires NoBar(tool) && n <= |tool| + |input|
    ensures (tool + "|" + input)[n] == '|' && (forall k | 0 <= k < n :: (tool + "|" + input)[k] != '|') <==> n == |tool|
  {
    var t := tool + "|" + input;
    assert t[|tool|] == '|' && forall k | 0 <= k < |tool| :: t[k] == tool[k];
  }

  /** Calls of one tool, and calls of tools without a bar in their names, are taken for one exactly
      when they are one: their tools and their parameters are the same. */
  lemma AlikeIsSame(i: Invocation, j: Invocation)
    requires i.tool == j.tool || (NoBar(i.tool) && NoBar(j.tool))
    ensures Alike(i, j) <==> i == j
  {
    var s, t := i.tool + "|" + i.input, j.tool + "|" + j.input;
    if Alike(i, j) && i.tool != j.tool {
      FirstBar(i.tool, i.input, |i.tool|);
      FirstBar(j.tool, j.input, |i.tool|);
    }
    assert s[..|i.tool|] == i.tool && t[..|j.tool|] == j.tool;
    assert s[|i.tool| + 1..] == i.input && t[|j.tool| + 1..] == j.input;
  }

  /** The last `n` executed calls are all taken for this one. */
  ghost predicate EndsInRun(history: seq<Invocation>, n: nat, i: Invocation) {
    n <= |history| && forall k | |history| - n <= k < |history| :: Alike(history[k], i)
  }

  /** The last `n` executed calls are all this very call. */
  ghost predicate EndsInSame(history: seq<Invocation>, n: nat, i: Invocation) {
    n <= |history| && forall k | |history| - n <= k < |history| :: history[k] == i
  }

  /** Past the earlier gates, a call is denied for a cycle exactly when detection is on and the
      last N executed calls all have the text of this one. */
  lemma CycleDeniedIff(policy: ToolCallPolicy, tools: Tools, st: State, tool: string, input: string, history: seq<Invocation>)
    requires Tracks(policy, st, history)
    requires Permitted(policy, tools, tool)
    requires st.callCount < policy.maxRounds && st.requestCallCount < policy.maxCallsPerRequest
    ensures Gate(policy, tools, st, tool, input) == Some(CycleDetected) <==>
            && policy.cycleDetectionEnabled && policy.cycleMaxIdenticalCalls >= 1
            && EndsInRun(history, policy.cycleMaxIdenticalCalls, Invocation(tool, input))
  {
    var n, i := policy.cycleMaxIdenticalCalls, Invocation(tool, input);
    forall k | 0 <= k < |history| ensures Prints(history)[k] == Print(i) <==> Alike(history[k], i) {
      PrintMeans(history[k], i);
    }
    if n >= 1 {
      LastAre(Prints(history), n, Print(i));
    }
  }

  lemma LastAre(s: seq<string>, n: nat, x: string)
    requires n >= 1
    ensures |LastN(s, n)| == n && (forall k | 0 <= k < n :: LastN(s, n)[k] == x) <==>
            n <= |s| && forall k | |s| - n <= k < |s| :: s[k] == x
  {
    if |s| >= n {
      assert forall k | 0 <= k < n :: LastN(s, n)[k] == s[|s| - n + k];
      assert forall k | |s| - n <= k < |s| :: s[k] == LastN(s, n)[k - (|s| - n)];
    }
  }

  ghost predicate NoBars(history: seq<Invocation>) {
    forall k | 0 <= k < |history| :: NoBar(history[k].tool)
  }

  /** For tools without a bar in their names these are exactly the same calls: a third call with
      other parameters, or of another tool, closes no cycle. */
  lemma CycleDeniedIffRepeated(policy: ToolCallPolicy, tools: Tools, st: State, tool: string, input: string,
                               history: seq<Invocation>)
    requires Tracks(policy, st, history) && NoBar(tool) && NoBars(history)
    requires Permitted(policy, tools, tool)
    requires st.callCount < policy.maxRounds && st.requestCallCount < policy.maxCallsPerRequest
    ensures Gate(policy, tools, st, tool, input) == Some(CycleDetected) <==>
            && policy.cycleDetectionEnabled && policy.cycleMaxIdenticalCalls >= 1
            && EndsInSame(history, policy.cycleMaxIdenticalCalls, Invocation(tool, input))
  {
    CycleDeniedIff(policy, tools, st, tool, input, history);
    forall k | 0 <= k < |history| ensures Alike(history[k], Invocation(tool, input)) <==> history[k] == Invocation(tool, input) {
      AlikeIsSame(history[k], Invocation(tool, input));
    }
  }

  /** No `n + 1` consecutive calls are taken for one. */
  ghost predicate NoLongRun(history: seq<Invocation>, n: nat) {
    forall k | n < k <= |history| :: !EndsInRun(history[..k], n + 1, history[k - 1])
  }

  lemma NoLongRunSnoc(history: seq<Invocation>, n: nat, x: Invocation)
    requires NoLongRun(history, n) && !EndsInRun(history, n, x)
    ensures NoLongRun(history + [x], n)
  {
    var longer := history + [x];
    forall k | n < k <= |longer| ensures !EndsInRun(longer[..k], n + 1, longer[k - 1]) {
      if k <= |history| {
        assert longer[..k] == history[..k];
      } else {
        assert longer[..k] == longer;
        if n <= |history| {
          var i :| |history| - n <= i < |history| && !Alike(history[i], x);
          assert longer[i] == history[i];
        }
      }
    }
  }

  /** No call of the history was executed more than N times in a row. */
  ghost predicate Bounded(policy: ToolCallPolicy, history: seq<Invocation>) {
    NoLongRun(history, Window(policy))
  }

  lemma BoundedNext(policy: ToolCallPolicy, tools: Tools, st: State, tool: string, input: string, history: seq<Invocation>)
    requires Tracks(policy, st, history) && policy.cycleDetectionEnabled && policy.cycleMaxIdenticalCalls >= 1
    requires Bounded(policy, history) && Gate(policy, tools, st, tool, input).None?
    ensures Bounded(policy, history + [Invocation(tool, input)])
  {
    var i := Invocation(tool, input);
    CycleDeniedIff(policy, tools, st, tool, input, history);
    NoLongRunSnoc(history, policy.cycleMaxIdenticalCalls, i);
  }

  lemma {:induction false} RunCallNoLongRun(policy: ToolCallPolicy, tools: Tools, st: State, c: Call, history: seq<Invocation>)
    requires Tracks(policy, st, history) && policy.cycleDetectionEnabled && policy.cycleMaxIdenticalCalls >= 1
    requires Bounded(policy, history)
    ensures Bounded(policy, history + RunCall(policy, tools, st, c).log)
    decreases c
  {
    if Gate(policy, tools, st, c.tool, c.input).Some? {
      assert history + [] == history;
    } else {
      var i := Invocation(c.tool, c.input);
      BoundedNext(policy, tools, st, c.tool, c.input, history);
      TracksNext(policy, st, history, i);
      RunAllNoLongRun(policy, tools, Advance(policy, st, Print(i)), c.nested, history + [i]);
      var inner := RunAll(policy, tools, Advance(policy, st, Print(i)), c.nested);
      assert history + [i] + inner.log == history + ([i] + inner.log);
    }
  }

  /** With detection on, no run ever executes the same call more than N times in a row, however its
      handlers re-enter the gateway. */
  lemma {:induction false} RunAllNoLongRun(policy: ToolCallPolicy, tools: Tools, st: State, calls: seq<Call>, history: seq<Invocation>)
    requires Tracks(policy, st, history) && policy.cycleDetectionEnabled && policy.cycleMaxIdenticalCalls >= 1
    requires Bounded(policy, history)
    ensures Bounded(policy, history + RunAll(policy, tools, st, calls).log)
    decreases calls
  {
    if calls == [] {
      assert history + [] == history;
    } else {
      var first := RunCall(policy, tools, st, calls[0]);
      RunCallNoLongRun(policy, tools, st, calls[0], history);
      RunCallTracks(policy, tools, st, calls[0], history);
      RunAllNoLongRun(policy, tools, first.state, calls[1..], history + first.log);
      var rest := RunAll(policy, tools, first.state, calls[1..]);
      assert history + first.log + rest.log == history + (first.log + rest.log);
    }
  }

  // ----- runs of plain calls -----

  ghost predicate PlainCalls(policy: ToolCallPolicy, tools: Tools, calls: seq<Call>) {
    && (forall i | 0 <= i < |calls| :: calls[i].nested == [] && Permitted(policy, tools, calls[i].tool))
    && (forall i | 0 < i < |calls| :: !Alike(Made(calls[i - 1]), Made(calls[i])))
  }

  function Made(c: Call): Invocation {
    Invocation(c.tool, c.input)
  }

  function AllMade(calls: seq<Call>): (r: seq<Invocation>)
    ensures |r| == |calls| && forall i | 0 <= i < |r| :: r[i] == Made(calls[i])
  {
    seq(|calls|, i requires 0 <= i < |calls| => Made(calls[i]))
  }

  lemma AuthorizeAtCount(policy: ToolCallPolicy, tools: Tools, tool: string, count: nat)
    requires Permitted(policy, tools, tool)
    ensures Authorize(policy, tools, count, tool) == if count >= policy.maxRounds then Some(MaxRoundsExceeded) else None
  {
  }

  /** A call whose neighbour in the history differs runs exactly while the cap is not reached. */
  lemma PlainCallRuns(policy: ToolCallPolicy, tools: Tools, st: State, c: Call, history: seq<Invocation>)
    requires Tracks(policy, st, history) && c.nested == [] && Permitted(policy, tools, c.tool)
    requires history != [] ==> !Alike(history[|history| - 1], Made(c))
    ensures RunCall(policy, tools, st, c).log == if |history| < Cap(policy) then [Made(c)] else []
  {
    AuthorizeAtCount(policy, tools, c.tool, st.callCount);
    if st.recent != [] {
      assert st.recent[|st.recent| - 1] == Prints(history)[|history| - 1];
      PrintMeans(history[|history| - 1], Made(c));
    }
  }

  function Upto(n: nat, cap: nat): nat {
    if n <= cap then n else cap
  }

  /** The first calls of a list, as many as the cap lets run. */
  function FirstMade(policy: ToolCallPolicy, calls: seq<Call>): seq<Invocation> {
    AllMade(calls)[..Upto(|calls|, Cap(policy))]
  }

  lemma FirstMadeNext(policy: ToolCallPolicy, init: seq<Call>, c: Call)
    ensures FirstMade(policy, init + [c])
         == FirstMade(policy, init) + if |init| < Cap(policy) then [Made(c)] else []
    ensures |FirstMade(policy, init)| == Upto(|init|, Cap(policy))
  {
    assert AllMade(init + [c]) == AllMade(init) + [Made(c)];
  }

  lemma LastMade(policy: ToolCallPolicy, init: seq<Call>)
    requires init != [] && |init| <= Cap(policy)
    ensures FirstMade(policy, init) != []
    ensures FirstMade(policy, init)[|FirstMade(policy, init)| - 1] == Made(init[|init| - 1])
  {
  }

  /** One more call on a history of the first calls made leaves the first calls made. */
  lemma PlainStep(policy: ToolCallPolicy, tools: Tools, init: seq<Call>, c: Call, st: State)
    requires c.nested == [] && Permitted(policy, tools, c.tool)
    requires init != [] ==> !Alike(Made(init[|init| - 1]), Made(c))
    requires Tracks(policy, st, FirstMade(policy, init))
    ensures FirstMade(policy, init) + RunCall(policy, tools, st, c).log == FirstMade(policy, init + [c])
  {
    var history := FirstMade(policy, init);
    FirstMadeNext(policy, init, c);
    if |init| <= Cap(policy) {
      if init != [] {
        LastMade(policy, init);
      }
      PlainCallRuns(policy, tools, st, c, history);
    } else {
      FullStaysFull(policy, tools, st, c);
    }
  }

  lemma PlainPrefix(policy: ToolCallPolicy, tools: Tools, init: seq<Call>, c: Call)
    requires PlainCalls(policy, tools, init + [c])
    ensures PlainCalls(policy, tools, init) && c.nested == [] && Permitted(policy, tools, c.tool)
    ensures init != [] ==> !Alike(Made(init[|init| - 1]), Made(c))
  {
    var calls := init + [c];
    assert forall i | 0 <= i < |init| :: calls[i] == init[i];
    assert calls[|init|] == c;
  }

  /** From a fresh state, k authorised calls without a repeated neighbour run exactly the first
      min(k, max rounds, max calls per request) of them. */
  lemma {:induction false} PlainCallsRunToTheCap(policy: ToolCallPolicy, tools: Tools, calls: seq<Call>)
    requires PlainCalls(policy, tools, calls)
    ensures RunAll(policy, tools, FRESH, calls).log == FirstMade(policy, calls)
    decreases |calls|
  {
    if calls != [] {
      var init, c := calls[..|calls| - 1], calls[|calls| - 1];
      assert calls == init + [c];
      PlainPrefix(policy, tools, init, c);
      PlainCallsRunToTheCap(policy, tools, init);
      RunAllSnoc(policy, tools, FRESH, init, c);
      RunAllTracks(policy, tools, FRESH, init, []);
      var before := RunAll(policy, tools, FRESH, init);
      assert [] + before.log == before.log;
      PlainStep(policy, tools, init, c, before.state);
    }
  }

  ghost predicate NamesWithoutBar(calls: seq<Call>) {
    forall i | 0 <= i < |calls| :: NoBar(calls[i].tool)
  }

  ghost predicate NoneRepeatsAtOnce(calls: seq<Call>) {
    forall i | 0 < i < |calls| :: Made(calls[i - 1]) != Made(calls[i])
  }

  lemma DifferentAreNotAlike(calls: seq<Call>)
    requires NamesWithoutBar(calls) && NoneRepeatsAtOnce(calls)
    ensures forall i | 0 < i < |calls| :: !Alike(Made(calls[i - 1]), Made(calls[i]))
  {
    forall i | 0 < i < |calls| ensures !Alike(Made(calls[i - 1]), Made(calls[i])) {
      AlikeIsSame(Made(calls[i - 1]), Made(calls[i]));
    }
  }

  /** So do calls of tools without a bar in their names that differ from the call before in the tool
      or in the parameters. */
  lemma DifferentCallsRunToTheCap(policy: ToolCallPolicy, tools: Tools, calls: seq<Call>)
    requires NamesWithoutBar(calls) && NoneRepeatsAtOnce(calls)
    requires forall i | 0 <= i < |calls| :: calls[i].nested == [] && Permitted(policy, tools, calls[i].tool)
    ensures RunAll(policy, tools, FRESH, calls).log == FirstMade(policy, calls)
  {
    DifferentAreNotAlike(calls);
    PlainCallsRunToTheCap(policy, tools, calls);
  }

  lemma FullStaysFull(policy: ToolCallPolicy, tools: Tools, st: State, c: Call)
    requires st.callCount == st.requestCallCount >= Cap(policy)
    ensures RunCall(policy, tools, st, c).log == []
  {
  }

  /** Any policy the parser accepts lets the first authorised call of a request run. */
  lemma FirstCallRuns(policy: ToolCallPolicy, tools: Tools, c: Call)
    requires exists d :: FromDict(d) == Some(policy)
    requires Permitted(policy, tools, c.tool)
    ensures !RunCall(policy, tools, FRESH, c).result.Denied?
  {
    var d :| FromDict(d) == Some(policy);
    FromDictMeans(d);
    AuthorizeAtCount(policy, tools, c.tool, 0);
  }
}
