/** The tool gateway and the client that owns one, as the objects they are. A handler is any finite
    program that may call back into the gateway that runs it. */
module ToolGateway {
  import opened ToolPolicy
  import opened GatewayModel
  import Sequences

  class Gateway {
    const policy: ToolCallPolicy
    var tools: Tools
    var callCount: nat
    var requestCallCount: nat
    var recentCalls: seq<string>
    ghost var history: seq<Invocation>  // the handlers run since the last reset

    ghost function Current(): State
      reads this
    {
      State(callCount, requestCallCount, recentCalls)
    }

    ghost predicate Valid()
      reads this
    {
      WithinPolicy(policy, Current(), history)
    }

    constructor (policy: ToolCallPolicy)
      ensures Valid() && this.policy == policy
      ensures tools == map[] && history == [] && Current() == FRESH
    {
      this.policy := policy;
      tools := map[];
      callCount, requestCallCount, recentCalls := 0, 0, [];
      history := [];
    }

    /** Register a tool; an earlier one of that name is overwritten. */
    method Register(spec: ToolSpec)
      requires Valid()
      modifies this`tools
      ensures Valid() && tools == old(tools)[spec.name := spec]
    {
      tools := tools[spec.name := spec];
    }

    method ResetRounds()
      modifies this`callCount, this`requestCallCount, this`recentCalls, this`history
      ensures Valid() && history == [] && Current() == FRESH
    {
      callCount := 0;
      requestCallCount := 0;
      recentCalls := [];
      history := [];
    }

    /** Dispatch a call. Whatever its handler does, the run is the run of some tree of calls with
        this call at its root, and it ends: every nested dispatch starts with more rounds used. */
    method Dispatch(tool: string, input: string) returns (result: CallResult, ghost call: Call)
      requires Valid()
      modifies this`callCount, this`requestCallCount, this`recentCalls, this`history
      ensures Valid()
      ensures call.tool == tool && call.input == input
      ensures RanCall(policy, tools, old(Current()), old(history), call, Current(), history, result)
      decreases policy.maxRounds - callCount, 1, 0
    {
      ghost var before := Current();
      ghost var executed := history;
      call := Call(tool, input, [], false);
      var refused := Authorize(policy, tools, callCount, tool);
      if refused.Some? {
        DeniedRun(policy, tools, before, call, history, refused.value);
        return Denied(refused.value), call;
      }
      if tool !in tools {
        DeniedRun(policy, tools, before, call, history, ToolNotRegistered);
        return Denied(ToolNotRegistered), call;
      }
      if requestCallCount >= policy.maxCallsPerRequest {
        DeniedRun(policy, tools, before, call, history, MaxCallsPerRequest);
        return Denied(MaxCallsPerRequest), call;
      }
      var fingerprint := Fingerprint(tool, input);
      if CycleHit(policy, recentCalls, fingerprint) {
        DeniedRun(policy, tools, before, call, history, CycleDetected);
        return Denied(CycleDetected), call;
      }
      callCount := callCount + 1;
      requestCallCount := requestCallCount + 1;
      recentCalls := LastN(recentCalls + [fingerprint], Window(policy));
      history := history + [Invocation(tool, input)];
      StepKeeps(policy, tools, before, tool, input, executed);
      ghost var admitted := Current();
      var raises;
      ghost var nested;
      raises, nested := RunHandler();
      call := Call(tool, input, nested, raises);
      result := if raises then Error(callCount) else Ok(callCount);
      ExecutedRun(policy, tools, before, call, executed, admitted, RunAll(policy, tools, admitted, nested));
    }

    /** Some handler: it makes any finite number of calls, each chosen in any way, and then
        returns or raises. */
    method RunHandler() returns (raises: bool, ghost nested: seq<Call>)
      requires Valid() && callCount <= policy.maxRounds
      modifies this`callCount, this`requestCallCount, this`recentCalls, this`history
      ensures Valid()
      ensures var ran := RunAll(policy, tools, old(Current()), nested);
        Current() == ran.state && history == old(history) + ran.log
      decreases policy.maxRounds - callCount, 2, 0
    {
      nested := [];
      var remaining: nat := *;
      while remaining > 0
        invariant Valid() && old(callCount) <= callCount <= policy.maxRounds
        invariant var ran := RunAll(policy, tools, old(Current()), nested);
          Current() == ran.state && history == old(history) + ran.log
        decreases remaining
      {
        var tool: string := *;
        var input: string := *;
        var result;
        ghost var call;
        result, call := Dispatch(tool, input);
        RunGrows(policy, tools, old(Current()), nested, call, old(history));
        nested := nested + [call];
        remaining := remaining - 1;
      }
      raises := *;
    }
  }

  /** The counters and the recent calls track the history, which is within the cap and, with cycle
      detection, without a long run of equal calls. */
  ghost predicate WithinPolicy(policy: ToolCallPolicy, st: State, history: seq<Invocation>) {
    && Tracks(policy, st, history)
    && |history| <= Cap(policy)
    && (policy.cycleDetectionEnabled && policy.cycleMaxIdenticalCalls >= 1 ==> Bounded(policy, history))
  }

  /** A call was run: it left this state and history and gave this result, and every tool that ran
      was permitted. */
  ghost predicate RanCall(policy: ToolCallPolicy, tools: Tools, before: State, was: seq<Invocation>, call: Call,
                          after: State, history: seq<Invocation>, result: CallResult) {
    var ran := RunCall(policy, tools, before, call);
    after == ran.state && result == ran.result && history == was + ran.log && AllPermitted(policy, tools, ran.log)
  }

  lemma DeniedRun(policy: ToolCallPolicy, tools: Tools, st: State, c: Call, history: seq<Invocation>, reason: Reason)
    requires var refused := Gate(policy, tools, st, c.tool, c.input); refused.Some? && refused.value == reason
    ensures RanCall(policy, tools, st, history, c, st, history, Denied(reason))
  {
    RunCallPermitted(policy, tools, st, c);
  }

  lemma ExecutedRun(policy: ToolCallPolicy, tools: Tools, st: State, c: Call, history: seq<Invocation>,
                    admitted: State, inner: RanAll)
    requires Gate(policy, tools, st, c.tool, c.input).None?
    requires admitted == Advance(policy, st, Fingerprint(c.tool, c.input))
    requires inner == RunAll(policy, tools, admitted, c.nested)
    ensures RanCall(policy, tools, st, history, c, inner.state, history + [Invocation(c.tool, c.input)] + inner.log,
                    if c.raises then Error(inner.state.callCount) else Ok(inner.state.callCount))
  {
    RunCallPermitted(policy, tools, st, c);
    Sequences.Assoc(history, [Invocation(c.tool, c.input)], inner.log);
  }

  /** A run continued by one more call. */
  lemma RunGrows(policy: ToolCallPolicy, tools: Tools, st: State, done: seq<Call>, call: Call, start: seq<Invocation>)
    requires st.callCount == st.requestCallCount
    ensures var before := RunAll(policy, tools, st, done);
      var last := RunCall(policy, tools, before.state, call);
      var both := RunAll(policy, tools, st, done + [call]);
      both.state == last.state && start + both.log == start + before.log + last.log
      && CountGrows(policy, before.state, last)
  {
    var before := RunAll(policy, tools, st, done);
    var last := RunCall(policy, tools, before.state, call);
    RunAllSnoc(policy, tools, st, done, call);
    assert start + before.log + last.log == start + (before.log + last.log);
    RunAllCapped(policy, tools, st, done);
    CallGrows(policy, tools, before.state, call);
  }

  ghost predicate CountGrows(policy: ToolCallPolicy, st: State, ran: Ran) {
    && st.callCount <= ran.state.callCount
    && (ran.state.callCount > st.callCount ==> ran.state.callCount <= policy.maxRounds)
  }

  lemma CallGrows(policy: ToolCallPolicy, tools: Tools, st: State, call: Call)
    requires st.callCount == st.requestCallCount
    ensures CountGrows(policy, st, RunCall(policy, tools, st, call))
  {
    RunCallCapped(policy, tools, st, call);
  }

  /** Executing one call keeps what every reachable gateway satisfies. */
  lemma StepKeeps(policy: ToolCallPolicy, tools: Tools, st: State, tool: string, input: string, history: seq<Invocation>)
    requires WithinPolicy(policy, st, history) && Gate(policy, tools, st, tool, input).None?
    ensures var i := Invocation(tool, input); WithinPolicy(policy, Advance(policy, st, Print(i)), history + [i])
  {
    TracksNext(policy, st, history, Invocation(tool, input));
    if policy.cycleDetectionEnabled && policy.cycleMaxIdenticalCalls >= 1 {
      BoundedNext(policy, tools, st, tool, input, history);
    }
  }

  /** What a client call returns when no gateway exists yet. */
  datatype ClientResult = NoGateway | Dispatched(result: CallResult)

  class KernelClient {
    var gateway: Gateway?

    ghost predicate Valid()
      reads this, gateway
    {
      gateway != null ==> gateway.policy == DEFAULT_POLICY && gateway.Valid()
    }

    constructor ()
      ensures Valid() && gateway == null
    {
      gateway := null;
    }

    /** The first registration creates the gateway, with the default policy. */
    method RegisterTool(name: string)
      requires Valid()
      modifies this, gateway
      ensures Valid() && gateway != null
      ensures old(gateway) != null ==> gateway == old(gateway)
      ensures old(gateway) == null ==> fresh(gateway)
      ensures gateway.tools == (if old(gateway) == null then map[] else old(gateway.tools))[name := ToolSpec(name, true, false)]
      ensures gateway.history == (if old(gateway) == null then [] else old(gateway.history))
      ensures gateway.Current() == (if old(gateway) == null then FRESH else old(gateway.Current()))
    {
      if gateway == null {
        gateway := new Gateway(DEFAULT_POLICY);
      }
      gateway.Register(ToolSpec(name, true, false));
    }

    method CallTool(name: string, arguments: string) returns (r: ClientResult, ghost call: Call)
      requires Valid()
      modifies gateway
      ensures Valid() && (r.NoGateway? <==> gateway == null)
      ensures gateway != null ==>
        && call.tool == name && call.input == arguments && gateway.tools == old(gateway.tools)
        && var ran := RunCall(DEFAULT_POLICY, gateway.tools, old(gateway.Current()), call);
           gateway.Current() == ran.state && r.result == ran.result && gateway.history == old(gateway.history) + ran.log
    {
      if gateway == null {
        call := Call(name, arguments, [], false);
        return NoGateway, call;
      }
      var result;
      result, call := gateway.Dispatch(name, arguments);
      r := Dispatched(result);
    }

    /** Every LLM call starts by resetting the gateway; the rest of it does not touch the gateway. */
    method LlmCall()
      requires Valid()
      modifies gateway
      ensures Valid()
      ensures gateway != null ==>
        gateway.history == [] && gateway.Current() == FRESH && gateway.tools == old(gateway.tools)
    {
      ResetToolGatewayState();
    }

    /** Reset on request, for calls chained outside an LLM call. */
    method ResetToolGatewayState()
      requires Valid()
      modifies gateway
      ensures Valid()
      ensures gateway != null ==>
        gateway.history == [] && gateway.Current() == FRESH && gateway.tools == old(gateway.tools)
    {
      if gateway != null {
        gateway.ResetRounds();
      }
    }
  }
}
