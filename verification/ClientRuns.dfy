/** Whole runs of a client: any interleaving of registrations, tool calls, LLM calls and resets. */
module ClientRuns {
  import opened ToolPolicy
  import opened GatewayModel
  import Sequences

  datatype Op = RegisterTool(name: string) | CallTool(call: Call) | LlmCall | ResetToolGatewayState

  /** A client, its gateway once there is one, and the handlers run since the last reset. */
  datatype Client = NoGateway | WithGateway(tools: Tools, state: State, history: seq<Invocation>)

  function Step(client: Client, op: Op): Client {
    match (client, op)
    case (NoGateway, RegisterTool(name)) => WithGateway(map[name := ToolSpec(name, true, false)], FRESH, [])
    case (NoGateway, _) => NoGateway
    case (WithGateway(tools, state, history), RegisterTool(name)) =>
      WithGateway(tools[name := ToolSpec(name, true, false)], state, history)
    case (WithGateway(tools, state, history), CallTool(call)) =>
      var ran := RunCall(DEFAULT_POLICY, tools, state, call);
      WithGateway(tools, ran.state, history + ran.log)
    case (WithGateway(tools, _, _), LlmCall) => WithGateway(tools, FRESH, [])
    case (WithGateway(tools, _, _), ResetToolGatewayState) => WithGateway(tools, FRESH, [])
  }

  function Run(client: Client, ops: seq<Op>): Client
    decreases |ops|
  {
    if ops == [] then client else Run(Step(client, ops[0]), ops[1..])
  }

  ghost predicate Accounted(client: Client) {
    client.WithGateway? ==>
      && Tracks(DEFAULT_POLICY, client.state, client.history)
      && |client.history| <= Cap(DEFAULT_POLICY)
      && Bounded(DEFAULT_POLICY, client.history)
      && OwnTools(client.tools)
  }

  /** A client registers tools as allowed and not mutating. */
  ghost predicate OwnTools(tools: Tools) {
    forall name | name in tools :: tools[name] == ToolSpec(name, true, false)
  }

  lemma StepAccounted(client: Client, op: Op)
    requires Accounted(client)
    ensures Accounted(Step(client, op))
  {
    if client.WithGateway? && op.CallTool? {
      RunCallTracks(DEFAULT_POLICY, client.tools, client.state, op.call, client.history);
      RunCallCapped(DEFAULT_POLICY, client.tools, client.state, op.call);
      RunCallNoLongRun(DEFAULT_POLICY, client.tools, client.state, op.call, client.history);
      var log := RunCall(DEFAULT_POLICY, client.tools, client.state, op.call).log;
      assert log == [] ==> client.history + log == client.history;
    }
  }

  /** In every state a client can reach, both counters are the number of handlers run since the
      last reset, that number is within the cap of five, the bounded history is its suffix, and no
      call was executed three times in a row. */
  lemma {:induction false} EveryRunIsAccounted(client: Client, ops: seq<Op>)
    requires Accounted(client)
    ensures Accounted(Run(client, ops))
    decreases |ops|
  {
    if ops != [] {
      StepAccounted(client, ops[0]);
      EveryRunIsAccounted(Step(client, ops[0]), ops[1..]);
    }
  }

  /** A call denied in a run is as if it had not been made. */
  lemma DeniedCallsLeaveNoTrace(client: Client, call: Call, rest: seq<Op>)
    requires client.WithGateway? ==>
               RunCall(DEFAULT_POLICY, client.tools, client.state, call).result.Denied?
    ensures Run(client, [CallTool(call)] + rest) == Run(client, rest)
  {
    assert ([CallTool(call)] + rest)[1..] == rest;
    if client.WithGateway? {
      DeniedChangesNothing(DEFAULT_POLICY, client.tools, client.state, call);
      assert client.history + [] == client.history;
    }
  }

  /** A reset forgets everything but the registered tools: what follows depends on them alone. */
  lemma ResetStartsAfresh(a: Client, b: Client, reset: Op, rest: seq<Op>)
    requires a.WithGateway? && b.WithGateway? && a.tools == b.tools
    requires reset.LlmCall? || reset.ResetToolGatewayState?
    ensures Run(a, [reset] + rest) == Run(b, [reset] + rest)
  {
    assert ([reset] + rest)[1..] == rest;
  }

  // ----- runs of plain calls between registrations -----

  function Names(client: Client): set<string> {
    if client.WithGateway? then client.tools.Keys else {}
  }

  function HistoryOf(client: Client): seq<Invocation> {
    if client.WithGateway? then client.history else []
  }

  /** The calls of a run, in order. */
  function CallsOf(ops: seq<Op>): seq<Call> {
    if ops == [] then []
    else
      var last := ops[|ops| - 1];
      CallsOf(ops[..|ops| - 1]) + if last.CallTool? then [last.call] else []
  }

  /** A tool is there from the start, or has been registered by then. */
  ghost predicate RegisteredBy(names: set<string>, ops: seq<Op>, i: nat, tool: string)
    requires i <= |ops|
  {
    tool in names || exists j :: 0 <= j < i && ops[j] == RegisterTool(tool)
  }

  /** Registrations and calls that do not re-enter the gateway, each call of a tool registered by
      then, and no call the same as the one before it. */
  ghost predicate PlainOps(names: set<string>, ops: seq<Op>) {
    && (forall i | 0 <= i < |ops| :: ops[i].RegisterTool? || ops[i].CallTool?)
    && (forall i | 0 <= i < |ops| && ops[i].CallTool? ::
          ops[i].call.nested == [] && RegisteredBy(names, ops, i, ops[i].call.tool))
    && var calls := CallsOf(ops);
       forall k | 0 < k < |calls| :: !Alike(Made(calls[k - 1]), Made(calls[k]))
  }

  lemma {:induction false} RunSnoc(client: Client, ops: seq<Op>, op: Op)
    ensures Run(client, ops + [op]) == Step(Run(client, ops), op)
    decreases |ops|
  {
    if ops == [] {
      assert ops + [op] == [op] && [op][1..] == [];
    } else {
      assert (ops + [op])[1..] == ops[1..] + [op];
      RunSnoc(Step(client, ops[0]), ops[1..], op);
    }
  }

  lemma PlainInit(names: set<string>, init: seq<Op>, op: Op)
    requires PlainOps(names, init + [op])
    ensures PlainOps(names, init) && (op.RegisterTool? || op.CallTool?)
    ensures op.CallTool? ==> op.call.nested == [] && RegisteredBy(names, init, |init|, op.call.tool)
    ensures op.CallTool? && CallsOf(init) != [] ==>
              !Alike(Made(CallsOf(init)[|CallsOf(init)| - 1]), Made(op.call))
  {
    var ops := init + [op];
    assert ops[..|ops| - 1] == init && ops[|init|] == op;
    assert forall i | 0 <= i < |init| :: ops[i] == init[i];
    var calls, before := CallsOf(ops), CallsOf(init);
    assert forall k | 0 <= k < |before| :: calls[k] == before[k];
    forall i | 0 <= i < |init| && init[i].CallTool? ensures RegisteredBy(names, init, i, init[i].call.tool) {
      assert RegisteredBy(names, ops, i, ops[i].call.tool);
    }
    if op.CallTool? {
      assert RegisteredBy(names, ops, |init|, op.call.tool);
      assert calls[|before|] == op.call;
    }
  }

  /** What has been registered is there. */
  ghost predicate HasRegistered(client: Client, names: set<string>, ops: seq<Op>) {
    forall tool :: RegisteredBy(names, ops, |ops|, tool) ==> client.WithGateway? && tool in client.tools
  }

  lemma StepRegisters(client: Client, names: set<string>, ops: seq<Op>, op: Op)
    requires HasRegistered(client, names, ops) && (op.RegisterTool? || op.CallTool?)
    ensures HasRegistered(Step(client, op), names, ops + [op])
  {
    var longer := ops + [op];
    forall tool | RegisteredBy(names, longer, |longer|, tool)
      ensures Step(client, op).WithGateway? && tool in Step(client, op).tools
    {
      if tool !in names {
        var j :| 0 <= j < |longer| && longer[j] == RegisterTool(tool);
        if j < |ops| {
          assert ops[j] == RegisterTool(tool);
        }
      }
      if !(op == RegisterTool(tool)) {
        assert RegisteredBy(names, ops, |ops|, tool);
      }
    }
  }

  lemma OwnToolIsAuthorised(tools: Tools, tool: string)
    requires OwnTools(tools) && tool in tools
    ensures Permitted(DEFAULT_POLICY, tools, tool)
  {
  }

  /** A client just after a reset, or before it has a gateway. */
  ghost predicate Rested(client: Client) {
    Accounted(client) && HistoryOf(client) == []
  }

  lemma CallsOfMore(init: seq<Op>, op: Op)
    ensures CallsOf(init + [op]) == CallsOf(init) + if op.CallTool? then [op.call] else []
  {
    assert (init + [op])[..|init|] == init;
  }

  /** One more operation on a history of the first calls made. */
  lemma PlainOneMore(before: Client, names: set<string>, init: seq<Op>, op: Op)
    requires Accounted(before) && HasRegistered(before, names, init)
    requires HistoryOf(before) == FirstMade(DEFAULT_POLICY, CallsOf(init))
    requires PlainOps(names, init + [op])
    ensures HistoryOf(Step(before, op)) == FirstMade(DEFAULT_POLICY, CallsOf(init + [op]))
  {
    PlainInit(names, init, op);
    CallsOfMore(init, op);
    if op.CallTool? {
      PlainCallMore(before.tools, before.state, before.history, CallsOf(init), op.call);
    } else {
      Sequences.SumNone(CallsOf(init));
    }
  }

  lemma PlainCallMore(tools: Tools, state: State, history: seq<Invocation>, init: seq<Call>, call: Call)
    requires OwnTools(tools) && call.tool in tools && call.nested == []
    requires init != [] ==> !Alike(Made(init[|init| - 1]), Made(call))
    requires Tracks(DEFAULT_POLICY, state, history) && history == FirstMade(DEFAULT_POLICY, init)
    ensures history + RunCall(DEFAULT_POLICY, tools, state, call).log == FirstMade(DEFAULT_POLICY, init + [call])
  {
    OwnToolIsAuthorised(tools, call.tool);
    PlainStep(DEFAULT_POLICY, tools, init, call, state);
  }

  lemma {:induction false} PlainRun(client: Client, ops: seq<Op>)
    requires Rested(client) && PlainOps(Names(client), ops)
    ensures Accounted(Run(client, ops)) && HasRegistered(Run(client, ops), Names(client), ops)
    ensures HistoryOf(Run(client, ops)) == FirstMade(DEFAULT_POLICY, CallsOf(ops))
    decreases |ops|
  {
    EveryRunIsAccounted(client, ops);
    if ops != [] {
      var init, op := ops[..|ops| - 1], ops[|ops| - 1];
      assert ops == init + [op];
      PlainInit(Names(client), init, op);
      PlainRun(client, init);
      RunSnoc(client, init, op);
      StepRegisters(Run(client, init), Names(client), init, op);
      PlainOneMore(Run(client, init), Names(client), init, op);
    }
  }

  /** From any state a client can be in, after an LLM call or a reset: calls of tools registered by
      then, with registrations between them and no call the same as the one before it, run exactly
      the first five of them, or all if they are fewer. */
  lemma PlainCallsRunToTheCapOfFive(client: Client, reset: Op, ops: seq<Op>)
    requires Accounted(client) && (reset.LlmCall? || reset.ResetToolGatewayState?)
    requires PlainOps(Names(client), ops)
    ensures var calls := CallsOf(ops);
      HistoryOf(Run(client, [reset] + ops)) == AllMade(calls)[..if |calls| <= 5 then |calls| else 5]
  {
    assert ([reset] + ops)[1..] == ops;
    StepAccounted(client, reset);
    PlainRun(Step(client, reset), ops);
    assert Cap(DEFAULT_POLICY) == 5;
  }

  /** The same for tools without a bar in their names, where each call differs from the one before
      in its tool or in its parameters. */
  lemma DifferentCallsRunToTheCapOfFive(client: Client, reset: Op, ops: seq<Op>)
    requires Accounted(client) && (reset.LlmCall? || reset.ResetToolGatewayState?)
    requires forall i | 0 <= i < |ops| :: ops[i].RegisterTool? || ops[i].CallTool?
    requires forall i | 0 <= i < |ops| && ops[i].CallTool? ::
      ops[i].call.nested == [] && RegisteredBy(Names(client), ops, i, ops[i].call.tool)
    requires NamesWithoutBar(CallsOf(ops)) && NoneRepeatsAtOnce(CallsOf(ops))
    ensures var calls := CallsOf(ops);
      HistoryOf(Run(client, [reset] + ops)) == AllMade(calls)[..if |calls| <= 5 then |calls| else 5]
  {
    DifferentAreNotAlike(CallsOf(ops));
    PlainCallsRunToTheCapOfFive(client, reset, ops);
  }
}
