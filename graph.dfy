/** The conversation graph built by `buildGraph`: its nodes, the router that
    follows the assistant, the fixed edges, the pause before the sensitive
    tool node, and how one invocation of the compiled graph runs from a node
    until it reaches `END`, pauses, or fails.  The model, the tools and the id
    generator of the history merge are parameters (`Env`). */
module Graph {
  import opened Base
  import opened State
  import Registry
  import Utils
  import Nodes

  datatype Node = Start | FetchUserInfo | Assistant | SafeTools | SensitiveTools | End

  // ---------------------------------------------------------------------------
  // Routing and the transition table

  /** The destinations declared for the router. */
  const RouteDestinations: set<Node> := {SafeTools, SensitiveTools, End}

  /** `route_tools`: `END` when the last message proposes no tool call (the
      prebuilt tool condition, which raises on an empty history); otherwise
      only the first proposed call decides: the sensitive tool node when its
      name is a sensitive tool's, the safe tool node for any other name. */
  function RouteTools(st: ReservState): (r: Result<Node, Exception>)
    ensures r.Failure? <==> st.messages == []
    ensures r.Success? ==> r.value in RouteDestinations
    ensures r == Success(End) <==> st.messages != [] && ToolCallsOf(Utils.Last(st.messages)) == []
    ensures r == Success(SensitiveTools) <==>
      st.messages != [] && ToolCallsOf(Utils.Last(st.messages)) != []
      && ToolCallsOf(Utils.Last(st.messages))[0].name in Registry.SensitiveToolNames
    ensures r == Success(SafeTools) <==>
      st.messages != [] && ToolCallsOf(Utils.Last(st.messages)) != []
      && ToolCallsOf(Utils.Last(st.messages))[0].name !in Registry.SensitiveToolNames
  {
    if st.messages == [] then
      Failure(Exception("ValueError", "No messages found in input state to tool_edge"))
    else
      var aiMessage := Utils.Last(st.messages);
      if ToolCallsOf(aiMessage) == [] then Success(End)
      else
        var firstToolCall := aiMessage.toolCalls[0];
        if firstToolCall.name in Registry.SensitiveToolNames then Success(SensitiveTools)
        else Success(SafeTools)
  }

  /** Only the first tool call is routed: two histories whose last messages
      propose a first call of the same name go to the same node, whatever the
      other calls are. */
  lemma OnlyFirstCallRouted(st1: ReservState, st2: ReservState)
    requires st1.messages != [] && st2.messages != []
    requires ToolCallsOf(Utils.Last(st1.messages)) != [] && ToolCallsOf(Utils.Last(st2.messages)) != []
    requires ToolCallsOf(Utils.Last(st1.messages))[0].name == ToolCallsOf(Utils.Last(st2.messages))[0].name
    ensures RouteTools(st1) == RouteTools(st2)
  {
  }

  /** A first call naming a registered tool goes to the node of that tool's
      classification. */
  lemma RouteFollowsRegistry(st: ReservState, t: Registry.Tool)
    requires st.messages != [] && ToolCallsOf(Utils.Last(st.messages)) != []
    requires ToolCallsOf(Utils.Last(st.messages))[0].name == t.name && t in Registry.Tools
    ensures RouteTools(st) == Success(if t in Registry.SensitiveTools then SensitiveTools else SafeTools)
  {
    Registry.ClassificationIsPartition();
  }

  /** The unconditional edges. */
  const FixedEdges: map<Node, Node> :=
    map[Start := FetchUserInfo, FetchUserInfo := Assistant, SafeTools := Assistant, SensitiveTools := Assistant]

  /** Execution pauses before these nodes. */
  const InterruptBefore: set<Node> := {SensitiveTools}

  /** The node that runs after `at`, given the state `at` left: it follows
      the fixed edge where there is one and asks the router otherwise, so
      `END` and the sensitive tool node are reached only through the router,
      after the assistant, and nothing leads back to `START`. */
  function Successor(at: Node, st: ReservState): (r: Result<Node, Exception>)
    requires at != End
    ensures at in FixedEdges ==> r == Success(FixedEdges[at])
    ensures at !in FixedEdges ==> r == RouteTools(st)
    ensures r.Success? && (r.value == End || r.value == SensitiveTools) ==> at == Assistant
    ensures r.Success? ==> r.value != Start
  {
    if at == Assistant then RouteTools(st)
    else
      assert at in FixedEdges.Keys by { TransitionTable(); }
      if at == Start then Success(FetchUserInfo) else Success(Assistant)
  }

  /** The transition table: both tool nodes return to the assistant, the
      assistant is the only node with a conditional edge, and no fixed edge
      leads to `END` or to the sensitive tool node. */
  lemma TransitionTable()
    ensures FixedEdges.Keys == {Start, FetchUserInfo, SafeTools, SensitiveTools}
    ensures FixedEdges[Start] == FetchUserInfo && FixedEdges[FetchUserInfo] == Assistant
    ensures FixedEdges[SafeTools] == Assistant && FixedEdges[SensitiveTools] == Assistant
    ensures forall n :: n != End && n !in FixedEdges ==> n == Assistant
    ensures End !in FixedEdges.Values && SensitiveTools !in FixedEdges.Values
  {
  }

  // ---------------------------------------------------------------------------
  // Tool nodes

  /** What a tool invocation does: return content, or raise. */
  datatype ToolOutcome = Returned(content: string) | Raised(error: Exception)

  /** The collaborators a run needs: the assistant's model, the tools' remote
      effects, and the fresh ids the history merge assigns. */
  datatype Env = Env(llm: ReservState -> AIReply, tool: ToolCall -> ToolOutcome, mint: nat -> string)

  /** A node's effect: its update or failure, and the tool calls it invoked. */
  datatype NodeStep = NodeStep(update: Result<Update, Fault>, executed: seq<ToolCall>)

  function JoinNames(ts: seq<Registry.Tool>): string
  {
    if ts == [] then "" else if |ts| == 1 then ts[0].name else ts[0].name + ", " + JoinNames(ts[1..])
  }

  /** The result of one call in a tool node: a call naming a tool the node
      does not hold is answered with an error, not run. */
  function CallOutcome(c: ToolCall, registered: seq<Registry.Tool>, tool: ToolCall -> ToolOutcome): ToolOutcome
  {
    if c.name in Registry.Names(registered) then tool(c)
    else Returned("Error: " + c.name + " is not a valid tool, try one of [" + JoinNames(registered) + "].")
  }

  /** `r` is `calls` with some elements dropped and the rest kept in order. */
  predicate Subsequence(r: seq<ToolCall>, calls: seq<ToolCall>)
    decreases |calls|
  {
    || r == []
    || (calls != [] && ((r[0] == calls[0] && Subsequence(r[1..], calls[1..])) || Subsequence(r, calls[1..])))
  }

  /** The calls a tool node actually invokes: exactly those naming one of its
      tools, in the order they were proposed. */
  function Invoked(calls: seq<ToolCall>, names: set<string>): (r: seq<ToolCall>)
    ensures forall c :: c in r <==> c in calls && c.name in names
    ensures Subsequence(r, calls)
  {
    if calls == [] then []
    else if calls[0].name in names then [calls[0]] + Invoked(calls[1..], names)
    else Invoked(calls[1..], names)
  }

  /** The answers of a tool node to `calls`, in order: one tool message per
      call, carrying the call's id and what the call returned; or the first
      error raised in call order. */
  function AnswerCalls(calls: seq<ToolCall>, registered: seq<Registry.Tool>, tool: ToolCall -> ToolOutcome)
    : (r: Result<seq<Message>, Exception>)
    ensures r.Success? <==> forall i :: 0 <= i < |calls| ==> CallOutcome(calls[i], registered, tool).Returned?
    ensures r.Success? ==> |r.value| == |calls|
    ensures r.Success? ==> forall i :: 0 <= i < |calls| ==>
      r.value[i] == ToolMessage(None, CallOutcome(calls[i], registered, tool).content, calls[i].id)
    ensures r.Failure? ==> exists i :: 0 <= i < |calls| && FirstRaise(calls, registered, tool, i)
                                      && r.error == CallOutcome(calls[i], registered, tool).error
  {
    if calls == [] then Success([])
    else
      match CallOutcome(calls[0], registered, tool)
      case Raised(e) => assert FirstRaise(calls, registered, tool, 0); Failure(e)
      case Returned(content) =>
        match AnswerCalls(calls[1..], registered, tool)
        case Failure(e) =>
          var i :| 0 <= i < |calls[1..]| && FirstRaise(calls[1..], registered, tool, i)
                   && e == CallOutcome(calls[1..][i], registered, tool).error;
          assert FirstRaise(calls, registered, tool, i + 1);
          Failure(e)
        case Success(rest) => Success([ToolMessage(None, content, calls[0].id)] + rest)
  }

  /** Call `i` is the first of `calls` that raises. */
  predicate FirstRaise(calls: seq<ToolCall>, registered: seq<Registry.Tool>, tool: ToolCall -> ToolOutcome, i: int)
    requires 0 <= i < |calls|
  {
    && CallOutcome(calls[i], registered, tool).Raised?
    && forall j :: 0 <= j < i ==> CallOutcome(calls[j], registered, tool).Returned?
  }

  /** A tool node with `handle_tool_error` as its fallback: the fallback's
      result replaces the node's; if the fallback raises too, the node's own
      error is the one raised. */
  function Fallback(error: Exception, st: ReservState): (r: Result<Update, Fault>)
    ensures r.Failure? ==> r.error == Raise(error)
    ensures r.Success? <==> Utils.HandleToolError(Some(error), st).Success?
  {
    match Utils.HandleToolError(Some(error), st)
    case Success(u) => Success(u)
    case Failure(_) => Failure(Raise(error))
  }

  /** A tool node holding `registered`, with the error fallback attached: it
      invokes every call of the last AI message naming one of its tools, in
      order, and answers every call; if any invoked tool raises, the
      fallback's error results for all calls replace the answers. */
  function ToolNodeStep(registered: seq<Registry.Tool>, st: ReservState, tool: ToolCall -> ToolOutcome): (s: NodeStep)
    ensures forall c :: c in s.executed <==>
      c.name in Registry.Names(registered) && st.messages != [] && c in ToolCallsOf(Utils.Last(st.messages))
    ensures st.messages != [] ==> Subsequence(s.executed, ToolCallsOf(Utils.Last(st.messages)))
    ensures s.update.Failure? <==> st.messages == [] || !Utils.Last(st.messages).AIMessage?
  {
    if st.messages == [] || !Utils.Last(st.messages).AIMessage? then
      NodeStep(Fallback(Exception("ValueError", "No AIMessage found in input"), st), [])
    else
      var calls := Utils.Last(st.messages).toolCalls;
      var executed := Invoked(calls, Registry.Names(registered));
      match AnswerCalls(calls, registered, tool)
      case Failure(e) => NodeStep(Fallback(e, st), executed)
      case Success(answers) => NodeStep(Success(Update(Some(answers), None)), executed)
  }

  /** What a tool node answers on an AI message: one message per call, in
      order, carrying the call's id; the calls' own results when none raises,
      and otherwise the fallback's error results naming the first error
      raised. */
  lemma ToolNodeAnswers(registered: seq<Registry.Tool>, st: ReservState, tool: ToolCall -> ToolOutcome)
    requires st.messages != [] && Utils.Last(st.messages).AIMessage?
    ensures var calls := Utils.Last(st.messages).toolCalls;
      var u := ToolNodeStep(registered, st, tool).update;
      && u.Success? && u.value.userInfo.None? && u.value.messages.Some?
      && |u.value.messages.value| == |calls|
      && (forall i :: 0 <= i < |calls| ==> u.value.messages.value[i].toolCallId == calls[i].id)
      && ((forall i :: 0 <= i < |calls| ==> CallOutcome(calls[i], registered, tool).Returned?) ==>
            forall i :: 0 <= i < |calls| ==> u.value.messages.value[i].text == CallOutcome(calls[i], registered, tool).content)
      && (forall i :: 0 <= i < |calls| && FirstRaise(calls, registered, tool, i) ==>
            u.value.messages.value == Utils.ErrorResults(calls, Utils.ErrorContent(Some(CallOutcome(calls[i], registered, tool).error))))
  {
    var calls := Utils.Last(st.messages).toolCalls;
    var r := AnswerCalls(calls, registered, tool);
    if r.Failure? {
      var k :| 0 <= k < |calls| && FirstRaise(calls, registered, tool, k) && r.error == CallOutcome(calls[k], registered, tool).error;
      forall i | 0 <= i < |calls| && FirstRaise(calls, registered, tool, i) ensures i == k {
        FirstRaiseUnique(calls, registered, tool, i, k);
      }
    }
  }

  lemma FirstRaiseUnique(calls: seq<ToolCall>, registered: seq<Registry.Tool>, tool: ToolCall -> ToolOutcome, i: int, k: int)
    requires 0 <= i < |calls| && 0 <= k < |calls|
    requires FirstRaise(calls, registered, tool, i) && FirstRaise(calls, registered, tool, k)
    ensures i == k
  {
  }

  /** Runs one node on the state. */
  function ExecNode(env: Env, config: RunConfig, at: Node, st: ReservState, fuel: nat): (s: NodeStep)
    ensures at != SafeTools && at != SensitiveTools ==> s.executed == []
    ensures at == SafeTools ==> s == ToolNodeStep(Registry.SafeTools, st, env.tool)
    ensures at == SensitiveTools ==> s == ToolNodeStep(Registry.SensitiveTools, st, env.tool)
  {
    match at
    case FetchUserInfo =>
      NodeStep(match Nodes.UserInfoNode(config)
               case Success(u) => Success(u)
               case Failure(e) => Failure(Raise(e)), [])
    case Assistant => NodeStep(Nodes.AssistantUpdate(env.llm, st, fuel), [])
    case SafeTools => ToolNodeStep(Registry.SafeTools, st, env.tool)
    case SensitiveTools => ToolNodeStep(Registry.SensitiveTools, st, env.tool)
    case _ => NodeStep(Success(Update(None, None)), [])
  }

  // ---------------------------------------------------------------------------
  // Running the compiled graph

  /** The saved state of the thread: the state values and the node the run is
      paused before (`None` once the run has reached `END`). */
  datatype Checkpoint = Checkpoint(values: ReservState, next: Option<Node>)

  datatype Outcome = Stopped(checkpoint: Checkpoint) | Failed(fault: Fault)

  /** One invocation: the states emitted after each step, the tool calls
      invoked, the nodes executed in order, and how it ended. */
  datatype RunResult = RunResult(events: seq<ReservState>, executed: seq<ToolCall>, visited: seq<Node>,
                                 outcome: Outcome)

  /** One step of a run: the node ran and the edges chose the next node, or
      the node or its router raised.  Either way, the tool calls it invoked. */
  datatype Stepped =
    | Moved(after: ReservState, next: Node, executed: seq<ToolCall>)
    | Halted(fault: Fault, executed: seq<ToolCall>)

  /** Runs node `at` on `st`, merges its update, and follows the edges. */
  function StepFrom(env: Env, config: RunConfig, at: Node, st: ReservState, fuel: nat): (s: Stepped)
    requires at != End
    ensures s.executed == ExecNode(env, config, at, st, fuel).executed
    ensures s.Moved? ==> Successor(at, s.after) == Success(s.next)
    ensures s.Moved? ==> st.messages <= s.after.messages
  {
    var step := ExecNode(env, config, at, st, fuel);
    if step.update.Failure? then Halted(step.update.error, step.executed)
    else
      var after := Apply(st, step.update.value, env.mint);
      match Successor(at, after)
      case Failure(e) => Halted(Raise(e), step.executed)
      case Success(n) => Moved(after, n, step.executed)
  }

  /** How the nodes of a graph run: the step of node `at` on a state, with
      `fuel` steps left.  The run below treats it as a black box; it is never
      asked for `END`. */
  type Stepper = (Node, ReservState, nat) -> Stepped

  /** The nodes of this graph, over the given model, tools, id generator and
      run configuration. */
  function NodeSteps(env: Env, config: RunConfig): Stepper
  {
    (at: Node, st: ReservState, fuel: nat) =>
      if at == End then Halted(NoFuel, []) else StepFrom(env, config, at, st, fuel)
  }

  /** Every step that moves follows the transition table. */
  ghost predicate FollowsEdges(step: Stepper)
  {
    forall at: Node, st: ReservState, fuel: nat :: at != End && step(at, st, fuel).Moved? ==>
      Successor(at, step(at, st, fuel).after) == Success(step(at, st, fuel).next)
  }

  /** Only the tool nodes invoke tools: the safe one only safe tools, the
      sensitive one only calls the last message proposed. */
  ghost predicate InvokesOnly(step: Stepper)
  {
    forall at: Node, st: ReservState, fuel: nat, c :: c in step(at, st, fuel).executed ==>
      || (at == SafeTools && c.name in Registry.Names(Registry.SafeTools) && c.name !in Registry.SensitiveToolNames)
      || (at == SensitiveTools && st.messages != [] && c in ToolCallsOf(Utils.Last(st.messages)))
  }

  /** Every step that moves keeps the history it was given as a prefix: the
      message reducer only appends. */
  ghost predicate ExtendsHistory(step: Stepper)
  {
    forall at: Node, st: ReservState, fuel: nat :: at != End && step(at, st, fuel).Moved? ==>
      st.messages <= step(at, st, fuel).after.messages
  }

  /** The nodes of this graph move along the edges, invoke only what their
      tool node allows, and only append to the history. */
  lemma NodeStepsKeepToTheGraph(env: Env, config: RunConfig)
    ensures FollowsEdges(NodeSteps(env, config))
    ensures InvokesOnly(NodeSteps(env, config))
    ensures ExtendsHistory(NodeSteps(env, config))
  {
    var step := NodeSteps(env, config);
    forall at: Node, st: ReservState, fuel: nat | at != End && step(at, st, fuel).Moved?
      ensures st.messages <= step(at, st, fuel).after.messages
    {
      assert step(at, st, fuel) == StepFrom(env, config, at, st, fuel);
    }
    forall at: Node, st: ReservState, fuel: nat | at != End && step(at, st, fuel).Moved?
      ensures Successor(at, step(at, st, fuel).after) == Success(step(at, st, fuel).next)
    {
      assert step(at, st, fuel) == StepFrom(env, config, at, st, fuel);
    }
    forall at: Node, st: ReservState, fuel: nat, c | c in step(at, st, fuel).executed
      ensures || (at == SafeTools && c.name in Registry.Names(Registry.SafeTools)
                  && c.name !in Registry.SensitiveToolNames)
              || (at == SensitiveTools && st.messages != [] && c in ToolCallsOf(Utils.Last(st.messages)))
    {
      Registry.ClassificationIsPartition();
      assert at != End;
      assert step(at, st, fuel).executed == ExecNode(env, config, at, st, fuel).executed;
    }
  }

  /** Runs a graph from node `at` on state `st`.  `resuming` lets the first
      node run although it is an interrupt node (the run continues a pause);
      any later interrupt node stops the run before it.  `fuel` bounds the
      number of steps. */
  function Run(step: Stepper, st: ReservState, at: Node, fuel: nat, resuming: bool): RunResult
    decreases fuel
  {
    if at == End then RunResult([], [], [], Stopped(Checkpoint(st, None)))
    else if at in InterruptBefore && !resuming then RunResult([], [], [], Stopped(Checkpoint(st, Some(at))))
    else if fuel == 0 then RunResult([], [], [], Failed(NoFuel))
    else
      match step(at, st, fuel)
      case Halted(f, executed) => RunResult([], executed, [at], Failed(f))
      case Moved(after, n, executed) =>
        var rest := Run(step, after, n, fuel - 1, false);
        RunResult([after] + rest.events, executed + rest.executed, [at] + rest.visited, rest.outcome)
  }

  /** The compiled graph (`builder.compile` with a checkpointer and the
      interrupt): its nodes under each run configuration, and the id
      generator of its history merge. */
  datatype Compiled = Compiled(nodes: RunConfig -> Stepper, mint: nat -> string)

  function Compile(env: Env): Compiled
  {
    Compiled(config => NodeSteps(env, config), env.mint)
  }

  /** Under every configuration the nodes move along the edges, invoke only
      what their tool node allows, and only append to the history. */
  ghost predicate KeepsToTheGraph(app: Compiled)
  {
    forall config: RunConfig ::
      FollowsEdges(app.nodes(config)) && InvokesOnly(app.nodes(config)) && ExtendsHistory(app.nodes(config))
  }

  lemma CompiledKeepsToTheGraph(env: Env)
    ensures KeepsToTheGraph(Compile(env))
  {
    forall config: RunConfig
      ensures FollowsEdges(Compile(env).nodes(config)) && InvokesOnly(Compile(env).nodes(config))
      ensures ExtendsHistory(Compile(env).nodes(config))
    {
      NodeStepsKeepToTheGraph(env, config);
      assert Compile(env).nodes(config) == NodeSteps(env, config);
    }
  }

  /** An invocation with input (`stream` or `invoke` with messages): the input
      messages are merged into the saved state and the run starts over from
      `START`, whatever node the thread was paused before.  The first event is
      the state with the input merged. */
  function StartRun(app: Compiled, config: RunConfig, cp: Checkpoint, input: seq<Message>, fuel: nat): (r: RunResult)
    ensures r.events != [] && r.events[0] == Apply(cp.values, Update(Some(input), None), app.mint)
  {
    var st := Apply(cp.values, Update(Some(input), None), app.mint);
    var rest := Run(app.nodes(config), st, FixedEdges[Start], fuel, false);
    RunResult([st] + rest.events, rest.executed, rest.visited, rest.outcome)
  }

  /** An invocation without input (`invoke(None)`): continues the paused run
      at the node it is paused before, on the saved state; a finished thread
      has nothing to run. */
  function Resume(app: Compiled, config: RunConfig, cp: Checkpoint, fuel: nat): RunResult
  {
    if cp.next.None? then RunResult([], [], [], Stopped(cp))
    else Run(app.nodes(config), cp.values, cp.next.value, fuel, true)
  }

  // ---------------------------------------------------------------------------
  // Properties of a run

  /** A run stops only at `END`, after the router saw no tool call, or before
      the sensitive tool node, after the router saw a sensitive first call;
      it never pauses before any other node. */
  lemma {:induction false} StopsOnlyAtEndOrBeforeSensitive(step: Stepper, st: ReservState,
                                                           at: Node, fuel: nat, resuming: bool)
    requires FollowsEdges(step)
    requires at != End && (at != SensitiveTools || resuming)
    ensures var r := Run(step, st, at, fuel, resuming);
      r.outcome.Stopped? ==>
        || (r.outcome.checkpoint.next == None && RouteTools(r.outcome.checkpoint.values) == Success(End))
        || (r.outcome.checkpoint.next == Some(SensitiveTools)
            && RouteTools(r.outcome.checkpoint.values) == Success(SensitiveTools))
    decreases fuel
  {
    if fuel > 0 {
      var s := step(at, st, fuel);
      if s.Moved? {
        assert Successor(at, s.after) == Success(s.next);
        if s.next == End || s.next == SensitiveTools {
          // no fixed edge leads there: the router chose it
          assert at !in FixedEdges;
        } else {
          StopsOnlyAtEndOrBeforeSensitive(step, s.after, s.next, fuel - 1, false);
        }
      }
    }
  }

  /** The last event of a run is the state it saved when it stopped (the
      starting state if it stopped before any step). */
  lemma {:induction false} LastEventIsCheckpoint(step: Stepper, st: ReservState, at: Node, fuel: nat, resuming: bool)
    ensures var r := Run(step, st, at, fuel, resuming);
      r.outcome.Stopped? && r.events == [] ==> r.outcome.checkpoint.values == st
    ensures var r := Run(step, st, at, fuel, resuming);
      r.outcome.Stopped? && r.events != [] ==> r.outcome.checkpoint.values == Utils.Last(r.events)
    decreases fuel
  {
    if at != End && (at !in InterruptBefore || resuming) && fuel > 0 {
      var s := step(at, st, fuel);
      if s.Moved? {
        LastEventIsCheckpoint(step, s.after, s.next, fuel - 1, false);
        var rest := Run(step, s.after, s.next, fuel - 1, false);
        assert Utils.Last([s.after] + rest.events) == (if rest.events == [] then s.after else Utils.Last(rest.events));
      }
    }
  }

  /** Consecutive steps of a run follow the transition table, and the
      sensitive tool node runs only as the first step of a resumed run. */
  lemma {:induction false} VisitsFollowEdges(step: Stepper, st: ReservState, at: Node, fuel: nat, resuming: bool)
    requires FollowsEdges(step)
    ensures var v := Run(step, st, at, fuel, resuming).visited;
      && (v != [] ==> v[0] == at)
      && (forall k :: 0 <= k < |v| - 1 && v[k] in FixedEdges ==> v[k + 1] == FixedEdges[v[k]])
      && (forall k :: 0 <= k < |v| - 1 && v[k] !in FixedEdges ==> v[k] == Assistant && v[k + 1] in RouteDestinations)
      && (forall k :: 0 <= k < |v| && v[k] == SensitiveTools ==> k == 0 && resuming)
    decreases fuel
  {
    if at != End && (at !in InterruptBefore || resuming) && fuel > 0 {
      var s := step(at, st, fuel);
      if s.Moved? {
        VisitsFollowEdges(step, s.after, s.next, fuel - 1, false);
        var rest := Run(step, s.after, s.next, fuel - 1, false).visited;
        assert at !in FixedEdges ==> at == Assistant;
        assert rest != [] ==> rest[0] == s.next;
      }
    }
  }

  /** Outside a resumed pause, no sensitive tool runs: the only calls a run
      invokes name safe tools. */
  lemma {:induction false} OnlySafeToolsRunUnresumed(step: Stepper, st: ReservState,
                                                     at: Node, fuel: nat, resuming: bool)
    requires InvokesOnly(step)
    requires at != SensitiveTools || !resuming
    ensures forall c :: c in Run(step, st, at, fuel, resuming).executed ==>
      c.name in Registry.Names(Registry.SafeTools) && c.name !in Registry.SensitiveToolNames
    decreases fuel
  {
    if at != End && (at !in InterruptBefore || resuming) && fuel > 0 {
      var s := step(at, st, fuel);
      if s.Moved? {
        OnlySafeToolsRunUnresumed(step, s.after, s.next, fuel - 1, false);
      }
    }
  }

  /** A resumed run invokes sensitive tools only for calls the last message
      of the state it resumes on proposed. */
  lemma ResumedRunInvokesOnlyProposed(step: Stepper, st: ReservState, at: Node, fuel: nat)
    requires InvokesOnly(step)
    ensures forall c :: c in Run(step, st, at, fuel, true).executed && c.name in Registry.SensitiveToolNames ==>
      st.messages != [] && c in ToolCallsOf(Utils.Last(st.messages))
  {
    if at != SensitiveTools {
      OnlySafeToolsRunUnresumed(step, st, at, fuel, true);
    } else if fuel > 0 {
      var s := step(at, st, fuel);
      if s.Moved? {
        OnlySafeToolsRunUnresumed(step, s.after, s.next, fuel - 1, false);
      }
    }
  }

  /** Resuming a paused thread invokes sensitive tools only for calls the
      paused message proposed. */
  lemma ResumedRunsOnlyPausedCalls(app: Compiled, config: RunConfig, cp: Checkpoint, fuel: nat)
    requires KeepsToTheGraph(app)
    ensures forall c :: c in Resume(app, config, cp, fuel).executed && c.name in Registry.SensitiveToolNames ==>
      cp.values.messages != [] && c in ToolCallsOf(Utils.Last(cp.values.messages))
  {
    if cp.next.Some? {
      ResumedRunInvokesOnlyProposed(app.nodes(config), cp.values, cp.next.value, fuel);
    }
  }

  /** A run started with input begins at the user-info node, pauses with the
      state of its last event and only before the sensitive tool node, never
      runs that node, and never invokes a sensitive tool. */
  lemma StartRunProperties(app: Compiled, config: RunConfig, cp: Checkpoint, input: seq<Message>, fuel: nat)
    requires KeepsToTheGraph(app)
    ensures var r := StartRun(app, config, cp, input, fuel);
      && (r.outcome.Stopped? ==> r.outcome.checkpoint.values == Utils.Last(r.events))
      && (r.outcome.Stopped? ==>
            || r.outcome.checkpoint.next == None
            || (r.outcome.checkpoint.next == Some(SensitiveTools)
                && RouteTools(r.outcome.checkpoint.values) == Success(SensitiveTools)))
      && (r.visited != [] ==> r.visited[0] == FetchUserInfo)
      && SensitiveTools !in r.visited
      && forall c :: c in r.executed ==> c.name !in Registry.SensitiveToolNames
  {
    var step := app.nodes(config);
    var st := Apply(cp.values, Update(Some(input), None), app.mint);
    LastEventIsCheckpoint(step, st, FetchUserInfo, fuel, false);
    StopsOnlyAtEndOrBeforeSensitive(step, st, FetchUserInfo, fuel, false);
    OnlySafeToolsRunUnresumed(step, st, FetchUserInfo, fuel, false);
    VisitsFollowEdges(step, st, FetchUserInfo, fuel, false);
    var rest := Run(step, st, FetchUserInfo, fuel, false);
    if rest.events != [] {
      assert Utils.Last([st] + rest.events) == Utils.Last(rest.events);
    }
  }

  /** A run only appends to the history it starts from: every event, and the
      state it saves when it stops, keep that history as a prefix. */
  lemma {:induction false} RunExtendsHistory(step: Stepper, st: ReservState, at: Node, fuel: nat, resuming: bool)
    requires ExtendsHistory(step)
    ensures var r := Run(step, st, at, fuel, resuming);
      r.outcome.Stopped? ==> st.messages <= r.outcome.checkpoint.values.messages
    ensures var r := Run(step, st, at, fuel, resuming);
      forall k :: 0 <= k < |r.events| ==> st.messages <= r.events[k].messages
    decreases fuel
  {
    if at != End && (at !in InterruptBefore || resuming) && fuel > 0 {
      var s := step(at, st, fuel);
      if s.Moved? {
        RunExtendsHistory(step, s.after, s.next, fuel - 1, false);
        var r := Run(step, s.after, s.next, fuel - 1, false);
        if r.outcome.Stopped? {
          PrefixTransitive(st.messages, s.after.messages, r.outcome.checkpoint.values.messages);
        }
        forall k | 0 <= k < |r.events| ensures st.messages <= r.events[k].messages {
          PrefixTransitive(st.messages, s.after.messages, r.events[k].messages);
        }
      }
    }
  }

  /** Whatever extends an extension of a history extends the history. */
  lemma PrefixTransitive(a: seq<Message>, b: seq<Message>, c: seq<Message>)
    requires a <= b && b <= c
    ensures a <= c
  {
    assert c[..|a|] == b[..|a|];
  }

  /** A run started with input keeps the saved history, then the input, as a
      prefix of every later event and of the state it pauses with. */
  lemma StartRunExtendsHistory(app: Compiled, config: RunConfig, cp: Checkpoint, input: seq<Message>, fuel: nat)
    requires KeepsToTheGraph(app)
    ensures var r := StartRun(app, config, cp, input, fuel);
      && (forall k :: 0 <= k < |r.events| ==> r.events[0].messages <= r.events[k].messages)
      && (r.outcome.Stopped? ==> r.events[0].messages <= r.outcome.checkpoint.values.messages)
      && cp.values.messages <= r.events[0].messages
  {
    var st := Apply(cp.values, Update(Some(input), None), app.mint);
    RunExtendsHistory(app.nodes(config), st, FixedEdges[Start], fuel, false);
  }

  /** A resumed run keeps the saved history as a prefix of every event and of
      the state it pauses with. */
  lemma ResumeExtendsHistory(app: Compiled, config: RunConfig, cp: Checkpoint, fuel: nat)
    requires KeepsToTheGraph(app)
    ensures var r := Resume(app, config, cp, fuel);
      && (forall k :: 0 <= k < |r.events| ==> cp.values.messages <= r.events[k].messages)
      && (r.outcome.Stopped? ==> cp.values.messages <= r.outcome.checkpoint.values.messages)
  {
    if cp.next.Some? {
      RunExtendsHistory(app.nodes(config), cp.values, cp.next.value, fuel, true);
    }
  }

  /** Resuming a thread paused before the sensitive tool node runs that node
      first, on the saved state as it was: every call of the paused message
      that names a sensitive tool is invoked, before anything else runs. */
  lemma ResumeRunsPausedCalls(env: Env, config: RunConfig, cp: Checkpoint, fuel: nat)
    requires cp.next == Some(SensitiveTools) && fuel > 0
    ensures var r := Resume(Compile(env), config, cp, fuel);
      && r.visited != [] && r.visited[0] == SensitiveTools
      && ToolNodeStep(Registry.SensitiveTools, cp.values, env.tool).executed <= r.executed
      && forall c ::
           (cp.values.messages != [] && c in ToolCallsOf(Utils.Last(cp.values.messages))
            && c.name in Registry.SensitiveToolNames) ==> c in r.executed
  {
    var first := StepFrom(env, config, SensitiveTools, cp.values, fuel);
    assert Compile(env).nodes(config)(SensitiveTools, cp.values, fuel) == first;
    var tools := ToolNodeStep(Registry.SensitiveTools, cp.values, env.tool);
    assert first.executed == tools.executed;
    var r := Resume(Compile(env), config, cp, fuel);
    assert tools.executed <= r.executed;
  }
}
