/** game/agent.py: the agent loop. An agent repeatedly builds a prompt from its
    goals, actions and memory, asks its model for a reply, runs the action the
    reply names in its environment and logs both in memory, until an action marked
    terminal runs or the iteration cap is reached. `AgentRegistry` names the
    agents that delegation tools can call. */
module Agents {
  import opened Values
  import opened Dicts
  import opened Text
  import opened Memory
  import opened Actions
  import opened ActionContexts
  import opened Environments
  import opened ModelCall
  import opened AgentLanguage
  import opened Capabilities

  const BaseEnvironmentName: string := "Environment"
  const ContextEnvironmentName: string := "ActionContextEnvironment"
  const StagedEnvironmentName: string := "StagedActionEnvironment"
  const AIReviewEnvironmentName: string := "AIReviewBDDEnvironment"
  const HandlingPrefix: string := "Error handling agent response: "
  const GeneratingPrefix: string := "Error generating response: "
  const Unhashable: string := "unhashable type"
  const ReviewArityError: string :=
    "AIReviewBDDEnvironment.execute_with_ai_review() takes 4 positional arguments but 5 were given"
  const ExecuteArityError: string := "Environment.execute_action() takes 3 positional arguments but 4 were given"

  /** The environment classes an agent can be given. */
  datatype EnvironmentKind = BaseEnvironment | ContextEnvironment | StagedEnvironment | AIReviewEnvironment

  /** `type(environment).__name__`. */
  function EnvironmentName(env: EnvironmentKind): string {
    match env
    case BaseEnvironment => BaseEnvironmentName
    case ContextEnvironment => ContextEnvironmentName
    case StagedEnvironment => StagedEnvironmentName
    case AIReviewEnvironment => AIReviewEnvironmentName
  }

  /** The record `handle_agent_response` returns for an exception. */
  function HandlingError(msg: string, response: string): (r: Entry)
    ensures "tool_executed" in r && r["tool_executed"] == VBool(false)
    ensures "error" in r && r["error"] == VStr(HandlingPrefix + msg)
    ensures "response" in r && r["response"] == VStr(response)
  {
    map["tool_executed" := VBool(false), "error" := VStr(HandlingPrefix + msg),
        "response" := VStr(response)]
  }

  /** What `handle_agent_response` passes on: the exception of the dispatch. The
      AI-review environment is called with four arguments by a method that takes
      three; the base and staged environments inherit an `execute_action` whose
      code has more than three local names, so they are called with the context
      as an extra argument. */
  function DispatchError(env: EnvironmentKind): string {
    if env == AIReviewEnvironment then ReviewArityError else ExecuteArityError
  }

  /** The text `prompt_llm_for_action` returns for a model reply. */
  function ResponseText(reply: Outcome<string>): (r: string)
    ensures reply.Ok? ==> r == reply.value
    ensures reply.Raised? ==> r == GeneratingPrefix + reply.exc.msg
  {
    match reply
    case Ok(text) => text
    case Raised(e) => GeneratingPrefix + e.msg
  }

  /** The entry `set_current_task` logs; the `datetime` stamp it passes is
      overwritten by `add_memory` with the clock reading, so it is not modelled. */
  function TaskEntry(rt: Runtime, task: string): Entry {
    map["role" := VStr("user"), "content" := VStr(task), "timestamp" := rt.clock]
  }

  /** The entry `update_memory` logs for the model's reply. */
  function ReplyEntry(rt: Runtime, response: string): Entry {
    map["role" := VStr("assistant"), "content" := VStr(response), "timestamp" := rt.clock]
  }

  /** The entry `update_memory` logs for the result, as JSON text. */
  function ResultEntry(rt: Runtime, json: string): Entry {
    map["role" := VStr("user"), "content" := VStr(json), "timestamp" := rt.clock]
  }

  /** Where the loop stands: the memory items, the model calls made so far, and
      whether the loop has ended before its cap (a terminal action, or an
      exception that the loop swallows). */
  datatype Progress = Progress(items: seq<Entry>, calls: nat, stopped: bool)

  class Agent {
    const goals: seq<Goal>
    /** `generate_response`. */
    const model: LanguageModel
    const registry: ActionRegistry
    const environment: EnvironmentKind
    const agentName: string
    const capabilities: seq<Capability>
    const maxIterations: int

    /** `Agent(...)`: a missing capability list is empty. */
    constructor(goals: seq<Goal>, model: LanguageModel, registry: ActionRegistry, environment: EnvironmentKind,
                agentName: string := "Agent", capabilities: seq<Capability> := [], maxIterations: int := 30)
      ensures this.goals == goals && this.model == model && this.registry == registry
      ensures this.environment == environment && this.agentName == agentName
      ensures this.capabilities == capabilities && this.maxIterations == maxIterations
    {
      this.goals := goals;
      this.model := model;
      this.registry := registry;
      this.environment := environment;
      this.agentName := agentName;
      this.capabilities := capabilities;
      this.maxIterations := maxIterations;
    }

    /** `get_action(response)`: the registered action the reply names, with the
        parsed invocation. A name that is not a string cannot be registered:
        a list or dict is unhashable, anything else is not found. */
    function GetAction(rt: Runtime, actions: Dict<Action>, response: string): (r: Outcome<(Action, Value)>)
      ensures r.Ok? ==>
                && ParseResponse(response, rt.loads(response)) == Ok(r.value.1)
                && GetItem(r.value.1, "tool_name").Ok?
                && GetItem(r.value.1, "tool_name").value.VStr?
                && ActionNamed(actions, GetItem(r.value.1, "tool_name").value.s) == Ok(r.value.0)
      ensures ParseResponse(response, rt.loads(response)).Raised? ==>
                r == Raised(ParseResponse(response, rt.loads(response)).exc)
      ensures var parsed := ParseResponse(response, rt.loads(response));
              parsed.Ok? && GetItem(parsed.value, "tool_name").Raised? ==> r == Raised(GetItem(parsed.value, "tool_name").exc)
      ensures var parsed := ParseResponse(response, rt.loads(response));
              parsed.Ok? && GetItem(parsed.value, "tool_name").Ok? ==>
                var name := GetItem(parsed.value, "tool_name").value;
                && (name.VStr? && name.s in actions.m ==> r == Ok((actions.m[name.s], parsed.value)))
                && (name.VStr? && name.s !in actions.m ==> r == Raised(Exc(ValueError, NotFound(name.s))))
                && (name.VList? ==> r == Raised(Exc(TypeError, Unhashable + ": 'list'")))
                && (name.VDict? ==> r == Raised(Exc(TypeError, Unhashable + ": 'dict'")))
                && (!name.VStr? && !name.VList? && !name.VDict? ==> r == Raised(Exc(ValueError, NotFound(Str(rt, name)))))
    {
      match ParseResponse(response, rt.loads(response))
      case Raised(e) => Raised(e)
      case Ok(invocation) =>
        match GetItem(invocation, "tool_name")
        case Raised(e) => Raised(e)
        case Ok(name) =>
          if name.VStr? then
            match ActionNamed(actions, name.s)
            case Raised(e) => Raised(e)
            case Ok(action) => Ok((action, invocation))
          else if name.VList? then Raised(Exc(TypeError, Unhashable + ": 'list'"))
          else if name.VDict? then Raised(Exc(TypeError, Unhashable + ": 'dict'"))
          else Raised(Exc(ValueError, NotFound(Str(rt, name))))
    }

    /** `should_terminate(action_context, response)`: whether the named action is
        terminal; any failure to find it means "go on". */
    function ShouldTerminate(rt: Runtime, actions: Dict<Action>, response: string): (r: bool)
      ensures r <==> GetAction(rt, actions, response).Ok? && GetAction(rt, actions, response).value.0.terminal
    {
      match GetAction(rt, actions, response)
      case Ok((action, _)) => action.terminal
      case Raised(_) => false
    }

    /** The environment call of `handle_agent_response` for `action` and `args`:
        only the context environment executes. */
    function Dispatched(rt: Runtime, ctxObj: Value, props: Dict<Value>, action: Action, args: Value,
                        response: string): (r: Entry)
      ensures "tool_executed" in r
      ensures r["tool_executed"] == VBool(true) ==> environment == ContextEnvironment
      ensures environment == ContextEnvironment ==> r == ContextExecute(rt, ctxObj, props, action, args)
      ensures environment != ContextEnvironment ==> r == HandlingError(DispatchError(environment), response)
    {
      if environment == ContextEnvironment then ContextExecute(rt, ctxObj, props, action, args)
      else HandlingError(DispatchError(environment), response)
    }

    /** The record `handle_agent_response` returns, with the context seen as the
        object `ctxObj` holding `props`. Only the context environment executes;
        every exception becomes a failure record carrying the reply. */
    function Handled(rt: Runtime, actions: Dict<Action>, ctxObj: Value, props: Dict<Value>, response: string): (r: Entry)
      ensures "tool_executed" in r
      ensures r["tool_executed"] == VBool(true) ==> environment == ContextEnvironment && GetAction(rt, actions, response).Ok?
      ensures GetAction(rt, actions, response).Raised? ==> r == HandlingError(GetAction(rt, actions, response).exc.msg, response)
      ensures var found := GetAction(rt, actions, response);
              found.Ok? && GetItem(found.value.1, "args").Raised? ==>
                r == HandlingError(GetItem(found.value.1, "args").exc.msg, response)
      ensures var found := GetAction(rt, actions, response);
              found.Ok? && GetItem(found.value.1, "args").Ok? ==>
                r == Dispatched(rt, ctxObj, props, found.value.0, GetItem(found.value.1, "args").value, response)
    {
      match GetAction(rt, actions, response)
      case Raised(e) => HandlingError(e.msg, response)
      case Ok((action, invocation)) =>
        match GetItem(invocation, "args")
        case Raised(e) => HandlingError(e.msg, response)
        case Ok(args) => Dispatched(rt, ctxObj, props, action, args, response)
    }

    /** `handle_agent_response(action_context, response)`, as `Handled` specifies it. */
    method HandleAgentResponse(rt: Runtime, ctx: ActionContext, response: string) returns (r: Entry)
      ensures r == Handled(rt, registry.actions, VObject(ctx), ctx.properties, response)
    {
      var action := GetAction(rt, registry.actions, response);
      if action.Raised? {
        return HandlingError(action.exc.msg, response);
      }
      var args := GetItem(action.value.1, "args");
      if args.Raised? {
        return HandlingError(args.exc.msg, response);
      }
      r := Dispatch(rt, ctx, action.value.0, args.value, response);
    }

    /** The environment call of `handle_agent_response`, as `Dispatched` specifies it. */
    method Dispatch(rt: Runtime, ctx: ActionContext, action: Action, args: Value, response: string) returns (r: Entry)
      ensures r == Dispatched(rt, VObject(ctx), ctx.properties, action, args, response)
    {
      if environment == ContextEnvironment {
        r := ExecuteWithContext(rt, ctx, action, args);
      } else {
        r := HandlingError(DispatchError(environment), response);
      }
    }

    /** `prompt_llm_for_action(context, full_prompt)`: the model's reply, or the
        error text when the call raises. */
    method PromptLlmForAction(prompt: Prompt) returns (response: string)
      modifies model
      ensures response == ResponseText(model.replies(|old(model.log)|))
      ensures model.log == old(model.log) + [ChatPrompt(prompt)]
    {
      var reply := model.Generate(ChatPrompt(prompt));
      if reply.Raised? {
        return GeneratingPrefix + reply.exc.msg;
      }
      response := reply.value;
    }

    /** `set_current_task(memory, task)`: one user entry holding the task. */
    method SetCurrentTask(rt: Runtime, memory: Memory, task: string)
      modifies memory
      ensures memory.items == old(memory.items) + [TaskEntry(rt, task)]
    {
      memory.AddMemory(map["role" := VStr("user"), "content" := VStr(task)], rt.clock);
    }

    /** `update_memory(memory, response, result)`: the reply as an assistant entry,
        then the result as JSON text in a user entry; a result that is not
        serializable raises after the first entry is in. */
    method UpdateMemory(rt: Runtime, memory: Memory, response: string, result: Entry) returns (r: Outcome<()>)
      modifies memory
      ensures Dumps(rt, VDict(result)).Ok? ==>
                r == Ok(()) && memory.items == old(memory.items) + [ReplyEntry(rt, response),
                                                                  ResultEntry(rt, Dumps(rt, VDict(result)).value)]
      ensures Dumps(rt, VDict(result)).Raised? ==>
                r == Raised(Dumps(rt, VDict(result)).exc) && memory.items == old(memory.items) + [ReplyEntry(rt, response)]
    {
      memory.AddMemory(map["role" := VStr("assistant"), "content" := VStr(response)], rt.clock);
      var json := Dumps(rt, VDict(result));
      if json.Raised? {
        return Raised(json.exc);
      }
      memory.AddMemory(map["role" := VStr("user"), "content" := VStr(json.value)], rt.clock);
      r := Ok(());
    }

    /** One pass of the loop body, from the memory items `items` with `calls`
        model calls made: a prompt that cannot be built ends the loop; otherwise
        one model call, the action, and the two log entries; a result that is not
        serializable ends the loop after the first. The action runs as its tool's
        `body` on its arguments: model calls and memory entries that a tool makes
        through the context are not part of this count. */
    function StepFrom(rt: Runtime, actions: Dict<Action>, ctxObj: Value, props: Dict<Value>, items: seq<Entry>, calls: nat): (p: Progress)
      ensures |items| <= |p.items| <= |items| + 2 && p.items[..|items|] == items
      ensures calls <= p.calls <= calls + 1
    {
      if MessagesOf(rt, items).Raised? then Progress(items, calls, true)
      else
        var response := ResponseText(model.replies(calls));
        Logged(rt, actions, items, response, Handled(rt, actions, ctxObj, props, response), calls + 1)
    }

    /** The two log entries of one pass, for the reply `response` and its result. */
    function Logged(rt: Runtime, actions: Dict<Action>, items: seq<Entry>, response: string, result: Entry, calls: nat): (p: Progress)
      ensures |items| + 1 <= |p.items| <= |items| + 2
      ensures p.items[..|items| + 1] == items + [ReplyEntry(rt, response)]
      ensures p.calls == calls
      ensures |p.items| == |items| + 1 ==> p.stopped
    {
      var logged := items + [ReplyEntry(rt, response)];
      match Dumps(rt, VDict(result))
      case Raised(_) => Progress(logged, calls, true)
      case Ok(json) => Progress(logged + [ResultEntry(rt, json)], calls, ShouldTerminate(rt, actions, response))
    }

    /** One pass makes one model call once the prompt is built, and logs the reply
        first, then at most the result; a pass that could not log the result stops
        the loop, and so does a terminal action. */
    lemma StepFromSpec(rt: Runtime, actions: Dict<Action>, ctxObj: Value, props: Dict<Value>, items: seq<Entry>, calls: nat)
      ensures var p := StepFrom(rt, actions, ctxObj, props, items, calls);
              && (MessagesOf(rt, items).Raised? ==> p == Progress(items, calls, true))
              && (MessagesOf(rt, items).Ok? ==>
                    && p.calls == calls + 1
                    && |items| + 1 <= |p.items| <= |items| + 2
                    && p.items[..|items| + 1] == items + [ReplyEntry(rt, ResponseText(model.replies(calls)))]
                    && (|p.items| == |items| + 1 ==> p.stopped)
                    && (ShouldTerminate(rt, actions, ResponseText(model.replies(calls))) ==> p.stopped))
    {
      if MessagesOf(rt, items).Ok? {
        var response := ResponseText(model.replies(calls));
        var result := Handled(rt, actions, ctxObj, props, response);
        var logged := items + [ReplyEntry(rt, response)];
        if Dumps(rt, VDict(result)).Ok? {
          assert (logged + [ResultEntry(rt, Dumps(rt, VDict(result)).value)])[..|items| + 1] == logged;
        }
      }
    }

    /** The loop from iteration `i` on. */
    function RunFrom(rt: Runtime, actions: Dict<Action>, ctxObj: Value, props: Dict<Value>, items: seq<Entry>, calls: nat, i: nat): (p: Progress)
      ensures |items| <= |p.items| && p.items[..|items|] == items
      ensures calls <= p.calls
      decreases Remaining(i)
    {
      if maxIterations <= i then Progress(items, calls, false)
      else
        var p := StepFrom(rt, actions, ctxObj, props, items, calls);
        if p.stopped then p else RunFrom(rt, actions, ctxObj, props, p.items, p.calls, i + 1)
    }

    /** The loop's bounds: the log only grows, by at most two entries and one
        model call per iteration and never beyond the cap; a loop that ran out its
        cap without stopping added exactly two entries and one call for each
        iteration. */
    lemma {:induction false} RunFromSpec(rt: Runtime, actions: Dict<Action>, ctxObj: Value, props: Dict<Value>, items: seq<Entry>,
                                         calls: nat, i: nat)
      ensures var p := RunFrom(rt, actions, ctxObj, props, items, calls, i);
              && |items| <= |p.items| <= |items| + 2 * Remaining(i) && p.items[..|items|] == items
              && calls <= p.calls <= calls + Remaining(i)
              && (!p.stopped ==> |p.items| == |items| + 2 * Remaining(i) && p.calls == calls + Remaining(i))
      decreases Remaining(i)
    {
      var p := RunFrom(rt, actions, ctxObj, props, items, calls, i);
      if i < maxIterations {
        var q := StepFrom(rt, actions, ctxObj, props, items, calls);
        StepFromSpec(rt, actions, ctxObj, props, items, calls);
        assert Remaining(i) == Remaining(i + 1) + 1;
        if q.stopped {
          assert p == q;
          if |q.items| > |items| {
            assert q.items[..|items|] == q.items[..|items| + 1][..|items|];
          }
        } else {
          RunFromSpec(rt, actions, ctxObj, props, q.items, q.calls, i + 1);
          assert p == RunFrom(rt, actions, ctxObj, props, q.items, q.calls, i + 1);
          assert |q.items| == |items| + 2;
          assert q.items[..|items|] == q.items[..|items| + 1][..|items|];
          assert p.items[..|items|] == p.items[..|q.items|][..|items|];
        }
      } else {
        assert p == Progress(items, calls, false);
      }
    }

    /** The iterations left before the cap. */
    function Remaining(i: nat): nat {
      if i < maxIterations then maxIterations - i else 0
    }

    /** Once a terminal action runs, the loop stops: the model is called once. */
    lemma TerminalStops(rt: Runtime, actions: Dict<Action>, ctxObj: Value, props: Dict<Value>, items: seq<Entry>, calls: nat, i: nat)
      requires i < maxIterations && MessagesOf(rt, items).Ok?
      requires ShouldTerminate(rt, actions, ResponseText(model.replies(calls)))
      ensures RunFrom(rt, actions, ctxObj, props, items, calls, i).calls == calls + 1
      ensures RunFrom(rt, actions, ctxObj, props, items, calls, i).stopped
    {
      StepFromSpec(rt, actions, ctxObj, props, items, calls);
    }

    /** The pass of the loop body of `run` (game/agent.py:126-145) once no
        capability is present. */
    method RunIteration(rt: Runtime, ctx: ActionContext, memory: Memory) returns (stop: bool)
      modifies memory, model
      ensures var p := StepFrom(rt, registry.actions, VObject(ctx), ctx.properties, old(memory.items), |old(model.log)|);
              memory.items == p.items && |model.log| == p.calls && stop == p.stopped
    {
      var prompt := ConstructPrompt(rt, registry.GetActions(), goals, memory);
      if prompt.Raised? {
        return true;
      }
      stop := Act(rt, ctx, memory, prompt.value);
    }

    /** The rest of a pass once the prompt is built: the model call, the action,
        and the two log entries. */
    method Act(rt: Runtime, ctx: ActionContext, memory: Memory, prompt: Prompt) returns (stop: bool)
      modifies memory, model
      ensures var p := Logged(rt, registry.actions, old(memory.items), ResponseText(model.replies(|old(model.log)|)),
                              Handled(rt, registry.actions, VObject(ctx), ctx.properties, ResponseText(model.replies(|old(model.log)|))),
                              |old(model.log)| + 1);
              memory.items == p.items && |model.log| == p.calls && stop == p.stopped
    {
      ghost var items := memory.items;
      ghost var calls := |model.log|;
      var response := PromptLlmForAction(prompt);
      var result := HandleAgentResponse(rt, ctx, response);
      var updated := UpdateMemory(rt, memory, response, result);
      if updated.Raised? {
        return true;
      }
      stop := ShouldTerminate(rt, registry.actions, response);
    }

    /** The context of a run: the memory, the model and the environment's class
        name, then the caller's properties in their order, overriding those. */
    function ContextBase(memory: Memory): (d: Dict<Value>)
      ensures d.keys == ["memory", "llm", "environment_type"]
    {
      var keys := ["memory", "llm", "environment_type"];
      var d := OrderedMap(keys, map["memory" := VObject(memory), "llm" := VObject(model),
                                     "environment_type" := VStr(EnvironmentName(environment))]);
      assert KeyAt(keys, 0) != KeyAt(keys, 1) && KeyAt(keys, 0) != KeyAt(keys, 2) && KeyAt(keys, 1) != KeyAt(keys, 2);
      d
    }

    /** The properties of a run's context: the base ones, overridden by the caller's. */
    function ContextProps(memory: Memory, props: Option<Dict<Value>>): map<string, Value> {
      ContextBase(memory).m + (if props.Some? then props.value.m else map[])
    }

    /** `run(user_input, memory, action_context_props)`. The task is logged, the
        context built, and the capabilities' `init` hooks called outside the
        `try`: each is passed the agent as an extra argument that no capability
        class declares, so any capability makes `run` raise `TypeError` before the
        loop. Without capabilities, the loop runs as `RunFrom` describes and its
        exceptions never escape. `used` is the memory the run logs to. */
    method Run(rt: Runtime, userInput: string, memory: Option<Memory>, props: Option<Dict<Value>>)
      returns (r: Outcome<Memory>, ghost used: Memory, ghost ctx: ActionContext)
      modifies if memory.Some? then {memory.value} else {}, model
      ensures memory.Some? ==> used == memory.value
      ensures memory.None? ==> fresh(used)
      ensures fresh(ctx)
      ensures ctx.properties.m == ContextProps(used, props)
      ensures capabilities != [] ==>
                && r.Raised? && r.exc.kind == TypeError
                && used.items == (if memory.Some? then old(memory.value.items) else []) + [TaskEntry(rt, userInput)]
                && model.log == old(model.log)
      ensures capabilities == [] ==>
                var p := RunFrom(rt, registry.actions, VObject(ctx), ctx.properties,
                                 (if memory.Some? then old(memory.value.items) else []) + [TaskEntry(rt, userInput)],
                                 |old(model.log)|, 0);
                r == Ok(used) && used.items == p.items && |model.log| == p.calls
    {
      var mem, context := StartRun(rt, userInput, memory, props);
      used, ctx := mem, context;
      if capabilities != [] {
        var c := capabilities[0];
        var bound := Bind(InitOwner(c.kind) + ".init", InitArity(c.kind), 3);
        return Raised(bound.exc), used, ctx;
      }
      ghost var start := mem.items;
      assert |model.log| == |old(model.log)|;
      RunLoop(rt, context, mem);
      r := Ok(mem);
    }

    /** The part of `run` before the capabilities: the memory to use, the task
        logged in it, and the context. */
    method StartRun(rt: Runtime, userInput: string, memory: Option<Memory>, props: Option<Dict<Value>>)
      returns (mem: Memory, ctx: ActionContext)
      modifies if memory.Some? then {memory.value} else {}
      ensures memory.Some? ==> mem == memory.value
      ensures memory.None? ==> fresh(mem)
      ensures fresh(ctx)
      ensures ctx.properties.m == ContextProps(mem, props)
      ensures mem.items == (if memory.Some? then old(memory.value.items) else []) + [TaskEntry(rt, userInput)]
    {
      if memory.Some? {
        mem := memory.value;
      } else {
        mem := new Memory();
      }
      SetCurrentTask(rt, mem, userInput);
      ctx := NewContext(mem, props);
    }

    /** The context of a run on `memory`. */
    method NewContext(memory: Memory, props: Option<Dict<Value>>) returns (ctx: ActionContext)
      ensures fresh(ctx)
      ensures ctx.properties.m == ContextProps(memory, props)
    {
      ctx := new ActionContext(Some(ContextBase(memory)));
      if props.Some? {
        ctx.Update(props.value);
      }
    }

    /** One more iteration of the loop, `q` being its pass. */
    lemma RunFromStep(rt: Runtime, actions: Dict<Action>, ctxObj: Value, props: Dict<Value>, items: seq<Entry>, calls: nat, i: nat,
                      q: Progress)
      requires i < maxIterations && q == StepFrom(rt, actions, ctxObj, props, items, calls)
      ensures RunFrom(rt, actions, ctxObj, props, items, calls, i)
              == if q.stopped then q else RunFrom(rt, actions, ctxObj, props, q.items, q.calls, i + 1)
    {}

    /** The `for` loop of `run` with its `try`: at most `max_iterations` passes,
        leaving early once a pass stops. */
    method RunLoop(rt: Runtime, ctx: ActionContext, memory: Memory)
      modifies memory, model
      ensures var p := RunFrom(rt, registry.actions, VObject(ctx), ctx.properties, old(memory.items), |old(model.log)|, 0);
              memory.items == p.items && |model.log| == p.calls
    {
      var iteration := 0;
      while iteration < maxIterations
        invariant 0 <= iteration
        invariant RunFrom(rt, registry.actions, VObject(ctx), ctx.properties, memory.items, |model.log|, iteration)
                  == RunFrom(rt, registry.actions, VObject(ctx), ctx.properties, old(memory.items), |old(model.log)|, 0)
        decreases maxIterations - iteration
      {
        ghost var items, calls := memory.items, |model.log|;
        var stop := RunIteration(rt, ctx, memory);
        ghost var q := StepFrom(rt, registry.actions, VObject(ctx), ctx.properties, items, calls);
        RunFromStep(rt, registry.actions, VObject(ctx), ctx.properties, items, calls, iteration, q);
        if stop {
          assert RunFrom(rt, registry.actions, VObject(ctx), ctx.properties, old(memory.items), |old(model.log)|, 0) == q;
          return;
        }
        iteration := iteration + 1;
      }
    }
  }

  // ---------------------------------------------------------------- registry

  /** Another agent, reached through the registry: an oracle that, given a task
      and the items of the memory it is run on, yields the items it leaves there,
      or raises; and the items a raising run leaves behind (`Agent.run` with a
      capability logs the task entry before it raises). */
  class SubAgent {
    const behaviour: (string, seq<Entry>) -> Outcome<seq<Entry>>
    const leftBehind: (string, seq<Entry>) -> seq<Entry>

    constructor(behaviour: (string, seq<Entry>) -> Outcome<seq<Entry>>, leftBehind: (string, seq<Entry>) -> seq<Entry>)
      ensures this.behaviour == behaviour && this.leftBehind == leftBehind
    {
      this.behaviour := behaviour;
      this.leftBehind := leftBehind;
    }

    /** `agent_run(user_input=task, memory=memory)`: runs on the given memory, or
        on a fresh one when none is given, and returns that memory; an exception
        propagates and leaves the memory as `leftBehind` says. */
    method Run(task: string, memory: Option<Memory>) returns (r: Outcome<Memory>)
      modifies if memory.Some? then {memory.value} else {}
      ensures memory.Some? ==> behaviour(task, old(memory.value.items)).Ok? ==>
                r == Ok(memory.value) && memory.value.items == behaviour(task, old(memory.value.items)).value
      ensures memory.Some? ==> behaviour(task, old(memory.value.items)).Raised? ==>
                r == Raised(behaviour(task, old(memory.value.items)).exc)
                && memory.value.items == leftBehind(task, old(memory.value.items))
      ensures memory.None? ==> behaviour(task, []).Ok? ==>
                r.Ok? && fresh(r.value) && r.value.items == behaviour(task, []).value
      ensures memory.None? ==> behaviour(task, []).Raised? ==> r == Raised(behaviour(task, []).exc)
    {
      var m: Memory;
      if memory.Some? {
        m := memory.value;
      } else {
        m := new Memory();
      }
      var outcome := behaviour(task, m.items);
      if outcome.Raised? {
        m.items := leftBehind(task, m.items);
        return Raised(outcome.exc);
      }
      m.items := outcome.value;
      r := Ok(m);
    }
  }

  class AgentRegistry {
    var agents: Dict<SubAgent>

    constructor()
      ensures agents == Empty()
    {
      agents := Empty();
    }

    /** `register_agent(name, run_function)`: a later registration under the same
        name replaces the earlier one and keeps its place. */
    method RegisterAgent(name: string, run: SubAgent)
      modifies this
      ensures GetAgent(name) == Some(run)
      ensures forall n :: n != name ==> GetAgent(n) == old(GetAgent(n))
      ensures name in old(agents.m) ==> ListAgents() == old(ListAgents())
      ensures name !in old(agents.m) ==> ListAgents() == old(ListAgents()) + [name]
    {
      agents := Put(agents, name, run);
    }

    /** `get_agent(name)`: `None` for an unknown name. */
    function GetAgent(name: string): (r: Option<SubAgent>)
      reads this
      ensures r.Some? <==> name in agents.m
      ensures r.Some? ==> r.value == agents.m[name]
    {
      Lookup(agents, name)
    }

    /** `list_agents()`: the names in registration order, each once. */
    function ListAgents(): (r: seq<string>)
      reads this
      ensures forall n :: n in r <==> GetAgent(n).Some?
      ensures forall i, j :: 0 <= i < j < |r| ==> r[i] != r[j]
    {
      DistinctKeys(agents);
      agents.keys
    }
  }
}
