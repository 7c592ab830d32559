/** tools/agentTools.py: the tools through which an agent hands work to another
    agent found in the context's agent registry: a plain call on a fresh memory,
    a call whose memory is copied back as thoughts, a hand-off that shares the
    caller's memory, and a call that shares only the memories a model selects. */
module AgentTools {
  import opened Values
  import opened Text
  import opened Memory
  import opened ModelCall
  import opened ActionContexts
  import opened Agents
  import PromptTools

  const NoRegistry: string := "No agent registry found in action context."
  const NoRegistryInContext: string := "No agent registry found in context"
  const NoContent: string := "No content in last memory item."
  const NoProduct: string := "Agent completed but produced no output"
  const NoOutput: string := "No output"
  const NoResult: string := "No result"

  // The texts of the runtime's errors on values of the wrong kind.

  /** The `TypeError` text of `len(v)` on a value without a length. */
  function NoLen(rt: Runtime, v: Value): string {
    "object of type '" + TypeName(rt, v) + "' has no len()"
  }

  /** The `TypeError` text of `set(v)` on a value that is not iterable. */
  function NotIterableValue(rt: Runtime, v: Value): string {
    "'" + TypeName(rt, v) + "' object is not iterable"
  }

  /** `enumerate(d.items)` on a dict iterates the bound method `items`. */
  const MethodNotIterable: string := "'builtin_function_or_method' object is not iterable"

  /** `content[:100]` on a dict looks the slice up as a key, and a slice is not
      hashable. */
  const UnhashableSlice: string := "unhashable type: 'slice'"

  /** The type of the first list or dict in `es`, the first element `set()`
      cannot hash. */
  function FirstUnhashable(es: seq<Value>): string {
    if es == [] then ""
    else if es[0].VList? then "list"
    else if es[0].VDict? then "dict"
    else FirstUnhashable(es[1..])
  }

  /** The four tools; their error messages differ slightly. */
  datatype Tool = CallAgentTool | ReflectionTool | HandOffTool | SelectedContextTool

  // ---------------------------------------------------------------- context values

  function RegistryOf(v: Value): Option<AgentRegistry> {
    if v.VObject? && v.obj is AgentRegistry then Some(v.obj as AgentRegistry) else None
  }

  function RegistrySet(v: Value): set<object> {
    if RegistryOf(v).Some? then {RegistryOf(v).value} else {}
  }

  function MemoryOf(v: Value): Option<Memory> {
    if v.VObject? && v.obj is Memory then Some(v.obj as Memory) else None
  }

  function MemorySet(v: Value): set<object> {
    if MemoryOf(v).Some? then {MemoryOf(v).value} else {}
  }

  /** The items of the memory a context value denotes; none for anything else. */
  function ItemsOf(v: Value): seq<Entry>
    reads MemorySet(v)
  {
    if MemoryOf(v).Some? then MemoryOf(v).value.items else []
  }

  // ---------------------------------------------------------------- finding the agent

  function NoRegistryMessage(tool: Tool): string {
    if tool.SelectedContextTool? then NoRegistryInContext else NoRegistry
  }

  function NotFoundMessage(rt: Runtime, tool: Tool, name: string, available: seq<string>): string {
    match tool
    case CallAgentTool =>
      "Agent '" + name + "' not found in registry. Available: " + rt.show(VList(seq(|available|, i requires 0 <= i < |available| => VStr(available[i]))))
    case SelectedContextTool => "Agent '" + name + "' not found in registry"
    case _ => "Agent '" + name + "' not found in registry."
  }

  /** The opening of every tool: `action_context.get("agent_registry")`, which
      must be true, then `get_agent(agent_name)`, which must find the agent. A
      true value that is not a registry has no `get_agent`. */
  function FindAgent(rt: Runtime, tool: Tool, registry: Value, name: string): (r: Outcome<SubAgent>)
    reads RegistrySet(registry)
    ensures r.Ok? <==> RegistryOf(registry).Some? && RegistryOf(registry).value.GetAgent(name).Some?
    ensures r.Ok? ==> Some(r.value) == RegistryOf(registry).value.GetAgent(name)
    ensures !Truthy(registry) ==> r == Raised(Exc(ValueError, NoRegistryMessage(tool)))
    ensures Truthy(registry) && RegistryOf(registry).None? ==> r == Raised(Exc(AttributeError, NoAttribute(rt, registry, "get_agent")))
    ensures RegistryOf(registry).Some? && r.Raised? ==>
              r.exc == Exc(ValueError, NotFoundMessage(rt, tool, name, RegistryOf(registry).value.ListAgents()))
  {
    if !Truthy(registry) then Raised(Exc(ValueError, NoRegistryMessage(tool)))
    else if RegistryOf(registry).None? then Raised(Exc(AttributeError, NoAttribute(rt, registry, "get_agent")))
    else
      var reg := RegistryOf(registry).value;
      match reg.GetAgent(name)
      case Some(agent) => Ok(agent)
      case None => Raised(Exc(ValueError, NotFoundMessage(rt, tool, name, reg.ListAgents())))
  }

  /** `items[-1].get("content", default)` when there are items, `none` otherwise. */
  function LastContent(items: seq<Entry>, default: string, none: string): (r: Value)
    ensures items == [] ==> r == VStr(none)
    ensures items != [] && "content" in items[|items| - 1] ==> r == items[|items| - 1]["content"]
    ensures items != [] && "content" !in items[|items| - 1] ==> r == VStr(default)
  {
    if items == [] then VStr(none) else Get(items[|items| - 1], "content", VStr(default))
  }

  // ---------------------------------------------------------------- call_agent

  /** What `call_agent` returns once the agent was found, given how its run on a
      fresh memory went: a failure of the run is reported, not raised. */
  function CallAgentResult(name: string, run: Outcome<seq<Entry>>): (r: Entry)
    ensures "success" in r && (r["success"] == VBool(true) <==> run.Ok? && run.value != [])
    ensures "error" in r <==> run.Raised?
    ensures run.Raised? ==> r["error"] == VStr(run.exc.msg)
    ensures run.Ok? && run.value != [] ==>
              && "agent" in r && "memory_items" in r && "result" in r
              && r["agent"] == VStr(name)
              && r["memory_items"] == VInt(|run.value|)
              && r["result"] == LastContent(run.value, NoContent, NoOutput)
    ensures run.Ok? && run.value == [] ==> "result" in r && r["result"] == VStr(NoProduct)
  {
    match run
    case Raised(e) => map["success" := VBool(false), "error" := VStr(e.msg)]
    case Ok(items) =>
      if items != [] then
        map["success" := VBool(true), "agent" := VStr(name),
            "result" := LastContent(items, NoContent, NoOutput), "memory_items" := VInt(|items|)]
      else map["success" := VBool(false), "result" := VStr(NoProduct)]
  }

  /** `call_agent(action_context, agent_name, task)`: runs the agent on a fresh
      memory, so no existing object changes. */
  method CallAgent(rt: Runtime, ctx: ActionContext, name: string, task: string) returns (r: Outcome<Entry>)
    ensures var found := FindAgent(rt, CallAgentTool, ctx.Get("agent_registry", VNone), name);
            && (found.Raised? ==> r == Raised(found.exc))
            && (found.Ok? ==> r == Ok(CallAgentResult(name, found.value.behaviour(task, []))))
    ensures FindAgent(rt, CallAgentTool, ctx.Get("agent_registry", VNone), name).Ok? ==> r.Ok?
  {
    var registry := ctx.Get("agent_registry", VNone);
    var found := FindAgent(rt, CallAgentTool, registry, name);
    if found.Raised? {
      return Raised(found.exc);
    }
    var invoked := new Memory();
    var result := found.value.Run(task, Some(invoked));
    if result.Raised? {
      return Ok(CallAgentResult(name, Raised(result.exc)));
    }
    r := Ok(CallAgentResult(name, Ok(result.value.items)));
  }

  // ---------------------------------------------------------------- call_agent_with_reflection

  /** The record `call_agent_with_reflection` stores for one item of the called
      agent's memory (before `add_memory` stamps it). */
  function Thought(name: string, item: Entry): Entry {
    map["type" := VStr(name + "_thought"), "content" := Get(item, "content", VStr("")),
        "timestamp" := Get(item, "timestamp", VNone), "agent_source" := VStr(name)]
  }

  /** The entries the caller's memory gains from the called agent's `items`. */
  function Thoughts(name: string, items: seq<Entry>, clock: Value): (r: seq<Entry>)
    ensures |r| == |items|
    ensures forall i :: 0 <= i < |items| ==> r[i] == Thought(name, items[i])["timestamp" := clock]
    decreases |items|
  {
    if items == [] then []
    else Thoughts(name, items[..|items| - 1], clock) + [Thought(name, items[|items| - 1])["timestamp" := clock]]
  }

  /** Every thought names the agent it came from and carries that item's content,
      with the time of copying as its timestamp. */
  lemma ThoughtsProvenance(name: string, items: seq<Entry>, clock: Value, i: int)
    requires 0 <= i < |items|
    ensures var t := Thoughts(name, items, clock)[i];
            && t["agent_source"] == VStr(name)
            && t["type"] == VStr(name + "_thought")
            && t["content"] == Get(items[i], "content", VStr(""))
            && t["timestamp"] == clock
  {}

  /** The loop of `call_agent_with_reflection`: one `add_memory` per item, counted. */
  method AppendThoughts(memory: Memory, name: string, items: seq<Entry>, clock: Value) returns (added: int)
    modifies memory
    ensures memory.items == old(memory.items) + Thoughts(name, items, clock)
    ensures added == |items|
  {
    added := 0;
    var i := 0;
    while i < |items|
      invariant 0 <= i <= |items| && added == i
      invariant memory.items == old(memory.items) + Thoughts(name, items[..i], clock)
    {
      assert items[..i + 1][..i] == items[..i];
      memory.AddMemory(Thought(name, items[i]), clock);
      added := added + 1;
      i := i + 1;
    }
    assert items[..i] == items;
  }

  function ReflectionResult(name: string, items: seq<Entry>, added: int): Entry {
    map["success" := VBool(true), "agent" := VStr(name), "result" := LastContent(items, NoContent, NoOutput),
        "memories_added" := VInt(added), "reasoning_shared" := VBool(true)]
  }

  /** What `call_agent_with_reflection` does once the agent was found, when the
      context's memory entry is `caller` holding `items`: the result and the
      caller's items afterwards. */
  function Reflection(rt: Runtime, agent: SubAgent, name: string, task: string, caller: Value, items: seq<Entry>)
    : (r: (Outcome<Entry>, seq<Entry>))
    ensures r.0.Raised? ==> r.1 == items
    ensures r.0.Ok? <==>
              && agent.behaviour(task, []).Ok?
              && !(Truthy(caller) && MemoryOf(caller).None? && agent.behaviour(task, []).value != [])
    ensures r.0.Ok? ==>
              && |items| <= |r.1| && r.1[..|items|] == items
              && "memories_added" in r.0.value && r.0.value["memories_added"] == VInt(|r.1| - |items|)
  {
    match agent.behaviour(task, [])
    case Raised(e) => (Raised(e), items)
    case Ok(run) =>
      if Truthy(caller) && MemoryOf(caller).None? && run != [] then (Raised(Exc(AttributeError, NoAttribute(rt, caller, "add_memory"))), items)
      else if MemoryOf(caller).Some? then (Ok(ReflectionResult(name, run, |run|)), items + Thoughts(name, run, rt.clock))
      else (Ok(ReflectionResult(name, run, 0)), items)
  }

  /** `call_agent_with_reflection(action_context, agent_name, task)`: the agent
      runs on a fresh memory (its failure propagates); when the caller's memory is
      true every item comes back as a thought. A true memory entry that is not a
      memory fails at the first `add_memory`. */
  method CallAgentWithReflection(rt: Runtime, ctx: ActionContext, name: string, task: string) returns (r: Outcome<Entry>)
    modifies MemorySet(ctx.Get("memory", VNone))
    ensures var found := FindAgent(rt, ReflectionTool, ctx.Get("agent_registry", VNone), name);
            var caller := ctx.Get("memory", VNone);
            && (found.Raised? ==> r == Raised(found.exc) && ItemsOf(caller) == old(ItemsOf(caller)))
            && (found.Ok? ==> (r, ItemsOf(caller)) == Reflection(rt, found.value, name, task, caller, old(ItemsOf(caller))))
  {
    var registry := ctx.Get("agent_registry", VNone);
    var found := FindAgent(rt, ReflectionTool, registry, name);
    if found.Raised? {
      return Raised(found.exc);
    }
    r := Reflect(rt, ctx, found.value, name, task);
  }

  /** The body of `call_agent_with_reflection` after `get_agent`. */
  method Reflect(rt: Runtime, ctx: ActionContext, agent: SubAgent, name: string, task: string) returns (r: Outcome<Entry>)
    modifies MemorySet(ctx.Get("memory", VNone))
    ensures var caller := ctx.Get("memory", VNone);
            (r, ItemsOf(caller)) == Reflection(rt, agent, name, task, caller, old(ItemsOf(caller)))
  {
    var caller := ctx.Get("memory", VNone);
    assert ctx !in MemorySet(caller);
    var invoked := new Memory();
    var result := agent.Run(task, Some(invoked));
    assert ItemsOf(caller) == old(ItemsOf(caller));
    if result.Raised? {
      return Raised(result.exc);
    }
    var items := result.value.items;
    var added := 0;
    if Truthy(caller) {
      if MemoryOf(caller).None? {
        if items != [] {
          return Raised(Exc(AttributeError, NoAttribute(rt, caller, "add_memory")));
        }
      } else {
        added := AppendThoughts(MemoryOf(caller).value, name, items, rt.clock);
      }
    }
    r := Ok(ReflectionResult(name, items, added));
  }

  // ---------------------------------------------------------------- hand_off_to_agent

  function HandOffResult(name: string, items: seq<Entry>, memoryId: Value, count: int): Entry {
    map["success" := VBool(true), "agent" := VStr(name), "result" := LastContent(items, NoResult, NoOutput),
        "memory_id" := memoryId, "shared_memory" := VBool(true), "memory_items" := VInt(count)]
  }

  /** `hand_off_to_agent(action_context, agent_name, task)`: the agent runs on the
      caller's own memory (a fresh one when the entry is false), and the memory's
      items are whatever the agent left there, even when it raised. */
  method HandOffToAgent(rt: Runtime, ctx: ActionContext, name: string, task: string) returns (r: Outcome<Entry>)
    modifies MemorySet(ctx.Get("memory", VNone))
    ensures var found := FindAgent(rt, HandOffTool, ctx.Get("agent_registry", VNone), name);
            found.Raised? ==> r == Raised(found.exc)
    ensures var found := FindAgent(rt, HandOffTool, ctx.Get("agent_registry", VNone), name);
            var current := ctx.Get("memory", VNone);
            found.Raised? || MemoryOf(current).None? ==> ItemsOf(current) == old(ItemsOf(current))
    ensures var found := FindAgent(rt, HandOffTool, ctx.Get("agent_registry", VNone), name);
            var current := ctx.Get("memory", VNone);
            found.Ok? && Truthy(current) && MemoryOf(current).None? ==> r == Raised(Exc(AttributeError, NoAttribute(rt, current, "add_memory")))
    ensures var found := FindAgent(rt, HandOffTool, ctx.Get("agent_registry", VNone), name);
            var current := ctx.Get("memory", VNone);
            found.Ok? && MemoryOf(current).Some? ==>
              var run := found.value.behaviour(task, old(ItemsOf(current)));
              && (run.Raised? ==> r == Raised(run.exc) && ItemsOf(current) == found.value.leftBehind(task, old(ItemsOf(current))))
              && (run.Ok? ==>
                    && ItemsOf(current) == run.value
                    && r == Ok(HandOffResult(name, run.value, VInt(rt.identity(MemoryOf(current).value)), |run.value|)))
    ensures var found := FindAgent(rt, HandOffTool, ctx.Get("agent_registry", VNone), name);
            var current := ctx.Get("memory", VNone);
            found.Ok? && !Truthy(current) ==>
              var run := found.value.behaviour(task, []);
              && (run.Raised? ==> r == Raised(run.exc))
              && (run.Ok? ==> r.Ok? && "memory_id" in r.value && r.value == HandOffResult(name, run.value, r.value["memory_id"], 0))
  {
    var registry := ctx.Get("agent_registry", VNone);
    var found := FindAgent(rt, HandOffTool, registry, name);
    if found.Raised? {
      return Raised(found.exc);
    }
    var current := ctx.Get("memory", VNone);
    var memory: Option<Memory> := None;
    if Truthy(current) {
      if MemoryOf(current).None? {
        return Raised(Exc(AttributeError, NoAttribute(rt, current, "add_memory")));
      }
      memory := MemoryOf(current);
    }
    var result := found.value.Run(task, memory);
    if result.Raised? {
      return Raised(result.exc);
    }
    var items := result.value.items;
    r := Ok(HandOffResult(name, items, VInt(rt.identity(result.value)), if Truthy(current) then |items| else 0));
  }

  // ---------------------------------------------------------------- call_agent_with_selected_context

  const SelectionIntro: string := "Review these memories and select the ones relevant for this task:\n\nTask: "
  const SelectionAgentLine: string := "\nAgent to call: "
  const SelectionMemories: string := "\n\nAvailable Memories:\n"
  const SelectionClosing: string :=
    "\n\nSelect memories that provide important context, requirements, constraints, or background information for this specific task. Focus on relevance and avoid redundant information.\n"
  const SelectorSource: string := "memory_selector"
  const SelectionLabel: string := "Memory selection for "

  /** The identifier `call_agent_with_selected_context` gives the memory at `i`. */
  function MemId(i: nat): string {
    "mem_" + NatToString(i)
  }

  /** Different positions get different identifiers. */
  lemma MemIdInjective(i: nat, j: nat)
    requires MemId(i) == MemId(j)
    ensures i == j
  {
    assert NatToString(i) == MemId(i)[4..] == MemId(j)[4..] == NatToString(j);
    NatToStringInjective(i, j);
  }

  /** `memory_with_ids`: each item with its identifier added (replacing any it had). */
  function Tag(items: seq<Entry>): (r: seq<Entry>)
    ensures |r| == |items|
  {
    seq(|items|, i requires 0 <= i < |items| => items[i]["memory_id" := VStr(MemId(i))])
  }

  /** Every tagged item keeps its own fields and no two share an identifier. */
  lemma TagSpec(items: seq<Entry>, i: int, j: int)
    requires 0 <= i < |items| && 0 <= j < |items|
    ensures "memory_id" in Tag(items)[i] && Tag(items)[i] - {"memory_id"} == items[i] - {"memory_id"}
    ensures i != j ==> Tag(items)[i]["memory_id"] != Tag(items)[j]["memory_id"]
  {
    if i != j && Tag(items)[i]["memory_id"] == Tag(items)[j]["memory_id"] {
      MemIdInjective(i, j);
    }
  }

  /** The loop that builds `memory_with_ids`. */
  method TagMemories(items: seq<Entry>) returns (tagged: seq<Entry>)
    ensures tagged == Tag(items)
  {
    tagged := [];
    for i := 0 to |items|
      invariant tagged == Tag(items)[..i]
    {
      tagged := tagged + [items[i]["memory_id" := VStr(MemId(i))]];
    }
  }

  /** One line of the summary shown to the selecting model. `len()` of the
      content must exist; a content longer than 100 is cut to its first 100
      elements, which a dict cannot be. */
  function MemoryLine(rt: Runtime, item: Entry): (r: Outcome<string>)
    ensures r.Ok? ==> StartsWith(r.value, "Memory " + Str(rt, Get(item, "memory_id", VNone)) + ": ")
    ensures var c := Get(item, "content", VStr(""));
            c.VStr? ==> r.Ok? && (|c.s| <= 100 ==> r.value == "Memory " + Str(rt, Get(item, "memory_id", VNone)) + ": " + c.s)
    ensures var c := Get(item, "content", VStr(""));
            r.Raised? <==> !(c.VStr? || c.VList? || c.VDict?) || (c.VDict? && |c.fields| > 100)
  {
    var head := "Memory " + Str(rt, Get(item, "memory_id", VNone)) + ": ";
    var content := Get(item, "content", VStr(""));
    match content
    case VStr(s) => Ok(if |s| > 100 then head + s[..100] + "..." else head + s)
    case VList(es) => Ok(if |es| > 100 then head + Str(rt, VList(es[..100])) + "..." else head + Str(rt, content))
    case VDict(m) => if |m| > 100 then Raised(Exc(TypeError, UnhashableSlice)) else Ok(head + Str(rt, content))
    case _ => Raised(Exc(TypeError, NoLen(rt, content)))
  }

  /** The lines of all items, or the first line's failure. */
  function MemoryLines(rt: Runtime, items: seq<Entry>): (r: Outcome<seq<string>>)
    ensures r.Ok? <==> forall i :: 0 <= i < |items| ==> MemoryLine(rt, items[i]).Ok?
    ensures r.Ok? ==> |r.value| == |items| && forall i :: 0 <= i < |items| ==> MemoryLine(rt, items[i]) == Ok(r.value[i])
    decreases |items|
  {
    if items == [] then Ok([])
    else match MemoryLine(rt, items[0])
      case Raised(e) => Raised(e)
      case Ok(line) =>
        match MemoryLines(rt, items[1..])
        case Raised(e) => Raised(e)
        case Ok(rest) =>
          assert forall i :: 1 <= i < |items| ==> items[i] == items[1..][i - 1];
          Ok([line] + rest)
  }

  /** `memory_text`: the lines joined by newlines. */
  function MemoryText(rt: Runtime, items: seq<Entry>): Outcome<string> {
    match MemoryLines(rt, items)
    case Raised(e) => Raised(e)
    case Ok(lines) => Ok(Join(lines, "\n"))
  }

  function SelectionPrompt(task: string, name: string, memoryText: string): string {
    SelectionIntro + task + SelectionAgentLine + name + SelectionMemories + memoryText + SelectionClosing
  }

  /** The schema the selecting model must answer in. */
  const SelectionSchema: Value :=
    VDict(map[
      "type" := VStr("object"),
      "properties" := VDict(map[
        "selected_memories" := VDict(map[
          "type" := VStr("array"),
          "items" := VDict(map["type" := VStr("string"), "description" := VStr("ID of a memory to include")])]),
        "reasoning" := VDict(map[
          "type" := VStr("string"),
          "description" := VStr("Explanation of why these memories were selected")])]),
      "required" := VList([VStr("selected_memories"), VStr("reasoning")])])

  /** The schema holds no object, so `json.dumps` renders it. */
  lemma SelectionSchemaSerializable()
    ensures Serializable(SelectionSchema)
  {
    var item := VDict(map["type" := VStr("string"), "description" := VStr("ID of a memory to include")]);
    assert Serializable(item);
    var selected := VDict(map["type" := VStr("array"), "items" := item]);
    assert Serializable(selected);
    var reasoning := VDict(map["type" := VStr("string"), "description" := VStr("Explanation of why these memories were selected")]);
    assert Serializable(reasoning);
    var properties := VDict(map["selected_memories" := selected, "reasoning" := reasoning]);
    assert Serializable(properties);
    var required := VList([VStr("selected_memories"), VStr("reasoning")]);
    assert Serializable(required);
    assert SelectionSchema == VDict(map["type" := VStr("object"), "properties" := properties, "required" := required]);
  }

  predicate Hashable(v: Value) {
    !(v.VList? || v.VDict?)
  }

  /** `set(selection["selected_memories"])`, keeping the strings, the only
      members an identifier can equal: a list's elements (none of which may be a
      list or a dict), a dict's keys or a string's characters. */
  function SelectedIds(rt: Runtime, v: Value): (r: Outcome<set<string>>)
    ensures v.VList? ==> (r.Ok? <==> forall i :: 0 <= i < |v.elems| ==> Hashable(v.elems[i]))
    ensures v.VList? && r.Ok? ==> forall s :: s in r.value <==> VStr(s) in v.elems
    ensures v.VDict? ==> r == Ok(v.fields.Keys)
    ensures r.Raised? ==> r.exc.kind == TypeError
    ensures !(v.VList? || v.VDict? || v.VStr?) ==> r.Raised?
  {
    match v
    case VList(es) =>
      if exists i :: 0 <= i < |es| && !Hashable(es[i]) then Raised(Exc(TypeError, Unhashable + ": '" + FirstUnhashable(es) + "'"))
      else
        var ids := set i | 0 <= i < |es| && es[i].VStr? :: es[i].s;
        assert forall s :: VStr(s) in es ==> s in ids by {
          forall s | VStr(s) in es
            ensures s in ids
          {
            var i :| 0 <= i < |es| && es[i] == VStr(s);
          }
        }
        Ok(ids)
    case VDict(m) => Ok(m.Keys)
    case VStr(s) => Ok(set i | 0 <= i < |s| :: [s[i]])
    case _ => Raised(Exc(TypeError, NotIterableValue(rt, v)))
  }

  /** The positions, in order, of the items below `n` whose identifier was selected. */
  function SelectedIndices(n: nat, ids: set<string>): seq<nat> {
    if n == 0 then [] else SelectedIndices(n - 1, ids) + (if MemId(n - 1) in ids then [n - 1] else [])
  }

  lemma {:induction false} SelectedIndicesSpec(n: nat, ids: set<string>)
    ensures forall i: nat :: i in SelectedIndices(n, ids) <==> i < n && MemId(i) in ids
    ensures forall a, b :: 0 <= a < b < |SelectedIndices(n, ids)| ==> SelectedIndices(n, ids)[a] < SelectedIndices(n, ids)[b]
  {
    if n > 0 {
      SelectedIndicesSpec(n - 1, ids);
      var prev := SelectedIndices(n - 1, ids);
      forall a | 0 <= a < |prev|
        ensures prev[a] < n - 1
      {
        assert prev[a] in prev;
      }
    }
  }

  /** The items of `filtered_memory`: the selected items in their order, without
      an identifier, stamped by `add_memory`. */
  function Filtered(items: seq<Entry>, ids: set<string>, clock: Value): seq<Entry>
    decreases |items|
  {
    if items == [] then []
    else
      var n := |items| - 1;
      Filtered(items[..n], ids, clock) + (if MemId(n) in ids then [(items[n] - {"memory_id"})["timestamp" := clock]] else [])
  }

  /** The filtered memory holds exactly the selected items: the `k`-th is the
      item at the `k`-th selected position. */
  lemma {:induction false} FilteredSpec(items: seq<Entry>, ids: set<string>, clock: Value)
    ensures |Filtered(items, ids, clock)| == |SelectedIndices(|items|, ids)|
    ensures forall k :: 0 <= k < |Filtered(items, ids, clock)| ==>
              SelectedIndices(|items|, ids)[k] < |items|
              && Filtered(items, ids, clock)[k] == (items[SelectedIndices(|items|, ids)[k]] - {"memory_id"})["timestamp" := clock]
    decreases |items|
  {
    if items != [] {
      var n := |items| - 1;
      FilteredSpec(items[..n], ids, clock);
      assert forall k :: 0 <= k < |SelectedIndices(n, ids)| ==> items[..n][SelectedIndices(n, ids)[k]] == items[SelectedIndices(n, ids)[k]];
    }
  }

  /** The loop that fills `filtered_memory` from `memory_with_ids`. */
  method FilterMemories(filtered: Memory, tagged: seq<Entry>, ids: set<string>, clock: Value, ghost items: seq<Entry>)
    requires tagged == Tag(items)
    modifies filtered
    ensures filtered.items == old(filtered.items) + Filtered(items, ids, clock)
  {
    for i := 0 to |tagged|
      invariant filtered.items == old(filtered.items) + Filtered(items[..i], ids, clock)
    {
      assert items[..i + 1][..i] == items[..i];
      var item := tagged[i];
      if item["memory_id"] in (set id | id in ids :: VStr(id)) {
        var copy := item - {"memory_id"};
        assert copy == items[i] - {"memory_id"};
        filtered.AddMemory(copy, clock);
      }
    }
    assert items[..|tagged|] == items;
  }

  /** The entries the caller's memory gains from the called agent's `items`. */
  function Shared(name: string, items: seq<Entry>, clock: Value): (r: seq<Entry>)
    ensures |r| == |items|
    ensures forall i :: 0 <= i < |items| ==> r[i] == items[i]["agent_source" := VStr(name)]["timestamp" := clock]
    decreases |items|
  {
    if items == [] then []
    else Shared(name, items[..|items| - 1], clock) + [items[|items| - 1]["agent_source" := VStr(name)]["timestamp" := clock]]
  }

  /** The loop that copies the called agent's items back, each marked as its. */
  method ShareResults(memory: Memory, name: string, items: seq<Entry>, clock: Value)
    modifies memory
    ensures memory.items == old(memory.items) + Shared(name, items, clock)
  {
    for i := 0 to |items|
      invariant memory.items == old(memory.items) + Shared(name, items[..i], clock)
    {
      assert items[..i + 1][..i] == items[..i];
      memory.AddMemory(items[i]["agent_source" := VStr(name)], clock);
    }
    assert items[..|items|] == items;
  }

  /** The note recording why the memories were chosen. */
  function ReasoningEntry(rt: Runtime, name: string, reasoning: Value): Entry {
    map["type" := VStr("system"), "content" := VStr(SelectionLabel + name + ": " + Str(rt, reasoning)),
        "agent_source" := VStr(SelectorSource)]
  }

  function SelectedResult(name: string, items: seq<Entry>, shared: int, reasoning: Value, total: int): Entry {
    map["success" := VBool(true), "agent" := VStr(name), "result" := LastContent(items, NoResult, NoOutput),
        "shared_memories" := VInt(shared), "selection_reasoning" := reasoning,
        "total_memories_available" := VInt(total), "optimization" := VStr("memory_selective")]
  }

  /** What happens once the model's selection (or its failure) is in: the result
      and the caller's items afterwards. The agent runs on the filtered memory;
      `shared_memories` is the size of that memory after the run. */
  function AfterSelection(rt: Runtime, agent: SubAgent, name: string, task: string, items: seq<Entry>,
                          selection: Outcome<Value>): (r: (Outcome<Entry>, seq<Entry>))
    ensures r.0.Raised? ==> r.1 == items
  {
    match selection
    case Raised(e) => (Raised(e), items)
    case Ok(sel) =>
      match GetItem(sel, "selected_memories")
      case Raised(e) => (Raised(e), items)
      case Ok(chosen) =>
        match SelectedIds(rt, chosen)
        case Raised(e) => (Raised(e), items)
        case Ok(ids) =>
          match agent.behaviour(task, Filtered(items, ids, rt.clock))
          case Raised(e) => (Raised(e), items)
          case Ok(after) =>
            match GetItem(sel, "reasoning")
            case Raised(e) => (Raised(e), items)
            case Ok(reasoning) =>
              var shared := Shared(name, after, rt.clock);
              (Ok(SelectedResult(name, after, |after|, reasoning, |items|)),
               items + [ReasoningEntry(rt, name, reasoning)["timestamp" := rt.clock]] + shared)
  }

  /** When every step succeeds: the caller's memory keeps its items, gains the
      entry giving the reasoning for the selection and then the called agent's items, each marked as coming
      from it; the result counts the agent's items and the caller's. */
  lemma SelectionSucceeds(rt: Runtime, agent: SubAgent, name: string, task: string, items: seq<Entry>,
                          selection: Value, ids: set<string>, after: seq<Entry>)
    requires GetItem(selection, "selected_memories").Ok?
    requires SelectedIds(rt, GetItem(selection, "selected_memories").value) == Ok(ids)
    requires agent.behaviour(task, Filtered(items, ids, rt.clock)) == Ok(after)
    requires GetItem(selection, "reasoning").Ok?
    ensures var r := AfterSelection(rt, agent, name, task, items, Ok(selection));
            && r.0.Ok?
            && |r.1| == |items| + 1 + |after|
            && r.1[..|items|] == items
            && r.1[|items|] == ReasoningEntry(rt, name, selection.fields["reasoning"])["timestamp" := rt.clock]
            && (forall i :: |items| < i < |r.1| ==> r.1[i]["agent_source"] == VStr(name))
            && r.0.value["shared_memories"] == VInt(|after|)
            && r.0.value["total_memories_available"] == VInt(|items|)
            && r.0.value["selection_reasoning"] == selection.fields["reasoning"]
  {
    var r := AfterSelection(rt, agent, name, task, items, Ok(selection));
    var shared := Shared(name, after, rt.clock);
    assert r.1 == items + [ReasoningEntry(rt, name, selection.fields["reasoning"])["timestamp" := rt.clock]] + shared;
    forall i | |items| < i < |r.1|
      ensures r.1[i]["agent_source"] == VStr(name)
    {
      assert r.1[i] == shared[i - |items| - 1];
    }
  }

  /** Everything after the agent was found and the caller's memory turned out to
      hold `items`: the result, the caller's items afterwards and the number of
      model calls made. */
  function SelectedContext(rt: Runtime, agent: SubAgent, name: string, task: string, current: Value,
                           items: seq<Entry>, llm: Value, calls: nat): (r: (Outcome<Entry>, seq<Entry>, nat))
    ensures r.0.Raised? ==> r.1 == items
    ensures !Truthy(current) || (MemoryOf(current).Some? && items == []) ==>
              r == (Ok(CallAgentResult(name, agent.behaviour(task, []))), items, 0)
    ensures r.2 > 0 ==> MemoryOf(current).Some? && items != [] && MemoryText(rt, Tag(items)).Ok?
  {
    if !Truthy(current) then (Ok(CallAgentResult(name, agent.behaviour(task, []))), items, 0)
    else if MemoryOf(current).None? then
      (Raised(if current.VDict? then Exc(TypeError, MethodNotIterable) else Exc(AttributeError, NoAttribute(rt, current, "items"))), items, 0)
    else if items == [] then (Ok(CallAgentResult(name, agent.behaviour(task, []))), items, 0)
    else match MemoryText(rt, Tag(items))
      case Raised(e) => (Raised(e), items, 0)
      case Ok(_) =>
        var after := AfterSelection(rt, agent, name, task, items, PromptTools.JsonOutcome(rt, llm, calls));
        (after.0, after.1, PromptTools.JsonCalls(rt, llm, calls))
  }

  /** The part of `call_agent_with_selected_context` after `get_agent` for a
      caller's memory that has items. */
  method SelectAndCall(rt: Runtime, ctx: ActionContext, agent: SubAgent, memory: Memory, name: string, task: string)
    returns (r: Outcome<Entry>)
    requires memory.items != []
    modifies memory, ModelSet(ctx.Get("llm", VNone))
    ensures var llm := ctx.Get("llm", VNone);
            var text := MemoryText(rt, Tag(old(memory.items)));
            && (text.Raised? ==> r == Raised(text.exc) && memory.items == old(memory.items)
                                 && PromptTools.CallCount(llm) == old(PromptTools.CallCount(llm)))
            && (text.Ok? ==>
                  var after := AfterSelection(rt, agent, name, task, old(memory.items),
                                              PromptTools.JsonOutcome(rt, llm, old(PromptTools.CallCount(llm))));
                  && r == after.0 && memory.items == after.1
                  && PromptTools.CallCount(llm) == old(PromptTools.CallCount(llm)) + PromptTools.JsonCalls(rt, llm, old(PromptTools.CallCount(llm))))
  {
    var tagged := TagMemories(memory.items);
    var text := MemoryText(rt, tagged);
    if text.Raised? {
      return Raised(text.exc);
    }
    r := AskAndUse(rt, ctx, agent, memory, name, task, tagged, text.value);
  }

  /** Asks the model which of the rendered memories to share, then uses its answer. */
  method AskAndUse(rt: Runtime, ctx: ActionContext, agent: SubAgent, memory: Memory, name: string, task: string,
                   tagged: seq<Entry>, text: string) returns (r: Outcome<Entry>)
    requires tagged == Tag(memory.items)
    modifies memory, ModelSet(ctx.Get("llm", VNone))
    ensures var llm := ctx.Get("llm", VNone);
            var after := AfterSelection(rt, agent, name, task, old(memory.items),
                                        PromptTools.JsonOutcome(rt, llm, old(PromptTools.CallCount(llm))));
            && r == after.0 && memory.items == after.1
            && PromptTools.CallCount(llm) == old(PromptTools.CallCount(llm)) + PromptTools.JsonCalls(rt, llm, old(PromptTools.CallCount(llm)))
  {
    SelectionSchemaSerializable();
    ghost var llm := ctx.Get("llm", VNone);
    assert memory !in ModelSet(llm) && ctx !in ModelSet(llm);
    var selection := PromptTools.PromptLlmForJson(rt, ctx, SelectionSchema, SelectionPrompt(task, name, text));
    ghost var calls := PromptTools.CallCount(llm);
    r := UseSelection(rt, agent, memory, name, task, tagged, selection);
    assert PromptTools.CallCount(llm) == calls;
  }

  /** The part after the selection arrives. */
  method UseSelection(rt: Runtime, agent: SubAgent, memory: Memory, name: string, task: string,
                      tagged: seq<Entry>, selection: Outcome<Value>) returns (r: Outcome<Entry>)
    requires tagged == Tag(memory.items)
    modifies memory
    ensures (r, memory.items) == AfterSelection(rt, agent, name, task, old(memory.items), selection)
  {
    if selection.Raised? {
      return Raised(selection.exc);
    }
    var chosen := GetItem(selection.value, "selected_memories");
    if chosen.Raised? {
      return Raised(chosen.exc);
    }
    var ids := SelectedIds(rt, chosen.value);
    if ids.Raised? {
      return Raised(ids.exc);
    }
    var filtered := new Memory();
    FilterMemories(filtered, tagged, ids.value, rt.clock, memory.items);
    ghost var selected := filtered.items;
    assert selected == Filtered(memory.items, ids.value, rt.clock);
    var result := agent.Run(task, Some(filtered));
    if result.Raised? {
      return Raised(result.exc);
    }
    assert agent.behaviour(task, selected) == Ok(filtered.items);
    var reasoning := GetItem(selection.value, "reasoning");
    if reasoning.Raised? {
      return Raised(reasoning.exc);
    }
    memory.AddMemory(ReasoningEntry(rt, name, reasoning.value), rt.clock);
    ShareResults(memory, name, result.value.items, rt.clock);
    r := Ok(SelectedResult(name, result.value.items, |filtered.items|, reasoning.value, |tagged|));
  }

  /** `call_agent_with_selected_context(action_context, agent_name, task)`. */
  method CallAgentWithSelectedContext(rt: Runtime, ctx: ActionContext, name: string, task: string) returns (r: Outcome<Entry>)
    modifies MemorySet(ctx.Get("memory", VNone)), ModelSet(ctx.Get("llm", VNone))
    ensures var found := FindAgent(rt, SelectedContextTool, ctx.Get("agent_registry", VNone), name);
            var current, llm := ctx.Get("memory", VNone), ctx.Get("llm", VNone);
            found.Raised? ==>
              && r == Raised(found.exc)
              && ItemsOf(current) == old(ItemsOf(current))
              && PromptTools.CallCount(llm) == old(PromptTools.CallCount(llm))
    ensures var found := FindAgent(rt, SelectedContextTool, ctx.Get("agent_registry", VNone), name);
            var current, llm := ctx.Get("memory", VNone), ctx.Get("llm", VNone);
            found.Ok? ==>
              var spec := SelectedContext(rt, found.value, name, task, current, old(ItemsOf(current)),
                                          llm, old(PromptTools.CallCount(llm)));
              && r == spec.0
              && ItemsOf(current) == spec.1
              && PromptTools.CallCount(llm) == old(PromptTools.CallCount(llm)) + spec.2
  {
    var registry := ctx.Get("agent_registry", VNone);
    var found := FindAgent(rt, SelectedContextTool, registry, name);
    if found.Raised? {
      return Raised(found.exc);
    }
    FindAgentAnyTool(rt, SelectedContextTool, CallAgentTool, registry, name);
    ghost var touched := MemorySet(ctx.Get("memory", VNone)) + ModelSet(ctx.Get("llm", VNone));
    assert ctx !in touched && RegistrySet(registry) !! touched;
    r := SelectFor(rt, ctx, found.value, name, task);
  }

  /** The tools differ only in their messages: all find the same agents. */
  lemma FindAgentAnyTool(rt: Runtime, tool: Tool, other: Tool, registry: Value, name: string)
    requires FindAgent(rt, tool, registry, name).Ok?
    ensures FindAgent(rt, other, registry, name) == FindAgent(rt, tool, registry, name)
  {}

  /** The body of `call_agent_with_selected_context` after `get_agent`. */
  method SelectFor(rt: Runtime, ctx: ActionContext, agent: SubAgent, name: string, task: string) returns (r: Outcome<Entry>)
    requires FindAgent(rt, CallAgentTool, ctx.Get("agent_registry", VNone), name) == Ok(agent)
    modifies MemorySet(ctx.Get("memory", VNone)), ModelSet(ctx.Get("llm", VNone))
    ensures var current, llm := ctx.Get("memory", VNone), ctx.Get("llm", VNone);
            var spec := SelectedContext(rt, agent, name, task, current, old(ItemsOf(current)), llm, old(PromptTools.CallCount(llm)));
            && r == spec.0
            && ItemsOf(current) == spec.1
            && PromptTools.CallCount(llm) == old(PromptTools.CallCount(llm)) + spec.2
  {
    var current := ctx.Get("memory", VNone);
    ghost var llm := ctx.Get("llm", VNone);
    assert ctx !in MemorySet(current) && ctx !in ModelSet(llm);
    if !Truthy(current) {
      r := CallAgent(rt, ctx, name, task);
      return;
    }
    if MemoryOf(current).None? {
      if current.VDict? {
        return Raised(Exc(TypeError, MethodNotIterable));
      }
      return Raised(Exc(AttributeError, NoAttribute(rt, current, "items")));
    }
    var memory := MemoryOf(current).value;
    assert ItemsOf(current) == memory.items && MemorySet(current) == {memory};
    r := SelectWithMemory(rt, ctx, agent, memory, name, task);
  }

  /** `SelectFor` once the caller's memory is known to be a `Memory`. */
  method SelectWithMemory(rt: Runtime, ctx: ActionContext, agent: SubAgent, memory: Memory, name: string, task: string)
    returns (r: Outcome<Entry>)
    requires FindAgent(rt, CallAgentTool, ctx.Get("agent_registry", VNone), name) == Ok(agent)
    requires MemoryOf(ctx.Get("memory", VNone)) == Some(memory)
    modifies memory, ModelSet(ctx.Get("llm", VNone))
    ensures var llm := ctx.Get("llm", VNone);
            var spec := SelectedContext(rt, agent, name, task, ctx.Get("memory", VNone), old(memory.items), llm, old(PromptTools.CallCount(llm)));
            && r == spec.0
            && memory.items == spec.1
            && PromptTools.CallCount(llm) == old(PromptTools.CallCount(llm)) + spec.2
  {
    ghost var llm := ctx.Get("llm", VNone);
    assert ctx !in ModelSet(llm);
    if memory.items == [] {
      r := CallAgent(rt, ctx, name, task);
      return;
    }
    SelectedContextWithItems(rt, agent, name, task, ctx.Get("memory", VNone), memory.items, llm, PromptTools.CallCount(llm));
    r := SelectAndCall(rt, ctx, agent, memory, name, task);
  }

  /** For a memory with items, the selection is driven by the rendered memories. */
  lemma SelectedContextWithItems(rt: Runtime, agent: SubAgent, name: string, task: string, current: Value,
                                 items: seq<Entry>, llm: Value, calls: nat)
    requires MemoryOf(current).Some? && items != []
    ensures var text := MemoryText(rt, Tag(items));
            var spec := SelectedContext(rt, agent, name, task, current, items, llm, calls);
            && (text.Raised? ==> spec == (Raised(text.exc), items, 0))
            && (text.Ok? ==>
                  var after := AfterSelection(rt, agent, name, task, items, PromptTools.JsonOutcome(rt, llm, calls));
                  spec == (after.0, after.1, PromptTools.JsonCalls(rt, llm, calls)))
  {}
}
