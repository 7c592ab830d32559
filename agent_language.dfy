/** game/agentLanguage.py: `AgentFunctionCallingActionLanguage`, which turns goals,
    memory and actions into a function-calling prompt and reads the model's reply
    back as a tool invocation. */
module AgentLanguage {
  import opened Values
  import opened Text
  import opened Memory
  import Actions

  // ---------------------------------------------------------------- goals

  /** The sorted-insert step of a stable sort by priority: `g` goes before the
      first goal whose priority is not smaller. */
  function Insert(g: Goal, sorted: seq<Goal>): (r: seq<Goal>)
    ensures multiset(r) == multiset(sorted) + multiset{g}
  {
    if sorted == [] || g.priority <= sorted[0].priority then [g] + sorted
    else
      var rest := Insert(g, sorted[1..]);
      assert sorted == [sorted[0]] + sorted[1..];
      [sorted[0]] + rest
  }

  /** `sorted(goals, key=lambda g: g.priority)`. */
  function SortByPriority(goals: seq<Goal>): (r: seq<Goal>)
    ensures multiset(r) == multiset(goals)
  {
    if goals == [] then []
    else
      assert goals == [goals[0]] + goals[1..];
      Insert(goals[0], SortByPriority(goals[1..]))
  }

  predicate SortedByPriority(gs: seq<Goal>) {
    forall i, j :: 0 <= i < j < |gs| ==> gs[i].priority <= gs[j].priority
  }

  /** The goals of priority `p`, in order. */
  function WithPriority(gs: seq<Goal>, p: int): seq<Goal> {
    if gs == [] then []
    else (if gs[0].priority == p then [gs[0]] else []) + WithPriority(gs[1..], p)
  }

  lemma {:induction false} InsertSorted(g: Goal, sorted: seq<Goal>)
    requires SortedByPriority(sorted)
    ensures SortedByPriority(Insert(g, sorted))
    ensures |Insert(g, sorted)| == |sorted| + 1
    ensures Insert(g, sorted) != [] && Insert(g, sorted)[0] in [g] + sorted[..if sorted == [] then 0 else 1]
  {
    if sorted != [] && g.priority > sorted[0].priority {
      InsertSorted(g, sorted[1..]);
      var rest := Insert(g, sorted[1..]);
      assert rest[0] == g || rest[0] == sorted[1];
    }
  }

  /** Inserting `g` into a sorted list places it before every goal of its own
      priority that was already there. */
  lemma {:induction false} InsertStable(g: Goal, sorted: seq<Goal>, p: int)
    requires SortedByPriority(sorted)
    ensures WithPriority(Insert(g, sorted), p) ==
              (if g.priority == p then [g] else []) + WithPriority(sorted, p)
  {
    if sorted == [] {
    } else if g.priority <= sorted[0].priority {
      assert Insert(g, sorted) == [g] + sorted;
      assert ([g] + sorted)[1..] == sorted;
    } else {
      InsertStable(g, sorted[1..], p);
      var r := Insert(g, sorted);
      assert r[1..] == Insert(g, sorted[1..]);
      if g.priority == p {
        assert sorted[0].priority < p;
      }
    }
  }

  /** Goals come out in ascending priority. */
  lemma {:induction false} SortByPrioritySorted(goals: seq<Goal>)
    ensures SortedByPriority(SortByPriority(goals))
    ensures |SortByPriority(goals)| == |goals|
  {
    if goals != [] {
      SortByPrioritySorted(goals[1..]);
      InsertSorted(goals[0], SortByPriority(goals[1..]));
    }
  }

  /** The sort is stable: goals of equal priority keep their input order. */
  lemma {:induction false} SortByPriorityStable(goals: seq<Goal>, p: int)
    ensures WithPriority(SortByPriority(goals), p) == WithPriority(goals, p)
  {
    if goals != [] {
      SortByPriorityStable(goals[1..], p);
      SortByPrioritySorted(goals[1..]);
      InsertStable(goals[0], SortByPriority(goals[1..]), p);
    }
  }

  /** `"\n" + "=" * 50 + "\n"`. */
  const GoalSeparator: string := "\n==================================================\n"

  function GoalText(g: Goal): string {
    "GOAL " + IntToString(g.priority) + ": " + g.name + GoalSeparator + g.description + GoalSeparator
  }

  function GoalTexts(goals: seq<Goal>): (r: seq<string>)
    ensures |r| == |goals| && forall i :: 0 <= i < |r| ==> r[i] == GoalText(goals[i])
  {
    seq(|goals|, i requires 0 <= i < |goals| => GoalText(goals[i]))
  }

  /** The fixed instructions that follow the goals in the system message. */
  const Instructions: string :=
    "\n\nINSTRUCTIONS:\n"
    + "- Focus on achieving your goals in priority order\n"
    + "- Usae the available tools to accomplist tasks efficiently\n"
    + "- Be thorough but concise with you reasoning\n"
    + "- Handle error gracefully and adapt your approach as needed\n"
    + "- Always strive to privde high-quality results\n"
    + "\nWhen you need to use a tool, the system will handle the function calling automatically.\n"
    + "\nThink step by step and choose the mostg appropriate tool for each task.\n"

  /** The system message for goals already sorted. */
  function SystemMessage(sorted: seq<Goal>): string {
    "\n\n" + Join(GoalTexts(sorted), "\n\n") + Instructions
  }

  /** `format_goals(goals)`: nothing for no goals, otherwise a single system
      message rendering the goals in ascending priority. */
  function FormatGoals(goals: seq<Goal>): (r: seq<Message>)
    ensures goals == [] <==> r == []
    ensures goals != [] ==> |r| == 1 && r[0].role == "system"
    ensures goals != [] ==> r[0].content == VStr(SystemMessage(SortByPriority(goals)))
  {
    if goals == [] then [] else [Message("system", VStr(SystemMessage(SortByPriority(goals))))]
  }

  // ---------------------------------------------------------------- memory

  /** The prompt role of a memory item: the model's own turns and environment
      results are `assistant`, everything else (a missing role included) is `user`. */
  function RoleOf(item: Entry): (role: string)
    ensures role == "assistant" <==>
              "role" in item && (item["role"] == VStr("assistant") || item["role"] == VStr("environment"))
    ensures role != "assistant" ==> role == "user"
  {
    var r := Get(item, "role", VNone);
    if r == VStr("assistant") then "assistant"
    else if r == VStr("environment") then "assistant"
    else "user"
  }

  /** The message of one memory item: its content when truthy, else the JSON of
      the whole item indented by 2, which raises when the item holds an object. */
  function MessageOf(rt: Runtime, item: Entry): (r: Outcome<Message>)
    ensures "content" in item && Truthy(item["content"]) ==> r == Ok(Message(RoleOf(item), item["content"]))
    ensures !("content" in item && Truthy(item["content"])) ==>
              (r.Ok? <==> Serializable(VDict(item)))
              && (r.Ok? ==> r.value == Message(RoleOf(item), VStr(rt.dumpsIndented(VDict(item)))))
  {
    var content := Get(item, "content", VNone);
    if Truthy(content) then Ok(Message(RoleOf(item), content))
    else
      match DumpsIndented(rt, VDict(item))
      case Ok(text) => Ok(Message(RoleOf(item), VStr(text)))
      case Raised(e) => Raised(e)
  }

  /** The messages of the items `items`, or the first exception. */
  function MessagesOf(rt: Runtime, items: seq<Entry>): (r: Outcome<seq<Message>>)
    ensures r.Ok? ==> |r.value| == |items|
    ensures r.Ok? ==> forall i :: 0 <= i < |items| ==> MessageOf(rt, items[i]) == Ok(r.value[i])
    ensures r.Ok? <==> forall i :: 0 <= i < |items| ==> MessageOf(rt, items[i]).Ok?
  {
    if items == [] then Ok([])
    else
      var n := |items| - 1;
      match MessagesOf(rt, items[..n])
      case Raised(e) => Raised(e)
      case Ok(prior) =>
        match MessageOf(rt, items[n])
        case Raised(e) => Raised(e)
        case Ok(m) => Ok(prior + [m])
  }

  /** `format_memory(memory)`: one message per memory item, in order. */
  method FormatMemory(rt: Runtime, memory: Memory) returns (r: Outcome<seq<Message>>)
    ensures r == MessagesOf(rt, memory.items)
  {
    var items := memory.GetMemories(None);
    var mapped: seq<Message> := [];
    var i := 0;
    while i < |items|
      invariant 0 <= i <= |items| && items == memory.items
      invariant MessagesOf(rt, items[..i]) == Ok(mapped)
    {
      assert items[..i + 1][..i] == items[..i];
      var m := MessageOf(rt, items[i]);
      if m.Raised? {
        MessagesOfPrefixFails(rt, items, i + 1);
        assert items[..i + 1] == items[..i + 1];
        return Raised(m.exc);
      }
      mapped := mapped + [m.value];
      i := i + 1;
    }
    assert items[..i] == items;
    r := Ok(mapped);
  }

  /** Once one item fails, the messages of any longer list fail with the first
      failure. */
  lemma {:induction false} MessagesOfPrefixFails(rt: Runtime, items: seq<Entry>, k: nat)
    requires 0 < k <= |items|
    requires MessagesOf(rt, items[..k - 1]).Ok? && MessageOf(rt, items[k - 1]).Raised?
    ensures MessagesOf(rt, items) == Raised(MessageOf(rt, items[k - 1]).exc)
    decreases |items|
  {
    var n := |items| - 1;
    if n == k - 1 {
      assert items[..n] == items[..k - 1];
      assert MessageOf(rt, items[n]).Raised?;
    } else {
      assert items[..n][..k - 1] == items[..k - 1];
      assert items[..n][k - 1] == items[k - 1];
      MessagesOfPrefixFails(rt, items[..n], k);
      assert MessagesOf(rt, items[..n]).Raised?;
    }
  }

  // ---------------------------------------------------------------- actions

  /** The most characters of a description `format_actions` keeps. */
  const MaxDescription: nat := 1024

  /** `{"type": "object", "properties": {}, "required": []}`. */
  const EmptySchema: Value := VDict(map["type" := VStr("object"), "properties" := VDict(map[]), "required" := VList([])])

  /** The tool descriptor of one action. */
  function ToolDefOf(a: Actions.Action): (t: ToolDef)
    ensures t.name == a.name
    ensures a.description.Some? && a.description.value != [] ==>
              |t.description| == (if |a.description.value| < MaxDescription then |a.description.value| else MaxDescription)
              && StartsWith(a.description.value, t.description)
    ensures !(a.description.Some? && a.description.value != []) ==> t.description == "Execute " + a.name
    ensures t.parameters == (if Truthy(a.parameters) then a.parameters else EmptySchema)
  {
    var description :=
      if a.description.Some? && a.description.value != [] then
        var d := a.description.value;
        if |d| < MaxDescription then d else d[..MaxDescription]
      else "Execute " + a.name;
    ToolDef(a.name, description, if Truthy(a.parameters) then a.parameters else EmptySchema)
  }

  /** `format_actions(actions)`: one tool per action, in order. */
  method FormatActions(actions: seq<Actions.Action>) returns (tools: seq<ToolDef>)
    ensures |tools| == |actions|
    ensures forall i :: 0 <= i < |actions| ==> tools[i] == ToolDefOf(actions[i])
  {
    tools := [];
    var i := 0;
    while i < |actions|
      invariant 0 <= i <= |actions| && |tools| == i
      invariant forall j :: 0 <= j < i ==> tools[j] == ToolDefOf(actions[j])
    {
      tools := tools + [ToolDefOf(actions[i])];
      i := i + 1;
    }
  }

  function ToolDefsOf(actions: seq<Actions.Action>): (r: seq<ToolDef>)
    ensures |r| == |actions| && forall i :: 0 <= i < |r| ==> r[i] == ToolDefOf(actions[i])
  {
    seq(|actions|, i requires 0 <= i < |actions| => ToolDefOf(actions[i]))
  }

  // ---------------------------------------------------------------- prompt

  /** The metadata `construct_prompt` attaches. */
  function PromptMetadata(numGoals: nat, numActions: nat, memoryItems: nat): Entry {
    map["agent_language" := VStr("function_calling"), "num_goals" := VInt(numGoals),
        "num_actions" := VInt(numActions), "memory_items" := VInt(memoryItems)]
  }

  /** `construct_prompt(actions, environment, goals, memory)`: the goal message,
      then the memory messages; the tools of the actions; counts of goals, actions
      and memory items. The environment argument is not used. */
  method ConstructPrompt(rt: Runtime, actions: seq<Actions.Action>, goals: seq<Goal>, memory: Memory)
    returns (r: Outcome<Prompt>)
    ensures MessagesOf(rt, memory.items).Raised? ==> r == Raised(MessagesOf(rt, memory.items).exc)
    ensures MessagesOf(rt, memory.items).Ok? ==>
              r == Ok(Prompt(FormatGoals(goals) + MessagesOf(rt, memory.items).value, ToolDefsOf(actions),
                             PromptMetadata(|goals|, |actions|, |memory.items|)))
  {
    var promptMessages: seq<Message> := [];
    promptMessages := promptMessages + FormatGoals(goals);
    assert promptMessages == FormatGoals(goals);
    var memoryMessages := FormatMemory(rt, memory);
    if memoryMessages.Raised? {
      return Raised(memoryMessages.exc);
    }
    promptMessages := promptMessages + memoryMessages.value;
    var tools := FormatActions(actions);
    assert tools == ToolDefsOf(actions);
    var items := memory.GetMemories(None);
    r := Ok(Prompt(promptMessages, tools, PromptMetadata(|goals|, |actions|, |items|)));
  }

  // ---------------------------------------------------------------- response

  /** The fallback invocation: `terminate` with the raw response as its message. */
  function TerminateInvocation(response: string): Value {
    VDict(map["tool_name" := VStr("terminate"), "args" := VDict(map["message" := VStr(response)])])
  }

  /** `parse_response(response)`, given what `json.loads(response)` decoded
      (`None` for a `JSONDecodeError`). Only the decode error is caught: a decoded
      number, boolean or null makes the `in` test raise `TypeError`, and a nested
      `function` that is not an object holding `name` and `arguments` raises too. */
  function ParseResponse(response: string, decoded: Option<Value>): (r: Outcome<Value>)
    ensures decoded.None? ==> r == Ok(TerminateInvocation(response))
    ensures decoded.Some? && decoded.value.VDict? && "tool_name" in decoded.value.fields
            && "args" in decoded.value.fields
            ==> r == Ok(decoded.value)
    ensures decoded.Some? && decoded.value.VDict? && !("tool_name" in decoded.value.fields && "args" in decoded.value.fields)
            && !("function" in decoded.value.fields && "arguments" in decoded.value.fields)
            ==> r == Ok(TerminateInvocation(response))
    ensures decoded.Some? && decoded.value.VDict? && !("tool_name" in decoded.value.fields && "args" in decoded.value.fields)
            && "function" in decoded.value.fields && "arguments" in decoded.value.fields
            && decoded.value.fields["function"].VDict?
            && "name" in decoded.value.fields["function"].fields
            && "arguments" in decoded.value.fields["function"].fields
            ==> r == Ok(VDict(map["tool_name" := decoded.value.fields["function"].fields["name"],
                                  "args" := decoded.value.fields["function"].fields["arguments"]]))
    ensures decoded.Some? && !(decoded.value.VDict? || decoded.value.VList? || decoded.value.VStr?) ==>
              r.Raised? && r.exc.kind == TypeError
  {
    match decoded
    case None => Ok(TerminateInvocation(response))
    case Some(parsed) =>
      match In("tool_name", parsed)
      case Raised(e) => Raised(e)
      case Ok(hasToolName) =>
        // once the first `in` test succeeded the operand is a container, so the
        // second one cannot raise
        if hasToolName && In("args", parsed) == Ok(true) then Ok(parsed)
        else
          match In("function", parsed)
          case Raised(e) => Raised(e)
          case Ok(hasFunction) =>
            if hasFunction && In("arguments", parsed) == Ok(true) then
              match GetItem(parsed, "function")
              case Raised(e) => Raised(e)
              case Ok(fun) =>
                match GetItem(fun, "name")
                case Raised(e) => Raised(e)
                case Ok(name) =>
                  match GetItem(fun, "arguments")
                  case Raised(e) => Raised(e)
                  case Ok(arguments) => Ok(VDict(map["tool_name" := name, "args" := arguments]))
            else Ok(TerminateInvocation(response))
  }

  /** Whatever comes back is either the decoded object itself, a normalised
      invocation, or the `terminate` fallback; an object reply never raises unless
      its nested `function` is malformed. */
  lemma ParseResponseObject(response: string, parsed: map<string, Value>)
    requires !("function" in parsed && "arguments" in parsed) || ("tool_name" in parsed && "args" in parsed)
    ensures ParseResponse(response, Some(VDict(parsed))).Ok?
    ensures var v := ParseResponse(response, Some(VDict(parsed))).value;
            v == VDict(parsed) || v == TerminateInvocation(response)
  {}
}
