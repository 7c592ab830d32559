/** game/memory.py: the conversation log of a run and the value records that
    describe a prompt. */
module Memory {
  import opened Values

  /** A directive shown to the model. A frozen dataclass: its fields never change
      after construction, which a datatype value gives for free. */
  datatype Goal = Goal(priority: int, name: string, description: string)

  /** One `{"role": ..., "content": ...}` message of a prompt. */
  datatype Message = Message(role: string, content: Value)

  /** One callable-tool descriptor of a prompt, as `format_actions` builds it
      (the fixed `"type": "function"` wrapper is implied). */
  datatype ToolDef = ToolDef(name: string, description: string, parameters: Value)

  /** The `Prompt` dataclass; its three fields default to empty. */
  datatype Prompt = Prompt(messages: seq<Message>, tools: seq<ToolDef>, metadata: Entry)

  function MessagesOnly(messages: seq<Message>): (p: Prompt)
    ensures p.messages == messages && p.tools == [] && p.metadata == map[]
  {
    Prompt(messages, [], map[])
  }

  /** The append-only log. `items` is the list that `add_memory` appends to and
      `clear_memory` replaces. */
  class Memory {
    var items: seq<Entry>

    constructor()
      ensures items == []
    {
      items := [];
    }

    /** `add_memory`: stores a copy of `memory` whose `timestamp` is the clock
        reading, after every earlier entry. `memory` itself is a value and stays
        as the caller had it. */
    method AddMemory(memory: Entry, clock: Value)
      modifies this
      ensures items == old(items) + [memory["timestamp" := clock]]
      ensures |items| == |old(items)| + 1 && items[..|old(items)|] == old(items)
    {
      var memoryItem := memory["timestamp" := clock];
      items := items + [memoryItem];
    }

    /** `get_memories(limit)`, with `None` for the default. A missing or zero limit
        gives every item; a positive limit gives the last `limit` items (all of them
        when there are fewer); a negative limit `-k` slices `items[k:]`, dropping
        the first `k` items. */
    function GetMemories(limit: Option<int>): (r: seq<Entry>)
      reads this
      ensures limit == None || limit == Some(0) ==> r == items
      ensures limit.Some? && limit.value > 0 ==>
        |r| == (if limit.value < |items| then limit.value else |items|)
        && r == items[|items| - |r|..]
      ensures limit.Some? && limit.value < 0 ==>
        r == items[(if -limit.value < |items| then -limit.value else |items|)..]
    {
      match limit
      case None => items
      case Some(n) =>
        if n == 0 then items
        else if n > 0 then (if n < |items| then items[|items| - n..] else items)
        else (if -n < |items| then items[-n..] else [])
    }

    /** `clear_memory`. */
    method ClearMemory()
      modifies this
      ensures items == []
    {
      items := [];
    }
  }
}
