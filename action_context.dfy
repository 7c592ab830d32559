/** game/actionContext.py: the string-keyed property bag shared by every tool of a run. */
module ActionContexts {
  import opened Values
  import opened Dicts
  import Memory

  class ActionContext {
    var properties: Dict<Value>

    /** `ActionContext(properties)`: a missing or empty argument gives an empty bag. */
    constructor(properties: Option<Dict<Value>>)
      ensures properties.None? ==> this.properties == Empty()
      ensures properties.Some? ==> this.properties == properties.value
    {
      this.properties := if properties.Some? && properties.value.keys != [] then properties.value else Empty();
    }

    /** `get(key, default)`: the stored value when `key` is present, else `default`. */
    function Get(key: string, default: Value): (r: Value)
      reads this
      ensures key in properties.m ==> r == properties.m[key]
      ensures key !in properties.m ==> r == default
    {
      match Lookup(properties, key)
      case Some(v) => v
      case None => default
    }

    /** `set(key, value)`: `key` now maps to `value`; every other key keeps its value
        and every key keeps its place. */
    method Set(key: string, value: Value)
      modifies this
      ensures properties.m == old(properties.m)[key := value]
      ensures properties == Put(old(properties), key, value)
    {
      properties := Put(properties, key, value);
    }

    /** `update(other)`: `dict.update` puts the keys of `other` one by one, in
        `other`'s order. Every key of `other` maps to `other`'s value, every other
        key keeps its value, and the keys already present keep their places. */
    method Update(other: Dict<Value>)
      modifies this
      ensures properties.m == old(properties.m) + other.m
      ensures |old(properties.keys)| <= |properties.keys|
      ensures properties.keys[..|old(properties.keys)|] == old(properties.keys)
    {
      var i := 0;
      ghost var done: map<string, Value> := map[];
      while i < |other.keys|
        invariant 0 <= i <= |other.keys|
        invariant properties.m == old(properties.m) + done
        invariant forall k :: k in done ==> k in other.m && done[k] == other.m[k]
        invariant forall j :: 0 <= j < i ==> other.keys[j] in done
        invariant |old(properties.keys)| <= |properties.keys|
        invariant properties.keys[..|old(properties.keys)|] == old(properties.keys)
      {
        var k := other.keys[i];
        MergeAssign(old(properties.m), done, k, other.m[k]);
        properties := Put(properties, k, other.m[k]);
        done := done[k := other.m[k]];
        i := i + 1;
      }
      forall k | k in other.m
        ensures k in done
      {
        var j :| 0 <= j < |other.keys| && other.keys[j] == k;
      }
      assert done == other.m;
    }
  }

  /** The value `create_action_context_with_registry` uses when no target language is given. */
  const DefaultTargetLanguage := "python"

  /** `create_action_context_with_registry`: a bag holding exactly the registry, the
      model function, the memory and the target language, in that order. */
  method CreateActionContextWithRegistry(registry: Value, llmFunction: Value, memory: Memory.Memory,
                                         targetLanguage: string := DefaultTargetLanguage)
    returns (ctx: ActionContext)
    ensures fresh(ctx)
    ensures ctx.properties.keys == ["agent_registry", "llm", "memory", "target_language"]
    ensures ctx.properties.m == map["agent_registry" := registry, "llm" := llmFunction,
                                    "memory" := VObject(memory), "target_language" := VStr(targetLanguage)]
  {
    var props := Put(Put(Put(Put(Empty(), "agent_registry", registry), "llm", llmFunction),
                         "memory", VObject(memory)), "target_language", VStr(targetLanguage));
    ctx := new ActionContext(Some(props));
  }
}
