/** tools/promptTools.py: asking the context's model as an expert, and asking it
    for JSON with a bounded retry. */
module PromptTools {
  import opened Values
  import opened Text
  import opened ModelCall
  import opened ActionContexts
  import Memory

  /** What `prompt_expert` returns when the context holds no model. */
  const NoModelText: string := "Error: LLM not available in action context."

  /** The message of the `ValueError` of `prompt_llm_for_json` without a model. */
  const NoModelError: string := "No LLM function available in action context"

  const ExpertPreamble: string := "Act as the following expert and respond accordingly: "
  const SchemaPreamble: string := "You MUST produce output that adheres to the following JSON schema:\n\n"
  const SchemaClosing: string := "\n\nOutput your JSON in a ```json markdown block."

  /** The opening of a JSON markdown block, and any fence. */
  const JsonFence: string := "```json"
  const Fence: string := "```"

  /** The replies a context value gives when called: the model's, or, for anything
      that is not a model, the `TypeError` of calling it. */
  function RepliesOf(llm: Value): nat -> Outcome<string> {
    if ModelOf(llm).Some? then ModelOf(llm).value.replies else _ => Raised(Exc(TypeError, NotCallable))
  }

  /** How many calls the model a context value denotes has answered. */
  function CallCount(llm: Value): nat
    reads ModelSet(llm)
  {
    if ModelOf(llm).Some? then |ModelOf(llm).value.log| else 0
  }

  /** The requests made to the model by `n` calls with the same `request`. */
  function Requests(request: Request, n: nat): (r: seq<Request>)
    ensures |r| == n && forall i :: 0 <= i < n ==> r[i] == request
  {
    seq(n, _ => request)
  }

  lemma RequestsStep(request: Request, n: nat)
    ensures Requests(request, n + 1) == Requests(request, n) + [request]
  {}

  // ---------------------------------------------------------------- prompt_expert

  function ExpertPrompt(description: string, prompt: string): Memory.Prompt {
    Memory.MessagesOnly([Memory.Message("system", VStr(ExpertPreamble + description)),
                         Memory.Message("user", VStr(prompt))])
  }

  /** `prompt_expert(action_context, description_of_expert, prompt)`: a missing or
      false `llm` gives the error text without any call; otherwise the reply to
      one call with the expert prompt, or the exception of that call. */
  method PromptExpert(ctx: ActionContext, description: string, prompt: string) returns (r: Outcome<string>)
    modifies ModelSet(ctx.Get("llm", VNone))
    ensures var llm := ctx.Get("llm", VNone);
            && (!Truthy(llm) ==> r == Ok(NoModelText))
            && (Truthy(llm) ==> r == RepliesOf(llm)(old(CallCount(llm))))
            && (ModelOf(llm).Some? ==>
                  ModelOf(llm).value.log == old(ModelOf(llm).value.log) + [ChatPrompt(ExpertPrompt(description, prompt))])
  {
    var llm := ctx.Get("llm", VNone);
    if !Truthy(llm) {
      return Ok(NoModelText);
    }
    r := CallValue(llm, ChatPrompt(ExpertPrompt(description, prompt)));
  }

  // ---------------------------------------------------------------- JSON extraction

  /** The JSON text of a reply: after the first "```json" up to the last fence when
      that fence lies beyond, or to the end otherwise; the whole reply when there
      is no JSON block. Stripped in every case. */
  function ExtractJsonBlock(response: string): (r: string)
    ensures |r| <= |response|
  {
    if !Contains(response, JsonFence) then Strip(response)
    else
      var start := Find(response, JsonFence) + |JsonFence|;
      var end := RFind(response, Fence);
      if end > start then Strip(response[start..end]) else Strip(response[start..])
  }

  /** A reply without a JSON block is taken whole. */
  lemma ExtractWithoutBlock(response: string)
    requires !Contains(response, JsonFence)
    ensures ExtractJsonBlock(response) == Strip(response)
  {}

  /** No occurrence of a fence can start at a character that is not a backquote. */
  lemma NoFenceAt(s: string, sub: string, j: int)
    requires sub != [] && sub[0] == '`' && 0 <= j < |s| && s[j] != '`'
    ensures !OccursAt(s, sub, j)
  {
    if j + |sub| <= |s| {
      assert s[j..j + |sub|][0] == s[j];
    }
  }

  /** The opening fence of `prefix + "```json" + rest` is found right after `prefix`
      when `prefix` holds no backquote. */
  lemma FindAfterPrefix(prefix: string, rest: string)
    requires '`' !in prefix
    ensures Find(prefix + JsonFence + rest, JsonFence) == |prefix|
  {
    var s := prefix + JsonFence + rest;
    assert s[|prefix|..|prefix| + |JsonFence|] == JsonFence;
    assert OccursAt(s, JsonFence, |prefix|);
    forall j | 0 <= j < |prefix|
      ensures !OccursAt(s, JsonFence, j)
    {
      assert s[j] == prefix[j];
      NoFenceAt(s, JsonFence, j);
    }
  }

  /** The last fence of `s` is at `k` when it occurs there and no backquote follows
      its first character beyond it. */
  lemma RFindLast(s: string, k: int)
    requires OccursAt(s, Fence, k)
    requires forall j :: k + |Fence| <= j < |s| ==> s[j] != '`'
    ensures RFind(s, Fence) == k
  {
    forall j | k < j
      ensures !OccursAt(s, Fence, j)
    {
      if j + |Fence| <= |s| {
        assert s[j..j + |Fence|][|Fence| - 1] == s[j + |Fence| - 1] != Fence[|Fence| - 1];
      }
    }
  }

  /** A JSON block closed by a fence, with no backquote around or inside it, gives
      back its content, stripped. */
  lemma ExtractClosedBlock(prefix: string, body: string, suffix: string)
    requires '`' !in prefix && '`' !in body && '`' !in suffix && body != []
    ensures ExtractJsonBlock(prefix + JsonFence + body + Fence + suffix) == Strip(body)
  {
    var s := prefix + JsonFence + body + Fence + suffix;
    assert s == prefix + JsonFence + (body + Fence + suffix);
    FindAfterPrefix(prefix, body + Fence + suffix);
    var start := |prefix| + |JsonFence|;
    var k := start + |body|;
    assert OccursAt(s, JsonFence, |prefix|);
    assert s[k..k + |Fence|] == Fence;
    forall j | k + |Fence| <= j < |s|
      ensures s[j] != '`'
    {
      assert s[j] == suffix[j - k - |Fence|];
    }
    RFindLast(s, k);
    assert s[start..k] == body;
  }

  /** A JSON block that is never closed runs to the end of the reply. */
  lemma ExtractOpenBlock(prefix: string, rest: string)
    requires '`' !in prefix && '`' !in rest
    ensures ExtractJsonBlock(prefix + JsonFence + rest) == Strip(rest)
  {
    var s := prefix + JsonFence + rest;
    FindAfterPrefix(prefix, rest);
    assert OccursAt(s, JsonFence, |prefix|);
    assert s[|prefix|..|prefix| + |Fence|] == Fence;
    forall j | |prefix| + |Fence| <= j < |s|
      ensures s[j] != '`'
    {
      if j < |prefix| + |JsonFence| {
        assert s[j] == JsonFence[j - |prefix|];
      } else {
        assert s[j] == rest[j - |prefix| - |JsonFence|];
      }
    }
    RFindLast(s, |prefix|);
    assert s[|prefix| + |JsonFence|..] == rest;
  }

  // ---------------------------------------------------------------- prompt_llm_for_json

  function JsonPrompt(schemaText: string, prompt: string): Memory.Prompt {
    Memory.MessagesOnly([Memory.Message("system", VStr(SchemaPreamble + schemaText + SchemaClosing)),
                         Memory.Message("user", VStr(prompt))])
  }

  /** What one attempt makes of the model's reply: the call's exception, or what
      the extracted block decodes to. */
  function AttemptJson(rt: Runtime, reply: Outcome<string>): Outcome<Value> {
    match reply
    case Raised(e) => Raised(e)
    case Ok(text) => Loads(rt, ExtractJsonBlock(text))
  }

  /** An attempt that the `except (json.JSONDecodeError, ValueError)` clause catches. */
  predicate Retryable(o: Outcome<Value>) {
    o.Raised? && IsValueError(o.exc)
  }

  /** What the three attempts would make of the replies to model calls number
      `calls`, `calls + 1` and `calls + 2`. */
  function Attempts(rt: Runtime, replies: nat -> Outcome<string>, calls: nat): (r: seq<Outcome<Value>>)
    ensures |r| == 3
  {
    [AttemptJson(rt, replies(calls)), AttemptJson(rt, replies(calls + 1)), AttemptJson(rt, replies(calls + 2))]
  }

  /** The retry loop from attempt `attempt` (of 0, 1, 2) on, attempt `i` faring
      as `tries[i]`: the result and the number of attempts made. A `ValueError`
      (a decoding error included) before the last attempt means another try;
      anything else ends the loop. */
  function RetryFrom(tries: seq<Outcome<Value>>, attempt: nat): (r: (Outcome<Value>, nat))
    requires |tries| == 3 && attempt < 3
    ensures attempt < r.1 <= 3 && r.0 == tries[r.1 - 1]
    decreases 3 - attempt
  {
    if !Retryable(tries[attempt]) || attempt == 2 then (tries[attempt], attempt + 1)
    else RetryFrom(tries, attempt + 1)
  }

  /** The loop's promises: between one and three attempts; the result is what the
      last attempt gave, every earlier one having failed with a `ValueError`; a
      `ValueError` escapes only from the third attempt. */
  lemma {:induction false} RetrySpec(tries: seq<Outcome<Value>>, attempt: nat)
    requires |tries| == 3 && attempt < 3
    ensures attempt < RetryFrom(tries, attempt).1 <= 3
    ensures RetryFrom(tries, attempt).0 == tries[RetryFrom(tries, attempt).1 - 1]
    ensures forall k :: attempt <= k < RetryFrom(tries, attempt).1 - 1 ==> Retryable(tries[k])
    ensures Retryable(RetryFrom(tries, attempt).0) ==> RetryFrom(tries, attempt).1 == 3
    decreases 3 - attempt
  {
    if Retryable(tries[attempt]) && attempt < 2 {
      RetrySpec(tries, attempt + 1);
    }
  }

  /** One more attempt follows a caught `ValueError` before the last attempt. */
  lemma RetryStep(tries: seq<Outcome<Value>>, attempt: nat)
    requires |tries| == 3 && attempt < 2 && Retryable(tries[attempt])
    ensures RetryFrom(tries, attempt) == RetryFrom(tries, attempt + 1)
  {}

  /** The loop ends with any other outcome, and after the last attempt. */
  lemma RetryStop(tries: seq<Outcome<Value>>, attempt: nat)
    requires |tries| == 3 && attempt < 3 && (!Retryable(tries[attempt]) || attempt == 2)
    ensures RetryFrom(tries, attempt) == (tries[attempt], attempt + 1)
  {}

  /** What `prompt_llm_for_json` gives for a serializable schema when the
      context's `llm` entry is `llm` and the model has answered `calls` calls. */
  function JsonOutcome(rt: Runtime, llm: Value, calls: nat): Outcome<Value> {
    if !Truthy(llm) then Raised(Exc(ValueError, NoModelError))
    else RetryFrom(Attempts(rt, RepliesOf(llm), calls), 0).0
  }

  /** How many calls the model answers in that run. */
  function JsonCalls(rt: Runtime, llm: Value, calls: nat): nat {
    if !Truthy(llm) || ModelOf(llm).None? then 0
    else RetryFrom(Attempts(rt, RepliesOf(llm), calls), 0).1
  }

  /** `prompt_llm_for_json(action_context, schema, prompt)`. Without a model it
      raises `ValueError`; a schema that is not serializable raises before any
      call; otherwise the retry loop runs with the same request each time. */
  method PromptLlmForJson(rt: Runtime, ctx: ActionContext, schema: Value, prompt: string) returns (r: Outcome<Value>)
    modifies ModelSet(ctx.Get("llm", VNone))
    ensures var llm := ctx.Get("llm", VNone);
            !Truthy(llm) ==> r == Raised(Exc(ValueError, NoModelError))
    ensures var llm := ctx.Get("llm", VNone);
            Truthy(llm) && !Serializable(schema) ==>
              r == Raised(Exc(TypeError, NotSerializable)) && CallCount(llm) == old(CallCount(llm))
    ensures var llm := ctx.Get("llm", VNone);
            var run := RetryFrom(Attempts(rt, RepliesOf(llm), old(CallCount(llm))), 0);
            Truthy(llm) && Serializable(schema) ==>
              && r == run.0
              && (ModelOf(llm).Some? ==>
                    ModelOf(llm).value.log == old(ModelOf(llm).value.log)
                      + Requests(ChatPrompt(JsonPrompt(rt.dumpsIndented(schema), prompt)), run.1))
    ensures var llm := ctx.Get("llm", VNone);
            Serializable(schema) ==>
              && r == JsonOutcome(rt, llm, old(CallCount(llm)))
              && CallCount(llm) == old(CallCount(llm)) + JsonCalls(rt, llm, old(CallCount(llm)))
  {
    var llm := ctx.Get("llm", VNone);
    if !Truthy(llm) {
      return Raised(Exc(ValueError, NoModelError));
    }
    assert ctx !in ModelSet(llm);
    r := AskForJson(rt, llm, schema, prompt);
  }

  /** The body of `prompt_llm_for_json` once a model was found: the schema is
      rendered for the system message (which raises for a schema holding an
      object), then the retry loop runs. */
  method AskForJson(rt: Runtime, llm: Value, schema: Value, prompt: string) returns (r: Outcome<Value>)
    modifies ModelSet(llm)
    ensures !Serializable(schema) ==>
              r == Raised(Exc(TypeError, NotSerializable)) && CallCount(llm) == old(CallCount(llm))
    ensures var run := RetryFrom(Attempts(rt, RepliesOf(llm), old(CallCount(llm))), 0);
            Serializable(schema) ==>
              && r == run.0
              && (ModelOf(llm).Some? ==>
                    ModelOf(llm).value.log == old(ModelOf(llm).value.log)
                      + Requests(ChatPrompt(JsonPrompt(rt.dumpsIndented(schema), prompt)), run.1))
  {
    var schemaText := DumpsIndented(rt, schema);
    if schemaText.Raised? {
      return Raised(schemaText.exc);
    }
    r := RetryLoop(rt, llm, ChatPrompt(JsonPrompt(schemaText.value, prompt)));
  }

  /** One pass of the loop body, making model call number `calls`: call the
      model, extract the JSON block of the reply and decode it. */
  method AttemptOnce(rt: Runtime, llm: Value, request: Request, ghost calls: nat) returns (o: Outcome<Value>)
    requires ModelOf(llm).Some? ==> CallCount(llm) == calls
    modifies ModelSet(llm)
    ensures o == AttemptJson(rt, RepliesOf(llm)(calls))
    ensures ModelOf(llm).Some? ==> ModelOf(llm).value.log == old(ModelOf(llm).value.log) + [request]
  {
    var reply := CallValue(llm, request);
    o := AttemptJson(rt, reply);
  }

  /** The `for attempt in range(3)` loop of `prompt_llm_for_json`, each attempt
      calling `llm` with the same request. */
  method RetryLoop(rt: Runtime, llm: Value, request: Request) returns (r: Outcome<Value>)
    modifies ModelSet(llm)
    ensures var run := RetryFrom(Attempts(rt, RepliesOf(llm), old(CallCount(llm))), 0);
            && r == run.0
            && (ModelOf(llm).Some? ==>
                  ModelOf(llm).value.log == old(ModelOf(llm).value.log) + Requests(request, run.1))
  {
    ghost var tries := Attempts(rt, RepliesOf(llm), CallCount(llm));
    var attempt := 0;
    var o := AttemptOnce(rt, llm, request, CallCount(llm));
    while Retryable(o) && attempt < 2
      invariant 0 <= attempt <= 2
      invariant o == tries[attempt]
      invariant RetryFrom(tries, attempt) == RetryFrom(tries, 0)
      invariant ModelOf(llm).Some? ==> CallCount(llm) == old(CallCount(llm)) + attempt + 1
      invariant ModelOf(llm).Some? ==>
                  ModelOf(llm).value.log == old(ModelOf(llm).value.log) + Requests(request, attempt + 1)
    {
      RetryStep(tries, attempt);
      RequestsStep(request, attempt + 1);
      o := AttemptOnce(rt, llm, request, old(CallCount(llm)) + attempt + 1);
      attempt := attempt + 1;
    }
    RetryStop(tries, attempt);
    r := o;
  }
}
