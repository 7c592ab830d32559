/** The language-model function the framework calls (`generate_response`, the `llm`
    entry of the action context, `self.llm.generate`). Its answers are an oracle:
    the reply to the n-th request, whatever the request says. The requests are
    logged so that a contract can count and inspect them. */
module ModelCall {
  import opened Values
  import Memory

  /** What was sent: a structured prompt, or plain text. */
  datatype Request = ChatPrompt(prompt: Memory.Prompt) | TextPrompt(text: string)

  class LanguageModel {
    /** The reply to the n-th request: a text, or the exception the call raises. */
    const replies: nat -> Outcome<string>
    var log: seq<Request>

    constructor(replies: nat -> Outcome<string>)
      ensures this.replies == replies && log == []
    {
      this.replies := replies;
      log := [];
    }

    /** One call: the next reply, with the request logged. */
    method Generate(request: Request) returns (r: Outcome<string>)
      modifies this
      ensures r == replies(|old(log)|)
      ensures log == old(log) + [request]
    {
      r := replies(|log|);
      log := log + [request];
    }
  }

  /** The model a context value denotes, if it is one. */
  function ModelOf(v: Value): Option<LanguageModel> {
    if v.VObject? && v.obj is LanguageModel then Some(v.obj as LanguageModel) else None
  }

  function ModelSet(v: Value): set<object> {
    if ModelOf(v).Some? then {ModelOf(v).value} else {}
  }

  /** The message of calling something that is not a function. */
  const NotCallable: string := "object is not callable"

  /** `llm(prompt)` for a value `llm` taken from a context: only a model can be
      called; anything else (a missing entry's `None` included) raises `TypeError`. */
  method CallValue(llm: Value, request: Request) returns (r: Outcome<string>)
    modifies ModelSet(llm)
    ensures ModelOf(llm).None? ==> r == Raised(Exc(TypeError, NotCallable))
    ensures ModelOf(llm).Some? ==>
              var m := ModelOf(llm).value;
              r == m.replies(|old(m.log)|) && m.log == old(m.log) + [request]
  {
    var m := ModelOf(llm);
    if m.None? {
      return Raised(Exc(TypeError, NotCallable));
    }
    r := m.value.Generate(request);
  }
}
