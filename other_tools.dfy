/** tools/otherTools.py: the `terminate` tool every agent can finish with. */
module OtherTools {
  import opened Values
  import opened Dicts
  import opened Tools

  /** The default of `terminate`'s `message` parameter. */
  const DefaultMessage: string := "Task completed successfully"

  /** The line `terminate` appends to its message, after a blank line. */
  const CompletionNotice: string := "\n\n\U{1F389} Agent session completed."

  /** `terminate.__doc__`, the whole docstring as the source writes it (leading
      newline and indentation included), which becomes its description. */
  const TerminateDoc: string :=
    "\n    Terminate the agent session with a summary message.\n    \n    Args:\n"
    + "        message: Final message to display\n    \n    Returns:\n        Termination message\n    "

  /** `terminate(message)`: the message, unchanged, then the completion notice. */
  function Terminate(message: string): (r: string)
    ensures |r| == |message| + |CompletionNotice|
    ensures r[..|message|] == message && r[|message|..] == CompletionNotice
  {
    message + CompletionNotice
  }

  /** `terminate` declares one parameter, `message`, which has a default. */
  const TerminateParams: seq<Param> := [Param("message", true)]

  /** `terminate` called on bound keyword arguments; the f-string renders a
      non-string message with `str()`. */
  function TerminateBody(rt: Runtime): Entry -> Outcome<Value> {
    kwargs => Ok(VStr(Terminate(Str(rt, Get(kwargs, "message", VStr(DefaultMessage))))))
  }

  function TerminateFunction(rt: Runtime): ToolFunction {
    ToolFunction("terminate", Some(TerminateDoc), TerminateParams, TerminateBody(rt))
  }

  /** Called without arguments, `terminate` reports the default message. */
  lemma TerminateWithoutMessage(rt: Runtime)
    ensures Call(TerminateFunction(rt), map[]) == Ok(VStr(DefaultMessage + CompletionNotice))
  {
  }

  /** Called with a string message, `terminate` reports that message. */
  lemma TerminateWithMessage(rt: Runtime, m: string)
    ensures Call(TerminateFunction(rt), map["message" := VStr(m)]) == Ok(VStr(m + CompletionNotice))
  {
    assert HasNamedParameter(TerminateFunction(rt), "message") by {
      assert TerminateFunction(rt).params[0].name == "message";
    }
  }

  /** Any other keyword is refused by Python's call binding. */
  lemma TerminateRejectsOtherKeywords(rt: Runtime, k: string, v: Value)
    requires k != "message"
    ensures Call(TerminateFunction(rt), map[k := v]).Raised?
    ensures Call(TerminateFunction(rt), map[k := v]).exc.kind == TypeError
  {
    assert !HasNamedParameter(TerminateFunction(rt), k);
  }

  /** The schema of `terminate`: the single property `message`, nothing required. */
  lemma TerminateSchema()
    ensures SchemaOf(TerminateParams) == ArgsSchema(map["message" := StringType], [])
  {
    assert IncludedNames(TerminateParams) == {"message"} by {
      assert TerminateParams[0].name == "message";
      assert "message"[..1][0] == 'm';
    }
    assert RequiredIndices(TerminateParams) == [] by {
      assert TerminateParams[..0] == [];
    }
  }

  /** Loading tools/otherTools.py runs `@register_tool(tags=["general"], terminal=True)`:
      the catalogue gains a terminal `terminate` entry tagged `general`. */
  method RegisterTerminate(catalogue: Catalogue, rt: Runtime) returns (f: ToolFunction)
    modifies catalogue
    ensures f == TerminateFunction(rt)
    ensures catalogue.tools == Put(old(catalogue.tools), "terminate",
              ToolEntry(Some(TerminateDoc), SchemaValue(ArgsSchema(map["message" := StringType], [])),
                        TerminateFunction(rt), true, ["general"]))
    ensures catalogue.toolsByTag == AppendToTags(old(catalogue.toolsByTag), ["general"], "terminate")
  {
    TerminateSchema();
    f := catalogue.RegisterTool(TerminateFunction(rt), None, None, VNone, true, ["general"]);
  }
}
