/** game/environment.py: where actions run. The base environment turns a call into a
    result record and never lets an exception out; the context environment also
    injects the action context and `_`-prefixed context properties into the
    arguments; the staged environment keeps transactions for review; the
    AI-review environment sends some operations through a model-reviewed retry loop. */
module Environments {
  import opened Values
  import opened Dicts
  import opened Text
  import opened Tools
  import opened Actions
  import opened ActionContexts
  import opened ModelCall

  // Fixed texts of this file: exception messages and prompt parts.
  const ListIndices: string := "list indices must be integers or slices, not str"
  const NoTransaction: string := "No transaction found for task "
  const ReviewLoopArity: string :=
    "AIReviewBDDEnvironment._execute_with_review_loop() missing 1 required positional argument: 'args'"
  const UnboundContent: string :=
    "cannot access local variable 'generated_content' where it is not associated with a value"
  const FailedReviewPrefix: string := "Failed AI review after "
  const StagedActionLine: string := "Action: ReversibleAction\nArgs: "
  const StagedReviewHeader: string := "Review these staged BDD actions for safety:\n        \n        Task ID: "
  const StagedActionsHeader: string := "  @ \n        \n        Staged Actions:\n        "
  const StagedReviewChecklist: string :=
    "\n        \n        Consider:\n"
    + "        1. Are all actions necessary for the BDD task?\n"
    + "        2. Could any action have unintended consequences?\n"
    + "        3. Are the actions in a safe order?\n"
    + "        4. Will this properly implement the BDD scenario?\n"
    + "        5. Is there a safer way to achieve the same goal?\n"
    + "        \n        Should these actions be approved?\n        "

  // The review prompts of `_ai_review_content`, split where the f-strings interpolate.
  /** The three operation prompts between the content and the original requirements. */
  const ReviewRequirementsMid: string :=
    "\n            \n            ORIGINAL REQUIREMENTS:\n            "
  /** The `generate_step_definitions` prompt up to the content. */
  const StepDefinitionsReviewHead: string :=
    "\n            Review this BDD step definitions code for:\n            \n"
    + "            CONTENT TO REVIEW:\n            "
  /** The `generate_step_definitions` prompt after the `scenarios` argument. */
  const StepDefinitionsReviewTail: string :=
    "\n            \n            CHECK FOR:\n"
    + "            1. Correct Gherkin step matching (Given/When/Then)\n"
    + "            2. Proper parameter extraction and handling\n"
    + "            3. Clear, maintainable step implementations\n"
    + "            4. Appropriate assertions and validations\n"
    + "            5. No duplicate or conflicting step definitions\n"
    + "            6. Follows best practices for the framework\n            \n"
    + "            APPROVE if the code is production-ready.\n"
    + "            REJECT if there are issues that need fixing.\n            \n"
    + "            Response format:\n            DECISION: [APPROVE/REJECT]\n"
    + "            FEEDBACK: [Specific feedback for improvement]\n            "
  /** The `generate_test_implementation` prompt up to the content. */
  const TestImplementationReviewHead: string :=
    "\n            Review this test implementation code for:\n            \n"
    + "            CONTENT TO REVIEW:\n            "
  /** The `generate_test_implementation` prompt after the `step_definitions` argument. */
  const TestImplementationReviewTail: string :=
    "\n            \n            CHECK FOR:\n"
    + "            1. Tests actually test the business requirements\n"
    + "            2. Proper test setup and teardown\n"
    + "            3. Clear test data and mocking\n"
    + "            4. Edge cases and error conditions covered\n"
    + "            5. Test independence (no test depends on another)\n"
    + "            6. Appropriate assertions and error messages\n            \n"
    + "            APPROVE if tests are comprehensive and correct.\n"
    + "            REJECT if tests are incomplete or incorrect.\n            \n"
    + "            Response format:\n            DECISION: [APPROVE/REJECT]  \n"
    + "            FEEDBACK: [Specific feedback for improvement]\n            "
  /** The `generate_production_code` prompt up to the content. */
  const ProductionCodeReviewHead: string :=
    "\n            Review this production code for:\n            \n"
    + "            CONTENT TO REVIEW:\n            "
  /** The `generate_production_code` prompt after the `requirements` argument. */
  const ProductionCodeReviewTail: string :=
    "\n            \n            CHECK FOR:\n"
    + "            1. Code correctly implements business requirements\n"
    + "            2. Proper error handling and edge cases\n"
    + "            3. Clean, readable, maintainable code structure\n"
    + "            4. Follows SOLID principles and best practices\n"
    + "            5. Appropriate logging and monitoring\n"
    + "            6. Security considerations addressed\n"
    + "            7. Performance implications considered\n            \n"
    + "            APPROVE if code is production-ready.\n"
    + "            REJECT if there are quality or correctness issues.\n"
    + "            \n            Response format:\n"
    + "            DECISION: [APPROVE/REJECT]\n"
    + "            FEEDBACK: [Specific feedback for improvement]\n            "
  /** The prompt for any other operation, up to the content. */
  const DefaultReviewHead: string :=
    "\n        Review this generated content:\n        "
  /** The prompt for any other operation, after the content. */
  const DefaultReviewTail: string :=
    "\n        \n        Response format:\n        DECISION: [APPROVE/REJECT]\n"
    + "        FEEDBACK: [Feedback]\n        "

  /** `str(e)`. */
  function ExcText(e: Exc): string {
    e.msg
  }

  /** The `TypeError` text of `action.execute(**v)` when `v` is not a mapping. */
  function NotMapping(rt: Runtime, v: Value): string {
    "game.actions.Action.execute() argument after ** must be a mapping, not " + TypeName(rt, v)
  }

  /** `action.execute(**args)`: `**` needs a mapping. */
  function CallWith(rt: Runtime, action: Action, args: Value): (r: Outcome<Value>)
    ensures args.VDict? ==> r == action.Execute(args.fields)
    ensures !args.VDict? ==> r == Raised(Exc(TypeError, NotMapping(rt, args)))
  {
    if args.VDict? then action.Execute(args.fields)
    else Raised(Exc(TypeError, NotMapping(rt, args)))
  }

  /** `format_result(result, success)`: the flag, the result and a local-time stamp. */
  function FormatResult(rt: Runtime, result: Value, success: bool): (r: Entry)
    ensures r.Keys == {"tool_executed", "result", "timestamp"}
    ensures r["tool_executed"] == VBool(success) && r["result"] == result
  {
    map["tool_executed" := VBool(success), "result" := result, "timestamp" := VStr(rt.localTime)]
  }

  /** `Environment.execute_action(action, args)`: never raises; a success is a
      formatted result, an exception becomes a failure record with the error text
      and the traceback. */
  function ExecuteAction(rt: Runtime, action: Action, args: Value): (r: Entry)
    ensures "tool_executed" in r && r["tool_executed"] == VBool(CallWith(rt, action, args).Ok?)
    ensures CallWith(rt, action, args).Ok? ==> r == FormatResult(rt, CallWith(rt, action, args).value, true)
    ensures CallWith(rt, action, args).Raised? ==>
              r.Keys == {"tool_executed", "error", "traceback"}
              && r["error"] == VStr(ExcText(CallWith(rt, action, args).exc))
  {
    match CallWith(rt, action, args)
    case Ok(result) => FormatResult(rt, result, true)
    case Raised(e) => map["tool_executed" := VBool(false), "error" := VStr(ExcText(e)),
                          "traceback" := VStr(rt.traceback)]
  }

  // ------------------------------------------------ ActionContextEnvironment

  /** The arguments with `action_context` added when `f` declares it. */
  function WithContext(ctxObj: Value, f: ToolFunction, args: Entry): Entry {
    if HasNamedParameter(f, "action_context") then args["action_context" := ctxObj] else args
  }

  /** `_key` for each of the first `n` context properties `key` that `f` declares,
      with the property's value. */
  function ContextArgs(props: Dict<Value>, f: ToolFunction, n: nat): map<string, Value>
    requires n <= |props.keys|
  {
    if n == 0 then map[]
    else
      var key := props.keys[n - 1];
      var rest := ContextArgs(props, f, n - 1);
      if HasNamedParameter(f, "_" + key) then rest["_" + key := props.m[key]] else rest
  }

  /** The arguments `ActionContextEnvironment.execute_action` passes on. */
  function Injected(ctxObj: Value, props: Dict<Value>, f: ToolFunction, args: Entry): Entry {
    WithContext(ctxObj, f, args) + ContextArgs(props, f, |props.keys|)
  }

  /** The injected names are exactly the declared `_key` of the first `n`
      properties, each carrying its property's value. */
  lemma {:induction false} ContextArgsSpec(props: Dict<Value>, f: ToolFunction, n: nat)
    requires n <= |props.keys|
    ensures forall j :: 0 <= j < n && HasNamedParameter(f, "_" + props.keys[j]) ==>
              "_" + props.keys[j] in ContextArgs(props, f, n)
              && ContextArgs(props, f, n)["_" + props.keys[j]] == props.m[props.keys[j]]
    ensures forall k :: k in ContextArgs(props, f, n) ==>
              HasNamedParameter(f, k) && exists j :: 0 <= j < n && k == "_" + props.keys[j]
  {
    if n > 0 {
      ContextArgsSpec(props, f, n - 1);
      var key := props.keys[n - 1];
      var rest := ContextArgs(props, f, n - 1);
      var r := ContextArgs(props, f, n);
      forall j | 0 <= j < n && HasNamedParameter(f, "_" + props.keys[j])
        ensures "_" + props.keys[j] in r && r["_" + props.keys[j]] == props.m[props.keys[j]]
      {
        if j < n - 1 {
          UnderscoreInjective(props.keys[j], key);
        }
      }
      forall k | k in r
        ensures HasNamedParameter(f, k) && exists j :: 0 <= j < n && k == "_" + props.keys[j]
      {
        if k in rest {
          var j :| 0 <= j < n - 1 && k == "_" + props.keys[j];
          assert 0 <= j < n;
        } else {
          assert k == "_" + props.keys[n - 1];
        }
      }
    }
  }

  /** Distinct properties give distinct parameter names. */
  lemma UnderscoreInjective(a: string, b: string)
    ensures "_" + a == "_" + b <==> a == b
  {
    if "_" + a == "_" + b {
      assert a == ("_" + a)[1..];
      assert b == ("_" + b)[1..];
    }
  }

  /** What the injection does: `action_context` is present exactly when declared
      (or already passed); each declared `_key` of a context property `key`
      carries that property's value, overriding a caller argument of that name. */
  lemma InjectedContext(ctxObj: Value, props: Dict<Value>, f: ToolFunction, args: Entry)
    ensures var r := Injected(ctxObj, props, f, args);
            && (HasNamedParameter(f, "action_context") ==> r["action_context"] == ctxObj)
            && (!HasNamedParameter(f, "action_context") ==> ("action_context" in r <==> "action_context" in args))
            && (forall key :: key in props.m && HasNamedParameter(f, "_" + key) ==>
                  "_" + key in r && r["_" + key] == props.m[key])
  {
    ContextArgsSpec(props, f, |props.keys|);
    var r := Injected(ctxObj, props, f, args);
    forall key | key in props.m && HasNamedParameter(f, "_" + key)
      ensures "_" + key in r && r["_" + key] == props.m[key]
    {
      var j :| 0 <= j < |props.keys| && props.keys[j] == key;
    }
    assert "action_context"[0] != '_';
  }

  /** Every other argument is the caller's, and nothing else is added. */
  lemma InjectedKeepsArguments(ctxObj: Value, props: Dict<Value>, f: ToolFunction, args: Entry)
    ensures var r := Injected(ctxObj, props, f, args);
            && (forall k :: (k in args && k != "action_context"
                               && !(exists key :: key in props.m && k == "_" + key && HasNamedParameter(f, k)))
                             ==> k in r && r[k] == args[k])
            && (forall k :: k in r ==>
                  (k in args || k == "action_context"
                   || exists key :: key in props.m && k == "_" + key && HasNamedParameter(f, k)))
  {
    ContextArgsSpec(props, f, |props.keys|);
  }

  /** The loop of `ActionContextEnvironment.execute_action` that builds `args_copy`. */
  method InjectArguments(ctx: ActionContext, f: ToolFunction, args: Entry) returns (argsCopy: Entry)
    ensures argsCopy == Injected(VObject(ctx), ctx.properties, f, args)
  {
    argsCopy := args;
    if HasNamedParameter(f, "action_context") {
      argsCopy := argsCopy["action_context" := VObject(ctx)];
    }
    ghost var base := argsCopy;
    var props := ctx.properties;
    var i := 0;
    while i < |props.keys|
      invariant 0 <= i <= |props.keys|
      invariant argsCopy == base + ContextArgs(props, f, i)
    {
      var key := props.keys[i];
      var paramName := "_" + key;
      if HasNamedParameter(f, paramName) {
        MergeAssign(base, ContextArgs(props, f, i), paramName, props.m[key]);
        argsCopy := argsCopy[paramName := props.m[key]];
      }
      i := i + 1;
    }
  }

  /** Whether `execute_action` writes anything into the copy of the arguments:
      the function declares `action_context` or `_<key>` for a context property. */
  predicate Injects(props: Dict<Value>, f: ToolFunction) {
    HasNamedParameter(f, "action_context") || exists k | k in props.m :: HasNamedParameter(f, "_" + k)
  }

  /** The error text when `args` is not a dict: only a list has `copy()`; writing a
      string key into the list copy fails, and an untouched list copy then fails
      at `**`. */
  function CopyFailure(rt: Runtime, props: Dict<Value>, f: ToolFunction, args: Value): (r: string)
    ensures !args.VList? ==> r == NoAttribute(rt, args, "copy")
    ensures args.VList? && Injects(props, f) ==> r == ListIndices
    ensures args.VList? && !Injects(props, f) ==> r == NotMapping(rt, args)
  {
    if !args.VList? then NoAttribute(rt, args, "copy")
    else if Injects(props, f) then ListIndices
    else NotMapping(rt, args)
  }

  /** What `ActionContextEnvironment.execute_action` returns for `args` and the
      injected dict `injected`: never an exception, and no traceback. */
  function ContextResult(rt: Runtime, props: Dict<Value>, action: Action, args: Value, injected: Entry): (r: Entry)
    ensures "tool_executed" in r && r["tool_executed"] == VBool(args.VDict? && action.Execute(injected).Ok?)
    ensures r.Keys <= {"tool_executed", "result", "timestamp", "error"}
    ensures !args.VDict? ==> r == map["tool_executed" := VBool(false), "error" := VStr(CopyFailure(rt, props, action.fn, args))]
  {
    if !args.VDict? then
      map["tool_executed" := VBool(false), "error" := VStr(CopyFailure(rt, props, action.fn, args))]
    else
      match action.Execute(injected)
      case Ok(result) => FormatResult(rt, result, true)
      case Raised(e) => map["tool_executed" := VBool(false), "error" := VStr(ExcText(e))]
  }

  /** The result of `ActionContextEnvironment.execute_action(ctx, action, args)` as a
      function of the context's object and properties. */
  function ContextExecute(rt: Runtime, ctxObj: Value, props: Dict<Value>, action: Action, args: Value): (r: Entry)
    ensures "tool_executed" in r && r["tool_executed"] == VBool(args.VDict? &&
              action.Execute(Injected(ctxObj, props, action.fn, args.fields)).Ok?)
    ensures r.Keys <= {"tool_executed", "result", "timestamp", "error"}
    ensures Truthy(r["tool_executed"]) ==> "result" in r
    ensures !args.VDict? ==> "error" in r && r["error"] == VStr(CopyFailure(rt, props, action.fn, args))
  {
    ContextResult(rt, props, action, args, if args.VDict? then Injected(ctxObj, props, action.fn, args.fields) else map[])
  }

  /** `ActionContextEnvironment.execute_action(action_context, action, args)`, as
      `ContextExecute` specifies it: the caller's arguments are copied, never changed. */
  method ExecuteWithContext(rt: Runtime, ctx: ActionContext, action: Action, args: Value) returns (r: Entry)
    ensures r == ContextExecute(rt, VObject(ctx), ctx.properties, action, args)
  {
    if !args.VDict? {
      return ContextResult(rt, ctx.properties, action, args, map[]);
    }
    var argsCopy := InjectArguments(ctx, action.fn, args.fields);
    r := ContextResult(rt, ctx.properties, action, args, argsCopy);
  }

  // ------------------------------------------------ StagedActionEnvironment

  /** The text shown to the reviewer of a staged transaction. */
  function StagedReviewPrompt(rt: Runtime, taskId: string, staged: seq<Staged>): string {
    var described := seq(|staged|, i requires 0 <= i < |staged| =>
                           StagedActionLine + rt.show(VDict(staged[i].args)));
    StagedReviewHeader + taskId + StagedActionsHeader + Join(described, "\n") + StagedReviewChecklist
  }

  /** A model's verdict on a staged transaction. */
  predicate ModelApproves(response: string) {
    Contains(Lower(response), "approved")
  }

  /** A person's answer to `Approve? (y/n): `. */
  predicate HumanApproves(answer: string) {
    StartsWith(Lower(answer), "y")
  }

  class StagedActionEnvironment {
    var stagedTransactions: map<string, ActionTransaction>
    /** Never assigned by the framework, so review always falls back to a person. */
    var llm: Option<LanguageModel>

    constructor()
      ensures stagedTransactions == map[] && llm == None
    {
      stagedTransactions := map[];
      llm := None;
    }

    /** `stage_actions(task_id)`: a new empty transaction, replacing any earlier one
        of that task. */
    method StageActions(taskId: string) returns (t: ActionTransaction)
      modifies this
      ensures fresh(t) && t.actions == [] && t.executed == [] && !t.commited
      ensures stagedTransactions == old(stagedTransactions)[taskId := t]
      ensures llm == old(llm)
    {
      t := new ActionTransaction();
      stagedTransactions := stagedTransactions[taskId := t];
    }

    /** `review_transaction(task_id)`: `ValueError` for an unknown task; with a model,
        approval iff its reply mentions "approved" in any case; without one, the
        person's answer (a parameter here) decides: approval iff it starts with
        "y" or "Y". */
    method ReviewTransaction(rt: Runtime, taskId: string, humanAnswer: string) returns (r: Outcome<bool>)
      modifies if llm.Some? then {llm.value} else {}
      ensures taskId !in stagedTransactions ==> r.Raised? && r.exc.kind == ValueError
      ensures taskId in stagedTransactions && llm.None? ==> r == Ok(HumanApproves(humanAnswer))
      ensures taskId in stagedTransactions && llm.Some? ==>
                var m := llm.value;
                && |m.log| == |old(m.log)| + 1
                && (m.replies(|old(m.log)|).Ok? ==> r == Ok(ModelApproves(m.replies(|old(m.log)|).value)))
                && (m.replies(|old(m.log)|).Raised? ==> r == Raised(m.replies(|old(m.log)|).exc))
      ensures taskId !in stagedTransactions || llm.None? ==> llm.Some? ==> llm.value.log == old(llm.value.log)
    {
      if taskId !in stagedTransactions {
        return Raised(Exc(ValueError, NoTransaction + taskId));
      }
      var transaction := stagedTransactions[taskId];
      var reviewPrompt := StagedReviewPrompt(rt, taskId, transaction.actions);
      if llm.Some? {
        var response := llm.value.Generate(TextPrompt(reviewPrompt));
        if response.Raised? {
          return Raised(response.exc);
        }
        return Ok(ModelApproves(response.value));
      }
      r := Ok(HumanApproves(humanAnswer));
    }
  }

  // ------------------------------------------------ AIReviewBDDEnvironment

  /** Operations executed at once. */
  const ImmediateOperations: set<string> :=
    {"parse_gherkin", "extract_scenarios", "validate_gherkin_syntax", "read_existing_code"}

  /** Operations meant to go through the review loop. */
  const AIReviewOperations: set<string> :=
    {"generate_step_definitions", "generate_test_implementation", "generate_production_code", "refactor_existing_code"}

  /** `max_review_iterations`. */
  const MaxReviewIterations: int := 3

  /** `execute_with_ai_review(action_context, action, args)` as written: immediate
      and unknown operations run in the context environment; review operations
      call `_execute_with_review_loop` with three arguments although it declares
      four, which raises `TypeError`. */
  method ExecuteWithAIReview(rt: Runtime, ctx: ActionContext, action: Action, args: Value) returns (r: Outcome<Entry>)
    ensures action.name in AIReviewOperations ==> r.Raised? && r.exc.kind == TypeError
    ensures action.name !in AIReviewOperations ==> r == Ok(ContextExecute(rt, VObject(ctx), ctx.properties, action, args))
  {
    if action.name in ImmediateOperations {
      var result := ExecuteWithContext(rt, ctx, action, args);
      return Ok(result);
    } else if action.name in AIReviewOperations {
      return Raised(Exc(TypeError, ReviewLoopArity));
    }
    var result := ExecuteWithContext(rt, ctx, action, args);
    r := Ok(result);
  }

  /** Every review operation fails before anything runs. */
  lemma ReviewOperationsNeverRun()
    ensures "generate_production_code" in AIReviewOperations && "generate_production_code" !in ImmediateOperations
  {}

  /** What `_ai_review_content` extracts from a review. */
  datatype Verdict = Verdict(approved: bool, feedback: string, fullResponse: string)

  /** The review verdict: approval iff "APPROVE" occurs in the upper-cased reply
      (so "DISAPPROVE" approves too); the feedback is the stripped text after the
      first "FEEDBACK:", or the whole reply when the marker is absent. */
  function ParseVerdict(response: string): (v: Verdict)
    ensures v.approved <==> Contains(Upper(response), "APPROVE")
    ensures v.fullResponse == response
    ensures !Contains(response, "FEEDBACK:") ==> v.feedback == response
  {
    var feedbackStart := Find(response, "FEEDBACK:");
    var feedback := if feedbackStart != -1 then Strip(response[feedbackStart + 9..]) else response;
    Verdict(Contains(Upper(response), "APPROVE"), feedback, response)
  }

  /** The feedback follows the first "FEEDBACK:" marker. */
  lemma VerdictFeedback(response: string, i: int)
    requires OccursAt(response, "FEEDBACK:", i)
    requires forall j :: 0 <= j < i ==> !OccursAt(response, "FEEDBACK:", j)
    ensures ParseVerdict(response).feedback == Strip(response[i + 9..])
  {
    FindIsFirst(response, "FEEDBACK:", i);
  }

  /** The first occurrence is what `find` reports. */
  lemma FindIsFirst(s: string, sub: string, i: int)
    requires OccursAt(s, sub, i)
    requires forall j :: 0 <= j < i ==> !OccursAt(s, sub, j)
    ensures Find(s, sub) == i
  {
    assert Contains(s, sub);
  }

  /** A lower-case "approve" approves: the test ignores case. */
  lemma LowerCaseApproves(prefix: string, suffix: string)
    ensures ParseVerdict(prefix + "approve" + suffix).approved
  {
    var s := prefix + "approve" + suffix;
    assert Upper(s)[|prefix|..|prefix| + 7] == "APPROVE";
    assert OccursAt(Upper(s), "APPROVE", |prefix|);
  }

  /** The review prompt of `_ai_review_content`: a prompt of its own for each of
      the three review operations, showing the content and the argument holding its
      requirements (`"N/A"` when absent), and a shorter one for anything else. */
  function ReviewContentPrompt(rt: Runtime, operationType: string, content: Value, originalArgs: Entry): string {
    if operationType == "generate_step_definitions" then
      StepDefinitionsReviewHead + Str(rt, content) + ReviewRequirementsMid
      + Str(rt, Get(originalArgs, "scenarios", VStr("N/A"))) + StepDefinitionsReviewTail
    else if operationType == "generate_test_implementation" then
      TestImplementationReviewHead + Str(rt, content) + ReviewRequirementsMid
      + Str(rt, Get(originalArgs, "step_definitions", VStr("N/A"))) + TestImplementationReviewTail
    else if operationType == "generate_production_code" then
      ProductionCodeReviewHead + Str(rt, content) + ReviewRequirementsMid
      + Str(rt, Get(originalArgs, "requirements", VStr("N/A"))) + ProductionCodeReviewTail
    else
      DefaultReviewHead + Str(rt, content) + DefaultReviewTail
  }

  /** `_ai_review_content`: one call of the context's `llm`, read as a verdict. */
  method AIReviewContent(rt: Runtime, ctx: ActionContext, operationType: string, content: Value, originalArgs: Entry)
    returns (r: Outcome<Verdict>)
    modifies ModelSet(ctx.Get("llm", VNone))
    ensures var llm := ModelOf(ctx.Get("llm", VNone));
            && (llm.None? ==> r == Raised(Exc(TypeError, NotCallable)))
            && (llm.Some? ==>
                  && llm.value.log == old(llm.value.log) + [TextPrompt(ReviewContentPrompt(rt, operationType, content, originalArgs))]
                  && r == VerdictOf(llm.value.replies(|old(llm.value.log)|)))
  {
    var llm := ctx.Get("llm", VNone);
    var prompt := ReviewContentPrompt(rt, operationType, content, originalArgs);
    var response := CallValue(llm, TextPrompt(prompt));
    if response.Raised? {
      return Raised(response.exc);
    }
    r := Ok(ParseVerdict(response.value));
  }

  function VerdictOf(reply: Outcome<string>): Outcome<Verdict> {
    match reply
    case Ok(text) => Ok(ParseVerdict(text))
    case Raised(e) => Raised(e)
  }

  // ------------------------------------------------ the review loop

  /** What the review loop runs against: the runtime, the context environment's
      view of the context, the action and the context's model, if it holds one. */
  datatype ReviewSetting = ReviewSetting(execute: Execution, llm: Option<LanguageModel>)

  /** The shape of what `execute_action` returns: whether the tool ran, its
      result when it did, and none of the keys the review loop adds. */
  predicate IsResultRecord(r: Entry) {
    && "tool_executed" in r
    && (Truthy(r["tool_executed"]) ==> "result" in r)
    && "review_iterations" !in r && "last_attempt" !in r
  }

  /** An environment running one action: arguments to result record. */
  type Execution = Entry -> Entry

  /** Every run of `s`'s action returns a result record. */
  predicate Shaped(s: ReviewSetting, args: Entry) {
    IsResultRecord(s.execute(args))
  }

  /** The context environment running `action`. */
  function ContextExecution(rt: Runtime, ctxObj: Value, props: Dict<Value>, action: Action): Execution {
    (args: Entry) => ContextExecute(rt, ctxObj, props, action, VDict(args))
  }

  /** The context environment's runs return result records. */
  lemma ContextExecutionShaped(rt: Runtime, ctxObj: Value, props: Dict<Value>, action: Action,
                               llm: Option<LanguageModel>)
    ensures forall args :: Shaped(ReviewSetting(ContextExecution(rt, ctxObj, props, action), llm), args)
  {
    forall args: Entry
      ensures IsResultRecord(ContextExecute(rt, ctxObj, props, action, VDict(args)))
    {
      var r := ContextExecute(rt, ctxObj, props, action, VDict(args));
      assert "review_iterations" !in r.Keys && "last_attempt" !in r.Keys;
    }
  }

  /** How one attempt ends: the loop returns `result`, or the content was
      rejected with `feedback`; `calls` counts the model calls made so far. */
  datatype Attempt =
    | Done(result: Outcome<Entry>, calls: nat)
    | Rejected(generated: Value, feedback: string, calls: nat)

  /** Where a review loop ends: its result, the caller's arguments as the loop left
      them, and how many model calls were made in all. */
  datatype ReviewRun = ReviewRun(result: Outcome<Entry>, args: Entry, calls: nat)

  function ApprovedResult(generated: Value, attempts: nat, feedback: string): Entry {
    map["tool_executed" := VBool(true), "result" := generated,
        "review_iterations" := VInt(attempts), "review_feedback" := VStr(feedback)]
  }

  function ExhaustedResult(maxIterations: int, lastAttempt: Value, feedback: string): Entry {
    map["tool_executed" := VBool(false),
        "error" := VStr(FailedReviewPrefix + IntToString(maxIterations) + " attempts"),
        "last_attempt" := lastAttempt, "final_feedback" := VStr(feedback)]
  }

  lemma ApprovedResultKeys(generated: Value, attempts: nat, feedback: string)
    ensures ApprovedResult(generated, attempts, feedback).Keys
            == {"tool_executed", "result", "review_iterations", "review_feedback"}
    ensures "last_attempt" !in ApprovedResult(generated, attempts, feedback)
  {
    assert |"last_attempt"| == 12;
  }

  /** The rejected attempt and its feedback, written into the arguments. */
  function WithFeedback(args: Entry, generated: Value, feedback: string): Entry {
    args["previous_attempt" := generated]["review_feedback" := VStr(feedback)]
  }

  /** The review of content `generated` in attempt `i`, with `calls` model calls
      made before it: one model call, and an approval ends the loop. */
  function ReviewOf(s: ReviewSetting, generated: Value, i: nat, calls: nat): (a: Attempt)
    ensures a.calls == calls || a.calls == calls + 1
    ensures a.Rejected? ==> a.calls == calls + 1
  {
    if s.llm.None? then Done(Raised(Exc(TypeError, NotCallable)), calls)
    else
      match s.llm.value.replies(calls)
      case Raised(e) => Done(Raised(e), calls + 1)
      case Ok(text) =>
        var v := ParseVerdict(text);
        if v.approved then Done(Ok(ApprovedResult(generated, i + 1, v.feedback)), calls + 1)
        else Rejected(generated, v.feedback, calls + 1)
  }

  /** Attempt `i` (counting from 0): run the action; an unexecuted result is
      returned as is (a result without `tool_executed` counts as unexecuted, as
      `.get` gives `None`), executed content is reviewed. */
  function AttemptOf(s: ReviewSetting, args: Entry, i: nat, calls: nat): (a: Attempt)
    ensures a.calls == calls || a.calls == calls + 1
    ensures a.Rejected? ==> a.calls == calls + 1
  {
    var result := s.execute(args);
    if !Truthy(Get(result, "tool_executed", VNone)) then Done(Ok(result), calls)
    else if "result" !in result then Done(Raised(MissingKey("result")), calls)
    else ReviewOf(s, result["result"], i, calls)
  }

  /** An attempt's own result never reports exhaustion, and reports an approval
      only as attempt `i + 1`. */
  lemma AttemptKeys(s: ReviewSetting, args: Entry, i: nat, calls: nat)
    requires Shaped(s, args)
    ensures var a := AttemptOf(s, args, i, calls);
            && (a.Done? && a.result.Ok? && "review_iterations" in a.result.value ==>
                  a.result.value["review_iterations"] == VInt(i + 1))
            && (a.Done? && a.result.Ok? ==> "last_attempt" !in a.result.value)
  {
    var result := s.execute(args);
    if Truthy(result["tool_executed"]) {
      var a := ReviewOf(s, result["result"], i, calls);
      assert AttemptOf(s, args, i, calls) == a;
      if a.Done? && a.result.Ok? {
        var text := s.llm.value.replies(calls).value;
        var v := ParseVerdict(text);
        assert a.result.value == ApprovedResult(result["result"], i + 1, v.feedback);
        ApprovedResultKeys(result["result"], i + 1, v.feedback);
      }
    }
  }

  /** The loop from attempt `i` on, `last` holding the last rejected attempt and
      its feedback. */
  function ReviewFrom(s: ReviewSetting, maxIterations: int, args: Entry, i: nat, calls: nat,
                      last: Option<(Value, string)>): (run: ReviewRun)
    ensures calls <= run.calls <= calls + (if i < maxIterations then maxIterations - i else 0)
    decreases if i < maxIterations then maxIterations - i else 0
  {
    if maxIterations <= i then
      match last
      case None => ReviewRun(Raised(Exc(UnboundLocalError, UnboundContent)), args, calls)
      case Some((g, fb)) => ReviewRun(Ok(ExhaustedResult(maxIterations, g, fb)), args, calls)
    else
      match AttemptOf(s, args, i, calls)
      case Done(result, c) => ReviewRun(result, args, c)
      case Rejected(g, fb, c) => ReviewFrom(s, maxIterations, WithFeedback(args, g, fb), i + 1, c, Some((g, fb)))
  }

  /** A rejected attempt leaves the rest of the loop to run on the amended
      arguments. */
  lemma ReviewFromStep(s: ReviewSetting, maxIterations: int, args: Entry, i: nat, calls: nat,
                       last: Option<(Value, string)>, a: Attempt)
    requires i < maxIterations && a == AttemptOf(s, args, i, calls) && a.Rejected?
    ensures ReviewFrom(s, maxIterations, args, i, calls, last)
            == ReviewFrom(s, maxIterations, WithFeedback(args, a.generated, a.feedback), i + 1, a.calls,
                          Some((a.generated, a.feedback)))
  {}

  /** One pass of the loop body of `_execute_with_review_loop`, with the context
      environment called as it declares, `execute_action(action_context, action,
      args)`. */
  method ReviewAttempt(rt: Runtime, ctx: ActionContext, action: Action, args: Entry, i: nat) returns (a: Attempt)
    modifies ModelSet(ctx.Get("llm", VNone))
    ensures var llm := ModelOf(ctx.Get("llm", VNone));
            var calls := if llm.Some? then |old(llm.value.log)| else 0;
            && a == AttemptOf(ReviewSetting(ContextExecution(rt, VObject(ctx), ctx.properties, action), llm), args, i, calls)
            && (llm.Some? ==> |llm.value.log| == a.calls)
  {
    var llm := ModelOf(ctx.Get("llm", VNone));
    var calls := if llm.Some? then |llm.value.log| else 0;
    assert ctx !in ModelSet(ctx.Get("llm", VNone));
    var result := ExecuteWithContext(rt, ctx, action, VDict(args));
    ghost var s := ReviewSetting(ContextExecution(rt, VObject(ctx), ctx.properties, action), llm);
    assert s.execute(args) == result;
    AttemptOfRecord(s, args, i, calls, result);
    if !Truthy(result["tool_executed"]) {
      return Done(Ok(result), calls);
    }
    a := ReviewContent(rt, ctx, action, result["result"], args, i);
  }

  /** An attempt on a run that returned the record `result`. */
  lemma AttemptOfRecord(s: ReviewSetting, args: Entry, i: nat, calls: nat, result: Entry)
    requires s.execute(args) == result
    ensures !Truthy(Get(result, "tool_executed", VNone)) ==> AttemptOf(s, args, i, calls) == Done(Ok(result), calls)
    ensures Truthy(Get(result, "tool_executed", VNone)) && "result" in result ==>
              AttemptOf(s, args, i, calls) == ReviewOf(s, result["result"], i, calls)
  {}

  /** The review half of a pass: `_ai_review_content` and the verdict. */
  method ReviewContent(rt: Runtime, ctx: ActionContext, action: Action, generated: Value, args: Entry, i: nat)
    returns (a: Attempt)
    modifies ModelSet(ctx.Get("llm", VNone))
    ensures var llm := ModelOf(ctx.Get("llm", VNone));
            var calls := if llm.Some? then |old(llm.value.log)| else 0;
            && a == ReviewOf(ReviewSetting(ContextExecution(rt, VObject(ctx), ctx.properties, action), llm), generated, i, calls)
            && (llm.Some? ==> |llm.value.log| == a.calls)
  {
    var llm := ModelOf(ctx.Get("llm", VNone));
    var calls := if llm.Some? then |llm.value.log| else 0;
    ghost var s := ReviewSetting(ContextExecution(rt, VObject(ctx), ctx.properties, action), llm);
    assert ctx !in ModelSet(ctx.Get("llm", VNone));
    var review := AIReviewContent(rt, ctx, action.name, generated, args);
    assert llm.Some? ==> review == VerdictOf(llm.value.replies(calls));
    if review.Raised? {
      return Done(Raised(review.exc), if llm.Some? then calls + 1 else calls);
    }
    if review.value.approved {
      return Done(Ok(ApprovedResult(generated, i + 1, review.value.feedback)), calls + 1);
    }
    a := Rejected(generated, review.value.feedback, calls + 1);
  }

  /** `_execute_with_review_loop` (game/environment.py:175-212) with the context
      environment called as it declares. The caller's `args` dict is changed in
      place by rejections; `finalArgs` is that dict afterwards. */
  method ReviewLoop(rt: Runtime, ctx: ActionContext, action: Action, args: Entry, maxIterations: int)
    returns (r: Outcome<Entry>, finalArgs: Entry)
    modifies ModelSet(ctx.Get("llm", VNone))
    ensures var llm := ModelOf(ctx.Get("llm", VNone));
            var run := ReviewFrom(ReviewSetting(ContextExecution(rt, VObject(ctx), ctx.properties, action), llm), maxIterations,
                                  args, 0, if llm.Some? then |old(llm.value.log)| else 0, None);
            && r == run.result && finalArgs == run.args
            && (llm.Some? ==> |llm.value.log| == run.calls)
  {
    var llm := ModelOf(ctx.Get("llm", VNone));
    ghost var s := ReviewSetting(ContextExecution(rt, VObject(ctx), ctx.properties, action), llm);
    ghost var calls: nat := if llm.Some? then |llm.value.log| else 0;
    ghost var goal := ReviewFrom(s, maxIterations, args, 0, calls, None);
    finalArgs := args;
    var last: Option<(Value, string)> := None;
    var iteration: nat := 0;
    assert ctx !in ModelSet(ctx.Get("llm", VNone));
    while iteration < maxIterations
      invariant ModelOf(ctx.Get("llm", VNone)) == llm
      invariant llm.Some? ==> |llm.value.log| == calls
      invariant ReviewFrom(s, maxIterations, finalArgs, iteration, calls, last) == goal
      decreases maxIterations - iteration
    {
      var attempt := ReviewAttempt(rt, ctx, action, finalArgs, iteration);
      assert attempt == AttemptOf(s, finalArgs, iteration, calls);
      if attempt.Done? {
        return attempt.result, finalArgs;
      }
      var nextArgs := WithFeedback(finalArgs, attempt.generated, attempt.feedback);
      var nextLast := Some((attempt.generated, attempt.feedback));
      ReviewFromStep(s, maxIterations, finalArgs, iteration, calls, last, attempt);
      assert ReviewFrom(s, maxIterations, nextArgs, iteration + 1, attempt.calls, nextLast) == goal;
      finalArgs := nextArgs;
      last := nextLast;
      calls := attempt.calls;
      iteration := iteration + 1;
    }
    ReviewFromExhausted(s, maxIterations, finalArgs, iteration, calls, last);
    if last.None? {
      return Raised(Exc(UnboundLocalError, UnboundContent)), finalArgs;
    }
    r := Ok(ExhaustedResult(maxIterations, last.value.0, last.value.1));
  }

  /** Past the last attempt, the loop ends on the arguments it has, with no
      further model call. */
  lemma ReviewFromExhausted(s: ReviewSetting, maxIterations: int, args: Entry, i: nat, calls: nat,
                            last: Option<(Value, string)>)
    requires maxIterations <= i
    ensures var run := ReviewFrom(s, maxIterations, args, i, calls, last);
            && run.args == args && run.calls == calls
            && run.result == (if last.None? then Raised(Exc(UnboundLocalError, UnboundContent))
                              else Ok(ExhaustedResult(maxIterations, last.value.0, last.value.1)))
  {}

  /** With no attempt allowed the loop reads `generated_content` before any
      assignment. */
  lemma ReviewWithoutAttempts(s: ReviewSetting, maxIterations: int, args: Entry, calls: nat)
    requires maxIterations <= 0
    ensures ReviewFrom(s, maxIterations, args, 0, calls, None).result.Raised?
    ensures ReviewFrom(s, maxIterations, args, 0, calls, None).result.exc == Exc(UnboundLocalError, UnboundContent)
  {}

  /** The loop's promises: at most one model call per attempt; an approval
      reports its attempt number, never beyond `maxIterations`; running out of
      attempts takes exactly one model call per attempt; rejections only ever set
      `previous_attempt` and `review_feedback`. */
  lemma {:induction false} ReviewFromSpec(s: ReviewSetting, maxIterations: int, args: Entry, i: nat, calls: nat,
                                          last: Option<(Value, string)>)
    requires forall a :: Shaped(s, a)
    requires i <= maxIterations
    ensures var run := ReviewFrom(s, maxIterations, args, i, calls, last);
            && calls <= run.calls <= calls + (maxIterations - i)
            && (run.result.Ok? && "review_iterations" in run.result.value ==>
                  exists n: int :: i < n <= maxIterations && run.result.value["review_iterations"] == VInt(n))
            && (run.result.Ok? && "last_attempt" in run.result.value ==> run.calls - calls == maxIterations - i)
    decreases maxIterations - i
  {
    if i < maxIterations {
      var a := AttemptOf(s, args, i, calls);
      AttemptKeys(s, args, i, calls);
      if a.Rejected? {
        ReviewFromSpec(s, maxIterations, WithFeedback(args, a.generated, a.feedback), i + 1, a.calls,
                       Some((a.generated, a.feedback)));
      }
    }
  }

  /** `a` and `b` agree on every key but the two the review loop writes. */
  ghost predicate SameOutsideFeedback(a: Entry, b: Entry) {
    forall k :: k != "previous_attempt" && k != "review_feedback" ==>
      (k in a <==> k in b) && (k in a ==> a[k] == b[k])
  }

  /** Rejections only ever set `previous_attempt` and `review_feedback`. */
  lemma {:induction false} ReviewFromArgs(s: ReviewSetting, maxIterations: int, args: Entry, i: nat, calls: nat,
                                          last: Option<(Value, string)>)
    ensures SameOutsideFeedback(ReviewFrom(s, maxIterations, args, i, calls, last).args, args)
    decreases if i < maxIterations then maxIterations - i else 0
  {
    if i < maxIterations {
      var a := AttemptOf(s, args, i, calls);
      if a.Rejected? {
        var next := WithFeedback(args, a.generated, a.feedback);
        ReviewFromArgs(s, maxIterations, next, i + 1, a.calls, Some((a.generated, a.feedback)));
        ReviewFromStep(s, maxIterations, args, i, calls, last, a);
        assert SameOutsideFeedback(next, args);
      }
    }
  }
}
