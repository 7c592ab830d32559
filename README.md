# BddAgent agent framework — a Dafny model

BddAgent is a small agent framework for behaviour-driven development. An **agent**:

- holds goals, a language model, an **action registry** and an **environment**;
- in each iteration of its loop, builds a prompt from its goals, its memory and the registered actions;
- asks the model for a reply and reads the reply as a tool invocation;
- runs the named action in the environment;
- logs the reply and the result in its **memory**;
- stops when an action marked terminal runs, or when its iteration cap is reached.

Tools are ordinary Python functions. A decorator puts them in a global **catalogue** and derives an argument schema from their declared parameters. The environment can inject the run's **action context** (a shared property bag) into a tool's arguments. Delegation tools let one agent call another agent found in an **agent registry**, on a fresh, a shared or a filtered memory.

This project models that core in Dafny, file by file:

| Dafny file | module | Python file |
|---|---|---|
| `values.dfy` | `Values` | Python's dynamic values, exceptions and runtime services |
| `dicts.dfy` | `Dicts` | insertion-ordered dictionaries |
| `text.dfy` | `Text` | the `str` methods the code uses |
| `memory.dfy` | `Memory` | game/memory.py |
| `action_context.dfy` | `ActionContexts` | game/actionContext.py |
| `tools.dfy` | `Tools` | game/tools.py |
| `other_tools.dfy` | `OtherTools` | tools/otherTools.py |
| `actions.dfy` | `Actions` | game/actions.py |
| `model_call.dfy` | `ModelCall` | the `generate_response` / `llm` callable |
| `agent_language.dfy` | `AgentLanguage` | game/agentLanguage.py |
| `environment.dfy` | `Environments` | game/environment.py |
| `capabilities.dfy` | `Capabilities` | game/capabilities.py |
| `agent.dfy` | `Agents` | game/agent.py |
| `prompt_tools.dfy` | `PromptTools` | tools/promptTools.py |
| `agent_tools.dfy` | `AgentTools` | tools/agentTools.py |
| `dev_eval_tools.dfy` | `DevEvalTools` | tools/devEvalTools.py (`extract_clean_code`) |

## How the model is built

**Mutable objects are classes.** These are the objects whose fields the source updates in place:

- `Memory`, `ActionContext`, `ActionRegistry`, `ReversibleAction`, `ActionTransaction`;
- `StagedActionEnvironment`, `Capability`, `Agent`, `AgentRegistry`;
- the tool catalogue;
- the language model, which logs every request it is sent.

Their methods carry `modifies` clauses. Each method is proved against a specification function of the old state. The loops of the source appear as `while` loops with invariants. These include:

- the catalogue scan;
- the schema loop;
- argument injection;
- transaction execution and rollback;
- the agent loop and the review loop;
- the JSON retry loop;
- the delegation loops;
- the line loop of `extract_clean_code`.

**Values are datatypes.** Python's dynamic values are one `Value` datatype. An exception is an `Outcome` value, `Raised(Exc(kind, msg))`. Because of this, `try`/`except` clauses that catch only some kinds are reproduced exactly: a `TypeError` is not caught by `except (json.JSONDecodeError, ValueError)`. Dictionaries whose order is observable are an insertion-ordered `Dict`. Overwriting a key keeps its position. These are the action registry, the catalogue, the tag index, the agent registry and the action context.

**Oracles.** Things the code cannot see become parameters:

- The model's replies are a function from the call number to a reply or an exception.
- A sub-agent is a function from a task and the items of the memory it runs on to the items it leaves, or an exception.
- A tool body is a function from keyword arguments to an outcome.
- `json.loads`, `json.dumps`, `str()`, `id()` and the clock are fields of a `Runtime` value passed in.

**Source behaviour reproduced as written:**

- `ActionTransaction.commit` sets `committed`, but `add` reads `commited` (game/actions.py:101,105,124). Committing therefore never blocks `add`.
- A failing action is not recorded in `executed`, so rollback undoes only the actions that completed before it (game/actions.py:111-116).
- `handle_agent_response` probes the environment with `hasattr` and `co_varnames` (game/agent.py:88-97). Its outcomes are:
  - The AI-review environment's `execute_with_ai_review` is called with one argument too many.
  - The base and staged environments inherit an `execute_action` with more than three local names, so they are called with the context as an extra argument.
  - Only `ActionContextEnvironment` actually runs an action inside `Agent.run`.
  - In every other case the result is the `tool_executed: false` record.
- `Agent.run` calls each capability's `init` with the agent as an extra positional argument (game/agent.py:118-119). No capability class declares that argument, so a run with any capability raises `TypeError` before its loop. This happens outside the `try`, so no `terminate` hook runs.
- `TimeAwareCapability.process_prompt` calls `datetime.now()` on the module `datetime` and so raises `AttributeError` (game/capabilities.py:1,43).
- `StagedActionEnvironment.llm` is never assigned. Review therefore falls back to asking a person, whose answer is a parameter.

**`parse_response` and the nested reply shape.** The code rewrites a reply into `{tool_name, args}` from `function` and `arguments` only when both are top-level keys (game/agentLanguage.py:126). A reply whose `arguments` sits only inside `function`, such as `{"function": {"name": ..., "arguments": ...}}`, is therefore not rewritten and falls back to `terminate` with the raw text as its message. The model does the same.

## Model

| member | source | states |
|---|---|---|
| `Memory.MessagesOnly` | game/memory.py:12-17 | a `Prompt` built from messages alone has no tools and empty metadata, as the dataclass defaults give |
| `Memory.Memory.constructor` | game/memory.py:26-27 | a new memory has no items |
| `Memory.Memory.AddMemory` | game/memory.py:29-32 | appends exactly one entry, the caller's dict with `timestamp` set to the clock, and leaves every earlier item unchanged |
| `Memory.Memory.GetMemories` | game/memory.py:34-37 | no limit or limit 0 gives every item; a positive limit gives the last `min(limit, len)` items in order; a negative one gives the slice `items[-limit:]` |
| `Memory.Memory.ClearMemory` | game/memory.py:39-40 | afterwards the memory has no items |
| `ActionContexts.ActionContext.constructor` | game/actionContext.py:16-17 | a missing properties argument gives an empty bag; a given one is used as it is |
| `ActionContexts.ActionContext.Get` | game/actionContext.py:19-20 | the stored value when the key is present, else the default |
| `ActionContexts.ActionContext.Set` | game/actionContext.py:22-23 | the key now maps to the value; every other key keeps its value and the key order is kept |
| `ActionContexts.ActionContext.Update` | game/actionContext.py:25-26 | every key of the argument takes the argument's value, others keep theirs, and existing keys keep their positions |
| `ActionContexts.CreateActionContextWithRegistry` | game/actionContext.py:28-36 | the bag holds exactly `agent_registry`, `llm`, `memory` and `target_language`, in that order, with the given values |
| `Tools.HasNamedParameter` | game/tools.py:87-90 | true iff the name is one of the function's declared parameters |
| `Tools.Call` | game/actions.py:27-28 | a call with an undeclared keyword raises `TypeError` (`<fn>() got an unexpected keyword argument`); otherwise one without a parameter that has no default raises `TypeError` (`<fn>() missing <n> required positional argument(s): 'a', 'b', and 'c'`, every missing name in declaration order); otherwise it is the body's outcome |
| `Tools.Missing` | game/actions.py:27-28 | the names `func(**kwargs)` reports as missing: at most one per parameter, none of them bound |
| `Tools.MissingEmpty` | game/actions.py:27-28 | nothing is missing exactly when every parameter without a default is bound |
| `Tools.RequiredIndices` | game/tools.py:40-41 | the positions of the included parameters without a default, strictly increasing, and all of them |
| `Tools.BuildArgsSchema` | game/tools.py:22-41 | the schema loop: properties are exactly the declared names other than `action_context`, `action_agent` and `_`-names, each typed `"string"`; `required` names exactly the included parameters without a default |
| `Tools.SchemaOfStep` | game/tools.py:28-41 | one more parameter adds its property unless reserved, and its name to `required` iff it has no default |
| `Tools.RequiredNamesExact` | game/tools.py:40-41 | a name is in `required` iff some included parameter of that name has no default |
| `Tools.GetToolMetadata` | game/tools.py:15-50 | the name defaults to the function's name and the description to its docstring (an empty string counts as missing); tags and the terminal flag are kept; `parameters_override` has no effect |
| `Tools.AppendToTagsLists` | game/tools.py:78-82 | after registration a tag's list is its earlier list followed by the tool name once per occurrence of the tag, so re-registration duplicates |
| `Tools.AppendToTagsKeys` | game/tools.py:79-81 | registration creates the list of every tag it names and no other |
| `Tools.AddToTagLists` | game/tools.py:78-82 | the tag loop gives exactly the tag index `AppendToTags` describes |
| `Tools.Catalogue.constructor` | game/tools.py:12-13 | the catalogue and the tag index start empty |
| `Tools.Catalogue.RegisterTool` | game/tools.py:52-85 | the entry is stored under its name, replacing any earlier one; the tag index is extended; the function is returned unchanged |
| `OtherTools.Terminate` | tools/otherTools.py:4-14 | the result is the message, unchanged, followed by the completion notice |
| `OtherTools.TerminateWithoutMessage` | tools/otherTools.py:4 | called without arguments, the tool reports the default message `Task completed successfully` |
| `OtherTools.TerminateWithMessage` | tools/otherTools.py:4-14 | called with a string message, the tool reports that message |
| `OtherTools.TerminateRejectsOtherKeywords` | tools/otherTools.py:4 | any keyword other than `message` raises `TypeError` |
| `OtherTools.TerminateSchema` | tools/otherTools.py:3-4 | the schema has the single property `message` and nothing required |
| `OtherTools.RegisterTerminate` | tools/otherTools.py:3-4 | loading the module stores `terminate` with `terminal` true, tags `["general"]` and its whole docstring as the description, and adds it to the `general` list |
| `Actions.SelectActions` | game/actions.py:50-67 | a catalogue tool is registered iff no name filter is set or it names the tool, and no tag filter is set or the tags meet it; each is registered as the action of its entry |
| `Actions.ScanCatalogue` | game/actions.py:50-67 | the constructor's loop registers `SelectActions` and remembers the catalogue's `terminate` entry whatever the filters |
| `Actions.SelectedActionsValid` | game/actions.py:50-67 | every action the registry holds is stored under its own name |
| `Actions.ActionNamed` | game/actions.py:37-40 | the registered action, or `ValueError` exactly when the name is unknown |
| `Actions.ActionRegistry.constructor` | game/actions.py:31-32 | a new registry holds no actions |
| `Actions.ActionRegistry.FromCatalogue` | game/actions.py:46-67 | a decorator registry holds the selected catalogue tools and remembers the `terminate` entry |
| `Actions.ActionRegistry.Register` | game/actions.py:34-35 | afterwards `get_action(name)` is the action, every other name is unchanged, and an overwrite keeps the original position |
| `Actions.ActionRegistry.GetAction` | game/actions.py:37-40 | the registered action, or `ValueError` exactly when the name is unknown; never a missing value |
| `Actions.ActionRegistry.GetActions` | game/actions.py:42-43 | every registered action, each once, in first-registration order |
| `Actions.ActionRegistry.RegisterTerminateTool` | game/actions.py:69-79 | registers the remembered `terminate` entry under `terminate` with its terminal flag; raises `Terminate tool not found in global registry` when there is none; on a plain registry, which has no such method, raises `AttributeError: 'ActionRegistry' object has no attribute 'register_terminate_tool'` |
| `Actions.ReversibleAction.constructor` | game/actions.py:82-85 | a new reversible action has no execution record |
| `Actions.ReversibleAction.Run` | game/actions.py:87-90 | returns the forward function's outcome; a success records the arguments and result, a failure leaves the record as it was |
| `Actions.ReversibleAction.Undo` | game/actions.py:92-95 | `ValueError` when nothing was run, otherwise the reverse function applied to the record |
| `Actions.ActionsOf` | game/actions.py:111 | the staged actions, in staging order |
| `Actions.RollbackOutcomeOk` | game/actions.py:118-121 | rollback succeeds iff every executed action's undo succeeds; otherwise it raises what the latest failing undo raised |
| `Actions.FirstFailure` | game/actions.py:111-113 | the index of the first staged action whose run raises: every earlier run succeeds |
| `Actions.ActionTransaction.constructor` | game/actions.py:98-102 | nothing is staged or executed and `commited` is unset |
| `Actions.ActionTransaction.Add` | game/actions.py:104-107 | appends the action and its arguments at the end, or raises `ValueError` when `commited` is set |
| `Actions.ActionTransaction.Commit` | game/actions.py:123-124 | sets `committed` and leaves `commited`, which `add` reads, as it was |
| `Actions.ActionTransaction.Rollback` | game/actions.py:118-121 | undoes the executed actions from last to first; `executed` is cleared only when every undo succeeds |
| `Actions.ActionTransaction.Abort` | game/actions.py:114-116 | rolls back, then re-raises the original exception unless the rollback raised first |
| `Actions.ActionTransaction.Execute` | game/actions.py:109-116 | runs the staged actions in order; each is recorded only after it succeeds; on the first failure the recorded ones are undone in reverse and the failure is re-raised; the failing action is not undone |
| `Actions.ActionTransaction.RunStaged` | game/actions.py:110-113 | the `try` body stops at the first failing action, having run and recorded exactly the ones before it |
| `ModelCall.LanguageModel.constructor` | game/agent.py:18 | a new model has answered no request |
| `ModelCall.LanguageModel.Generate` | game/agent.py:77 | one call returns the next reply and logs the request |
| `ModelCall.CallValue` | tools/promptTools.py:9-13 | calling a context value: a model answers and logs the request; anything else raises `TypeError` |
| `AgentLanguage.SortByPriority` | game/agentLanguage.py:32 | the sorted goals are a permutation of the input |
| `AgentLanguage.Insert` | game/agentLanguage.py:32 | the insertion step adds exactly the one goal |
| `AgentLanguage.InsertSorted` | game/agentLanguage.py:32 | inserting into a sorted list keeps it sorted by priority |
| `AgentLanguage.InsertStable` | game/agentLanguage.py:32 | inserting places the goal before every goal of its own priority already in the list, which with insertion from the back keeps equal priorities in input order |
| `AgentLanguage.SortByPrioritySorted` | game/agentLanguage.py:32 | goals come out in ascending priority, none lost |
| `AgentLanguage.SortByPriorityStable` | game/agentLanguage.py:32 | goals of equal priority keep their input order |
| `AgentLanguage.GoalTexts` | game/agentLanguage.py:35-38 | one rendered block per goal, in order |
| `AgentLanguage.FormatGoals` | game/agentLanguage.py:28-58 | no goals give no messages; otherwise exactly one system message over the goals sorted by priority |
| `AgentLanguage.RoleOf` | game/agentLanguage.py:69-74 | `assistant` and `environment` items map to the assistant role; anything else, a missing role included, maps to the user role |
| `AgentLanguage.MessageOf` | game/agentLanguage.py:65-74 | the content when truthy, else the JSON of the whole item indented by 2 (`indent=2`), which raises for an item holding an object |
| `AgentLanguage.MessagesOf` | game/agentLanguage.py:64-76 | one message per item, in order, or the first item's failure |
| `AgentLanguage.FormatMemory` | game/agentLanguage.py:60-76 | the loop yields exactly `MessagesOf` the memory's items |
| `AgentLanguage.MessagesOfPrefixFails` | game/agentLanguage.py:64-67 | the first failing item decides the failure of the whole list |
| `AgentLanguage.ToolDefOf` | game/agentLanguage.py:82-93 | the description truncated to 1024 characters, or `Execute <name>` when empty; empty parameters become the empty object schema |
| `AgentLanguage.ToolDefsOf` | game/agentLanguage.py:78-95 | one tool descriptor per action, in order |
| `AgentLanguage.FormatActions` | game/agentLanguage.py:78-95 | the loop gives one tool per action, in order |
| `AgentLanguage.ConstructPrompt` | game/agentLanguage.py:97-118 | the goal messages, then the memory messages; the tools; metadata counting goals, actions and memory items; a memory failure propagates |
| `AgentLanguage.ParseResponse` | game/agentLanguage.py:120-141 | a `tool_name`/`args` object is returned unchanged; a top-level `function`/`arguments` object is normalised from `function`; any other object, or undecodable text, becomes `terminate` with the raw text; a decoded number, boolean or null raises `TypeError` |
| `AgentLanguage.ParseResponseObject` | game/agentLanguage.py:120-135 | an object reply never raises and yields itself or the `terminate` fallback unless it has the nested shape |
| `Environments.CallWith` | game/environment.py:18 | `**args` on a dict calls the action; on anything else it raises `TypeError: game.actions.Action.execute() argument after ** must be a mapping, not <type>` |
| `Environments.FormatResult` | game/environment.py:27-32 | exactly the keys `tool_executed`, `result` and `timestamp`, with the flag and result given |
| `Environments.ExecuteAction` | game/environment.py:16-25 | never raises: a success is the formatted result; a failure has `tool_executed` false, the error text and a traceback |
| `Environments.ContextArgsSpec` | game/environment.py:50-53 | the injected names are exactly the declared `_key` of context properties, each holding that property's value |
| `Environments.UnderscoreInjective` | game/environment.py:51 | distinct properties give distinct parameter names |
| `Environments.InjectedContext` | game/environment.py:43-53 | `action_context` is injected iff declared; every declared `_key` receives the property, overriding a caller argument of that name |
| `Environments.InjectedKeepsArguments` | game/environment.py:43-53 | every other caller argument is kept and nothing else is added; the caller's dict is not changed |
| `Environments.InjectArguments` | game/environment.py:43-53 | the injection loop builds exactly `Injected` of the context and the arguments |
| `Environments.CopyFailure` | game/environment.py:42-55 | for arguments that are not a dict: no `copy` attribute unless a list; a list copy fails at the first injected string key, or else at `**` |
| `Environments.ContextResult` | game/environment.py:42-61 | `tool_executed` is true iff the arguments are a dict and the call on the injected arguments succeeds; a failure record has no traceback key; non-dict arguments give the `CopyFailure` text |
| `Environments.ContextExecute` | game/environment.py:39-61 | the same, as a function of the context's properties: no key beyond the flag, result, timestamp and error; non-dict arguments report the `CopyFailure` text |
| `Environments.ExecuteWithContext` | game/environment.py:39-61 | `ActionContextEnvironment.execute_action` is `ContextExecute` of its context |
| `Environments.StagedActionEnvironment.constructor` | game/environment.py:68-70 | no transactions and no model |
| `Environments.StagedActionEnvironment.StageActions` | game/environment.py:72-76 | a new empty transaction is stored under the task id, replacing any earlier one |
| `Environments.StagedActionEnvironment.ReviewTransaction` | game/environment.py:78-114 | `ValueError` for an unknown task; with a model, one call, approved iff `approved` occurs in the lower-cased reply; without one, a person's `y` answer approves |
| `Environments.ExecuteWithAIReview` | game/environment.py:143-166 | immediate and unknown operations run in the context environment; the four review operations raise `TypeError` |
| `Environments.ReviewOperationsNeverRun` | game/environment.py:136-141 | `generate_production_code` is a review operation and not an immediate one, so it takes the failing branch |
| `Environments.ParseVerdict` | game/environment.py:313-322 | approved iff `APPROVE` occurs in the upper-cased reply; the feedback is the whole reply when no `FEEDBACK:` marker occurs |
| `Environments.VerdictFeedback` | game/environment.py:316-317 | otherwise the feedback is the stripped text after the first marker |
| `Environments.FindIsFirst` | game/environment.py:316 | `find` reports the first occurrence |
| `Environments.LowerCaseApproves` | game/environment.py:313 | a lower-case `approve` approves: the test ignores case |
| `Environments.AIReviewContent` | game/environment.py:214-322 | one call of the context's `llm` with the operation's review prompt (a text of its own for each of the three review operations, showing the content and the argument holding its requirements or `N/A`; a shorter text otherwise), logged, read as a verdict; no model raises `TypeError` |
| `Environments.ContextExecutionShaped` | game/environment.py:55-61 | every run of the context environment returns a record with the flag |
| `Environments.ReviewOf` | game/environment.py:186-204 | a review makes at most one model call, and a rejection exactly one |
| `Environments.AttemptOf` | game/environment.py:178-204 | a result whose `tool_executed` is missing or falsy is returned as is; an attempt makes at most one model call, and a rejection exactly one |
| `Environments.AttemptKeys` | game/environment.py:181-199 | an approval reports its attempt number and never a last attempt |
| `Environments.ReviewFromStep` | game/environment.py:200-204 | a rejection continues the loop on the arguments amended with the attempt and its feedback |
| `Environments.ReviewAttempt` | game/environment.py:176-204 | one pass of the loop body is `AttemptOf` the current arguments |
| `Environments.AttemptOfRecord` | game/environment.py:181-187 | a run whose `tool_executed` is missing or falsy ends the loop with that result; otherwise its content is reviewed |
| `Environments.ReviewContent` | game/environment.py:186-204 | the review half of a pass is `ReviewOf` the generated content |
| `Environments.ReviewLoop` | game/environment.py:175-212 | the loop's result and the arguments it leaves are those of `ReviewFrom`, one model call per review |
| `Environments.ReviewWithoutAttempts` | game/environment.py:175-212 | with no attempt allowed the loop raises `UnboundLocalError: cannot access local variable 'generated_content' where it is not associated with a value` |
| `Environments.ReviewFrom` | game/environment.py:175-212 | the review loop from attempt `i` on as a function: it makes at most one model call per remaining attempt |
| `Environments.ReviewFromSpec` | game/environment.py:175-212 | at most one model call per attempt; an approval reports an attempt number within the cap; exhausting the cap takes one model call per attempt |
| `Environments.ReviewFromArgs` | game/environment.py:200-204 | rejections only ever set `previous_attempt` and `review_feedback` |
| `Capabilities.Bind` | game/agent.py:118-119 | a hook call binds iff the arguments given match those declared, else `TypeError` with Python's text: the qualified method name, and "argument" for one |
| `Capabilities.Capability.constructor` | game/capabilities.py:27-30 | a new capability has no counters yet |
| `Capabilities.Capability.Init` | game/capabilities.py:28-30 | progress tracking sets both counters to 0; the other classes' `init` does nothing |
| `Capabilities.Capability.ProcessPrompt` | game/capabilities.py:11-44 | the base hook has no effect; the time-aware hook raises `AttributeError` |
| `Capabilities.Capability.ProcessAction` | game/capabilities.py:19-39 | progress tracking adds one to `actions_completed` when `tool_executed` is truthy, else to `errors_encountered` (a missing key counts as an error), keeping their sum equal to the calls since `init`; the base hook has no effect |
| `Agents.HandlingError` | game/agent.py:100-105 | the failure record: `tool_executed` false, the error text and the reply |
| `Agents.ResponseText` | game/agent.py:75-82 | the reply, or `Error generating response: ...` for a model exception |
| `Agents.Agent.constructor` | game/agent.py:14-31 | the fields are the arguments; a missing capability list is empty |
| `Agents.Agent.GetAction` | game/agent.py:41-44 | the parsed invocation and the registered action its `tool_name` names, and `Ok` exactly then; a parse or subscript error propagates; an unregistered string raises `ValueError` `Action '<name>' not found`; a list or dict name raises `TypeError: unhashable type`; any other name raises `ValueError` with its `str` |
| `Agents.Agent.ShouldTerminate` | game/agent.py:46-52 | true iff the reply names a registered action that is terminal; a parse or lookup failure gives false |
| `Agents.Agent.Dispatched` | game/agent.py:88-97 | the context environment gives `ContextExecute` of the action and arguments; every other environment gives the failure record with its `TypeError` text and the reply |
| `Agents.Agent.Handled` | game/agent.py:84-105 | never raises: a lookup or `args` subscript error becomes `tool_executed` false with `Error handling agent response: <error>` and the reply; otherwise it is `Dispatched` |
| `Agents.Agent.HandleAgentResponse` | game/agent.py:84-105 | the method returns `Handled` for the reply |
| `Agents.Agent.Dispatch` | game/agent.py:88-97 | the environment call returns `Dispatched` |
| `Agents.Agent.PromptLlmForAction` | game/agent.py:75-82 | one model call, logged; its reply, or the error text for a model exception |
| `Agents.Agent.SetCurrentTask` | game/agent.py:54-59 | appends exactly one user entry holding the task |
| `Agents.Agent.UpdateMemory` | game/agent.py:61-73 | appends the reply as an assistant entry, then the JSON of the result as a user entry; a result JSON cannot encode leaves only the first |
| `Agents.Agent.Logged` | game/agent.py:61-73 | the two log entries of a pass: the reply entry comes first, then at most one more (the result), and a pass that logs only the reply stops; no model call is made |
| `Agents.Agent.StepFrom` | game/agent.py:126-145 | one pass of the loop as a function of the log: it keeps every earlier entry, adds at most two, and makes at most one model call; the counts cover the loop's own model calls and entries, for tools that neither call the context's `llm` nor touch its `memory` |
| `Agents.Agent.StepFromSpec` | game/agent.py:126-145 | one pass makes one model call once the prompt is built, logs the reply, and stops on a terminal action; the counts cover the loop's own model calls and entries, for tools that neither call the context's `llm` nor touch its `memory` |
| `Agents.Agent.RunFrom` | game/agent.py:123-145 | the loop from iteration `i` on as a function of the log: earlier entries are never changed or reordered, and the model-call count never decreases; the counts cover the loop's own model calls and entries, for tools that neither call the context's `llm` nor touch its `memory` |
| `Agents.Agent.RunFromSpec` | game/agent.py:123-145 | the log only grows, by at most two entries and one model call per iteration, and by exactly that when the loop runs to the cap; the counts cover the loop's own model calls and entries, for tools that neither call the context's `llm` nor touch its `memory` |
| `Agents.Agent.TerminalStops` | game/agent.py:143-145 | a reply naming a terminal action stops the loop after one model call, even when the tool failed |
| `Agents.Agent.RunFromStep` | game/agent.py:123-145 | one more iteration of the loop is one pass followed by the rest |
| `Agents.Agent.RunIteration` | game/agent.py:126-145 | a pass changes the memory and the model log as `StepFrom` describes; the counts cover the loop's own model calls and entries, for tools that neither call the context's `llm` nor touch its `memory` |
| `Agents.Agent.Act` | game/agent.py:131-145 | the pass after the prompt: the model call, the action, the log entries and the termination test; the counts cover the loop's own model calls and entries, for tools that neither call the context's `llm` nor touch its `memory` |
| `Agents.Agent.ContextBase` | game/agent.py:111-116 | the context holds `memory`, `llm` and `environment_type`, in that order |
| `Agents.Agent.NewContext` | game/agent.py:111-116 | the run's context properties, with the caller's overriding the base ones |
| `Agents.Agent.StartRun` | game/agent.py:107-116 | the given memory, or a fresh one, gains the task entry; the context is built |
| `Agents.Agent.RunLoop` | game/agent.py:121-158 | the bounded loop changes the memory and the model log as `RunFrom` describes; its exceptions do not escape; the counts cover the loop's own model calls and entries, for tools that neither call the context's `llm` nor touch its `memory` |
| `Agents.Agent.Run` | game/agent.py:107-166 | without capabilities the run logs the task, then loops as `RunFrom` describes, and returns the memory; with any capability it raises `TypeError` after logging the task, with no model call; the counts cover the loop's own model calls and entries, for tools that neither call the context's `llm` nor touch its `memory` |
| `Agents.SubAgent.constructor` | tools/agentTools.py:21-24 | a sub-agent is its behaviour and the items a raising run leaves |
| `Agents.SubAgent.Run` | tools/agentTools.py:21-24 | runs on the given memory, or a fresh one, and returns it; a raising run propagates and leaves the memory with the items `leftBehind` gives |
| `Agents.AgentRegistry.constructor` | game/agent.py:170-171 | a new registry holds no agents |
| `Agents.AgentRegistry.RegisterAgent` | game/agent.py:173-174 | the name now finds the agent, other names are unchanged, and a re-registration keeps the listing |
| `Agents.AgentRegistry.GetAgent` | game/agent.py:176-177 | the registered agent, or nothing for an unknown name |
| `Agents.AgentRegistry.ListAgents` | game/agent.py:179-180 | every registered name, each once |
| `PromptTools.PromptExpert` | tools/promptTools.py:7-20 | without a model, the error text; otherwise one model call with the expert and user messages, and its reply |
| `PromptTools.Requests` | tools/promptTools.py:64-72 | the same request, once per attempt |
| `PromptTools.ExtractJsonBlock` | tools/promptTools.py:75-83 | the text taken from a reply, from after the first JSON fence to before the last closing fence, or the whole reply; it is never longer than the reply |
| `PromptTools.ExtractWithoutBlock` | tools/promptTools.py:82-83 | a reply without a JSON fence is taken whole, stripped |
| `PromptTools.FindAfterPrefix` | tools/promptTools.py:76 | the JSON block starts right after the first opening fence |
| `PromptTools.RFindLast` | tools/promptTools.py:77 | the closing fence is the last one |
| `PromptTools.ExtractClosedBlock` | tools/promptTools.py:75-79 | a closed block gives its stripped body |
| `PromptTools.ExtractOpenBlock` | tools/promptTools.py:80-81 | a block never closed runs to the end of the reply |
| `PromptTools.Attempts` | tools/promptTools.py:64-85 | three attempts, one per model reply |
| `PromptTools.RetryFrom` | tools/promptTools.py:64-90 | the retry loop from attempt `attempt` on: it makes between one more and three attempts in all, and its result is the outcome of the last attempt made |
| `PromptTools.RetrySpec` | tools/promptTools.py:64-90 | one to three attempts; the result is the last attempt's; every earlier one was a caught `ValueError`; a `ValueError` on the third attempt is re-raised |
| `PromptTools.RetryStep` | tools/promptTools.py:87-90 | a caught `ValueError` before the last attempt leads to one more attempt |
| `PromptTools.RetryStop` | tools/promptTools.py:85-89 | any other outcome, or the last attempt, ends the loop |
| `PromptTools.PromptLlmForJson` | tools/promptTools.py:53-90 | `ValueError` without a model; a schema JSON cannot encode raises `TypeError` with no call; otherwise the retry loop's result, with one logged request per attempt |
| `PromptTools.AskForJson` | tools/promptTools.py:64-90 | the body once a model was found |
| `PromptTools.AttemptOnce` | tools/promptTools.py:65-85 | one model call, logged, and the parse of its reply |
| `PromptTools.RetryLoop` | tools/promptTools.py:64-90 | the `for` loop gives `RetryFrom` of the three attempts |
| `AgentTools.FindAgent` | tools/agentTools.py:10-16 | the registered agent; `ValueError` for a missing registry or an unknown name |
| `AgentTools.FindAgentAnyTool` | tools/agentTools.py:10-120 | the four tools find the same agents; only their messages differ |
| `AgentTools.LastContent` | tools/agentTools.py:27-31 | the last item's content, the default when it has none, or the text for no items |
| `AgentTools.CallAgentResult` | tools/agentTools.py:26-44 | success iff the run succeeded with items, then with the agent, the last content and the item count; no items give `success: false`; a sub-agent exception gives `success: false` with its text |
| `AgentTools.CallAgent` | tools/agentTools.py:7-44 | the agent runs on a fresh empty memory and the result is `CallAgentResult` |
| `AgentTools.Thoughts` | tools/agentTools.py:67-73 | one entry per sub-agent item, in order |
| `AgentTools.ThoughtsProvenance` | tools/agentTools.py:68-73 | each thought is tagged `agent_source` and `<name>_thought` and carries its item's content |
| `AgentTools.AppendThoughts` | tools/agentTools.py:65-74 | the caller's memory gains exactly the thoughts, after its own items; the count is the number of items |
| `AgentTools.Reflection` | tools/agentTools.py:56-82 | the caller's items are kept and `memories_added` is the number of entries added |
| `AgentTools.Reflect` | tools/agentTools.py:56-82 | the body after the lookup behaves as `Reflection` |
| `AgentTools.CallAgentWithReflection` | tools/agentTools.py:46-82 | the lookup's error, or `Reflection` of the caller's memory |
| `AgentTools.HandOffToAgent` | tools/agentTools.py:84-108 | the agent runs on the caller's own memory, with no copy; the memory becomes the agent's items, also when the run raises; a failed lookup or a non-Memory entry leaves it unchanged |
| `AgentTools.MemIdInjective` | tools/agentTools.py:132 | different positions get different `mem_<index>` ids |
| `AgentTools.Tag` | tools/agentTools.py:128-133 | one tagged item per item |
| `AgentTools.TagSpec` | tools/agentTools.py:128-133 | each tagged item keeps its own fields and no two share an id |
| `AgentTools.TagMemories` | tools/agentTools.py:128-133 | the loop builds exactly `Tag` |
| `AgentTools.MemoryLine` | tools/agentTools.py:155-158 | the summary line of an item: its id and its content, truncated beyond 100 characters, or the error its content's `len` raises |
| `AgentTools.MemoryLines` | tools/agentTools.py:155-158 | one line per item, or the first failure |
| `AgentTools.SelectionSchemaSerializable` | tools/agentTools.py:136-152 | the selection schema can be sent as JSON |
| `AgentTools.SelectedIds` | tools/agentTools.py:180 | the set of the selected strings; an unhashable element raises `TypeError` naming the type of the first one; a value that is not iterable raises `TypeError` naming its type |
| `AgentTools.SelectedIndicesSpec` | tools/agentTools.py:181-182 | exactly the positions whose id was selected, in increasing order; unknown ids are ignored |
| `AgentTools.FilteredSpec` | tools/agentTools.py:179-185 | the filtered memory holds exactly the selected items, in order, without `memory_id` |
| `AgentTools.FilterMemories` | tools/agentTools.py:181-185 | the loop fills the filtered memory with `Filtered` |
| `AgentTools.Shared` | tools/agentTools.py:201-205 | one entry per sub-agent item, tagged with `agent_source` |
| `AgentTools.ShareResults` | tools/agentTools.py:201-205 | the caller's memory gains exactly those entries, after its own |
| `AgentTools.AfterSelection` | tools/agentTools.py:178-215 | a failure leaves the caller's memory unchanged |
| `AgentTools.SelectionSucceeds` | tools/agentTools.py:178-215 | the caller's memory gains one reasoning entry, then one entry per sub-agent item tagged with `agent_source`; `shared_memories` and `total_memories_available` count the filtered and the available items |
| `AgentTools.SelectedContext` | tools/agentTools.py:122-215 | without a memory or items, the plain call on a fresh memory; a model is asked only when the memories can be rendered |
| `AgentTools.SelectedContextWithItems` | tools/agentTools.py:128-215 | with items, the rendered memories decide whether the model is asked, then the selection decides the rest |
| `AgentTools.SelectAndCall` | tools/agentTools.py:128-215 | the body once the caller's memory has items |
| `AgentTools.AskAndUse` | tools/agentTools.py:172-215 | asks the model which memories to share, then uses the answer |
| `AgentTools.UseSelection` | tools/agentTools.py:178-215 | the part after the selection arrives is `AfterSelection` |
| `AgentTools.SelectFor` | tools/agentTools.py:122-215 | the body after the lookup is `SelectedContext` |
| `AgentTools.SelectWithMemory` | tools/agentTools.py:122-215 | the same, once the caller's memory is a `Memory` |
| `AgentTools.CallAgentWithSelectedContext` | tools/agentTools.py:110-215 | the lookup's error with nothing changed, or `SelectedContext` of the caller's memory and model |
| `DevEvalTools.Analyse` | tools/devEvalTools.py:186-187 | a line's stripped text is empty iff the line is all whitespace; otherwise it starts with a non-space; the indent is at most the line's length |
| `DevEvalTools.NewIndent` | tools/devEvalTools.py:225-227 | a multiple of 4, at least 4; for a non-negative relative indent the smallest multiple of 4 above it |
| `DevEvalTools.Step` | tools/devEvalTools.py:185-231 | one iteration of the line loop over its five variables; it has no contract of its own, and `DevEvalTools.StepSpec` states what it does |
| `DevEvalTools.ScanLines` | tools/devEvalTools.py:185-231 | the loop's variables after a prefix of the lines; it has no contract of its own, and `DevEvalTools.ScanProvenance` and `DevEvalTools.StopsAt` state what it keeps |
| `DevEvalTools.StepSpec` | tools/devEvalTools.py:185-231 | one line: the scan keeps at most the emitted line; it keeps one iff inside the function, not in or opening a docstring, and not at the end of the body; it stops exactly at the end of the body |
| `DevEvalTools.ScanBody` | tools/devEvalTools.py:178-231 | the line loop gives exactly the kept lines of `ScanLines` |
| `DevEvalTools.StoppedStays` | tools/devEvalTools.py:214-220 | once the loop breaks, later lines change nothing |
| `DevEvalTools.DropBlanks` | tools/devEvalTools.py:234-235 | the pop loop removes exactly the trailing blank lines |
| `DevEvalTools.ReindentLines` | tools/devEvalTools.py:244-254 | the final loop gives `Reindented` of its lines |
| `DevEvalTools.FirstDef` | tools/devEvalTools.py:190 | the first line opening a function: no earlier line does |
| `DevEvalTools.ScanProvenance` | tools/devEvalTools.py:185-231 | the scan is inside a function iff some line opens one, with that line's indent; each kept line is the re-indented form of a later line; the `def` line itself is never kept; kept lines follow source order |
| `DevEvalTools.StopsAt` | tools/devEvalTools.py:214-220 | when the scan is inside the function, outside a docstring and not yet stopped, and the line neither opens a docstring nor is empty, a comment or indented deeper than the `def` line, the kept lines are those before it: the body ends there |
| `DevEvalTools.DocstringOpen` | tools/devEvalTools.py:205-212 | a docstring stays open until a line contains its quote |
| `DevEvalTools.DocstringSkipped` | tools/devEvalTools.py:198-212 | a multi-line docstring is dropped up to and including its closing line |
| `DevEvalTools.NoFunctionFallback` | tools/devEvalTools.py:190-241 | input with no line opening a function gives the `pass` fallback |
| `DevEvalTools.EmitIsFinal` | tools/devEvalTools.py:223-252 | an emitted line is indented by a multiple of 4, at least 4, so the final pass leaves it unchanged |
| `DevEvalTools.SplitJoin` | tools/devEvalTools.py:237-244 | splitting the joined lines at newlines gives them back |
| `DevEvalTools.ReindentedIdentity` | tools/devEvalTools.py:244-254 | the final pass is the identity on lines already indented by at least 4 |
| `DevEvalTools.KeptLinesFinal` | tools/devEvalTools.py:185-237 | every kept line survives the final pass unchanged |
| `DevEvalTools.CleanCode` | tools/devEvalTools.py:185-256 | the result is the fallback, or a text whose lines are exactly the kept lines |
| `DevEvalTools.CleanCodeResult` | tools/devEvalTools.py:237-256 | the result is the joined kept lines, or the fallback when they strip to fewer than 5 characters; otherwise its lines are exactly the kept lines |
| `DevEvalTools.ExtractCleanCode` | tools/devEvalTools.py:170-256 | the tool returns `CleanCode` of its (fence-free) input |

## Left out

- game/llms.py is not part of this model: it is a network client for the model service. The model is an oracle of replies (`ModelCall.LanguageModel`).
- main.py is not part of this model: it only wires agents together.
- tools/fileTools.py is not part of this model: it is filesystem I/O.
- The prompting tools of tools/devEvalTools.py (`analyze_deveval_requirements`, `generate_complete_function`, `generate_bdd_tests`, `review_deveval_code`, lines 7-169) are left out. They are fixed prompt texts around a model call.
- `consult_senior_developer` and `consult_code_reviewer` (tools/promptTools.py:22-51) are left out. Each calls `prompt_expert` with a fixed text, and `PromptTools.PromptExpert` models that call.
- `DevEvalTools.ExtractCleanCode`: the two regular-expression substitutions that strip markdown fences (tools/devEvalTools.py:175-176) are not modelled. The input is the answer after that step.
- `json.loads`, `json.dumps`, `str()`, `id()`, `traceback.format_exc()` and the clocks (`time.strftime`, `datetime.now`) are fields of the `Runtime` parameter. Their results are not computed.
- Memory timestamps are the `clock` parameter of `Memory.Memory.AddMemory`.
- `Agents.Agent.Run`: the counts in its contract (`|model.log|` equal to the loop's calls, the memory equal to `RunFrom`'s items) hold only for tools that neither call the context's `llm` nor change its `memory`. A tool is a function of its keyword arguments (`Tools.ToolFunction.body`). `prompt_expert` calls the run's model, `call_agent_with_selected_context` asks it through `prompt_llm_for_json`, `call_agent_with_reflection` and `call_agent_with_selected_context` append to the run's memory, and `hand_off_to_agent` gives the run's memory to another agent; the model does not add their calls and entries to the run's. `AgentTools` models each of these tools on its own, with the model and memory as its state.
- `Agents.Agent.RunFromSpec`: the bounds of at most two entries and one model call per iteration, and exactly that at the cap, are stated for tools that neither call the context's `llm` nor touch its `memory`; `prompt_expert`, `call_agent_with_reflection`, `hand_off_to_agent` and `call_agent_with_selected_context` do. The same holds for `Agents.Agent.StepFrom`, `Agents.Agent.StepFromSpec`, `Agents.Agent.RunFrom`, `Agents.Agent.RunIteration`, `Agents.Agent.Act` and `Agents.Agent.RunLoop`.
- Reflection (`inspect.signature`, `get_type_hints`, `co_varnames`) is replaced by data:
  - a tool function is its declared parameter list (name, has-default);
  - the environment's class is an `EnvironmentKind` value.
- `type_hints` are read but never used by the source, so they are absent.
- `parameters_override` is accepted but, as in the source, has no effect.
- Console output (`print`) and `KeyboardInterrupt` are not modelled.
- Exception texts follow CPython 3.11: a function is named by its qualified name, as in `AIReviewBDDEnvironment._execute_with_review_loop() missing 1 required positional argument: 'args'`.
- Two texts follow Python 3.11 and earlier: `terminate`'s description keeps its docstring's indentation, which Python 3.13 strips; and slicing a dict (`content[:100]`) raises `TypeError: unhashable type: 'slice'`, where Python 3.12 raises `KeyError`.
- The `review_and_execute_staged` branch of `Agent.run` (game/agent.py:147-153) is not modelled. No environment defines that method, so the branch is never taken.
- Capability `terminate` and `process_response` hooks are not modelled as calls. A run with a capability already raises at `init` (game/agent.py:119), so neither is ever reached, and the `finally` is not entered.
- `uuid` transaction ids (game/actions.py:102) are not modelled. Nothing reads them.
- `async`/`await` in `ReversibleAction` and `ActionTransaction` are not modelled. The awaits run strictly in sequence, so the methods are ordinary ones.
- `ActionContexts.ActionContext.constructor`: a properties dict passed in is shared with the caller in Python. The model copies its value, so later changes through another reference are not seen.
- `AgentTools.CallAgentWithSelectedContext`: the contract states the number of model calls, not the text of the selection prompt sent.
- `Environments.ContextExecute`: the contract states the `tool_executed` flag, the possible keys and the error of non-dict arguments. For dict arguments, the values of `result`, `timestamp` and `error` are given by its definition, not by an `ensures`.
- `Tools.Call`: the unexpected-keyword text names the function but not the keyword. Python names the first unexpected keyword in the dict's order, and the model's keyword bindings are an unordered map. Keyword-only parameters and `**kwargs` parameters are not modelled; no tool declares them.
- `Values.Value` has no float case. A JSON number with a fraction or exponent in a model reply is not represented; nothing in the core computes with one.
- `AgentLanguage.ParseResponse`: a decoded list or string reply is handled as in Python (an element or substring test), but the contract states only the object, error and decoding cases.
- `Environments.StagedActionEnvironment.ReviewTransaction`: the review prompt is built but its text is not stated in the contract.
- `Values.In`, `Values.GetItem`, `Values.Dumps`, `Values.DumpsIndented`, `Values.Loads` and `ModelCall.CallValue`: the messages of the `TypeError`, `JSONDecodeError` and subscript errors they raise are fixed summaries. Python's own texts name the operand's type or the failing position; only the exception class is modelled exactly.

## Findings

| source | as written | input that shows it | evidently intended | confidence | as-written member | corrected member |
|---|---|---|---|---|---|---|
| game/environment.py:156-179 | `execute_with_ai_review` calls `_execute_with_review_loop(action_context, action, args)`, but the method declares `(agent, action_context, action, args)`. Any review operation raises `TypeError` before anything runs. Inside it, `context_env.execute_action(agent, action_context, action, args)` passes one argument too many as well. So the AI-review loop can never run. | an action named `generate_production_code` | run the review loop: execute the action in the context environment, review it with the model, and retry with feedback up to `max_review_iterations` times | not executed | `Environments.ExecuteWithAIReview` (with `Environments.ReviewOperationsNeverRun`) | `Environments.ReviewLoop` (with `Environments.ReviewFromSpec`, `Environments.ReviewFromArgs`) |
