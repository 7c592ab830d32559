/** game/actions.py: the named actions an agent may take, the registries that hold
    them, and all-or-nothing transactions over reversible actions. */
module Actions {
  import opened Values
  import opened Dicts
  import opened Tools

  // The texts of the exceptions raised here.
  const NoTerminateTool: string := "Terminate tool not found in global registry"
  const NoRegisterTerminateTool: string := "'ActionRegistry' object has no attribute 'register_terminate_tool'"
  const NothingToReverse: string := "No action to reverse"
  const AlreadyCommited: string := "Transaction already commited"
  const NotFoundPrefix: string := "Action '"
  const NotFoundSuffix: string := "' not found in registry"

  /** The text of the `ValueError` for an unknown action name. */
  function NotFound(name: string): string {
    NotFoundPrefix + name + NotFoundSuffix
  }

  /** An `Action`: a tool function with the name, description and argument
      schema the model sees, and whether taking it ends the run. */
  datatype Action = Action(
    name: string,
    fn: ToolFunction,
    description: Option<string>,
    parameters: Value,
    terminal: bool)
  {
    /** `execute(**args)`: the function called on the arguments as keywords. */
    function Execute(args: Entry): Outcome<Value> {
      Call(fn, args)
    }
  }

  /** The action `DecoratorActionRegistry` builds from the catalogue entry `name`. */
  function ActionOf(name: string, entry: ToolEntry): Action {
    Action(name, entry.fn, entry.description, entry.parameters, entry.terminal)
  }

  /** `x` is falsy: `None` or an empty list. */
  predicate Unset(x: Option<seq<string>>) {
    x.None? || x.value == []
  }

  /** The filters of `DecoratorActionRegistry`: an unset filter admits every tool;
      a name list admits the tools it names; a tag list admits the tools sharing
      at least one tag with it. */
  predicate Selected(name: string, entry: ToolEntry, tags: Option<seq<string>>, toolNames: Option<seq<string>>) {
    && (Unset(toolNames) || name in toolNames.value)
    && (Unset(tags) || exists t :: t in tags.value && t in entry.tags)
  }

  /** The actions the registry holds after scanning the first catalogue keys `keys`. */
  function SelectActions(keys: seq<string>, tools: map<string, ToolEntry>,
                         tags: Option<seq<string>>, toolNames: Option<seq<string>>): (r: Dict<Action>)
    requires forall i :: 0 <= i < |keys| ==> keys[i] in tools
    ensures forall k :: k in r.m <==> k in keys && Selected(k, tools[k], tags, toolNames)
    ensures forall k :: k in r.m ==> r.m[k] == ActionOf(k, tools[k])
    ensures |r.keys| <= |keys|
  {
    if keys == [] then Empty()
    else
      var n := |keys| - 1;
      var prior := SelectActions(keys[..n], tools, tags, toolNames);
      assert forall k :: k in keys <==> k in keys[..n] || k == keys[n] by {
        assert keys == keys[..n] + [keys[n]];
      }
      if Selected(keys[n], tools[keys[n]], tags, toolNames) then Put(prior, keys[n], ActionOf(keys[n], tools[keys[n]]))
      else prior
  }

  lemma SelectActionsStep(keys: seq<string>, tools: map<string, ToolEntry>,
                          tags: Option<seq<string>>, toolNames: Option<seq<string>>, i: nat)
    requires i < |keys| && forall j :: 0 <= j < |keys| ==> keys[j] in tools
    ensures var prior := SelectActions(keys[..i], tools, tags, toolNames);
            SelectActions(keys[..i + 1], tools, tags, toolNames)
            == if Selected(keys[i], tools[keys[i]], tags, toolNames) then Put(prior, keys[i], ActionOf(keys[i], tools[keys[i]]))
               else prior
  {
    assert keys[..i + 1][..i] == keys[..i];
  }

  lemma PrefixStep(keys: seq<string>, i: nat, x: string)
    requires i < |keys|
    ensures x in keys[..i + 1] <==> x in keys[..i] || keys[i] == x
  {
    assert keys[..i + 1] == keys[..i] + [keys[i]];
  }

  /** The loop of `DecoratorActionRegistry.__init__` over the catalogue. */
  method ScanCatalogue(tools: Dict<ToolEntry>, tags: Option<seq<string>>, toolNames: Option<seq<string>>)
    returns (registered: Dict<Action>, terminate: Option<ToolEntry>)
    ensures registered == SelectActions(tools.keys, tools.m, tags, toolNames)
    ensures terminate == Lookup(tools, "terminate")
  {
    registered := Empty();
    terminate := None;
    var i := 0;
    while i < |tools.keys|
      invariant 0 <= i <= |tools.keys|
      invariant registered == SelectActions(tools.keys[..i], tools.m, tags, toolNames)
      invariant terminate == (if "terminate" in tools.keys[..i] then Some(tools.m["terminate"]) else None)
    {
      var toolName := tools.keys[i];
      var toolDesc := tools.m[toolName];
      PrefixStep(tools.keys, i, "terminate");
      if toolName == "terminate" {
        terminate := Some(toolDesc);
      }
      SelectActionsStep(tools.keys, tools.m, tags, toolNames, i);
      if Selected(toolName, toolDesc, tags, toolNames) {
        registered := Put(registered, toolName, ActionOf(toolName, toolDesc));
      }
      i := i + 1;
    }
    assert tools.keys[..i] == tools.keys;
  }

  /** The action registered as `name` in `actions`, or `ValueError`. */
  function ActionNamed(actions: Dict<Action>, name: string): (r: Outcome<Action>)
    ensures r.Ok? <==> name in actions.m
    ensures r.Ok? ==> r.value == actions.m[name]
    ensures r.Raised? ==> r.exc.kind == ValueError
  {
    if name in actions.m then Ok(actions.m[name])
    else Raised(Exc(ValueError, NotFound(name)))
  }

  /** `ActionRegistry`, and `DecoratorActionRegistry` when built `FromCatalogue`.
      `actions` keeps the order in which names were first registered. */
  class ActionRegistry {
    var actions: Dict<Action>
    /** Whether this is a `DecoratorActionRegistry`, the only kind with `terminate_tool` and `register_terminate_tool()`. */
    const decorated: bool
    /** The catalogue's `terminate` entry, remembered by a decorator registry. */
    var terminateTool: Option<ToolEntry>

    /** `ActionRegistry()`. */
    constructor()
      ensures actions == Empty() && !decorated && terminateTool == None
    {
      actions := Empty();
      decorated := false;
      terminateTool := None;
    }

    /** `DecoratorActionRegistry(tags, tool_names)`: registers, in catalogue order,
        every catalogue tool the filters select, and remembers the `terminate`
        entry whether or not the filters select it. */
    constructor FromCatalogue(catalogue: Catalogue, tags: Option<seq<string>>, toolNames: Option<seq<string>>)
      ensures decorated
      ensures actions == SelectActions(catalogue.tools.keys, catalogue.tools.m, tags, toolNames)
      ensures terminateTool == Lookup(catalogue.tools, "terminate")
    {
      decorated := true;
      var registered, terminate := ScanCatalogue(catalogue.tools, tags, toolNames);
      actions := registered;
      terminateTool := terminate;
    }

    /** `register(action)`: stored under its name; an earlier action of that name is
        replaced and the name keeps its place. */
    method Register(action: Action)
      modifies this
      ensures actions == Put(old(actions), action.name, action)
      ensures GetAction(action.name) == Ok(action)
      ensures forall k :: k != action.name ==> GetAction(k) == old(GetAction(k))
      ensures terminateTool == old(terminateTool)
    {
      actions := Put(actions, action.name, action);
    }

    /** `get_action(name)`: the registered action, or `ValueError`. */
    function GetAction(name: string): (r: Outcome<Action>)
      reads this
      ensures r.Ok? <==> name in actions.m
      ensures r.Ok? ==> r.value == actions.m[name]
      ensures r.Raised? ==> r.exc.kind == ValueError
    {
      ActionNamed(actions, name)
    }

    /** `get_actions()`: every registered action, in the order its name was first registered. */
    function GetActions(): (r: seq<Action>)
      reads this
      ensures |r| == |actions.keys|
      ensures forall i :: 0 <= i < |r| ==> r[i] == actions.m[actions.keys[i]]
      ensures forall k :: k in actions.m ==> actions.m[k] in r
    {
      var r := ValueList(actions);
      forall k | k in actions.m
        ensures actions.m[k] in r
      {
        var j :| 0 <= j < |actions.keys| && actions.keys[j] == k;
        assert r[j] == actions.m[k];
      }
      r
    }

    /** `register_terminate_tool()`: registers the remembered `terminate` entry, or
        raises when the catalogue had none; a plain `ActionRegistry` has no such
        method, so calling it there raises `AttributeError`. */
    method RegisterTerminateTool() returns (r: Outcome<()>)
      modifies this
      ensures !decorated ==> r == Raised(Exc(AttributeError, NoRegisterTerminateTool)) && actions == old(actions)
      ensures decorated && terminateTool.None? ==> r == Raised(Exc(OtherError, NoTerminateTool)) && actions == old(actions)
      ensures decorated && terminateTool.Some? ==>
                r.Ok? && actions == Put(old(actions), "terminate", ActionOf("terminate", terminateTool.value))
      ensures terminateTool == old(terminateTool)
    {
      if !decorated {
        return Raised(Exc(AttributeError, NoRegisterTerminateTool));
      }
      if terminateTool.None? {
        return Raised(Exc(OtherError, NoTerminateTool));
      }
      Register(ActionOf("terminate", terminateTool.value));
      r := Ok(());
    }
  }

  /** A registry built from the catalogue holds the selected tools, each under its
      own name, and no other. */
  lemma SelectedActionsValid(catalogue: Dict<ToolEntry>, tags: Option<seq<string>>, toolNames: Option<seq<string>>)
    ensures var r := SelectActions(catalogue.keys, catalogue.m, tags, toolNames);
            && (forall k :: k in r.m ==> r.m[k].name == k)
            && (forall k :: k in r.m <==> k in catalogue.m && Selected(k, catalogue.m[k], tags, toolNames))
  {}

  /** What `ReversibleAction.run` records: the arguments and the result. */
  datatype ExecutionRecord = ExecutionRecord(args: Entry, result: Value)

  /** `ReversibleAction`: a forward function and a reverse function, which is
      called with the recorded arguments and result. */
  class ReversibleAction {
    const executeFn: Entry -> Outcome<Value>
    const reverseFn: ExecutionRecord -> Outcome<Value>
    var record: Option<ExecutionRecord>

    constructor(executeFn: Entry -> Outcome<Value>, reverseFn: ExecutionRecord -> Outcome<Value>)
      ensures this.executeFn == executeFn && this.reverseFn == reverseFn && record == None
    {
      this.executeFn := executeFn;
      this.reverseFn := reverseFn;
      record := None;
    }

    /** `run(**args)`: a success is recorded (replacing an earlier record); a
        failure leaves the record as it was. */
    method Run(args: Entry) returns (r: Outcome<Value>)
      modifies this
      ensures r == executeFn(args)
      ensures record == RecordAfterRun(old(record), args)
    {
      r := executeFn(args);
      if r.Ok? {
        record := Some(ExecutionRecord(args, r.value));
      }
    }

    /** The record after running on `args` with `previous` recorded. */
    function RecordAfterRun(previous: Option<ExecutionRecord>, args: Entry): Option<ExecutionRecord> {
      match executeFn(args)
      case Ok(v) => Some(ExecutionRecord(args, v))
      case Raised(_) => previous
    }

    /** `undo()`: `ValueError` when nothing was run, else the reverse function on the record. */
    function Undo(): (r: Outcome<Value>)
      reads this
      ensures record.None? ==> r == Raised(Exc(ValueError, NothingToReverse))
      ensures record.Some? ==> r == reverseFn(record.value)
    {
      match record
      case None => Raised(Exc(ValueError, NothingToReverse))
      case Some(rec) => reverseFn(rec)
    }
  }

  /** A staged action and its keyword arguments. */
  datatype Staged = Staged(action: ReversibleAction, args: Entry)

  function ActionsOf(staged: seq<Staged>): (r: seq<ReversibleAction>)
    ensures |r| == |staged| && forall i :: 0 <= i < |r| ==> r[i] == staged[i].action
  {
    seq(|staged|, i requires 0 <= i < |staged| => staged[i].action)
  }

  function Objects(acts: seq<ReversibleAction>): set<object> {
    set i | 0 <= i < |acts| :: acts[i]
  }

  function StagedObjects(staged: seq<Staged>): set<object> {
    set i | 0 <= i < |staged| :: staged[i].action as object
  }

  /** The outcome of undoing `acts` from last to first, stopping at the first undo
      that raises. */
  ghost function RollbackOutcome(acts: seq<ReversibleAction>): Outcome<()>
    reads Objects(acts)
  {
    if acts == [] then Ok(())
    else
      var last := acts[|acts| - 1];
      assert last in Objects(acts);
      match last.Undo()
      case Raised(e) => Raised(e)
      case Ok(_) => RollbackOutcome(acts[..|acts| - 1])
  }

  /** Rollback succeeds exactly when every undo succeeds; otherwise it raises what
      the last-executed failing undo raised. */
  lemma {:induction false} RollbackOutcomeOk(acts: seq<ReversibleAction>)
    ensures RollbackOutcome(acts).Ok? <==> forall i :: 0 <= i < |acts| ==> acts[i].Undo().Ok?
    ensures RollbackOutcome(acts).Raised? ==>
              exists i :: 0 <= i < |acts| && acts[i].Undo() == Raised(RollbackOutcome(acts).exc)
                && forall j :: i < j < |acts| ==> acts[j].Undo().Ok?
  {
    if acts != [] {
      var n := |acts| - 1;
      RollbackOutcomeOk(acts[..n]);
      assert forall i :: 0 <= i < n ==> acts[..n][i] == acts[i];
    }
  }

  /** The index of the first staged action whose run raises, or `|staged|`. */
  function FirstFailure(staged: seq<Staged>): (k: nat)
    ensures k <= |staged|
    ensures forall i :: 0 <= i < k ==> staged[i].action.executeFn(staged[i].args).Ok?
    ensures k < |staged| ==> staged[k].action.executeFn(staged[k].args).Raised?
  {
    if staged == [] then 0
    else if staged[0].action.executeFn(staged[0].args).Raised? then 0
    else 1 + FirstFailure(staged[1..])
  }

  /** The record of `a` after the staged runs `staged` all succeeded: the last run
      of `a` among them, or `before` when `a` was not staged. */
  function RecordAfter(a: ReversibleAction, staged: seq<Staged>, before: Option<ExecutionRecord>): Option<ExecutionRecord> {
    if staged == [] then before
    else
      var n := |staged| - 1;
      var prior := RecordAfter(a, staged[..n], before);
      if staged[n].action == a then a.RecordAfterRun(prior, staged[n].args) else prior
  }

  /** `ActionTransaction`. Python creates the attribute `committed` only when
      `commit` runs; here it starts false. `add` tests `commited`, which nothing
      ever sets. */
  class ActionTransaction {
    var actions: seq<Staged>
    var executed: seq<ReversibleAction>
    var commited: bool
    var committed: bool

    constructor()
      ensures actions == [] && executed == [] && !commited && !committed
    {
      actions := [];
      executed := [];
      commited := false;
      committed := false;
    }

    /** `add(action, **args)`: stages the pair at the end, unless `commited` is set. */
    method Add(action: ReversibleAction, args: Entry) returns (r: Outcome<()>)
      modifies this
      ensures commited ==> r == Raised(Exc(ValueError, AlreadyCommited)) && actions == old(actions)
      ensures !commited ==> r == Ok(()) && actions == old(actions) + [Staged(action, args)]
      ensures executed == old(executed) && commited == old(commited) && committed == old(committed)
    {
      if commited {
        return Raised(Exc(ValueError, AlreadyCommited));
      }
      actions := actions + [Staged(action, args)];
      r := Ok(());
    }

    /** `commit()`: sets `committed`, which `add` never reads. */
    method Commit()
      modifies this
      ensures committed && commited == old(commited)
      ensures actions == old(actions) && executed == old(executed)
    {
      committed := true;
    }

    /** `rollback()`: undoes the executed actions from last to first; when every
        undo succeeds the executed list is cleared, otherwise the first exception
        propagates and the list stays as it was. */
    method Rollback() returns (r: Outcome<()>)
      modifies this
      ensures r == RollbackOutcome(old(executed))
      ensures r.Ok? ==> executed == []
      ensures r.Raised? ==> executed == old(executed)
      ensures actions == old(actions) && commited == old(commited) && committed == old(committed)
    {
      var i := |executed|;
      assert executed[..i] == executed;
      while i > 0
        invariant 0 <= i <= |executed| && executed == old(executed)
        invariant RollbackOutcome(executed) == RollbackOutcome(executed[..i])
      {
        assert executed[..i][..i - 1] == executed[..i - 1];
        assert executed[i - 1] in Objects(executed[..i]);
        var u := executed[i - 1].Undo();
        assert executed[..i][i - 1] == executed[i - 1];
        if u.Raised? {
          assert RollbackOutcome(executed[..i]) == Raised(u.exc);
          return Raised(u.exc);
        }
        i := i - 1;
      }
      assert executed[..0] == [];
      assert RollbackOutcome(old(executed)) == Ok(());
      assert this !in Objects(old(executed));
      executed := [];
      r := Ok(());
    }

    /** The `except` branch of `execute()`: roll back, then re-raise `e` unless
        the rollback itself raised. */
    method Abort(e: Exc) returns (r: Outcome<()>)
      modifies this
      ensures var rb := RollbackOutcome(old(executed));
              && r == (if rb.Raised? then rb else Raised(e))
              && executed == (if rb.Raised? then old(executed) else [])
      ensures actions == old(actions) && commited == old(commited) && committed == old(committed)
    {
      var rb := Rollback();
      if rb.Raised? {
        return rb;
      }
      r := Raised(e);
    }

    /** `execute()`: runs the staged actions in order, appending each to `executed`
        once it has succeeded. When one raises, the actions executed so far are
        undone from last to first and the exception is re-raised; the failing
        action itself is not undone. An undo that raises replaces the exception. */
    method Execute() returns (r: Outcome<()>)
      requires this !in StagedObjects(actions)  // a transaction is never one of its own actions
      modifies this, StagedObjects(actions)
      ensures var k := FirstFailure(old(actions));
              var ran := old(executed) + ActionsOf(old(actions)[..k]);
              && (k == |old(actions)| ==> r == Ok(()) && executed == ran)
              && (k < |old(actions)| ==>
                    var e := old(actions)[k].action.executeFn(old(actions)[k].args).exc;
                    var rb := RollbackOutcome(ran);
                    && r == (if rb.Raised? then rb else Raised(e))
                    && executed == (if rb.Raised? then ran else []))
      ensures forall a :: a in ActionsOf(old(actions)) ==>
                a.record == RecordAfter(a, old(actions)[..FirstFailure(old(actions))], old(a.record))
      ensures actions == old(actions) && commited == old(commited) && committed == old(committed)
    {
      var failure := RunStaged();
      if failure.Some? {
        r := Abort(failure.value);
      } else {
        r := Ok(());
      }
    }

    /** The `try` body of `execute()`: runs the staged actions in order up to the
        first that raises, appending each success to `executed`, and yields that
        exception. */
    method RunStaged() returns (failure: Option<Exc>)
      requires this !in StagedObjects(actions)
      modifies this, StagedObjects(actions)
      ensures var k := FirstFailure(old(actions));
              && executed == old(executed) + ActionsOf(old(actions)[..k])
              && (failure.Some? <==> k < |old(actions)|)
              && (failure.Some? ==> failure.value == old(actions)[k].action.executeFn(old(actions)[k].args).exc)
      ensures forall a :: a in ActionsOf(old(actions)) ==>
                a.record == RecordAfter(a, old(actions)[..FirstFailure(old(actions))], old(a.record))
      ensures actions == old(actions) && commited == old(commited) && committed == old(committed)
    {
      var k := FirstFailure(actions);
      var i := 0;
      while i < |actions|
        invariant 0 <= i <= k && actions == old(actions)
        invariant executed == old(executed) + ActionsOf(actions[..i])
        invariant forall a :: a in ActionsOf(actions) ==> a.record == RecordAfter(a, actions[..i], old(a.record))
        invariant commited == old(commited) && committed == old(committed)
      {
        var s := actions[i];
        assert s.action in StagedObjects(actions);
        assert actions[..i + 1][..i] == actions[..i];
        var result := s.action.Run(s.args);
        if result.Raised? {
          assert k == i;
          return Some(result.exc);
        }
        executed := executed + [s.action];
        i := i + 1;
      }
      assert actions[..i] == actions;
      failure := None;
    }
  }
}
