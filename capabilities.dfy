/** game/capabilities.py: hooks an agent calls around each step of its loop. The
    base class does nothing in any hook; `ProgressTrackingCapability` counts
    executed and failed actions; `TimeAwareCapability` tries to stamp the context
    with the current time. */
module Capabilities {
  import opened Values

  /** The capability classes of the framework. */
  datatype CapabilityKind = BaseCapability | ProgressTracking | TimeAware

  /** The positional parameters, `self` included, that a kind's `init` declares:
      `ProgressTrackingCapability.init(self)` drops the context parameter. */
  function InitArity(kind: CapabilityKind): nat {
    if kind == ProgressTracking then 1 else 2
  }

  /** The class whose `init` a kind runs: only `ProgressTrackingCapability`
      overrides it. */
  function InitOwner(kind: CapabilityKind): string {
    if kind == ProgressTracking then "ProgressTrackingCapability" else "Capability"
  }

  /** Python's binding of a call with `given` positional arguments (`self`
      included) to the method `name` (qualified by its class) declaring
      `declared` of them; the message says "argument" for one. */
  function Bind(name: string, declared: nat, given: nat): (r: Outcome<()>)
    ensures r.Ok? <==> declared == given
    ensures r.Raised? ==> r.exc.kind == TypeError
  {
    if declared == given then Ok(())
    else Raised(Exc(TypeError, name + "() takes " + Text.IntToString(declared)
                               + (if declared == 1 then " positional argument but " else " positional arguments but ")
                               + Text.IntToString(given) + " were given"))
  }

  // The texts of the `AttributeError`s the hooks raise.
  const NoNow: string := "module 'datetime' has no attribute 'now'"
  const NoActionsCompleted: string := "'ProgressTrackingCapability' object has no attribute 'actions_completed'"
  const NoErrorsEncountered: string := "'ProgressTrackingCapability' object has no attribute 'errors_encountered'"

  class Capability {
    const kind: CapabilityKind
    /** `actions_completed` and `errors_encountered`: attributes that only
        `ProgressTrackingCapability.init` creates, so `None` until then. */
    var actionsCompleted: Option<int>
    var errorsEncountered: Option<int>
    /** The `process_action` calls that found the counters in place. */
    ghost var tracked: nat

    constructor(kind: CapabilityKind)
      ensures this.kind == kind && actionsCompleted == None && errorsEncountered == None && tracked == 0
    {
      this.kind := kind;
      actionsCompleted := None;
      errorsEncountered := None;
      tracked := 0;
    }

    /** The counters exist together, are never negative, and add up to the number
        of actions tracked since `init`. */
    ghost predicate Valid()
      reads this
    {
      && (actionsCompleted.Some? <==> errorsEncountered.Some?)
      && (actionsCompleted.Some? ==>
            && actionsCompleted.value >= 0 && errorsEncountered.value >= 0
            && actionsCompleted.value + errorsEncountered.value == tracked)
    }

    /** `init(...)`: progress tracking sets both counters to zero; the other
        classes' `init` does nothing. */
    method Init()
      modifies this
      ensures kind == ProgressTracking ==>
                actionsCompleted == Some(0) && errorsEncountered == Some(0) && tracked == 0
      ensures kind != ProgressTracking ==>
                actionsCompleted == old(actionsCompleted) && errorsEncountered == old(errorsEncountered)
                && tracked == old(tracked)
      ensures kind == ProgressTracking ==> Valid()
    {
      if kind == ProgressTracking {
        actionsCompleted := Some(0);
        errorsEncountered := Some(0);
        tracked := 0;
      }
    }

    /** `process_prompt(...)`: nothing, except for the time-aware capability, whose
        `datetime.now()` looks up `now` on the `datetime` module and raises
        `AttributeError` before the context is touched. */
    function ProcessPrompt(): (r: Outcome<()>)
      ensures r.Raised? <==> kind == TimeAware
      ensures r.Raised? ==> r.exc.kind == AttributeError
    {
      if kind == TimeAware then Raised(Exc(AttributeError, NoNow))
      else Ok(())
    }

    /** `process_action(action_context, result)`: progress tracking adds one to
        `actions_completed` when `result.get('tool_executed')` is truthy and to
        `errors_encountered` otherwise (a missing key included); before `init`
        the counter does not exist and the update raises `AttributeError`. The
        other classes do nothing. */
    method ProcessAction(result: Entry) returns (r: Outcome<()>)
      modifies this
      requires Valid()
      ensures Valid()
      ensures kind != ProgressTracking ==> r == Ok(())
      ensures kind == ProgressTracking && old(actionsCompleted).None? ==> r.Raised? && r.exc.kind == AttributeError
      ensures kind != ProgressTracking || old(actionsCompleted).None? ==>
                actionsCompleted == old(actionsCompleted) && errorsEncountered == old(errorsEncountered)
                && tracked == old(tracked)
      ensures kind == ProgressTracking && old(actionsCompleted).Some? ==>
                && r == Ok(())
                && tracked == old(tracked) + 1
                && (Truthy(Get(result, "tool_executed", VNone)) ==>
                      actionsCompleted == Some(old(actionsCompleted).value + 1)
                      && errorsEncountered == old(errorsEncountered))
                && (!Truthy(Get(result, "tool_executed", VNone)) ==>
                      errorsEncountered == Some(old(errorsEncountered).value + 1)
                      && actionsCompleted == old(actionsCompleted))
    {
      if kind != ProgressTracking {
        return Ok(());
      }
      if Truthy(Get(result, "tool_executed", VNone)) {
        if actionsCompleted.None? {
          return Raised(Exc(AttributeError, NoActionsCompleted));
        }
        actionsCompleted := Some(actionsCompleted.value + 1);
      } else {
        if errorsEncountered.None? {
          return Raised(Exc(AttributeError, NoErrorsEncountered));
        }
        errorsEncountered := Some(errorsEncountered.value + 1);
      }
      tracked := tracked + 1;
      r := Ok(());
    }
  }
}
