/**
 * `RelayCommand<T>` and `RelayCommand`: an `ICommand` that relays `Execute`
 * to a required action and `CanExecute` to an optional permission
 * predicate, and that forwards `CanExecuteChanged` subscriptions to the
 * shared re-query channel only when it has a predicate.
 *
 * An action is modelled by the log of its invocations (`ActionLog` records
 * each argument, `ActionCounter` counts parameterless runs); `null` is a
 * `null` reference for actions and `None` for predicates.
 */
module RelayCommands {
  import opened Wrappers
  import opened Handlers
  import opened Requery

  /** The one error kind: `ArgumentNullException` with its parameter name. */
  datatype ArgumentError = ArgumentNull(paramName: string)

  /** An `Action<T>`: what running it does is append its argument here. */
  class ActionLog<T> {
    var invocations: seq<T>

    constructor ()
      ensures invocations == []
    {
      invocations := [];
    }
  }

  /** An `Action`: what running it does is bump this count. */
  class ActionCounter {
    var runs: nat

    constructor ()
      ensures runs == 0
    {
      runs := 0;
    }
  }

  /** The channel's invocation list after a `CanExecuteChanged` add accessor. */
  function Attached(hasPredicate: bool, handlers: seq<Handler>, h: Handler): (r: seq<Handler>)
    ensures hasPredicate ==> r == handlers + [h]
    ensures !hasPredicate ==> r == handlers
  {
    if hasPredicate then handlers + [h] else handlers
  }

  /** The channel's invocation list after a `CanExecuteChanged` remove accessor. */
  function Detached(hasPredicate: bool, handlers: seq<Handler>, h: Handler): (r: seq<Handler>)
    ensures hasPredicate ==> multiset(r) == multiset(handlers) - multiset{h}
    ensures !hasPredicate ==> r == handlers
  {
    RemoveLastMultiset(handlers, h);
    if hasPredicate then RemoveLast(handlers, h) else handlers
  }

  /** Adding a handler and then removing it leaves the shared channel as it was. */
  lemma AttachThenDetach(hasPredicate: bool, handlers: seq<Handler>, h: Handler)
    ensures Detached(hasPredicate, Attached(hasPredicate, handlers, h), h) == handlers
  {
    if hasPredicate {
      AddThenRemove(handlers, h);
    }
  }

  // ---------------------------------------------------------------------------
  // RelayCommand<T>
  // ---------------------------------------------------------------------------

  class RelayCommandOf<T> {
    /** `_execute`, readonly: never null once constructed. */
    const execute: ActionLog<T>
    /** `_canExecute`, readonly: `None` means "always permitted". */
    const canExecute: Option<T -> bool>

    constructor (execute: ActionLog<T>, canExecute: Option<T -> bool>)
      ensures this.execute == execute && this.canExecute == canExecute
    {
      this.execute := execute;
      this.canExecute := canExecute;
    }

    /** `new RelayCommand<T>(execute, canExecute)`: a null action is refused. */
    static method Create(execute: ActionLog?<T>, canExecute: Option<T -> bool>)
      returns (r: Result<RelayCommandOf<T>, ArgumentError>)
      ensures r.Failure? <==> execute == null
      ensures r.Failure? ==> r.error == ArgumentNull("execute")
      ensures r.Success? ==> fresh(r.value) && r.value.execute == execute && r.value.canExecute == canExecute
    {
      if execute == null {
        return Failure(ArgumentNull("execute"));
      }
      var c := new RelayCommandOf(execute, canExecute);
      return Success(c);
    }

    /** `new RelayCommand<T>(execute)`: chains to `Create` with no predicate. */
    static method CreateAlwaysEnabled(execute: ActionLog?<T>)
      returns (r: Result<RelayCommandOf<T>, ArgumentError>)
      ensures r.Failure? <==> execute == null
      ensures r.Failure? ==> r.error == ArgumentNull("execute")
      ensures r.Success? ==> fresh(r.value) && r.value.execute == execute && r.value.canExecute == None
    {
      r := Create(execute, None);
    }

    /** True without a predicate, otherwise whatever the predicate says of `parameter`. */
    predicate CanExecute(parameter: T)
      ensures canExecute.None? ==> CanExecute(parameter)
      ensures canExecute.Some? ==> (CanExecute(parameter) <==> canExecute.value(parameter))
    {
      canExecute == None || canExecute.value(parameter)
    }

    /** Runs the action once with `parameter`, whether or not `CanExecute(parameter)` holds. */
    method Execute(parameter: T)
      modifies execute
      ensures execute.invocations == old(execute.invocations) + [parameter]
    {
      execute.invocations := execute.invocations + [parameter];
    }

    /** The `add` accessor of `CanExecuteChanged`. */
    method AddCanExecuteChanged(channel: RequeryChannel, h: Handler)
      modifies channel
      ensures channel.handlers == Attached(canExecute.Some?, old(channel.handlers), h)
    {
      if canExecute != None {
        channel.Add(h);
      }
    }

    /** The `remove` accessor of `CanExecuteChanged`. */
    method RemoveCanExecuteChanged(channel: RequeryChannel, h: Handler)
      modifies channel
      ensures channel.handlers == Detached(canExecute.Some?, old(channel.handlers), h)
    {
      if canExecute != None {
        channel.Remove(h);
      }
    }
  }

  // ---------------------------------------------------------------------------
  // RelayCommand
  // ---------------------------------------------------------------------------

  class RelayCommand {
    /** `_execute`, readonly: never null once constructed. */
    const execute: ActionCounter
    /** `_canExecute`, readonly: `None` means "always permitted". */
    const canExecute: Option<() -> bool>

    constructor (execute: ActionCounter, canExecute: Option<() -> bool>)
      ensures this.execute == execute && this.canExecute == canExecute
    {
      this.execute := execute;
      this.canExecute := canExecute;
    }

    /** `new RelayCommand(execute, canExecute)`: a null action is refused. */
    static method Create(execute: ActionCounter?, canExecute: Option<() -> bool>)
      returns (r: Result<RelayCommand, ArgumentError>)
      ensures r.Failure? <==> execute == null
      ensures r.Failure? ==> r.error == ArgumentNull("execute")
      ensures r.Success? ==> fresh(r.value) && r.value.execute == execute && r.value.canExecute == canExecute
    {
      if execute == null {
        return Failure(ArgumentNull("execute"));
      }
      var c := new RelayCommand(execute, canExecute);
      return Success(c);
    }

    /** `new RelayCommand(execute)`: chains to `Create` with no predicate. */
    static method CreateAlwaysEnabled(execute: ActionCounter?)
      returns (r: Result<RelayCommand, ArgumentError>)
      ensures r.Failure? <==> execute == null
      ensures r.Failure? ==> r.error == ArgumentNull("execute")
      ensures r.Success? ==> fresh(r.value) && r.value.execute == execute && r.value.canExecute == None
    {
      r := Create(execute, None);
    }

    /** True without a predicate, otherwise the predicate's answer; `parameter` is ignored. */
    predicate CanExecute<P>(parameter: P)
      ensures canExecute.None? ==> CanExecute(parameter)
      ensures canExecute.Some? ==> (CanExecute(parameter) <==> canExecute.value())
    {
      canExecute == None || canExecute.value()
    }

    /** The answer is the same whatever parameter the view passes. */
    lemma CanExecuteIgnoresParameter<P, Q>(p: P, q: Q)
      ensures CanExecute(p) == CanExecute(q)
    {
    }

    /** Runs the action once, ignoring `parameter` and not consulting `CanExecute`. */
    method Execute<P>(parameter: P)
      modifies execute
      ensures execute.runs == old(execute.runs) + 1
    {
      execute.runs := execute.runs + 1;
    }

    /** The `add` accessor of `CanExecuteChanged`. */
    method AddCanExecuteChanged(channel: RequeryChannel, h: Handler)
      modifies channel
      ensures channel.handlers == Attached(canExecute.Some?, old(channel.handlers), h)
    {
      if canExecute != None {
        channel.Add(h);
      }
    }

    /** The `remove` accessor of `CanExecuteChanged`. */
    method RemoveCanExecuteChanged(channel: RequeryChannel, h: Handler)
      modifies channel
      ensures channel.handlers == Detached(canExecute.Some?, old(channel.handlers), h)
    {
      if canExecute != None {
        channel.Remove(h);
      }
    }
  }

  // ---------------------------------------------------------------------------
  // Scenarios
  // ---------------------------------------------------------------------------

  /**
   * A command whose predicate always refuses still runs its action, and a
   * listener it forwarded to the channel is invoked when the channel fires.
   */
  method RefusingCommandScenario()
  {
    var channel := new RequeryChannel();
    var action := new ActionLog<int>();
    var r := RelayCommandOf<int>.Create(action, Some(_ => false));
    var c := r.value;
    assert !c.CanExecute(7);
    c.Execute(7);
    assert action.invocations == [7];
    c.AddCanExecuteChanged(channel, 42);
    var invoked := channel.Trigger();
    assert invoked == [42];
    c.RemoveCanExecuteChanged(channel, 42);
    assert channel.handlers == [];
  }

  /** Without a predicate a command reports enabled and never touches the channel. */
  method AlwaysEnabledScenario()
  {
    var channel := new RequeryChannel();
    var counter := new ActionCounter();
    var r := RelayCommand.CreateAlwaysEnabled(counter);
    var c := r.value;
    assert c.CanExecute(());
    c.AddCanExecuteChanged(channel, 5);
    assert channel.handlers == [];
    c.Execute(());
    assert counter.runs == 1;
    var none := RelayCommand.CreateAlwaysEnabled(null);
    assert none == Failure(ArgumentNull("execute"));
  }
}
