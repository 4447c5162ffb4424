# Change notification and relay commands, modelled in Dafny

This project models the two binding primitives of the `NewApp.Service`
namespace of an MVVM application:

- `CoreNotifyModel`, the base class that gives a view model a
  `PropertyChanged` event, the broadcast helpers `OnAllPropertyChanged` and
  the three `OnPropertyChanged` overloads, and the guarded setter
  `SetProperty`, which writes a backing field through `PropertyNewValue` and
  raises the event only when the value really changes;
- `RelayCommand<T>` and `RelayCommand`, `ICommand` wrappers around a
  required action and an optional permission predicate, whose
  `CanExecuteChanged` accessors forward to WPF's shared
  `CommandManager.RequerySuggested` signal only when a predicate exists.

Files:

- `wrappers.dfy` (module `Wrappers`): `Option` (`None` is C#'s `null`) and `Result`.
- `handlers.dfy` (module `Handlers`): delegate invocation lists with .NET
  multicast semantics: `+=` appends, `-=` removes the last occurrence.
- `notify_model.dfy` (module `NotifyModel`): the observable state `Model`
  (subscriber list, one property cell, log of raised events), the pure
  step functions that say what each operation does to it, the lemmas about
  them, and the class `ObservableModel` whose methods are proved to move
  their fields exactly as the step functions say.
- `requery.dfy` (module `Requery`): `RequeryChannel`, the process-wide
  re-query signal made an explicit object passed to each command.
- `relay_command.dfy` (module `RelayCommands`): `RelayCommandOf<T>` (the C#
  `RelayCommand<T>`, renamed because Dafny has no overloading on type
  arity) and `RelayCommand`, with their actions modelled as invocation logs.

Modelling choices:

- An event in the log records the name in its `PropertyChangedEventArgs`,
  the subscribers it reached (the invocation list at that moment, in order)
  and the value of the property cell that a subscriber could read from the
  sender while it ran. No event is logged when the subscriber list is
  empty: that is the `?.Invoke` guard.
- `string.IsNullOrWhiteSpace` is modelled with the complete
  `Char.IsWhiteSpace` character list.
- `SetProperty`'s change test uses Dafny equality for `Equals`.
- Dafny constructors cannot fail, so each C# constructor is the static
  method `Create` (two arguments) or `CreateAlwaysEnabled` (one argument),
  returning `Failure(ArgumentNull("execute"))` for a null action. The
  Dafny constructor they call takes a non-null action.
- The command fields are `const`, matching C#'s `readonly`, so no method can
  change them after construction.
- `OnPropertyChanged(name)` passes an empty or blank name through
  unchanged (Service/CoreNotifyModel.cs:34); only the sequence overloads
  filter blank names out.
- `RequeryChannel.Trigger` stands for the host framework firing
  `RequerySuggested`. That happens outside the repository, so it has no row
  below.

## Model

| member | source | states |
|---|---|---|
| `NotifyModel.IsNullOrWhiteSpace` | Service/CoreNotifyModel.cs:43 | `string.IsNullOrWhiteSpace`: true exactly for null or a string all of whose characters are white space, the empty string included |
| `NotifyModel.Kept` | Service/CoreNotifyModel.cs:43 | a name is broadcast iff it occurred in the input and is not null, empty or white space; never more names than the input |
| `NotifyModel.KeptAppend` | Service/CoreNotifyModel.cs:43-44 | filtering commutes with concatenation, so kept names keep their input order |
| `NotifyModel.KeptCount` | Service/CoreNotifyModel.cs:43 | no deduplication: a kept name is broadcast exactly as many times as it occurs in the input; a blank one zero times |
| `NotifyModel.KeptExample` | Service/CoreNotifyModel.cs:43 | of `["", "  ", "X", null]` only `"X"` is broadcast |
| `NotifyModel.EventsFor` | Service/CoreNotifyModel.cs:44 | one event per name, none at all with no subscribers |
| `NotifyModel.EventsForAt` | Service/CoreNotifyModel.cs:44 | the i-th event raised carries the i-th name and reaches the whole subscriber list |
| `NotifyModel.EventsForAppend` | Service/CoreNotifyModel.cs:43-44 | raising events for `a + b` is raising those for `a`, then those for `b` |
| `NotifyModel.Differs` | Service/CoreNotifyModel.cs:78 | the null-aware change test holds exactly when the old and new values are unequal, so null to value and value to null are changes and null to null is not |
| `NotifyModel.Subscribe` | Service/CoreNotifyModel.cs:17 | `PropertyChanged += h` puts `h` at the end of the invocation list, keeps the earlier entries and changes neither the cell nor the log |
| `NotifyModel.Unsubscribe` | Service/CoreNotifyModel.cs:17 | `PropertyChanged -= h` takes away exactly one registration of `h` and changes neither the cell nor the log |
| `NotifyModel.Notify` | Service/CoreNotifyModel.cs:32-35 | the old log stays a prefix; with subscribers exactly one event follows, carrying `name` and the current cell, to the whole list; nothing follows without subscribers; cell and subscribers unchanged |
| `NotifyModel.NotifyAll` | Service/CoreNotifyModel.cs:23-26 | with subscribers exactly one wildcard (`None`) event is appended; without subscribers the state is unchanged |
| `NotifyModel.NotifyMany` | Service/CoreNotifyModel.cs:41-55 | the old log stays a prefix, followed by one event per kept name when there are subscribers and none otherwise; cell and subscribers unchanged |
| `NotifyModel.NewValue` | Service/CoreNotifyModel.cs:63-67 | the cell becomes `v` and the one event appended (when there are subscribers) already carries `v` |
| `NotifyModel.Set` | Service/CoreNotifyModel.cs:75-80 | an equal value leaves the state unchanged; a different one is stored and announced by exactly one event showing it, or by none without subscribers |
| `NotifyModel.NotifyAllRaisesWildcard` | Service/CoreNotifyModel.cs:23-26 | with subscribers, `OnAllPropertyChanged` appends exactly one event, with the null wildcard, to every subscriber, and changes neither the cell nor the subscribers |
| `NotifyModel.NotifyPassesName` | Service/CoreNotifyModel.cs:32-35 | with subscribers, `OnPropertyChanged(name)` appends exactly one event whose name is `name` unchanged, empty string included, and changes neither the cell nor the subscribers |
| `NotifyModel.SilentWithoutSubscribers` | Service/CoreNotifyModel.cs:25 | with no subscriber, every notify operation leaves the whole state unchanged |
| `NotifyModel.NotifyManyEvents` | Service/CoreNotifyModel.cs:41-45 | the list overload appends exactly one event per kept name, in order, to the existing log, and changes neither the cell nor the subscribers |
| `NotifyModel.NotifyManySplits` | Service/CoreNotifyModel.cs:41-45 | broadcasting `a + b` equals broadcasting `a` and then `b` |
| `NotifyModel.SetChanges` | Service/CoreNotifyModel.cs:75-80 | when the value differs, `SetProperty` stores it and appends exactly one event for `propertyName`, and that event already shows the new value: the write happens before the notification |
| `NotifyModel.SetUnchanged` | Service/CoreNotifyModel.cs:78 | an equal value, null over null included, leaves the whole state unchanged |
| `NotifyModel.SetIdempotent` | Service/CoreNotifyModel.cs:75-80 | a second identical `SetProperty` has no observable effect |
| `NotifyModel.ObservableModel.constructor` | Service/CoreNotifyModel.cs:17 | a fresh model has no subscribers and an empty event log |
| `NotifyModel.ObservableModel.AddPropertyChanged` | Service/CoreNotifyModel.cs:17 | `PropertyChanged +=` appends the handler and changes nothing else |
| `NotifyModel.ObservableModel.RemovePropertyChanged` | Service/CoreNotifyModel.cs:17 | `PropertyChanged -=` removes the handler's last occurrence and changes nothing else |
| `NotifyModel.ObservableModel.Raise` | Service/CoreNotifyModel.cs:34 | `PropertyChanged?.Invoke` appends one event to the subscribers, or nothing when there are none |
| `NotifyModel.ObservableModel.OnAllPropertyChanged` | Service/CoreNotifyModel.cs:23-26 | the new state is the wildcard broadcast of the old one |
| `NotifyModel.ObservableModel.OnPropertyChanged` | Service/CoreNotifyModel.cs:32-35 | the new state is the broadcast of `name` from the old one |
| `NotifyModel.ObservableModel.OnPropertyChangedList` | Service/CoreNotifyModel.cs:41-45 | the loop over names leaves the state the broadcast of the kept names, in order, from the old one |
| `NotifyModel.ObservableModel.OnPropertyChangedParams` | Service/CoreNotifyModel.cs:51-55 | the `params` overload has the same effect on the array's contents |
| `NotifyModel.ObservableModel.PropertyNewValue` | Service/CoreNotifyModel.cs:63-67 | the field is overwritten, then its name is broadcast |
| `NotifyModel.ObservableModel.SetProperty` | Service/CoreNotifyModel.cs:75-80 | the new state is the guarded write of the old one: write and broadcast only when the value differs |
| `Handlers.RemoveLast` | Service/CoreNotifyModel.cs:17 | `-=` shortens the invocation list by one exactly when the handler was in it, and adds no handler |
| `Handlers.LastIndex` | Service/CoreNotifyModel.cs:17 | a registered handler has a last registration: the position holds it and no later one does |
| `Handlers.RemoveLastAt` | Service/CoreNotifyModel.cs:17 | `-=` cuts out exactly the entry at the handler's last registration, keeping the entries before and after it in order |
| `Handlers.RemoveLastIsLast` | Service/CoreNotifyModel.cs:17 | for a registered handler, `-=` removes its last occurrence and leaves every other entry in its order |
| `Handlers.RemoveLastAbsent` | Service/RelayCommand.cs:50 | removing a handler that is not registered changes nothing |
| `Handlers.RemoveLastMultiset` | Service/RelayCommand.cs:50 | removing takes away exactly one registration of the handler |
| `Handlers.AddThenRemove` | Service/RelayCommand.cs:44-50 | registering and then unregistering a handler restores the invocation list |
| `Requery.RequeryChannel.Add` | Service/RelayCommand.cs:44 | `RequerySuggested +=` appends the handler |
| `Requery.RequeryChannel.Remove` | Service/RelayCommand.cs:50 | `RequerySuggested -=` removes the handler's last occurrence |
| `RelayCommands.Attached` | Service/RelayCommand.cs:41-45 | the channel gains the handler when there is a predicate and is untouched otherwise |
| `RelayCommands.Detached` | Service/RelayCommand.cs:46-52 | with a predicate the channel loses exactly one registration of the handler; without one it is untouched |
| `RelayCommands.AttachThenDetach` | Service/RelayCommand.cs:39-53 | adding and then removing a `CanExecuteChanged` handler restores the channel, with or without a predicate |
| `RelayCommands.RelayCommandOf.constructor` | Service/RelayCommand.cs:35-36 | the readonly fields hold the given action and predicate |
| `RelayCommands.RelayCommandOf.Create` | Service/RelayCommand.cs:31-37 | construction fails with an argument-null error for `execute` exactly when the action is null; a null predicate is accepted and kept |
| `RelayCommands.RelayCommandOf.CreateAlwaysEnabled` | Service/RelayCommand.cs:21-24 | the one-argument constructor is the two-argument one with no predicate |
| `RelayCommands.RelayCommandOf.CanExecute` | Service/RelayCommand.cs:58 | true for every parameter without a predicate; otherwise exactly the predicate applied to the parameter |
| `RelayCommands.RelayCommandOf.Execute` | Service/RelayCommand.cs:61-64 | the action runs exactly once with the parameter unchanged, with no permission check |
| `RelayCommands.RelayCommandOf.AddCanExecuteChanged` | Service/RelayCommand.cs:41-45 | the channel becomes `Attached` of the old one, and nothing else changes |
| `RelayCommands.RelayCommandOf.RemoveCanExecuteChanged` | Service/RelayCommand.cs:46-52 | the channel becomes `Detached` of the old one, and nothing else changes |
| `RelayCommands.RelayCommand.constructor` | Service/RelayCommand.cs:93-94 | the readonly fields hold the given action and predicate |
| `RelayCommands.RelayCommand.Create` | Service/RelayCommand.cs:91-95 | construction fails with an argument-null error for `execute` exactly when the action is null; a null predicate is accepted and kept |
| `RelayCommands.RelayCommand.CreateAlwaysEnabled` | Service/RelayCommand.cs:81-84 | the one-argument constructor is the two-argument one with no predicate |
| `RelayCommands.RelayCommand.CanExecute` | Service/RelayCommand.cs:118 | true without a predicate; otherwise exactly the predicate's answer |
| `RelayCommands.RelayCommand.CanExecuteIgnoresParameter` | Service/RelayCommand.cs:116-119 | the answer does not depend on the parameter |
| `RelayCommands.RelayCommand.Execute` | Service/RelayCommand.cs:121-124 | the action runs exactly once, whatever the parameter and with no permission check |
| `RelayCommands.RelayCommand.AddCanExecuteChanged` | Service/RelayCommand.cs:99-105 | the channel becomes `Attached` of the old one, and nothing else changes |
| `RelayCommands.RelayCommand.RemoveCanExecuteChanged` | Service/RelayCommand.cs:106-112 | the channel becomes `Detached` of the old one, and nothing else changes |

## Left out

- `[CallerMemberName]` name inference: every caller passes the property name explicitly.
- `virtual` overriding of `SetProperty` and `PropertyNewValue`: only the base behaviour is modelled.
- A user-defined `Equals` that is not an equivalence: the change test uses Dafny equality.
- The `(T)parameter` cast and its `InvalidCastException`: the generic command takes a typed parameter.
- Effects and exceptions of user-supplied actions, predicates and event handlers: an action only records its invocation, a predicate is a pure function, and a handler is an id that records nothing. So a handler that unsubscribes while an event is being raised is not modelled.
- How `CommandManager` decides when to fire `RequerySuggested`, its weak-reference handler storage, and dispatcher threading: WPF internals. The channel is a plain invocation list.
- A null `propList` passed to either sequence overload: the code throws there, and the model's types exclude null.
- `[Serializable]`, `[DebuggerStepThrough]` and the thread safety of event add and remove: these are attributes and concurrency concerns, not logic.
- The model's `CoreNotifyModel` has a single property cell. The source's setters work on any backing field passed by `ref`.
