# Prism.Command.Async — a verified model of the cancellable async command

This project models, in Dafny, the state machine at the heart of
Prism.Command.Async: a command that runs one cancellable asynchronous
operation at a time. It has three parts, each present in the repository in
several near-copies:

- **Cancellation gates** (`CancelTaskCommand`, `CancelAsyncCommand`,
  `CancelObservableTaskCommand`, `CancelObservableTask`, and the
  `CancelAsyncCommand` nested in `ObservableTask<TResult>` and in
  `AsyncCommandBase`). Each holds a `CommandExecuting` flag and one
  cancellation source. Starting replaces the source only when it has been
  tripped. Finishing clears the flag. Cancelling trips the source. Cancel is
  enabled exactly when the gate is executing and its source is untripped.
- **Observable operations** (`ObservableTask` with `ObservableTaskBase` in
  `Prism.Commands.Async`, the root `Common.Tasks.ObservableTaskBase`,
  `Common.Tasks.ObservableTask<TResult>` and `Prism.Commands.ObservableTask<TResult>`).
  Each wraps a task and derives status queries from it. Its watch runs once
  the task settles and raises a fixed, outcome-dependent sequence of
  property-changed notifications. Depending on the variant, it also swallows
  or rethrows the task's exception and tells the gate the operation finished.
- **Commands** (`DelegateCommandAsync` with `DelegateCommandAsyncBase`, and
  the two `AsyncCommand` classes with `AsyncCommandBase`). Each has
  change-guarded `IsExecuting`/`IsRunning` and operation setters, and
  `CanExecute = predicate && !executing`. Its `ExecuteAsync` runs a fixed
  sequence of steps around one await.

Modules:

| module | file | models |
|---|---|---|
| `Tasks` | tasks.dfy | the state of an awaited task, the queries derived from it, the events objects raise, the settled-notification sequence |
| `CancellationGate` | gate.dfy | the gate as a value, with what every gate variant guarantees about its tokens |
| `GateCommands` | gate_commands.dfy | the five gate classes |
| `PrismAsyncObservable` | prism_async_observable.dfy | src `ObservableTaskBase` + `ObservableTask` |
| `PrismDelegateCommands` | delegate_command.dfy | src `DelegateCommandAsyncBase` + `DelegateCommandAsync` |
| `CommonObservableBase` | common_observable_base.dfy | root `ObservableTaskBase.cs` |
| `CommonObservableResult` | common_observable_result.dfy | `ObservableTaskTResult.cs` |
| `PrismObservableResult` | prism_observable_result.dfy | root `ObservableTask.cs` |
| `CommonAsyncCommands` | async_command.dfy | `AsyncCommandBase.cs` + `AsyncCommand.cs` |

Conventions of the model:

- **Sources.** A cancellation source is `Source(id, tripped)`. Each replacement
  source gets the next id, and a token is a snapshot of the source it came
  from. `Requested(g, id)` says whether that token reports
  `IsCancellationRequested` in gate state `g`.
- **Events.** Every object keeps a log of what it raised, in order:
  `PropertyChanged(name)`, its own `CanExecuteChanged`, an injected callback,
  or the global `CommandManager.InvalidateRequerySuggested` hint.
- **Awaits.** An awaited task is a `TaskState`: `Pending`, `Succeeded(result)`,
  `Failed(exception)` or `Cancelled`. Each `async` method is split at its await:
  - `…Begin` runs up to the await;
  - `…Complete(final)` runs from the moment the awaited task settles to `final`.

  A watch's own task is a `TaskState<()>`, so a watch that rethrows is seen
  by whoever awaits it.
- **Classes and specifications.** Classes keep the source's fields and update
  them in place. Each method's contract ties the new state to a pure function
  of the old state (`SetExecuting`, `Begin`, `Complete`, `StartRun`, `EndRun`,
  `Starting`, `Finished`, `Tripped`), and the lemmas are proved about those
  functions.
- **Both gate files as one class.** The members the root `CancelTaskCommand.cs`
  and `src/Prism.Commands.Async/CancelTaskCommand.cs` have in common behave
  identically, so both are modelled by `GateCommands.CancelTaskCommand`. The
  public `Cancel()` exists only in the `src` copy; the root copy is cancelled
  through `Execute` alone.
- **Both nested gates as one class.** The `CancelAsyncCommand` classes nested
  in `ObservableTaskTResult.cs` and in `AsyncCommandBase.cs` are identical, so
  both are modelled by `GateCommands.RequeryCancelCommand`.
- **No class inheritance.** A base class's members are repeated in each class
  that models one of its subclasses.
- **Null callbacks.** Where the source invokes an injected callback without a
  null check, the class holds `hasCallback`. Its methods return `thrown`: the
  `NullReferenceException` a null callback raises after the state has changed.
- **Default results.** `default(TResult)` is a constant supplied when the
  object is built.
- **Naming.** The non-generic `Common.Tasks.AsyncCommand` is named
  `TaskAsyncCommand` here, to keep it apart from the generic one.

## Model

| member | source | states |
|---|---|---|
| `Tasks.StatusQueriesAgree` | src/Prism.Commands.Async/ObservableTaskBase.cs:20-29 | IsSuccessfullyCompleted iff RanToCompletion, IsNotCompleted is !IsCompleted, and a completed task is in exactly one of the three terminal states |
| `Tasks.ErrorChain` | src/Prism.Commands.Async/ObservableTaskBase.cs:17-19 | no Exception means no InnerException, no InnerException means no ErrorMessage; Exception exists iff the task faulted |
| `Tasks.ResultOnlyOnSuccess` | ObservableTaskTResult.cs:30-31 | Result is the task's result iff it ran to completion, default otherwise |
| `Tasks.ChangeGuard` | src/Prism.Commands.Async/CancelTaskCommand.cs:20-32 | a change-guarded setter raises nothing on an equal value and exactly one notification naming the property on a different one |
| `Tasks.WatchCompletionMirrorsTask` | src/Prism.Commands.Async/ObservableTaskBase.cs:35-48 | with ThrowException clear the watch always runs to completion; with it set the watch ends with the task's own status and exception |
| `Tasks.SettledNotificationsShape` | src/Prism.Commands.Async/ObservableTaskBase.cs:47-64 | the settled notifications start Status, IsCompleted, IsNotCompleted, then IsCanceled iff cancelled, the four fault names iff faulted, IsSuccessfullyCompleted iff succeeded, Result iff succeeded in a variant reporting it |
| `Tasks.Status` | src/Prism.Commands.Async/ObservableTaskBase.cs:29 | the status is Running iff the task is pending, RanToCompletion iff it succeeded, Faulted iff it failed |
| `Tasks.IsCompleted` | src/Prism.Commands.Async/ObservableTaskBase.cs:21 | completed iff the task has settled, whichever way |
| `Tasks.IsNotCompleted` | src/Prism.Commands.Async/ObservableTaskBase.cs:23 | not completed iff the task is still pending |
| `Tasks.IsSuccessfullyCompleted` | src/Prism.Commands.Async/ObservableTaskBase.cs:25-26 | true iff the task ran to completion |
| `Tasks.IsCanceled` | src/Prism.Commands.Async/ObservableTaskBase.cs:20 | true iff the task was cancelled |
| `Tasks.IsFaulted` | src/Prism.Commands.Async/ObservableTaskBase.cs:22 | true iff the task faulted |
| `Tasks.Exception` | src/Prism.Commands.Async/ObservableTaskBase.cs:18 | present iff the task faulted, and then the task's own exception |
| `Tasks.InnerException` | src/Prism.Commands.Async/ObservableTaskBase.cs:19 | present only for a faulted task, and then the inner exception of its exception |
| `Tasks.ErrorMessage` | src/Prism.Commands.Async/ObservableTaskBase.cs:17 | present iff the inner exception is, and then that exception's message |
| `Tasks.Result` | ObservableTaskTResult.cs:30-31 | the task's result when it succeeded, the default value otherwise |
| `CancellationGate.InitialGate` | src/Prism.Commands.Async/CancelTaskCommand.cs:13-14 | a new gate is not executing, cannot be cancelled and its token is not cancelled |
| `CancellationGate.StartingIssuesLiveToken` | src/Prism.Commands.Async/CancelTaskCommand.cs:79-85 | starting leaves the gate executing and cancellable with an uncancelled token; an untripped source is kept, a tripped one replaced while its old token stays cancelled |
| `CancellationGate.FinishedKeepsSource` | src/Prism.Commands.Async/CancelTaskCommand.cs:72-77 | finishing clears executing, disables cancel and keeps the source, so every token answers as before |
| `CancellationGate.CancelTripsLiveToken` | src/Prism.Commands.Async/CancelTaskCommand.cs:56-70 | cancelling trips the live token, keeps the executing flag, disables cancel, and is idempotent |
| `CancellationGate.SourcesNeverGoBack` | src/Prism.Commands.Async/CancelTaskCommand.cs:79-85 | over any call sequence source numbers never decrease and a cancelled token stays cancelled |
| `CancellationGate.TokenObservesCancellation` | src/Prism.Commands.Async/CancelTaskCommand.cs:56-85 | after any call sequence the live token reports cancellation iff it was already tripped or Cancel was called while its source was live |
| `GateCommands.CancelTaskCommand.constructor` | CancelTaskCommand.cs:13-19 | a new gate is in the initial state and has raised nothing |
| `GateCommands.CancelTaskCommand.CanExecute` | src/Prism.Commands.Async/CancelTaskCommand.cs:61-64 | cancel is enabled iff CommandExecuting and the source is untripped |
| `GateCommands.CancelTaskCommand.Token` | src/Prism.Commands.Async/CancelTaskCommand.cs:34 | the current source's token, reporting a cancellation request iff that source was tripped |
| `GateCommands.CancelTaskCommand.SetCommandExecuting` | CancelTaskCommand.cs:23-35 | the setter changes only the flag and notifies CommandExecuting once on a real change |
| `GateCommands.CancelTaskCommand.NotifyCommandStarting` | src/Prism.Commands.Async/CancelTaskCommand.cs:79-85 | the gate becomes `Starting(old)`; raises the flag change, then CanExecuteChanged on every start |
| `GateCommands.CancelTaskCommand.NotifyCommandFinished` | CancelTaskCommand.cs:50-55 | the gate becomes `Finished(old)`; raises the flag change, then CanExecuteChanged |
| `GateCommands.CancelTaskCommand.Execute` | CancelTaskCommand.cs:62-66 | trips the source and raises CanExecuteChanged once |
| `GateCommands.CancelTaskCommand.Cancel` | src/Prism.Commands.Async/CancelTaskCommand.cs:56-59 | same effect as Execute |
| `GateCommands.CancelAsyncCommand.constructor` | CancelCommand.cs:14-23 | stores whether a callback was given; initial gate, nothing raised |
| `GateCommands.CancelAsyncCommand.CanExecute` | CancelCommand.cs:60-63 | cancel is enabled iff executing and untripped |
| `GateCommands.CancelAsyncCommand.Token` | CancelCommand.cs:43 | the current source's token, reporting a cancellation request iff that source was tripped |
| `GateCommands.CancelAsyncCommand.SetCommandExecuting` | CancelCommand.cs:27-39 | change-guarded flag with one notification per real change |
| `GateCommands.CancelAsyncCommand.Signal` | CancelCommand.cs:51 | invokes the callback; throws iff it is null |
| `GateCommands.CancelAsyncCommand.NotifyCommandStarting` | CancelCommand.cs:45-52 | `Starting(old)`; the callback runs (or throws) only when the source was tripped and replaced; CanExecuteChanged is never raised |
| `GateCommands.CancelAsyncCommand.NotifyCommandFinished` | CancelCommand.cs:54-58 | `Finished(old)`; the callback runs or throws |
| `GateCommands.CancelAsyncCommand.Execute` | CancelCommand.cs:65-69 | trips the source; the callback runs or throws |
| `GateCommands.CancelObservableTaskCommand.constructor` | CancelObservableTaskCommand.cs:15-24 | initial gate, callback presence recorded |
| `GateCommands.CancelObservableTaskCommand.CanExecute` | CancelObservableTaskCommand.cs:61-64 | cancel is enabled iff executing and untripped |
| `GateCommands.CancelObservableTaskCommand.Token` | CancelObservableTaskCommand.cs:44 | the current source's token, reporting a cancellation request iff that source was tripped |
| `GateCommands.CancelObservableTaskCommand.SetCommandExecuting` | CancelObservableTaskCommand.cs:28-40 | change-guarded flag |
| `GateCommands.CancelObservableTaskCommand.Signal` | CancelObservableTaskCommand.cs:52 | a null callback is skipped instead of throwing |
| `GateCommands.CancelObservableTaskCommand.NotifyCommandStarting` | CancelObservableTaskCommand.cs:46-53 | `Starting(old)`; signals only when it replaced a tripped source |
| `GateCommands.CancelObservableTaskCommand.NotifyCommandFinished` | CancelObservableTaskCommand.cs:55-59 | `Finished(old)` and one signal |
| `GateCommands.CancelObservableTaskCommand.Execute` | CancelObservableTaskCommand.cs:66-70 | trips the source and signals |
| `GateCommands.CancelObservableTask.constructor` | CancelObservableTask.cs:13-20 | a new gate is not executing and cannot be cancelled |
| `GateCommands.CancelObservableTask.CanExecute` | CancelObservableTask.cs:37-40 | cancel is enabled iff executing and untripped |
| `GateCommands.CancelObservableTask.Token` | CancelObservableTask.cs:23 | the current source's token, reporting a cancellation request iff that source was tripped |
| `GateCommands.CancelObservableTask.Signal` | CancelObservableTask.cs:30 | invokes the callback; throws iff it is null |
| `GateCommands.CancelObservableTask.NotifyCommandStarting` | CancelObservableTask.cs:24-31 | `Starting(old)` by plain field writes; signals only on replacing a tripped source; no property notification |
| `GateCommands.CancelObservableTask.NotifyCommandFinished` | CancelObservableTask.cs:32-36 | `Finished(old)` and one signal |
| `GateCommands.CancelObservableTask.Execute` | CancelObservableTask.cs:41-45 | trips the source and signals |
| `GateCommands.RequeryCancelCommand.constructor` | ObservableTaskTResult.cs:116-117 | initial gate, nothing raised |
| `GateCommands.RequeryCancelCommand.CanExecute` | ObservableTaskTResult.cs:152-155 | cancel is enabled iff executing and untripped |
| `GateCommands.RequeryCancelCommand.Token` | ObservableTaskTResult.cs:136 | the current source's token, reporting a cancellation request iff that source was tripped |
| `GateCommands.RequeryCancelCommand.SetCommandExecuting` | ObservableTaskTResult.cs:120-132 | change-guarded flag |
| `GateCommands.RequeryCancelCommand.NotifyCommandStarting` | AsyncCommandBase.cs:81-88 | `Starting(old)`; the re-query hint only when a tripped source was replaced |
| `GateCommands.RequeryCancelCommand.NotifyCommandFinished` | ObservableTaskTResult.cs:147-151 | `Finished(old)` and one re-query hint |
| `GateCommands.RequeryCancelCommand.Execute` | AsyncCommandBase.cs:101-105 | trips the source and raises one re-query hint |
| `PrismAsyncObservable.WatchNotifiesUnlessRethrowing` | src/Prism.Commands.Async/ObservableTaskBase.cs:35-64 | with ThrowException clear every outcome is notified; with it set only success is, a fault or cancellation raising nothing; Result is never notified |
| `PrismAsyncObservable.ObservableTask.Wrap` | src/Prism.Commands.Async/ObservableTask.cs:16-20 | stores the exact task, no gate, watch attached |
| `PrismAsyncObservable.ObservableTask.FromFactory` | src/Prism.Commands.Async/ObservableTask.cs:22-27 | a fresh gate that is never started; the factory's task is its result on the gate's token |
| `PrismAsyncObservable.ObservableTask.WatchTaskAsync` | src/Prism.Commands.Async/ObservableTaskBase.cs:35-65 | the watch ends as `WatchCompletion` says and raises exactly `WatchNotifications`; it never touches the gate |
| `PrismAsyncObservable.CancelBeforeSettling` | src/Tests/Prism.Commands.Async.Tests/UnitTest1.cs:40-49 | a factory-built operation's gate reports it cannot cancel, yet Cancel trips the token, and a cancelled settlement raises IsCanceled |
| `PrismDelegateCommands.SetterKeepsGateInStep` | src/Prism.Commands.Async/DelegateCommandAsyncBase.cs:25-38 | an equal value changes nothing; a change moves the gate's CommandExecuting to the new value, so a gate in step stays in step |
| `PrismDelegateCommands.FreshRunGetsLiveToken` | src/Prism.Commands.Async/DelegateCommandAsync.cs:99-103 | a run started while idle hands the delegate an uncancelled token, is cancellable, and disables the command |
| `PrismDelegateCommands.ReentrantRunKeepsSource` | src/Prism.Commands.Async/DelegateCommandAsync.cs:101-102 | a run started while executing does not touch the gate, so a tripped source reaches the second run still tripped |
| `PrismDelegateCommands.SwallowedRunReleasesCommand` | src/Prism.Commands.Async/DelegateCommandAsync.cs:101-104 | without rethrow, completion clears IsExecuting, finishes the gate keeping its source, and re-enables the command exactly when its predicate holds |
| `PrismDelegateCommands.RethrowingRunStaysExecuting` | src/Prism.Commands.Async/DelegateCommandAsync.cs:103-104 | with rethrow on a fault or cancellation, IsExecuting := false is never reached: the command stays executing and disabled |
| `PrismDelegateCommands.GateStaysInStep` | src/Prism.Commands.Async/DelegateCommandAsyncBase.cs:28-38 | after any sequence of executes, settlements, cancels and ThrowException changes the gate's CommandExecuting equals IsExecuting |
| `PrismDelegateCommands.ExecutingTracksOperation` | src/Prism.Commands.Async/DelegateCommandAsync.cs:99-105 | while ThrowException is never set, IsExecuting holds exactly while the current operation's watch has not finished, re-entrant runs included (the abandoned run's completion is not modelled) |
| `PrismDelegateCommands.DelegateCommandAsync.constructor` | src/Prism.Commands.Async/DelegateCommandAsync.cs:66-75 | a new command: not executing, no operation, a fresh gate in the initial state |
| `PrismDelegateCommands.DelegateCommandAsync.Create` | src/Prism.Commands.Async/DelegateCommandAsync.cs:66-75 | a null execute or predicate delegate gives ArgumentNullException naming executeMethod; otherwise a new command holding both |
| `PrismDelegateCommands.DelegateCommandAsync.CreateAlwaysEnabled` | src/Prism.Commands.Async/DelegateCommandAsync.cs:55-58 | the one-delegate constructor: its predicate always answers true |
| `PrismDelegateCommands.DelegateCommandAsync.CanExecuteParameter` | src/Prism.Commands.Async/DelegateCommandAsync.cs:138-141 | never true while executing; while idle, exactly the predicate's answer |
| `PrismDelegateCommands.DelegateCommandAsync.CanExecute` | src/Prism.Commands.Async/DelegateCommandAsync.cs:84-87 | CanExecute() answers as CanExecute(object): predicate and not executing |
| `PrismDelegateCommands.DelegateCommandAsync.SetIsExecuting` | src/Prism.Commands.Async/DelegateCommandAsyncBase.cs:25-38 | the command becomes `SetExecuting(old, value)`; on a change it raises IsExecuting then CanExecuteChanged, and the gate is started or finished |
| `PrismDelegateCommands.DelegateCommandAsync.SetObservableTask` | src/Prism.Commands.Async/DelegateCommandAsyncBase.cs:41-51 | the same reference is a no-op; otherwise one ObservableTask notification and one CanExecuteChanged |
| `PrismDelegateCommands.DelegateCommandAsync.SetThrowException` | src/Prism.Commands.Async/DelegateCommandAsyncBase.cs:53-62 | change-guarded, with one notification per real change |
| `PrismDelegateCommands.DelegateCommandAsync.ThrowIfFaulted` | src/Prism.Commands.Async/DelegateCommandAsyncBase.cs:67-73 | throws exactly when an operation exists and faulted, and then throws its exception |
| `PrismDelegateCommands.DelegateCommandAsync.Cancel` | src/Prism.Commands.Async/DelegateCommandAsyncBase.cs:75-78 | trips the gate's source |
| `PrismDelegateCommands.DelegateCommandAsync.ObservesCanExecute` | src/Prism.Commands.Async/DelegateCommandAsync.cs:112-118 | replaces the predicate and returns the same command |
| `PrismDelegateCommands.DelegateCommandAsync.ExecuteAsyncBegin` | src/Prism.Commands.Async/DelegateCommandAsync.cs:99-102 | the command becomes `Begin(old, executeMethod)`: IsExecuting first, then the token, then a new operation carrying ThrowException |
| `PrismDelegateCommands.DelegateCommandAsync.ExecuteAsyncComplete` | src/Prism.Commands.Async/DelegateCommandAsync.cs:103-104 | the command becomes `Complete(old, final)`; ExecuteAsync ends as the watch does |
| `CommonObservableBase.WatchFinishesGateOnlyOnSuccess` | ObservableTaskBase.cs:19-27 | the watch keeps the source; the gate stops executing iff the task succeeded, so after a fault or cancellation its cancel stays enabled |
| `CommonObservableBase.ObservableTaskBase.constructor` | ObservableTaskBase.cs:12-15 | every instance gets its own gate whose callback is the re-query hint |
| `CommonObservableBase.ObservableTaskBase.WatchTaskAsync` | ObservableTaskBase.cs:17-52 | swallows everything, finishes the gate only on success, raises the settled notifications with Result |
| `CommonObservableResult.ObservableTask.Wrap` | ObservableTaskTResult.cs:14-18 | stores the task, no gate, the watch always attached |
| `CommonObservableResult.ObservableTask.FromFactory` | ObservableTaskTResult.cs:21-28 | starts a new gate before calling the factory once with its token; no watch when the task is already completed |
| `CommonObservableResult.ObservableTask.Result` | ObservableTaskTResult.cs:30-31 | the task's result iff it ran to completion, default otherwise |
| `CommonObservableResult.ObservableTask.WatchTaskAsync` | ObservableTaskTResult.cs:38-74 | swallows everything, finishes a present gate only on success, raises the notifications with Result, returns Result |
| `PrismObservableResult.ResultNotifiedOnlyOnSuccess` | ObservableTask.cs:46-82 | success is always notified ending with Result; a fault or cancellation is notified iff ThrowException is clear, never with Result |
| `PrismObservableResult.ObservableTask.constructor` | ObservableTask.cs:35-43 | stores the task unchanged; ThrowException starts false |
| `PrismObservableResult.ObservableTask.Result` | ObservableTask.cs:21-22 | the task's result iff it ran to completion, default otherwise |
| `PrismObservableResult.ObservableTask.WatchTaskAsync` | ObservableTask.cs:46-82 | rethrows with no notification when ThrowException is set and the task did not succeed; otherwise the settled notifications with Result |
| `CommonAsyncCommands.EveryRunGetsLiveToken` | AsyncCommand.cs:52-55 | every run, re-entrant ones included, starts the gate before reading the token, so the command always receives an uncancelled token |
| `CommonAsyncCommands.FinishedRunReenables` | AsyncCommand.cs:59-61 | a running command cannot execute; after completion it can iff its predicate holds (always without one), and cancel is disabled |
| `CommonAsyncCommands.RunnerDrivesGate` | AsyncCommand.cs:52-61 | the command drives its gate through exactly the matching gate calls, and CommandExecuting keeps mirroring IsRunning |
| `CommonAsyncCommands.RunTokenObservesCancellation` | AsyncCommandBase.cs:79-105 | a run's token reports cancellation iff the CancelCommand was executed while that token's source was live |
| `CommonAsyncCommands.AsyncCommand.constructor` | AsyncCommand.cs:28-32 | no predicate, a fresh gate, not running, no Execution |
| `CommonAsyncCommands.AsyncCommand.WithPredicate` | AsyncCommand.cs:34-39 | as above, with the given predicate |
| `CommonAsyncCommands.AsyncCommand.CanExecute` | AsyncCommandBase.cs:117-120 | !IsRunning without a predicate, predicate() && !IsRunning with one |
| `CommonAsyncCommands.AsyncCommand.SetIsRunning` | AsyncCommandBase.cs:22-35 | no-op on an equal value; otherwise the re-query hint then IsRunning |
| `CommonAsyncCommands.AsyncCommand.SetExecution` | AsyncCommand.cs:17-26 | change-guarded by reference, one Execution notification per change |
| `CommonAsyncCommands.AsyncCommand.ExecuteAsyncBegin` | AsyncCommand.cs:52-58 | clears Execution, starts the gate, sets IsRunning, and builds the new Execution on the token read after the start |
| `CommonAsyncCommands.AsyncCommand.ExecuteAsyncComplete` | AsyncCommand.cs:57-61 | after the watch: the gate finishes, Execution is re-announced, IsRunning becomes false |
| `CommonAsyncCommands.TaskAsyncCommand.constructor` | AsyncCommand.cs:85-89 | no predicate, a fresh gate, not running, no Execution |
| `CommonAsyncCommands.TaskAsyncCommand.WithPredicate` | AsyncCommand.cs:91-96 | as above, with the given predicate |
| `CommonAsyncCommands.TaskAsyncCommand.CanExecute` | AsyncCommandBase.cs:117-120 | !IsRunning without a predicate, predicate() && !IsRunning with one |
| `CommonAsyncCommands.TaskAsyncCommand.SetIsRunning` | AsyncCommandBase.cs:22-35 | no-op on an equal value; otherwise the re-query hint then IsRunning |
| `CommonAsyncCommands.TaskAsyncCommand.SetExecution` | AsyncCommand.cs:71-83 | change-guarded by reference |
| `CommonAsyncCommands.TaskAsyncCommand.ExecuteAsyncBegin` | AsyncCommand.cs:102-109 | as the generic one; when TaskCompletion is null the await is skipped and the run finishes at once |
| `CommonAsyncCommands.TaskAsyncCommand.ExecuteAsyncComplete` | AsyncCommand.cs:106-109 | after the watch: the gate finishes and IsRunning becomes false; Execution is not re-announced |

## Left out

- The .NET task scheduler and real cancellation propagation. A task is an abstract `TaskState`, and the caller supplies how it settles.
- Interleavings of concurrent `ExecuteAsync` calls. A run's `Complete` applies to the command's current operation only.
- Who observes each event. Every object logs what it raises, with no order across objects and no subscriber list. The watches' early return when `PropertyChanged` has no subscriber is not modelled separately, because it raises the same nothing.
- `Debug.WriteLine` logging, and the contents of `AggregateException` beyond an optional inner message.
- PrismDelegateCommands.RethrowingRunStaysExecuting: the synchronous part of a watch started inside a constructor is not modelled. When the wrapped task is already complete, .NET runs that watch before the constructor returns. In `ExecuteAsync` of `DelegateCommandAsync` it then runs before the object initializer copies `ThrowException`, so a task that is already faulted or cancelled when `ExecuteAsync` begins is swallowed and the command is released. The model always runs the watch later, in `…Complete`, with `ThrowException` already copied, and keeps such a command executing.
- PrismDelegateCommands.Begin, PrismDelegateCommands.DelegateCommandAsync.ExecuteAsyncBegin, CommonAsyncCommands.AsyncCommand.ExecuteAsyncBegin, CommonAsyncCommands.TaskAsyncCommand.ExecuteAsyncBegin, PrismAsyncObservable.ObservableTask.FromFactory and CommonObservableResult.ObservableTask.FromFactory: a delegate or factory that throws synchronously, instead of returning a faulted task, is not modelled; every call returns a task. In the source, such a throw leaves `DelegateCommandAsync` executing with its gate started; leaves `AsyncCommand`'s `Execution` null while `IsRunning` and its gate stay set; and makes the factory constructors throw, after the gate of `ObservableTaskTResult.cs` was already started.
- `DelegateCommandAsync.Execute()`, `Execute(object)` and `AsyncCommandBase.Execute()`/`Execute(object)`: async-void wrappers around `ExecuteAsync`, and the last ignores its parameter.
- Prism's `DelegateCommandBase` is not part of this model. This covers `ObservesPropertyInternal`, `ObservesProperty`, `RaiseCanExecuteChanged` beyond logging `CanExecuteChanged`, and the expression compilation in `ObservesCanExecute`, of which only the predicate replacement is modelled.
- PrismDelegateCommands.DelegateCommandAsync.Cancel: the null check on `CancelCommand` is not modelled, because every constructor sets the gate.
- A null `command` delegate passed to either `AsyncCommand`: calling it would throw, which the model does not represent.
- The non-generic `Common.Tasks.ObservableTask` is not part of this model. `TaskAsyncCommand` builds its Execution as a `CommonObservableBase.ObservableTaskBase`, and the caller says whether that operation's `TaskCompletion` is set.
- The root `DelegateCommandAsync.cs` is entirely commented out and has no behaviour. `DelegateCommandAsync{T}`, `ObservableTask{T}`, `PropertyProgress.cs`, `NotifyTaskExtenstions.cs`, `IAsyncCommand.cs` and the WPF test application are outside the modelled core.
- The `OoErrorCommand` class in `ObservableTaskTResult.cs`: it is never used, and every member throws `NotImplementedException`.
