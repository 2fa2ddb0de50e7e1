/** Prism.Commands.Async.DelegateCommandAsync with its base
    DelegateCommandAsyncBase (src/Prism.Commands.Async). The command owns a
    CancelTaskCommand gate that its change-guarded IsExecuting setter keeps
    in step, and on every ExecuteAsync it wraps the task its delegate returns
    in a new ObservableTask. ExecuteAsync is split at its one await:
    ExecuteAsyncBegin runs up to the await, ExecuteAsyncComplete from the
    moment the awaited task settles. */
module PrismDelegateCommands {
  import opened Tasks
  import opened CancellationGate
  import opened GateCommands
  import opened PrismAsyncObservable

  /** What the command's state depends on of its current ObservableTask. */
  datatype RunView = RunView(task: TaskState<()>, completion: TaskState<()>, throwException: bool)

  /** The command as a value: IsExecuting, its gate, its current operation
      (null before the first run) and its ThrowException flag. */
  datatype CommandState = CommandState(isExecuting: bool, gate: GateState, current: Option<RunView>, throwException: bool)

  const NewCommand: CommandState := CommandState(false, Initial, None, false)

  /** The IsExecuting setter: no effect at all on an equal value; a change
      starts the gate when it becomes true and finishes it when it becomes
      false. */
  function SetExecuting(c: CommandState, value: bool): CommandState {
    if c.isExecuting == value then c
    else c.(isExecuting := value, gate := if value then Starting(c.gate) else Finished(c.gate))
  }

  /** The token ExecuteAsync hands to the delegate: read after IsExecuting was set. */
  function RunToken(c: CommandState): Source {
    SetExecuting(c, true).gate.source
  }

  /** ExecuteAsync up to its await: IsExecuting := true, then a new operation
      over the delegate's task, carrying the command's ThrowException. */
  function Begin(c: CommandState, execute: Source -> TaskState<()>): CommandState {
    var s := SetExecuting(c, true);
    s.(current := Some(RunView(execute(s.gate.source), Pending, c.throwException)))
  }

  /** Whether the current operation's watch is still waiting and its task may
      settle to `final`. */
  predicate CanComplete(c: CommandState, final: TaskState<()>) {
    c.current.Some? && c.current.value.completion.Pending? && MaySettleTo(c.current.value.task, final)
  }

  /** ExecuteAsync after its await: the watch runs, and IsExecuting := false
      is reached only when the watch did not rethrow. */
  function Complete(c: CommandState, final: TaskState<()>): CommandState
    requires CanComplete(c, final)
  {
    var run := c.current.value;
    var done := run.(task := final, completion := WatchCompletion(final, run.throwException));
    var s := c.(current := Some(done));
    if done.completion.Succeeded? then SetExecuting(s, false) else s
  }

  /** Cancel(): forwards to the gate. */
  function CancelRun(c: CommandState): CommandState {
    c.(gate := Tripped(c.gate))
  }

  /** CanExecute: the delegate's answer and not executing. */
  predicate Executable(c: CommandState, predicateValue: bool) {
    predicateValue && !c.isExecuting
  }

  /** The gate's CommandExecuting mirrors IsExecuting. */
  predicate Synced(c: CommandState) {
    c.gate.executing == c.isExecuting
  }

  /** IsExecuting holds exactly while an operation exists whose watch has not finished. */
  predicate Tracked(c: CommandState) {
    c.isExecuting <==> c.current.Some? && c.current.value.completion.Pending?
  }

  /** Neither the command nor its current operation will rethrow. */
  predicate Swallowing(c: CommandState) {
    !c.throwException && (c.current.Some? ==> !c.current.value.throwException)
  }

  /** Assigning IsExecuting its current value changes nothing; a change moves
      the gate's CommandExecuting with it, so a gate in step stays in step. */
  lemma SetterKeepsGateInStep(c: CommandState, value: bool)
    ensures c.isExecuting == value ==> SetExecuting(c, value) == c
    ensures c.isExecuting != value ==> SetExecuting(c, value).gate.executing == value
    ensures SetExecuting(c, value).isExecuting == value
    ensures Synced(c) ==> Synced(SetExecuting(c, value))
  {
  }

  /** A run started while not executing starts the gate before the token is
      read, so the delegate never receives a cancelled token, the run can be
      cancelled, and the command cannot be executed again meanwhile. */
  lemma FreshRunGetsLiveToken(c: CommandState, execute: Source -> TaskState<()>, predicateValue: bool)
    requires !c.isExecuting
    ensures !RunToken(c).tripped
    ensures Begin(c, execute).isExecuting && CanCancel(Begin(c, execute).gate)
    ensures Begin(c, execute).current == Some(RunView(execute(RunToken(c)), Pending, c.throwException))
    ensures !Executable(Begin(c, execute), predicateValue)
  {
  }

  /** A re-entrant run (started while executing) passes the setter's guard
      without touching the gate, so the delegate receives the current source
      as it is: if it was tripped during the first run, the second run gets
      an already-cancelled token. */
  lemma ReentrantRunKeepsSource(c: CommandState, execute: Source -> TaskState<()>)
    requires c.isExecuting
    ensures RunToken(c) == c.gate.source
    ensures Begin(c, execute).gate == c.gate
    ensures c.gate.source.tripped ==> RunToken(c).tripped
  {
  }

  /** When the operation does not rethrow, completing the run clears
      IsExecuting, finishes a gate that was in step while keeping its source,
      and makes the command executable again exactly when its delegate says so. */
  lemma SwallowedRunReleasesCommand(c: CommandState, final: TaskState<()>, predicateValue: bool)
    requires CanComplete(c, final) && !c.current.value.throwException
    ensures !Complete(c, final).isExecuting
    ensures Executable(Complete(c, final), predicateValue) == predicateValue
    ensures Complete(c, final).current.value.completion == Succeeded(())
    ensures Synced(c) ==> Synced(Complete(c, final)) && Complete(c, final).gate.source == c.gate.source
  {
  }

  /** When the operation rethrows (ThrowException set and the task faulted or
      was cancelled), ExecuteAsync throws at its await and never reaches
      IsExecuting := false: a running command stays executing, its gate stays
      started, and the command can no longer be executed. */
  lemma RethrowingRunStaysExecuting(c: CommandState, final: TaskState<()>, predicateValue: bool)
    requires CanComplete(c, final) && c.current.value.throwException && !final.Succeeded?
    ensures Complete(c, final).isExecuting == c.isExecuting
    ensures Complete(c, final).gate == c.gate
    ensures c.isExecuting ==> !Executable(Complete(c, final), predicateValue) && !Tracked(Complete(c, final))
  {
  }

  /** One step of a command's life as a caller drives it. */
  datatype CommandOp =
    | Execute(task: TaskState<()>)           // ExecuteAsync, the delegate returning `task`
    | Settle(final: TaskState<()>)           // the current operation's task settles
    | CancelCommand                          // Cancel()
    | SetThrowException(value: bool)         // the ThrowException setter

  function Step(c: CommandState, op: CommandOp): CommandState {
    match op
    case Execute(t) => Begin(c, (_: Source) => t)
    case Settle(f) => if CanComplete(c, f) then Complete(c, f) else c
    case CancelCommand => CancelRun(c)
    case SetThrowException(v) => c.(throwException := v)
  }

  function Trace(c: CommandState, ops: seq<CommandOp>): CommandState
    decreases |ops|
  {
    if ops == [] then c else Trace(Step(c, ops[0]), ops[1..])
  }

  /** Whatever the caller does, the gate's CommandExecuting equals
      IsExecuting after every step. */
  lemma {:induction false} GateStaysInStep(c: CommandState, ops: seq<CommandOp>)
    requires Synced(c)
    ensures Synced(Trace(c, ops))
    decreases |ops|
  {
    if ops != [] {
      var c' := Step(c, ops[0]);
      match ops[0] {
        case Execute(t) =>
          SetterKeepsGateInStep(c, true);
        case Settle(f) =>
          if CanComplete(c, f) {
            var run := c.current.value;
            var s := c.(current := Some(run.(task := f, completion := WatchCompletion(f, run.throwException))));
            SetterKeepsGateInStep(s, false);
          }
        case CancelCommand =>
        case SetThrowException(v) =>
      }
      GateStaysInStep(c', ops[1..]);
    }
  }

  /** As long as ThrowException is never set, IsExecuting is true exactly
      while an operation exists whose watch has not finished, whatever order
      the caller executes, cancels and settles in; re-entrant runs included
      (the abandoned run's completion is not modelled). */
  lemma {:induction false} ExecutingTracksOperation(c: CommandState, ops: seq<CommandOp>)
    requires Tracked(c) && Swallowing(c)
    requires forall i | 0 <= i < |ops| :: ops[i] != SetThrowException(true)
    ensures Tracked(Trace(c, ops)) && Swallowing(Trace(c, ops))
    decreases |ops|
  {
    if ops != [] {
      var c' := Step(c, ops[0]);
      assert Tracked(c') && Swallowing(c');
      ExecutingTracksOperation(c', ops[1..]);
    }
  }

  /** The exception thrown by the constructor when a delegate is null; it
      always names executeMethod. */
  datatype ArgumentNullException = ArgumentNullException(paramName: string)

  class DelegateCommandAsync {
    const cancelCommand: CancelTaskCommand
    const executeMethod: Source -> TaskState<()>
    var canExecuteMethod: () -> bool
    var isExecuting: bool
    var observableTask: ObservableTask?
    var throwException: bool
    var log: seq<Event>

    /** The command's state as a value. */
    function View(): CommandState
      reads this, cancelCommand, observableTask
    {
      CommandState(
        isExecuting,
        cancelCommand.State(),
        if observableTask == null then None
        else Some(RunView(observableTask.task, observableTask.taskCompletion, observableTask.throwException)),
        throwException)
    }

    constructor (executeMethod: Source -> TaskState<()>, canExecuteMethod: () -> bool)
      ensures View() == NewCommand && observableTask == null
      ensures fresh(cancelCommand) && cancelCommand.log == [] && log == []
      ensures this.executeMethod == executeMethod && this.canExecuteMethod == canExecuteMethod
    {
      cancelCommand := new CancelTaskCommand();
      this.executeMethod := executeMethod;
      this.canExecuteMethod := canExecuteMethod;
      isExecuting := false;
      observableTask := null;
      throwException := false;
      log := [];
    }

    /** DelegateCommandAsync(executeMethod, canExecuteMethod): either
        delegate being null throws ArgumentNullException. */
    static method Create(executeMethod: Option<Source -> TaskState<()>>, canExecuteMethod: Option<() -> bool>)
      returns (command: DelegateCommandAsync?, error: Option<ArgumentNullException>)
      ensures command == null <==> executeMethod.None? || canExecuteMethod.None?
      ensures error == if command == null then Some(ArgumentNullException("executeMethod")) else None
      ensures command != null ==> fresh(command) && fresh(command.cancelCommand)
      ensures command != null ==> command.View() == NewCommand && command.observableTask == null
      ensures command != null ==> command.executeMethod == executeMethod.value
      ensures command != null ==> command.canExecuteMethod == canExecuteMethod.value
    {
      if executeMethod.None? || canExecuteMethod.None? {
        return null, Some(ArgumentNullException("executeMethod"));
      }
      command := new DelegateCommandAsync(executeMethod.value, canExecuteMethod.value);
      error := None;
    }

    /** DelegateCommandAsync(executeMethod): the two-argument constructor
        with a predicate that always answers true. */
    static method CreateAlwaysEnabled(executeMethod: Option<Source -> TaskState<()>>)
      returns (command: DelegateCommandAsync?, error: Option<ArgumentNullException>)
      ensures command == null <==> executeMethod.None?
      ensures error == if command == null then Some(ArgumentNullException("executeMethod")) else None
      ensures command != null ==> fresh(command) && command.View() == NewCommand && command.observableTask == null
      ensures command != null ==> command.canExecuteMethod() && command.executeMethod == executeMethod.value
    {
      command, error := Create(executeMethod, Some(() => true));
    }

    /** The overridden CanExecute(object): canExecuteMethod() && !IsExecuting. */
    predicate CanExecuteParameter()
      reads this
      ensures CanExecuteParameter() ==> !isExecuting
      ensures !isExecuting ==> (CanExecuteParameter() <==> canExecuteMethod())
    {
      canExecuteMethod() && !isExecuting
    }

    /** The public CanExecute(): CanExecute(null) && !IsExecuting, which
        tests IsExecuting twice and so answers as CanExecute(object). */
    function CanExecute(): (b: bool)
      reads this
      ensures b == CanExecuteParameter()
      ensures b <==> canExecuteMethod() && !isExecuting
    {
      CanExecuteParameter() && !isExecuting
    }

    /** The protected IsExecuting setter. */
    method SetIsExecuting(value: bool)
      modifies this, cancelCommand
      ensures View() == SetExecuting(old(View()), value)
      ensures observableTask == old(observableTask) && canExecuteMethod == old(canExecuteMethod)
      ensures log == old(log) + (if old(isExecuting) == value then [] else [PropertyChanged("IsExecuting"), CanExecuteChanged])
      ensures cancelCommand.log == old(cancelCommand.log) +
        (if old(isExecuting) == value then []
         else Changed(old(cancelCommand.commandExecuting), value, "CommandExecuting") + [CanExecuteChanged])
    {
      if isExecuting == value {
        return;
      }
      isExecuting := value;
      log := log + [PropertyChanged("IsExecuting"), CanExecuteChanged];
      if isExecuting {
        cancelCommand.NotifyCommandStarting();
      } else {
        cancelCommand.NotifyCommandFinished();
      }
    }

    /** The protected ObservableTask setter: compares references. */
    method SetObservableTask(value: ObservableTask?)
      modifies this
      ensures observableTask == value
      ensures isExecuting == old(isExecuting) && throwException == old(throwException)
      ensures canExecuteMethod == old(canExecuteMethod)
      ensures log == old(log) + (if old(observableTask) == value then [] else [PropertyChanged("ObservableTask"), CanExecuteChanged])
    {
      if observableTask == value {
        return;
      }
      observableTask := value;
      log := log + [PropertyChanged("ObservableTask"), CanExecuteChanged];
    }

    method SetThrowException(value: bool)
      modifies this
      ensures View() == old(View()).(throwException := value)
      ensures observableTask == old(observableTask) && canExecuteMethod == old(canExecuteMethod)
      ensures log == old(log) + Changed(old(throwException), value, "ThrowException")
    {
      if throwException == value {
        return;
      }
      throwException := value;
      log := log + [PropertyChanged("ThrowException")];
    }

    /** ThrowIfFaulted: returns normally without an operation or when it did
        not fault; otherwise throws the operation's exception. */
    method ThrowIfFaulted() returns (thrown: Option<AggregateError>)
      ensures thrown.Some? <==> observableTask != null && IsFaulted(observableTask.task)
      ensures thrown.Some? ==> thrown == Exception(observableTask.task)
    {
      if observableTask == null {
        return None;
      }
      if IsFaulted(observableTask.task) {
        return Exception(observableTask.task);
      }
      return None;
    }

    /** Cancel(): forwards to the gate. */
    method Cancel()
      modifies cancelCommand
      ensures View() == CancelRun(old(View()))
      ensures cancelCommand.log == old(cancelCommand.log) + [CanExecuteChanged]
    {
      cancelCommand.Cancel();
    }

    /** ObservesCanExecute: replaces the predicate and returns the command. */
    method ObservesCanExecute(canExecute: () -> bool) returns (self: DelegateCommandAsync)
      modifies this
      ensures self == this && canExecuteMethod == canExecute
      ensures View() == old(View()) && observableTask == old(observableTask) && log == old(log)
    {
      canExecuteMethod := canExecute;
      self := this;
    }

    /** ExecuteAsync up to its await. Returns the token the delegate received. */
    method ExecuteAsyncBegin() returns (token: Source)
      modifies this, cancelCommand
      ensures View() == Begin(old(View()), executeMethod)
      ensures token == RunToken(old(View()))
      ensures observableTask != null && fresh(observableTask)
      ensures observableTask.cancelCommand == null && observableTask.log == []
      ensures canExecuteMethod == old(canExecuteMethod)
      ensures log == old(log) + (if old(isExecuting) then [] else [PropertyChanged("IsExecuting"), CanExecuteChanged])
                              + [PropertyChanged("ObservableTask"), CanExecuteChanged]
      ensures cancelCommand.log == old(cancelCommand.log) +
        (if old(isExecuting) then []
         else Changed(old(cancelCommand.commandExecuting), true, "CommandExecuting") + [CanExecuteChanged])
    {
      SetIsExecuting(true);
      token := cancelCommand.Token();
      var operation := new ObservableTask.Wrap(executeMethod(token));
      operation.throwException := throwException;
      SetObservableTask(operation);
    }

    /** ExecuteAsync from the moment the awaited task settles to `final`:
        the operation's watch runs, then IsExecuting := false unless the watch
        rethrew. Returns how ExecuteAsync's own task ends. */
    method ExecuteAsyncComplete(final: TaskState<()>) returns (outcome: TaskState<()>)
      requires CanComplete(View(), final)
      modifies this, cancelCommand, observableTask
      ensures View() == Complete(old(View()), final)
      ensures observableTask == old(observableTask) && canExecuteMethod == old(canExecuteMethod)
      ensures outcome == WatchCompletion(final, old(observableTask.throwException))
      ensures observableTask.log == old(observableTask.log) + WatchNotifications(final, old(observableTask.throwException))
      ensures log == old(log) +
        (if outcome.Succeeded? && old(isExecuting) then [PropertyChanged("IsExecuting"), CanExecuteChanged] else [])
      ensures cancelCommand.log == old(cancelCommand.log) +
        (if outcome.Succeeded? && old(isExecuting)
         then Changed(old(cancelCommand.commandExecuting), false, "CommandExecuting") + [CanExecuteChanged]
         else [])
    {
      observableTask.WatchTaskAsync(final);
      outcome := observableTask.taskCompletion;
      if outcome.Succeeded? {
        SetIsExecuting(false);
      }
    }
  }
}
