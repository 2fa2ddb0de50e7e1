/** Common.Tasks.AsyncCommandBase with its two subclasses AsyncCommand<TResult>
    and AsyncCommand (AsyncCommandBase.cs, AsyncCommand.cs). The base keeps a
    change-guarded IsRunning and a nested CancelAsyncCommand gate (modelled
    by RequeryCancelCommand); each subclass's ExecuteAsync clears Execution,
    starts the gate, sets IsRunning, builds a new Execution over the task its
    command returns for the gate's token, awaits the watch, then finishes the
    gate and clears IsRunning. Unlike DelegateCommandAsync, IsRunning does not
    guard the gate: every run starts it. */
module CommonAsyncCommands {
  import opened Tasks
  import opened CancellationGate
  import opened GateCommands
  import opened CommonObservableBase
  import opened CommonObservableResult

  /** The command as a value: IsRunning and its gate. */
  datatype RunnerState = RunnerState(isRunning: bool, gate: GateState)

  const NewRunner: RunnerState := RunnerState(false, Initial)

  /** ExecuteAsync up to building the new Execution: the gate starts first,
      then IsRunning becomes true. */
  function StartRun(r: RunnerState): RunnerState {
    RunnerState(true, Starting(r.gate))
  }

  /** The token the command delegate receives: read after the gate started. */
  function RunToken(r: RunnerState): Source {
    Starting(r.gate).source
  }

  /** ExecuteAsync after the await: the gate finishes, then IsRunning becomes false. */
  function EndRun(r: RunnerState): RunnerState {
    RunnerState(false, Finished(r.gate))
  }

  /** Executing the CancelCommand: trips the gate's source. */
  function CancelRunner(r: RunnerState): RunnerState {
    r.(gate := Tripped(r.gate))
  }

  /** CanExecute: !IsRunning without a predicate, predicate() && !IsRunning with one. */
  predicate Executable(predicateValue: Option<bool>, isRunning: bool) {
    match predicateValue
    case None => !isRunning
    case Some(p) => p && !isRunning
  }

  /** Every run starts the gate before reading its token, even one begun while
      another is still running: the delegate always receives an uncancelled
      token, a tripped source is replaced (its old token stays cancelled) and
      an untripped one is handed on as it is. */
  lemma EveryRunGetsLiveToken(r: RunnerState)
    ensures !RunToken(r).tripped && StartRun(r).gate.source == RunToken(r)
    ensures StartRun(r).isRunning && CanCancel(StartRun(r).gate)
    ensures !r.gate.source.tripped ==> RunToken(r) == r.gate.source
    ensures r.gate.source.tripped ==>
      RunToken(r).id == r.gate.source.id + 1 && Requested(StartRun(r).gate, r.gate.source.id)
  {
  }

  /** While a run is in progress the command cannot be executed; once it
      completes the command is executable again exactly when its predicate
      holds (always, without a predicate), the gate is no longer cancellable
      and the run's token still says whether it was cancelled. */
  lemma FinishedRunReenables(r: RunnerState, predicateValue: Option<bool>)
    ensures !Executable(predicateValue, StartRun(r).isRunning)
    ensures Executable(predicateValue, EndRun(StartRun(r)).isRunning) <==> predicateValue.None? || predicateValue.value
    ensures !CanCancel(EndRun(StartRun(r)).gate)
    ensures EndRun(StartRun(r)).gate.source == RunToken(r)
  {
  }

  /** One step of the command's life as a caller drives it. */
  datatype RunnerOp = BeginRun | CompleteRun | CancelRun

  function StepRunner(r: RunnerState, op: RunnerOp): RunnerState {
    match op
    case BeginRun => StartRun(r)
    case CompleteRun => EndRun(r)
    case CancelRun => CancelRunner(r)
  }

  function TraceRunner(r: RunnerState, ops: seq<RunnerOp>): RunnerState
    decreases |ops|
  {
    if ops == [] then r else TraceRunner(StepRunner(r, ops[0]), ops[1..])
  }

  /** The gate call each step makes. */
  function GateOps(ops: seq<RunnerOp>): (gs: seq<GateOp>)
    ensures |gs| == |ops|
    decreases |ops|
  {
    if ops == [] then []
    else [match ops[0] case BeginRun => Start case CompleteRun => Finish case CancelRun => Cancel] + GateOps(ops[1..])
  }

  /** The command drives its gate through exactly the matching gate calls,
      and the gate's CommandExecuting keeps mirroring IsRunning. */
  lemma {:induction false} RunnerDrivesGate(r: RunnerState, ops: seq<RunnerOp>)
    ensures TraceRunner(r, ops).gate == Run(r.gate, GateOps(ops))
    ensures r.isRunning == r.gate.executing ==> TraceRunner(r, ops).isRunning == TraceRunner(r, ops).gate.executing
    decreases |ops|
  {
    if ops != [] {
      assert GateOps(ops)[1..] == GateOps(ops[1..]);
      RunnerDrivesGate(StepRunner(r, ops[0]), ops[1..]);
    }
  }

  /** Whatever the caller does after a run starts, the token that run
      received reports cancellation exactly when the command's
      CancelCommand was executed while that token's source was live. */
  lemma RunTokenObservesCancellation(r: RunnerState, ops: seq<RunnerOp>)
    ensures Requested(TraceRunner(StartRun(r), ops).gate, RunToken(r).id) <==>
            CancelledWhileLive(StartRun(r).gate, GateOps(ops), RunToken(r).id)
  {
    RunnerDrivesGate(StartRun(r), ops);
    TokenObservesCancellation(StartRun(r).gate, GateOps(ops));
  }

  /** The exact notifications of the IsRunning setter: the re-query hint,
      then PropertyChanged, only on a change. */
  function RunningChanged(before: bool, after: bool): seq<Event> {
    if before == after then [] else [RequerySuggested, PropertyChanged("IsRunning")]
  }

  /** AsyncCommand<TResult>. */
  class AsyncCommand<T(==)> {
    const command: Source -> TaskState<T>
    /** The optional canExecute predicate. */
    const canExecute: Option<() -> bool>
    const cancelCommand: RequeryCancelCommand
    /** default(TResult), handed to every Execution. */
    const defaultResult: T
    var isRunning: bool
    var execution: ObservableTask?<T>
    var log: seq<Event>

    function Runner(): RunnerState
      reads this, cancelCommand
    {
      RunnerState(isRunning, cancelCommand.State())
    }

    /** AsyncCommand(command): no predicate. */
    constructor (command: Source -> TaskState<T>, defaultResult: T)
      ensures this.command == command && canExecute.None? && this.defaultResult == defaultResult
      ensures fresh(cancelCommand) && cancelCommand.Valid() && cancelCommand.log == []
      ensures Runner() == NewRunner && execution == null && log == []
    {
      this.command := command;
      canExecute := None;
      cancelCommand := new RequeryCancelCommand();
      this.defaultResult := defaultResult;
      isRunning := false;
      execution := null;
      log := [];
    }

    /** AsyncCommand(command, canExecute). */
    constructor WithPredicate(command: Source -> TaskState<T>, canExecute: () -> bool, defaultResult: T)
      ensures this.command == command && this.canExecute == Some(canExecute) && this.defaultResult == defaultResult
      ensures fresh(cancelCommand) && cancelCommand.Valid() && cancelCommand.log == []
      ensures Runner() == NewRunner && execution == null && log == []
    {
      this.command := command;
      this.canExecute := Some(canExecute);
      cancelCommand := new RequeryCancelCommand();
      this.defaultResult := defaultResult;
      isRunning := false;
      execution := null;
      log := [];
    }

    function CanExecute(): (b: bool)
      reads this
      ensures b <==> (canExecute.None? || canExecute.value()) && !isRunning
    {
      Executable(if canExecute.None? then None else Some(canExecute.value()), isRunning)
    }

    method SetIsRunning(value: bool)
      modifies this
      ensures isRunning == value && execution == old(execution)
      ensures log == old(log) + RunningChanged(old(isRunning), value)
    {
      if isRunning == value {
        return;
      }
      isRunning := value;
      log := log + [RequerySuggested, PropertyChanged("IsRunning")];
    }

    /** The Execution setter; Equals on an operation is reference equality. */
    method SetExecution(value: ObservableTask?<T>)
      modifies this
      ensures execution == value && isRunning == old(isRunning)
      ensures log == old(log) + Changed(old(execution), value, "Execution")
    {
      if execution == value {
        return;
      }
      execution := value;
      log := log + [PropertyChanged("Execution")];
    }

    /** ExecuteAsync up to its await. Returns the token the command received. */
    method ExecuteAsyncBegin() returns (token: Source)
      requires cancelCommand.Valid()
      modifies this, cancelCommand
      ensures cancelCommand.Valid()
      ensures Runner() == StartRun(old(Runner())) && token == RunToken(old(Runner()))
      ensures execution != null && fresh(execution)
      ensures execution.task == command(token) && execution.cancelCommand == null
      ensures execution.taskCompletion == Some(Pending) && execution.log == []
      ensures execution.defaultResult == defaultResult
      ensures log == old(log) + Changed(old(execution), null, "Execution")
                              + RunningChanged(old(isRunning), true)
                              + [PropertyChanged("Execution")]
      ensures cancelCommand.log == old(cancelCommand.log)
                                   + Changed(old(cancelCommand.commandExecuting), true, "CommandExecuting")
                                   + (if old(cancelCommand.cts.tripped) then [RequerySuggested] else [])
    {
      SetExecution(null);
      cancelCommand.NotifyCommandStarting();
      SetIsRunning(true);
      token := cancelCommand.Token();
      var operation := new ObservableTask.Wrap(command(token), defaultResult);
      SetExecution(operation);
    }

    /** ExecuteAsync from the moment the awaited task settles to `final`:
        the Execution's watch runs, then the gate finishes, Execution is
        re-announced and IsRunning becomes false. */
    method ExecuteAsyncComplete(final: TaskState<T>)
      requires execution != null && execution.cancelCommand == null
      requires execution.taskCompletion == Some(Pending) && MaySettleTo(execution.task, final)
      requires cancelCommand.Valid()
      modifies this, cancelCommand, execution
      ensures cancelCommand.Valid()
      ensures Runner() == EndRun(old(Runner()))
      ensures execution == old(execution) && execution.task == final
      ensures execution.taskCompletion == Some(Succeeded(execution.Result()))
      ensures execution.log == old(execution.log) + SettledNotifications(final, true)
      ensures log == old(log) + [PropertyChanged("Execution")] + RunningChanged(old(isRunning), false)
      ensures cancelCommand.log == old(cancelCommand.log)
                                   + Changed(old(cancelCommand.commandExecuting), false, "CommandExecuting")
                                   + [RequerySuggested]
    {
      var _ := execution.WatchTaskAsync(final);
      cancelCommand.NotifyCommandFinished();
      log := log + [PropertyChanged("Execution")];
      SetIsRunning(false);
    }
  }

  /** The non-generic AsyncCommand, named apart from the generic one. Its
      Execution is a non-generic Common.Tasks.ObservableTask, built on
      ObservableTaskBase. */
  class TaskAsyncCommand {
    const command: Source -> TaskState<()>
    /** The optional canExecute predicate. */
    const canExecute: Option<() -> bool>
    const cancelCommand: RequeryCancelCommand
    var isRunning: bool
    var execution: ObservableTaskBase?
    var log: seq<Event>

    function Runner(): RunnerState
      reads this, cancelCommand
    {
      RunnerState(isRunning, cancelCommand.State())
    }

    /** AsyncCommand(command): no predicate. */
    constructor (command: Source -> TaskState<()>)
      ensures this.command == command && canExecute.None?
      ensures fresh(cancelCommand) && cancelCommand.Valid() && cancelCommand.log == []
      ensures Runner() == NewRunner && execution == null && log == []
    {
      this.command := command;
      canExecute := None;
      cancelCommand := new RequeryCancelCommand();
      isRunning := false;
      execution := null;
      log := [];
    }

    /** AsyncCommand(command, canExecute). */
    constructor WithPredicate(command: Source -> TaskState<()>, canExecute: () -> bool)
      ensures this.command == command && this.canExecute == Some(canExecute)
      ensures fresh(cancelCommand) && cancelCommand.Valid() && cancelCommand.log == []
      ensures Runner() == NewRunner && execution == null && log == []
    {
      this.command := command;
      this.canExecute := Some(canExecute);
      cancelCommand := new RequeryCancelCommand();
      isRunning := false;
      execution := null;
      log := [];
    }

    function CanExecute(): (b: bool)
      reads this
      ensures b <==> (canExecute.None? || canExecute.value()) && !isRunning
    {
      Executable(if canExecute.None? then None else Some(canExecute.value()), isRunning)
    }

    method SetIsRunning(value: bool)
      modifies this
      ensures isRunning == value && execution == old(execution)
      ensures log == old(log) + RunningChanged(old(isRunning), value)
    {
      if isRunning == value {
        return;
      }
      isRunning := value;
      log := log + [RequerySuggested, PropertyChanged("IsRunning")];
    }

    /** The Execution setter, comparing references. */
    method SetExecution(value: ObservableTaskBase?)
      modifies this
      ensures execution == value && isRunning == old(isRunning)
      ensures log == old(log) + Changed(old(execution), value, "Execution")
    {
      if execution == value {
        return;
      }
      execution := value;
      log := log + [PropertyChanged("Execution")];
    }

    /** ExecuteAsync up to its await. `watched` says whether the new
        Execution's TaskCompletion is set; when it is null the await is
        skipped and the run finishes at once (`suspended` is false). */
    method ExecuteAsyncBegin(watched: bool) returns (token: Source, suspended: bool)
      requires cancelCommand.Valid()
      modifies this, cancelCommand
      ensures cancelCommand.Valid() && suspended == watched
      ensures token == RunToken(old(Runner()))
      ensures Runner() == if watched then StartRun(old(Runner())) else EndRun(StartRun(old(Runner())))
      ensures execution != null && fresh(execution) && fresh(execution.cancelCommand)
      ensures execution.task == command(token)
      ensures execution.taskCompletion == (if watched then Some(Pending) else None) && execution.log == []
      ensures execution.cancelCommand.Valid() && execution.cancelCommand.hasCallback
      ensures execution.cancelCommand.State() == Initial && execution.cancelCommand.log == []
      ensures log == old(log) + Changed(old(execution), null, "Execution")
                              + RunningChanged(old(isRunning), true)
                              + [PropertyChanged("Execution")]
                              + (if watched then [] else RunningChanged(true, false))
      ensures cancelCommand.log == old(cancelCommand.log)
                                   + Changed(old(cancelCommand.commandExecuting), true, "CommandExecuting")
                                   + (if old(cancelCommand.cts.tripped) then [RequerySuggested] else [])
                                   + (if watched then [] else [PropertyChanged("CommandExecuting"), RequerySuggested])
    {
      SetExecution(null);
      cancelCommand.NotifyCommandStarting();
      SetIsRunning(true);
      token := cancelCommand.Token();
      var operation := new ObservableTaskBase(command(token), watched);
      SetExecution(operation);
      suspended := execution.taskCompletion.Some?;
      if !suspended {
        cancelCommand.NotifyCommandFinished();
        SetIsRunning(false);
      }
    }

    /** ExecuteAsync from the moment the awaited task settles to `final`:
        the Execution's watch runs, then the gate finishes and IsRunning
        becomes false; Execution is not re-announced. */
    method ExecuteAsyncComplete(final: TaskState<()>)
      requires execution != null && execution.taskCompletion == Some(Pending) && MaySettleTo(execution.task, final)
      requires execution.cancelCommand.Valid() && execution.cancelCommand.hasCallback
      requires cancelCommand.Valid()
      modifies this, cancelCommand, execution, execution.cancelCommand
      ensures cancelCommand.Valid()
      ensures Runner() == EndRun(old(Runner()))
      ensures execution == old(execution) && execution.task == final
      ensures execution.taskCompletion == Some(Succeeded(()))
      ensures execution.cancelCommand.Valid()
      ensures execution.cancelCommand.State() == GateAfterWatch(old(execution.cancelCommand.State()), final)
      ensures execution.cancelCommand.log == old(execution.cancelCommand.log) +
        (if final.Succeeded?
         then Changed(old(execution.cancelCommand.commandExecuting), false, "CommandExecuting") + [Callback]
         else [])
      ensures execution.log == old(execution.log) + SettledNotifications(final, true)
      ensures log == old(log) + RunningChanged(old(isRunning), false)
      ensures cancelCommand.log == old(cancelCommand.log)
                                   + Changed(old(cancelCommand.commandExecuting), false, "CommandExecuting")
                                   + [RequerySuggested]
    {
      execution.WatchTaskAsync(final);
      cancelCommand.NotifyCommandFinished();
      SetIsRunning(false);
    }
  }
}
