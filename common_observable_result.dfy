/** Common.Tasks.ObservableTask<TResult> (ObservableTaskTResult.cs): wraps a
    task, or starts one through a factory after starting a gate of its own.
    Its watch swallows every exception, tells the gate (if any) "finished"
    only on success, raises the settled notifications with "Result", and
    returns Result. */
module CommonObservableResult {
  import opened Tasks
  import opened CancellationGate
  import opened GateCommands
  import opened CommonObservableBase

  class ObservableTask<T(==)> {
    var cancelCommand: RequeryCancelCommand?
    var task: TaskState<T>
    /** TaskCompletion: None while it is null, otherwise the watch task. */
    var taskCompletion: Option<TaskState<T>>
    var log: seq<Event>
    /** default(TResult), fixed per type argument and supplied by the caller. */
    const defaultResult: T

    /** ObservableTask(Task<TResult>): no gate, and the watch is always attached. */
    constructor Wrap(task: TaskState<T>, defaultResult: T)
      ensures this.task == task && cancelCommand == null && this.defaultResult == defaultResult
      ensures taskCompletion == Some(Pending) && log == []
    {
      this.defaultResult := defaultResult;
      this.task := task;
      cancelCommand := null;
      taskCompletion := Some(Pending);
      log := [];
    }

    /** ObservableTask(Func<CancellationToken, Task<TResult>>): a new gate is
        started, the factory is called once with its first, uncancelled token,
        and the watch is attached only when the returned task has not
        completed yet. When it has, nothing ever tells the gate the command
        finished, so its cancel command stays enabled. */
    constructor FromFactory(command: Source -> TaskState<T>, defaultResult: T)
      ensures this.defaultResult == defaultResult
      ensures cancelCommand != null && fresh(cancelCommand) && cancelCommand.Valid()
      ensures cancelCommand.State() == Starting(Initial)
      ensures cancelCommand.log == [PropertyChanged("CommandExecuting")]
      ensures cancelCommand.CanExecute() && !cancelCommand.Token().tripped
      ensures task == command(cancelCommand.Token()) && task == command(Initial.source)
      ensures taskCompletion == if IsCompleted(task) then None else Some(Pending)
      ensures log == []
    {
      this.defaultResult := defaultResult;
      var gate := new RequeryCancelCommand();
      gate.NotifyCommandStarting();
      cancelCommand := gate;
      var started := command(gate.Token());
      task := started;
      taskCompletion := if IsCompleted(started) then None else Some(Pending);
      log := [];
    }

    /** The Result property. */
    function Result(): (r: T)
      reads this
      ensures IsSuccessfullyCompleted(task) ==> r == task.result
      ensures !IsSuccessfullyCompleted(task) ==> r == defaultResult
    {
      Tasks.Result(task, defaultResult)
    }

    /** WatchTaskAsync, from the moment the awaited task settles to `final`.
        Returns what the watch task returns. */
    method WatchTaskAsync(final: TaskState<T>) returns (r: T)
      requires taskCompletion == Some(Pending) && MaySettleTo(task, final)
      requires cancelCommand != null ==> cancelCommand.Valid()
      modifies this, cancelCommand
      ensures task == final && cancelCommand == old(cancelCommand)
      ensures r == Result() && r == Tasks.Result(final, defaultResult)
      ensures taskCompletion == Some(Succeeded(r))
      ensures log == old(log) + SettledNotifications(final, true)
      ensures cancelCommand != null ==> cancelCommand.Valid()
      ensures cancelCommand != null ==> cancelCommand.State() == GateAfterWatch(old(cancelCommand.State()), final)
      ensures cancelCommand != null ==>
        cancelCommand.log == old(cancelCommand.log) +
          (if final.Succeeded?
           then Changed(old(cancelCommand.commandExecuting), false, "CommandExecuting") + [RequerySuggested]
           else [])
    {
      task := final;
      if IsSuccessfullyCompleted(final) && cancelCommand != null {
        cancelCommand.NotifyCommandFinished();
      }
      log := log + [PropertyChanged("Status"), PropertyChanged("IsCompleted"), PropertyChanged("IsNotCompleted")];
      if IsCanceled(final) {
        log := log + [PropertyChanged("IsCanceled")];
      } else if IsFaulted(final) {
        log := log + [PropertyChanged("IsFaulted"), PropertyChanged("Exception")];
        log := log + [PropertyChanged("InnerException"), PropertyChanged("ErrorMessage")];
      } else {
        log := log + [PropertyChanged("IsSuccessfullyCompleted"), PropertyChanged("Result")];
      }
      r := Result();
      taskCompletion := Some(Succeeded(r));
    }
  }
}
