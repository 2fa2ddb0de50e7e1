/** Prism.Commands.Async.ObservableTask with its base ObservableTaskBase
    (src/Prism.Commands.Async): wraps one task, or starts it through a factory
    that is handed the token of a gate of its own, and watches it. The watch
    swallows or rethrows the task's exception according to ThrowException and
    never tells the gate anything. */
module PrismAsyncObservable {
  import opened Tasks
  import opened CancellationGate
  import opened GateCommands

  /** What the watch raises once the task settled: nothing when it rethrows,
      the settled notifications without "Result" otherwise. */
  function WatchNotifications(final: TaskState<()>, throwException: bool): seq<Event>
    requires IsCompleted(final)
  {
    if Rethrows(final, throwException) then [] else SettledNotifications(final, false)
  }

  /** With ThrowException clear every outcome is swallowed and notified; with
      it set a faulted or cancelled task raises nothing and only a successful
      one is notified. */
  lemma WatchNotifiesUnlessRethrowing(final: TaskState<()>)
    requires IsCompleted(final)
    ensures WatchNotifications(final, false) == SettledNotifications(final, false)
    ensures final.Succeeded? ==> WatchNotifications(final, true) == SettledNotifications(final, false)
    ensures !final.Succeeded? ==> WatchNotifications(final, true) == []
    ensures PropertyChanged("Result") !in WatchNotifications(final, false)
  {
    SettledNotificationsShape(final, false);
  }

  class ObservableTask {
    var cancelCommand: CancelTaskCommand?
    var task: TaskState<()>
    /** TaskCompletion: the watch task. */
    var taskCompletion: TaskState<()>
    var throwException: bool
    var log: seq<Event>

    /** ObservableTask(Task task): stores the task, has no gate, and attaches
        the watch. */
    constructor Wrap(task: TaskState<()>)
      ensures this.task == task && cancelCommand == null
      ensures taskCompletion == Pending && !throwException && log == []
    {
      this.task := task;
      cancelCommand := null;
      taskCompletion := Pending;
      throwException := false;
      log := [];
    }

    /** ObservableTask(Func<CancellationToken, Task>): creates a gate, calls
        the factory once with the gate's token and watches what it returns.
        The gate is never told the operation started. */
    constructor FromFactory(executeMethod: Source -> TaskState<()>)
      ensures cancelCommand != null && fresh(cancelCommand)
      ensures cancelCommand.State() == Initial && cancelCommand.log == []
      ensures task == executeMethod(cancelCommand.Token())
      ensures taskCompletion == Pending && !throwException && log == []
    {
      var gate := new CancelTaskCommand();
      cancelCommand := gate;
      task := executeMethod(gate.Token());
      taskCompletion := Pending;
      throwException := false;
      log := [];
    }

    /** WatchTaskAsync, from the moment the awaited task settles to `final`. */
    method WatchTaskAsync(final: TaskState<()>)
      requires taskCompletion.Pending? && MaySettleTo(task, final)
      modifies this
      ensures task == final && taskCompletion == WatchCompletion(final, throwException)
      ensures log == old(log) + WatchNotifications(final, throwException)
      ensures cancelCommand == old(cancelCommand) && throwException == old(throwException)
    {
      task := final;
      if throwException && !IsSuccessfullyCompleted(final) {
        taskCompletion := if final.Failed? then Failed(final.exception) else Cancelled;
        return;
      }
      log := log + [PropertyChanged("Status"), PropertyChanged("IsCompleted"), PropertyChanged("IsNotCompleted")];
      if IsCanceled(final) {
        log := log + [PropertyChanged("IsCanceled")];
      } else if IsFaulted(final) {
        log := log + [PropertyChanged("IsFaulted"), PropertyChanged("Exception")];
        log := log + [PropertyChanged("InnerException"), PropertyChanged("ErrorMessage")];
      } else {
        log := log + [PropertyChanged("IsSuccessfullyCompleted")];
      }
      taskCompletion := Succeeded(());
    }
  }

  /** A factory-built operation whose gate is cancelled: the gate was never
      started, so it reports that it cannot be cancelled, yet Cancel still
      trips the token the factory received; a computation that honours the
      token settles cancelled and the watch then raises IsCanceled. */
  method CancelBeforeSettling(executeMethod: Source -> TaskState<()>)
    returns (couldCancel: bool, tokenCancelled: bool, notified: seq<Event>)
    requires executeMethod(Initial.source).Pending?
    ensures !couldCancel && tokenCancelled
    ensures notified == SettledNotifications<()>(Cancelled, false)
    ensures PropertyChanged("IsCanceled") in notified
  {
    var operation := new ObservableTask.FromFactory(executeMethod);
    var token := operation.cancelCommand.Token();
    couldCancel := operation.cancelCommand.CanExecute();
    operation.cancelCommand.Cancel();
    tokenCancelled := Requested(operation.cancelCommand.State(), token.id);
    operation.WatchTaskAsync(Cancelled);
    notified := operation.log;
    SettledNotificationsShape<()>(Cancelled, false);
  }
}
