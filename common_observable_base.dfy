/** Common.Tasks.ObservableTaskBase (the root ObservableTaskBase.cs): every
    instance owns a CancelAsyncCommand whose callback is the class's static
    RaiseCanExecuteChanged (the CommandManager re-query hint). Its watch
    swallows every exception, tells the gate the command finished only when
    the awaited task ran to completion, and raises the settled notifications
    with "Result" in the success branch. */
module CommonObservableBase {
  import opened Tasks
  import opened CancellationGate
  import opened GateCommands

  /** The gate after a watch that reports "finished" only when the awaited
      task ran to completion. */
  function GateAfterWatch<T>(g: GateState, final: TaskState<T>): GateState {
    if IsSuccessfullyCompleted(final) then Finished(g) else g
  }

  /** A watch leaves the source alone, so no token changes its answer; the
      gate stops executing exactly when the task succeeded (or it was not
      executing anyway). A started gate whose task faulted or was cancelled
      therefore stays executing, and, unless the run was cancelled through
      it, its cancel command stays enabled after the operation is over. */
  lemma WatchFinishesGateOnlyOnSuccess<T>(g: GateState, final: TaskState<T>, id: nat)
    requires IsCompleted(final)
    ensures GateAfterWatch(g, final).source == g.source
    ensures Requested(GateAfterWatch(g, final), id) <==> Requested(g, id)
    ensures GateAfterWatch(g, final).executing <==> g.executing && !final.Succeeded?
    ensures CanCancel(g) && !final.Succeeded? ==> CanCancel(GateAfterWatch(g, final))
    ensures final.Succeeded? ==> !CanCancel(GateAfterWatch(g, final))
  {
  }

  class ObservableTaskBase {
    const cancelCommand: CancelAsyncCommand
    var task: TaskState<()>
    /** TaskCompletion: None while it is null, otherwise the watch task. */
    var taskCompletion: Option<TaskState<()>>
    var log: seq<Event>

    /** The base constructor creates the gate with RaiseCanExecuteChanged as
        its callback. The constructors of the derived operation classes are
        not part of this model: `watched` says whether one of them stored
        the watch over `task` in TaskCompletion. */
    constructor (task: TaskState<()>, watched: bool)
      ensures fresh(cancelCommand) && cancelCommand.hasCallback && cancelCommand.Valid()
      ensures cancelCommand.State() == Initial && cancelCommand.log == []
      ensures this.task == task && log == []
      ensures taskCompletion == if watched then Some(Pending) else None
    {
      cancelCommand := new CancelAsyncCommand(true);
      this.task := task;
      taskCompletion := if watched then Some(Pending) else None;
      log := [];
    }

    /** WatchTaskAsync, from the moment the awaited task settles to `final`. */
    method WatchTaskAsync(final: TaskState<()>)
      requires taskCompletion == Some(Pending) && MaySettleTo(task, final)
      requires cancelCommand.Valid() && cancelCommand.hasCallback
      modifies this, cancelCommand
      ensures task == final && taskCompletion == Some(Succeeded(()))
      ensures cancelCommand.Valid()
      ensures cancelCommand.State() == GateAfterWatch(old(cancelCommand.State()), final)
      ensures cancelCommand.log == old(cancelCommand.log) +
        (if final.Succeeded? then Changed(old(cancelCommand.commandExecuting), false, "CommandExecuting") + [Callback] else [])
      ensures log == old(log) + SettledNotifications(final, true)
    {
      task := final;
      if IsSuccessfullyCompleted(final) {
        var _ := cancelCommand.NotifyCommandFinished();
      }
      log := log + [PropertyChanged("Status"), PropertyChanged("IsCompleted"), PropertyChanged("IsNotCompleted")];
      if IsCanceled(final) {
        log := log + [PropertyChanged("IsCanceled")];
      } else if IsFaulted(final) {
        log := log + [PropertyChanged("IsFaulted"), PropertyChanged("Exception")];
        log := log + [PropertyChanged("InnerException"), PropertyChanged("ErrorMessage")];
      } else {
        log := log + [PropertyChanged("IsSuccessfullyCompleted"), PropertyChanged("Result")];
      }
      taskCompletion := Some(Succeeded(()));
    }
  }
}
