/** Prism.Commands.ObservableTask<TResult> (the root ObservableTask.cs): wraps
    one task without any gate. The watch it starts in its constructor is
    discarded; it swallows the awaited task's exception unless the public
    ThrowException field is set, in which case it rethrows and raises
    nothing. */
module PrismObservableResult {
  import opened Tasks

  /** What the watch raises once the task settled: nothing when it rethrows,
      the settled notifications with "Result" otherwise. */
  function ResultWatchNotifications<T>(final: TaskState<T>, throwException: bool): seq<Event>
    requires IsCompleted(final)
  {
    if Rethrows(final, throwException) then [] else SettledNotifications(final, true)
  }

  /** A successful task is always notified, with IsSuccessfullyCompleted and
      then Result last; a faulted or cancelled one is notified exactly when
      ThrowException is clear, and never with Result. */
  lemma ResultNotifiedOnlyOnSuccess<T>(final: TaskState<T>, throwException: bool)
    requires IsCompleted(final)
    ensures final.Succeeded? ==>
      ResultWatchNotifications(final, throwException) ==
        SettledPrefix + [PropertyChanged("IsSuccessfullyCompleted"), PropertyChanged("Result")]
    ensures !final.Succeeded? ==> (ResultWatchNotifications(final, throwException) == [] <==> throwException)
    ensures PropertyChanged("Result") in ResultWatchNotifications(final, throwException) <==> final.Succeeded?
  {
    SettledNotificationsShape(final, true);
  }

  class ObservableTask<T(==)> {
    var task: TaskState<T>
    /** The public ThrowException field. */
    var throwException: bool
    /** The discarded watch task. */
    var watch: TaskState<()>
    var log: seq<Event>
    /** default(TResult), fixed per type argument and supplied by the caller. */
    const defaultResult: T

    /** ObservableTask(Task<TResult>): stores the task unchanged and starts
        the watch; ThrowException starts false. */
    constructor (task: TaskState<T>, defaultResult: T)
      ensures this.task == task && this.defaultResult == defaultResult
      ensures !throwException && watch == Pending && log == []
    {
      this.task := task;
      this.defaultResult := defaultResult;
      throwException := false;
      watch := Pending;
      log := [];
    }

    /** The Result property. */
    function Result(): (r: T)
      reads this
      ensures IsSuccessfullyCompleted(task) ==> r == task.result
      ensures !IsSuccessfullyCompleted(task) ==> r == defaultResult
    {
      Tasks.Result(task, defaultResult)
    }

    /** WatchTaskAsync, from the moment the awaited task settles to `final`. */
    method WatchTaskAsync(final: TaskState<T>)
      requires watch.Pending? && MaySettleTo(task, final)
      modifies this
      ensures task == final && throwException == old(throwException)
      ensures watch == WatchCompletion(final, throwException)
      ensures log == old(log) + ResultWatchNotifications(final, throwException)
    {
      task := final;
      if throwException && !IsSuccessfullyCompleted(final) {
        watch := if final.Failed? then Failed(final.exception) else Cancelled;
        return;
      }
      log := log + [PropertyChanged("Status"), PropertyChanged("IsCompleted"), PropertyChanged("IsNotCompleted")];
      if IsCanceled(final) {
        log := log + [PropertyChanged("IsCanceled")];
      } else if IsFaulted(final) {
        log := log + [PropertyChanged("IsFaulted"), PropertyChanged("Exception")];
        log := log + [PropertyChanged("InnerException"), PropertyChanged("ErrorMessage")];
      } else {
        log := log + [PropertyChanged("IsSuccessfullyCompleted"), PropertyChanged("Result")];
      }
      watch := Succeeded(());
    }
  }
}
