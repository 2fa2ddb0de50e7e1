/** Values shared by every component: the state of an awaited .NET task, the
    queries an observable operation derives from it, the events objects raise,
    and the fixed sequence of property-changed notifications a watch raises
    once the task settles. */
module Tasks {

  datatype Option<+T> = None | Some(value: T)

  /** The inner exception of a faulted task; only its message is observed. */
  datatype InnerError = InnerError(message: string)

  /** An AggregateException, kept opaque except for its first inner
      exception. A faulted .NET task always carries at least one inner
      exception, so `AggregateError(None)` never occurs in a faulted task of
      the source; the model does not exclude it, and every property proved
      here holds for it as well. */
  datatype AggregateError = AggregateError(inner: Option<InnerError>)

  /** The task statuses the model distinguishes; every not-yet-completed .NET
      status (Created, WaitingForActivation, ...) is Running. */
  datatype TaskStatus = Running | RanToCompletion | Faulted | Canceled

  /** An awaited task: still pending, or settled with a result, a fault or a
      cancellation. A result exists only for a successful task and an
      exception only for a faulted one. */
  datatype TaskState<T> = Pending | Succeeded(result: T) | Failed(exception: AggregateError) | Cancelled

  /** Everything an object of the model can raise, in the order it raises it. */
  datatype Event =
    | PropertyChanged(name: string)   // INotifyPropertyChanged.PropertyChanged
    | CanExecuteChanged               // the object's own ICommand.CanExecuteChanged
    | Callback                        // an injected raiseCanExecuteChanged action
    | RequerySuggested                // CommandManager.InvalidateRequerySuggested

  function Status<T>(t: TaskState<T>): (s: TaskStatus)
    ensures s == Running <==> t.Pending?
    ensures s == RanToCompletion <==> t.Succeeded?
    ensures s == Faulted <==> t.Failed?
  {
    match t
    case Pending => Running
    case Succeeded(_) => RanToCompletion
    case Failed(_) => Faulted
    case Cancelled => Canceled
  }

  /** IsCompleted: the task has settled, whichever way. */
  predicate IsCompleted<T>(t: TaskState<T>)
    ensures IsCompleted(t) <==> !t.Pending?
  {
    Status(t) != Running
  }

  predicate IsNotCompleted<T>(t: TaskState<T>)
    ensures IsNotCompleted(t) <==> t.Pending?
  {
    !IsCompleted(t)
  }

  predicate IsSuccessfullyCompleted<T>(t: TaskState<T>)
    ensures IsSuccessfullyCompleted(t) <==> t.Succeeded?
  {
    Status(t) == RanToCompletion
  }

  predicate IsCanceled<T>(t: TaskState<T>)
    ensures IsCanceled(t) <==> t.Cancelled?
  {
    Status(t) == Canceled
  }

  predicate IsFaulted<T>(t: TaskState<T>)
    ensures IsFaulted(t) <==> t.Failed?
  {
    Status(t) == Faulted
  }

  /** Task.Exception: non-null only for a faulted task. */
  function Exception<T>(t: TaskState<T>): (e: Option<AggregateError>)
    ensures e.Some? <==> IsFaulted(t)
    ensures e.Some? ==> e.value == t.exception
  {
    if t.Failed? then Some(t.exception) else None
  }

  /** Exception?.InnerException */
  function InnerException<T>(t: TaskState<T>): (i: Option<InnerError>)
    ensures i.Some? ==> IsFaulted(t) && i == t.exception.inner
    ensures IsFaulted(t) ==> i == t.exception.inner
  {
    match Exception(t)
    case None => None
    case Some(e) => e.inner
  }

  /** InnerException?.Message */
  function ErrorMessage<T>(t: TaskState<T>): (m: Option<string>)
    ensures m.Some? <==> InnerException(t).Some?
    ensures m.Some? ==> m.value == InnerException(t).value.message
  {
    match InnerException(t)
    case None => None
    case Some(i) => Some(i.message)
  }

  /** The Result property: the task's result when it ran to completion,
      default(TResult) (here `dflt`) otherwise. */
  function Result<T>(t: TaskState<T>, dflt: T): (r: T)
    ensures t.Succeeded? ==> r == t.result
    ensures !t.Succeeded? ==> r == dflt
  {
    if Status(t) == RanToCompletion then t.result else dflt
  }

  /** A task may only go from pending to settled, never change once settled. */
  predicate MaySettleTo<T(==)>(t: TaskState<T>, final: TaskState<T>) {
    IsCompleted(final) && (t.Pending? || t == final)
  }

  /** What a change-guarded property setter raises: nothing when the value
      does not change, one notification naming the property when it does. */
  function Changed<V(==)>(before: V, after: V, name: string): seq<Event> {
    if before == after then [] else [PropertyChanged(name)]
  }

  const SettledPrefix: seq<Event> :=
    [PropertyChanged("Status"), PropertyChanged("IsCompleted"), PropertyChanged("IsNotCompleted")]

  const FaultNotifications: seq<Event> :=
    [PropertyChanged("IsFaulted"), PropertyChanged("Exception"),
     PropertyChanged("InnerException"), PropertyChanged("ErrorMessage")]

  /** The notifications a watch raises after the awaited task settled:
      Status, IsCompleted, IsNotCompleted, then one branch chosen by the
      outcome. `withResult` says whether the variant adds "Result" to the
      success branch. */
  function SettledNotifications<T>(t: TaskState<T>, withResult: bool): seq<Event>
    requires IsCompleted(t)
  {
    SettledPrefix +
    if IsCanceled(t) then [PropertyChanged("IsCanceled")]
    else if IsFaulted(t) then FaultNotifications
    else [PropertyChanged("IsSuccessfullyCompleted")] + (if withResult then [PropertyChanged("Result")] else [])
  }

  /** Whether a watch that honours ThrowException rethrows: the flag is set
      and the awaited task did not run to completion. */
  predicate Rethrows<T>(final: TaskState<T>, throwException: bool) {
    throwException && !IsSuccessfullyCompleted(final)
  }

  /** The state a watch task ends in once the awaited task `final` settled.
      Awaiting a faulted task throws its exception and rethrowing it faults
      the watch; awaiting a cancelled task throws a cancellation exception and
      rethrowing that from an async method cancels the watch; a swallowed
      exception, or none, lets the watch run to completion. */
  function WatchCompletion<T>(final: TaskState<T>, throwException: bool): TaskState<()>
    requires IsCompleted(final)
  {
    if !Rethrows(final, throwException) then Succeeded(())
    else if final.Failed? then Failed(final.exception)
    else Cancelled
  }

  /** The status queries agree with each other: IsSuccessfullyCompleted is
      exactly RanToCompletion, IsNotCompleted is the negation of IsCompleted,
      and a completed task is in exactly one of the three terminal states. */
  lemma StatusQueriesAgree<T>(t: TaskState<T>)
    ensures IsSuccessfullyCompleted(t) <==> t.Succeeded?
    ensures IsNotCompleted(t) <==> !IsCompleted(t)
    ensures IsCompleted(t) <==> IsSuccessfullyCompleted(t) || IsFaulted(t) || IsCanceled(t)
    ensures !(IsSuccessfullyCompleted(t) && IsFaulted(t))
    ensures !(IsSuccessfullyCompleted(t) && IsCanceled(t))
    ensures !(IsFaulted(t) && IsCanceled(t))
  {
  }

  /** The error chain: no exception means no inner exception, no inner
      exception means no message; there is an exception exactly when the task
      faulted, and a message only then. */
  lemma ErrorChain<T>(t: TaskState<T>)
    ensures Exception(t).None? ==> InnerException(t).None?
    ensures InnerException(t).None? ==> ErrorMessage(t).None?
    ensures Exception(t).Some? <==> IsFaulted(t)
    ensures ErrorMessage(t).Some? ==> IsFaulted(t) && ErrorMessage(t).value == t.exception.inner.value.message
  {
  }

  /** Result is the task's own result exactly when it ran to completion and
      the default otherwise. */
  lemma ResultOnlyOnSuccess<T>(t: TaskState<T>, dflt: T)
    ensures t.Succeeded? ==> Result(t, dflt) == t.result
    ensures !t.Succeeded? ==> Result(t, dflt) == dflt
  {
  }

  /** A change-guarded setter raises nothing on an equal value and exactly one
      notification, naming the property, on a different one. */
  lemma ChangeGuard<V>(before: V, after: V, name: string)
    ensures before == after ==> Changed(before, after, name) == []
    ensures before != after ==> Changed(before, after, name) == [PropertyChanged(name)]
  {
  }

  /** With ThrowException clear, the watch swallows every outcome and runs
      to completion. With it set, the watch ends exactly as the awaited task
      did: same status, same exception. */
  lemma WatchCompletionMirrorsTask<T>(final: TaskState<T>)
    requires IsCompleted(final)
    ensures WatchCompletion(final, false) == Succeeded(())
    ensures Status(WatchCompletion(final, true)) == Status(final)
    ensures Exception(WatchCompletion(final, true)) == Exception(final)
  {
  }

  /** The settled notifications start with Status, IsCompleted and
      IsNotCompleted, then follow exactly one branch: IsCanceled is raised iff
      the task was cancelled, IsFaulted (with Exception, InnerException and
      ErrorMessage) iff it faulted, IsSuccessfullyCompleted iff it ran to
      completion, and Result iff it ran to completion in a variant that
      reports it. */
  lemma SettledNotificationsShape<T>(t: TaskState<T>, withResult: bool)
    requires IsCompleted(t)
    ensures SettledNotifications(t, withResult)[..3] == SettledPrefix
    ensures PropertyChanged("IsCanceled") in SettledNotifications(t, withResult) <==> t.Cancelled?
    ensures PropertyChanged("IsFaulted") in SettledNotifications(t, withResult) <==> t.Failed?
    ensures t.Failed? ==> SettledNotifications(t, withResult)[3..] == FaultNotifications
    ensures PropertyChanged("IsSuccessfullyCompleted") in SettledNotifications(t, withResult) <==> t.Succeeded?
    ensures PropertyChanged("Result") in SettledNotifications(t, withResult) <==> t.Succeeded? && withResult
    ensures |SettledNotifications(t, withResult)| ==
            3 + (if t.Cancelled? then 1 else if t.Failed? then 4 else if withResult then 2 else 1)
  {
    var es := SettledNotifications(t, withResult);
    assert es[..3] == SettledPrefix;
    if t.Cancelled? {
      assert es == SettledPrefix + [PropertyChanged("IsCanceled")];
    } else if t.Failed? {
      assert es == SettledPrefix + FaultNotifications;
    } else if withResult {
      assert es == SettledPrefix + [PropertyChanged("IsSuccessfullyCompleted"), PropertyChanged("Result")];
    } else {
      assert es == SettledPrefix + [PropertyChanged("IsSuccessfullyCompleted")];
    }
  }
}
