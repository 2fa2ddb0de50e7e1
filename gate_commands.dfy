/** The five cancel-command classes of the repository. All keep a
    CommandExecuting flag and a cancellation source and follow the gate of
    module CancellationGate; they differ in what they raise when they change:
    their own CanExecuteChanged event, an injected callback (which may or may
    not be null-checked), or the global CommandManager re-query hint; and in
    whether starting signals always or only when it replaces the source. */
module GateCommands {
  import opened Tasks
  import opened CancellationGate

  /** Prism.Commands.Async.CancelTaskCommand (the same class is kept twice in
      the repository, under src/ and at the root). Raises PropertyChanged for
      CommandExecuting and its own CanExecuteChanged on every start, finish
      and cancel. */
  class CancelTaskCommand {
    var commandExecuting: bool
    var cts: Source
    var log: seq<Event>

    constructor ()
      ensures State() == Initial && log == []
    {
      commandExecuting := false;
      cts := Source(0, false);
      log := [];
    }

    function State(): GateState
      reads this
    {
      GateState(commandExecuting, cts)
    }

    /** The Token property: the current source's token, which reports a
        cancellation request exactly when that source was tripped. */
    function Token(): (t: Source)
      reads this
      ensures t == State().source
      ensures Requested(State(), t.id) <==> t.tripped
    {
      cts
    }

    /** ICommand.CanExecute */
    function CanExecute(): (b: bool)
      reads this
      ensures b <==> CanCancel(State())
    {
      commandExecuting && !cts.tripped
    }

    /** The CommandExecuting setter: a no-op on an equal value; otherwise
        stores the value and raises one PropertyChanged. */
    method SetCommandExecuting(value: bool)
      modifies this
      ensures State() == old(State()).(executing := value)
      ensures log == old(log) + Changed(old(commandExecuting), value, "CommandExecuting")
    {
      if commandExecuting == value {
        return;
      }
      commandExecuting := value;
      log := log + [PropertyChanged("CommandExecuting")];
    }

    method NotifyCommandStarting()
      modifies this
      ensures State() == Starting(old(State()))
      ensures log == old(log) + Changed(old(commandExecuting), true, "CommandExecuting") + [CanExecuteChanged]
    {
      SetCommandExecuting(true);
      if cts.tripped {
        cts := Source(cts.id + 1, false);
      }
      log := log + [CanExecuteChanged];
    }

    method NotifyCommandFinished()
      modifies this
      ensures State() == Finished(old(State()))
      ensures log == old(log) + Changed(old(commandExecuting), false, "CommandExecuting") + [CanExecuteChanged]
    {
      SetCommandExecuting(false);
      log := log + [CanExecuteChanged];
    }

    /** ICommand.Execute: trips the source and raises CanExecuteChanged. */
    method Execute()
      modifies this
      ensures State() == Tripped(old(State()))
      ensures log == old(log) + [CanExecuteChanged]
    {
      cts := cts.(tripped := true);
      log := log + [CanExecuteChanged];
    }

    method Cancel()
      modifies this
      ensures State() == Tripped(old(State()))
      ensures log == old(log) + [CanExecuteChanged]
    {
      Execute();
    }
  }

  /** Common.Tasks.CancelAsyncCommand (CancelCommand.cs). Signals through an
      injected action that is not null-checked: starting signals only when it
      replaces the source. Calling a null action throws a
      NullReferenceException after the state has changed; the methods report
      that as `thrown`. The class's own CanExecuteChanged is never raised. */
  class CancelAsyncCommand {
    const hasCallback: bool
    var commandExecuting: bool
    var cts: Source
    var log: seq<Event>

    ghost predicate Valid()
      reads this
    {
      CanExecuteChanged !in log
    }

    constructor (hasCallback: bool)
      ensures Valid() && this.hasCallback == hasCallback
      ensures State() == Initial && log == []
    {
      this.hasCallback := hasCallback;
      commandExecuting := false;
      cts := Source(0, false);
      log := [];
    }

    function State(): GateState
      reads this
    {
      GateState(commandExecuting, cts)
    }

    /** The Token property: the current source's token, which reports a
        cancellation request exactly when that source was tripped. */
    function Token(): (t: Source)
      reads this
      ensures t == State().source
      ensures Requested(State(), t.id) <==> t.tripped
    {
      cts
    }

    /** ICommand.CanExecute */
    function CanExecute(): (b: bool)
      reads this
      ensures b <==> CanCancel(State())
    {
      commandExecuting && !cts.tripped
    }

    method SetCommandExecuting(value: bool)
      modifies this
      ensures State() == old(State()).(executing := value)
      ensures log == old(log) + Changed(old(commandExecuting), value, "CommandExecuting")
    {
      if commandExecuting == value {
        return;
      }
      commandExecuting := value;
      log := log + [PropertyChanged("CommandExecuting")];
    }

    /** Invokes the injected action, which throws when it is null. */
    method Signal() returns (thrown: bool)
      modifies this
      ensures State() == old(State())
      ensures thrown == !hasCallback
      ensures log == old(log) + (if hasCallback then [Callback] else [])
    {
      thrown := !hasCallback;
      if hasCallback {
        log := log + [Callback];
      }
    }

    method NotifyCommandStarting() returns (thrown: bool)
      requires Valid()
      modifies this
      ensures Valid()
      ensures State() == Starting(old(State()))
      ensures thrown == (old(cts.tripped) && !hasCallback)
      ensures log == old(log) + Changed(old(commandExecuting), true, "CommandExecuting")
                              + (if old(cts.tripped) && hasCallback then [Callback] else [])
    {
      SetCommandExecuting(true);
      if !cts.tripped {
        return false;
      }
      cts := Source(cts.id + 1, false);
      thrown := Signal();
    }

    method NotifyCommandFinished() returns (thrown: bool)
      requires Valid()
      modifies this
      ensures Valid()
      ensures State() == Finished(old(State()))
      ensures thrown == !hasCallback
      ensures log == old(log) + Changed(old(commandExecuting), false, "CommandExecuting")
                              + (if hasCallback then [Callback] else [])
    {
      SetCommandExecuting(false);
      thrown := Signal();
    }

    /** ICommand.Execute: trips the source, then invokes the action. */
    method Execute() returns (thrown: bool)
      requires Valid()
      modifies this
      ensures Valid()
      ensures State() == Tripped(old(State()))
      ensures thrown == !hasCallback
      ensures log == old(log) + (if hasCallback then [Callback] else [])
    {
      cts := cts.(tripped := true);
      thrown := Signal();
    }
  }

  /** Prism.Commands.CancelObservableTaskCommand: the CancelAsyncCommand gate
      with a null-safe callback (`?.Invoke`), so a null action makes every
      signal a no-op. */
  class CancelObservableTaskCommand {
    const hasCallback: bool
    var commandExecuting: bool
    var cts: Source
    var log: seq<Event>

    ghost predicate Valid()
      reads this
    {
      CanExecuteChanged !in log
    }

    constructor (hasCallback: bool)
      ensures Valid() && this.hasCallback == hasCallback
      ensures State() == Initial && log == []
    {
      this.hasCallback := hasCallback;
      commandExecuting := false;
      cts := Source(0, false);
      log := [];
    }

    function State(): GateState
      reads this
    {
      GateState(commandExecuting, cts)
    }

    /** The Token property: the current source's token, which reports a
        cancellation request exactly when that source was tripped. */
    function Token(): (t: Source)
      reads this
      ensures t == State().source
      ensures Requested(State(), t.id) <==> t.tripped
    {
      cts
    }

    /** ICommand.CanExecute */
    function CanExecute(): (b: bool)
      reads this
      ensures b <==> CanCancel(State())
    {
      commandExecuting && !cts.tripped
    }

    method SetCommandExecuting(value: bool)
      modifies this
      ensures State() == old(State()).(executing := value)
      ensures log == old(log) + Changed(old(commandExecuting), value, "CommandExecuting")
    {
      if commandExecuting == value {
        return;
      }
      commandExecuting := value;
      log := log + [PropertyChanged("CommandExecuting")];
    }

    /** raiseCanExecuteChanged?.Invoke() */
    method Signal()
      modifies this
      ensures State() == old(State())
      ensures log == old(log) + (if hasCallback then [Callback] else [])
    {
      if hasCallback {
        log := log + [Callback];
      }
    }

    method NotifyCommandStarting()
      requires Valid()
      modifies this
      ensures Valid()
      ensures State() == Starting(old(State()))
      ensures log == old(log) + Changed(old(commandExecuting), true, "CommandExecuting")
                              + (if old(cts.tripped) && hasCallback then [Callback] else [])
    {
      SetCommandExecuting(true);
      if !cts.tripped {
        return;
      }
      cts := Source(cts.id + 1, false);
      Signal();
    }

    method NotifyCommandFinished()
      requires Valid()
      modifies this
      ensures Valid()
      ensures State() == Finished(old(State()))
      ensures log == old(log) + Changed(old(commandExecuting), false, "CommandExecuting")
                              + (if hasCallback then [Callback] else [])
    {
      SetCommandExecuting(false);
      Signal();
    }

    /** ICommand.Execute */
    method Execute()
      requires Valid()
      modifies this
      ensures Valid()
      ensures State() == Tripped(old(State()))
      ensures log == old(log) + (if hasCallback then [Callback] else [])
    {
      cts := cts.(tripped := true);
      Signal();
    }
  }

  /** Common.Tasks.CancelObservableTask: the minimal gate. It has no
      CommandExecuting property (plain field writes, no PropertyChanged) and
      an injected action that is not null-checked. */
  class CancelObservableTask {
    const hasCallback: bool
    var commandExecuting: bool
    var cts: Source
    var log: seq<Event>

    ghost predicate Valid()
      reads this
    {
      forall e | e in log :: e == Callback
    }

    constructor (hasCallback: bool)
      ensures Valid() && this.hasCallback == hasCallback
      ensures State() == Initial && log == []
    {
      this.hasCallback := hasCallback;
      commandExecuting := false;
      cts := Source(0, false);
      log := [];
    }

    function State(): GateState
      reads this
    {
      GateState(commandExecuting, cts)
    }

    /** The Token property: the current source's token, which reports a
        cancellation request exactly when that source was tripped. */
    function Token(): (t: Source)
      reads this
      ensures t == State().source
      ensures Requested(State(), t.id) <==> t.tripped
    {
      cts
    }

    function CanExecute(): (b: bool)
      reads this
      ensures b <==> CanCancel(State())
    {
      commandExecuting && !cts.tripped
    }

    method Signal() returns (thrown: bool)
      requires Valid()
      modifies this
      ensures Valid()
      ensures State() == old(State())
      ensures thrown == !hasCallback
      ensures log == old(log) + (if hasCallback then [Callback] else [])
    {
      thrown := !hasCallback;
      if hasCallback {
        log := log + [Callback];
      }
    }

    method NotifyCommandStarting() returns (thrown: bool)
      requires Valid()
      modifies this
      ensures Valid()
      ensures State() == Starting(old(State()))
      ensures thrown == (old(cts.tripped) && !hasCallback)
      ensures log == old(log) + (if old(cts.tripped) && hasCallback then [Callback] else [])
    {
      commandExecuting := true;
      if !cts.tripped {
        return false;
      }
      cts := Source(cts.id + 1, false);
      thrown := Signal();
    }

    method NotifyCommandFinished() returns (thrown: bool)
      requires Valid()
      modifies this
      ensures Valid()
      ensures State() == Finished(old(State()))
      ensures thrown == !hasCallback
      ensures log == old(log) + (if hasCallback then [Callback] else [])
    {
      commandExecuting := false;
      thrown := Signal();
    }

    method Execute() returns (thrown: bool)
      requires Valid()
      modifies this
      ensures Valid()
      ensures State() == Tripped(old(State()))
      ensures thrown == !hasCallback
      ensures log == old(log) + (if hasCallback then [Callback] else [])
    {
      cts := cts.(tripped := true);
      thrown := Signal();
    }
  }

  /** The CancelAsyncCommand nested in ObservableTask<TResult>
      (ObservableTaskTResult.cs) and, identically, in AsyncCommandBase: it
      signals through the global CommandManager re-query hint, on start only
      when it replaces the source. Its own CanExecuteChanged is never raised. */
  class RequeryCancelCommand {
    var commandExecuting: bool
    var cts: Source
    var log: seq<Event>

    ghost predicate Valid()
      reads this
    {
      CanExecuteChanged !in log
    }

    constructor ()
      ensures Valid() && State() == Initial && log == []
    {
      commandExecuting := false;
      cts := Source(0, false);
      log := [];
    }

    function State(): GateState
      reads this
    {
      GateState(commandExecuting, cts)
    }

    /** The Token property: the current source's token, which reports a
        cancellation request exactly when that source was tripped. */
    function Token(): (t: Source)
      reads this
      ensures t == State().source
      ensures Requested(State(), t.id) <==> t.tripped
    {
      cts
    }

    function CanExecute(): (b: bool)
      reads this
      ensures b <==> CanCancel(State())
    {
      commandExecuting && !cts.tripped
    }

    method SetCommandExecuting(value: bool)
      modifies this
      ensures State() == old(State()).(executing := value)
      ensures log == old(log) + Changed(old(commandExecuting), value, "CommandExecuting")
    {
      if commandExecuting == value {
        return;
      }
      commandExecuting := value;
      log := log + [PropertyChanged("CommandExecuting")];
    }

    method NotifyCommandStarting()
      requires Valid()
      modifies this
      ensures Valid()
      ensures State() == Starting(old(State()))
      ensures log == old(log) + Changed(old(commandExecuting), true, "CommandExecuting")
                              + (if old(cts.tripped) then [RequerySuggested] else [])
    {
      SetCommandExecuting(true);
      if !cts.tripped {
        return;
      }
      cts := Source(cts.id + 1, false);
      log := log + [RequerySuggested];
    }

    method NotifyCommandFinished()
      requires Valid()
      modifies this
      ensures Valid()
      ensures State() == Finished(old(State()))
      ensures log == old(log) + Changed(old(commandExecuting), false, "CommandExecuting") + [RequerySuggested]
    {
      SetCommandExecuting(false);
      log := log + [RequerySuggested];
    }

    method Execute()
      requires Valid()
      modifies this
      ensures Valid()
      ensures State() == Tripped(old(State()))
      ensures log == old(log) + [RequerySuggested]
    {
      cts := cts.(tripped := true);
      log := log + [RequerySuggested];
    }
  }
}
