/** The cancellation gate shared by every cancel command of the repository:
    a "command executing" flag and one cancellation source, which starting
    replaces only when it has already been tripped. This module holds the gate
    as a value and what is proved about it; the classes in GateCommands keep
    their fields in step with these functions. */
module CancellationGate {

  /** A CancellationTokenSource: which one it is (sources a gate creates are
      numbered in order) and whether Cancel has been called on it. A token
      handed to a computation is a snapshot of the source it came from. */
  datatype Source = Source(id: nat, tripped: bool)

  datatype GateState = GateState(executing: bool, source: Source)

  /** A new gate: not executing, holding an untripped first source. */
  const Initial: GateState := GateState(false, Source(0, false))

  /** NotifyCommandStarting: executing, and a fresh source when (and only
      when) the current one has been tripped. */
  function Starting(g: GateState): GateState {
    GateState(true, if g.source.tripped then Source(g.source.id + 1, false) else g.source)
  }

  /** NotifyCommandFinished: not executing; the source is left as it is. */
  function Finished(g: GateState): GateState {
    g.(executing := false)
  }

  /** Cancel / ICommand.Execute: trips the current source. */
  function Tripped(g: GateState): GateState {
    g.(source := g.source.(tripped := true))
  }

  /** ICommand.CanExecute of every gate variant. */
  predicate CanCancel(g: GateState) {
    g.executing && !g.source.tripped
  }

  /** Whether the token of source number `id` reports IsCancellationRequested
      in gate state `g`. A source is replaced only after it was tripped, so
      every source older than the current one is tripped. */
  predicate Requested(g: GateState, id: nat) {
    id < g.source.id || (id == g.source.id && g.source.tripped)
  }

  datatype GateOp = Start | Finish | Cancel

  function Apply(g: GateState, op: GateOp): GateState {
    match op
    case Start => Starting(g)
    case Finish => Finished(g)
    case Cancel => Tripped(g)
  }

  /** The gate after the calls `ops`, in order. */
  function Run(g: GateState, ops: seq<GateOp>): GateState
    decreases |ops|
  {
    if ops == [] then g else Run(Apply(g, ops[0]), ops[1..])
  }

  /** Whether, during `ops` started from `g`, Cancel was called while source
      number `id` was the live one. */
  predicate CancelledWhileLive(g: GateState, ops: seq<GateOp>, id: nat)
    decreases |ops|
  {
    ops != [] &&
    ((ops[0] == Cancel && g.source.id == id) || CancelledWhileLive(Apply(g, ops[0]), ops[1..], id))
  }

  /** A new gate cannot be cancelled and its token is not cancelled. */
  lemma InitialGate()
    ensures !Initial.executing && !CanCancel(Initial)
    ensures !Requested(Initial, Initial.source.id)
  {
  }

  /** Starting marks the gate executing and leaves it cancellable with an
      uncancelled token. An untripped source is kept, so the token stays the
      same; a tripped one is replaced by a new source whose token is not
      cancelled, while the old token still reports cancellation. */
  lemma StartingIssuesLiveToken(g: GateState)
    ensures Starting(g).executing && CanCancel(Starting(g))
    ensures !Requested(Starting(g), Starting(g).source.id)
    ensures !g.source.tripped ==> Starting(g).source == g.source
    ensures g.source.tripped ==> Starting(g).source.id != g.source.id && Requested(Starting(g), g.source.id)
  {
  }

  /** Finishing clears the executing flag and keeps the source, so every
      token reports exactly what it reported before. */
  lemma FinishedKeepsSource(g: GateState, id: nat)
    ensures !Finished(g).executing && !CanCancel(Finished(g))
    ensures Finished(g).source == g.source
    ensures Requested(Finished(g), id) <==> Requested(g, id)
  {
  }

  /** Cancelling trips the live token, leaves the executing flag alone and
      disables cancelling; cancelling twice is cancelling once. */
  lemma CancelTripsLiveToken(g: GateState)
    ensures Tripped(g).executing == g.executing
    ensures !CanCancel(Tripped(g))
    ensures Requested(Tripped(g), g.source.id)
    ensures Tripped(Tripped(g)) == Tripped(g)
  {
  }

  /** Source numbers never go down, and an older token's cancellation is
      never undone. */
  lemma {:induction false} SourcesNeverGoBack(g: GateState, ops: seq<GateOp>, id: nat)
    ensures Run(g, ops).source.id >= g.source.id
    ensures Requested(g, id) ==> Requested(Run(g, ops), id)
    decreases |ops|
  {
    if ops != [] {
      SourcesNeverGoBack(Apply(g, ops[0]), ops[1..], id);
    }
  }

  /** The gate's guarantee: after any sequence of calls, the token of the
      source live in `g` reports cancellation if and only if it was already
      tripped in `g` or Cancel was called while it was still the live source.
      In particular a token handed out untripped is cancelled exactly when
      someone cancelled while it was live. */
  lemma {:induction false} TokenObservesCancellation(g: GateState, ops: seq<GateOp>)
    ensures Requested(Run(g, ops), g.source.id) <==> g.source.tripped || CancelledWhileLive(g, ops, g.source.id)
    decreases |ops|
  {
    if ops != [] {
      var g' := Apply(g, ops[0]);
      var id := g.source.id;
      if ops[0] == Start && g.source.tripped {
        SourcesNeverGoBack(g', ops[1..], id);
      } else {
        assert g'.source.id == id;
        TokenObservesCancellation(g', ops[1..]);
      }
    }
  }
}
