/** The write side of the executor wallet (chain.ts, ViemTxSubmitter): the guard in front of the
    queue, a submission, and the latches that make later writes fail closed. */
module TxSubmitter {
  import opened Types
  import ExecutorChain

  const UNKNOWN_BROADCAST := "executor-broadcast-without-hash"
  const MULTIPLE_UNRESOLVED := "executor-multiple-unresolved-transactions"

  /** The process-local latches: a broadcast hash without a receipt, and operations with unknown outcome. */
  datatype Latches = Latches(hash: Option<Hash>, operations: set<string>)

  predicate Paused(l: Latches) { l.hash.Some? || l.operations != {} }

  /** What the chain said to one submission: a hash, whether its callback persisted, a receipt, and the
      hash of the canonical block at the receipt's number. */
  datatype Broadcast = Broadcast(hash: Option<Hash>, persisted: bool, receipt: Option<ExecutorChain.Receipt>,
      canonical: Option<Hash>)

  datatype Call = Write(b: Broadcast) | Adopt(hash: Hash) | ClearHash(hash: Hash) | Pause(id: string) | ClearId(id: string)

  predicate Resolves(b: Broadcast) {
    b.hash.Some? && b.persisted && b.receipt.Some? && b.canonical == Some(b.receipt.value.blockHash)
  }

  function AfterWrite(l: Latches, b: Broadcast): Latches {
    if Paused(l) || Resolves(b) then l
    else if b.hash.None? then l.(operations := l.operations + {UNKNOWN_BROADCAST})
    else l.(hash := b.hash)
  }

  function After(l: Latches, call: Call): Latches {
    match call
    case Write(b) => AfterWrite(l, b)
    case Adopt(h) =>
      var held := if l.hash.None? then Some(h) else l.hash;
      Latches(held, if held == Some(h) then l.operations else l.operations + {MULTIPLE_UNRESOLVED})
    case ClearHash(h) => if l.hash == Some(h) then l.(hash := None) else l
    case Pause(id) => l.(operations := l.operations + {id})
    case ClearId(id) => l.(operations := l.operations - {id})
  }

  function AfterAll(l: Latches, calls: seq<Call>): Latches {
    if calls == [] then l else After(AfterAll(l, calls[..|calls| - 1]), calls[|calls| - 1])
  }

  datatype Reply = Sent(hash: Hash, success: bool,
      blockNumber: nat) | PausedByHash(hash: Hash) | PausedByOperations | BroadcastUnknown | Unresolved

  class ViemTxSubmitter {
    var unresolvedTxHash: Option<Hash>
    var unknownOperationIds: set<string>

    ghost function State(): Latches
      reads this
    {
      Latches(unresolvedTxHash, unknownOperationIds)
    }

    constructor ()
      ensures State() == Latches(None, {})
    {
      unresolvedTxHash := None;
      unknownOperationIds := {};
    }

    /** serializeWrite around submit: nothing is broadcast past a latch, and a broadcast that does not
        resolve to a canonical receipt sets one. */
    method SubmitVerifyAndMatch(b: Broadcast) returns (r: Reply, broadcast: bool)
      modifies this
      ensures State() == After(old(State()), Write(b))
      ensures broadcast <==> !Paused(old(State()))
      ensures r.PausedByHash? || r.PausedByOperations? <==> !broadcast
      ensures r.Sent? <==> broadcast && Resolves(b)
      ensures r.Sent? ==> r == Sent(b.hash.value, b.receipt.value.success, b.receipt.value.blockNumber)
      ensures broadcast && !r.Sent? ==> Paused(State())
    {
      broadcast := false;
      if unresolvedTxHash.Some? { return PausedByHash(unresolvedTxHash.value), broadcast; }
      if unknownOperationIds != {} { return PausedByOperations, broadcast; }
      broadcast := true;
      if b.hash.None? {
        unknownOperationIds := unknownOperationIds + {UNKNOWN_BROADCAST};
        return BroadcastUnknown, broadcast;
      }
      if b.persisted && b.receipt.Some? && b.canonical == Some(b.receipt.value.blockHash) {
        return Sent(b.hash.value, b.receipt.value.success, b.receipt.value.blockNumber), broadcast;
      }
      unresolvedTxHash := b.hash;
      r := Unresolved;
    }

    method AdoptUnresolvedTransaction(hash: Hash)
      modifies this
      ensures State() == After(old(State()), Adopt(hash))
    {
      if unresolvedTxHash.None? { unresolvedTxHash := Some(hash); }
      if unresolvedTxHash != Some(hash) { unknownOperationIds := unknownOperationIds + {MULTIPLE_UNRESOLVED}; }
    }

    method ClearUnresolvedTransaction(hash: Hash)
      modifies this
      ensures State() == After(old(State()), ClearHash(hash))
    {
      if unresolvedTxHash == Some(hash) { unresolvedTxHash := None; }
    }

    method PauseForUnknownOperation(id: string)
      modifies this
      ensures State() == After(old(State()), Pause(id))
    {
      unknownOperationIds := unknownOperationIds + {id};
    }

    method ClearUnknownOperation(id: string)
      modifies this
      ensures State() == After(old(State()), ClearId(id))
    {
      unknownOperationIds := unknownOperationIds - {id};
    }
  }

  // ------------------------------------------------------------------ latches over any sequence of calls

  /** An operation's own latch outlives every call but the one that clears it. */
  lemma {:induction false} PausedUntilCleared(l: Latches, calls: seq<Call>, id: string)
    requires id in l.operations && ClearId(id) !in calls
    ensures id in AfterAll(l, calls).operations && Paused(AfterAll(l, calls))
  {
    if calls != [] {
      PausedUntilCleared(l, calls[..|calls| - 1], id);
    }
  }

  /** A broadcast without a canonical receipt pauses every later write until its owner clears it. */
  lemma {:induction false} FailureHolds(l: Latches, b: Broadcast, calls: seq<Call>)
    requires !Paused(l) && !Resolves(b)
    requires if b.hash.None? then ClearId(UNKNOWN_BROADCAST) !in calls else ClearHash(b.hash.value) !in calls
    ensures Paused(AfterAll(After(l, Write(b)), calls))
  {
    var m := After(l, Write(b));
    if b.hash.None? { PausedUntilCleared(m, calls, UNKNOWN_BROADCAST); } else { HeldUntilCleared(m, calls, b.hash.value); }
  }

  lemma {:induction false} HeldUntilCleared(l: Latches, calls: seq<Call>, h: Hash)
    requires l.hash == Some(h) && ClearHash(h) !in calls
    ensures AfterAll(l, calls).hash == Some(h)
  {
    if calls != [] {
      HeldUntilCleared(l, calls[..|calls| - 1], h);
    }
  }

  /** Two different unresolved hashes pause the wallet for good: clearing either leaves the other's doubt. */
  lemma ConflictHolds(l: Latches, h: Hash, g: Hash, calls: seq<Call>)
    requires l.hash == Some(h) && g != h && ClearId(MULTIPLE_UNRESOLVED) !in calls
    ensures Paused(AfterAll(After(l, Adopt(g)), calls))
  {
    PausedUntilCleared(After(l, Adopt(g)), calls, MULTIPLE_UNRESOLVED);
  }
}
