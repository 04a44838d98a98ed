/** Where the engine meets the executor wallet (auction.ts): an acceptance under its locks, and the
    reconciliation of an execution whose outcome is unknown. */
module AuctionAccept {
  import opened Types
  import opened RfqIndex
  import opened AuctionCore
  import opened Auction
  import opened TxSubmitter
  import Decimal
  import RfqStore
  import Quotes

  function OperationId(r: RfqId): string { "rfq:" + Decimal.Print(r) }

  /** Each RFQ has a latch of its own. */
  lemma OwnLatch(a: RfqId, b: RfqId)
    ensures OperationId(a) == OperationId(b) ==> a == b
    ensures OperationId(a) != UNKNOWN_BROADCAST && OperationId(a) != MULTIPLE_UNRESOLVED
  {
    Decimal.ReadPrint(a);
    Decimal.ReadPrint(b);
    assert OperationId(a)[4..] == Decimal.Print(a) && OperationId(b)[4..] == Decimal.Print(b);
    assert OperationId(a)[0] == 'r';
  }

  /** The RFQ in an index names a stored winner of its own. */
  predicate Won(ix: Index, r: RfqId) { Named(ix, r) && ix.rfqs[r].bestQuoteId.value in ix.quotes }

  /** The record names a winner, which is a quote of this RFQ's if it is stored at all. */
  predicate Named(ix: Index, r: RfqId) {
    && r in ix.rfqs && ix.rfqs[r].id == r && (ix.rfqs[r].status == Closed || ix.rfqs[r].status == Executing)
    && ix.rfqs[r].bestQuoteId.Some?
    && (ix.rfqs[r].bestQuoteId.value in ix.quotes ==> ix.quotes[ix.rfqs[r].bestQuoteId.value].rfqId == r)
  }

  function UnresolvedRecord(rfq: Rfq, hash: Option<Hash>, error: string): Rfq
    requires rfq.executionIntent.Some?
  {
    rfq.(executionIntent := Some(rfq.executionIntent.value.(txHash := hash)), error := Some(error))
  }

  lemma PutTwice(ix: Index, a: Rfq, b: Rfq)
    requires a.id == b.id
    ensures PutRfq(PutRfq(ix, a), b) == PutRfq(ix, b)
  {
  }

  /** While the record stays closed or executing, the winner's reservation is what the store calls for; once
      it is terminal, none of the RFQ's is. */
  lemma WonReservations(ix: Index, r: RfqId, rec: Rfq)
    requires Named(ix, r) && rec.id == r && rec.bestQuoteId == ix.rfqs[r].bestQuoteId
    ensures rec.status == Closed || rec.status == Executing ==> ReservationsOf(PutRfq(ix, rec)) == ReservationsOf(ix)
    ensures Terminal(rec.status) ==> ReservationsOf(PutRfq(ix, rec)) == ReservationsOf(ix) - {rec.bestQuoteId.value}
  {
    var after := PutRfq(ix, rec);
    assert after.quotes == ix.quotes;
    forall q | q in ix.quotes
      ensures ix.quotes[q].rfqId != r ==> Live(after, q) == Live(ix, q)
      ensures ix.quotes[q].rfqId == r ==> (Live(ix, q) <==> rec.bestQuoteId == Some(q))
      ensures ix.quotes[q].rfqId == r ==> (Live(after, q) <==> (rec.status == Open || (!Terminal(rec.status) && rec.bestQuoteId == Some(q))))
    {
    }
  }

  predicate Passed(rfq: Rfq, now: int) { rfq.acceptDeadlineAt.Some? && now >= rfq.acceptDeadlineAt.value }

  datatype Reply = Rejected | DeadlinePassed | Unavailable(expired: bool) | Unresolved(hash: Option<Hash>) | Done(success: bool)

  /** What clearExecutionRecovery leaves of the latches. */
  function Cleared(l: Latches, r: RfqId, hash: Option<Hash>, wasHashless: bool): Latches {
    var own := After(l, ClearId(OperationId(r)));
    var known := if hash.Some? then After(own, ClearHash(hash.value)) else own;
    if wasHashless then After(known, ClearId(UNKNOWN_BROADCAST)) else known
  }

  function Armed(l: Latches, r: RfqId, hash: Option<Hash>): Latches {
    var own := After(l, Pause(OperationId(r)));
    if hash.Some? then After(own, Adopt(hash.value)) else own
  }

  method ClearExecutionRecovery(submitter: ViemTxSubmitter, r: RfqId, hash: Option<Hash>, wasHashless: bool)
    modifies submitter
    ensures submitter.State() == Cleared(old(submitter.State()), r, hash, wasHashless)
  {
    submitter.ClearUnknownOperation(OperationId(r));
    if hash.Some? { submitter.ClearUnresolvedTransaction(hash.value); }
    if wasHashless { submitter.ClearUnknownOperation(UNKNOWN_BROADCAST); }
  }

  method ArmExecutionRecovery(submitter: ViemTxSubmitter, r: RfqId, hash: Option<Hash>)
    modifies submitter
    ensures submitter.State() == Armed(old(submitter.State()), r, hash)
  {
    submitter.PauseForUnknownOperation(OperationId(r));
    if hash.Some? { submitter.AdoptUnresolvedTransaction(hash.value); }
  }

  predicate Acceptable(ix: Index, r: RfqId, taker: Action, signature: Hash, o: Quotes.Oracles, rfqModule: Address,
      owner: Address, now: int) {
    && r in ix.rfqs && ix.rfqs[r].bestQuoteId.Some? && ix.rfqs[r].bestQuoteId.value in ix.quotes
    && Quotes.ValidateTakerAccept(o, rfqModule, ix.rfqs[r], ix.quotes[ix.rfqs[r].bestQuoteId.value], taker, signature, owner, now).Accepted?
  }

  /** Which answers an acceptance gets: the deadline is read before and after the validation, and again after a refusal. */
  predicate Decided(reply: Reply, ix: Index, r: RfqId, acceptable: bool, now: int, later: int, last: int) {
    var closed := r in ix.rfqs && ix.rfqs[r].status == Closed;
    && (reply.Rejected? <==> !closed || (!Passed(ix.rfqs[r], now) && !acceptable))
    && (reply.DeadlinePassed? <==> closed && (Passed(ix.rfqs[r], now) || (acceptable && Passed(ix.rfqs[r], later))))
    && (reply.Unavailable? && closed ==> (reply.expired <==> Passed(ix.rfqs[r], last)))
  }

  /** acceptRfqLocked, from the re-read of the record to the release. The clock reads, the oracles of the
      validation, the block number and the chain's answer to the broadcast are inputs; atWrite is the store when
      the executor is called. The callback's append succeeds: one that throws is a crash. Whatever happens the
      reservation map stays the one that the store calls for. */
  method AcceptRfqLocked(engine: AuctionEngine, submitter: ViemTxSubmitter, r: RfqId, taker: Action, signature: Hash,
                         o: Quotes.Oracles, rfqModule: Address, owner: Address, hash: Quotes.CallData -> Hash, block: int,
                         now: int, checked: int, later: int, last: int, b: Broadcast)
    returns (reply: Reply, ghost atWrite: Option<Index>)
    requires WellFormed(engine.store.State()) && b.persisted
    requires r in engine.store.rfqs && engine.store.rfqs[r].status == Closed ==> Won(engine.store.State(), r)
    modifies engine`reservations, engine.store, submitter
    ensures old(engine.store.Durable()) ==> engine.store.Durable()
    ensures !reply.Rejected? ==> Won(old(engine.store.State()), r) && old(engine.store.State()).rfqs[r].status == Closed
    ensures Decided(reply, old(engine.store.State()), r,
                    Acceptable(old(engine.store.State()), r, taker, signature, o, rfqModule, owner, checked), now, later, last)
    ensures reply.Rejected? ==> engine.store.State() == old(engine.store.State()) && submitter.State() == old(submitter.State())
                                && engine.reservations == old(engine.reservations)
    ensures !reply.Rejected? ==>
              Settled(reply, old(engine.store.State()), engine.store.State(), old(submitter.State()), submitter.State(), atWrite, r,
                      IntentFor(old(engine.store.State()), r, taker, signature, hash, block), b)
    ensures !reply.Rejected? ==>
              var winner := old(engine.store.State()).rfqs[r].bestQuoteId.value;
              engine.reservations == if Terminal(engine.store.State().rfqs[r].status)
                                     then old(engine.reservations) - {winner} else old(engine.reservations)
    ensures old(engine.reservations) == ReservationsOf(old(engine.store.State())) ==> engine.reservations == ReservationsOf(engine.store.State())
  {
    hide RfqStore.Load, RfqStore.Whole, RfqStore.Line, WellFormed, ReservationsOf, Live, Quotes.ValidateTakerAccept;
    ghost var ix, res := engine.store.State(), engine.reservations;
    atWrite := None;
    if r !in engine.store.rfqs || engine.store.rfqs[r].status != Closed { return Rejected, None; }
    var rfq := engine.store.rfqs[r];
    var quote := engine.store.quotes[rfq.bestQuoteId.value];
    if Passed(rfq, now) {
      var _ := engine.ExpireAcceptLocked(r);
      WonReservations(ix, r, ExpiredRecord(rfq));
      return DeadlinePassed, None;
    }
    if Quotes.ValidateTakerAccept(o, rfqModule, rfq, quote, taker, signature, owner, checked).Refused? { return Rejected, None; }
    var intent := Quotes.CreateExecutionIntent(Quotes.BuildRfqExecution(rfq, quote, taker, signature), hash, block);
    if Passed(rfq, later) {
      var _ := engine.ExpireAcceptLocked(r);
      WonReservations(ix, r, ExpiredRecord(rfq));
      return DeadlinePassed, None;
    }
    SameId(ix, rfq.bestQuoteId.value);
    IntentOf(rfq, quote, taker, signature, hash, block);
    hide Quotes.CreateExecutionIntent, Quotes.BuildRfqExecution, Settled;
    reply, atWrite := Execute(engine, submitter, r, intent, last, b);
  }

  function IntentFor(ix: Index, r: RfqId, taker: Action, signature: Hash, hash: Quotes.CallData -> Hash,
      block: int): Intent
    requires Won(ix, r)
  {
    Quotes.CreateExecutionIntent(Quotes.BuildRfqExecution(ix.rfqs[r], ix.quotes[ix.rfqs[r].bestQuoteId.value], taker, signature), hash, block)
  }

  lemma IntentOf(rfq: Rfq, quote: Quote, taker: Action, signature: Hash, hash: Quotes.CallData -> Hash, block: int)
    ensures Quotes.CreateExecutionIntent(Quotes.BuildRfqExecution(rfq, quote, taker, signature), hash, block).fill.quoteId == quote.id
    ensures Quotes.CreateExecutionIntent(Quotes.BuildRfqExecution(rfq, quote, taker, signature), hash, block).txHash.None?
  {
  }

  lemma NothingToClear(l: Latches, r: RfqId, hash: Option<Hash>)
    ensures !Paused(l) ==> Cleared(l, r, hash, false) == l
    ensures OperationId(r) in Armed(l, r, hash).operations && Paused(Armed(l, r, hash))
    ensures l.hash.Some? ==> Armed(l, r, hash).hash == l.hash
  {
  }

  /** The rest of the acceptance: the durable intent, the broadcast, and what became of it. */
  method Execute(engine: AuctionEngine, submitter: ViemTxSubmitter, r: RfqId, intent: Intent, last: int, b: Broadcast)
    returns (reply: Reply, ghost atWrite: Option<Index>)
    requires WellFormed(engine.store.State()) && Won(engine.store.State(), r) && engine.store.rfqs[r].status == Closed
    requires b.persisted && intent.txHash.None? && intent.fill.quoteId == engine.store.rfqs[r].bestQuoteId.value
    modifies engine`reservations, engine.store, submitter
    ensures old(engine.store.Durable()) ==> engine.store.Durable()
    ensures !reply.Rejected? && !reply.DeadlinePassed?
    ensures reply.Unavailable? ==> (reply.expired <==> Passed(old(engine.store.State()).rfqs[r], last))
    ensures Settled(reply, old(engine.store.State()), engine.store.State(), old(submitter.State()), submitter.State(), atWrite, r, intent, b)
    ensures r in engine.store.rfqs
    ensures engine.reservations == if Terminal(engine.store.rfqs[r].status)
                                   then old(engine.reservations) - {intent.fill.quoteId} else old(engine.reservations)
    ensures old(engine.reservations) == ReservationsOf(old(engine.store.State())) ==> engine.reservations == ReservationsOf(engine.store.State())
  {
    hide RfqStore.Load, RfqStore.Whole, RfqStore.Line, WellFormed, ReservationsOf, Live;
    ghost var ix := engine.store.State();
    var executing := ExecutingRecord(engine.store.rfqs[r], intent);
    PutRfqWellFormed(ix, executing);
    engine.store.PutRfq(executing);
    atWrite := Some(engine.store.State());
    var answer, broadcast := submitter.SubmitVerifyAndMatch(b);
    if answer.PausedByHash? || answer.PausedByOperations? {
      reply := Reopen(engine, r, ix, executing, last);
    } else {
      ghost var paused := submitter.State();
      NothingToClear(paused, r, b.hash);
      reply := Conclude(engine, submitter, r, ix, executing, answer, b);
    }
  }

  /** After a broadcast: terminal with a canonical receipt, latched without one. */
  method Conclude(engine: AuctionEngine, submitter: ViemTxSubmitter, r: RfqId, ghost ix: Index, first: Rfq,
      answer: TxSubmitter.Reply, b: Broadcast)
    returns (reply: Reply)
    requires Won(ix, r) && first.id == r && first.bestQuoteId == ix.rfqs[r].bestQuoteId && first.status == Executing
    requires first.executionIntent.Some? && first.executionIntent.value.txHash.None?
    requires first.executionIntent.value.fill.quoteId == first.bestQuoteId.value
    requires engine.store.State() == PutRfq(ix, first)
    requires answer.Sent? ==> b.hash == Some(answer.hash)
    modifies engine`reservations, engine.store, submitter
    ensures old(engine.store.Durable()) ==> engine.store.Durable()
    ensures if answer.Sent? then
              && reply == Done(answer.success)
              && engine.store.State() == PutRfq(ix, MinedRecord(HashedRecord(first, answer.hash), answer.hash, answer.success, Some(answer.blockNumber)))
              && submitter.State() == Cleared(old(submitter.State()), r, Some(answer.hash), false)
              && engine.reservations == old(engine.reservations) - {first.bestQuoteId.value}
            else
              && reply == Reply.Unresolved(b.hash)
              && engine.store.State() == PutRfq(ix, UnresolvedRecord(first, b.hash, "execution outcome unresolved"))
              && submitter.State() == Armed(old(submitter.State()), r, b.hash)
              && engine.reservations == old(engine.reservations)
    ensures old(engine.reservations) == ReservationsOf(ix) ==> engine.reservations == ReservationsOf(engine.store.State())
  {
    hide RfqStore.Load, RfqStore.Whole, RfqStore.Line, ReservationsOf, Live, Cleared, Armed;
    var executing := first;
    if b.hash.Some? {
      executing := HashedRecord(first, b.hash.value);
      PutTwice(ix, first, executing);
      engine.store.PutRfq(executing);
    }
    if answer.Sent? {
      var mined := MinedRecord(executing, answer.hash, answer.success, Some(answer.blockNumber));
      PutTwice(ix, executing, mined);
      WonReservations(ix, r, mined);
      engine.TerminalizeMined(executing, answer.hash, answer.success, Some(answer.blockNumber));
      ClearExecutionRecovery(submitter, r, Some(answer.hash), false);
      return Done(answer.success);
    }
    ArmExecutionRecovery(submitter, r, b.hash);
    var unresolved := executing.(error := Some("execution outcome unresolved"));
    PutTwice(ix, executing, unresolved);
    WonReservations(ix, r, unresolved);
    engine.store.PutRfq(unresolved);
    reply := Reply.Unresolved(b.hash);
  }

  lemma SameId(ix: Index, q: QuoteId)
    requires WellFormed(ix) && q in ix.quotes
    ensures ix.quotes[q].id == q
  {
  }

  /** What each answer of acceptRfqLocked stands for: the record it leaves, and the latches. */
  ghost predicate Settled(reply: Reply, ix: Index, ix': Index, l: Latches, l': Latches, atWrite: Option<Index>,
      r: RfqId, intent: Intent, b: Broadcast)
    requires Won(ix, r)
  {
    var executing := ExecutingRecord(ix.rfqs[r], intent);
    // the executor is called only with the intent in the log
    && (atWrite.Some? <==> !reply.Rejected? && !reply.DeadlinePassed?)
    && (atWrite.Some? ==> atWrite.value == PutRfq(ix, executing))
    && match reply
       case Rejected => false
       case DeadlinePassed => ix' == PutRfq(ix, ExpiredRecord(ix.rfqs[r])) && l' == l
       // the queue's guard refused: nothing was broadcast
       case Unavailable(expired) =>
         && Paused(l) && l' == l
         && ix' == PutRfq(ix, if expired then ExpiredRecord(ReopenedRecord(executing)) else ReopenedRecord(executing))
       // a broadcast without a canonical receipt: executing, its own latch set, every later write refused
       case Unresolved(hash) =>
         && !Paused(l) && !Resolves(b) && hash == b.hash
         && ix' == PutRfq(ix, UnresolvedRecord(executing, hash, "execution outcome unresolved"))
         && OperationId(r) in l'.operations && Paused(l') && (hash.Some? ==> l'.hash == hash)
       case Done(success) =>
         && !Paused(l) && Resolves(b) && success == b.receipt.value.success && l' == l
         && ix' == PutRfq(ix, MinedRecord(HashedRecord(executing, b.hash.value), b.hash.value, success, Some(b.receipt.value.blockNumber)))
  }

  /** The refused acceptance goes back to closed, and expires at once if its deadline passed meanwhile. */
  method Reopen(engine: AuctionEngine, r: RfqId, ghost ix: Index, executing: Rfq, now: int) returns (reply: Reply)
    requires Won(ix, r) && ix.rfqs[r].status == Closed && executing.id == r && executing.bestQuoteId == ix.rfqs[r].bestQuoteId
    requires engine.store.State() == PutRfq(ix, executing) && WellFormed(engine.store.State())
    modifies engine`reservations, engine.store
    ensures old(engine.store.Durable()) ==> engine.store.Durable()
    ensures reply.Unavailable? && (reply.expired <==> Passed(executing, now))
    ensures var closed := ReopenedRecord(executing);
            engine.store.State() == PutRfq(ix, if reply.expired then ExpiredRecord(closed) else closed)
    ensures engine.reservations == if reply.expired then old(engine.reservations) - {ix.rfqs[r].bestQuoteId.value} else old(engine.reservations)
    ensures old(engine.reservations) == ReservationsOf(ix) ==> engine.reservations == ReservationsOf(engine.store.State())
  {
    hide RfqStore.Load, RfqStore.Whole, RfqStore.Line, WellFormed, ReservationsOf, Live;
    var closed := ReopenedRecord(executing);
    PutRfqWellFormed(engine.store.State(), closed);
    PutTwice(ix, executing, closed);
    engine.store.PutRfq(closed);
    if Passed(closed, now) {
      PutTwice(ix, closed, ExpiredRecord(closed));
      WonReservations(ix, r, ExpiredRecord(closed));
      var _ := engine.ExpireAcceptLocked(r);
      return Unavailable(true);
    }
    WonReservations(ix, r, closed);
    reply := Unavailable(false);
  }

  // ------------------------------------------------------------------ reconciliation

  /** What reconcileExecution came back with. */
  datatype Verdict = Mined(hash: Hash, success: bool, block: int) | ExpiredUnused | Pending | Failed(message: string)

  /** The verdict that ends the RFQ: a receipt under another hash than the persisted one ends nothing. */
  predicate Final(intent: Intent, v: Verdict) {
    v.ExpiredUnused? || (v.Mined? && (intent.txHash.None? || intent.txHash.value == v.hash))
  }

  /** reconcileExecutingOnce. The latch is set before the chain is asked, and released only with the terminal
      record in the log; short of that the RFQ stays executing, reserved and latched. */
  method ReconcileExecutingOnce(engine: AuctionEngine, submitter: ViemTxSubmitter, r: RfqId, v: Verdict)
    returns (ghost atClear: Option<Index>)
    requires Named(engine.store.State(), r) && engine.store.rfqs[r].status == Executing && engine.store.rfqs[r].executionIntent.Some?
    requires engine.store.rfqs[r].executionIntent.value.fill.quoteId == engine.store.rfqs[r].bestQuoteId.value
    modifies engine`reservations, engine.store, submitter
    ensures old(engine.store.Durable()) ==> engine.store.Durable()
    ensures var ix := old(engine.store.State());
            var intent := ix.rfqs[r].executionIntent.value;
            var armed := Armed(old(submitter.State()), r, intent.txHash);
            if Final(intent, v) then
              && atClear == Some(engine.store.State())
              && engine.store.State() == PutRfq(ix, if v.Mined? then MinedRecord(ix.rfqs[r], v.hash, v.success, Some(v.block)) else UnusedRecord(ix.rfqs[r]))
              && submitter.State() == Cleared(armed, r, if v.Mined? then Some(v.hash) else intent.txHash, intent.txHash.None?)
              && engine.reservations == old(engine.reservations) - {intent.fill.quoteId}
            else
              && atClear == None
              && r in engine.store.rfqs && engine.store.State() == PutRfq(ix, ix.rfqs[r].(error := engine.store.rfqs[r].error))
              && submitter.State() == armed && OperationId(r) in submitter.State().operations
              && engine.reservations == old(engine.reservations)
    ensures old(engine.reservations) == ReservationsOf(old(engine.store.State())) ==> engine.reservations == ReservationsOf(engine.store.State())
  {
    hide RfqStore.Load, RfqStore.Whole, RfqStore.Line, ReservationsOf, Live;
    ghost var ix := engine.store.State();
    atClear := None;
    var rfq := engine.store.rfqs[r];
    var intent := rfq.executionIntent.value;
    ArmExecutionRecovery(submitter, r, intent.txHash);
    var message := "";
    match v {
      case Mined(hash, success, block) =>
        if intent.txHash.None? || intent.txHash.value == hash {
          WonReservations(ix, r, MinedRecord(rfq, hash, success, Some(block)));
          engine.TerminalizeMined(rfq, hash, success, Some(block));
          atClear := Some(engine.store.State());
          ClearExecutionRecovery(submitter, r, Some(hash), intent.txHash.None?);
          return;
        }
        message := "reconciled hash does not match persisted";
      case ExpiredUnused =>
        WonReservations(ix, r, UnusedRecord(rfq));
        engine.TerminalizeExpiredUnused(rfq);
        atClear := Some(engine.store.State());
        ClearExecutionRecovery(submitter, r, intent.txHash, intent.txHash.None?);
        return;
      case Pending =>
        assert PutRfq(ix, rfq) == ix by { assert ix.rfqs[r := rfq] == ix.rfqs; }
        return;
      case Failed(m) => message := m;
    }
    if rfq.error == Some(message) {
      assert PutRfq(ix, rfq) == ix by { assert ix.rfqs[r := rfq] == ix.rfqs; }
      return;
    }
    WonReservations(ix, r, rfq.(error := Some(message)));
    engine.store.PutRfq(rfq.(error := Some(message)));
  }

  /** Clearing one RFQ's recovery leaves the latches of all others. */
  lemma ClearKeepsOthers(l: Latches, r: RfqId, hash: Option<Hash>, hashless: bool, other: RfqId)
    requires other != r && OperationId(other) in l.operations
    ensures OperationId(other) in Cleared(l, r, hash, hashless).operations && Paused(Cleared(l, r, hash, hashless))
    ensures OperationId(r) !in Cleared(l, r, hash, hashless).operations
  {
    OwnLatch(other, r);
  }
}
