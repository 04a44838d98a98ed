/** recover() (auction.ts): after a restart the reservation map is rebuilt from the replayed store alone. */
module AuctionRecovery {
  import opened Types
  import opened RfqIndex
  import opened BestQuote
  import opened AuctionCore
  import opened JsonlStore
  import opened Auction
  import opened AuctionAccept
  import opened TxSubmitter
  import RfqStore
  import Protocol
  import ProtocolRecovery
  import ProtocolInvariant
  import ProtocolSafety
  import ProtocolTheorems

  /** What the protocol keeps true of stored records: decided RFQs name a winner, which is a quote of theirs, and intents
      name it too. Whether that quote is still stored is left open: its line may have been lost. */
  ghost predicate Recoverable(ix: Index) {
    WellFormed(ix) && forall r :: r in ix.rfqs ==> WinnerOwn(ix, r)
  }

  ghost predicate WinnerOwn(ix: Index, r: RfqId)
    requires r in ix.rfqs
  {
    var rfq := ix.rfqs[r];
    && (rfq.status == Closed || rfq.status == Executing ==>
          rfq.bestQuoteId.Some? && (rfq.bestQuoteId.value in ix.quotes ==> ix.quotes[rfq.bestQuoteId.value].rfqId == r))
    && (rfq.status == Executing ==> rfq.executionIntent.Some? && rfq.executionIntent.value.fill.quoteId == rfq.bestQuoteId.value)
  }

  lemma ControlIsRecoverable(s: Protocol.State)
    requires ProtocolInvariant.Control(s)
    ensures Recoverable(s.ix)
  {
    assert WellFormed(s.ix) by {
      hide ProtocolInvariant.RfqHere, ProtocolInvariant.WithdrawalHere, ProtocolInvariant.History,
        ProtocolInvariant.QueueOk, ProtocolInvariant.Orphans, ProtocolInvariant.Exclusive, WellFormed;
    }
    hide ProtocolInvariant.Control, WellFormed;
    forall r | r in s.ix.rfqs ensures WinnerOwn(s.ix, r) { ProtocolTheorems.RecordOk(s, r); }
  }

  /** Whatever the engine has stored, at any time, recovers. */
  lemma RunsAreRecoverable(run: seq<Protocol.State>, i: nat)
    requires Protocol.Run(run) && i < |run|
    ensures Recoverable(run[i].ix)
  {
    ProtocolSafety.RunInv(run, i);
    hide Protocol.Run, ProtocolInvariant.Control, ProtocolInvariant.Solvent, Recoverable;
    ControlIsRecoverable(run[i]);
  }

  /** The map holds exactly the live quotes of the RFQs that are done. */
  ghost predicate Rebuilt(res: Reservations, ix: Index, done: set<RfqId>) {
    && (forall q :: q in res <==> q in ix.quotes && ix.quotes[q].rfqId in done && Live(ix, q))
    && (forall q :: q in res ==> res[q] == Reserve(ix.quotes[q]))
  }

  /** The step for r: its record may change, its live quotes and no others enter the map. */
  ghost predicate Restored(res: Reservations, ix: Index, res': Reservations, ix': Index, r: RfqId) {
    && r in ix.rfqs && r in ix'.rfqs && ix'.rfqs[r].id == r && ix' == PutRfq(ix, ix'.rfqs[r]) && WinnerOwn(ix', r)
    && (forall q :: q in res' <==> (if q in ix.quotes && ix.quotes[q].rfqId == r then Live(ix', q) else q in res))
    && (forall q :: q in res' ==> if q in ix.quotes && ix.quotes[q].rfqId == r then res'[q] == Reserve(ix.quotes[q])
                                  else q in res && res'[q] == res[q])
  }

  lemma OtherLive(ix: Index, ix': Index, r: RfqId)
    requires r in ix'.rfqs && ix'.rfqs[r].id == r && ix' == PutRfq(ix, ix'.rfqs[r])
    ensures forall q :: q in ix.quotes && ix.quotes[q].rfqId != r ==> Live(ix', q) == Live(ix, q)
    ensures ix'.quotes == ix.quotes && forall x :: x in ix.rfqs && x != r ==> x in ix'.rfqs && ix'.rfqs[x] == ix.rfqs[x]
  {
  }

  lemma RebuiltNext(res: Reservations, ix: Index, res': Reservations, ix': Index, r: RfqId, done: set<RfqId>)
    requires Rebuilt(res, ix, done) && r !in done && Restored(res, ix, res', ix', r)
    ensures Rebuilt(res', ix', done + {r})
  {
    OtherLive(ix, ix', r);
    hide Live, WinnerOwn;
  }

  lemma RecoverableNext(ix: Index, ix': Index, r: RfqId)
    requires Recoverable(ix) && r in ix.rfqs && r in ix'.rfqs && ix'.rfqs[r].id == r && ix' == PutRfq(ix, ix'.rfqs[r]) && WinnerOwn(ix', r)
    ensures Recoverable(ix') && ix'.rfqs.Keys == ix.rfqs.Keys
  {
    PutRfqWellFormed(ix, ix'.rfqs[r]);
    OtherLive(ix, ix', r);
    hide WellFormed;
    forall x | x in ix'.rfqs ensures WinnerOwn(ix', x) { assert WinnerOwn(ix, x); }
  }

  lemma RestoredRebuilds(res: Reservations, ix: Index, res': Reservations, ix': Index, r: RfqId, done: set<RfqId>)
    requires Rebuilt(res, ix, done) && r !in done && Restored(res, ix, res', ix', r) && Recoverable(ix)
    ensures Rebuilt(res', ix', done + {r}) && Recoverable(ix') && ix'.rfqs.Keys == ix.rfqs.Keys
  {
    RebuiltNext(res, ix, res', ix', r, done);
    hide Recoverable, Rebuilt, WinnerOwn, Live;
    RecoverableNext(ix, ix', r);
  }

  lemma AllRebuilt(res: Reservations, ix: Index)
    requires Rebuilt(res, ix, ix.rfqs.Keys) && Recoverable(ix)
    ensures res == ReservationsOf(ix)
  {
    hide WellFormed, WinnerOwn;
  }

  // ------------------------------------------------------------------ the branches

  lemma OpenRestored(res: Reservations, ix: Index, r: RfqId, done: set<RfqId>)
    requires Rebuilt(res, ix, done) && r !in done && Recoverable(ix) && r in ix.rfqs && ix.rfqs[r].status == Open
    ensures Restored(res, ix, Protocol.ReserveAll(res, ListQuotes(ix, r)), ix, r)
  {
    ProtocolRecovery.ReserveAllMeans(res, ix, r);
    SelfPut(ix, r);
    hide Protocol.ReserveAll, ListQuotes, WellFormed;
  }

  lemma SelfPut(ix: Index, r: RfqId)
    requires r in ix.rfqs && WellFormed(ix)
    ensures PutRfq(ix, ix.rfqs[r]) == ix && ix.rfqs[r].id == r
  {
    assert ix.rfqs[r := ix.rfqs[r]] == ix.rfqs;
  }

  lemma OwnIds(ix: Index, r: RfqId)
    requires WellFormed(ix)
    ensures forall q :: q in IdsOf(ListQuotes(ix, r)) <==> q in ix.quotes && ix.quotes[q].rfqId == r
    ensures var best := SelectBest(ListQuotes(ix, r));
            best.Some? ==> best.value.id in ix.quotes && ix.quotes[best.value.id] == best.value && best.value.rfqId == r
    ensures SelectBest(ListQuotes(ix, r)).None? ==> ListQuotes(ix, r) == []
  {
    var quotes := ListQuotes(ix, r);
    ListedQuotes(ix, r);
    SelectBestIsBest(quotes);
    hide ListQuotes, SelectBest;
    forall q | q in ix.quotes && ix.quotes[q].rfqId == r ensures q in IdsOf(quotes) { assert ix.quotes[q] in quotes; }
  }

  lemma ClosedRestored(res: Reservations, ix: Index, r: RfqId, done: set<RfqId>, deadline: int, quotes: seq<Quote>,
      best: Option<Quote>)
    requires Rebuilt(res, ix, done) && r !in done && r in ix.rfqs && ix.rfqs[r].id == r
    requires forall q :: q in IdsOf(quotes) <==> q in ix.quotes && ix.quotes[q].rfqId == r
    requires best.Some? ==> best.value.id in ix.quotes && ix.quotes[best.value.id] == best.value && best.value.rfqId == r
    ensures Restored(res, ix, ClosedReservations(res, quotes, best), PutRfq(ix, ClosedRecord(ix.rfqs[r], best, deadline)), r)
  {
    hide IdsOf;
  }

  lemma CloseRestored(res: Reservations, ix: Index, r: RfqId, done: set<RfqId>, deadline: int)
    requires Rebuilt(res, ix, done) && r !in done && Recoverable(ix) && r in ix.rfqs && ix.rfqs[r].status == Open
    ensures var quotes := ListQuotes(ix, r);
            Restored(res, ix, ClosedReservations(res, quotes, SelectBest(quotes)), PutRfq(ix, ClosedRecord(ix.rfqs[r], SelectBest(quotes), deadline)), r)
  {
    RecoverableFacts(ix);
    hide Recoverable, Restored, Rebuilt, ListQuotes, SelectBest, WellFormed, IdsOf;
    OwnIds(ix, r);
    SelfPut(ix, r);
    ClosedRestored(res, ix, r, done, deadline, ListQuotes(ix, r), SelectBest(ListQuotes(ix, r)));
  }

  /** The winner's reservation, if its quote is stored. */
  function WithWinner(res: Reservations, ix: Index, r: RfqId): Reservations
    requires r in ix.rfqs && ix.rfqs[r].bestQuoteId.Some?
  {
    var q := ix.rfqs[r].bestQuoteId.value;
    if q in ix.quotes then res[q := Reserve(ix.quotes[q])] else res
  }

  lemma WinnerRestored(res: Reservations, ix: Index, r: RfqId, done: set<RfqId>, rec: Rfq)
    requires Rebuilt(res, ix, done) && r !in done && Recoverable(ix) && r in ix.rfqs
    requires ix.rfqs[r].status == Closed || ix.rfqs[r].status == Executing
    requires rec == ix.rfqs[r].(acceptDeadlineAt := rec.acceptDeadlineAt, error := rec.error)
    ensures Restored(res, ix, WithWinner(res, ix, r), PutRfq(ix, rec), r)
  {
    SelfPut(ix, r);
    assert WinnerOwn(ix, r);
    hide WellFormed;
  }

  /** A terminal record leaves none of its quotes reserved. */
  lemma TerminalRestored(res: Reservations, ix: Index, r: RfqId, done: set<RfqId>, rec: Rfq)
    requires Rebuilt(res, ix, done) && r !in done && Recoverable(ix) && r in ix.rfqs && rec.id == r && Terminal(rec.status)
    ensures Restored(res, ix, res, PutRfq(ix, rec), r)
  {
    hide WellFormed;
  }

  lemma DoneRestored(res: Reservations, ix: Index, r: RfqId, done: set<RfqId>)
    requires Rebuilt(res, ix, done) && r !in done && Recoverable(ix) && r in ix.rfqs && Terminal(ix.rfqs[r].status)
    ensures Restored(res, ix, res, ix, r)
  {
    SelfPut(ix, r);
    TerminalRestored(res, ix, r, done, ix.rfqs[r]);
  }

  // ------------------------------------------------------------------ the loop

  method ReserveQuotes(engine: AuctionEngine, quotes: seq<Quote>)
    modifies engine`reservations
    ensures engine.reservations == Protocol.ReserveAll(old(engine.reservations), quotes)
  {
    for i := 0 to |quotes|
      invariant engine.reservations == Protocol.ReserveAll(old(engine.reservations), quotes[..i])
    {
      ReserveNext(old(engine.reservations), quotes, i);
      engine.reservations := engine.reservations[quotes[i].id := Reserve(quotes[i])];
    }
    assert quotes[..|quotes|] == quotes;
  }

  lemma NextId(quotes: seq<Quote>, i: nat)
    requires i < |quotes|
    ensures Protocol.IdsMap(quotes[..i + 1]) == Protocol.IdsMap(quotes[..i])[quotes[i].id := quotes[i]]
  {
    assert quotes[..i + 1][..i] == quotes[..i];
  }

  lemma ReserveNext(res: Reservations, quotes: seq<Quote>, i: nat)
    requires i < |quotes|
    ensures Protocol.ReserveAll(res, quotes[..i + 1]) == Protocol.ReserveAll(res, quotes[..i])[quotes[i].id := Reserve(quotes[i])]
  {
    NextId(quotes, i);
    hide Protocol.IdsMap;
  }

  lemma ClosedIs(ix: Index, r: RfqId, best: Option<Quote>, deadline: int)
    requires r in ix.rfqs && WellFormed(ix)
    ensures var rec := ClosedRecord(ix.rfqs[r], best, deadline); rec.id == r && rec.status != Executing
  {
  }

  method RecoverOpen(engine: AuctionEngine, r: RfqId, now: int, ghost done: set<RfqId>)
    requires Recoverable(engine.store.State()) && r in engine.store.rfqs && r !in done && engine.store.rfqs[r].status == Open
    requires Rebuilt(engine.reservations, engine.store.State(), done)
    modifies engine`reservations, engine.store
    ensures old(engine.store.Durable()) ==> engine.store.Durable()
    ensures Restored(old(engine.reservations), old(engine.store.State()), engine.reservations, engine.store.State(), r)
    ensures r in engine.store.rfqs && engine.store.rfqs[r].status != Executing
  {
    hide RfqStore.Load, RfqStore.Whole, RfqStore.Line, WellFormed, Rebuilt, Restored, SelectBest, ListQuotes, Recoverable;
    hide Protocol.ReserveAll, ClosedRecord, ClosedReservations, Live, ReservationsOf, Lookup;
    ghost var ix, res := engine.store.State(), engine.reservations;
    RecoverableFacts(ix);
    ClosedIs(ix, r, SelectBest(ListQuotes(ix, r)), now + engine.acceptDeadlineMs);
    if now < engine.store.rfqs[r].auctionEndsAt {
      OpenRestored(res, ix, r, done);
      var quotes := engine.store.ListQuotes(r);
      ReserveQuotes(engine, quotes);
    } else {
      CloseRestored(res, ix, r, done, now + engine.acceptDeadlineMs);
      engine.CloseAuctionLocked(r, now);
    }
  }

  lemma WinnerFacts(ix: Index, r: RfqId)
    requires Recoverable(ix) && r in ix.rfqs && (ix.rfqs[r].status == Closed || ix.rfqs[r].status == Executing)
    ensures Named(ix, r)
    ensures ix.rfqs[r].status == Executing ==>
              ix.rfqs[r].executionIntent.Some? && ix.rfqs[r].executionIntent.value.fill.quoteId == ix.rfqs[r].bestQuoteId.value
  {
    assert WinnerOwn(ix, r);
    SelfPut(ix, r);
  }

  method RecoverClosed(engine: AuctionEngine, r: RfqId, now: int, ghost done: set<RfqId>)
    requires Recoverable(engine.store.State()) && r in engine.store.rfqs && r !in done && engine.store.rfqs[r].status == Closed
    requires Rebuilt(engine.reservations, engine.store.State(), done)
    modifies engine`reservations, engine.store
    ensures old(engine.store.Durable()) ==> engine.store.Durable()
    ensures Restored(old(engine.reservations), old(engine.store.State()), engine.reservations, engine.store.State(), r)
    ensures r in engine.store.rfqs && engine.store.rfqs[r].status != Executing
  {
    hide RfqStore.Load, RfqStore.Whole, RfqStore.Line, WellFormed, Rebuilt, Restored, Recoverable, WinnerOwn, Live, ReservationsOf;
    ghost var ix, res := engine.store.State(), engine.reservations;
    var rfq := engine.store.rfqs[r];
    RecoverableFacts(ix);
    SelfPut(ix, r);
    WinnerFacts(ix, r);
    var q := rfq.bestQuoteId.value;
    if rfq.acceptDeadlineAt.Some? && now >= rfq.acceptDeadlineAt.value {
      TerminalRestored(res, ix, r, done, ExpiredRecord(rfq));
      if q in ix.quotes { NotReserved(res, ix, r, done, q); }
      var expired := engine.ExpireAcceptLocked(r);
      assert q in ix.quotes ==> res - {q} == res;
    } else {
      if rfq.acceptDeadlineAt.None? {
        // records from before deadlines existed: the clock starts now
        rfq := rfq.(acceptDeadlineAt := Some(now + engine.acceptDeadlineMs));
        engine.store.PutRfq(rfq);
      }
      WinnerRestored(res, ix, r, done, rfq);
      if q in engine.store.quotes { engine.reservations := engine.reservations[q := Reserve(engine.store.quotes[q])]; }
    }
  }

  /** The latch of an RFQ's own operation stands exactly while it is executing; those of others are as they were. */
  ghost predicate LatchedAfter(l: Latches, l': Latches, ix': Index, r: RfqId)
    requires r in ix'.rfqs
  {
    && (OperationId(r) in l'.operations <==> ix'.rfqs[r].status == Executing)
    && (forall x :: x != r ==> (OperationId(x) in l'.operations <==> OperationId(x) in l.operations))
    && l'.operations <= l.operations + {OperationId(r), MULTIPLE_UNRESOLVED}
  }

  lemma ReconciledLatches(l: Latches, l': Latches, ix': Index, r: RfqId, hash: Option<Hash>, clear: Option<Hash>, hashless: bool)
    requires r in ix'.rfqs
    requires l' == if ix'.rfqs[r].status == Executing then Armed(l, r, hash) else Cleared(Armed(l, r, hash), r, clear, hashless)
    ensures LatchedAfter(l, l', ix', r)
  {
    forall x ensures x != r ==> OperationId(x) != OperationId(r)
      ensures OperationId(x) != UNKNOWN_BROADCAST && OperationId(x) != MULTIPLE_UNRESOLVED
    {
      OwnLatch(x, r);
    }
    hide OperationId;
  }

  /** Reserve the winner, arm the latch, and ask the chain. */
  method RecoverExecuting(engine: AuctionEngine, submitter: ViemTxSubmitter, r: RfqId, v: Verdict, ghost done: set<RfqId>)
    requires Recoverable(engine.store.State()) && r in engine.store.rfqs && r !in done && engine.store.rfqs[r].status == Executing
    requires Rebuilt(engine.reservations, engine.store.State(), done)
    modifies engine`reservations, engine.store, submitter
    ensures old(engine.store.Durable()) ==> engine.store.Durable()
    ensures Restored(old(engine.reservations), old(engine.store.State()), engine.reservations, engine.store.State(), r)
    ensures r in engine.store.rfqs && LatchedAfter(old(submitter.State()), submitter.State(), engine.store.State(), r)
  {
    hide RfqStore.Load, RfqStore.Whole, RfqStore.Line, WellFormed, Rebuilt, Restored, Recoverable, WinnerOwn, Live, ReservationsOf;
    hide Armed, Cleared, LatchedAfter, MinedRecord, UnusedRecord, OperationId, Final, RfqIndex.PutRfq;
    ghost var ix, res, l := engine.store.State(), engine.reservations, submitter.State();
    var rfq := engine.store.rfqs[r];
    WinnerFacts(ix, r);
    var q := rfq.bestQuoteId.value;
    if q in engine.store.quotes { engine.reservations := engine.reservations[q := Reserve(engine.store.quotes[q])]; }
    ghost var _ := ReconcileExecutingOnce(engine, submitter, r, v);
    VerdictMeans(res, ix, engine.reservations, engine.store.State(), l, submitter.State(), r, done, v);
  }

  /** What the reconciliation of an executing RFQ leaves, seen from the recovery. */
  lemma VerdictMeans(res: Reservations, ix: Index, res': Reservations, ix': Index, l: Latches, l': Latches, r: RfqId,
      done: set<RfqId>, v: Verdict)
    requires Rebuilt(res, ix, done) && r !in done && Recoverable(ix) && Named(ix, r) && ix.rfqs[r].status == Executing
    requires ix.rfqs[r].executionIntent.Some?
    requires ix.rfqs[r].executionIntent.value.fill.quoteId == ix.rfqs[r].bestQuoteId.value
    requires var q, intent := ix.rfqs[r].bestQuoteId.value, ix.rfqs[r].executionIntent.value;
             var armed, held := Armed(l, r, intent.txHash), WithWinner(res, ix, r);
             if Final(intent, v) then
               && ix' == PutRfq(ix, if v.Mined? then MinedRecord(ix.rfqs[r], v.hash, v.success, Some(v.block)) else UnusedRecord(ix.rfqs[r]))
               && l' == Cleared(armed, r, if v.Mined? then Some(v.hash) else intent.txHash, intent.txHash.None?)
               && res' == held - {intent.fill.quoteId}
             else
               && r in ix'.rfqs && ix' == PutRfq(ix, ix.rfqs[r].(error := ix'.rfqs[r].error))
               && l' == armed && res' == held
    ensures Restored(res, ix, res', ix', r) && r in ix'.rfqs && LatchedAfter(l, l', ix', r)
  {
    hide Rebuilt, Recoverable, Restored, LatchedAfter, Armed, Cleared, OperationId;
    var q, intent := ix.rfqs[r].bestQuoteId.value, ix.rfqs[r].executionIntent.value;
    ReconciledLatches(l, l', ix', r, intent.txHash, if v.Mined? then Some(v.hash) else intent.txHash, intent.txHash.None?);
    if Final(intent, v) {
      if q in ix.quotes { NotReserved(res, ix, r, done, q); } else { NeverReserved(res, ix, done, q); }
      assert WithWinner(res, ix, r) - {q} == res;
      TerminalRestored(res, ix, r, done, ix'.rfqs[r]);
    } else {
      WinnerRestored(res, ix, r, done, ix.rfqs[r].(error := ix'.rfqs[r].error));
    }
  }

  lemma Unlatched(l: Latches, ix: Index, r: RfqId)
    requires r in ix.rfqs && ix.rfqs[r].status != Executing && OperationId(r) !in l.operations
    ensures LatchedAfter(l, l, ix, r)
  {
  }

  /** One RFQ: rearm or close, rearm or expire, reserve and reconcile. */
  method RecoverOne(engine: AuctionEngine, submitter: ViemTxSubmitter, r: RfqId, now: int, v: Verdict, ghost done: set<RfqId>)
    requires Recoverable(engine.store.State()) && r in engine.store.rfqs && r !in done
    requires Rebuilt(engine.reservations, engine.store.State(), done) && OperationId(r) !in submitter.unknownOperationIds
    modifies engine`reservations, engine.store, submitter
    ensures old(engine.store.Durable()) ==> engine.store.Durable()
    ensures Restored(old(engine.reservations), old(engine.store.State()), engine.reservations, engine.store.State(), r)
    ensures r in engine.store.rfqs && LatchedAfter(old(submitter.State()), submitter.State(), engine.store.State(), r)
  {
    hide RfqStore.Load, RfqStore.Whole, Rebuilt, Restored, Recoverable, OperationId, ReservationsOf, LatchedAfter;
    match engine.store.rfqs[r].status {
      case Open => RecoverOpen(engine, r, now, done); Unlatched(submitter.State(), engine.store.State(), r);
      case Closed => RecoverClosed(engine, r, now, done); Unlatched(submitter.State(), engine.store.State(), r);
      case Executing => RecoverExecuting(engine, submitter, r, v, done);
      case _ =>
        DoneRestored(engine.reservations, engine.store.State(), r, done);
        Unlatched(submitter.State(), engine.store.State(), r);
    }
  }

  lemma RecoverableFacts(ix: Index)
    requires Recoverable(ix)
    ensures WellFormed(ix)
  {
    hide WellFormed;
  }

  lemma NotReserved(res: Reservations, ix: Index, r: RfqId, done: set<RfqId>, q: QuoteId)
    requires Rebuilt(res, ix, done) && r !in done && q in ix.quotes && ix.quotes[q].rfqId == r
    ensures q !in res
  {
  }

  lemma NeverReserved(res: Reservations, ix: Index, done: set<RfqId>, q: QuoteId)
    requires Rebuilt(res, ix, done) && q !in ix.quotes
    ensures q !in res
  {
  }

  /** Of the RFQs that are done, exactly the executing ones are latched. */
  ghost predicate Latched(l: Latches, ix: Index, done: set<RfqId>) {
    && (forall r :: OperationId(r) in l.operations <==> r in done && r in ix.rfqs && ix.rfqs[r].status == Executing)
    && (forall id :: id in l.operations ==> id == MULTIPLE_UNRESOLVED || exists r :: r in done && id == OperationId(r))
  }

  lemma LatchedNext(l: Latches, l': Latches, ix: Index, ix': Index, r: RfqId, done: set<RfqId>)
    requires Latched(l, ix, done) && r !in done && r in ix'.rfqs && LatchedAfter(l, l', ix', r)
    requires forall x :: x != r ==> (x in ix.rfqs <==> x in ix'.rfqs) && (x in ix.rfqs ==> ix'.rfqs[x] == ix.rfqs[x])
    ensures Latched(l', ix', done + {r})
  {
    hide OperationId;
    forall id | id in l'.operations
      ensures id == MULTIPLE_UNRESOLVED || exists x :: x in done + {r} && id == OperationId(x)
    {
      if id != MULTIPLE_UNRESOLVED && id != OperationId(r) {
        assert id in l.operations;
        var x :| x in done && id == OperationId(x);
        assert x in done + {r};
      } else if id == OperationId(r) {
        assert r in done + {r};
      }
    }
  }

  lemma OnlyOne(res: Reservations, ix: Index, res': Reservations, ix': Index, r: RfqId)
    requires Restored(res, ix, res', ix', r)
    ensures r in ix'.rfqs && forall x :: x != r ==> (x in ix.rfqs <==> x in ix'.rfqs) && (x in ix.rfqs ==> ix'.rfqs[x] == ix.rfqs[x])
  {
    hide Live;
  }

  /** recover(): over all stored RFQs, in any order, with whatever the chain answers, from a wallet without latches. The
      map it leaves is the one that the store calls for, the RFQs left executing are exactly those whose own latch
      is set, so one of them refuses every write, and the store stays replayable. */
  method Recover(engine: AuctionEngine, submitter: ViemTxSubmitter, ids: seq<RfqId>, now: int, verdicts: RfqId -> Verdict)
    requires Recoverable(engine.store.State()) && engine.reservations == map[] && submitter.unknownOperationIds == {}
    requires (forall r :: r in engine.store.rfqs <==> r in ids) && (forall i, j :: 0 <= i < j < |ids| ==> ids[i] != ids[j])
    modifies engine`reservations, engine.store, submitter
    ensures engine.reservations == ReservationsOf(engine.store.State())
    ensures Recoverable(engine.store.State()) && engine.store.rfqs.Keys == old(engine.store.rfqs).Keys
    ensures old(engine.store.Durable()) ==> engine.store.Durable()
    ensures Latched(submitter.State(), engine.store.State(), engine.store.rfqs.Keys)
    ensures (exists r :: r in engine.store.rfqs && engine.store.rfqs[r].status == Executing) ==> Paused(submitter.State())
  {
    hide RfqStore.Load, RfqStore.Whole, RfqStore.Line, Restored, Recoverable, ReservationsOf, LatchedAfter, OperationId;
    assert Rebuilt(map[], engine.store.State(), {});
    hide Rebuilt;
    ghost var done := {};
    for i := 0 to |ids|
      invariant Recoverable(engine.store.State()) && Rebuilt(engine.reservations, engine.store.State(), done)
      invariant old(engine.store.Durable()) ==> engine.store.Durable()
      invariant engine.store.rfqs.Keys == old(engine.store.rfqs).Keys
      invariant done == set r | r in ids[..i]
      invariant Latched(submitter.State(), engine.store.State(), done)
    {
      ghost var ix, res, l := engine.store.State(), engine.reservations, submitter.State();
      assert ids[..i + 1] == ids[..i] + [ids[i]];
      assert ids[i] in ids;
      RecoverOne(engine, submitter, ids[i], now, verdicts(ids[i]), done);
      OnlyOne(res, ix, engine.reservations, engine.store.State(), ids[i]);
      LatchedNext(l, submitter.State(), ix, engine.store.State(), ids[i], done);
      RestoredRebuilds(res, ix, engine.reservations, engine.store.State(), ids[i], done);
      done := done + {ids[i]};
    }
    assert ids[..|ids|] == ids;
    assert done == engine.store.State().rfqs.Keys;
    AllRebuilt(engine.reservations, engine.store.State());
  }

  /** A restart: reload the file, then recover. The reservations are those of the log, closed and expired RFQs
      accounted for, the latches are those of the RFQs still executing, and nothing that was only in memory is needed. */
  method Restart(file: string, deadline: int, ids: seq<RfqId>, now: int, verdicts: RfqId -> Verdict)
    returns (engine: AuctionEngine, submitter: ViemTxSubmitter)
    requires Recoverable(RfqStore.Load(file))
    requires (forall r :: r in RfqStore.Load(file).rfqs <==> r in ids) && (forall i, j :: 0 <= i < j < |ids| ==> ids[i] != ids[j])
    ensures fresh(engine) && fresh(engine.store) && fresh(submitter) && engine.store.rfqs.Keys == RfqStore.Load(file).rfqs.Keys
    ensures RfqStore.Whole(file) ==> engine.store.Durable()
    ensures engine.reservations == ReservationsOf(engine.store.State())
    ensures Latched(submitter.State(), engine.store.State(), engine.store.rfqs.Keys)
    ensures (exists r :: r in engine.store.rfqs && engine.store.rfqs[r].status == Executing) ==> Paused(submitter.State())
  {
    hide RfqStore.Load, Recoverable, ReservationsOf, Latched;
    var store := new JsonlRfqStore(file);
    engine := new AuctionEngine(store, deadline);
    submitter := new ViemTxSubmitter();
    Recover(engine, submitter, ids, now, verdicts);
  }
}
