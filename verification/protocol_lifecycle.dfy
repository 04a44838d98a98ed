/** What one step may do to the durable records and to the chain's memory. */
module ProtocolLifecycle {
  import opened Types
  import opened RfqIndex
  import opened BestQuote
  import opened AuctionCore
  import opened Protocol
  import opened ProtocolInvariant
  import opened ProtocolFrame
  import opened ProtocolQuotes
  import opened ProtocolRecovery
  import opened ProtocolWithdrawals
  import opened ProtocolChain
  import opened ProtocolSolvencySteps

  predicate Edge(a: Status, b: Status) {
    || a == b
    || (a == Open && (b == Closed || b == Expired))
    || (a == Closed && (b == Executing || b == Expired))
    || (a == Executing && (b == Closed || b == Executed || b == Failed))
  }

  /** A record moves along the lifecycle, keeps the winner once chosen, and freezes when terminal. */
  predicate RecordEvolves(a: Rfq, b: Rfq) {
    && Edge(a.status, b.status)
    && (Terminal(a.status) ==> b == a)
    && (a.status != Open ==> b.bestQuoteId == a.bestQuoteId)
    && b.id == a.id && b.takerSubaccountId == a.takerSubaccountId && b.amount == a.amount && b.instrument == a.instrument
  }

  ghost predicate RecordsEvolve(s: State, t: State) {
    forall r :: r in s.ix.rfqs ==> r in t.ix.rfqs && RecordEvolves(s.ix.rfqs[r], t.ix.rfqs[r])
  }

  /** After its auction closes, an RFQ neither loses nor gains a quote. */
  ghost predicate QuotesFreeze(s: State, t: State) {
    && (forall q :: q in s.ix.quotes && q !in t.ix.quotes ==> RfqHas(s, s.ix.quotes[q].rfqId, Open))
    && (forall q :: q in t.ix.quotes && q !in s.ix.quotes ==> RfqHas(s, t.ix.quotes[q].rfqId, Open))
    && (forall q :: q in s.ix.quotes && q in t.ix.quotes ==> t.ix.quotes[q] == s.ix.quotes[q])
  }

  /** The chain forgets nothing, and a step broadcasts at most one operation. */
  ghost predicate ChainGrows(c: Chain, d: Chain) {
    && (d.broadcasts == c.broadcasts || (|d.broadcasts| == |c.broadcasts| + 1 && c.broadcasts == d.broadcasts[..|c.broadcasts|]))
    && (forall op :: op in c.sent ==> op in d.sent && d.sent[op].firstExpiry == c.sent[op].firstExpiry)
    && (forall op :: op in c.outcome ==> op in d.outcome && d.outcome[op] == c.outcome[op])
    && c.burned <= d.burned && c.time <= d.time
  }

  /** The only way back from executing to closed precedes any broadcast. */
  ghost predicate ReopensUnsent(s: State, t: State) {
    forall r :: RfqHas(s, r, Executing) && RfqHas(t, r, Closed) ==> RfqOp(r) !in t.chain.sent
  }

  ghost predicate Evolves(s: State, t: State) {
    RecordsEvolve(s, t) && QuotesFreeze(s, t) && ChainGrows(s.chain, t.chain) && ReopensUnsent(s, t)
  }

  // ------------------------------------------------------------------ shapes of steps

  /** The log of RFQs is left alone. */
  lemma SameLog(s: State, t: State)
    requires t.ix == s.ix && ChainGrows(s.chain, t.chain)
    ensures Evolves(s, t)
  {
    hide ChainGrows;
  }

  ghost predicate Rewritten(s: State, t: State, r: RfqId) {
    && r in s.ix.rfqs && r in t.ix.rfqs && t.ix.quotes == s.ix.quotes && t.chain == s.chain
    && (forall x :: x in s.ix.rfqs && x != r ==> x in t.ix.rfqs && t.ix.rfqs[x] == s.ix.rfqs[x])
    && RecordEvolves(s.ix.rfqs[r], t.ix.rfqs[r])
    && (RfqHas(s, r, Executing) && RfqHas(t, r, Closed) ==> RfqOp(r) !in t.chain.sent)
  }

  lemma RewrittenEvolves(s: State, t: State, r: RfqId)
    requires Rewritten(s, t, r)
    ensures Evolves(s, t)
  {
    assert ChainGrows(s.chain, t.chain);
    hide ChainGrows;
  }

  lemma ReceiptGrows(s: State, op: OpId, ok: bool, debit: nat, taker: int)
    requires CanMine(s, op, ok, debit)
    ensures ChainGrows(s.chain, Mine(s, op, ok, debit, taker).chain)
  {
  }

  lemma RecordGrows(s: State, op: OpId, p: Payload)
    requires op !in s.chain.sent
    ensures ChainGrows(s.chain, Record(s, op, p).chain)
  {
    assert (s.chain.broadcasts + [op])[..|s.chain.broadcasts|] == s.chain.broadcasts;
  }

  lemma DropEvolves(s: State, t: State, r: RfqId, q: QuoteId)
    requires RfqHas(s, r, Open) && t.chain == s.chain && t.ix == DeleteQuote(s.ix, q)
    requires q in s.ix.quotes ==> s.ix.quotes[q].rfqId == r
    ensures Evolves(s, t)
  {
    assert t.ix.rfqs == s.ix.rfqs;
    assert QuotesFreeze(s, t);
    hide DeleteQuote;
  }

  // ------------------------------------------------------------------ the auction

  lemma AdmitEvolves(s: State, r: RfqId, draft: Quote, todo: seq<QuoteId>, id: QuoteId)
    requires RfqHas(s, r, Open) && OwnQuotes(s, r, todo) && draft.rfqId == r && id !in s.ix.quotes
    ensures Evolves(s, AdmitNext(s, r, draft, todo, id))
  {
    var t := AdmitNext(s, r, draft, todo, id);
    if todo == [] {
      assert t.ix.rfqs == s.ix.rfqs && t.ix.quotes == s.ix.quotes[id := draft.(id := id)] && t.chain == s.chain;
      hide AdmitNext;
    } else {
      DropEvolves(s, t, r, todo[0]);
    }
  }

  lemma QuoteAdmitEvolves(s: State, r: RfqId, id: QuoteId)
    requires Control(s) && CanQuoteAdmit(s, r, id)
    ensures Evolves(s, QuoteAdmit(s, r, id))
  {
    SectionHere(s, r);
    Unfold(s, r);
    assert id !in s.ix.quotes by { hide Control, RfqHere, History, QueueOk, Orphans, Exclusive, WellFormed; }
    hide Control, Evolves, AdmitNext, RfqHere;
    AdmitEvolves(s, r, s.sections[r].draft, s.sections[r].todo, id);
  }

  lemma EvolvesFrom(s: State, mid: State, t: State)
    requires mid.ix == s.ix && mid.chain == s.chain && Evolves(mid, t)
    ensures Evolves(s, t)
  {
    hide RecordEvolves, ChainGrows;
  }

  lemma QuoteDropEvolves(s: State, r: RfqId, id: QuoteId)
    requires Control(s) && CanQuoteDrop(s, r, id)
    ensures Evolves(s, QuoteDrop(s, r, id))
  {
    var mid := s.(reservations := s.reservations - {s.sections[r].cur});
    SectionHere(s, r);
    Unfold(s, r);
    assert id !in s.ix.quotes by { hide Control, RfqHere, History, QueueOk, Orphans, Exclusive, WellFormed; }
    hide Control, AdmitNext, RfqHere, Evolves, Globals, Books, History, QueueOk, Orphans, Exclusive;
    AdmitEvolves(mid, r, s.sections[r].draft, s.sections[r].todo, id);
    EvolvesFrom(s, mid, QuoteDrop(s, r, id));
  }

  lemma CancelEvolves(s: State, q: QuoteId)
    requires CanCancel(s, q)
    ensures Evolves(s, Cancel(s, q))
  {
    hide Evolves;
    DropEvolves(s, Cancel(s, q), s.ix.quotes[q].rfqId, q);
  }

  lemma CloseEvolves(s: State, t: State, r: RfqId)
    requires ClosesTo(s, t, r)
    ensures Rewritten(s, t, r)
  {
    hide Beats;
  }

  lemma ExpireEvolves(s: State, r: RfqId)
    requires CanExpire(s, r) && s.ix.rfqs[r].id == r
    ensures Rewritten(s, Expire(s, r), r)
  {
  }

  lemma OpenEvolves(s: State, rfq: Rfq)
    requires CanOpenRfq(s, rfq)
    ensures Evolves(s, OpenRfq(s, rfq))
  {
  }

  lemma CloseStepEvolves(s: State, r: RfqId, deadline: int)
    requires Control(s) && CanClose(s, r)
    ensures Evolves(s, Close(s, r, deadline))
  {
    Unfold(s, r);
    assert WellFormed(s.ix) by { hide WellFormed; }
    hide *;
    CloseMeans(s, r, deadline);
    CloseEvolves(s, Close(s, r, deadline), r);
    RewrittenEvolves(s, Close(s, r, deadline), r);
  }

  lemma Keyed(s: State, r: RfqId)
    requires Control(s)
    ensures r in s.ix.rfqs ==> s.ix.rfqs[r].id == r
  {
    hide RfqHere, WithdrawalHere, History, QueueOk, Orphans, Exclusive;
  }

  lemma AuctionEvolves(s: State, step: AuctionStep)
    requires Control(s) && AuctionEnabled(s, step)
    ensures Evolves(s, AuctionApply(s, step))
  {
    hide Control, QuoteAdmit, QuoteDrop, Close, Expire, Cancel, OpenRfq, Evolves, Rewritten;
    match step
    case SOpenRfq(rfq) => OpenEvolves(s, rfq);
    case SQuoteBegin(r, maker, sub) => SameLog(s, QuoteBegin(s, r, maker, sub));
    case SQuoteValidate(r, draft) => SameLog(s, QuoteValidate(s, r, draft));
    case SQuoteAbort(r) => SameLog(s, Finish(s, r));
    case SQuoteAdmit(r, id) => QuoteAdmitEvolves(s, r, id);
    case SQuoteDrop(r, id) => QuoteDropEvolves(s, r, id);
    case SQuoteReserve(r) => SameLog(s, QuoteReserve(s, r));
    case SCancel(q) => CancelEvolves(s, q);
    case SCancelRelease(r) => SameLog(s, CancelRelease(s, r));
    case SClose(r, deadline) => CloseStepEvolves(s, r, deadline);
    case SExpire(r) => Keyed(s, r); ExpireEvolves(s, r); RewrittenEvolves(s, Expire(s, r), r);
  }

  // ------------------------------------------------------------------ execution and reconciliation

  lemma SectionRecord(s: State, r: RfqId)
    requires Control(s) && r in s.sections
    ensures SectionOk(s, r) && r in s.ix.rfqs && s.ix.rfqs[r].id == r
  {
    SectionHere(s, r);
    Keyed(s, r);
  }

  lemma AcceptExpireRewrites(s: State, r: RfqId)
    requires CanAcceptEnd(s, r) && SectionOk(s, r) && s.ix.rfqs[r].id == r
    ensures Rewritten(s, AcceptExpire(s, r), r)
  {
  }

  lemma CommitRewrites(s: State, r: RfqId, intent: Intent)
    requires CanAcceptCommit(s, r, intent) && s.ix.rfqs[r].id == r
    ensures Rewritten(s, AcceptCommit(s, r, intent), r)
  {
  }

  lemma RefuseRewrites(s: State, r: RfqId)
    requires CanRefuse(s, r) && SectionOk(s, r) && s.ix.rfqs[r].id == r
    ensures Rewritten(s, Refuse(s, r), r)
  {
  }

  lemma HashRewrites(s: State, r: RfqId, hash: Hash)
    requires CanHash(s, r) && SectionOk(s, r) && s.ix.rfqs[r].id == r
    ensures Rewritten(s, LearnHash(s, r, hash), r)
  {
  }

  lemma LoseRewrites(s: State, r: RfqId)
    requires CanLose(s, r) && SectionOk(s, r) && s.ix.rfqs[r].id == r
    ensures Rewritten(s, Lose(s, r), r)
  {
  }

  lemma SettleRewrites(s: State, r: RfqId, hash: Hash)
    requires CanSettle(s, r) && SectionOk(s, r) && s.ix.rfqs[r].id == r
    ensures Rewritten(s, Settle(s, r, hash), r)
  {
  }

  lemma BroadcastEvolves(s: State, r: RfqId)
    requires CanBroadcast(s, r) && RfqOp(r) !in s.chain.sent
    ensures Evolves(s, Broadcast(s, r))
  {
    hide Evolves, ChainGrows;
    RecordGrows(s, RfqOp(r), RfqPayload(s, r));
    SameLog(s, Broadcast(s, r));
  }

  lemma ExecutionEvolves(s: State, step: ExecutionStep)
    requires Control(s) && ExecutionEnabled(s, step)
    ensures Evolves(s, ExecutionApply(s, step))
  {
    hide Control, Evolves, Rewritten;
    if step.SAcceptBegin? {
      SameLog(s, AcceptBegin(s, step.r));
    } else {
      SectionRecord(s, step.r);
      ExecutionInSection(s, step);
    }
  }

  lemma ExecutionInSection(s: State, step: ExecutionStep)
    requires ExecutionEnabled(s, step) && !step.SAcceptBegin?
    requires step.r in s.sections && SectionOk(s, step.r) && s.ix.rfqs[step.r].id == step.r
    ensures Evolves(s, ExecutionApply(s, step))
  {
    hide Evolves, Rewritten;
    assert step.SBroadcast? ==> RfqOp(step.r) !in s.chain.sent;
    hide SectionOk;
    match step
    case SBroadcast(r) => BroadcastEvolves(s, r);
    case SAcceptEnd(r) => SameLog(s, Finish(s, r));
    case SReceive(r) => SameLog(s, Receive(s, r));
    case SRelease(r) => SameLog(s, Release(s, r));
    case SAcceptExpire(r) => AcceptExpireRewrites(s, r); RewrittenEvolves(s, AcceptExpire(s, r), r);
    case SAcceptCommit(r, intent) => CommitRewrites(s, r, intent); RewrittenEvolves(s, AcceptCommit(s, r, intent), r);
    case SRefuse(r) => RefuseRewrites(s, r); RewrittenEvolves(s, Refuse(s, r), r);
    case SHash(r, hash) => HashRewrites(s, r, hash); RewrittenEvolves(s, LearnHash(s, r, hash), r);
    case SLose(r) => LoseRewrites(s, r); RewrittenEvolves(s, Lose(s, r), r);
    case SSettle(r, hash) => SettleRewrites(s, r, hash); RewrittenEvolves(s, Settle(s, r, hash), r);
  }

  lemma ReconPutRewrites(s: State, r: RfqId, hash: Hash)
    requires CanReconPut(s, r) && ReconOk(s, r) && s.ix.rfqs[r].id == r
    ensures Rewritten(s, ReconPut(s, r, hash), r)
  {
  }

  lemma ReconPutEvolves(s: State, r: RfqId, hash: Hash)
    requires Control(s) && CanReconPut(s, r)
    ensures Evolves(s, ReconPut(s, r, hash))
  {
    ReconHere(s, r);
    Keyed(s, r);
    hide Control, RfqHere, QueueOk, Evolves, Rewritten, ReconPut, ReconOk;
    ReconPutRewrites(s, r, hash);
    RewrittenEvolves(s, ReconPut(s, r, hash), r);
  }

  lemma RecoveryEvolves(s: State, step: RecoveryStep)
    requires Control(s) && RecoveryEnabled(s, step)
    ensures Evolves(s, RecoveryApply(s, step))
  {
    hide Control, Evolves, ReconPut, Recover;
    match step
    case SReconStart(r) => SameLog(s, ReconStart(s, r));
    case SReconAnswer(r, answer) => SameLog(s, ReconAnswer(s, r, answer));
    case SReconEnd(r) => SameLog(s, ReconEnd(s, r));
    case SReconPut(r, hash) => ReconPutEvolves(s, r, hash);
    case SReconClear(r) => SameLog(s, ReconClear(s, r));
    case SCrash => SameLog(s, Crash(s));
    case SRecover(r) => RecoverLeavesStore(s, r); SameLog(s, Recover(s, r));
  }

  // ------------------------------------------------------------------ withdrawals and the chain

  lemma WithdrawalEvolves(s: State, step: WithdrawalStep)
    requires Control(s) && WithdrawalEnabled(s, step)
    ensures Evolves(s, WithdrawalApply(s, step))
  {
    var t := WithdrawalApply(s, step);
    if step.SWBroadcast? {
      Here(s, step.w);
      assert WdOp(step.w) !in s.chain.sent by { hide Control, QueueOk; }
      hide Control, Evolves, WithdrawalHere, QueueOk, ChainGrows;
      RecordGrows(s, WdOp(step.w), Payload(s.wds[step.w].account, s.wds[step.w].debit, s.wds[step.w].expiry, s.wds[step.w].expiry, None, None));
      SameLog(s, t);
    } else {
      hide Control, Evolves;
      WithdrawalLeavesLog(s, step);
      SameLog(s, t);
    }
  }

  lemma SubmittedLeavesLog(s: State, w: WId, look: Look)
    requires w in s.wds && (look.receipt ==> WdOp(w) in s.chain.outcome)
    ensures ReconcileSubmitted(s, w, look).ix == s.ix && ReconcileSubmitted(s, w, look).chain == s.chain
  {
  }

  lemma ReconcileLeavesLog(s: State, w: WId, look: Look)
    requires CanWReconcile(s, w, look)
    ensures WReconcile(s, w, look).ix == s.ix && WReconcile(s, w, look).chain == s.chain
  {
    hide ReconcileSubmitted, NonceUsed, Traffic;
    var t := s.(wrecovering := s.wrecovering - {w});
    SubmittedLeavesLog(t, w, look);
    SubmittedLeavesLog(t.(latches := t.latches - {UnknownBroadcast}), w, look);
  }

  lemma WithdrawalLeavesLog(s: State, step: WithdrawalStep)
    requires WithdrawalEnabled(s, step) && !step.SWBroadcast?
    ensures WithdrawalApply(s, step).ix == s.ix && WithdrawalApply(s, step).chain == s.chain
  {
    hide WReconcile, CanWReconcile, AccountFree, ReservedFor, Cash;
    if step.SWReconcile? { ReconcileLeavesLog(s, step.w, step.look); }
  }

  lemma ChainStepEvolves(s: State, step: ChainStep)
    requires ChainEnabled(s, step)
    ensures Evolves(s, ChainApply(s, step))
  {
    hide Evolves, Mine;
    match step
    case SMine(op, ok, debit, taker) =>
      ReceiptGrows(s, op, ok, debit, taker);
      MineMoves(s, op, ok, debit, taker);
      SameLog(s, Mine(s, op, ok, debit, taker));
    case SBurn(op) => SameLog(s, Burn(s, op));
    case STick(time) => SameLog(s, Tick(s, time));
    case SDeposit(a, amount) => SameLog(s, s.(chain := Credit(s.chain, a, amount)));
  }

  lemma StepEvolves(s: State, step: Step)
    requires Control(s) && Enabled(s, step)
    ensures Evolves(s, Apply(s, step))
  {
    hide Control, Evolves, AuctionEnabled, AuctionApply, ExecutionEnabled, ExecutionApply, RecoveryEnabled,
        RecoveryApply,
      WithdrawalEnabled, WithdrawalApply, ChainEnabled, ChainApply;
    match step
    case OfAuction(a) => AuctionEvolves(s, a);
    case OfExecution(e) => ExecutionEvolves(s, e);
    case OfRecovery(v) => RecoveryEvolves(s, v);
    case OfWithdrawal(d) => WithdrawalEvolves(s, d);
    case OfChain(c) => ChainStepEvolves(s, c);
  }
}
