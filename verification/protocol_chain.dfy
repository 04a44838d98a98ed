/** The chain's own moves keep the control invariant. */
module ProtocolChain {
  import opened Types
  import opened RfqIndex
  import opened Protocol
  import opened ProtocolInvariant
  import opened ProtocolFrame

  /** Only the chain moves, and at most one operation gets its receipt. */
  ghost predicate ChainMoves(s: State, t: State, op: OpId) {
    && t == s.(chain := t.chain)
    && t.chain.broadcasts == s.chain.broadcasts && t.chain.sent == s.chain.sent
    && s.chain.burned <= t.chain.burned && s.chain.time <= t.chain.time
    && (forall o :: o in s.chain.outcome ==> o in t.chain.outcome && t.chain.outcome[o] == s.chain.outcome[o])
    && (forall o :: o in t.chain.outcome && o !in s.chain.outcome ==> o == op && op in s.chain.sent)
  }

  lemma ChainRfq(s: State, t: State, op: OpId, r: RfqId)
    requires ChainMoves(s, t, op) && RfqOp(r) != op && r in s.ix.rfqs && RfqHere(s, r) && s.ix.quotes.Keys <= s.used
    ensures RfqHere(t, r)
  {
    hide RfqHere;
    OtherRfq(s, t, r);
  }

  lemma ChainWithdrawal(s: State, t: State, op: OpId, w: WId)
    requires ChainMoves(s, t, op) && WdOp(w) != op && w in s.wds && WithdrawalHere(s, w)
    ensures WithdrawalHere(t, w)
  {
    hide WithdrawalHere;
    OtherWithdrawal(s, t, w);
  }

  lemma ChainGlobals(s: State, t: State, op: OpId)
    requires ChainMoves(s, t, op) && Books(s) && QueueOk(s) && Orphans(s) && Exclusive(s)
    ensures Books(t) && QueueOk(t) && Orphans(t) && Exclusive(t)
  {
    hide WellFormed, Holds;
    assert QueueOk(t) by {
      hide Books, Orphans, Exclusive;
      forall o | o in s.chain.sent && Resolved(s.chain, o) ensures Resolved(t.chain, o) {}
    }
    assert Orphans(t) by {
      hide Books, QueueOk, Exclusive;
      assert forall r, q :: ReleasePending(t, r, q) == ReleasePending(s, r, q);
    }
    hide QueueOk, Orphans;
  }

  lemma KeepChainMove(s: State, t: State, op: OpId)
    requires Control(s) && ChainMoves(s, t, op) && History(t)
    requires op.RfqOp? && op.r in s.ix.rfqs ==> RfqHere(t, op.r)
    requires op.WdOp? && op.w in s.wds ==> WithdrawalHere(t, op.w)
    ensures Control(t)
  {
    assert t.ix == s.ix && t.wds == s.wds;
    assert s.ix.quotes.Keys <= s.used by { hide RfqHere, WithdrawalHere, History, QueueOk, Orphans, Exclusive, WellFormed; }
    hide RfqHere, WithdrawalHere, Books, History, QueueOk, Orphans, Exclusive, ChainMoves;
    ChainGlobals(s, t, op);
    forall r | r in t.ix.rfqs ensures RfqHere(t, r) { if RfqOp(r) != op { ChainRfq(s, t, op, r); } }
    forall w | w in t.wds ensures WithdrawalHere(t, w) { if WdOp(w) != op { ChainWithdrawal(s, t, op, w); } }
  }

  ghost predicate QuietMove(s: State, t: State, op: OpId) {
    ChainMoves(s, t, op) && t.chain.outcome == s.chain.outcome && t.chain.paid == s.chain.paid
  }

  lemma QuietRfq(s: State, t: State, op: OpId, r: RfqId)
    requires QuietMove(s, t, op) && r in s.ix.rfqs && RfqHere(s, r) && s.ix.quotes.Keys <= s.used
    ensures RfqHere(t, r)
  {
    hide RfqHere;
    OtherRfq(s, t, r);
  }

  lemma QuietWithdrawal(s: State, t: State, op: OpId, w: WId)
    requires QuietMove(s, t, op) && w in s.wds && WithdrawalHere(s, w)
    ensures WithdrawalHere(t, w)
  {
    hide WithdrawalHere;
    OtherWithdrawal(s, t, w);
  }

  lemma QuietHistory(s: State, t: State, op: OpId)
    requires QuietMove(s, t, op) && History(s)
    ensures History(t) && ChainMoves(s, t, op) && t.ix == s.ix && t.wds == s.wds
  {
  }

  lemma Parts(s: State)
    requires Control(s)
    ensures forall r :: r in s.ix.rfqs ==> RfqHere(s, r)
    ensures forall w :: w in s.wds ==> WithdrawalHere(s, w)
    ensures History(s) && s.ix.quotes.Keys <= s.used
  {
    hide RfqHere, WithdrawalHere, History, QueueOk, Orphans, Exclusive, WellFormed;
  }

  /** Nonces burn, time passes, cash arrives. */
  lemma KeepQuietMove(s: State, t: State, op: OpId)
    requires Control(s) && QuietMove(s, t, op)
    ensures Control(t)
  {
    hide *;
    Parts(s);
    QuietHistory(s, t, op);
    if op.RfqOp? && op.r in s.ix.rfqs { QuietRfq(s, t, op, op.r); }
    if op.WdOp? && op.w in s.wds { QuietWithdrawal(s, t, op, op.w); }
    KeepChainMove(s, t, op);
  }

  lemma MineMoves(s: State, op: OpId, ok: bool, debit: nat, taker: int)
    requires CanMine(s, op, ok, debit)
    ensures var t := Mine(s, op, ok, debit, taker);
            && ChainMoves(s, t, op) && t.chain.outcome == s.chain.outcome[op := ok]
            && t.chain.burned == s.chain.burned && t.chain.time == s.chain.time
            && t.chain.paid == s.chain.paid + if ok && op.RfqOp? && s.chain.sent[op].quote.Some? then {s.chain.sent[op].quote.value} else {}
  {
  }

  lemma MineRfqHere(s: State, t: State, r: RfqId, ok: bool)
    requires t == s.(chain := t.chain) && t.chain.sent == s.chain.sent && t.chain.burned == s.chain.burned && t.chain.time == s.chain.time
    requires RfqOp(r) in s.chain.sent && RfqOp(r) !in s.chain.outcome && t.chain.outcome == s.chain.outcome[RfqOp(r) := ok]
    requires ok ==> RfqOp(r) !in s.chain.burned && s.chain.time <= s.chain.sent[RfqOp(r)].firstExpiry
    requires r in s.ix.rfqs && RfqHere(s, r)
    ensures RfqHere(t, r)
  {
    WinnerKept(s, t, r);
    hide WinnerOk;
    assert ReservedAt(t, r) by {
      assert forall q :: ReleasePending(t, r, q) == ReleasePending(s, r, q);
      assert forall q :: q in s.ix.quotes ==> ReservePending(t, q) == ReservePending(s, q);
      hide ReleasePending, ReservePending, RfqOk, SectionOk, ReconOk, RfqLatched;
    }
    hide ReservedAt;
  }

  lemma MineWithdrawalHere(s: State, t: State, w: WId, ok: bool)
    requires t == s.(chain := t.chain) && t.chain.sent == s.chain.sent && t.chain.burned == s.chain.burned && t.chain.time == s.chain.time
    requires WdOp(w) in s.chain.sent && WdOp(w) !in s.chain.outcome && t.chain.outcome == s.chain.outcome[WdOp(w) := ok]
    requires w in s.wds && WithdrawalHere(s, w)
    ensures WithdrawalHere(t, w)
  {
  }

  lemma MineHistory(s: State, t: State, op: OpId, ok: bool)
    requires History(s) && ChainMoves(s, t, op) && t.chain.outcome == s.chain.outcome[op := ok] && op in s.chain.sent
    requires op !in s.chain.outcome
    requires t.chain.paid == s.chain.paid + if ok && op.RfqOp? && s.chain.sent[op].quote.Some? then {s.chain.sent[op].quote.value} else {}
    requires op.RfqOp? && s.chain.sent[op].quote.Some? ==>
               s.chain.sent[op].quote.value in s.ix.quotes && s.ix.quotes[s.chain.sent[op].quote.value].rfqId == op.r
    ensures History(t)
  {
  }

  /** A sent RFQ names its stored winner. */
  lemma SentNames(s: State, r: RfqId)
    requires r in s.ix.rfqs && RfqHere(s, r) && RfqOp(r) in s.chain.sent
    requires forall q :: q in s.ix.quotes ==> s.ix.quotes[q].id == q
    ensures HasWinner(s, r) && s.chain.sent[RfqOp(r)] == RfqPayload(s, r) && WinnerQuote(s, r).rfqId == r
    ensures s.chain.sent[RfqOp(r)].quote == Some(WinnerId(s, r))
  {
    hide ReservedAt, SectionOk, ReconOk;
  }

  lemma KeepMine(s: State, op: OpId, ok: bool, debit: nat, taker: int)
    requires Control(s) && CanMine(s, op, ok, debit)
    ensures Control(Mine(s, op, ok, debit, taker))
  {
    var t := Mine(s, op, ok, debit, taker);
    Unfold(s, if op.RfqOp? then op.r else 0);
    assert Known(s, op) by { hide Control, RfqHere, Books, QueueOk, Orphans, Exclusive; }
    KeyedQuotes(s);
    MineMoves(s, op, ok, debit, taker);
    hide RfqHere, WithdrawalHere, Books, History, QueueOk, Orphans, Exclusive, Mine;
    match op {
      case RfqOp(r) =>
        hide Control, ChainMoves;
        SentNames(s, r);
        assert t == s.(chain := t.chain) && t.chain.sent == s.chain.sent by { MovesOnly(s, t, op); }
        MineRfqHere(s, t, r, ok);
      case WdOp(w) =>
        assert WithdrawalHere(s, w);
        hide Control, ChainMoves;
        assert t == s.(chain := t.chain) && t.chain.sent == s.chain.sent by { MovesOnly(s, t, op); }
        MineWithdrawalHere(s, t, w, ok);
    }
    hide Control, ChainMoves;
    MineHistory(s, t, op, ok);
    KeepChainMove(s, t, op);
  }

  lemma MovesOnly(s: State, t: State, op: OpId)
    requires ChainMoves(s, t, op)
    ensures t == s.(chain := t.chain) && t.chain.sent == s.chain.sent
  {
  }

  lemma KeepBurn(s: State, op: OpId)
    requires Control(s)
    ensures Control(Burn(s, op))
  {
    hide Control;
    KeepQuietMove(s, Burn(s, op), op);
  }

  lemma KeepTick(s: State, time: int)
    requires Control(s) && time >= s.chain.time
    ensures Control(Tick(s, time))
  {
    hide Control;
    KeepQuietMove(s, Tick(s, time), RfqOp(0));
  }

  lemma KeepDeposit(s: State, a: Account, amount: nat)
    requires Control(s)
    ensures Control(s.(chain := Credit(s.chain, a, amount)))
  {
    hide Control;
    KeepQuietMove(s, s.(chain := Credit(s.chain, a, amount)), RfqOp(0));
  }
}
