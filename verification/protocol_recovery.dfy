/** Reconciliation, crash and recovery keep the control invariant. */
module ProtocolRecovery {
  import opened Types
  import opened RfqIndex
  import opened AuctionCore
  import opened Protocol
  import opened ProtocolInvariant
  import opened ProtocolFrame

  // ------------------------------------------------------------------ reconciliation

  ghost predicate Reconciled(s: State, t: State, r: RfqId) {
    && Rewrites(s, t, r) && PendingKept(s, t, r) && LocksKept(s, t, r)
    && r in t.ix.rfqs && RfqHere(t, r) && QueueOk(t)
  }

  lemma KeepReconciled(s: State, t: State, r: RfqId)
    requires Control(s) && Reconciled(s, t, r)
    ensures Control(t)
  {
    hide RfqHere, Rewrites, PendingKept, LocksKept, QueueOk, Control;
    KeepRewrite(s, t, r);
  }

  lemma ReconHere(s: State, r: RfqId)
    requires Control(s) && r in s.recons
    ensures r in s.ix.rfqs && RfqHere(s, r) && QueueOk(s) && r !in s.sections && ReconOk(s, r)
  {
    InBooks(s, r);
    Unfold(s, r);
    hide Control, RfqOk, SectionOk, RfqLatched, ReservedAt, Globals, Books, History, QueueOk, Orphans, Exclusive;
  }

  lemma ReconStartHere(s: State, r: RfqId)
    requires CanReconStart(s, r) && RfqHere(s, r) && QueueOk(s)
    ensures Reconciled(s, ReconStart(s, r), r)
  {
    var t := ReconStart(s, r);
    WinnerKept(s, t, r);
    hide WinnerOk;
    assert ReservedAt(t, r) by { RewriteReserved(s, t, r); }
    hide ReservedAt;
  }

  lemma KeepReconStart(s: State, r: RfqId)
    requires Control(s) && CanReconStart(s, r)
    ensures Control(ReconStart(s, r))
  {
    Unfold(s, r);
    hide Control, Reconciled, RfqHere, QueueOk;
    ReconStartHere(s, r);
    KeepReconciled(s, ReconStart(s, r), r);
  }

  lemma AnswerOk(s: State, r: RfqId, answer: Answer)
    requires CanReconAnswer(s, r, answer) && RfqHere(s, r) && r !in s.sections
    requires RfqOp(r) in s.chain.outcome ==> RfqOp(r) in s.chain.sent
    ensures r in s.ix.rfqs && r in s.recons && s.recons[r] == Reading
    ensures ReconOk(ReconAnswer(s, r, answer), r) && RfqOk(ReconAnswer(s, r, answer), r)
  {
    if RfqOp(r) in s.chain.outcome && s.chain.outcome[RfqOp(r)] { OwnData(s, r); }
    WinnerKept(s, ReconAnswer(s, r, answer), r);
    hide ExecutedData, WinnerOk, ReservedAt;
  }

  lemma ReconAnswerHere(s: State, r: RfqId, answer: Answer)
    requires CanReconAnswer(s, r, answer) && RfqHere(s, r) && QueueOk(s) && r !in s.sections
    requires RfqOp(r) in s.chain.outcome ==> RfqOp(r) in s.chain.sent
    ensures Reconciled(s, ReconAnswer(s, r, answer), r)
  {
    hide ExecutedData, RfqOk, CanReconAnswer, ReconOk;
    AnswerOk(s, r, answer);
    var t := ReconAnswer(s, r, answer);
    WinnerKept(s, t, r);
    hide WinnerOk;
    assert ReservedAt(t, r) by { RewriteReserved(s, t, r); }
    hide ReservedAt;
  }

  lemma SentBefore(s: State, r: RfqId)
    requires Control(s)
    ensures RfqOp(r) in s.chain.outcome ==> RfqOp(r) in s.chain.sent
  {
    hide RfqHere, WithdrawalHere, Books, QueueOk, Orphans, Exclusive;
  }

  lemma KeepReconAnswer(s: State, r: RfqId, answer: Answer)
    requires Control(s) && CanReconAnswer(s, r, answer)
    ensures Control(ReconAnswer(s, r, answer))
  {
    ReconHere(s, r);
    SentBefore(s, r);
    hide Control, Reconciled, RfqHere, QueueOk;
    ReconAnswerHere(s, r, answer);
    KeepReconciled(s, ReconAnswer(s, r, answer), r);
  }

  lemma ReconEndHere(s: State, r: RfqId)
    requires CanReconEnd(s, r) && r in s.ix.rfqs && RfqHere(s, r) && QueueOk(s) && r !in s.sections
    ensures Reconciled(s, ReconEnd(s, r), r)
  {
    var t := ReconEnd(s, r);
    WinnerKept(s, t, r);
    hide WinnerOk;
    assert ReservedAt(t, r) by { RewriteReserved(s, t, r); }
    hide ReservedAt;
  }

  lemma KeepReconEnd(s: State, r: RfqId)
    requires Control(s) && CanReconEnd(s, r)
    ensures Control(ReconEnd(s, r))
  {
    ReconHere(s, r);
    hide Control, Reconciled, RfqHere, QueueOk;
    ReconEndHere(s, r);
    KeepReconciled(s, ReconEnd(s, r), r);
  }

  lemma ReconPutMined(s: State, r: RfqId, hash: Hash)
    requires CanReconPut(s, r) && s.recons[r].answer.AnswerMined? && RfqHere(s, r) && QueueOk(s) && r !in s.sections
    ensures Reconciled(s, ReconPut(s, r, hash), r)
  {
    var t := ReconPut(s, r, hash);
    WinnerKept(s, t, r);
    hide WinnerOk;
    assert ReservedAt(t, r) by { RewriteReserved(s, t, r); }
    hide ReservedAt;
  }

  lemma ReconPutUnused(s: State, r: RfqId, hash: Hash)
    requires CanReconPut(s, r) && s.recons[r].answer.AnswerExpiredUnused? && RfqHere(s, r) && QueueOk(s) && r !in s.sections
    ensures Reconciled(s, ReconPut(s, r, hash), r)
  {
    var t := ReconPut(s, r, hash);
    WinnerKept(s, t, r);
    hide WinnerOk;
    assert ReservedAt(t, r) by { RewriteReserved(s, t, r); }
    hide ReservedAt;
  }

  lemma KeepReconPut(s: State, r: RfqId, hash: Hash)
    requires Control(s) && CanReconPut(s, r)
    ensures Control(ReconPut(s, r, hash))
  {
    ReconHere(s, r);
    hide Control, Reconciled, RfqHere, QueueOk;
    if s.recons[r].answer.AnswerMined? { ReconPutMined(s, r, hash); } else { ReconPutUnused(s, r, hash); }
    KeepReconciled(s, ReconPut(s, r, hash), r);
  }

  lemma ReconClearHere(s: State, r: RfqId)
    requires CanReconClear(s, r) && r in s.ix.rfqs && RfqHere(s, r) && QueueOk(s) && r !in s.sections
    ensures Frees(s, ReconClear(s, r), r, s.recons[r].winner) && LocksKept(s, ReconClear(s, r), r)
    ensures s.recons[r].winner in s.ix.quotes ==> s.ix.quotes[s.recons[r].winner].rfqId == r
    ensures RfqHere(ReconClear(s, r), r) && QueueOk(ReconClear(s, r))
  {
    var t := ReconClear(s, r);
    WinnerKept(s, t, r);
    hide WinnerOk;
    assert ReservedAt(t, r) by { FreesReserved(s, t, r, s.recons[r].winner); }
    hide ReservedAt;
  }

  lemma KeepReconClear(s: State, r: RfqId)
    requires Control(s) && CanReconClear(s, r)
    ensures Control(ReconClear(s, r))
  {
    ReconHere(s, r);
    hide Control, RfqHere, QueueOk, Frees, LocksKept;
    ReconClearHere(s, r);
    KeepFrees(s, ReconClear(s, r), r, s.recons[r].winner);
  }

  // ------------------------------------------------------------------ crash

  lemma CrashRfqHere(s: State, r: RfqId)
    requires r in s.ix.rfqs && RfqHere(s, r)
    ensures RfqHere(Crash(s), r)
  {
    var t := Crash(s);
    if HasWinner(s, r) { assert WinnerQuote(t, r) == WinnerQuote(s, r); }
    hide ReservedAt;
    assert ReservedAt(t, r) by { CrashReserved(s, r); }
  }

  lemma CrashReserved(s: State, r: RfqId)
    requires r in s.ix.rfqs
    ensures ReservedAt(Crash(s), r)
  {
  }

  lemma CrashWithdrawalHere(s: State, w: WId)
    requires w in s.wds && WithdrawalHere(s, w)
    ensures WithdrawalHere(Crash(s), w)
  {
  }

  lemma CrashGlobals(s: State)
    requires Books(s) && History(s)
    ensures Books(Crash(s)) && History(Crash(s)) && QueueOk(Crash(s)) && Orphans(Crash(s)) && Exclusive(Crash(s))
  {
    hide WellFormed;
    KeepHistory(s, Crash(s));
  }

  lemma KeepCrash(s: State)
    requires Control(s)
    ensures Control(Crash(s))
  {
    var t := Crash(s);
    hide RfqHere, WithdrawalHere, Books, History, QueueOk, Orphans, Exclusive;
    CrashGlobals(s);
    forall r | r in t.ix.rfqs ensures RfqHere(t, r) { CrashRfqHere(s, r); }
    forall w | w in t.wds ensures WithdrawalHere(t, w) { CrashWithdrawalHere(s, w); }
  }

  // ------------------------------------------------------------------ recovery

  /** Recovering an RFQ installs exactly the reservations its live quotes call for. */
  ghost predicate Restores(s: State, t: State, r: RfqId) {
    && r in s.ix.rfqs && r in s.recovering && r !in s.sections && r !in s.recons
    && t == s.(reservations := t.reservations, recovering := s.recovering - {r}, latches := t.latches, recons := t.recons)
    && (forall q :: q in t.reservations <==> q in s.reservations || (q in s.ix.quotes && s.ix.quotes[q].rfqId == r && Live(s.ix, q)))
    && (forall q :: q in t.reservations ==>
          if q in s.ix.quotes && s.ix.quotes[q].rfqId == r && Live(s.ix, q) then t.reservations[q] == Reserve(s.ix.quotes[q])
          else q in s.reservations && t.reservations[q] == s.reservations[q])
    && if s.ix.rfqs[r].status == Executing
       then t.latches == s.latches + {OpLatch(RfqOp(r))} && t.recons == s.recons[r := Reading]
       else t.latches == s.latches && t.recons == s.recons
  }

  lemma ReserveAllMeans(res: Reservations, ix: Index, r: RfqId)
    requires WellFormed(ix)
    ensures var all := ReserveAll(res, ListQuotes(ix, r));
            && (forall q :: q in all <==> q in res || (q in ix.quotes && ix.quotes[q].rfqId == r))
            && (forall q :: q in all ==>
                  if q in ix.quotes && ix.quotes[q].rfqId == r then all[q] == Reserve(ix.quotes[q])
                  else q in res && all[q] == res[q])
  {
    var quotes := ListQuotes(ix, r);
    ListedQuotes(ix, r);
    forall q | q in ix.quotes && ix.quotes[q].rfqId == r ensures q in IdsMap(quotes) && IdsMap(quotes)[q] == ix.quotes[q] {
      assert ix.quotes[q] in quotes;
    }
    forall q | q in IdsMap(quotes) ensures q in ix.quotes && ix.quotes[q].rfqId == r && IdsMap(quotes)[q] == ix.quotes[q] {
      assert IdsMap(quotes)[q] in quotes;
    }
    hide ListQuotes, WellFormed;
  }

  lemma RecoverOpenMeans(s: State, r: RfqId)
    requires CanRecover(s, r) && WellFormed(s.ix) && r !in s.sections && r !in s.recons && RfqHas(s, r, Open)
    ensures Restores(s, Recover(s, r), r)
  {
    assert forall q :: q in s.ix.quotes && s.ix.quotes[q].rfqId == r ==> Live(s.ix, q);
    hide WellFormed, Live;
    ReserveAllMeans(s.reservations, s.ix, r);
    var t := Recover(s, r);
    assert t == s.(recovering := s.recovering - {r}, reservations := ReserveAll(s.reservations, ListQuotes(s.ix, r)));
    hide ListQuotes, ReserveAll, Recover;
  }

  lemma RecoverMeans(s: State, r: RfqId)
    requires CanRecover(s, r) && WellFormed(s.ix) && RfqOk(s, r) && r !in s.sections && r !in s.recons
    ensures Restores(s, Recover(s, r), r)
  {
    if RfqHas(s, r, Open) {
      hide *;
      RecoverOpenMeans(s, r);
    } else {
      hide ListQuotes, ReserveAll, WellFormed;
      if s.ix.rfqs[r].bestQuoteId.Some? { assert WinnerOk(s, r); }
      hide WinnerOk;
    }
  }

  lemma RestoreHere(s: State, t: State, r: RfqId)
    requires Restores(s, t, r) && RfqHere(s, r)
    ensures RfqHere(t, r)
  {
    WinnerKept(s, t, r);
    hide WinnerOk;
    assert ReservedAt(t, r) by { hide WinnerOk, RfqLatched; }
    hide ReservedAt;
  }

  lemma RestoreStep(s: State, t: State, r: RfqId)
    requires Restores(s, t, r) && QueueOk(s)
    ensures RfqStep(s, t, r) && QueueOk(t)
  {
  }

  lemma RestoreGlobals(s: State, t: State, r: RfqId)
    requires Restores(s, t, r) && Books(s) && History(s) && Orphans(s) && Exclusive(s)
    ensures Books(t) && History(t) && Orphans(t) && Exclusive(t)
  {
    assert Books(t) by { hide WellFormed, Orphans, Exclusive, History; }
    assert Orphans(t) by { hide WellFormed, Exclusive, History; KeepOrphans(s, t, r); }
    assert Exclusive(t) by { hide WellFormed, Orphans, History; KeepExclusive(s, t); }
    assert History(t) by { hide WellFormed, Orphans, Exclusive; KeepHistory(s, t); }
    hide Books, Orphans, Exclusive, History;
  }

  lemma Filed(s: State, r: RfqId)
    requires Books(s) && CanRecover(s, r)
    ensures WellFormed(s.ix) && Recover(s, r).ix == s.ix
  {
    hide WellFormed;
  }

  lemma Idle(s: State, r: RfqId)
    requires r in s.ix.rfqs && RfqHere(s, r) && r in s.recovering
    ensures RfqOk(s, r) && r !in s.sections && r !in s.recons
  {
    hide RfqOk, ReservedAt, RfqLatched;
  }

  lemma KeepRecover(s: State, r: RfqId)
    requires Control(s) && CanRecover(s, r)
    ensures Control(Recover(s, r))
  {
    var t := Recover(s, r);
    Unfold(s, r);
    hide *;
    Filed(s, r);
    Idle(s, r);
    RecoverMeans(s, r);
    RestoreHere(s, t, r);
    RestoreStep(s, t, r);
    RestoreGlobals(s, t, r);
    Fold(t);
    KeepRfqStep(s, t, r);
  }
}
