/** Accepting, broadcasting and settling keep the control invariant. */
module ProtocolExecution {
  import opened Types
  import opened RfqIndex
  import opened Protocol
  import opened ProtocolInvariant
  import opened ProtocolFrame

  /** What a step of an accept handler has to show about its RFQ. */
  ghost predicate Handled(s: State, t: State, r: RfqId) {
    && Rewrites(s, t, r) && PendingKept(s, t, r) && LocksKept(s, t, r)
    && r in t.ix.rfqs && RfqHere(t, r) && QueueOk(t)
  }

  lemma KeepHandled(s: State, t: State, r: RfqId)
    requires Control(s) && Handled(s, t, r)
    ensures Control(t)
  {
    hide RfqHere, Rewrites, PendingKept, LocksKept, QueueOk, Control;
    KeepRewrite(s, t, r);
  }

  lemma RefuseHere(s: State, r: RfqId)
    requires CanRefuse(s, r) && RfqHere(s, r) && QueueOk(s)
    ensures Handled(s, Refuse(s, r), r)
  {
    var t := Refuse(s, r);
    WinnerKept(s, t, r);
    hide WinnerOk;
    assert ReservedAt(t, r) by { RewriteReserved(s, t, r); }
    hide ReservedAt;
  }

  lemma KeepRefuse(s: State, r: RfqId)
    requires Control(s) && CanRefuse(s, r)
    ensures Control(Refuse(s, r))
  {
    Unfold(s, r);
    hide Control, Handled, RfqHere, Books, QueueOk;
    RefuseHere(s, r);
    KeepHandled(s, Refuse(s, r), r);
  }

  lemma AcceptEndHere(s: State, r: RfqId)
    requires CanAcceptEnd(s, r) && r in s.ix.rfqs && r in s.ix.rfqs && RfqHere(s, r) && QueueOk(s)
    ensures Handled(s, Finish(s, r), r)
  {
    var t := Finish(s, r);
    WinnerKept(s, t, r);
    hide WinnerOk;
    assert ReservedAt(t, r) by { RewriteReserved(s, t, r); }
    hide ReservedAt;
  }

  lemma KeepAcceptEnd(s: State, r: RfqId)
    requires Control(s) && CanAcceptEnd(s, r) && r in s.ix.rfqs
    ensures Control(Finish(s, r))
  {
    Unfold(s, r);
    hide Control, Handled, RfqHere, QueueOk;
    AcceptEndHere(s, r);
    KeepHandled(s, Finish(s, r), r);
  }

  lemma AcceptExpireHere(s: State, r: RfqId)
    requires CanAcceptEnd(s, r) && r in s.ix.rfqs && r in s.ix.rfqs && RfqHere(s, r) && QueueOk(s)
    ensures Handled(s, AcceptExpire(s, r), r)
  {
    var t := AcceptExpire(s, r);
    WinnerKept(s, t, r);
    hide WinnerOk;
    assert ReservedAt(t, r) by { RewriteReserved(s, t, r); }
    hide ReservedAt;
  }

  lemma KeepAcceptExpire(s: State, r: RfqId)
    requires Control(s) && CanAcceptEnd(s, r) && r in s.ix.rfqs
    ensures Control(AcceptExpire(s, r))
  {
    Unfold(s, r);
    hide Control, Handled, RfqHere, QueueOk;
    AcceptExpireHere(s, r);
    KeepHandled(s, AcceptExpire(s, r), r);
  }

  lemma AcceptCommitHere(s: State, r: RfqId, intent: Intent)
    requires CanAcceptCommit(s, r, intent) && r in s.ix.rfqs && RfqHere(s, r) && QueueOk(s)
    ensures Handled(s, AcceptCommit(s, r, intent), r)
  {
    var t := AcceptCommit(s, r, intent);
    WinnerKept(s, t, r);
    hide WinnerOk;
    assert ReservedAt(t, r) by { RewriteReserved(s, t, r); }
    hide ReservedAt;
  }

  lemma KeepAcceptCommit(s: State, r: RfqId, intent: Intent)
    requires Control(s) && CanAcceptCommit(s, r, intent)
    ensures Control(AcceptCommit(s, r, intent))
  {
    Unfold(s, r);
    hide Control, Handled, RfqHere, QueueOk;
    AcceptCommitHere(s, r, intent);
    KeepHandled(s, AcceptCommit(s, r, intent), r);
  }

  lemma HashHere(s: State, r: RfqId, hash: Hash)
    requires CanHash(s, r) && r in s.ix.rfqs && RfqHere(s, r) && QueueOk(s)
    ensures Handled(s, LearnHash(s, r, hash), r)
  {
    var t := LearnHash(s, r, hash);
    WinnerKept(s, t, r);
    hide WinnerOk;
    assert ReservedAt(t, r) by { RewriteReserved(s, t, r); }
    hide ReservedAt;
  }

  lemma KeepHash(s: State, r: RfqId, hash: Hash)
    requires Control(s) && CanHash(s, r)
    ensures Control(LearnHash(s, r, hash))
  {
    Unfold(s, r);
    hide Control, Handled, RfqHere, QueueOk;
    HashHere(s, r, hash);
    KeepHandled(s, LearnHash(s, r, hash), r);
  }

  lemma LoseHere(s: State, r: RfqId)
    requires CanLose(s, r) && r in s.ix.rfqs && RfqHere(s, r) && QueueOk(s)
    ensures Handled(s, Lose(s, r), r)
  {
    var t := Lose(s, r);
    WinnerKept(s, t, r);
    hide WinnerOk;
    assert ReservedAt(t, r) by { RewriteReserved(s, t, r); }
    hide ReservedAt;
  }

  lemma KeepLose(s: State, r: RfqId)
    requires Control(s) && CanLose(s, r)
    ensures Control(Lose(s, r))
  {
    Unfold(s, r);
    hide Control, Handled, RfqHere, QueueOk;
    LoseHere(s, r);
    KeepHandled(s, Lose(s, r), r);
  }

  lemma ReceiveHere(s: State, r: RfqId)
    requires CanReceive(s, r) && r in s.ix.rfqs && r in s.ix.rfqs && RfqHere(s, r) && QueueOk(s)
    ensures Handled(s, Receive(s, r), r)
  {
    var t := Receive(s, r);
    WinnerKept(s, t, r);
    hide WinnerOk;
    assert ReservedAt(t, r) by { RewriteReserved(s, t, r); }
    hide ReservedAt;
  }

  lemma KeepReceive(s: State, r: RfqId)
    requires Control(s) && CanReceive(s, r) && r in s.ix.rfqs
    ensures Control(Receive(s, r))
  {
    Unfold(s, r);
    hide Control, Handled, RfqHere, QueueOk;
    ReceiveHere(s, r);
    KeepHandled(s, Receive(s, r), r);
  }

  lemma SettledOk(s: State, r: RfqId, hash: Hash)
    requires CanSettle(s, r) && RfqHere(s, r)
    ensures var t := Settle(s, r, hash);
            r in t.ix.rfqs && t.ix.rfqs[r].id == r && RfqOk(t, r) && r in t.sections && SectionOk(t, r) && r !in t.recons && RfqLatched(t, r)
  {
    if s.sections[r].ok { OwnData(s, r); }
    WinnerKept(s, Settle(s, r, hash), r);
    hide WinnerOk, ExecutedData, ReservedAt;
  }

  lemma SettleMoves(s: State, r: RfqId, hash: Hash)
    requires CanSettle(s, r) && s.ix.rfqs[r].id == r && SectionOk(s, r)
    ensures var t := Settle(s, r, hash);
            && Rewrites(s, t, r) && PendingKept(s, t, r) && LocksKept(s, t, r) && LivesKept(s, t, r)
            && t.recovering == s.recovering
  {
    hide WinnerOk;
  }

  lemma SettleQueue(s: State, r: RfqId, hash: Hash)
    requires CanSettle(s, r) && QueueOk(s)
    ensures QueueOk(Settle(s, r, hash))
  {
  }

  lemma SettleHere(s: State, r: RfqId, hash: Hash)
    requires CanSettle(s, r) && r in s.ix.rfqs && RfqHere(s, r) && QueueOk(s)
    ensures Handled(s, Settle(s, r, hash), r)
  {
    hide RfqOk, SectionOk, ReconOk, RfqLatched, ReservedAt, QueueOk, Rewrites, PendingKept, LocksKept, LivesKept, Settle;
    SettledOk(s, r, hash);
    SettleMoves(s, r, hash);
    SettleQueue(s, r, hash);
    RewriteReserved(s, Settle(s, r, hash), r);
  }

  lemma KeepSettle(s: State, r: RfqId, hash: Hash)
    requires Control(s) && CanSettle(s, r)
    ensures Control(Settle(s, r, hash))
  {
    Unfold(s, r);
    hide Control, Handled, RfqHere, QueueOk;
    SettleHere(s, r, hash);
    KeepHandled(s, Settle(s, r, hash), r);
  }

  lemma AcceptBeginHere(s: State, r: RfqId)
    requires CanAcceptBegin(s, r) && RfqHere(s, r) && QueueOk(s)
    ensures Rewrites(s, AcceptBegin(s, r), r) && PendingKept(s, AcceptBegin(s, r), r)
    ensures RfqHere(AcceptBegin(s, r), r) && QueueOk(AcceptBegin(s, r))
  {
    var t := AcceptBegin(s, r);
    WinnerKept(s, t, r);
    hide WinnerOk;
    assert ReservedAt(t, r) by { RewriteReserved(s, t, r); }
    hide ReservedAt;
  }

  lemma AcceptBeginTakes(s: State, r: RfqId)
    requires CanAcceptBegin(s, r) && Exclusive(s) && s.wsubs.Keys <= s.wds.Keys
    ensures Exclusive(AcceptBegin(s, r))
  {
    hide Exclusive, AccountFree;
    TakeExclusive(s, AcceptBegin(s, r), r);
  }

  lemma KeepAcceptBegin(s: State, r: RfqId)
    requires Control(s) && CanAcceptBegin(s, r)
    ensures Control(AcceptBegin(s, r))
  {
    Unfold(s, r);
    InBooks(s, r);
    hide Control, RfqHere, QueueOk, Rewrites, PendingKept, Exclusive;
    AcceptBeginHere(s, r);
    AcceptBeginTakes(s, r);
    KeepRewriteTaking(s, AcceptBegin(s, r), r);
  }

  lemma ReleaseHere(s: State, r: RfqId)
    requires CanRelease(s, r) && r in s.ix.rfqs && RfqHere(s, r) && QueueOk(s)
    ensures Frees(s, Release(s, r), r, s.sections[r].winner) && LocksKept(s, Release(s, r), r)
    ensures s.sections[r].winner in s.ix.quotes ==> s.ix.quotes[s.sections[r].winner].rfqId == r
    ensures r in Release(s, r).ix.rfqs && RfqHere(Release(s, r), r) && QueueOk(Release(s, r))
  {
    var t := Release(s, r);
    WinnerKept(s, t, r);
    hide WinnerOk;
    assert ReservedAt(t, r) by { FreesReserved(s, t, r, s.sections[r].winner); }
    hide ReservedAt;
  }

  lemma KeepRelease(s: State, r: RfqId)
    requires Control(s) && CanRelease(s, r)
    ensures Control(Release(s, r))
  {
    InBooks(s, r);
    Unfold(s, r);
    hide Control, RfqHere, QueueOk, Frees, LocksKept;
    ReleaseHere(s, r);
    KeepFrees(s, Release(s, r), r, s.sections[r].winner);
  }

  // ------------------------------------------------------------------ the broadcast

  lemma BroadcastHere(s: State, r: RfqId)
    requires CanBroadcast(s, r) && RfqHere(s, r)
    ensures RfqHere(Broadcast(s, r), r)
  {
    var t := Broadcast(s, r);
    assert WinnerQuote(t, r) == WinnerQuote(s, r);
    assert t.ix == s.ix && t.reservations == s.reservations && t.recovering == s.recovering;
    assert ReservedAt(t, r) by {
      assert forall q :: ReleasePending(t, r, q) == ReleasePending(s, r, q);
      assert forall q :: q in s.ix.quotes && s.ix.quotes[q].rfqId == r ==> !ReservePending(s, q);
    }
    hide ReservedAt;
  }

  /** The guard saw no latch, so every earlier broadcast is settled. */
  lemma BroadcastQueue(s: State, r: RfqId)
    requires CanBroadcast(s, r) && Traffic(s)
    requires forall op :: op in s.chain.sent ==> Resolved(s.chain, op)
    ensures QueueOk(Broadcast(s, r))
  {
    hide RfqPayload;
    var t := Broadcast(s, r);
    forall op | op in t.chain.sent && op != RfqOp(r) ensures Resolved(t.chain, op) { assert Resolved(s.chain, op); }
  }

  lemma QueuedInTraffic(s: State, r: RfqId)
    requires r in s.ix.rfqs && RfqHere(s, r) && r in s.sections && s.sections[r].Queued?
    ensures Traffic(s) && RfqOp(r) !in s.chain.sent
  {
    hide ReservedAt, WinnerOk, RfqLatched;
  }

  lemma BroadcastStep(s: State, r: RfqId)
    requires CanBroadcast(s, r) && RfqOp(r) !in s.chain.sent
    ensures RfqStep(s, Broadcast(s, r), r)
  {
    hide ExecutedData;
    RecordKeepsData(s, RfqOp(r), RfqPayload(s, r));
  }

  lemma BroadcastGlobals(s: State, r: RfqId)
    requires CanBroadcast(s, r) && Books(s) && Orphans(s) && Exclusive(s)
    ensures Books(Broadcast(s, r)) && Orphans(Broadcast(s, r)) && Exclusive(Broadcast(s, r))
  {
    var t := Broadcast(s, r);
    assert Orphans(t) by { hide Exclusive, WellFormed; KeepOrphans(s, t, r); }
    assert Exclusive(t) by { hide Orphans, WellFormed; KeepExclusive(s, t); }
    hide Orphans, Exclusive, WellFormed;
  }

  lemma KeepBroadcast(s: State, r: RfqId)
    requires Control(s) && CanBroadcast(s, r)
    ensures Control(Broadcast(s, r))
  {
    Unfold(s, r);
    hide Control, RfqHere, QueueOk, Books, History, Orphans, Exclusive, RfqStep, Globals;
    QueuedInTraffic(s, r);
    BroadcastHere(s, r);
    AllSettled(s);
    BroadcastQueue(s, r);
    BroadcastStep(s, r);
    BroadcastGlobals(s, r);
    RecordKeepsHistory(s, Broadcast(s, r), RfqOp(r), RfqPayload(s, r));
    Fold(Broadcast(s, r));
    KeepRfqStep(s, Broadcast(s, r), r);
  }
}
