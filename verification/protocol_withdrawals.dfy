/** Withdrawals keep the control invariant. */
module ProtocolWithdrawals {
  import opened Types
  import opened RfqIndex
  import opened Protocol
  import opened ProtocolInvariant
  import opened ProtocolFrame

  /** Only withdrawal w, the latch set and the write queue may have changed. */
  ghost predicate Touches(s: State, t: State, w: WId) {
    && t == s.(wds := t.wds, wsubs := t.wsubs, claims := t.claims, wrecovering := t.wrecovering, queue := t.queue, latches := t.latches)
    && w in t.wds && t.wds.Keys == s.wds.Keys + {w}
    && t.wsubs.Keys <= s.wsubs.Keys + {w} && t.claims <= s.claims + {w} && t.wrecovering <= s.wrecovering
    && (w in s.wds ==> t.wds[w] == s.wds[w].(status := t.wds[w].status))
    && (forall x :: x != w ==> SameAt(s.wds, t.wds, x) && SameAt(s.wsubs, t.wsubs, x))
    && (forall x :: x != w ==> (x in s.claims <==> x in t.claims) && (x in s.wrecovering <==> x in t.wrecovering))
    && (forall o :: o != WdOp(w) ==> (s.queue == Some(o) <==> t.queue == Some(o)))
    && (forall o :: o != WdOp(w) && OpLatch(o) in s.latches ==> OpLatch(o) in t.latches)
    && (Traffic(s) ==> Traffic(t))
  }

  /** The submission of w takes no account lock. */
  predicate TakesNone(s: State, t: State, w: WId) {
    w in t.wsubs && !t.wsubs[w].Waiting? ==> w in s.wsubs && !s.wsubs[w].Waiting? && w in s.wds
  }

  lemma TouchStep(s: State, t: State, w: WId)
    requires Touches(s, t, w)
    ensures WithdrawalStep_(s, t, w)
  {
  }

  lemma TouchBooks(s: State, t: State, w: WId)
    requires Touches(s, t, w) && Books(s)
    ensures Books(t)
  {
    hide WellFormed;
  }

  lemma TouchHistory(s: State, t: State, w: WId)
    requires Touches(s, t, w) && History(s)
    ensures History(t)
  {
    KeepHistory(s, t);
  }

  lemma TouchOrphans(s: State, t: State, w: WId)
    requires Touches(s, t, w) && Orphans(s)
    ensures Orphans(t)
  {
    forall q | q in t.reservations && q !in t.ix.quotes ensures exists r :: ReleasePending(t, r, q) {
      var r :| ReleasePending(s, r, q);
      assert ReleasePending(t, r, q);
    }
  }

  lemma TouchExclusive(s: State, t: State, w: WId)
    requires Touches(s, t, w) && Exclusive(s) && TakesNone(s, t, w)
    ensures Exclusive(t)
  {
    assert t.sections == s.sections;
    forall x | x in t.wsubs && !t.wsubs[x].Waiting? ensures x in s.wsubs && !s.wsubs[x].Waiting? {
      if x != w { assert SameAt(s.wsubs, t.wsubs, x); }
    }
    forall x | x in s.wds ensures x in t.wds && t.wds[x].account == s.wds[x].account {
      if x != w { assert SameAt(s.wds, t.wds, x); }
    }
    hide SameAt, Holds, Exclusive;
    KeepExclusive(s, t);
  }

  lemma KeepTouchTaking(s: State, t: State, w: WId)
    requires Control(s) && Touches(s, t, w) && Exclusive(t) && QueueOk(t)
    requires w in t.wds && WithdrawalHere(t, w)
    ensures Control(t)
  {
    Unfold(s, 0);
    hide *;
    TouchStep(s, t, w);
    TouchBooks(s, t, w);
    TouchHistory(s, t, w);
    TouchOrphans(s, t, w);
    Fold(t);
    KeepWithdrawalStep(s, t, w);
  }

  /** What a step of a withdrawal has to show. */
  ghost predicate Touched(s: State, t: State, w: WId) {
    Touches(s, t, w) && TakesNone(s, t, w) && QueueOk(t) && w in t.wds && WithdrawalHere(t, w)
  }

  lemma KeepTouched(s: State, t: State, w: WId)
    requires Control(s) && Touched(s, t, w)
    ensures Control(t)
  {
    Unfold(s, 0);
    hide Control, Touches, Exclusive, QueueOk, WithdrawalHere, TakesNone;
    TouchExclusive(s, t, w);
    KeepTouchTaking(s, t, w);
  }

  lemma Here(s: State, w: WId)
    requires Control(s) && w in s.wds
    ensures WithdrawalHere(s, w) && QueueOk(s)
  {
    hide RfqHere, WithdrawalHere, Books, History, QueueOk, Orphans, Exclusive;
  }

  lemma Unsubmitted(s: State, w: WId)
    requires Control(s) && w !in s.wds
    ensures w !in s.wsubs && w !in s.claims && w !in s.wrecovering && WdOp(w) !in s.chain.sent && QueueOk(s)
  {
    hide RfqHere, WithdrawalHere, QueueOk, Orphans, Exclusive, WellFormed;
    assert !Known(s, WdOp(w));
  }

  lemma Claimed(s: State, w: WId)
    requires Control(s) && (w in s.claims || w in s.wsubs || w in s.wrecovering)
    ensures w in s.wds
  {
    hide RfqHere, WithdrawalHere, History, QueueOk, Orphans, Exclusive, WellFormed;
  }
  lemma PrepareHere(s: State, w: WId, wd: Withdrawal)
    requires CanPrepare(s, w, wd) && QueueOk(s)
    requires w !in s.wsubs && w !in s.claims && WdOp(w) !in s.chain.sent
    ensures Touched(s, Prepare(s, w, wd), w)
  {
  }

  lemma KeepPrepare(s: State, w: WId, wd: Withdrawal)
    requires Control(s) && CanPrepare(s, w, wd)
    ensures Control(Prepare(s, w, wd))
  {
    Unsubmitted(s, w);
    hide Control, QueueOk, Touched;
    PrepareHere(s, w, wd);
    KeepTouched(s, Prepare(s, w, wd), w);
  }

  lemma ClaimHere(s: State, w: WId)
    requires CanClaim(s, w) && w in s.wds && WithdrawalHere(s, w) && QueueOk(s)
    ensures Touched(s, Claim(s, w), w)
  {
  }

  lemma KeepClaim(s: State, w: WId)
    requires Control(s) && CanClaim(s, w)
    ensures Control(Claim(s, w))
  {
    Here(s, w);
    hide Control, WithdrawalHere, QueueOk, Touched;
    ClaimHere(s, w);
    KeepTouched(s, Claim(s, w), w);
  }

  lemma UnclaimHere(s: State, w: WId)
    requires CanUnclaim(s, w) && w in s.wds && WithdrawalHere(s, w) && QueueOk(s)
    ensures Touched(s, Unclaim(s, w), w)
  {
  }

  lemma KeepUnclaim(s: State, w: WId)
    requires Control(s) && CanUnclaim(s, w)
    ensures Control(Unclaim(s, w))
  {
    Claimed(s, w);
    Here(s, w);
    hide Control, WithdrawalHere, QueueOk, Touched;
    UnclaimHere(s, w);
    KeepTouched(s, Unclaim(s, w), w);
  }

  lemma WExpireHere(s: State, w: WId)
    requires CanWExpire(s, w) && w in s.wds && WithdrawalHere(s, w) && QueueOk(s)
    ensures Touched(s, WExpire(s, w), w)
  {
  }

  lemma KeepWExpire(s: State, w: WId)
    requires Control(s) && CanWExpire(s, w)
    ensures Control(WExpire(s, w))
  {
    Here(s, w);
    hide Control, WithdrawalHere, QueueOk, Touched;
    WExpireHere(s, w);
    KeepTouched(s, WExpire(s, w), w);
  }

  lemma SubmitHere(s: State, w: WId)
    requires CanSubmit(s, w) && w in s.wds && WithdrawalHere(s, w) && QueueOk(s)
    ensures Touched(s, Submit(s, w), w)
  {
  }

  lemma KeepSubmit(s: State, w: WId)
    requires Control(s) && CanSubmit(s, w)
    ensures Control(Submit(s, w))
  {
    Here(s, w);
    hide Control, WithdrawalHere, QueueOk, Touched;
    SubmitHere(s, w);
    KeepTouched(s, Submit(s, w), w);
  }

  lemma FindBurnedHere(s: State, w: WId)
    requires CanFindBurned(s, w) && w in s.wds && WithdrawalHere(s, w) && QueueOk(s)
    ensures Touched(s, FindBurned(s, w), w)
  {
  }

  lemma KeepFindBurned(s: State, w: WId)
    requires Control(s) && CanFindBurned(s, w)
    ensures Control(FindBurned(s, w))
  {
    Here(s, w);
    hide Control, WithdrawalHere, QueueOk, Touched;
    FindBurnedHere(s, w);
    KeepTouched(s, FindBurned(s, w), w);
  }

  lemma WRefuseHere(s: State, w: WId)
    requires CanWRefuse(s, w) && w in s.wds && WithdrawalHere(s, w) && QueueOk(s)
    ensures Touched(s, WRefuse(s, w), w)
  {
  }

  lemma KeepWRefuse(s: State, w: WId)
    requires Control(s) && CanWRefuse(s, w)
    ensures Control(WRefuse(s, w))
  {
    Here(s, w);
    hide Control, WithdrawalHere, QueueOk, Touched;
    WRefuseHere(s, w);
    KeepTouched(s, WRefuse(s, w), w);
  }

  lemma SnapshotHere(s: State, w: WId)
    requires CanSnapshot(s, w) && w in s.wds && WithdrawalHere(s, w) && QueueOk(s)
    ensures Touched(s, Snapshot(s, w), w)
  {
  }

  lemma KeepSnapshot(s: State, w: WId)
    requires Control(s) && CanSnapshot(s, w)
    ensures Control(Snapshot(s, w))
  {
    Here(s, w);
    hide Control, WithdrawalHere, QueueOk, Touched;
    SnapshotHere(s, w);
    KeepTouched(s, Snapshot(s, w), w);
  }

  lemma CheckHere(s: State, w: WId)
    requires CanCheck(s, w) && w in s.wds && WithdrawalHere(s, w) && QueueOk(s)
    ensures Touched(s, AtWPc(s, w, Checked), w)
  {
  }

  lemma KeepCheck(s: State, w: WId)
    requires Control(s) && CanCheck(s, w)
    ensures Control(AtWPc(s, w, Checked))
  {
    Here(s, w);
    hide Control, WithdrawalHere, QueueOk, Touched;
    CheckHere(s, w);
    KeepTouched(s, AtWPc(s, w, Checked), w);
  }

  lemma RejectHere(s: State, w: WId)
    requires CanReject(s, w) && w in s.wds && WithdrawalHere(s, w) && QueueOk(s)
    ensures Touched(s, Reject(s, w), w)
  {
  }

  lemma KeepReject(s: State, w: WId)
    requires Control(s) && CanReject(s, w)
    ensures Control(Reject(s, w))
  {
    Here(s, w);
    hide Control, WithdrawalHere, QueueOk, Touched;
    RejectHere(s, w);
    KeepTouched(s, Reject(s, w), w);
  }

  lemma WHashHere(s: State, w: WId)
    requires CanWHash(s, w) && w in s.wds && WithdrawalHere(s, w) && QueueOk(s)
    ensures Touched(s, WHash(s, w), w)
  {
  }

  lemma KeepWHash(s: State, w: WId)
    requires Control(s) && CanWHash(s, w)
    ensures Control(WHash(s, w))
  {
    Here(s, w);
    hide Control, WithdrawalHere, QueueOk, Touched;
    WHashHere(s, w);
    KeepTouched(s, WHash(s, w), w);
  }

  lemma WLoseHere(s: State, w: WId)
    requires CanWLose(s, w) && w in s.wds && WithdrawalHere(s, w) && QueueOk(s)
    ensures Touched(s, WLose(s, w), w)
  {
  }

  lemma KeepWLose(s: State, w: WId)
    requires Control(s) && CanWLose(s, w)
    ensures Control(WLose(s, w))
  {
    Here(s, w);
    hide Control, WithdrawalHere, QueueOk, Touched;
    WLoseHere(s, w);
    KeepTouched(s, WLose(s, w), w);
  }

  lemma WReceiveHere(s: State, w: WId)
    requires CanWReceive(s, w) && w in s.wds && WithdrawalHere(s, w) && QueueOk(s)
    ensures Touched(s, WReceive(s, w), w)
  {
  }

  lemma KeepWReceive(s: State, w: WId)
    requires Control(s) && CanWReceive(s, w)
    ensures Control(WReceive(s, w))
  {
    Here(s, w);
    hide Control, WithdrawalHere, QueueOk, Touched;
    WReceiveHere(s, w);
    KeepTouched(s, WReceive(s, w), w);
  }

  lemma WSettleHere(s: State, w: WId)
    requires CanWSettle(s, w) && w in s.wds && WithdrawalHere(s, w) && QueueOk(s)
    ensures Touched(s, WSettle(s, w), w)
  {
  }

  lemma KeepWSettle(s: State, w: WId)
    requires Control(s) && CanWSettle(s, w)
    ensures Control(WSettle(s, w))
  {
    Here(s, w);
    hide Control, WithdrawalHere, QueueOk, Touched;
    WSettleHere(s, w);
    KeepTouched(s, WSettle(s, w), w);
  }

  lemma WClearHere(s: State, w: WId)
    requires CanWClear(s, w) && w in s.wds && WithdrawalHere(s, w) && QueueOk(s)
    ensures Touched(s, WClear(s, w), w)
  {
  }

  lemma KeepWClear(s: State, w: WId)
    requires Control(s) && CanWClear(s, w)
    ensures Control(WClear(s, w))
  {
    Here(s, w);
    hide Control, WithdrawalHere, QueueOk, Touched;
    WClearHere(s, w);
    KeepTouched(s, WClear(s, w), w);
  }

  /** Every branch sets the status of w and touches no latch but its own and the shared one. */
  lemma ReconcileShape(s: State, w: WId, look: Look)
    requires CanWReconcile(s, w, look)
    ensures var t := WReconcile(s, w, look);
            && w in t.wds && s.latches - {OpLatch(WdOp(w)), UnknownBroadcast} <= t.latches
            && t == s.(wds := s.wds[w := s.wds[w].(status := t.wds[w].status)], wrecovering := s.wrecovering - {w}, latches := t.latches)
  {
  }

  lemma ReconcileMoves(s: State, w: WId, look: Look)
    requires CanWReconcile(s, w, look)
    ensures Touches(s, WReconcile(s, w, look), w) && TakesNone(s, WReconcile(s, w, look), w)
  {
    hide WReconcile;
    ReconcileShape(s, w, look);
  }

  lemma ReconcileQueue(s: State, w: WId, look: Look)
    requires CanWReconcile(s, w, look) && QueueOk(s)
    ensures QueueOk(WReconcile(s, w, look))
  {
    hide WReconcile;
    ReconcileShape(s, w, look);
  }

  lemma ReconcileSettled(s: State, w: WId, look: Look)
    requires CanWReconcile(s, w, look) && WithdrawalHere(s, w)
    requires look.receipt && (s.wds[w].status == WSubmitted || look.found)
    ensures w in WReconcile(s, w, look).wds && WithdrawalHere(WReconcile(s, w, look), w)
  {
  }

  lemma ReconcilePending(s: State, w: WId, look: Look)
    requires CanWReconcile(s, w, look) && WithdrawalHere(s, w)
    requires !look.receipt && (s.wds[w].status == WSubmitted || look.found)
    ensures w in WReconcile(s, w, look).wds && WithdrawalHere(WReconcile(s, w, look), w)
  {
  }

  lemma ReconcileExpired(s: State, w: WId, look: Look)
    requires CanWReconcile(s, w, look) && WithdrawalHere(s, w)
    requires s.wds[w].status != WSubmitted && !look.found
    requires !NonceUsed(s.chain, WdOp(w)) && s.chain.time > s.wds[w].expiry
    ensures w in WReconcile(s, w, look).wds && WithdrawalHere(WReconcile(s, w, look), w)
  {
  }

  lemma ReconcileUnknown(s: State, w: WId, look: Look)
    requires CanWReconcile(s, w, look) && WithdrawalHere(s, w)
    requires s.wds[w].status != WSubmitted && !look.found
    requires NonceUsed(s.chain, WdOp(w)) || s.chain.time <= s.wds[w].expiry
    ensures w in WReconcile(s, w, look).wds && WithdrawalHere(WReconcile(s, w, look), w)
  {
  }

  lemma WReconcileHere(s: State, w: WId, look: Look)
    requires CanWReconcile(s, w, look) && WithdrawalHere(s, w) && QueueOk(s)
    ensures Touched(s, WReconcile(s, w, look), w)
  {
    hide WithdrawalHere, QueueOk, Touches, TakesNone, WReconcile;
    ReconcileMoves(s, w, look);
    ReconcileQueue(s, w, look);
    if s.wds[w].status == WSubmitted || look.found {
      if look.receipt { ReconcileSettled(s, w, look); } else { ReconcilePending(s, w, look); }
    } else if !NonceUsed(s.chain, WdOp(w)) && s.chain.time > s.wds[w].expiry {
      ReconcileExpired(s, w, look);
    } else {
      ReconcileUnknown(s, w, look);
    }
  }

  lemma KeepWReconcile(s: State, w: WId, look: Look)
    requires Control(s) && CanWReconcile(s, w, look)
    ensures Control(WReconcile(s, w, look))
  {
    Here(s, w);
    hide Control, WithdrawalHere, QueueOk, Touched;
    WReconcileHere(s, w, look);
    KeepTouched(s, WReconcile(s, w, look), w);
  }

  lemma WSkipHere(s: State, w: WId)
    requires CanWSkip(s, w) && w in s.wds && WithdrawalHere(s, w) && QueueOk(s)
    ensures Touched(s, WSkip(s, w), w)
  {
  }

  lemma KeepWSkip(s: State, w: WId)
    requires Control(s) && CanWSkip(s, w)
    ensures Control(WSkip(s, w))
  {
    Here(s, w);
    hide Control, WithdrawalHere, QueueOk, Touched;
    WSkipHere(s, w);
    KeepTouched(s, WSkip(s, w), w);
  }

  // ------------------------------------------------------------------ taking the lock, entering the queue, broadcasting

  lemma WLockHere(s: State, w: WId)
    requires CanWLock(s, w) && WithdrawalHere(s, w) && QueueOk(s)
    ensures Touches(s, AtWPc(s, w, Locked), w) && QueueOk(AtWPc(s, w, Locked)) && WithdrawalHere(AtWPc(s, w, Locked), w)
  {
  }

  lemma WLockTakes(s: State, w: WId)
    requires CanWLock(s, w) && Exclusive(s)
    ensures Exclusive(AtWPc(s, w, Locked))
  {
    hide Holds;
  }

  lemma KeepWLock(s: State, w: WId)
    requires Control(s) && CanWLock(s, w)
    ensures Control(AtWPc(s, w, Locked))
  {
    Here(s, w);
    Unfold(s, 0);
    hide Control, WithdrawalHere, QueueOk, Touches, Exclusive;
    WLockHere(s, w);
    WLockTakes(s, w);
    KeepTouchTaking(s, AtWPc(s, w, Locked), w);
  }

  lemma WEnterHere(s: State, w: WId)
    requires CanWEnter(s, w) && WithdrawalHere(s, w)
    requires forall op :: op in s.chain.sent ==> Resolved(s.chain, op)
    ensures Touched(s, WEnter(s, w), w)
  {
    var t := WEnter(s, w);
    assert forall op :: op in t.chain.sent ==> Resolved(t.chain, op);
    hide Resolved;
  }

  lemma KeepWEnter(s: State, w: WId)
    requires Control(s) && CanWEnter(s, w)
    ensures Control(WEnter(s, w))
  {
    Here(s, w);
    SubmittedInTraffic(s, w);
    hide Control, WithdrawalHere, QueueOk, Touched;
    AllSettled(s);
    WEnterHere(s, w);
    KeepTouched(s, WEnter(s, w), w);
  }

  lemma SubmittedInTraffic(s: State, w: WId)
    requires w in s.wds && WithdrawalHere(s, w) && w in s.wsubs
    ensures Traffic(s)
  {
  }

  lemma WBroadcastHere(s: State, w: WId)
    requires CanWBroadcast(s, w) && WithdrawalHere(s, w) && QueueOk(s)
    ensures WithdrawalStep_(s, WBroadcast(s, w), w) && QueueOk(WBroadcast(s, w)) && WithdrawalHere(WBroadcast(s, w), w)
    ensures WdOp(w) !in s.chain.sent
  {
    hide ExecutedData;
    var t := WBroadcast(s, w);
    var wd := s.wds[w];
    RecordKeepsData(s, WdOp(w), Payload(wd.account, wd.debit, wd.expiry, wd.expiry, None, None));
    forall op | op in t.chain.sent && op != WdOp(w) ensures Resolved(t.chain, op) { assert Resolved(s.chain, op); }
  }

  lemma WBroadcastGlobals(s: State, w: WId)
    requires CanWBroadcast(s, w) && Books(s) && Orphans(s) && Exclusive(s)
    ensures Books(WBroadcast(s, w)) && Orphans(WBroadcast(s, w)) && Exclusive(WBroadcast(s, w))
  {
    var t := WBroadcast(s, w);
    hide WellFormed;
    assert Books(t) by { hide Orphans, Exclusive; }
    assert Exclusive(t) by { hide Books, Orphans, Holds; KeepExclusive(s, t); }
    assert Orphans(t) by {
      hide Books, Exclusive;
      assert forall r, q :: ReleasePending(t, r, q) == ReleasePending(s, r, q);
    }
    hide Books, Orphans, Exclusive;
  }

  lemma KeepWBroadcast(s: State, w: WId)
    requires Control(s) && CanWBroadcast(s, w)
    ensures Control(WBroadcast(s, w))
  {
    var wd := s.wds[w];
    Here(s, w);
    Unfold(s, 0);
    hide Control, WithdrawalHere, QueueOk, Books, History, Orphans, Exclusive, WithdrawalStep_, Globals;
    WBroadcastHere(s, w);
    WBroadcastGlobals(s, w);
    RecordKeepsHistory(s, WBroadcast(s, w), WdOp(w), Payload(wd.account, wd.debit, wd.expiry, wd.expiry, None, None));
    Fold(WBroadcast(s, w));
    KeepWithdrawalStep(s, WBroadcast(s, w), w);
  }
}
