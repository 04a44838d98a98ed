/** No interleaving promises more of a maker's cash than there is. */
module ProtocolSolvency {
  import opened Types
  import opened AuctionCore
  import opened Sums
  import opened Protocol
  import opened ProtocolInvariant
  import opened ProtocolFrame

  /** Obligations shrink and means do not. */
  ghost predicate Eases(s: State, t: State) {
    && (forall a :: Within(Owed(t, a), Owed(s, a)))
    && (forall a :: a !in Takers(t) ==> Cash(t.chain, a) >= Cash(s.chain, a) && Budget(t.chain, a) >= Budget(s.chain, a))
    && Takers(s) <= Takers(t)
    && (forall o :: o in s.chain.outcome ==> o in t.chain.outcome)
  }

  ghost predicate SectionsEase(s: State, t: State) {
    forall r :: r in t.sections ==> (r in s.sections && t.sections[r] == s.sections[r]) || SectionSolvent(t, r)
  }

  ghost predicate SubmissionsEase(s: State, t: State) {
    forall w :: w in t.wsubs ==> w in t.wds && (SameSubmission(s, t, w) || SubmissionSolvent(t, w))
  }

  predicate SameSubmission(s: State, t: State, w: WId)
    requires w in t.wsubs && w in t.wds
  {
    && w in s.wsubs && w in s.wds && t.wsubs[w] == s.wsubs[w]
    && t.wds[w].account == s.wds[w].account && t.wds[w].debit == s.wds[w].debit
  }

  lemma LessOwed(s: State, t: State, a: Account, out: set<QuoteId>)
    requires Within(Owed(t, a), Owed(s, a))
    ensures Total(Owed(t, a)) <= Total(Owed(s, a))
    ensures Total(Owed(t, a) - out) <= Total(Owed(s, a) - out)
  {
    TotalWithin(Owed(t, a), Owed(s, a));
    assert Within(Owed(t, a) - out, Owed(s, a) - out);
    TotalWithin(Owed(t, a) - out, Owed(s, a) - out);
  }

  lemma EasedSection(s: State, t: State, r: RfqId)
    requires Eases(s, t) && r in s.sections && r in t.sections && t.sections[r] == s.sections[r] && SectionSolvent(s, r)
    ensures SectionSolvent(t, r)
  {
    hide Owed;
    match s.sections[r]
    case Quoting(_, sub, priors, _) => LessOwed(s, t, sub, Toset(priors));
    case Validated(draft, todo) => LessOwed(s, t, draft.makerSubaccountId, Toset(todo));
    case Dropping(draft, _, todo) => LessOwed(s, t, draft.makerSubaccountId, Toset(todo));
    case _ =>
  }

  lemma EasedSubmission(s: State, t: State, w: WId)
    requires Eases(s, t) && w in s.wsubs && w in s.wds && w in t.wsubs && w in t.wds
    requires t.wsubs[w] == s.wsubs[w] && t.wds[w].account == s.wds[w].account && t.wds[w].debit == s.wds[w].debit
    requires SubmissionSolvent(s, w)
    ensures SubmissionSolvent(t, w)
  {
    hide Owed;
    LessOwed(s, t, s.wds[w].account, {});
  }

  lemma KeepSolvent(s: State, t: State)
    requires Solvent(s) && Eases(s, t) && SectionsEase(s, t) && SubmissionsEase(s, t)
    ensures Solvent(t)
  {
    hide Owed, Takers, SectionSolvent, SubmissionSolvent;
    forall a | a !in Takers(t) ensures Total(Owed(t, a)) <= Budget(t.chain, a) { LessOwed(s, t, a, {}); }
    forall r | r in t.sections ensures SectionSolvent(t, r) {
      if !SectionSolvent(t, r) { EasedSection(s, t, r); }
    }
    forall w | w in t.wsubs ensures SubmissionSolvent(t, w) {
      if !SubmissionSolvent(t, w) { EasedSubmission(s, t, w); }
    }
  }

  /** Quotes may go, and none comes to life. */
  lemma FewerLive(s: State, t: State)
    requires forall q :: q in t.ix.quotes && Live(t.ix, q) ==> q in s.ix.quotes && s.ix.quotes[q] == t.ix.quotes[q] && Live(s.ix, q)
    requires s.chain.paid <= t.chain.paid
    ensures forall a :: Within(Owed(t, a), Owed(s, a))
  {
  }

  // ------------------------------------------------------------------ RFQ handlers

  /** The record of r may change, but its taker and its live quotes do not grow. */
  ghost predicate RecordEases(s: State, t: State, r: RfqId) {
    && t.chain == s.chain && t.ix.quotes == s.ix.quotes && r in s.ix.rfqs && r in t.ix.rfqs
    && t.ix.rfqs == s.ix.rfqs[r := t.ix.rfqs[r]]
    && t.ix.rfqs[r].takerSubaccountId == s.ix.rfqs[r].takerSubaccountId
    && (forall q :: q in s.ix.quotes && s.ix.quotes[q].rfqId == r && Live(t.ix, q) ==> Live(s.ix, q))
  }

  lemma RecordEasing(s: State, t: State, r: RfqId)
    requires RecordEases(s, t, r)
    ensures Eases(s, t)
  {
    assert forall q :: q in t.ix.quotes && Live(t.ix, q) ==> Live(s.ix, q);
    FewerLive(s, t);
    forall x | x in Takers(s) ensures x in Takers(t) {
      var y :| y in s.ix.rfqs && s.ix.rfqs[y].takerSubaccountId == x;
      assert y in t.ix.rfqs && t.ix.rfqs[y].takerSubaccountId == x;
    }
    hide Owed, Live;
  }

  /** A step of a handler that owes nothing of its own. */
  ghost predicate Debtless(s: State, t: State, r: RfqId) {
    && RecordEases(s, t, r) && t.wsubs == s.wsubs && t.wds == s.wds
    && (forall x :: x in t.sections ==>
          (x in s.sections && t.sections[x] == s.sections[x])
          || (x == r && !t.sections[x].Quoting? && !t.sections[x].Validated? && !t.sections[x].Dropping?))
  }

  lemma KeepDebtless(s: State, t: State, r: RfqId)
    requires Solvent(s) && Debtless(s, t, r)
    ensures Solvent(t)
  {
    assert SectionsEase(s, t) by { hide Owed, Live, Takers, Total; }
    assert SubmissionsEase(s, t) by { hide Owed, Live, Takers, Total, SectionSolvent; }
    RecordEasing(s, t, r);
    hide Owed, Live, Takers, RecordEases, SectionsEase, SubmissionsEase, Eases, Solvent;
    KeepSolvent(s, t);
  }

  lemma CommitDebtless(s: State, r: RfqId, intent: Intent)
    requires CanAcceptCommit(s, r, intent) && s.ix.rfqs[r].id == r
    ensures Debtless(s, AcceptCommit(s, r, intent), r)
  {
  }

  lemma RefuseDebtless(s: State, r: RfqId)
    requires CanRefuse(s, r) && SectionOk(s, r) && s.ix.rfqs[r].id == r
    ensures Debtless(s, Refuse(s, r), r)
  {
  }

  lemma ExpireDebtless(s: State, r: RfqId)
    requires CanAcceptEnd(s, r) && r in s.ix.rfqs && s.ix.rfqs[r].id == r
    ensures Debtless(s, AcceptExpire(s, r), r)
  {
  }

  lemma HashDebtless(s: State, r: RfqId, hash: Hash)
    requires CanHash(s, r) && s.ix.rfqs[r].id == r
    ensures Debtless(s, LearnHash(s, r, hash), r)
  {
  }

  lemma LoseDebtless(s: State, r: RfqId)
    requires CanLose(s, r) && s.ix.rfqs[r].id == r
    ensures Debtless(s, Lose(s, r), r)
  {
  }

  lemma SettleDebtless(s: State, r: RfqId, hash: Hash)
    requires CanSettle(s, r) && s.ix.rfqs[r].id == r
    ensures Debtless(s, Settle(s, r, hash), r)
  {
  }

  lemma ReconPutDebtless(s: State, r: RfqId, hash: Hash)
    requires CanReconPut(s, r) && s.ix.rfqs[r].id == r
    ensures Debtless(s, ReconPut(s, r, hash), r)
  {
    var t := ReconPut(s, r, hash);
    assert t.sections == s.sections && t.wsubs == s.wsubs && t.wds == s.wds;
    assert RecordEases(s, t, r) by {
      TerminalEases(s, t, r);
    }
    hide RecordEases, ReconPut;
  }

  /** A terminal record leaves no quote of its RFQ live. */
  lemma TerminalEases(s: State, t: State, r: RfqId)
    requires r in s.ix.rfqs && r in t.ix.rfqs && t.chain == s.chain && t.ix.quotes == s.ix.quotes
    requires t.ix.rfqs == s.ix.rfqs[r := t.ix.rfqs[r]] && Terminal(t.ix.rfqs[r].status)
    requires t.ix.rfqs[r].takerSubaccountId == s.ix.rfqs[r].takerSubaccountId
    ensures RecordEases(s, t, r)
  {
  }

  /** Steps that leave the records alone. */
  lemma IdleDebtless(s: State, t: State, r: RfqId)
    requires t.ix == s.ix && t.chain == s.chain && t.wsubs == s.wsubs && t.wds == s.wds && r in s.ix.rfqs
    requires forall x :: x in t.sections ==>
               (x in s.sections && t.sections[x] == s.sections[x])
               || (x == r && !t.sections[x].Quoting? && !t.sections[x].Validated? && !t.sections[x].Dropping?)
    ensures Debtless(s, t, r)
  {
    assert s.ix.rfqs[r := s.ix.rfqs[r]] == s.ix.rfqs;
  }

  /** The broadcast itself costs nothing yet. */
  lemma BroadcastSolvent(s: State, r: RfqId)
    requires Solvent(s) && CanBroadcast(s, r)
    ensures Solvent(Broadcast(s, r))
  {
    var t := Broadcast(s, r);
    assert t.ix == s.ix && t.wsubs == s.wsubs && t.wds == s.wds && t.chain.cash == s.chain.cash && t.chain.leaked == s.chain.leaked;
    assert t.chain.outcome == s.chain.outcome && t.chain.paid == s.chain.paid;
    assert forall x :: x in t.sections ==> (x in s.sections && t.sections[x] == s.sections[x]) || t.sections[x].Sent?;
    hide Broadcast, Eases, Solvent, SectionsEase, SubmissionsEase;
    SameMeans(s, t);
    SentOwesNothing(s, t);
    SameSubmissions(s, t);
    KeepSolvent(s, t);
  }

  lemma SameMeans(s: State, t: State)
    requires t.ix == s.ix && t.chain.cash == s.chain.cash && t.chain.leaked == s.chain.leaked
    requires t.chain.outcome == s.chain.outcome && t.chain.paid == s.chain.paid
    ensures Eases(s, t)
  {
    FewerLive(s, t);
    assert Takers(t) == Takers(s);
    hide Owed, Takers;
  }

  lemma SentOwesNothing(s: State, t: State)
    requires forall x :: x in t.sections ==> (x in s.sections && t.sections[x] == s.sections[x]) || t.sections[x].Sent?
    ensures SectionsEase(s, t)
  {
    hide Room, Owed, Total;
  }

  lemma SameSubmissions(s: State, t: State)
    requires Solvent(s) && t.wsubs == s.wsubs && t.wds == s.wds
    ensures SubmissionsEase(s, t)
  {
    hide SectionSolvent, SubmissionSolvent, Owed, Takers, Total;
  }

  lemma ExecutionSolvent(s: State, step: ExecutionStep)
    requires Control(s) && Solvent(s) && ExecutionEnabled(s, step)
    ensures Solvent(ExecutionApply(s, step))
  {
    var t := ExecutionApply(s, step);
    match step {
      case SBroadcast(r) =>
        hide *;
        ExecutionIsBroadcast(s, r);
        BroadcastSolvent(s, r);
      case _ =>
        ExecutionDebtless(s, step);
        hide Control, Solvent, Debtless, ExecutionApply, ExecutionEnabled;
        KeepDebtless(s, t, step.r);
    }
  }

  lemma ExecutionIsBroadcast(s: State, r: RfqId)
    requires ExecutionEnabled(s, SBroadcast(r))
    ensures CanBroadcast(s, r) && ExecutionApply(s, SBroadcast(r)) == Broadcast(s, r)
  {
  }

  lemma ExecutionDebtless(s: State, step: ExecutionStep)
    requires Control(s) && ExecutionEnabled(s, step) && !step.SBroadcast?
    ensures Debtless(s, ExecutionApply(s, step), step.r)
  {
    hide Control, Debtless, SectionOk;
    InBooks(s, step.r);
    FiledUnder(s, step.r);
    match step
    case SAcceptCommit(r, intent) => CommitDebtless(s, r, intent);
    case SRefuse(r) => SectionAt(s, r); RefuseDebtless(s, r);
    case SAcceptExpire(r) => ExpireDebtless(s, r);
    case SHash(r, hash) => HashDebtless(s, r, hash);
    case SLose(r) => LoseDebtless(s, r);
    case SSettle(r, hash) => SettleDebtless(s, r, hash);
    case SAcceptBegin(r) => IdleDebtless(s, AcceptBegin(s, r), r);
    case SAcceptEnd(r) => IdleDebtless(s, Finish(s, r), r);
    case SReceive(r) => IdleDebtless(s, Receive(s, r), r);
    case SRelease(r) => IdleDebtless(s, Release(s, r), r);
  }

  lemma FiledUnder(s: State, r: RfqId)
    requires Control(s)
    ensures r in s.ix.rfqs ==> s.ix.rfqs[r].id == r
  {
    hide RfqHere, WithdrawalHere, History, QueueOk, Orphans, Exclusive;
  }

  lemma SectionAt(s: State, r: RfqId)
    requires Control(s) && r in s.sections
    ensures SectionOk(s, r)
  {
    InBooks(s, r);
    Unfold(s, r);
    hide Control, SectionOk, RfqOk, ReconOk, RfqLatched, ReservedAt, Globals, Books, History, QueueOk, Orphans,
        Exclusive;
  }
}
