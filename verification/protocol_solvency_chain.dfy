/** Solvency through withdrawals and the chain's own moves. */
module ProtocolSolvencyChain {
  import opened Types
  import opened AuctionCore
  import opened Sums
  import opened Protocol
  import opened ProtocolInvariant
  import opened ProtocolFrame
  import opened ProtocolWithdrawals
  import opened ProtocolSolvency
  import opened ProtocolSolvencySteps

  // ------------------------------------------------------------------ withdrawals

  /** The submission of w moves to a place where it is solvent, or stays or ends. */
  ghost predicate Moved(s: State, t: State, w: WId) {
    && t == s.(wds := t.wds, wsubs := t.wsubs, claims := t.claims, wrecovering := t.wrecovering, queue := t.queue, latches := t.latches)
    && (forall x :: x in t.wsubs && x != w ==> x in s.wsubs && t.wsubs[x] == s.wsubs[x])
    && (forall x :: x in s.wds && x != w ==> x in t.wds && t.wds[x] == s.wds[x])
    && (w in t.wsubs ==> w in t.wds && (SameSubmission(s, t, w) || SubmissionSolvent(t, w)))
  }

  lemma KeepMoved(s: State, t: State, w: WId)
    requires Solvent(s) && Moved(s, t, w)
    ensures Solvent(t)
  {
    SameStore(s, t);
    hide Owed, Eases, Takers;
    assert SectionsEase(s, t) && SubmissionsEase(s, t) by { hide SectionSolvent, SubmissionSolvent; }
    hide SectionsEase, SubmissionsEase, Solvent, Moved;
    KeepSolvent(s, t);
  }

  lemma CheckedRoom(s: State, w: WId)
    requires Control(s) && Solvent(s) && CanCheck(s, w)
    ensures var a, debit := s.wds[w].account, s.wds[w].debit;
            a in Takers(s) || debit == 0 || Total(Owed(s, a)) + debit <= Budget(s.chain, a)
  {
    var a := s.wds[w].account;
    CheckFacts(s, w);
    assert SubmissionSolvent(s, w) by { hide Owed, SubmissionSolvent, SectionSolvent, Takers; }
    hide Control, Solvent;
    Covered(s, a, {});
    assert Owed(s, a) - {} == Owed(s, a);
    hide Owed, Total, ReservedFor, Takers;
  }

  lemma CheckMoves(s: State, w: WId)
    requires Control(s) && Solvent(s) && CanCheck(s, w)
    ensures Moved(s, AtWPc(s, w, Checked), w)
  {
    var t := AtWPc(s, w, Checked);
    hide Control, Solvent, ReservedFor;
    CheckedRoom(s, w);
    assert Takers(t) == Takers(s);
    assert Owed(t, s.wds[w].account) == Owed(s, s.wds[w].account);
    hide Owed, Total, Takers;
  }

  lemma CheckFacts(s: State, w: WId)
    requires Control(s) && w in s.wsubs && s.wsubs[w].Snapped? && w in s.wds
    ensures Traffic(s)
    ensures forall r :: r in s.sections && s.sections[r].Stored? ==> s.sections[r].quote.makerSubaccountId != s.wds[w].account
  {
    Unfold(s, 0);
    assert SubmissionOk(s, w) by { hide RfqHere, Globals, Books, History, QueueOk, Orphans, Exclusive, SubmissionOk, WithdrawalOk; }
    hide Control, RfqHere, Globals, Books, History, QueueOk, Orphans;
    forall r | r in s.sections && s.sections[r].Stored? ensures s.sections[r].quote.makerSubaccountId != s.wds[w].account {
      assert s.sections[r].quote.makerSubaccountId in Holds(s.sections[r]);
    }
  }

  lemma SnapshotMoves(s: State, w: WId)
    requires CanSnapshot(s, w)
    ensures Moved(s, Snapshot(s, w), w)
  {
    hide Owed, Takers;
  }

  lemma HashMoves(s: State, w: WId)
    requires CanWHash(s, w) && SubmissionSolvent(s, w)
    ensures Moved(s, WHash(s, w), w)
  {
    SameStore(s, WHash(s, w));
    hide Owed, Total, Eases;
  }

  lemma TouchMoves(s: State, t: State, w: WId)
    requires Touches(s, t, w) && t.wsubs == s.wsubs && s.wsubs.Keys <= s.wds.Keys
    ensures Moved(s, t, w)
  {
    hide SubmissionSolvent;
    forall x | x in s.wds && x != w ensures x in t.wds && t.wds[x] == s.wds[x] { assert SameAt(s.wds, t.wds, x); }
  }

  lemma ReconcileKeepsSubmissions(s: State, w: WId, look: Look)
    requires CanWReconcile(s, w, look)
    ensures WReconcile(s, w, look).wsubs == s.wsubs
  {
  }

  lemma ReconcileMoves(s: State, w: WId, look: Look)
    requires Control(s) && CanWReconcile(s, w, look)
    ensures Moved(s, WReconcile(s, w, look), w)
  {
    Here(s, w);
    InBooks(s, 0);
    hide Control, WithdrawalHere, QueueOk, Touches, WReconcile, Moved;
    WReconcileHere(s, w, look);
    ReconcileKeepsSubmissions(s, w, look);
    TouchMoves(s, WReconcile(s, w, look), w);
  }

  /** The steps that end a submission or move it where nothing is promised. */
  lemma QuietMoves(s: State, step: WithdrawalStep)
    requires WithdrawalEnabled(s, step)
    requires s.wsubs.Keys <= s.wds.Keys
    requires !step.SSnapshot? && !step.SCheck? && !step.SWBroadcast? && !step.SWHash? && !step.SWReconcile?
    ensures Moved(s, WithdrawalApply(s, step), step.w)
  {
    hide Owed, Takers, Total, Cash, Budget, ReservedFor, AccountFree;
  }

  lemma WBroadcastSolvent(s: State, w: WId)
    requires Solvent(s) && CanWBroadcast(s, w)
    ensures Solvent(WBroadcast(s, w))
  {
    var t := WBroadcast(s, w);
    FewerLive(s, t);
    assert forall a :: Owed(t, a) == Owed(s, a);
    assert Takers(t) == Takers(s);
    assert SubmissionSolvent(s, w);
    assert SubmissionSolvent(t, w) by { hide Owed, Total, Takers; }
    hide Owed, Live, Takers, Total;
    assert SectionsEase(s, t) && SubmissionsEase(s, t) by { hide SectionSolvent, SubmissionSolvent; }
    hide SectionsEase, SubmissionsEase, Solvent;
    KeepSolvent(s, t);
  }

  lemma WithdrawalSolvent(s: State, step: WithdrawalStep)
    requires Control(s) && Solvent(s) && WithdrawalEnabled(s, step)
    ensures Solvent(WithdrawalApply(s, step))
  {
    var t := WithdrawalApply(s, step);
    match step {
      case SSnapshot(w) => SnapshotMoves(s, w);
      case SCheck(w) => hide Control, Solvent, Moved; CheckMoves(s, w);
      case SWBroadcast(w) => hide Control, Solvent, WBroadcast; WBroadcastSolvent(s, w);
      case SWHash(w) => hide Control, Moved; HashMoves(s, w);
      case SWReconcile(w, look) => hide Control, Solvent, Moved; ReconcileMoves(s, w, look);
      case _ =>
        hide Solvent, Moved;
        InBooks(s, 0);
        hide Control;
        QuietMoves(s, step);
    }
    hide Control, Solvent, Moved, WithdrawalApply;
    if !step.SWBroadcast? { KeepMoved(s, t, step.w); }
  }

  // ------------------------------------------------------------------ the chain

  /** Cash moves at m and at takers only; nothing new is owed. */
  ghost predicate CashMoves(s: State, t: State, m: Account) {
    && t == s.(chain := t.chain)
    && (forall a :: Within(Owed(t, a), Owed(s, a)))
    && (forall a :: a != m && a !in Takers(s) ==> Cash(t.chain, a) >= Cash(s.chain, a) && Budget(t.chain, a) >= Budget(s.chain, a))
    && (forall o :: o in s.chain.outcome ==> o in t.chain.outcome)
  }

  ghost predicate SolventAt(t: State, m: Account) {
    && (m in Takers(t) || Total(Owed(t, m)) <= Budget(t.chain, m))
    && (forall r :: r in t.sections && m in Holds(t.sections[r]) ==> SectionSolvent(t, r))
    && (forall w :: w in t.wsubs && w in t.wds && !t.wsubs[w].Waiting? && t.wds[w].account == m ==> SubmissionSolvent(t, w))
  }

  lemma CashMovedSection(s: State, t: State, m: Account, r: RfqId)
    requires CashMoves(s, t, m) && r in s.sections && SectionSolvent(s, r) && (m in Takers(t) || m !in Holds(s.sections[r]))
    ensures SectionSolvent(t, r)
  {
    assert Takers(t) == Takers(s);
    hide Owed, Takers;
    match s.sections[r]
    case Quoting(_, sub, priors, _) => LessOwed(s, t, sub, Toset(priors));
    case Validated(draft, todo) => LessOwed(s, t, draft.makerSubaccountId, Toset(todo));
    case Dropping(draft, _, todo) => LessOwed(s, t, draft.makerSubaccountId, Toset(todo));
    case _ =>
  }

  lemma CashMovedSubmission(s: State, t: State, m: Account, w: WId)
    requires CashMoves(s, t, m) && w in s.wsubs && w in s.wds && SubmissionSolvent(s, w)
    requires s.wsubs[w].Waiting? || s.wds[w].account != m
    ensures SubmissionSolvent(t, w)
  {
    assert Takers(t) == Takers(s);
    hide Owed, Takers;
    LessOwed(s, t, s.wds[w].account, {});
  }

  lemma KeepCashMove(s: State, t: State, m: Account)
    requires Solvent(s) && CashMoves(s, t, m) && SolventAt(t, m)
    ensures Solvent(t)
  {
    assert Takers(t) == Takers(s) && t == s.(chain := t.chain);
    hide Owed, Takers, SectionSolvent, SubmissionSolvent, Holds;
    forall a | a !in Takers(t) ensures Total(Owed(t, a)) <= Budget(t.chain, a) { if a != m { LessOwed(s, t, a, {}); } }
    hide CashMoves, Total, Budget;
    forall r | r in t.sections ensures SectionSolvent(t, r) {
      if m !in Holds(t.sections[r]) { CashMovedSection(s, t, m, r); }
    }
    forall w | w in t.wsubs ensures w in t.wds && SubmissionSolvent(t, w) {
      if t.wsubs[w].Waiting? || t.wds[w].account != m { CashMovedSubmission(s, t, m, w); }
    }
  }

  /** Nothing is charged: receipts of reverts, burnt nonces, time, deposits. */
  lemma FreeMove(s: State, t: State)
    requires Solvent(s) && t == s.(chain := t.chain) && t.chain.paid == s.chain.paid && t.chain.leaked == s.chain.leaked
    requires forall a :: Cash(t.chain, a) >= Cash(s.chain, a)
    requires forall o :: o in s.chain.outcome ==> o in t.chain.outcome
    ensures Solvent(t)
  {
    FewerLive(s, t);
    assert Takers(t) == Takers(s);
    hide Owed, Live, Takers;
    assert SectionsEase(s, t) && SubmissionsEase(s, t) by { hide SectionSolvent, SubmissionSolvent; }
    hide SectionsEase, SubmissionsEase, Solvent;
    KeepSolvent(s, t);
  }

  /** A transaction that can still execute keeps withdrawals out of the write queue. */
  lemma QueueIsElsewhere(s: State, op: OpId, v: WId)
    requires Control(s) && op in s.chain.sent && !Resolved(s.chain, op) && op != WdOp(v) && v in s.wsubs && v in s.wds
    ensures !s.wsubs[v].Snapped? && !s.wsubs[v].Checked? && !s.wsubs[v].WSent? && !s.wsubs[v].WHashed?
  {
    Unfold(s, 0);
    assert SubmissionOk(s, v) by { hide RfqHere, Globals, Books, History, QueueOk, Orphans, Exclusive, SubmissionOk, WithdrawalOk; }
    hide Control, RfqHere, Globals, Books, History, Orphans, Exclusive;
  }

  // ------------------------------------------------------------------ an execution is mined

  /** An execution that succeeds settles a live, unpaid winner. */
  lemma MinedWinner(s: State, r: RfqId)
    requires Control(s) && RfqOp(r) in s.chain.sent && !Resolved(s.chain, RfqOp(r))
    ensures r in s.ix.rfqs && s.ix.rfqs[r].status == Executing && HasWinner(s, r)
    ensures var q := WinnerQuote(s, r);
            && q.id == WinnerId(s, r) && q.rfqId == r && Live(s.ix, q.id) && q.id !in s.chain.paid
            && s.chain.sent[RfqOp(r)].account == q.makerSubaccountId && s.chain.sent[RfqOp(r)].amount == q.reservedCash
            && s.chain.sent[RfqOp(r)].quote == Some(q.id)
  {
    Unfold(s, r);
    KeyedQuotes(s);
    assert Known(s, RfqOp(r)) by { hide Control, RfqHere, Books, QueueOk, Orphans, Exclusive; }
    assert RfqOk(s, r) by { hide RfqOk, SectionOk, ReconOk, RfqLatched, ReservedAt, Control; }
    hide Control, RfqHere, Globals, Books, QueueOk, Orphans, Exclusive;
  }

  lemma SettledOwed(s: State, t: State, q: Quote)
    requires q.id in s.ix.quotes && s.ix.quotes[q.id] == q && Live(s.ix, q.id) && q.id !in s.chain.paid
    requires t == s.(chain := t.chain) && t.chain.paid == s.chain.paid + {q.id}
    ensures Owed(t, q.makerSubaccountId) == Owed(s, q.makerSubaccountId) - {q.id}
    ensures q.id in Owed(s, q.makerSubaccountId) && Owed(s, q.makerSubaccountId)[q.id] == q.reservedCash
    ensures forall a :: Within(Owed(t, a), Owed(s, a))
  {
  }

  lemma RoomAfterPayment(s: State, t: State, q: Quote, draft: Quote, todo: seq<QuoteId>)
    requires Room(s, draft, todo) && draft.makerSubaccountId == q.makerSubaccountId && q.id !in todo
    requires Takers(t) == Takers(s)
    requires Owed(t, q.makerSubaccountId) == Owed(s, q.makerSubaccountId) - {q.id}
    requires q.id in Owed(s, q.makerSubaccountId) && Owed(s, q.makerSubaccountId)[q.id] == q.reservedCash
    requires q.makerSubaccountId !in Takers(s) ==> Budget(t.chain, q.makerSubaccountId) >= Budget(s.chain, q.makerSubaccountId) - q.reservedCash
    ensures Room(t, draft, todo)
  {
    var owed := Owed(s, q.makerSubaccountId);
    TotalAt(owed - Toset(todo), q.id);
    assert owed - Toset(todo) - {q.id} == owed - {q.id} - Toset(todo);
    hide Owed, Takers;
  }

  /** Prior quotes of an open auction are not the winner of another. */
  lemma TodoElsewhere(s: State, x: RfqId, q: Quote)
    requires Control(s) && x in s.sections && q.id in s.ix.quotes && s.ix.quotes[q.id] == q
    requires !RfqHas(s, q.rfqId, Open)
    ensures s.sections[x].Validated? ==> q.id !in s.sections[x].todo
    ensures s.sections[x].Dropping? ==> q.id !in s.sections[x].todo
  {
    SectionAt(s, x);
    hide Control;
  }

  lemma PaidCash(s: State, r: RfqId, debit: nat, taker: int)
    requires CanMine(s, RfqOp(r), true, debit) && r in s.ix.rfqs && s.chain.sent[RfqOp(r)].quote.Some?
    ensures var t, p := Mine(s, RfqOp(r), true, debit, taker), s.chain.sent[RfqOp(r)];
            && t == s.(chain := t.chain) && t.chain.paid == s.chain.paid + {p.quote.value}
            && t.chain.outcome == s.chain.outcome[RfqOp(r) := true]
            && (forall a :: a != p.account && a !in Takers(s) ==> Cash(t.chain, a) == Cash(s.chain, a))
            && (p.account !in Takers(s) ==> Cash(t.chain, p.account) == Cash(s.chain, p.account) - debit)
            && (forall a :: Leaked(t.chain, a) == Leaked(s.chain, a))
  {
    assert s.ix.rfqs[r].takerSubaccountId in Takers(s);
  }

  lemma MineRfqPays(s: State, t: State, r: RfqId, debit: nat, q: Quote)
    requires RfqOp(r) in s.chain.sent && !Resolved(s.chain, RfqOp(r)) && RfqHas(s, r, Executing)
    requires q.id in s.ix.quotes && s.ix.quotes[q.id] == q && q.rfqId == r && Live(s.ix, q.id) && q.id !in s.chain.paid
    requires t == s.(chain := t.chain) && t.chain.paid == s.chain.paid + {q.id} && debit <= q.reservedCash
    requires forall o :: o in s.chain.outcome ==> o in t.chain.outcome
    requires forall a :: a != q.makerSubaccountId && a !in Takers(s) ==> Cash(t.chain, a) == Cash(s.chain, a)
    requires q.makerSubaccountId !in Takers(s) ==> Cash(t.chain, q.makerSubaccountId) == Cash(s.chain, q.makerSubaccountId) - debit
    requires forall a :: Leaked(t.chain, a) == Leaked(s.chain, a)
    ensures Pays(s, t, q) && CashMoves(s, t, q.makerSubaccountId)
  {
    SettledOwed(s, t, q);
    assert Takers(t) == Takers(s);
    hide Owed, Takers, Live, Cash, Leaked, Resolved;
  }

  lemma MineRfqSolvent(s: State, r: RfqId, debit: nat, taker: int)
    requires Control(s) && Solvent(s) && CanMine(s, RfqOp(r), true, debit)
    ensures Solvent(Mine(s, RfqOp(r), true, debit, taker))
  {
    var t := Mine(s, RfqOp(r), true, debit, taker);
    hide Control, Solvent, Mine, Live, Takers, Pays, CashMoves, SolventAt, Cash, Leaked;
    MinedWinner(s, r);
    var q := WinnerQuote(s, r);
    PaidCash(s, r, debit, taker);
    MineRfqPays(s, t, r, debit, q);
    PaidAt(s, t, q);
    KeepCashMove(s, t, q.makerSubaccountId);
  }

  /** The execution of q is about to take its reserved cash from its maker. */
  ghost predicate Pays(s: State, t: State, q: Quote) {
    && t == s.(chain := t.chain) && Takers(t) == Takers(s)
    && RfqOp(q.rfqId) in s.chain.sent && !Resolved(s.chain, RfqOp(q.rfqId)) && RfqHas(s, q.rfqId, Executing)
    && q.id in s.ix.quotes && s.ix.quotes[q.id] == q
    && Within(Owed(t, q.makerSubaccountId), Owed(s, q.makerSubaccountId))
    && Owed(t, q.makerSubaccountId) == Owed(s, q.makerSubaccountId) - {q.id}
    && q.id in Owed(s, q.makerSubaccountId) && Owed(s, q.makerSubaccountId)[q.id] == q.reservedCash
    && (q.makerSubaccountId !in Takers(s) ==>
          Budget(t.chain, q.makerSubaccountId) >= Budget(s.chain, q.makerSubaccountId) - q.reservedCash)
  }

  lemma PaidAccount(s: State, t: State, q: Quote)
    requires Solvent(s) && Pays(s, t, q)
    ensures q.makerSubaccountId in Takers(t) || Total(Owed(t, q.makerSubaccountId)) <= Budget(t.chain, q.makerSubaccountId)
  {
    TotalAt(Owed(s, q.makerSubaccountId), q.id);
    hide Owed, Takers, SectionSolvent, SubmissionSolvent, Resolved;
  }

  lemma PaidSectionAt(s: State, t: State, q: Quote, x: RfqId)
    requires Control(s) && Solvent(s) && Pays(s, t, q) && x in t.sections && q.makerSubaccountId in Holds(t.sections[x])
    ensures SectionSolvent(t, x)
  {
    assert x in s.sections && t.sections[x] == s.sections[x];
    assert SectionSolvent(s, x) by { hide SectionSolvent, SubmissionSolvent, Owed, Takers; }
    assert q.id in s.ix.quotes && s.ix.quotes[q.id] == q && !RfqHas(s, q.rfqId, Open);
    hide Control, Solvent, SectionSolvent, Pays, Holds;
    TodoElsewhere(s, x, q);
    PaidSection(s, t, q, x);
  }

  lemma PaidSubmissionAt(s: State, t: State, q: Quote, w: WId)
    requires Control(s) && Pays(s, t, q) && w in t.wsubs && w in t.wds
    ensures SubmissionSolvent(t, w)
  {
    assert t.wsubs == s.wsubs && t.wds == s.wds;
    hide Control, Owed, Takers, Total;
    QueueIsElsewhere(s, RfqOp(q.rfqId), w);
  }

  lemma PaidAt(s: State, t: State, q: Quote)
    requires Control(s) && Solvent(s) && Pays(s, t, q)
    ensures SolventAt(t, q.makerSubaccountId)
  {
    hide Control, Solvent, Pays, SectionSolvent, SubmissionSolvent, Owed, Takers, Total, Holds;
    PaidAccount(s, t, q);
    forall x | x in t.sections && q.makerSubaccountId in Holds(t.sections[x]) ensures SectionSolvent(t, x) {
      PaidSectionAt(s, t, q, x);
    }
    forall w | w in t.wsubs && w in t.wds ensures SubmissionSolvent(t, w) { PaidSubmissionAt(s, t, q, w); }
  }

  lemma PaidSection(s: State, t: State, q: Quote, x: RfqId)
    requires Pays(s, t, q) && x in s.sections && SectionSolvent(s, x)
    requires q.makerSubaccountId in Holds(s.sections[x])
    requires s.sections[x].Validated? ==> q.id !in s.sections[x].todo
    requires s.sections[x].Dropping? ==> q.id !in s.sections[x].todo
    ensures SectionSolvent(t, x)
  {
    hide Owed, Takers, Room, Resolved;
    match s.sections[x]
    case Quoting(_, sub, priors, _) => LessOwed(s, t, sub, Toset(priors));
    case Validated(draft, todo) => RoomAfterPayment(s, t, q, draft, todo);
    case Dropping(draft, _, todo) => RoomAfterPayment(s, t, q, draft, todo);
    case _ =>
  }

  // ------------------------------------------------------------------ a withdrawal is mined

  lemma WithdrawnCash(s: State, w: WId, debit: nat, taker: int)
    requires CanMine(s, WdOp(w), true, debit)
    ensures var t, a := Mine(s, WdOp(w), true, debit, taker), s.chain.sent[WdOp(w)].account;
            && t == s.(chain := t.chain) && t.chain.paid == s.chain.paid
            && t.chain.outcome == s.chain.outcome[WdOp(w) := true]
            && (forall x :: x != a ==> Cash(t.chain, x) == Cash(s.chain, x) && Leaked(t.chain, x) == Leaked(s.chain, x))
            && Cash(t.chain, a) == Cash(s.chain, a) - debit
            && Leaked(t.chain, a) == Leaked(s.chain, a) + if InFlight(s, WdOp(w)) then 0 else debit
  {
  }

  lemma SentWithdrawal(s: State, w: WId)
    requires Control(s) && WdOp(w) in s.chain.sent
    ensures w in s.wds && s.chain.sent[WdOp(w)].account == s.wds[w].account && s.chain.sent[WdOp(w)].amount == s.wds[w].debit
    ensures w in s.wsubs ==> SubmissionOk(s, w)
  {
    Unfold(s, 0);
    assert Known(s, WdOp(w)) by { hide Control, RfqHere, Books, QueueOk, Orphans, Exclusive; }
    hide RfqHere, Globals, Books, History, QueueOk, Orphans, Exclusive;
  }

  lemma MineWithdrawalSolvent(s: State, w: WId, debit: nat, taker: int)
    requires Control(s) && Solvent(s) && CanMine(s, WdOp(w), true, debit)
    ensures Solvent(Mine(s, WdOp(w), true, debit, taker))
  {
    var t := Mine(s, WdOp(w), true, debit, taker);
    SentWithdrawal(s, w);
    WithdrawnCash(s, w, debit, taker);
    var a := s.wds[w].account;
    assert forall x :: Owed(t, x) == Owed(s, x);
    assert Takers(t) == Takers(s);
    hide Control, Solvent, Mine, Owed, Takers, SubmissionOk;
    assert CashMoves(s, t, a) by { hide Total; }
    if InFlight(s, WdOp(w)) { WithdrawnInside(s, t, w); } else { WithdrawnOutside(s, t, w); }
    hide CashMoves, SolventAt;
    KeepCashMove(s, t, a);
  }

  /** What solvency says of one submission and its account. */
  lemma SolventWithAccount(s: State, w: WId)
    requires Solvent(s) && w in s.wsubs
    ensures w in s.wds && SubmissionSolvent(s, w)
    ensures s.wds[w].account !in Takers(s) ==> Total(Owed(s, s.wds[w].account)) <= Budget(s.chain, s.wds[w].account)
  {
    hide SubmissionSolvent, SectionSolvent, Owed, Takers, Total, Budget;
  }

  lemma InsideAccount(s: State, t: State, w: WId)
    requires Takers(t) == Takers(s) && t == s.(chain := t.chain)
    requires w in s.wsubs && w in s.wds && (s.wsubs[w].WSent? || s.wsubs[w].WHashed?) && SubmissionSolvent(s, w)
    requires WdOp(w) !in s.chain.outcome && WdOp(w) in t.chain.outcome
    requires s.wds[w].account !in Takers(s) ==> Total(Owed(s, s.wds[w].account)) <= Budget(s.chain, s.wds[w].account)
    requires Owed(t, s.wds[w].account) == Owed(s, s.wds[w].account)
    requires Budget(t.chain, s.wds[w].account) == Budget(s.chain, s.wds[w].account) - s.wds[w].debit
    ensures s.wds[w].account in Takers(t) || Total(Owed(t, s.wds[w].account)) <= Budget(t.chain, s.wds[w].account)
    ensures SubmissionSolvent(t, w)
  {
    hide Owed, Takers, Total, Budget;
  }

  /** Inside its lock, a withdrawal takes what its check left over. */
  lemma WithdrawnInside(s: State, t: State, w: WId)
    requires Control(s) && Solvent(s) && t == s.(chain := t.chain) && Takers(t) == Takers(s)
    requires forall x :: Owed(t, x) == Owed(s, x)
    requires w in s.wsubs && w in s.wds && (s.wsubs[w].WSent? || s.wsubs[w].WHashed?)
    requires WdOp(w) !in s.chain.outcome && WdOp(w) in t.chain.outcome
    requires Budget(t.chain, s.wds[w].account) == Budget(s.chain, s.wds[w].account) - s.wds[w].debit
    ensures SolventAt(t, s.wds[w].account)
  {
    hide Control, Solvent, Owed, Takers, Total, Budget, SectionSolvent, SubmissionSolvent, Holds;
    SolventWithAccount(s, w);
    InsideAccount(s, t, w);
    Alone(s, w);
  }

  /** The submission holds its account lock alone. */
  lemma Alone(s: State, w: WId)
    requires Control(s) && w in s.wsubs && w in s.wds && !s.wsubs[w].Waiting?
    ensures forall x :: x in s.sections ==> s.wds[w].account !in Holds(s.sections[x])
    ensures forall v :: v in s.wsubs && v in s.wds && v != w && !s.wsubs[v].Waiting? ==> s.wds[v].account != s.wds[w].account
  {
    Unfold(s, 0);
    hide Control, RfqHere, Globals, Books, History, QueueOk, Orphans, Holds;
  }

  /** Mined after its handler let go, it is booked as leaked. */
  lemma WithdrawnOutside(s: State, t: State, w: WId)
    requires Control(s) && Solvent(s) && t == s.(chain := t.chain) && Takers(t) == Takers(s)
    requires forall x :: Owed(t, x) == Owed(s, x)
    requires w in s.wds && WdOp(w) in s.chain.sent && !Resolved(s.chain, WdOp(w))
    requires w in s.wsubs ==> SubmissionOk(s, w) && !s.wsubs[w].WSent? && !s.wsubs[w].WHashed?
    requires forall x :: Budget(t.chain, x) == Budget(s.chain, x)
    ensures SolventAt(t, s.wds[w].account)
  {
    hide Control, Solvent, Owed, Takers, Total, Budget, SectionSolvent, SubmissionSolvent, SubmissionOk;
    SolventAccount(s, s.wds[w].account);
    forall x | x in t.sections ensures SectionSolvent(t, x) {
      SolventSection(s, x);
      SameSection(s, t, x);
    }
    forall v | v in t.wsubs && v in t.wds ensures SubmissionSolvent(t, v) {
      if v == w { OutOfWay(s, w); } else { QueueIsElsewhere(s, WdOp(w), v); }
      OwesNoCash(t, v);
    }
  }

  lemma SolventAccount(s: State, a: Account)
    requires Solvent(s)
    ensures a !in Takers(s) ==> Total(Owed(s, a)) <= Budget(s.chain, a)
  {
    hide SubmissionSolvent, SectionSolvent, Owed, Takers, Total;
  }

  lemma SameSection(s: State, t: State, x: RfqId)
    requires t.sections == s.sections && x in s.sections && SectionSolvent(s, x) && Takers(t) == Takers(s)
    requires (forall a :: Owed(t, a) == Owed(s, a)) && forall a :: Budget(t.chain, a) == Budget(s.chain, a)
    ensures SectionSolvent(t, x)
  {
    hide Owed, Takers, Total, Budget;
  }

  lemma OutOfWay(s: State, w: WId)
    requires w in s.wsubs && w in s.wds && SubmissionOk(s, w) && WdOp(w) in s.chain.sent
    ensures !s.wsubs[w].Snapped? && !s.wsubs[w].Checked?
  {
  }

  lemma OwesNoCash(t: State, v: WId)
    requires v in t.wsubs && v in t.wds && !t.wsubs[v].Snapped? && !t.wsubs[v].Checked? && !t.wsubs[v].WSent? && !t.wsubs[v].WHashed?
    ensures SubmissionSolvent(t, v)
  {
  }

  lemma ChainSolvent(s: State, step: ChainStep)
    requires Control(s) && Solvent(s) && ChainEnabled(s, step)
    ensures Solvent(ChainApply(s, step))
  {
    hide Control, Solvent;
    match step
    case SMine(op, ok, debit, taker) =>
      if !ok { FreeMove(s, Mine(s, op, ok, debit, taker)); }
      else {
        match op
        case RfqOp(r) => MineRfqSolvent(s, r, debit, taker);
        case WdOp(w) => MineWithdrawalSolvent(s, w, debit, taker);
      }
    case SBurn(op) => FreeMove(s, Burn(s, op));
    case STick(time) => FreeMove(s, Tick(s, time));
    case SDeposit(a, amount) => FreeMove(s, s.(chain := Credit(s.chain, a, amount)));
  }
}
