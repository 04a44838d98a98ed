/** Solvency through quoting, withdrawing, recovery and the chain's moves. */
module ProtocolSolvencySteps {
  import opened Types
  import opened RfqIndex
  import opened BestQuote
  import opened AuctionCore
  import opened Sums
  import opened Protocol
  import opened ProtocolInvariant
  import opened ProtocolFrame
  import opened ProtocolQuotes
  import opened ProtocolSolvency

  // ------------------------------------------------------------------ recovery

  lemma CrashSolvent(s: State)
    requires Solvent(s)
    ensures Solvent(Crash(s))
  {
    var t := Crash(s);
    FewerLive(s, t);
    assert Eases(s, t) by { hide Owed, Live; }
    hide Owed, Live, Takers, Eases;
    KeepSolvent(s, t);
  }

  lemma IdleSolvent(s: State, t: State, r: RfqId)
    requires Solvent(s) && t.ix == s.ix && t.chain == s.chain && t.wsubs == s.wsubs && t.wds == s.wds && r in s.ix.rfqs
    requires forall x :: x in t.sections ==>
               (x in s.sections && t.sections[x] == s.sections[x])
               || (x == r && !t.sections[x].Quoting? && !t.sections[x].Validated? && !t.sections[x].Dropping?)
    ensures Solvent(t)
  {
    IdleDebtless(s, t, r);
    hide Debtless, Solvent;
    KeepDebtless(s, t, r);
  }

  lemma RecoverLeavesStore(s: State, r: RfqId)
    requires CanRecover(s, r)
    ensures var t := Recover(s, r);
            t.ix == s.ix && t.chain == s.chain && t.wsubs == s.wsubs && t.wds == s.wds && t.sections == s.sections
  {
  }

  lemma ReconPutSolvent(s: State, r: RfqId, hash: Hash)
    requires Control(s) && Solvent(s) && CanReconPut(s, r)
    ensures Solvent(ReconPut(s, r, hash))
  {
    hide Control, Debtless, Solvent, ReconPut;
    FiledUnder(s, r);
    ReconPutDebtless(s, r, hash);
    KeepDebtless(s, ReconPut(s, r, hash), r);
  }

  lemma RecoverySolvent(s: State, step: RecoveryStep)
    requires Control(s) && Solvent(s) && RecoveryEnabled(s, step)
    ensures Solvent(RecoveryApply(s, step))
  {
    hide Control, Solvent, Recover, ReconPut;
    match step
    case SReconStart(r) => IdleSolvent(s, ReconStart(s, r), r);
    case SReconAnswer(r, answer) => IdleSolvent(s, ReconAnswer(s, r, answer), r);
    case SReconEnd(r) => InBooks(s, r); IdleSolvent(s, ReconEnd(s, r), r);
    case SReconPut(r, hash) => ReconPutSolvent(s, r, hash);
    case SReconClear(r) => InBooks(s, r); IdleSolvent(s, ReconClear(s, r), r);
    case SCrash => CrashSolvent(s);
    case SRecover(r) => RecoverLeavesStore(s, r); IdleSolvent(s, Recover(s, r), r);
  }

  // ------------------------------------------------------------------ the reservation map covers what is owed

  lemma Covered(s: State, a: Account, out: set<QuoteId>)
    requires Control(s) && Traffic(s)
    requires forall r :: r in s.sections && s.sections[r].Stored? ==> s.sections[r].quote.makerSubaccountId != a
    ensures Total(Owed(s, a) - out) <= ReservedFor(s.reservations, a, out)
  {
    hide Control, HeldFor, Total, Live, Traffic;
    forall q | q in Owed(s, a) ensures HeldFor(s, q) {
      ReservedHere(s, q);
      OwedIsHeld(s, a, q);
    }
    OwedWithin(s, a, out);
    TotalWithin(Owed(s, a) - out, AmountsFor(s.reservations, a, out));
  }

  lemma ReservedHere(s: State, q: QuoteId)
    requires Control(s) && q in s.ix.quotes
    ensures s.ix.quotes[q].rfqId in s.ix.rfqs && ReservedAt(s, s.ix.quotes[q].rfqId)
  {
    hide WellFormed, History, QueueOk, Orphans, Exclusive, ReservedAt, WithdrawalHere;
    assert RfqHere(s, s.ix.quotes[q].rfqId);
  }

  lemma OwedIsHeld(s: State, a: Account, q: QuoteId)
    requires q in Owed(s, a) && s.ix.quotes[q].rfqId in s.ix.rfqs && ReservedAt(s, s.ix.quotes[q].rfqId) && Traffic(s)
    requires forall r :: r in s.sections && s.sections[r].Stored? ==> s.sections[r].quote.makerSubaccountId != a
    ensures HeldFor(s, q)
  {
    hide Live, ReleasePending, HeldFor;
  }

  lemma OwedWithin(s: State, a: Account, out: set<QuoteId>)
    requires forall q :: q in Owed(s, a) ==> HeldFor(s, q)
    ensures Within(Owed(s, a) - out, AmountsFor(s.reservations, a, out))
  {
    hide Live;
  }

  // ------------------------------------------------------------------ quoting

  /** Only the section of r moves, to a place where it is solvent. */
  lemma KeepBySection(s: State, t: State, r: RfqId)
    requires Solvent(s) && r in t.sections && t == s.(sections := s.sections[r := t.sections[r]]) && SectionSolvent(t, r)
    ensures Solvent(t)
  {
    SameStore(s, t);
    hide Owed;
    assert SectionsEase(s, t) && SubmissionsEase(s, t) by { hide Solvent, SectionSolvent; }
    hide SectionsEase, SubmissionsEase, Solvent, Eases;
    KeepSolvent(s, t);
  }

  lemma SameStore(s: State, t: State)
    requires t.ix == s.ix && t.chain == s.chain
    ensures Eases(s, t)
    ensures forall a :: Owed(t, a) == Owed(s, a)
  {
    FewerLive(s, t);
    assert forall a :: Owed(t, a) == Owed(s, a);
    hide Owed, Live;
  }

  lemma NoneStored(s: State, a: Account)
    requires AccountFree(s, a)
    ensures forall x :: x in s.sections && s.sections[x].Stored? ==> s.sections[x].quote.makerSubaccountId != a
  {
    forall x | x in s.sections && s.sections[x].Stored? ensures s.sections[x].quote.makerSubaccountId != a {
      assert s.sections[x].quote.makerSubaccountId in Holds(s.sections[x]);
    }
  }

  lemma QuoteBeginSolvent(s: State, r: RfqId, maker: Address, sub: Account)
    requires Control(s) && Solvent(s) && CanQuoteBegin(s, r, sub)
    ensures Solvent(QuoteBegin(s, r, maker, sub))
  {
    var t := QuoteBegin(s, r, maker, sub);
    var priors := PriorQuotes(s.ix, r, maker);
    hide Control, Solvent, PriorQuotes;
    NoneStored(s, sub);
    Covered(s, sub, Toset(priors));
    SameStore(s, t);
    hide AccountFree, Eases, ReservedFor, Total;
    assert SectionSolvent(t, r) by {
      assert Toset(priors) == set p | p in priors;
      assert Owed(t, sub) == Owed(s, sub);
    }
    KeepBySection(s, t, r);
  }

  lemma QuoteValidateSolvent(s: State, r: RfqId, draft: Quote)
    requires Solvent(s) && CanQuoteValidate(s, r, draft)
    ensures Solvent(QuoteValidate(s, r, draft))
  {
    var t := QuoteValidate(s, r, draft);
    assert SectionSolvent(s, r);
    hide Solvent;
    SameStore(s, t);
    hide Eases, Total;
    assert SectionSolvent(t, r) by { assert Owed(t, draft.makerSubaccountId) == Owed(s, draft.makerSubaccountId); }
    KeepBySection(s, t, r);
  }

  /** A stored quote goes; the room its successor was promised stays. */
  lemma DropSolvent(s: State, t: State, r: RfqId, q: QuoteId)
    requires Solvent(s) && Drops(s, t, r, q)
    requires t.wsubs == s.wsubs && t.wds == s.wds && t.chain == s.chain
    requires r in t.sections && match t.sections[r]
                                case Dropping(draft, cur, todo) =>
                                  r in s.sections && s.sections[r] == Validated(draft, [q] + todo)
                                case Cancelling(_, _) => true
                                case _ => false
    ensures Solvent(t)
  {
    hide Owed, Takers, Live, Solvent, SectionSolvent, SectionsEase, SubmissionsEase, Eases, Total,
        RfqIndex.DeleteQuote, ReleasePending;
    DropEases(s, t, q);
    assert SectionSolvent(t, r) by {
      if t.sections[r].Dropping? {
        SolventSection(s, r);
        DropRoom(s, t, r, q);
      } else {
        OwesNothing(t, r);
      }
    }
    DropSections(s, t, r, q);
    SameSubmissions(s, t);
    KeepSolvent(s, t);
  }

  lemma DropEases(s: State, t: State, q: QuoteId)
    requires t.ix == DeleteQuote(s.ix, q) && t.chain == s.chain
    ensures Eases(s, t) && Takers(t) == Takers(s)
    ensures forall a :: q !in Owed(t, a)
  {
    hide RfqIndex.DeleteQuote, Live;
    DeletedLive(s, t, q);
    FewerLive(s, t);
    assert Takers(t) == Takers(s);
    assert forall a :: q !in Owed(t, a);
    hide Owed, Takers;
  }

  lemma SolventSection(s: State, r: RfqId)
    requires Solvent(s) && r in s.sections
    ensures SectionSolvent(s, r)
  {
    hide SectionSolvent, SubmissionSolvent, Owed, Takers, Total;
  }

  lemma OwesNothing(t: State, r: RfqId)
    requires r in t.sections && !t.sections[r].Quoting? && !t.sections[r].Validated? && !t.sections[r].Dropping?
    ensures SectionSolvent(t, r)
  {
  }

  lemma DropRoom(s: State, t: State, r: RfqId, q: QuoteId)
    requires r in t.sections && t.sections[r].Dropping? && r in s.sections && SectionSolvent(s, r)
    requires s.sections[r] == Validated(t.sections[r].draft, [q] + t.sections[r].todo)
    requires Eases(s, t) && t.chain == s.chain && Takers(t) == Takers(s) && forall a :: q !in Owed(t, a)
    ensures SectionSolvent(t, r)
  {
    hide Owed, Takers, Total;
    var sub, todo := t.sections[r].draft.makerSubaccountId, t.sections[r].todo;
    var m, n := Owed(t, sub), Owed(s, sub);
    assert Within(m, n) && q !in m;
    assert Within(m - Toset(todo), n - Toset([q] + todo));
    TotalWithin(m - Toset(todo), n - Toset([q] + todo));
  }

  lemma DropSections(s: State, t: State, r: RfqId, q: QuoteId)
    requires Drops(s, t, r, q) && r in t.sections && SectionSolvent(t, r)
    ensures SectionsEase(s, t)
  {
    hide SectionSolvent, RfqIndex.DeleteQuote, ReleasePending;
    forall x | x in t.sections && x != r ensures x in s.sections && t.sections[x] == s.sections[x] { assert SameAt(s.sections, t.sections, x); }
  }

  lemma DeletedLive(s: State, t: State, q: QuoteId)
    requires t.ix == DeleteQuote(s.ix, q)
    ensures t.ix.rfqs == s.ix.rfqs
    ensures forall x :: x in t.ix.quotes <==> x in s.ix.quotes && x != q
    ensures forall x :: x in t.ix.quotes ==> t.ix.quotes[x] == s.ix.quotes[x] && Live(t.ix, x) == Live(s.ix, x)
  {
  }

  lemma AdmitDropSolvent(s: State, r: RfqId, id: QuoteId)
    requires Control(s) && Solvent(s) && CanQuoteAdmit(s, r, id) && s.sections[r].todo != []
    ensures Solvent(QuoteAdmit(s, r, id))
  {
    hide *;
    OpenToQuotes(s, r, id);
    SectionHere(s, r);
    NotClearing(s, r);
    WellFiled(s);
    AdmitDrops(s, r, id);
    AdmitDropping(s, r, id);
    DropSolvent(s, QuoteAdmit(s, r, id), r, s.sections[r].todo[0]);
  }

  lemma OpenToQuotes(s: State, r: RfqId, id: QuoteId)
    requires CanQuoteAdmit(s, r, id)
    ensures r in s.sections && RfqHas(s, r, Open)
  {
  }

  lemma WellFiled(s: State)
    requires Control(s)
    ensures WellFormed(s.ix)
  {
    hide RfqHere, WithdrawalHere, History, QueueOk, Orphans, Exclusive, WellFormed;
  }

  lemma AdmitDropping(s: State, r: RfqId, id: QuoteId)
    requires CanQuoteAdmit(s, r, id) && s.sections[r].todo != []
    ensures var t, todo := QuoteAdmit(s, r, id), s.sections[r].todo;
            && t.wsubs == s.wsubs && t.wds == s.wds && t.chain == s.chain && r in t.sections
            && t.sections[r] == Dropping(s.sections[r].draft, todo[0], todo[1..])
            && s.sections[r] == Validated(s.sections[r].draft, [todo[0]] + todo[1..])
  {
    hide RfqIndex.DeleteQuote;
    var todo := s.sections[r].todo;
    assert todo == [todo[0]] + todo[1..];
  }

  // ------------------------------------------------------------------ storing the new quote

  lemma StoredOwed(s: State, t: State, q: Quote)
    requires q.id !in s.ix.quotes && q.id !in s.chain.paid && t.chain == s.chain
    requires t.ix.rfqs == s.ix.rfqs && t.ix.quotes == s.ix.quotes[q.id := q] && RfqHas(s, q.rfqId, Open)
    ensures Owed(t, q.makerSubaccountId) == Owed(s, q.makerSubaccountId)[q.id := q.reservedCash]
    ensures forall a :: a != q.makerSubaccountId ==> Owed(t, a) == Owed(s, a)
  {
    assert forall x :: x in s.ix.quotes ==> Live(t.ix, x) == Live(s.ix, x);
  }

  /** Other accounts owe what they owed. */
  ghost predicate SameOwedBut(s: State, t: State, sub: Account) {
    && t.chain == s.chain && Takers(t) == Takers(s)
    && (forall a :: a != sub ==> Owed(t, a) == Owed(s, a))
  }

  lemma OtherSection(s: State, t: State, sub: Account, x: RfqId)
    requires SameOwedBut(s, t, sub) && x in s.sections && x in t.sections && t.sections[x] == s.sections[x]
    requires sub !in Holds(s.sections[x]) && SectionSolvent(s, x)
    ensures SectionSolvent(t, x)
  {
    hide Owed, Takers, Total;
  }

  lemma OtherSubmission(s: State, t: State, sub: Account, w: WId)
    requires SameOwedBut(s, t, sub) && t.wsubs == s.wsubs && t.wds == s.wds && w in s.wsubs && w in s.wds
    requires s.wsubs[w].Waiting? || s.wds[w].account != sub
    requires SubmissionSolvent(s, w)
    ensures SubmissionSolvent(t, w)
  {
    hide Owed, Takers, Total;
  }

  lemma StoreSolvent(s: State, t: State, r: RfqId, q: Quote)
    requires Solvent(s) && Exclusive(s) && r in s.sections && s.sections[r].Validated? && s.sections[r].todo == []
    requires q == s.sections[r].draft.(id := q.id)
    requires q.id !in s.ix.quotes && q.id !in s.chain.paid && t.chain == s.chain && t.wsubs == s.wsubs && t.wds == s.wds
    requires t.ix.rfqs == s.ix.rfqs && t.ix.quotes == s.ix.quotes[q.id := q] && RfqHas(s, q.rfqId, Open)
    requires t.sections == s.sections[r := Stored(q)]
    ensures Solvent(t)
  {
    var sub := q.makerSubaccountId;
    hide Owed, Takers, Solvent, SectionSolvent, SubmissionSolvent, Total, Live, SameOwedBut;
    OthersOwe(s, t, q);
    SolventSection(s, r);
    StoredRoom(s, t, r, q);
    Elsewhere(s, r, sub);
    SolventElsewhere(s, t, sub);
    forall x | x in t.sections ensures SectionSolvent(t, x) {
      if x == r { OwesNothing(t, r); } else { SolventSection(s, x); OtherSection(s, t, sub, x); }
    }
    forall w | w in t.wsubs ensures w in t.wds && SubmissionSolvent(t, w) { SolventFor(s, w); OtherSubmission(s, t, sub, w); }
    Solved(t);
  }

  lemma OthersOwe(s: State, t: State, q: Quote)
    requires q.id !in s.ix.quotes && q.id !in s.chain.paid && t.chain == s.chain
    requires t.ix.rfqs == s.ix.rfqs && t.ix.quotes == s.ix.quotes[q.id := q] && RfqHas(s, q.rfqId, Open)
    ensures SameOwedBut(s, t, q.makerSubaccountId) && Takers(t) == Takers(s)
  {
    hide Owed, Live;
    StoredOwed(s, t, q);
    assert Takers(t) == Takers(s);
  }

  /** The room that was checked becomes what is owed. */
  lemma StoredRoom(s: State, t: State, r: RfqId, q: Quote)
    requires r in s.sections && s.sections[r].Validated? && s.sections[r].todo == [] && SectionSolvent(s, r)
    requires q == s.sections[r].draft.(id := q.id) && Takers(t) == Takers(s)
    requires q.id !in s.ix.quotes && q.id !in s.chain.paid && t.chain == s.chain
    requires t.ix.rfqs == s.ix.rfqs && t.ix.quotes == s.ix.quotes[q.id := q] && RfqHas(s, q.rfqId, Open)
    ensures q.makerSubaccountId in Takers(t) || Total(Owed(t, q.makerSubaccountId)) <= Budget(t.chain, q.makerSubaccountId)
  {
    var sub := q.makerSubaccountId;
    assert q.id !in Owed(s, sub);
    hide Owed, Takers, Live, Total;
    StoredOwed(s, t, q);
    assert Owed(s, sub) - {} == Owed(s, sub) && Toset([]) == {};
    TotalAdd(Owed(s, sub), q.id, q.reservedCash);
  }

  /** The section's account lock keeps the others off the maker. */
  lemma Elsewhere(s: State, r: RfqId, sub: Account)
    requires Exclusive(s) && r in s.sections && sub in Holds(s.sections[r])
    ensures forall x :: x in s.sections && x != r ==> sub !in Holds(s.sections[x])
    ensures forall w :: w in s.wsubs && !s.wsubs[w].Waiting? ==> w in s.wds && s.wds[w].account != sub
  {
    hide Holds;
  }

  lemma SolventElsewhere(s: State, t: State, sub: Account)
    requires Solvent(s) && SameOwedBut(s, t, sub)
    ensures forall a :: a != sub && a !in Takers(t) ==> Total(Owed(t, a)) <= Budget(t.chain, a)
  {
    hide Owed, Takers, Total, SectionSolvent, SubmissionSolvent;
  }

  lemma SolventFor(s: State, w: WId)
    requires Solvent(s) && w in s.wsubs
    ensures w in s.wds && SubmissionSolvent(s, w)
  {
    hide SubmissionSolvent, SectionSolvent, Owed, Takers, Total;
  }

  lemma Solved(t: State)
    requires forall a :: a !in Takers(t) ==> Total(Owed(t, a)) <= Budget(t.chain, a)
    requires forall r :: r in t.sections ==> SectionSolvent(t, r)
    requires forall w :: w in t.wsubs ==> w in t.wds && SubmissionSolvent(t, w)
    ensures Solvent(t)
  {
    hide SubmissionSolvent, SectionSolvent, Owed, Takers, Total;
  }

  lemma AdmitStoreSolvent(s: State, r: RfqId, id: QuoteId)
    requires Control(s) && Solvent(s) && CanQuoteAdmit(s, r, id) && s.sections[r].todo == []
    ensures Solvent(QuoteAdmit(s, r, id))
  {
    var t := QuoteAdmit(s, r, id);
    var q := s.sections[r].draft.(id := id);
    SectionHere(s, r);
    Unfold(s, r);
    assert id !in s.ix.quotes && id !in s.chain.paid by { hide Control, RfqHere, QueueOk, Orphans, Exclusive, WellFormed, Globals; }
    hide Control, RfqHere, Books, History, QueueOk, Orphans, Globals;
    assert t.ix.rfqs == s.ix.rfqs && t.ix.quotes == s.ix.quotes[id := q] && t.sections == s.sections[r := Stored(q)];
    hide Exclusive, Solvent, QuoteAdmit, SectionOk;
    StoreSolvent(s, t, r, q);
  }

  lemma QuoteAdmitSolvent(s: State, r: RfqId, id: QuoteId)
    requires Control(s) && Solvent(s) && CanQuoteAdmit(s, r, id)
    ensures Solvent(QuoteAdmit(s, r, id))
  {
    hide Control, Solvent, QuoteAdmit;
    if s.sections[r].todo == [] { AdmitStoreSolvent(s, r, id); } else { AdmitDropSolvent(s, r, id); }
  }

  lemma QuoteDropSolvent(s: State, r: RfqId, id: QuoteId)
    requires Control(s) && Solvent(s) && CanQuoteDrop(s, r, id)
    ensures Solvent(QuoteDrop(s, r, id))
  {
    var mid := Released(s, r);
    SectionHere(s, r);
    Unfold(s, r);
    NotClearing(s, r);
    assert SectionSolvent(mid, r) by { assert SectionSolvent(s, r); SameStore(s, mid); hide Eases, Total, Control, Owed; }
    hide Control, RfqHere, QueueOk, Frees, LocksKept, QuoteDrop, CanQuoteAdmit, QuoteAdmit, Solvent, SectionSolvent;
    ReleasedHere(s, r);
    KeepFrees(s, mid, r, s.sections[r].cur);
    assert mid == s.(reservations := mid.reservations, sections := s.sections[r := mid.sections[r]]);
    SolventButReservations(s, s.(sections := mid.sections), mid, r);
    DropIsAdmit(s, r, id);
    hide Released;
    QuoteAdmitSolvent(mid, r, id);
  }

  /** Solvency does not look at the reservation map. */
  lemma SolventButReservations(s: State, u: State, t: State, r: RfqId)
    requires Solvent(s) && r in t.sections && SectionSolvent(t, r)
    requires u == s.(sections := s.sections[r := t.sections[r]]) && t == u.(reservations := t.reservations)
    ensures Solvent(t)
  {
    SameStore(s, t);
    hide Owed;
    assert SectionsEase(s, t) && SubmissionsEase(s, t) by { hide Solvent, SectionSolvent; }
    hide SectionsEase, SubmissionsEase, Solvent, Eases;
    KeepSolvent(s, t);
  }

  // ------------------------------------------------------------------ the auction's other steps

  lemma OpenSolvent(s: State, rfq: Rfq)
    requires Control(s) && Solvent(s) && CanOpenRfq(s, rfq)
    ensures Solvent(OpenRfq(s, rfq))
  {
    var t := OpenRfq(s, rfq);
    Unfold(s, rfq.id);
    hide Control, Globals, RfqHere, History, QueueOk, Orphans, Exclusive, WellFormed;
    hide Owed, Takers, Live, SectionsEase, SubmissionsEase, Solvent, Eases, WithdrawalHere;
    assert forall q :: q in s.ix.quotes ==> s.ix.quotes[q].rfqId != rfq.id;
    OpenEases(s, rfq);
    SameSections(s, t);
    SameSubmissions(s, t);
    KeepSolvent(s, t);
  }

  lemma OpenEases(s: State, rfq: Rfq)
    requires CanOpenRfq(s, rfq) && forall q :: q in s.ix.quotes ==> s.ix.quotes[q].rfqId != rfq.id
    ensures Eases(s, OpenRfq(s, rfq))
  {
    FewerLive(s, OpenRfq(s, rfq));
    hide Owed, Live;
    OpenTakers(s, rfq);
  }

  lemma SameSections(s: State, t: State)
    requires t.sections == s.sections
    ensures SectionsEase(s, t)
  {
    hide SectionSolvent;
  }

  lemma OpenTakers(s: State, rfq: Rfq)
    requires CanOpenRfq(s, rfq)
    ensures Takers(s) <= Takers(OpenRfq(s, rfq))
  {
    var t := OpenRfq(s, rfq);
    forall x | x in Takers(s) ensures x in Takers(t) {
      var y :| y in s.ix.rfqs && s.ix.rfqs[y].takerSubaccountId == x;
      assert y in t.ix.rfqs && t.ix.rfqs[y].takerSubaccountId == x;
    }
  }

  lemma CancelSolvent(s: State, q: QuoteId)
    requires Control(s) && Solvent(s) && CanCancel(s, q)
    ensures Solvent(Cancel(s, q))
  {
    var r := s.ix.quotes[q].rfqId;
    Unfold(s, r);
    InBooks(s, r);
    NotClearing(s, r);
    assert s.ix.quotes.Keys <= s.used && WellFormed(s.ix) by { hide WellFormed; }
    hide Control, RfqHere, Books, History, QueueOk, Orphans, Exclusive, Globals, Drops, SectionOk, WellFormed, Solvent;
    CancelDrops(s, q);
    DropSolvent(s, Cancel(s, q), r, q);
  }

  lemma CloseDebtless(s: State, t: State, r: RfqId)
    requires ClosesTo(s, t, r)
    ensures Debtless(s, t, r)
  {
    hide Beats;
  }

  lemma CloseSolvent(s: State, r: RfqId, deadline: int)
    requires Control(s) && Solvent(s) && CanClose(s, r)
    ensures Solvent(Close(s, r, deadline))
  {
    Unfold(s, r);
    assert WellFormed(s.ix) by { hide WellFormed; }
    hide *;
    CloseMeans(s, r, deadline);
    CloseDebtless(s, Close(s, r, deadline), r);
    KeepDebtless(s, Close(s, r, deadline), r);
  }

  lemma ExpireIsDebtless(s: State, r: RfqId)
    requires CanExpire(s, r) && s.ix.rfqs[r].id == r
    ensures Debtless(s, Expire(s, r), r)
  {
  }

  lemma ExpireSolvent(s: State, r: RfqId)
    requires Control(s) && Solvent(s) && CanExpire(s, r)
    ensures Solvent(Expire(s, r))
  {
    hide Control, Debtless, Solvent, Expire;
    FiledUnder(s, r);
    ExpireIsDebtless(s, r);
    KeepDebtless(s, Expire(s, r), r);
  }

  lemma AuctionSolvent(s: State, step: AuctionStep)
    requires Control(s) && Solvent(s) && AuctionEnabled(s, step)
    ensures Solvent(AuctionApply(s, step))
  {
    hide Control, Solvent, QuoteAdmit, QuoteDrop, Close, Expire, Cancel, OpenRfq, QuoteBegin;
    match step
    case SOpenRfq(rfq) => OpenSolvent(s, rfq);
    case SQuoteBegin(r, maker, sub) => QuoteBeginSolvent(s, r, maker, sub);
    case SQuoteValidate(r, draft) => QuoteValidateSolvent(s, r, draft);
    case SQuoteAbort(r) => InBooks(s, r); IdleSolvent(s, Finish(s, r), r);
    case SQuoteAdmit(r, id) => QuoteAdmitSolvent(s, r, id);
    case SQuoteDrop(r, id) => QuoteDropSolvent(s, r, id);
    case SQuoteReserve(r) => InBooks(s, r); IdleSolvent(s, QuoteReserve(s, r), r);
    case SCancel(q) => CancelSolvent(s, q);
    case SCancelRelease(r) => InBooks(s, r); IdleSolvent(s, CancelRelease(s, r), r);
    case SClose(r, deadline) => CloseSolvent(s, r, deadline);
    case SExpire(r) => ExpireSolvent(s, r);
  }
}
