/** Quoting, cancelling, closing and expiring keep the control invariant. */
module ProtocolQuotes {
  import opened Types
  import opened RfqIndex
  import opened BestQuote
  import opened AuctionCore
  import opened Protocol
  import opened ProtocolInvariant
  import opened ProtocolFrame

  // ------------------------------------------------------------------ steps that only move a section

  /** Nothing but the section of an open RFQ changes. */
  ghost predicate Moves(s: State, t: State, r: RfqId) {
    && RfqHas(s, r, Open) && t == s.(sections := t.sections)
    && t.sections.Keys <= s.sections.Keys + {r}
    && (forall x :: x != r ==> SameAt(s.sections, t.sections, x))
    && (r in s.sections ==> !s.sections[r].Stored?)
  }

  lemma MoveHere(s: State, t: State, r: RfqId)
    requires Moves(s, t, r) && RfqHere(s, r) && QueueOk(s) && PendingKept(s, t, r)
    requires r in t.sections ==> SectionOk(t, r)
    ensures Rewrites(s, t, r) && RfqHere(t, r) && QueueOk(t)
  {
    assert ReservedAt(t, r) by { RewriteReserved(s, t, r); }
    hide ReservedAt;
    if s.queue.Some? && s.queue.value.RfqOp? && s.queue.value.r != r {
      assert SameAt(s.sections, t.sections, s.queue.value.r);
    }
  }

  lemma KeepMove(s: State, t: State, r: RfqId)
    requires Control(s) && Moves(s, t, r) && PendingKept(s, t, r) && LocksKept(s, t, r)
    requires r in t.sections ==> SectionOk(t, r)
    ensures Control(t)
  {
    Unfold(s, r);
    assert r in s.ix.rfqs;
    hide *;
    MoveHere(s, t, r);
    KeepRewrite(s, t, r);
  }

  lemma BeginMoves(s: State, r: RfqId, maker: Address, sub: Account)
    requires Books(s) && CanQuoteBegin(s, r, sub)
    ensures Moves(s, QuoteBegin(s, r, maker, sub), r) && PendingKept(s, QuoteBegin(s, r, maker, sub), r)
    ensures SectionOk(QuoteBegin(s, r, maker, sub), r)
  {
    ListedQuotes(s.ix, r);
  }

  lemma BeginTakes(s: State, r: RfqId, maker: Address, sub: Account)
    requires Exclusive(s) && CanQuoteBegin(s, r, sub) && s.wsubs.Keys <= s.wds.Keys
    ensures Exclusive(QuoteBegin(s, r, maker, sub))
  {
    hide AccountFree, Exclusive;
    TakeExclusive(s, QuoteBegin(s, r, maker, sub), r);
  }

  lemma KeepQuoteBegin(s: State, r: RfqId, maker: Address, sub: Account)
    requires Control(s) && CanQuoteBegin(s, r, sub)
    ensures Control(QuoteBegin(s, r, maker, sub))
  {
    Unfold(s, r);
    InBooks(s, r);
    hide RfqHere, QueueOk, Exclusive, Control, Rewrites, PendingKept, Moves, Books, SectionOk;
    BeginMoves(s, r, maker, sub);
    MoveHere(s, QuoteBegin(s, r, maker, sub), r);
    BeginTakes(s, r, maker, sub);
    KeepRewriteTaking(s, QuoteBegin(s, r, maker, sub), r);
  }

  lemma ValidateMoves(s: State, r: RfqId, draft: Quote)
    requires CanQuoteValidate(s, r, draft) && SectionOk(s, r)
    ensures Moves(s, QuoteValidate(s, r, draft), r) && PendingKept(s, QuoteValidate(s, r, draft), r)
    ensures LocksKept(s, QuoteValidate(s, r, draft), r) && SectionOk(QuoteValidate(s, r, draft), r)
  {
  }

  lemma SectionHere(s: State, r: RfqId)
    requires Control(s) && r in s.sections
    ensures r in s.ix.rfqs && RfqHere(s, r) && SectionOk(s, r)
  {
    InBooks(s, r);
    Unfold(s, r);
    hide Control, SectionOk, RfqOk, ReconOk, RfqLatched, ReservedAt, Globals, Books, History, QueueOk, Orphans,
        Exclusive;
  }

  lemma KeepQuoteValidate(s: State, r: RfqId, draft: Quote)
    requires Control(s) && CanQuoteValidate(s, r, draft)
    ensures Control(QuoteValidate(s, r, draft))
  {
    hide Control, SectionOk, Moves, PendingKept, LocksKept;
    SectionHere(s, r);
    ValidateMoves(s, r, draft);
    KeepMove(s, QuoteValidate(s, r, draft), r);
  }

  lemma AbortMoves(s: State, r: RfqId)
    requires CanQuoteAbort(s, r) && SectionOk(s, r)
    ensures Moves(s, Finish(s, r), r) && PendingKept(s, Finish(s, r), r) && LocksKept(s, Finish(s, r), r)
  {
  }

  lemma KeepQuoteAbort(s: State, r: RfqId)
    requires Control(s) && CanQuoteAbort(s, r)
    ensures Control(Finish(s, r))
  {
    hide Control, SectionOk, Moves, PendingKept, LocksKept;
    SectionHere(s, r);
    AbortMoves(s, r);
    KeepMove(s, Finish(s, r), r);
  }

  // ------------------------------------------------------------------ dropping a stored quote

  /** A quote of the open RFQ r leaves the store and its release becomes pending. */
  ghost predicate Drops(s: State, t: State, r: RfqId, q: QuoteId) {
    && RfqHas(s, r, Open) && t == s.(ix := DeleteQuote(s.ix, q), sections := t.sections)
    && q in s.used && (q in s.ix.quotes ==> s.ix.quotes[q].rfqId == r)
    && t.sections.Keys == s.sections.Keys + {r}
    && (forall x :: x != r ==> SameAt(s.sections, t.sections, x))
    && (r in s.sections ==> s.sections[r].Validated?)
    && (forall x :: ReleasePending(t, r, x) <==> x == q)
  }

  lemma DropBooks(s: State, t: State, r: RfqId, q: QuoteId)
    requires Books(s) && Drops(s, t, r, q)
    ensures Books(t)
    ensures forall x :: x in t.ix.quotes <==> x in s.ix.quotes && x != q
    ensures forall x :: x in t.ix.quotes ==> t.ix.quotes[x] == s.ix.quotes[x]
  {
    DeleteQuoteWellFormed(s.ix, q);
    hide WellFormed, ReleasePending;
  }

  lemma DropStep(s: State, t: State, r: RfqId, q: QuoteId)
    requires Drops(s, t, r, q)
    requires forall x :: x in t.ix.quotes <==> x in s.ix.quotes && x != q
    requires forall x :: x in t.ix.quotes ==> t.ix.quotes[x] == s.ix.quotes[x]
    ensures RfqStep(s, t, r)
  {
    assert t.ix.rfqs == s.ix.rfqs;
    hide DeleteQuote, ReleasePending;
  }

  lemma DropReserved(s: State, t: State, r: RfqId, q: QuoteId)
    requires Drops(s, t, r, q) && ReservedAt(s, r)
    requires forall x :: x in t.ix.quotes <==> x in s.ix.quotes && x != q
    requires forall x :: x in t.ix.quotes ==> t.ix.quotes[x] == s.ix.quotes[x]
    ensures ReservedAt(t, r)
  {
    assert t.ix.rfqs == s.ix.rfqs;
    hide DeleteQuote;
  }

  lemma DropHere(s: State, t: State, r: RfqId, q: QuoteId)
    requires Drops(s, t, r, q) && RfqHere(s, r) && ReservedAt(t, r) && SectionOk(t, r)
    ensures RfqHere(t, r)
  {
    assert t.ix.rfqs == s.ix.rfqs;
    hide ReservedAt, DeleteQuote, WinnerOk;
  }

  lemma DropQueue(s: State, t: State, r: RfqId, q: QuoteId)
    requires Drops(s, t, r, q) && QueueOk(s)
    ensures QueueOk(t)
  {
    hide DeleteQuote;
    if s.queue.Some? && s.queue.value.RfqOp? && s.queue.value.r != r {
      assert SameAt(s.sections, t.sections, s.queue.value.r);
    }
  }

  lemma DropHistory(s: State, t: State, r: RfqId, q: QuoteId)
    requires Drops(s, t, r, q) && History(s) && RfqHere(s, r)
    requires forall x :: x in t.ix.quotes <==> x in s.ix.quotes && x != q
    requires forall x :: x in t.ix.quotes ==> t.ix.quotes[x] == s.ix.quotes[x]
    ensures History(t)
  {
    assert t.ix.rfqs == s.ix.rfqs;
    assert q in s.chain.paid ==> RfqOp(r) in s.chain.sent;
    hide DeleteQuote, ReservedAt, WinnerOk, SectionOk, ReconOk, RfqLatched;
    KeepHistory(s, t);
  }

  lemma DropOrphans(s: State, t: State, r: RfqId, q: QuoteId)
    requires Drops(s, t, r, q) && Orphans(s)
    requires forall x :: x in t.ix.quotes <==> x in s.ix.quotes && x != q
    requires r in s.recons ==> !s.recons[r].Clearing?
    ensures Orphans(t)
  {
    hide DeleteQuote;
    KeepOrphans(s, t, r);
  }

  lemma KeepDrop(s: State, t: State, r: RfqId, q: QuoteId)
    requires Control(s) && Drops(s, t, r, q) && Exclusive(t)
    requires r in t.ix.rfqs && SectionOk(t, r)
    ensures Control(t)
  {
    Unfold(s, r);
    NotClearing(s, r);
    hide Control, RfqHere, Books, History, QueueOk, Orphans, Exclusive, Drops, RfqStep, SectionOk, ReservedAt;
    assert ReservedAt(s, r) by { ReservedHere(s, r); }
    DropBooks(s, t, r, q);
    DropStep(s, t, r, q);
    DropReserved(s, t, r, q);
    DropHere(s, t, r, q);
    DropQueue(s, t, r, q);
    DropHistory(s, t, r, q);
    DropOrphans(s, t, r, q);
    Fold(t);
    KeepRfqStep(s, t, r);
  }

  lemma ReservedHere(s: State, r: RfqId)
    requires r in s.ix.rfqs && RfqHere(s, r)
    ensures ReservedAt(s, r)
  {
    hide RfqOk, SectionOk, ReconOk, RfqLatched, ReservedAt;
  }

  lemma NotClearing(s: State, r: RfqId)
    requires r in s.ix.rfqs && RfqHere(s, r) && RfqHas(s, r, Open)
    ensures r !in s.recons
  {
    hide RfqOk, SectionOk, RfqLatched, ReservedAt;
  }

  // ------------------------------------------------------------------ storing a fresh quote

  lemma StoreBooks(s: State, r: RfqId, draft: Quote, id: QuoteId)
    requires Books(s) && CanQuoteAdmit(s, r, id) && s.sections[r] == Validated(draft, []) && draft.rfqId == r
    ensures Books(QuoteAdmit(s, r, id))
  {
    PutQuoteWellFormed(s.ix, draft.(id := id));
    hide WellFormed;
  }

  lemma StoreStep(s: State, r: RfqId, draft: Quote, id: QuoteId)
    requires s.ix.quotes.Keys <= s.used
    requires CanQuoteAdmit(s, r, id) && s.sections[r] == Validated(draft, []) && draft.rfqId == r
    ensures RfqStep(s, QuoteAdmit(s, r, id), r)
  {
    var t := QuoteAdmit(s, r, id);
    var q := draft.(id := id);
    assert t == s.(ix := t.ix, used := s.used + {id}, sections := s.sections[r := Stored(q)]);
    assert t.ix.rfqs == s.ix.rfqs && t.ix.quotes == s.ix.quotes[id := q];
    hide QuoteAdmit;
  }

  lemma StoreHere(s: State, r: RfqId, draft: Quote, id: QuoteId)
    requires Orphans(s) && s.ix.quotes.Keys <= s.used
    requires CanQuoteAdmit(s, r, id) && s.sections[r] == Validated(draft, []) && draft.rfqId == r && RfqHere(s, r)
    ensures RfqHere(QuoteAdmit(s, r, id), r)
  {
    var t := QuoteAdmit(s, r, id);
    assert ReservedAt(t, r) by { hide WinnerOk, RfqOk, RfqLatched; }
    hide ReservedAt;
  }

  lemma StoreGlobals(s: State, r: RfqId, draft: Quote, id: QuoteId)
    requires Orphans(s) && Exclusive(s) && QueueOk(s) && History(s) && s.ix.quotes.Keys <= s.used
    requires CanQuoteAdmit(s, r, id) && s.sections[r] == Validated(draft, []) && draft.rfqId == r && r !in s.recons
    ensures Orphans(QuoteAdmit(s, r, id)) && Exclusive(QuoteAdmit(s, r, id)) && QueueOk(QuoteAdmit(s, r, id))
    ensures History(QuoteAdmit(s, r, id))
  {
    var t := QuoteAdmit(s, r, id);
    assert t.chain == s.chain && t.sections == s.sections[r := Stored(draft.(id := id))];
    assert forall q :: q in t.ix.quotes <==> q in s.ix.quotes || q == id;
    hide QuoteAdmit;
    assert Orphans(t) by { hide Exclusive, QueueOk, History; KeepOrphans(s, t, r); }
    assert Exclusive(t) by { hide Orphans, QueueOk, History; KeepExclusive(s, t); }
    assert History(t) by { hide Orphans, QueueOk, Exclusive; KeepHistory(s, t); }
    hide Orphans, Exclusive, History;
  }

  lemma SmallBooks(s: State)
    requires Books(s)
    ensures s.ix.quotes.Keys <= s.used
  {
    hide WellFormed;
  }

  lemma KeepStore(s: State, r: RfqId, draft: Quote, id: QuoteId)
    requires Control(s) && CanQuoteAdmit(s, r, id) && s.sections[r] == Validated(draft, [])
    ensures Control(QuoteAdmit(s, r, id))
  {
    var t := QuoteAdmit(s, r, id);
    SectionHere(s, r);
    Unfold(s, r);
    NotClearing(s, r);
    assert draft.rfqId == r;
    hide *;
    SmallBooks(s);
    StoreBooks(s, r, draft, id);
    StoreStep(s, r, draft, id);
    StoreHere(s, r, draft, id);
    StoreGlobals(s, r, draft, id);
    Fold(t);
    KeepRfqStep(s, t, r);
  }

  lemma AdmitDrops(s: State, r: RfqId, id: QuoteId)
    requires CanQuoteAdmit(s, r, id) && s.sections[r].todo != [] && SectionOk(s, r) && r !in s.recons && WellFormed(s.ix)
    ensures Drops(s, QuoteAdmit(s, r, id), r, s.sections[r].todo[0])
    ensures r in QuoteAdmit(s, r, id).sections && SectionOk(QuoteAdmit(s, r, id), r)
  {
    hide WellFormed;
  }

  lemma AdmitLocks(s: State, r: RfqId, id: QuoteId)
    requires Exclusive(s) && CanQuoteAdmit(s, r, id)
    ensures Exclusive(QuoteAdmit(s, r, id))
  {
    hide Exclusive, PutQuote, DeleteQuote;
    var t := QuoteAdmit(s, r, id);
    assert Holds(t.sections[r]) == Holds(s.sections[r]);
    hide Holds;
    KeepExclusive(s, t);
  }

  lemma KeepQuoteAdmit(s: State, r: RfqId, id: QuoteId)
    requires Control(s) && CanQuoteAdmit(s, r, id)
    ensures Control(QuoteAdmit(s, r, id))
  {
    if s.sections[r].todo == [] {
      hide Control;
      KeepStore(s, r, s.sections[r].draft, id);
    } else {
      SectionHere(s, r);
      Unfold(s, r);
      NotClearing(s, r);
      assert WellFormed(s.ix) by { hide WellFormed; }
      AdmitDrops(s, r, id);
      AdmitLocks(s, r, id);
      hide Control, Drops, Exclusive, SectionOk;
      KeepDrop(s, QuoteAdmit(s, r, id), r, s.sections[r].todo[0]);
    }
  }

  /** Releasing the dropped quote leaves the handler where admission continues. */
  function Released(s: State, r: RfqId): State
    requires r in s.sections && s.sections[r].Dropping?
  {
    AtPc(s.(reservations := s.reservations - {s.sections[r].cur}), r, Validated(s.sections[r].draft, s.sections[r].todo))
  }

  lemma ReleasedHere(s: State, r: RfqId)
    requires r in s.sections && s.sections[r].Dropping? && r in s.ix.rfqs && RfqHere(s, r) && QueueOk(s) && r !in s.recons
    ensures Frees(s, Released(s, r), r, s.sections[r].cur) && LocksKept(s, Released(s, r), r)
    ensures RfqHere(Released(s, r), r) && QueueOk(Released(s, r))
  {
    var t := Released(s, r);
    assert ReservedAt(t, r) by { FreesReserved(s, t, r, s.sections[r].cur); }
    hide ReservedAt, WinnerOk;
  }

  lemma DropIsAdmit(s: State, r: RfqId, id: QuoteId)
    requires CanQuoteDrop(s, r, id) && RfqHas(s, r, Open)
    ensures CanQuoteAdmit(Released(s, r), r, id) && QuoteDrop(s, r, id) == QuoteAdmit(Released(s, r), r, id)
  {
    var mid := Released(s, r);
    var draft, todo := s.sections[r].draft, s.sections[r].todo;
    var freed := s.(reservations := mid.reservations);
    assert mid == AtPc(freed, r, Validated(draft, todo));
    var next := if todo == [] then Stored(draft.(id := id)) else Dropping(draft, todo[0], todo[1..]);
    assert s.sections[r := Validated(draft, todo)][r := next] == s.sections[r := next];
  }

  lemma KeepQuoteDrop(s: State, r: RfqId, id: QuoteId)
    requires Control(s) && CanQuoteDrop(s, r, id)
    ensures Control(QuoteDrop(s, r, id))
  {
    SectionHere(s, r);
    Unfold(s, r);
    NotClearing(s, r);
    hide Control, RfqHere, QueueOk, Frees, LocksKept, Released, QuoteDrop, CanQuoteAdmit, QuoteAdmit;
    ReleasedHere(s, r);
    KeepFrees(s, Released(s, r), r, s.sections[r].cur);
    DropIsAdmit(s, r, id);
    KeepQuoteAdmit(Released(s, r), r, id);
  }

  // ------------------------------------------------------------------ reserving, cancelling

  lemma ReserveHere(s: State, r: RfqId)
    requires CanQuoteReserve(s, r) && r in s.ix.rfqs && RfqHere(s, r) && r !in s.recons
    requires forall q :: q in s.ix.quotes ==> s.ix.quotes[q].id == q
    ensures RfqHere(QuoteReserve(s, r), r)
  {
    var t := QuoteReserve(s, r);
    assert ReservedAt(t, r) by { hide WinnerOk, RfqLatched; }
    hide ReservedAt, WinnerOk;
  }

  lemma ReserveStep(s: State, r: RfqId)
    requires CanQuoteReserve(s, r) && SectionOk(s, r)
    ensures RfqStep(s, QuoteReserve(s, r), r)
  {
  }

  lemma ReserveRest(s: State, t: State, r: RfqId)
    requires t == s.(reservations := t.reservations, sections := s.sections - {r})
    requires r in s.sections && s.sections[r].Stored? && r !in s.recons
    requires t.reservations.Keys == s.reservations.Keys + {s.sections[r].quote.id}
    requires s.sections[r].quote.id in s.ix.quotes && s.sections[r].quote.id in s.used
    requires History(s) && QueueOk(s) && Orphans(s) && Exclusive(s)
    ensures History(t) && QueueOk(t) && Orphans(t) && Exclusive(t)
  {
    assert Orphans(t) by { hide Exclusive, QueueOk, History; KeepOrphans(s, t, r); }
    assert Exclusive(t) by { hide Orphans, QueueOk, History; KeepExclusive(s, t); }
    assert History(t) by { hide Orphans, QueueOk, Exclusive; KeepHistory(s, t); }
    hide Orphans, Exclusive, History;
  }

  lemma ReserveGlobals(s: State, r: RfqId)
    requires CanQuoteReserve(s, r) && SectionOk(s, r) && r !in s.recons
    requires Books(s) && History(s) && QueueOk(s) && Orphans(s) && Exclusive(s)
    ensures Globals(QuoteReserve(s, r))
  {
    var t := QuoteReserve(s, r);
    assert t == s.(reservations := t.reservations, sections := s.sections - {r});
    assert s.sections[r].quote.id in s.ix.quotes && t.reservations.Keys == s.reservations.Keys + {s.sections[r].quote.id};
    assert !s.sections[r].Sent? && !s.sections[r].Hashed?;
    hide QuoteReserve, SectionOk, WellFormed;
    assert Books(t) by { hide Orphans, Exclusive, QueueOk, History; }
    hide Books;
    ReserveRest(s, t, r);
    hide Orphans, Exclusive, QueueOk, History;
  }

  lemma KeepQuoteReserve(s: State, r: RfqId)
    requires Control(s) && CanQuoteReserve(s, r)
    ensures Control(QuoteReserve(s, r))
  {
    SectionHere(s, r);
    Unfold(s, r);
    assert r !in s.recons by { hide *; OpenWithoutRecon(s, r); }
    KeyedQuotes(s);
    hide *;
    ReserveHere(s, r);
    ReserveStep(s, r);
    ReserveGlobals(s, r);
    KeepRfqStep(s, QuoteReserve(s, r), r);
  }

  lemma OpenWithoutRecon(s: State, r: RfqId)
    requires r in s.ix.rfqs && RfqHere(s, r) && r in s.sections
    ensures r !in s.recons
  {
    hide RfqOk, SectionOk, RfqLatched, ReservedAt;
  }

  lemma CancelDrops(s: State, q: QuoteId)
    requires CanCancel(s, q) && s.ix.quotes.Keys <= s.used && WellFormed(s.ix)
    requires s.ix.quotes[q].rfqId !in s.recons && s.ix.quotes[q].rfqId !in s.recovering
    ensures Drops(s, Cancel(s, q), s.ix.quotes[q].rfqId, q)
    ensures s.ix.quotes[q].rfqId in Cancel(s, q).sections && SectionOk(Cancel(s, q), s.ix.quotes[q].rfqId)
  {
    hide WellFormed;
  }

  lemma CancelLocks(s: State, q: QuoteId)
    requires Exclusive(s) && CanCancel(s, q) && s.wsubs.Keys <= s.wds.Keys
    ensures Exclusive(Cancel(s, q))
  {
    hide AccountFree, Exclusive;
    TakeExclusive(s, Cancel(s, q), s.ix.quotes[q].rfqId);
  }

  lemma KeepCancel(s: State, q: QuoteId)
    requires Control(s) && CanCancel(s, q)
    ensures Control(Cancel(s, q))
  {
    var r := s.ix.quotes[q].rfqId;
    Unfold(s, r);
    InBooks(s, r);
    NotClearing(s, r);
    assert s.ix.quotes.Keys <= s.used && WellFormed(s.ix) by { hide WellFormed; }
    hide Control, RfqHere, Books, History, QueueOk, Orphans, Exclusive, Drops, SectionOk, WellFormed;
    CancelDrops(s, q);
    CancelLocks(s, q);
    KeepDrop(s, Cancel(s, q), r, q);
  }

  lemma CancelReleaseHere(s: State, r: RfqId)
    requires CanCancelRelease(s, r) && r in s.ix.rfqs && RfqHere(s, r) && QueueOk(s) && r !in s.recons
    ensures Frees(s, CancelRelease(s, r), r, s.sections[r].dropped) && LocksKept(s, CancelRelease(s, r), r)
    ensures s.sections[r].dropped !in s.ix.quotes
    ensures RfqHere(CancelRelease(s, r), r) && QueueOk(CancelRelease(s, r))
  {
    var t := CancelRelease(s, r);
    assert ReservedAt(t, r) by { FreesReserved(s, t, r, s.sections[r].dropped); }
    hide ReservedAt, WinnerOk;
  }

  lemma KeepCancelRelease(s: State, r: RfqId)
    requires Control(s) && CanCancelRelease(s, r)
    ensures Control(CancelRelease(s, r))
  {
    SectionHere(s, r);
    Unfold(s, r);
    OpenWithoutRecon(s, r);
    hide Control, RfqHere, QueueOk, Frees, LocksKept;
    CancelReleaseHere(s, r);
    KeepFrees(s, CancelRelease(s, r), r, s.sections[r].dropped);
  }

  // ------------------------------------------------------------------ opening, closing, expiring

  lemma OpenStep(s: State, rfq: Rfq)
    requires CanOpenRfq(s, rfq) && Books(s)
    ensures RfqStep(s, OpenRfq(s, rfq), rfq.id) && Books(OpenRfq(s, rfq))
  {
    PutRfqWellFormed(s.ix, rfq);
    hide WellFormed;
  }

  lemma OpenHere(s: State, rfq: Rfq)
    requires CanOpenRfq(s, rfq) && Books(s) && History(s)
    ensures RfqHere(OpenRfq(s, rfq), rfq.id)
  {
    hide WellFormed;
    assert !Known(s, RfqOp(rfq.id));
  }

  lemma OpenGlobals(s: State, rfq: Rfq)
    requires CanOpenRfq(s, rfq) && History(s) && QueueOk(s) && Orphans(s) && Exclusive(s)
    requires rfq.id !in s.sections && rfq.id !in s.recons
    ensures History(OpenRfq(s, rfq)) && QueueOk(OpenRfq(s, rfq)) && Orphans(OpenRfq(s, rfq)) && Exclusive(OpenRfq(s, rfq))
  {
    var t := OpenRfq(s, rfq);
    assert t == s.(ix := t.ix) && t.ix.quotes == s.ix.quotes && t.ix.rfqs.Keys == s.ix.rfqs.Keys + {rfq.id};
    hide OpenRfq;
    assert History(t) by { hide Orphans, QueueOk, Exclusive; KeepHistory(s, t); }
    assert Orphans(t) by { hide Exclusive, QueueOk, History; KeepOrphans(s, t, rfq.id); }
    assert Exclusive(t) by { hide Orphans, QueueOk, History; KeepExclusive(s, t); }
    hide History, Orphans, Exclusive;
  }

  lemma KeepOpenRfq(s: State, rfq: Rfq)
    requires Control(s) && CanOpenRfq(s, rfq)
    ensures Control(OpenRfq(s, rfq))
  {
    Unfold(s, rfq.id);
    InBooks(s, rfq.id);
    hide *;
    OpenStep(s, rfq);
    OpenHere(s, rfq);
    OpenGlobals(s, rfq);
    Fold(OpenRfq(s, rfq));
    KeepRfqStep(s, OpenRfq(s, rfq), rfq.id);
  }

  function OwnIds(ix: Index, r: RfqId): set<QuoteId> { set q | q in ix.quotes && ix.quotes[q].rfqId == r }

  /** What closing does, told without the selection: the RFQ gets an unbeaten winner, whose
      reservation is the only one left among its quotes, or it expires for want of quotes. */
  ghost predicate ClosesTo(s: State, t: State, r: RfqId) {
    && RfqHas(s, r, Open) && r in t.ix.rfqs
    && var rec, own := t.ix.rfqs[r], OwnIds(s.ix, r);
       && t == s.(ix := s.ix.(rfqs := s.ix.rfqs[r := rec]), reservations := t.reservations, recovering := s.recovering - {r})
       && rec == s.ix.rfqs[r].(status := rec.status, bestQuoteId := rec.bestQuoteId, acceptDeadlineAt := rec.acceptDeadlineAt)
       && match rec.bestQuoteId
          case Some(q) =>
            && rec.status == Closed && q in own
            && t.reservations == (s.reservations - own)[q := Reserve(s.ix.quotes[q])]
            && (forall x :: x in s.ix.quotes && s.ix.quotes[x].rfqId == r ==> !Beats(s.ix.quotes[x], s.ix.quotes[q]))
          case None => rec.status == Expired && own == {} && t.reservations == s.reservations
  }

  lemma CloseMeans(s: State, r: RfqId, deadline: int)
    requires CanClose(s, r) && WellFormed(s.ix)
    ensures ClosesTo(s, Close(s, r, deadline), r)
  {
    var quotes := ListQuotes(s.ix, r);
    ListedQuotes(s.ix, r);
    SelectBestIsBest(quotes);
    assert IdsOf(quotes) == OwnIds(s.ix, r) by {
      forall q | q in OwnIds(s.ix, r) ensures q in IdsOf(quotes) { assert s.ix.quotes[q] in quotes; }
    }
    match SelectBest(quotes)
    case None =>
      assert s.reservations - {} == s.reservations;
    case Some(b) =>
      assert b in quotes;
      forall q | q in s.ix.quotes && s.ix.quotes[q].rfqId == r ensures !Beats(s.ix.quotes[q], b) {
        assert s.ix.quotes[q] in quotes;
      }
  }

  lemma CloseHere(s: State, t: State, r: RfqId)
    requires ClosesTo(s, t, r) && RfqHere(s, r) && r !in s.sections && r !in s.recons
    ensures RfqHere(t, r)
  {
    assert ReservedAt(t, r) by { CloseReserved(s, t, r); }
    hide ReservedAt;
  }

  lemma CloseReserved(s: State, t: State, r: RfqId)
    requires ClosesTo(s, t, r)
    ensures ReservedAt(t, r)
  {
    hide Beats, ReleasePending, ReservePending;
    assert t.ix.quotes == s.ix.quotes;
    forall q | q in t.ix.quotes && t.ix.quotes[q].rfqId == r
      ensures Live(t.ix, q) <==> t.ix.rfqs[r].bestQuoteId == Some(q)
      ensures q in t.reservations <==> t.ix.rfqs[r].bestQuoteId == Some(q)
    {
      assert q in OwnIds(s.ix, r);
    }
  }

  lemma CloseStep(s: State, t: State, r: RfqId)
    requires ClosesTo(s, t, r)
    ensures RfqStep(s, t, r)
  {
  }

  lemma CloseBooks(s: State, t: State, r: RfqId)
    requires ClosesTo(s, t, r) && Books(s)
    ensures Books(t)
  {
    PutRfqWellFormed(s.ix, t.ix.rfqs[r]);
    hide WellFormed, Beats;
  }

  lemma CloseGlobals(s: State, t: State, r: RfqId)
    requires ClosesTo(s, t, r) && History(s) && QueueOk(s) && Orphans(s) && Exclusive(s) && s.ix.quotes.Keys <= s.used
    ensures History(t) && QueueOk(t) && Orphans(t) && Exclusive(t)
  {
    hide Beats;
    assert t.reservations.Keys <= s.reservations.Keys + s.ix.quotes.Keys;
    assert Orphans(t) by { hide Exclusive, QueueOk, History; KeepOrphans(s, t, r); }
    assert Exclusive(t) by { hide Orphans, QueueOk, History; KeepExclusive(s, t); }
    assert History(t) by { hide Orphans, QueueOk, Exclusive; KeepHistory(s, t); }
    hide Orphans, Exclusive, History;
  }

  lemma KeepClose(s: State, r: RfqId, deadline: int)
    requires Control(s) && CanClose(s, r)
    ensures Control(Close(s, r, deadline))
  {
    var t := Close(s, r, deadline);
    Unfold(s, r);
    NotClearing(s, r);
    assert WellFormed(s.ix) && s.ix.quotes.Keys <= s.used && r in t.ix.rfqs by { hide WellFormed; }
    hide *;
    CloseMeans(s, r, deadline);
    CloseHere(s, t, r);
    CloseStep(s, t, r);
    CloseBooks(s, t, r);
    CloseGlobals(s, t, r);
    Fold(t);
    KeepRfqStep(s, t, r);
  }

  lemma ExpireHere(s: State, r: RfqId)
    requires CanExpire(s, r) && RfqHere(s, r) && QueueOk(s)
    requires WinnerQuote(s, r).id == WinnerId(s, r)
    ensures Rewrites(s, Expire(s, r), r) && PendingKept(s, Expire(s, r), r)
    ensures RfqHere(Expire(s, r), r) && QueueOk(Expire(s, r))
  {
    var t := Expire(s, r);
    WinnerKept(s, t, r);
    hide WinnerOk;
    assert ReservedAt(t, r) by { hide RfqLatched; }
    hide ReservedAt;
  }

  lemma ExpireTakes(s: State, r: RfqId)
    requires CanExpire(s, r) && Exclusive(s) && s.wsubs.Keys <= s.wds.Keys
    ensures Exclusive(Expire(s, r))
  {
    hide Exclusive, AccountFree;
    TakeExclusive(s, Expire(s, r), r);
  }

  lemma KeepExpire(s: State, r: RfqId)
    requires Control(s) && CanExpire(s, r)
    ensures Control(Expire(s, r))
  {
    Unfold(s, r);
    InBooks(s, r);
    KeyedQuotes(s);
    hide Control, RfqHere, QueueOk, Rewrites, PendingKept, Exclusive, Expire;
    ExpireHere(s, r);
    ExpireTakes(s, r);
    KeepRewriteTaking(s, Expire(s, r), r);
  }
}
