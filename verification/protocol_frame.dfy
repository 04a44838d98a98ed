/** A step works on one operation. What it leaves alone keeps the invariant, so each step only
    has to be checked where it acts. */
module ProtocolFrame {
  import opened Types
  import opened RfqIndex
  import opened AuctionCore
  import opened Protocol
  import opened ProtocolInvariant

  predicate SameAt<K, V(==)>(m: map<K, V>, n: map<K, V>, k: K) {
    (k in m <==> k in n) && (k in m ==> m[k] == n[k])
  }

  ghost predicate SameRfq(s: State, t: State, x: RfqId) {
    && SameAt(s.ix.rfqs, t.ix.rfqs, x) && SameAt(s.sections, t.sections, x) && SameAt(s.recons, t.recons, x)
    && (x in s.recovering <==> x in t.recovering)
    && (forall q :: q in s.ix.quotes && s.ix.quotes[q].rfqId == x ==>
          q in t.ix.quotes && t.ix.quotes[q] == s.ix.quotes[q] && SameAt(s.reservations, t.reservations, q))
    && (forall q :: q in t.ix.quotes && t.ix.quotes[q].rfqId == x ==> q in s.ix.quotes)
  }

  ghost predicate SameWithdrawal(s: State, t: State, x: WId) {
    && SameAt(s.wds, t.wds, x) && SameAt(s.wsubs, t.wsubs, x)
    && (x in s.claims <==> x in t.claims) && (x in s.wrecovering <==> x in t.wrecovering)
  }

  predicate SameOp(s: State, t: State, o: OpId) {
    && SameAt(s.chain.sent, t.chain.sent, o) && SameAt(s.chain.outcome, t.chain.outcome, o)
    && (s.queue == Some(o) <==> t.queue == Some(o))
    && (OpLatch(o) in s.latches ==> OpLatch(o) in t.latches)
  }

  /** What no step takes back. */
  ghost predicate Onward(s: State, t: State) {
    && s.chain.burned <= t.chain.burned && s.chain.time <= t.chain.time && s.used <= t.used
    && (forall h :: ExecutedData(s.chain, h) ==> ExecutedData(t.chain, h))
    && (Traffic(s) ==> Traffic(t))
    && (forall q :: q in t.ix.quotes ==> if q in s.ix.quotes then t.ix.quotes[q] == s.ix.quotes[q] else q !in s.used)
  }

  lemma OtherRfq(s: State, t: State, x: RfqId)
    requires x in s.ix.rfqs && RfqHere(s, x) && s.ix.quotes.Keys <= s.used
    requires SameRfq(s, t, x) && SameOp(s, t, RfqOp(x)) && Onward(s, t)
    ensures x in t.ix.rfqs && RfqHere(t, x)
  {
    OtherRfqOk(s, t, x);
    OtherSectionOk(s, t, x);
    OtherReservedAt(s, t, x);
  }

  lemma OtherRfqOk(s: State, t: State, x: RfqId)
    requires x in s.ix.rfqs && RfqOk(s, x)
    requires SameRfq(s, t, x) && SameOp(s, t, RfqOp(x)) && Onward(s, t)
    ensures RfqOk(t, x)
  {
    if HasWinner(s, x) && WinnerOk(s, x) { assert WinnerQuote(t, x) == WinnerQuote(s, x); }
  }

  lemma OtherSectionOk(s: State, t: State, x: RfqId)
    requires x in s.ix.rfqs && RfqOk(s, x) && s.ix.quotes.Keys <= s.used
    requires SameRfq(s, t, x) && SameOp(s, t, RfqOp(x)) && Onward(s, t)
    ensures x in s.sections && SectionOk(s, x) ==> SectionOk(t, x)
    ensures x in s.recons && ReconOk(s, x) ==> ReconOk(t, x)
  {
    if HasWinner(s, x) { assert WinnerQuote(t, x) == WinnerQuote(s, x); }
  }

  lemma OtherReservedAt(s: State, t: State, x: RfqId)
    requires x in s.ix.rfqs && ReservedAt(s, x) && SameRfq(s, t, x)
    requires forall q :: q in t.ix.quotes && q in s.ix.quotes ==> t.ix.quotes[q] == s.ix.quotes[q]
    ensures ReservedAt(t, x)
  {
    forall q | q in t.ix.quotes && t.ix.quotes[q].rfqId == x
      ensures q in s.ix.quotes && s.ix.quotes[q] == t.ix.quotes[q] && SameAt(s.reservations, t.reservations, q)
      ensures Live(t.ix, q) == Live(s.ix, q)
      ensures ReleasePending(t, x, q) == ReleasePending(s, x, q)
    {
    }
  }

  lemma OtherWithdrawal(s: State, t: State, x: WId)
    requires x in s.wds && WithdrawalHere(s, x)
    requires SameWithdrawal(s, t, x) && SameOp(s, t, WdOp(x)) && Onward(s, t)
    ensures x in t.wds && WithdrawalHere(t, x)
  {
  }

  // ------------------------------------------------------------------ steps on one RFQ

  ghost predicate OtherOps(s: State, t: State, op: OpId) { forall o :: o != op ==> SameOp(s, t, o) }

  /** Only RFQ r and what is filed under it may have changed. */
  ghost predicate RfqStep(s: State, t: State, r: RfqId) {
    && s.ix.rfqs.Keys <= t.ix.rfqs.Keys <= s.ix.rfqs.Keys + {r}
    && (forall x :: x in s.ix.rfqs && x != r ==> SameRfq(s, t, x))
    && t.wds == s.wds && t.wsubs == s.wsubs && t.claims == s.claims && t.wrecovering == s.wrecovering
    && OtherOps(s, t, RfqOp(r)) && Onward(s, t)
  }

  /** Likewise for one withdrawal; the auction's side is untouched. */
  ghost predicate WithdrawalStep_(s: State, t: State, w: WId) {
    && s.wds.Keys <= t.wds.Keys <= s.wds.Keys + {w}
    && (forall x :: x in s.wds && x != w ==> SameWithdrawal(s, t, x))
    && t.ix == s.ix && t.sections == s.sections && t.recons == s.recons && t.reservations == s.reservations
    && t.recovering == s.recovering
    && OtherOps(s, t, WdOp(w)) && Onward(s, t)
  }

  ghost predicate Globals(t: State) { Books(t) && History(t) && QueueOk(t) && Orphans(t) && Exclusive(t) }

  lemma KeepRfqStep(s: State, t: State, r: RfqId)
    requires Control(s) && RfqStep(s, t, r)
    requires r in t.ix.rfqs ==> RfqHere(t, r)
    requires Globals(t)
    ensures Control(t)
  {
    forall x | x in t.ix.rfqs ensures RfqHere(t, x) {
      if x != r { assert RfqHere(s, x); assert SameOp(s, t, RfqOp(x)); OtherRfq(s, t, x); }
    }
    forall x | x in t.wds ensures WithdrawalHere(t, x) {
      assert SameOp(s, t, WdOp(x));
      OtherWithdrawal(s, t, x);
    }
  }

  lemma Untouched(s: State, t: State, x: RfqId)
    requires t.ix == s.ix && t.sections == s.sections && t.recons == s.recons && t.reservations == s.reservations
    requires t.recovering == s.recovering
    ensures SameRfq(s, t, x)
  {
  }

  lemma KeepWithdrawals(s: State, t: State, w: WId)
    requires forall x :: x in s.wds ==> WithdrawalHere(s, x)
    requires s.wds.Keys <= t.wds.Keys <= s.wds.Keys + {w}
    requires forall x :: x in s.wds && x != w ==> SameWithdrawal(s, t, x)
    requires OtherOps(s, t, WdOp(w)) && Onward(s, t)
    requires w in t.wds ==> WithdrawalHere(t, w)
    ensures forall x :: x in t.wds ==> WithdrawalHere(t, x)
  {
    forall x | x in t.wds ensures WithdrawalHere(t, x) {
      if x != w { assert WithdrawalHere(s, x); assert SameOp(s, t, WdOp(x)); OtherWithdrawal(s, t, x); }
    }
  }

  lemma KeepWithdrawalStep(s: State, t: State, w: WId)
    requires Control(s) && WithdrawalStep_(s, t, w)
    requires w in t.wds ==> WithdrawalHere(t, w)
    requires Globals(t)
    ensures Control(t)
  {
    forall x | x in t.ix.rfqs ensures RfqHere(t, x) {
      assert RfqHere(s, x);
      assert SameOp(s, t, RfqOp(x));
      Untouched(s, t, x);
      OtherRfq(s, t, x);
    }
    KeepWithdrawals(s, t, w);
  }

  // ------------------------------------------------------------------ the global parts

  lemma KeepHistory(s: State, t: State)
    requires History(s) && t.chain == s.chain
    requires s.ix.rfqs.Keys <= t.ix.rfqs.Keys && s.wds.Keys <= t.wds.Keys
    requires forall q :: q in s.chain.paid && q in s.ix.quotes ==> q in t.ix.quotes && t.ix.quotes[q] == s.ix.quotes[q]
    ensures History(t)
  {
  }

  /** No lock is taken. */
  lemma KeepExclusive(s: State, t: State)
    requires Exclusive(s)
    requires forall r :: r in t.sections ==> r in s.sections && Holds(t.sections[r]) <= Holds(s.sections[r])
    requires forall w :: w in t.wsubs && !t.wsubs[w].Waiting? ==> w in s.wsubs && !s.wsubs[w].Waiting?
    requires forall w :: w in s.wds && w in s.wsubs && !s.wsubs[w].Waiting? ==> w in t.wds && t.wds[w].account == s.wds[w].account
    ensures Exclusive(t)
  {
  }

  /** An RFQ's section takes free account locks. */
  lemma TakeExclusive(s: State, t: State, r: RfqId)
    requires Exclusive(s) && r !in s.sections
    requires t.sections.Keys == s.sections.Keys + {r} && (forall x :: x in s.sections ==> t.sections[x] == s.sections[x])
    requires t.wsubs == s.wsubs && t.wds == s.wds && s.wsubs.Keys <= s.wds.Keys
    requires forall a :: a in Holds(t.sections[r]) ==> AccountFree(s, a)
    ensures Exclusive(t)
  {
    var held := Holds(t.sections[r]);
    FreeOfSections(s, held);
    hide Holds, AccountFree;
    assert forall w :: w in s.wsubs && !s.wsubs[w].Waiting? ==> s.wds[w].account !in held by { FreeOfWithdrawals(s, held); }
  }

  lemma FreeOfSections(s: State, held: set<Account>)
    requires forall a :: a in held ==> AccountFree(s, a)
    ensures forall x :: x in s.sections ==> held !! Holds(s.sections[x])
  {
    hide Holds;
    forall x | x in s.sections ensures held !! Holds(s.sections[x]) {
      forall a | a in held ensures a !in Holds(s.sections[x]) { assert AccountFree(s, a); }
    }
  }

  lemma FreeOfWithdrawals(s: State, held: set<Account>)
    requires forall a :: a in held ==> AccountFree(s, a)
    ensures forall w :: w in s.wsubs && !s.wsubs[w].Waiting? && w in s.wds ==> s.wds[w].account !in held
  {
  }

  /** Reservations of vanished quotes come only with the release that will drop them. */
  lemma KeepOrphans(s: State, t: State, r: RfqId)
    requires Orphans(s) && t.reservations.Keys <= t.used
    requires forall q :: q in t.reservations && q !in t.ix.quotes && !ReleasePending(t, r, q) ==>
               q in s.reservations && q !in s.ix.quotes && !ReleasePending(s, r, q)
    requires forall x :: x != r ==> SameAt(s.sections, t.sections, x) && SameAt(s.recons, t.recons, x)
    ensures Orphans(t)
  {
    forall q | q in t.reservations && q !in t.ix.quotes ensures exists x :: ReleasePending(t, x, q) {
      if !ReleasePending(t, r, q) {
        var x :| ReleasePending(s, x, q);
        assert SameAt(s.sections, t.sections, x) && SameAt(s.recons, t.recons, x);
        assert ReleasePending(t, x, q);
      }
    }
  }

  // ------------------------------------------------------------------ steps that rewrite one record

  /** The record of r is rewritten in place; nothing else durable changes, nor any reservation. */
  ghost predicate Rewrites(s: State, t: State, r: RfqId) {
    && r in s.ix.rfqs && r in t.ix.rfqs && t.ix.rfqs[r].id == r
    && t.ix == s.ix.(rfqs := s.ix.rfqs[r := t.ix.rfqs[r]])
    && t.wds == s.wds && t.wsubs == s.wsubs && t.claims == s.claims && t.wrecovering == s.wrecovering
    && t.used == s.used && t.chain == s.chain && t.reservations == s.reservations
    && t.recovering <= s.recovering <= t.recovering + {r}
    && t.sections.Keys <= s.sections.Keys + {r} && t.recons.Keys <= s.recons.Keys + {r}
    && (forall x :: x != r ==> SameAt(s.sections, t.sections, x) && SameAt(s.recons, t.recons, x))
    && (forall o :: o != RfqOp(r) ==> (s.queue == Some(o) <==> t.queue == Some(o)))
    && (forall o :: o != RfqOp(r) && OpLatch(o) in s.latches ==> OpLatch(o) in t.latches)
  }

  ghost predicate PendingKept(s: State, t: State, r: RfqId) {
    forall q :: ReleasePending(s, r, q) ==> ReleasePending(t, r, q)
  }

  /** The section of r takes no lock. */
  ghost predicate LocksKept(s: State, t: State, r: RfqId) {
    r in t.sections ==> r in s.sections && Holds(t.sections[r]) <= Holds(s.sections[r])
  }

  lemma RewriteIsRfqStep(s: State, t: State, r: RfqId)
    requires Rewrites(s, t, r)
    ensures RfqStep(s, t, r)
  {
  }

  lemma RewriteKeepsBooks(s: State, t: State, r: RfqId)
    requires Books(s) && Rewrites(s, t, r)
    ensures Books(t)
  {
    PutRfqWellFormed(s.ix, t.ix.rfqs[r]);
  }

  lemma RewriteKeepsHistory(s: State, t: State, r: RfqId)
    requires History(s) && Rewrites(s, t, r)
    ensures History(t)
  {
    KeepHistory(s, t);
  }

  lemma RewriteKeepsOrphans(s: State, t: State, r: RfqId)
    requires Orphans(s) && Rewrites(s, t, r) && PendingKept(s, t, r)
    ensures Orphans(t)
  {
    KeepOrphans(s, t, r);
  }

  lemma RewriteKeepsExclusive(s: State, t: State, r: RfqId)
    requires Exclusive(s) && Rewrites(s, t, r) && LocksKept(s, t, r)
    ensures Exclusive(t)
  {
    forall x | x in t.sections ensures x in s.sections && Holds(t.sections[x]) <= Holds(s.sections[x]) {
      if x != r { assert SameAt(s.sections, t.sections, x); }
    }
    hide Holds, SameAt;
    KeepExclusive(s, t);
  }

  lemma Unfold(s: State, r: RfqId)
    requires Control(s)
    ensures r in s.ix.rfqs ==> RfqHere(s, r)
    ensures Globals(s)
    ensures Books(s) && History(s) && QueueOk(s) && Orphans(s) && Exclusive(s)
  {
    hide RfqHere, WithdrawalHere, Books, History, QueueOk, Orphans, Exclusive;
  }

  lemma InBooks(s: State, r: RfqId)
    requires Control(s)
    ensures r in s.sections || r in s.recons || r in s.recovering ==> r in s.ix.rfqs
    ensures s.wsubs.Keys <= s.wds.Keys
  {
    hide RfqHere, WithdrawalHere, History, QueueOk, Orphans, Exclusive, WellFormed;
  }

  lemma KeyedQuotes(s: State)
    requires Control(s)
    ensures forall q :: q in s.ix.quotes ==> s.ix.quotes[q].id == q
  {
    hide RfqHere, WithdrawalHere, History, QueueOk, Orphans, Exclusive;
  }

  lemma Fold(t: State)
    requires Books(t) && History(t) && QueueOk(t) && Orphans(t) && Exclusive(t)
    ensures Globals(t)
  {
    hide Books, History, QueueOk, Orphans, Exclusive;
  }

  /** A rewrite that also may take locks. */
  lemma KeepRewriteTaking(s: State, t: State, r: RfqId)
    requires Control(s) && Rewrites(s, t, r) && PendingKept(s, t, r)
    requires r in t.ix.rfqs && RfqHere(t, r) && QueueOk(t) && Exclusive(t)
    ensures Control(t)
  {
    hide *;
    Unfold(s, r);
    RewriteIsRfqStep(s, t, r);
    RewriteKeepsBooks(s, t, r);
    RewriteKeepsHistory(s, t, r);
    RewriteKeepsOrphans(s, t, r);
    Fold(t);
    KeepRfqStep(s, t, r);
  }

  lemma KeepRewrite(s: State, t: State, r: RfqId)
    requires Control(s) && Rewrites(s, t, r) && PendingKept(s, t, r) && LocksKept(s, t, r)
    requires r in t.ix.rfqs && RfqHere(t, r) && QueueOk(t)
    ensures Control(t)
  {
    hide *;
    Unfold(s, r);
    RewriteKeepsExclusive(s, t, r);
    KeepRewriteTaking(s, t, r);
  }

  /** Rewriting a record may end the life of a quote only when its release follows. */
  ghost predicate LivesKept(s: State, t: State, r: RfqId) {
    forall q :: q in s.ix.quotes && s.ix.quotes[q].rfqId == r ==>
      && (Live(t.ix, q) ==> Live(s.ix, q))
      && (Live(s.ix, q) && !Live(t.ix, q) ==> ReleasePending(t, r, q))
  }

  lemma RewriteReserved(s: State, t: State, r: RfqId)
    requires ReservedAt(s, r) && Rewrites(s, t, r) && t.recovering == s.recovering
    requires PendingKept(s, t, r) && LivesKept(s, t, r)
    requires r in s.sections ==> !s.sections[r].Stored?
    ensures ReservedAt(t, r)
  {
    hide Live, ReleasePending;
  }

  lemma WinnerKept(s: State, t: State, r: RfqId)
    requires r in s.ix.rfqs && r in t.ix.rfqs && t.ix.quotes == s.ix.quotes
    requires t.ix.rfqs[r].bestQuoteId == s.ix.rfqs[r].bestQuoteId
    ensures WinnerOk(t, r) == WinnerOk(s, r)
    ensures WinnerOk(s, r) ==> HasWinner(s, r) && WinnerQuote(s, r).rfqId == r
  {
  }

  // ------------------------------------------------------------------ steps that release a reservation

  /** The release that r's handler or reconciliation had pending takes place. */
  ghost predicate Frees(s: State, t: State, r: RfqId, q: QuoteId) {
    && r in s.ix.rfqs && ReleasePending(s, r, q)
    && t.ix == s.ix && t.wds == s.wds && t.wsubs == s.wsubs && t.claims == s.claims && t.wrecovering == s.wrecovering
    && t.used == s.used && t.chain == s.chain && t.queue == s.queue && t.recovering == s.recovering
    && t.reservations == s.reservations - {q}
    && t.sections.Keys <= s.sections.Keys && t.recons.Keys <= s.recons.Keys
    && (forall x :: x != r ==> SameAt(s.sections, t.sections, x) && SameAt(s.recons, t.recons, x))
    && (forall o :: o != RfqOp(r) && OpLatch(o) in s.latches ==> OpLatch(o) in t.latches)
    && (forall x :: ReleasePending(s, r, x) ==> x == q)
  }

  lemma FreesIsRfqStep(s: State, t: State, r: RfqId, q: QuoteId)
    requires Frees(s, t, r, q) && (q in s.ix.quotes ==> s.ix.quotes[q].rfqId == r)
    ensures RfqStep(s, t, r)
  {
  }

  lemma FreesKeepsBooks(s: State, t: State, r: RfqId, q: QuoteId)
    requires Frees(s, t, r, q) && Books(s)
    ensures Books(t)
  {
  }

  lemma FreesKeepsOrphans(s: State, t: State, r: RfqId, q: QuoteId)
    requires Frees(s, t, r, q) && Orphans(s)
    ensures Orphans(t)
  {
    assert forall x :: x in t.reservations ==> !ReleasePending(s, r, x);
    forall x | x in t.reservations && x !in t.ix.quotes ensures exists y :: ReleasePending(t, y, x) {
      var y :| ReleasePending(s, y, x);
      assert SameAt(s.sections, t.sections, y) && SameAt(s.recons, t.recons, y);
      assert ReleasePending(t, y, x);
    }
  }

  lemma FreesKeepsHistory(s: State, t: State, r: RfqId, q: QuoteId)
    requires Frees(s, t, r, q) && History(s)
    ensures History(t)
  {
    KeepHistory(s, t);
  }

  lemma FreesKeepsExclusive(s: State, t: State, r: RfqId, q: QuoteId)
    requires Frees(s, t, r, q) && Exclusive(s) && LocksKept(s, t, r)
    ensures Exclusive(t)
  {
    forall x | x in t.sections ensures x in s.sections && Holds(t.sections[x]) <= Holds(s.sections[x]) {
      if x != r { assert SameAt(s.sections, t.sections, x); }
    }
    hide Holds, SameAt, ReleasePending;
    KeepExclusive(s, t);
  }

  lemma FreesReserved(s: State, t: State, r: RfqId, q: QuoteId)
    requires Frees(s, t, r, q) && ReservedAt(s, r) && !Live(s.ix, q)
    requires r in s.sections ==> !s.sections[r].Stored?
    ensures ReservedAt(t, r)
  {
    hide Live, ReleasePending;
  }

  lemma KeepFrees(s: State, t: State, r: RfqId, q: QuoteId)
    requires Control(s) && Frees(s, t, r, q) && LocksKept(s, t, r) && (q in s.ix.quotes ==> s.ix.quotes[q].rfqId == r)
    requires r in t.ix.rfqs && RfqHere(t, r) && QueueOk(t)
    ensures Control(t)
  {
    hide *;
    Unfold(s, r);
    FreesIsRfqStep(s, t, r, q);
    FreesKeepsBooks(s, t, r, q);
    FreesKeepsHistory(s, t, r, q);
    FreesKeepsOrphans(s, t, r, q);
    FreesKeepsExclusive(s, t, r, q);
    Fold(t);
    KeepRfqStep(s, t, r);
  }

  // ------------------------------------------------------------------ broadcasts

  /** With an idle queue, no latch and no recovery under way, nothing broadcast is undecided. */
  lemma AllSettled(s: State)
    requires Control(s) && s.queue == None && s.latches == {} && Traffic(s)
    ensures forall op :: op in s.chain.sent ==> Resolved(s.chain, op)
  {
    hide Orphans, Exclusive, ReservedAt, WellFormed, WinnerOk, RfqOk, SectionOk, ReconOk, WithdrawalOk, SubmissionOk;
    forall op | op in s.chain.sent ensures Resolved(s.chain, op) {
      match op
      case RfqOp(r) => assert RfqHere(s, r);
      case WdOp(w) => assert WithdrawalHere(s, w);
    }
  }

  /** A broadcast takes nothing back from what has executed. */
  lemma RecordKeepsData(s: State, op: OpId, p: Payload)
    requires op !in s.chain.sent
    ensures forall h :: ExecutedData(s.chain, h) ==> ExecutedData(Record(s, op, p).chain, h)
  {
    var d := Record(s, op, p).chain;
    forall h: Hash | ExecutedData(s.chain, h) ensures ExecutedData(d, h) {
      var o :| o in s.chain.sent && s.chain.sent[o].data == Some(h) && Succeeded(s.chain, o);
      assert o in d.sent && d.sent[o].data == Some(h) && Succeeded(d, o);
    }
  }

  lemma RecordKeepsHistory(s: State, t: State, op: OpId, p: Payload)
    requires History(s) && op !in s.chain.sent && Known(s, op)
    requires t.chain == Record(s, op, p).chain && t.ix == s.ix && t.wds.Keys == s.wds.Keys
    ensures History(t)
  {
    assert op !in s.chain.broadcasts;
    assert t.chain.broadcasts == s.chain.broadcasts + [op];
  }
}
