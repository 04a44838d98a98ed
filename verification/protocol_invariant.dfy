/** The inductive invariant of the protocol, in seven parts. */
module ProtocolInvariant {
  import opened Types
  import opened RfqIndex
  import opened BestQuote
  import opened AuctionCore
  import opened Sums
  import opened Protocol

  // ------------------------------------------------------------------ records and handlers

  ghost predicate WinnerOk(s: State, r: RfqId)
    requires r in s.ix.rfqs
  {
    && HasWinner(s, r)
    && WinnerQuote(s, r).rfqId == r
    && (forall q :: q in s.ix.quotes && s.ix.quotes[q].rfqId == r ==> !Beats(s.ix.quotes[q], WinnerQuote(s, r)))
  }

  predicate Accepted(status: Status) { status == Executing || status == Executed || status == Failed }

  predicate PastIntent(s: State, r: RfqId)
    requires r in s.ix.rfqs && s.ix.rfqs[r].executionIntent.Some?
  {
    && s.chain.time > s.ix.rfqs[r].executionIntent.value.maker.expiry
    && s.chain.time > s.ix.rfqs[r].executionIntent.value.taker.expiry
  }

  /** A record tells the truth about the chain, and keeps the winner its auction chose. */
  ghost predicate RfqOk(s: State, r: RfqId)
    requires r in s.ix.rfqs
  {
    var rfq, op := s.ix.rfqs[r], RfqOp(r);
    && (rfq.status == Open ==> rfq.bestQuoteId == None)
    && (rfq.status == Closed || Accepted(rfq.status) ==> rfq.bestQuoteId.Some?)
    && (rfq.bestQuoteId.Some? ==> WinnerOk(s, r))
    && (Accepted(rfq.status) ==> rfq.executionIntent.Some?)
    && (Accepted(rfq.status) ==> rfq.executionIntent.value.fill.quoteId == WinnerId(s, r))
    && (op in s.chain.sent ==> Accepted(rfq.status))
    && (op in s.chain.sent ==> s.chain.sent[op] == RfqPayload(s, r))
    && (rfq.status == Executed ==> NonceUsed(s.chain, op))
    && (rfq.status == Executed ==> ExecutedData(s.chain, rfq.executionIntent.value.calldataHash))
    && (rfq.status == Failed ==> !Succeeded(s.chain, op))
    && (rfq.status == Failed ==> op in s.chain.outcome || PastIntent(s, r))
  }

  ghost predicate OwnQuotes(s: State, r: RfqId, ids: seq<QuoteId>) {
    forall p :: p in ids ==> p in s.used && (p in s.ix.quotes ==> s.ix.quotes[p].rfqId == r)
  }

  predicate WonBy(s: State, r: RfqId, q: QuoteId) { HasWinner(s, r) && WinnerId(s, r) == q }

  ghost predicate SectionOk(s: State, r: RfqId)
    requires r in s.sections
  {
    var op := RfqOp(r);
    && r in s.ix.rfqs && r !in s.recovering
    && var status := s.ix.rfqs[r].status;
       match s.sections[r]
       case Quoting(_, _, priors, _) => status == Open && OwnQuotes(s, r, priors)
       case Validated(draft, todo) => status == Open && OwnQuotes(s, r, todo) && draft.rfqId == r
       case Dropping(draft, cur, todo) =>
         status == Open && OwnQuotes(s, r, todo) && draft.rfqId == r && cur in s.used && cur !in s.ix.quotes
       case Stored(q) => status == Open && q.id in s.ix.quotes && s.ix.quotes[q.id] == q && q.rfqId == r
       case Cancelling(d, _) => status == Open && d in s.used && d !in s.ix.quotes
       case Accepting(_, _, w) => status == Closed && WonBy(s, r, w) && Traffic(s)
       case Queued(_, _, w) => status == Executing && WonBy(s, r, w) && Traffic(s) && op !in s.chain.sent
       case Sent(_, _, w) => status == Executing && WonBy(s, r, w) && op in s.chain.sent && s.queue == Some(op)
       case Hashed(_, _, w) => status == Executing && WonBy(s, r, w) && op in s.chain.sent && s.queue == Some(op)
       case Mined(_, _, w, ok) =>
         && status == Executing && WonBy(s, r, w) && op in s.chain.sent
         && op in s.chain.outcome && s.chain.outcome[op] == ok && s.queue != Some(op)
       case Refused(_, _, w) => status == Closed && WonBy(s, r, w)
       case Releasing(w, _, clear) => Terminal(status) && WonBy(s, r, w) && (clear ==> op in s.chain.outcome)
  }

  ghost predicate ReconOk(s: State, r: RfqId)
    requires r in s.recons
  {
    && r in s.ix.rfqs && r !in s.recovering && r !in s.sections
    && match s.recons[r]
       case Reading => s.ix.rfqs[r].status == Executing
       case Got(AnswerMined(ok)) =>
         && s.ix.rfqs[r].status == Executing && s.ix.rfqs[r].executionIntent.Some?
         && (ok ==> NonceUsed(s.chain, RfqOp(r)) && ExecutedData(s.chain, s.ix.rfqs[r].executionIntent.value.calldataHash))
         && (!ok ==> RfqOp(r) in s.chain.outcome && !s.chain.outcome[RfqOp(r)])
       case Got(AnswerExpiredUnused) =>
         && s.ix.rfqs[r].status == Executing && s.ix.rfqs[r].executionIntent.Some?
         && !Succeeded(s.chain, RfqOp(r)) && PastIntent(s, r)
       case Clearing(w, _) => WonBy(s, r, w) && (s.ix.rfqs[r].status == Executed || s.ix.rfqs[r].status == Failed)
  }

  /** Every record is filed under its key, and what is volatile concerns what is durable. */
  ghost predicate Books(s: State) {
    && WellFormed(s.ix)
    && s.ix.quotes.Keys <= s.used
    && s.sections.Keys <= s.ix.rfqs.Keys && s.recons.Keys <= s.ix.rfqs.Keys && s.recovering <= s.ix.rfqs.Keys
    && s.wsubs.Keys <= s.wds.Keys && s.claims <= s.wds.Keys && s.wrecovering <= s.wds.Keys
    && (forall q :: q in s.ix.quotes ==> s.ix.quotes[q].rfqId in s.ix.rfqs)
  }

  /** What executed once has executed for good. */
  lemma OwnData(s: State, r: RfqId)
    requires r in s.ix.rfqs && RfqOk(s, r) && RfqOp(r) in s.chain.sent && Succeeded(s.chain, RfqOp(r))
    ensures s.ix.rfqs[r].executionIntent.Some? && ExecutedData(s.chain, s.ix.rfqs[r].executionIntent.value.calldataHash)
  {
    hide WinnerOk;
    var op := RfqOp(r);
    assert s.chain.sent[op].data == Some(s.ix.rfqs[r].executionIntent.value.calldataHash);
  }

  // ------------------------------------------------------------------ withdrawals

  ghost predicate WithdrawalOk(s: State, w: WId)
    requires w in s.wds
  {
    var wd, op := s.wds[w], WdOp(w);
    && (op in s.chain.sent ==>
          && s.chain.sent[op] == Payload(wd.account, wd.debit, wd.expiry, wd.expiry, None, None)
          && (Unsettled(wd.status) || Resolved(s.chain, op)))
    && (wd.status == WPrepared ==> op !in s.chain.sent && w !in s.wsubs)
    && (w in s.claims ==> op !in s.chain.sent && w !in s.wsubs && (wd.status == WPrepared || wd.status == WExpired) && Traffic(s))
    && (wd.status == WConfirmed ==> Succeeded(s.chain, op))
    && (wd.status == WReverted ==> op in s.chain.outcome && !s.chain.outcome[op])
    && (wd.status == WRejected ==> op !in s.chain.sent && w !in s.wsubs)
    && (Unsettled(wd.status) && w !in s.wsubs && w !in s.wrecovering ==> OpLatch(op) in s.latches)
  }

  ghost predicate SubmissionOk(s: State, w: WId)
    requires w in s.wsubs
  {
    var op := WdOp(w);
    && w in s.wds && Traffic(s)
    && match s.wsubs[w]
       case Waiting => op !in s.chain.sent && s.wds[w].status == WSubmitting && s.queue != Some(op)
       case Locked => op !in s.chain.sent && s.wds[w].status == WSubmitting && s.queue != Some(op)
       case InQueue => op !in s.chain.sent && s.wds[w].status == WSubmitting && s.queue == Some(op)
       case Snapped(_) => op !in s.chain.sent && s.wds[w].status == WSubmitting && s.queue == Some(op)
       case Checked => op !in s.chain.sent && s.wds[w].status == WSubmitting && s.queue == Some(op)
       case WSent => op in s.chain.sent && s.wds[w].status == WSubmitting && s.queue == Some(op)
       case WHashed => op in s.chain.sent && s.queue == Some(op)
       case WMined(ok) => op in s.chain.outcome && s.chain.outcome[op] == ok && s.queue != Some(op)
       case WClearing => op in s.chain.outcome && s.queue != Some(op) && !Unsettled(s.wds[w].status)
  }

  // ------------------------------------------------------------------ the chain's history

  predicate Known(s: State, op: OpId) {
    match op
    case RfqOp(r) => r in s.ix.rfqs
    case WdOp(w) => w in s.wds
  }

  /** Each broadcast is remembered once, and concerns a record that is already durable. */
  ghost predicate History(s: State) {
    && (forall op :: op in s.chain.broadcasts <==> op in s.chain.sent)
    && (forall i, j :: 0 <= i < j < |s.chain.broadcasts| ==> s.chain.broadcasts[i] != s.chain.broadcasts[j])
    && (forall op :: op in s.chain.sent ==> Known(s, op))
    && (forall op :: op in s.chain.outcome ==> op in s.chain.sent)
    && (forall q :: q in s.chain.paid ==> q in s.ix.quotes && Succeeded(s.chain, RfqOp(s.ix.quotes[q].rfqId)))
  }

  // ------------------------------------------------------------------ the fail-closed executor

  predicate BeingRecovered(s: State, op: OpId) {
    match op
    case RfqOp(r) => r in s.recovering
    case WdOp(w) => w in s.wrecovering
  }

  predicate Guarded(s: State, op: OpId) {
    Resolved(s.chain, op) || OpLatch(op) in s.latches || s.queue == Some(op) || BeingRecovered(s, op)
  }

  predicate ActiveAt(s: State, r: RfqId) { r in s.sections && Active(s.sections[r]) }

  /** An accepted RFQ without an outcome is in the hands of its handler or latched. */
  predicate RfqLatched(s: State, r: RfqId) {
    && (RfqOp(r) in s.chain.sent ==> Guarded(s, RfqOp(r)))
    && (RfqHas(s, r, Executing) && r !in s.recovering && !ActiveAt(s, r) ==> OpLatch(RfqOp(r)) in s.latches)
  }

  /** While someone is inside the write queue, every other broadcast is settled. */
  ghost predicate QueueOk(s: State) {
    && (s.queue.Some? ==> Traffic(s) && forall op :: op in s.chain.sent && op != s.queue.value ==> Resolved(s.chain, op))
    && (s.queue.Some? && s.queue.value.RfqOp? ==>
          s.queue.value.r in s.sections && (s.sections[s.queue.value.r].Sent? || s.sections[s.queue.value.r].Hashed?))
    && (s.queue.Some? && s.queue.value.WdOp? ==> s.queue.value.w in s.wsubs)
  }

  // ------------------------------------------------------------------ reservations

  predicate ReleasePending(s: State, r: RfqId, q: QuoteId) {
    || (r in s.sections && match s.sections[r]
                           case Dropping(_, cur, _) => cur == q
                           case Cancelling(d, _) => d == q
                           case Releasing(w, _, _) => w == q
                           case _ => false)
    || (r in s.recons && s.recons[r].Clearing? && s.recons[r].winner == q)
  }

  predicate ReservePending(s: State, q: QuoteId)
    requires q in s.ix.quotes
  {
    var r := s.ix.quotes[q].rfqId;
    r in s.sections && s.sections[r] == Stored(s.ix.quotes[q])
  }

  predicate HeldFor(s: State, q: QuoteId)
    requires q in s.ix.quotes
  {
    q in s.reservations && s.reservations[q] == Reserve(s.ix.quotes[q])
  }

  /** Every live quote is reserved and every reservation is for a live quote, but for the
      tick between a durable write and the map update that follows it. */
  ghost predicate ReservedAt(s: State, r: RfqId) {
    && (r !in s.recovering ==> forall q :: q in s.ix.quotes && s.ix.quotes[q].rfqId == r && Live(s.ix, q) ==>
          HeldFor(s, q) || ReservePending(s, q))
    && (forall q :: q in s.ix.quotes && s.ix.quotes[q].rfqId == r && q in s.reservations ==>
          (Live(s.ix, q) && HeldFor(s, q)) || ReleasePending(s, r, q))
  }

  /** A reservation whose quote is gone is about to be released. */
  ghost predicate Orphans(s: State) {
    && s.reservations.Keys <= s.used
    && (forall q :: q in s.reservations && q !in s.ix.quotes ==> exists r :: ReleasePending(s, r, q))
  }

  // ------------------------------------------------------------------ account locks

  ghost predicate Exclusive(s: State) {
    && (forall r, x :: r in s.sections && x in s.sections && r != x ==> Holds(s.sections[r]) !! Holds(s.sections[x]))
    && (forall r, w :: r in s.sections && w in s.wsubs && !s.wsubs[w].Waiting? ==>
          w in s.wds && s.wds[w].account !in Holds(s.sections[r]))
    && (forall v, w :: v in s.wsubs && w in s.wsubs && v != w && !s.wsubs[v].Waiting? && !s.wsubs[w].Waiting? ==>
          v in s.wds && w in s.wds && s.wds[v].account != s.wds[w].account)
  }

  // ------------------------------------------------------------------ solvency

  function Takers(s: State): set<Account> { set r | r in s.ix.rfqs :: s.ix.rfqs[r].takerSubaccountId }

  /** What the live quotes may still take from an account on chain. */
  function Owed(s: State, a: Account): map<nat, nat> {
    map q | q in s.ix.quotes && Live(s.ix, q) && s.ix.quotes[q].makerSubaccountId == a && q !in s.chain.paid
      :: s.ix.quotes[q].reservedCash
  }

  function Toset(ids: seq<QuoteId>): set<QuoteId> { set p | p in ids }

  ghost predicate SectionSolvent(s: State, r: RfqId)
    requires r in s.sections
  {
    match s.sections[r]
    case Quoting(_, sub, priors, reserved) => Total(Owed(s, sub) - Toset(priors)) <= reserved
    case Validated(draft, todo) => Room(s, draft, todo)
    case Dropping(draft, _, todo) => Room(s, draft, todo)
    case _ => true
  }

  ghost predicate Room(s: State, draft: Quote, todo: seq<QuoteId>) {
    draft.makerSubaccountId in Takers(s) ||
    Total(Owed(s, draft.makerSubaccountId) - Toset(todo)) + draft.reservedCash <= Budget(s.chain, draft.makerSubaccountId)
  }

  ghost predicate SubmissionSolvent(s: State, w: WId)
    requires w in s.wsubs && w in s.wds
  {
    var a, debit := s.wds[w].account, s.wds[w].debit;
    a in Takers(s) || debit == 0 ||
    match s.wsubs[w]
    case Snapped(cash) => cash <= Cash(s.chain, a)
    case Checked => Total(Owed(s, a)) + debit <= Budget(s.chain, a)
    case WSent => WdOp(w) in s.chain.outcome || Total(Owed(s, a)) + debit <= Budget(s.chain, a)
    case WHashed => WdOp(w) in s.chain.outcome || Total(Owed(s, a)) + debit <= Budget(s.chain, a)
    case _ => true
  }

  ghost predicate Solvent(s: State) {
    && (forall a :: a !in Takers(s) ==> Total(Owed(s, a)) <= Budget(s.chain, a))
    && (forall r :: r in s.sections ==> SectionSolvent(s, r))
    && (forall w :: w in s.wsubs ==> w in s.wds && SubmissionSolvent(s, w))
  }

  // ------------------------------------------------------------------ together

  ghost predicate RfqHere(s: State, r: RfqId)
    requires r in s.ix.rfqs
  {
    && s.ix.rfqs[r].id == r
    && RfqOk(s, r)
    && (r in s.sections ==> SectionOk(s, r))
    && (r in s.recons ==> ReconOk(s, r))
    && RfqLatched(s, r)
    && ReservedAt(s, r)
  }

  ghost predicate WithdrawalHere(s: State, w: WId)
    requires w in s.wds
  {
    && WithdrawalOk(s, w)
    && (w in s.wsubs ==> SubmissionOk(s, w))
    && (WdOp(w) in s.chain.sent ==> Guarded(s, WdOp(w)))
  }

  /** Everything but solvency. */
  ghost predicate Control(s: State) {
    && Books(s)
    && (forall r :: r in s.ix.rfqs ==> RfqHere(s, r))
    && (forall w :: w in s.wds ==> WithdrawalHere(s, w))
    && History(s) && QueueOk(s) && Orphans(s) && Exclusive(s)
  }

  ghost predicate Inv(s: State) { Control(s) && Solvent(s) }
}
