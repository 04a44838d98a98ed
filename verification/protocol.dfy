/** The execution protocol as a transition system. One step is the code between two awaits of
    a handler, a crash, or a move of the chain. A handler waiting for a lock has done nothing
    yet and is not represented; one that holds it is. */
module Protocol {
  import opened Types
  import opened RfqIndex
  import opened BestQuote
  import opened AuctionCore

  type WId = nat

  /** One signed operation: an accepted RFQ or a withdrawal. Its call data is its identity. */
  datatype OpId = RfqOp(r: RfqId) | WdOp(w: WId)

  /** The executor's set of unknown operation ids. */
  datatype Latch = OpLatch(op: OpId) | UnknownBroadcast

  // ------------------------------------------------------------------ the chain

  /** What a broadcast carries: whose cash it may debit, by how much and until when, and an RFQ's call data. */
  datatype Payload = Payload(account: Account, amount: nat, firstExpiry: int, lastExpiry: int, quote: Option<QuoteId>, data: Option<Hash>)

  datatype Chain = Chain(
    broadcasts: seq<OpId>,          // every attempt to broadcast, in order
    sent: map<OpId, Payload>,       // what may be waiting to be mined
    outcome: map<OpId, bool>,       // canonical receipts: success or revert
    burned: set<OpId>,              // an action nonce was consumed by another transaction
    time: int,
    cash: map<Account, int>,
    leaked: map<Account, nat>,      // withdrawals mined after their handler let go of its lock
    paid: set<QuoteId>)             // winning quotes executed on chain

  function Cash(c: Chain, a: Account): int { if a in c.cash then c.cash[a] else 0 }

  function Leaked(c: Chain, a: Account): nat { if a in c.leaked then c.leaked[a] else 0 }

  function Budget(c: Chain, a: Account): int { Cash(c, a) + Leaked(c, a) }

  predicate Succeeded(c: Chain, op: OpId) { op in c.outcome && c.outcome[op] }

  /** No later block can execute the operation's call data. */
  predicate NeverSucceeds(c: Chain, op: OpId) {
    (op in c.outcome && !c.outcome[op]) || op in c.burned || (op in c.sent && c.time > c.sent[op].firstExpiry)
  }

  /** The broadcast has a canonical receipt or can no longer succeed. */
  predicate Resolved(c: Chain, op: OpId) { op in c.outcome || NeverSucceeds(c, op) }

  predicate NonceUsed(c: Chain, op: OpId) { op in c.burned || Succeeded(c, op) }

  /** A transaction with this call data has executed. */
  ghost predicate ExecutedData(c: Chain, data: Hash) {
    exists op :: op in c.sent && c.sent[op].data == Some(data) && Succeeded(c, op)
  }

  // ------------------------------------------------------------------ handlers

  /** The handler that holds an RFQ's resource lock, with its program counter and locals. */
  datatype Section =
    | Quoting(maker: Address, sub: Account, priors: seq<QuoteId>, reserved: nat)
    | Validated(draft: Quote, todo: seq<QuoteId>)
    | Dropping(draft: Quote, cur: QuoteId, todo: seq<QuoteId>)
    | Stored(quote: Quote)
    | Cancelling(dropped: QuoteId, sub: Account)
    | Accepting(taker: Account, maker_: Account, winner: QuoteId)
    | Queued(taker: Account, maker_: Account, winner: QuoteId)
    | Sent(taker: Account, maker_: Account, winner: QuoteId)
    | Hashed(taker: Account, maker_: Account, winner: QuoteId)
    | Mined(taker: Account, maker_: Account, winner: QuoteId, ok: bool)
    | Refused(taker: Account, maker_: Account, winner: QuoteId)
    | Releasing(winner: QuoteId, holds: set<Account>, clear: bool)

  /** The account locks a section holds. */
  function Holds(sec: Section): set<Account> {
    match sec
    case Quoting(_, sub, _, _) => {sub}
    case Validated(draft, _) => {draft.makerSubaccountId}
    case Dropping(draft, _, _) => {draft.makerSubaccountId}
    case Stored(quote) => {quote.makerSubaccountId}
    case Cancelling(_, sub) => {sub}
    case Accepting(t, m, _) => {t, m}
    case Queued(t, m, _) => {t, m}
    case Sent(t, m, _) => {t, m}
    case Hashed(t, m, _) => {t, m}
    case Mined(t, m, _, _) => {t, m}
    case Refused(t, m, _) => {t, m}
    case Releasing(_, holds, _) => holds
  }

  /** The engine's activeExecutions: accept handlers past the durable intent. */
  predicate Active(sec: Section) {
    sec.Queued? || sec.Sent? || sec.Hashed? || sec.Mined? || sec.Refused? || (sec.Releasing? && sec.clear)
  }

  datatype Answer = AnswerMined(ok: bool) | AnswerExpiredUnused

  datatype Recon = Reading | Got(answer: Answer) | Clearing(winner: QuoteId, hashless: bool)

  datatype WStatus = WPrepared | WSubmitting | WSubmitted | WConfirmed | WRejected | WReverted | WExpired | WUnknown

  datatype Withdrawal = Withdrawal(account: Account, debit: nat, expiry: int, status: WStatus)

  datatype WSub = Waiting | Locked | InQueue | Snapped(cash: int) | Checked | WSent | WHashed | WMined(ok: bool) | WClearing

  datatype State = State(
    ix: Index,                               // durable: the RFQ log
    wds: map<WId, Withdrawal>,               // durable: the withdrawal log
    reservations: Reservations,
    latches: set<Latch>,
    sections: map<RfqId, Section>,
    recons: map<RfqId, Recon>,
    claims: set<WId>,
    wsubs: map<WId, WSub>,
    queue: Option<OpId>,                     // who is inside the executor write queue
    recovering: set<RfqId>,
    wrecovering: set<WId>,
    used: set<QuoteId>,                      // quote ids ever issued
    chain: Chain)

  predicate Traffic(s: State) { s.recovering == {} && s.wrecovering == {} }

  predicate AccountFree(s: State, a: Account) {
    && (forall r :: r in s.sections ==> a !in Holds(s.sections[r]))
    && (forall w :: w in s.wsubs && !s.wsubs[w].Waiting? ==> w in s.wds && s.wds[w].account != a)
  }

  predicate RfqHas(s: State, r: RfqId, status: Status) { r in s.ix.rfqs && s.ix.rfqs[r].status == status }

  function PutRecord(s: State, rfq: Rfq): State { s.(ix := PutRfq(s.ix, rfq)) }

  function AtPc(s: State, r: RfqId, sec: Section): State { s.(sections := s.sections[r := sec]) }

  function Finish(s: State, r: RfqId): State { s.(sections := s.sections - {r}) }

  function AtWPc(s: State, w: WId, pc: WSub): State { s.(wsubs := s.wsubs[w := pc]) }

  function PutStatus(s: State, w: WId, status: WStatus): State
    requires w in s.wds
  {
    s.(wds := s.wds[w := s.wds[w].(status := status)])
  }

  function Leave(s: State, w: WId): State { s.(wsubs := s.wsubs - {w}, queue := None) }

  // ------------------------------------------------------------------ quotes

  predicate CanOpenRfq(s: State, rfq: Rfq) {
    && Traffic(s) && rfq.id !in s.ix.rfqs && rfq.status == Open
    && rfq.bestQuoteId == None && rfq.executionIntent == None && rfq.execution == None
  }

  function OpenRfq(s: State, rfq: Rfq): State { PutRecord(s, rfq) }

  function PriorQuotes(ix: Index, r: RfqId, maker: Address): seq<QuoteId> { MakerIds(ListQuotes(ix, r), maker) }

  function MakerIds(qs: seq<Quote>, maker: Address): (ids: seq<QuoteId>)
    ensures forall q :: q in qs && q.maker == maker ==> q.id in ids
    ensures forall id :: id in ids ==> exists q :: q in qs && q.id == id && q.maker == maker
  {
    if qs == [] then []
    else
      assert qs == [qs[0]] + qs[1..];
      (if qs[0].maker == maker then [qs[0].id] else []) + MakerIds(qs[1..], maker)
  }

  predicate CanQuoteBegin(s: State, r: RfqId, sub: Account) {
    Traffic(s) && r !in s.sections && RfqHas(s, r, Open) && AccountFree(s, sub)
  }

  ghost function QuoteBegin(s: State, r: RfqId, maker: Address, sub: Account): State {
    var priors := PriorQuotes(s.ix, r, maker);
    AtPc(s, r, Quoting(maker, sub, priors, ReservedFor(s.reservations, sub, set p | p in priors)))
  }

  /** The maker's cash is read and must cover what is reserved plus what the quote requires. */
  predicate CanQuoteValidate(s: State, r: RfqId, draft: Quote) {
    && r in s.sections && s.sections[r].Quoting?
    && draft.rfqId == r && draft.maker == s.sections[r].maker && draft.makerSubaccountId == s.sections[r].sub
    && Cash(s.chain, s.sections[r].sub) >= s.sections[r].reserved + draft.reservedCash
  }

  function QuoteValidate(s: State, r: RfqId, draft: Quote): State
    requires CanQuoteValidate(s, r, draft)
  {
    AtPc(s, r, Validated(draft, s.sections[r].priors))
  }

  predicate CanQuoteAbort(s: State, r: RfqId) {
    r in s.sections && (s.sections[r].Quoting? || s.sections[r].Validated?)
  }

  /** Drop the next prior quote from the store, or store the new one under a fresh id. */
  function AdmitNext(s: State, r: RfqId, draft: Quote, todo: seq<QuoteId>, id: QuoteId): State {
    if todo == [] then
      var q := draft.(id := id);
      AtPc(s.(ix := PutQuote(s.ix, q), used := s.used + {id}), r, Stored(q))
    else
      AtPc(s.(ix := DeleteQuote(s.ix, todo[0])), r, Dropping(draft, todo[0], todo[1..]))
  }

  predicate CanQuoteAdmit(s: State, r: RfqId, id: QuoteId) {
    r in s.sections && s.sections[r].Validated? && RfqHas(s, r, Open) && id !in s.used
  }

  function QuoteAdmit(s: State, r: RfqId, id: QuoteId): State
    requires CanQuoteAdmit(s, r, id)
  {
    AdmitNext(s, r, s.sections[r].draft, s.sections[r].todo, id)
  }

  predicate CanQuoteDrop(s: State, r: RfqId, id: QuoteId) {
    r in s.sections && s.sections[r].Dropping? && id !in s.used
  }

  function QuoteDrop(s: State, r: RfqId, id: QuoteId): State
    requires CanQuoteDrop(s, r, id)
  {
    AdmitNext(s.(reservations := s.reservations - {s.sections[r].cur}), r, s.sections[r].draft, s.sections[r].todo, id)
  }

  predicate CanQuoteReserve(s: State, r: RfqId) { r in s.sections && s.sections[r].Stored? }

  function QuoteReserve(s: State, r: RfqId): State
    requires CanQuoteReserve(s, r)
  {
    var q := s.sections[r].quote;
    Finish(s.(reservations := s.reservations[q.id := Reserve(q)]), r)
  }

  predicate CanCancel(s: State, q: QuoteId) {
    && Traffic(s) && q in s.ix.quotes
    && var quote := s.ix.quotes[q];
       quote.rfqId !in s.sections && RfqHas(s, quote.rfqId, Open) && AccountFree(s, quote.makerSubaccountId)
  }

  function Cancel(s: State, q: QuoteId): State
    requires CanCancel(s, q)
  {
    var quote := s.ix.quotes[q];
    AtPc(s.(ix := DeleteQuote(s.ix, q)), quote.rfqId, Cancelling(q, quote.makerSubaccountId))
  }

  predicate CanCancelRelease(s: State, r: RfqId) { r in s.sections && s.sections[r].Cancelling? }

  function CancelRelease(s: State, r: RfqId): State
    requires CanCancelRelease(s, r)
  {
    Finish(s.(reservations := s.reservations - {s.sections[r].dropped}), r)
  }

  // ------------------------------------------------------------------ close, expire, accept

  predicate CanClose(s: State, r: RfqId) { r !in s.sections && RfqHas(s, r, Open) }

  function Close(s: State, r: RfqId, deadline: int): State
    requires CanClose(s, r)
  {
    var quotes := ListQuotes(s.ix, r);
    var best := SelectBest(quotes);
    s.(ix := PutRfq(s.ix, ClosedRecord(s.ix.rfqs[r], best, deadline)),
       reservations := ClosedReservations(s.reservations, quotes, best),
       recovering := s.recovering - {r})
  }

  predicate HasWinner(s: State, r: RfqId) {
    r in s.ix.rfqs && s.ix.rfqs[r].bestQuoteId.Some? && s.ix.rfqs[r].bestQuoteId.value in s.ix.quotes
  }

  function WinnerId(s: State, r: RfqId): QuoteId
    requires HasWinner(s, r)
  {
    s.ix.rfqs[r].bestQuoteId.value
  }

  function WinnerQuote(s: State, r: RfqId): Quote
    requires HasWinner(s, r)
  {
    s.ix.quotes[WinnerId(s, r)]
  }

  predicate CanExpire(s: State, r: RfqId) {
    && r !in s.sections && RfqHas(s, r, Closed) && HasWinner(s, r)
    && AccountFree(s, WinnerQuote(s, r).makerSubaccountId)
  }

  function Expire(s: State, r: RfqId): State
    requires CanExpire(s, r)
  {
    var q := WinnerQuote(s, r);
    AtPc(PutRecord(s, ExpiredRecord(s.ix.rfqs[r])).(recovering := s.recovering - {r}),
         r, Releasing(q.id, {q.makerSubaccountId}, false))
  }

  predicate CanAcceptBegin(s: State, r: RfqId) {
    && Traffic(s) && r !in s.sections && RfqHas(s, r, Closed) && HasWinner(s, r)
    && AccountFree(s, s.ix.rfqs[r].takerSubaccountId)
    && AccountFree(s, WinnerQuote(s, r).makerSubaccountId)
  }

  function AcceptBegin(s: State, r: RfqId): State
    requires CanAcceptBegin(s, r)
  {
    AtPc(s, r, Accepting(s.ix.rfqs[r].takerSubaccountId, WinnerQuote(s, r).makerSubaccountId, WinnerId(s, r)))
  }

  predicate CanAcceptEnd(s: State, r: RfqId) {
    r in s.sections && (s.sections[r].Accepting? || s.sections[r].Refused?)
  }

  /** The accept deadline passed inside the accept handler. */
  function AcceptExpire(s: State, r: RfqId): State
    requires CanAcceptEnd(s, r) && r in s.ix.rfqs
  {
    var sec := s.sections[r];
    AtPc(PutRecord(s, ExpiredRecord(s.ix.rfqs[r])), r, Releasing(sec.winner, Holds(sec), false))
  }

  predicate CanAcceptCommit(s: State, r: RfqId, intent: Intent) {
    && r in s.sections && s.sections[r].Accepting?
    && RfqHas(s, r, Closed) && s.ix.rfqs[r].bestQuoteId == Some(s.sections[r].winner)
    && intent.txHash == None && intent.fill.quoteId == s.sections[r].winner
  }

  /** The durable intent: nothing is broadcast before this record. */
  function AcceptCommit(s: State, r: RfqId, intent: Intent): State
    requires CanAcceptCommit(s, r, intent)
  {
    var sec := s.sections[r];
    AtPc(PutRecord(s, ExecutingRecord(s.ix.rfqs[r], intent)), r, Queued(sec.taker, sec.maker_, sec.winner))
  }

  predicate CanRefuse(s: State, r: RfqId) { r in s.sections && s.sections[r].Queued? && r in s.ix.rfqs }

  /** The write queue's guard refused before broadcasting: back to closed. */
  function Refuse(s: State, r: RfqId): State
    requires CanRefuse(s, r)
  {
    var sec := s.sections[r];
    AtPc(PutRecord(s, ReopenedRecord(s.ix.rfqs[r])), r, Refused(sec.taker, sec.maker_, sec.winner))
  }

  function Record(s: State, op: OpId, p: Payload): State {
    s.(queue := Some(op),
       chain := s.chain.(broadcasts := s.chain.broadcasts + [op], sent := s.chain.sent[op := p]))
  }

  predicate CanBroadcast(s: State, r: RfqId) {
    && r in s.sections && s.sections[r].Queued? && s.queue == None && s.latches == {}
    && HasWinner(s, r) && s.ix.rfqs[r].executionIntent.Some?
  }

  function Min(a: int, b: int): int { if a < b then a else b }

  function Max(a: int, b: int): int { if a < b then b else a }

  function RfqPayload(s: State, r: RfqId): Payload
    requires HasWinner(s, r) && s.ix.rfqs[r].executionIntent.Some?
  {
    var q := WinnerQuote(s, r);
    var intent := s.ix.rfqs[r].executionIntent.value;
    Payload(q.makerSubaccountId, q.reservedCash, Min(intent.maker.expiry, intent.taker.expiry),
            Max(intent.maker.expiry, intent.taker.expiry), Some(q.id), Some(intent.calldataHash))
  }

  function Broadcast(s: State, r: RfqId): State
    requires CanBroadcast(s, r)
  {
    var sec := s.sections[r];
    AtPc(Record(s, RfqOp(r), RfqPayload(s, r)), r, Sent(sec.taker, sec.maker_, sec.winner))
  }

  predicate CanHash(s: State, r: RfqId) {
    r in s.sections && s.sections[r].Sent? && r in s.ix.rfqs && s.ix.rfqs[r].executionIntent.Some?
  }

  function LearnHash(s: State, r: RfqId, hash: Hash): State
    requires CanHash(s, r)
  {
    var sec := s.sections[r];
    AtPc(PutRecord(s, HashedRecord(s.ix.rfqs[r], hash)), r, Hashed(sec.taker, sec.maker_, sec.winner))
  }

  predicate CanLose(s: State, r: RfqId) {
    r in s.sections && (s.sections[r].Queued? || s.sections[r].Sent? || s.sections[r].Hashed?) && r in s.ix.rfqs
  }

  /** The call failed before its broadcast, in it, or for want of a receipt: to the handler that is one unknown outcome.
      Latch, and keep everything else. */
  function Lose(s: State, r: RfqId): State
    requires CanLose(s, r)
  {
    var shared := if s.sections[r].Sent? then {UnknownBroadcast} else {};
    Finish(PutRecord(s, s.ix.rfqs[r].(error := Some("execution outcome unresolved")))
             .(latches := s.latches + {OpLatch(RfqOp(r))} + shared,
               queue := if s.sections[r].Queued? then s.queue else None), r)
  }

  predicate CanReceive(s: State, r: RfqId) {
    r in s.sections && s.sections[r].Hashed? && RfqOp(r) in s.chain.outcome
  }

  function Receive(s: State, r: RfqId): State
    requires CanReceive(s, r)
  {
    var sec := s.sections[r];
    AtPc(s.(queue := None), r, Mined(sec.taker, sec.maker_, sec.winner, s.chain.outcome[RfqOp(r)]))
  }

  predicate CanSettle(s: State, r: RfqId) {
    r in s.sections && s.sections[r].Mined? && r in s.ix.rfqs && s.ix.rfqs[r].executionIntent.Some?
  }

  /** The receipt's block number plays no part in the protocol and stays out of its records. */
  function Settle(s: State, r: RfqId, hash: Hash): State
    requires CanSettle(s, r)
  {
    var sec := s.sections[r];
    AtPc(PutRecord(s, MinedRecord(s.ix.rfqs[r], hash, sec.ok, None)), r, Releasing(sec.winner, Holds(sec), true))
  }

  predicate CanRelease(s: State, r: RfqId) { r in s.sections && s.sections[r].Releasing? }

  function Release(s: State, r: RfqId): State
    requires CanRelease(s, r)
  {
    var sec := s.sections[r];
    Finish(s.(reservations := s.reservations - {sec.winner},
              latches := if sec.clear then s.latches - {OpLatch(RfqOp(r))} else s.latches), r)
  }

  // ------------------------------------------------------------------ reconciliation of RFQs

  predicate CanReconStart(s: State, r: RfqId) {
    Traffic(s) && RfqHas(s, r, Executing) && r !in s.sections && r !in s.recons
  }

  function ReconStart(s: State, r: RfqId): State {
    s.(latches := s.latches + {OpLatch(RfqOp(r))}, recons := s.recons[r := Reading])
  }

  /** A receipt for r's call data: of r's own broadcast, or, when the code finds it by the call data alone, of a
      broadcast that consumed the same nonces. */
  ghost predicate MinedCallData(s: State, r: RfqId, ok: bool)
    requires r in s.ix.rfqs && s.ix.rfqs[r].executionIntent.Some?
  {
    || (RfqOp(r) in s.chain.outcome && s.chain.outcome[RfqOp(r)] == ok)
    || (ok && NonceUsed(s.chain, RfqOp(r)) && ExecutedData(s.chain, s.ix.rfqs[r].executionIntent.value.calldataHash))
  }

  /** What the chain may answer; ChainRefinement proves that the code's reads give no other answer. */
  ghost predicate CanReconAnswer(s: State, r: RfqId, answer: Answer) {
    && r in s.recons && s.recons[r] == Reading && r in s.ix.rfqs && s.ix.rfqs[r].executionIntent.Some?
    && match answer
       case AnswerMined(ok) => MinedCallData(s, r, ok)
       case AnswerExpiredUnused =>
         && !NonceUsed(s.chain, RfqOp(r))
         && s.chain.time > s.ix.rfqs[r].executionIntent.value.maker.expiry
         && s.chain.time > s.ix.rfqs[r].executionIntent.value.taker.expiry
  }

  function ReconAnswer(s: State, r: RfqId, answer: Answer): State { s.(recons := s.recons[r := Got(answer)]) }

  predicate CanReconEnd(s: State, r: RfqId) { r in s.recons && s.recons[r] == Reading }

  function ReconEnd(s: State, r: RfqId): State { s.(recons := s.recons - {r}) }

  predicate CanReconPut(s: State, r: RfqId) {
    r in s.recons && s.recons[r].Got? && r in s.ix.rfqs && s.ix.rfqs[r].executionIntent.Some?
  }

  function ReconPut(s: State, r: RfqId, hash: Hash): State
    requires CanReconPut(s, r)
  {
    var rfq := s.ix.rfqs[r];
    var intent := rfq.executionIntent.value;
    var terminal := match s.recons[r].answer
                    case AnswerMined(ok) => MinedRecord(rfq, hash, ok, None)
                    case AnswerExpiredUnused => UnusedRecord(rfq);
    PutRecord(s, terminal).(recons := s.recons[r := Clearing(intent.fill.quoteId, intent.txHash == None)])
  }

  predicate CanReconClear(s: State, r: RfqId) { r in s.recons && s.recons[r].Clearing? }

  function ReconClear(s: State, r: RfqId): State
    requires CanReconClear(s, r)
  {
    var rc := s.recons[r];
    s.(reservations := s.reservations - {rc.winner},
       latches := s.latches - {OpLatch(RfqOp(r))} - (if rc.hashless then {UnknownBroadcast} else {}),
       recons := s.recons - {r})
  }

  // ------------------------------------------------------------------ crash and recovery

  /** Everything but the two logs and the chain is lost, and the logs are whole: ProtocolLog adds the crashes that cut an
      append, and shows what holds when something is written behind the fragment. */
  function Crash(s: State): State {
    s.(reservations := map[], latches := {}, sections := map[], recons := map[], claims := {}, wsubs := map[],
       queue := None, recovering := s.ix.rfqs.Keys, wrecovering := s.wds.Keys)
  }

  function ReserveAll(res: Reservations, qs: seq<Quote>): Reservations {
    res + map q | q in IdsMap(qs).Keys :: Reserve(IdsMap(qs)[q])
  }

  function IdsMap(qs: seq<Quote>): (m: map<QuoteId, Quote>)
    ensures m.Keys == IdsOf(qs)
    ensures forall k :: k in m ==> m[k] in qs && m[k].id == k
  {
    if qs == [] then map[]
    else
      assert qs == qs[..|qs| - 1] + [qs[|qs| - 1]];
      IdsMap(qs[..|qs| - 1])[qs[|qs| - 1].id := qs[|qs| - 1]]
  }

  function ReserveWinner(s: State, r: RfqId): Reservations {
    if HasWinner(s, r) then s.reservations[WinnerId(s, r) := Reserve(WinnerQuote(s, r))] else s.reservations
  }

  predicate CanRecover(s: State, r: RfqId) { r in s.recovering && r in s.ix.rfqs }

  /** The branches of recover() that close or expire nothing; those two are Close and Expire. */
  function Recover(s: State, r: RfqId): State
    requires CanRecover(s, r)
  {
    var done := s.(recovering := s.recovering - {r});
    match s.ix.rfqs[r].status
    case Open => done.(reservations := ReserveAll(s.reservations, ListQuotes(s.ix, r)))
    case Closed => done.(reservations := ReserveWinner(s, r))
    case Executing =>
      done.(reservations := ReserveWinner(s, r), latches := s.latches + {OpLatch(RfqOp(r))},
            recons := s.recons[r := Reading])
    case _ => done
  }

  // ------------------------------------------------------------------ withdrawals

  predicate CanPrepare(s: State, w: WId, wd: Withdrawal) { Traffic(s) && w !in s.wds && wd.status == WPrepared }

  function Prepare(s: State, w: WId, wd: Withdrawal): State { s.(wds := s.wds[w := wd]) }

  predicate WHas(s: State, w: WId, status: WStatus) { w in s.wds && s.wds[w].status == status }

  predicate CanClaim(s: State, w: WId) { Traffic(s) && w !in s.claims && WHas(s, w, WPrepared) }

  function Claim(s: State, w: WId): State { s.(claims := s.claims + {w}) }

  predicate CanUnclaim(s: State, w: WId) { w in s.claims }

  function Unclaim(s: State, w: WId): State { s.(claims := s.claims - {w}) }

  /** GET, submit and recover() all expire a prepared withdrawal; GET may do so under a claim. */
  predicate CanWExpire(s: State, w: WId) { WHas(s, w, WPrepared) }

  function WExpire(s: State, w: WId): State
    requires CanWExpire(s, w)
  {
    PutStatus(s, w, WExpired).(wrecovering := s.wrecovering - {w})
  }

  predicate CanSubmit(s: State, w: WId) { w in s.claims && w in s.wds }

  /** The durable submitting record precedes the background task. */
  function Submit(s: State, w: WId): State
    requires CanSubmit(s, w)
  {
    AtWPc(PutStatus(s, w, WSubmitting), w, Waiting).(claims := s.claims - {w})
  }

  predicate CanFindBurned(s: State, w: WId) { CanSubmit(s, w) && WdOp(w) in s.chain.burned }

  /** The nonce is used and no exact transaction explains it. */
  function FindBurned(s: State, w: WId): State
    requires CanFindBurned(s, w)
  {
    PutStatus(s, w, WUnknown).(claims := s.claims - {w}, latches := s.latches + {OpLatch(WdOp(w))})
  }

  predicate AtW(s: State, w: WId, pc: WSub) { w in s.wsubs && s.wsubs[w] == pc && w in s.wds }

  predicate CanWLock(s: State, w: WId) { AtW(s, w, Waiting) && AccountFree(s, s.wds[w].account) }

  predicate Unsent(pc: WSub) { pc.Locked? || pc.InQueue? || pc.Snapped? || pc.Checked? }

  predicate CanWRefuse(s: State, w: WId) { w in s.wsubs && w in s.wds && Unsent(s.wsubs[w]) }

  /** A refusing guard, and any failing read before the broadcast, land in the catch-all branch: unknown, latched. */
  function WRefuse(s: State, w: WId): State
    requires CanWRefuse(s, w)
  {
    PutStatus(s, w, WUnknown).(wsubs := s.wsubs - {w}, latches := s.latches + {OpLatch(WdOp(w))},
                               queue := if s.wsubs[w].Locked? then s.queue else None)
  }

  predicate CanWEnter(s: State, w: WId) { AtW(s, w, Locked) && s.queue == None && s.latches == {} }

  function WEnter(s: State, w: WId): State { AtWPc(s.(queue := Some(WdOp(w))), w, InQueue) }

  predicate CanSnapshot(s: State, w: WId) { AtW(s, w, InQueue) }

  function Snapshot(s: State, w: WId): State
    requires CanSnapshot(s, w)
  {
    AtWPc(s, w, Snapped(Cash(s.chain, s.wds[w].account)))
  }

  /** The policy's cash condition; WithdrawalPolicy proves that the token arithmetic implies it. */
  ghost predicate CanCheck(s: State, w: WId) {
    && w in s.wsubs && s.wsubs[w].Snapped? && w in s.wds
    && (s.wds[w].debit > 0 ==>
          s.wds[w].debit + ReservedFor(s.reservations, s.wds[w].account, {}) <= s.wsubs[w].cash)
  }

  predicate CanReject(s: State, w: WId) {
    w in s.wsubs && w in s.wds && (s.wsubs[w].InQueue? || s.wsubs[w].Snapped? || s.wsubs[w].Checked?)
  }

  function Reject(s: State, w: WId): State
    requires CanReject(s, w)
  {
    Leave(PutStatus(s, w, WRejected), w)
  }

  predicate CanWBroadcast(s: State, w: WId) { AtW(s, w, Checked) }

  function WBroadcast(s: State, w: WId): State
    requires CanWBroadcast(s, w)
  {
    var wd := s.wds[w];
    AtWPc(Record(s, WdOp(w), Payload(wd.account, wd.debit, wd.expiry, wd.expiry, None, None)), w, WSent)
  }

  predicate CanWHash(s: State, w: WId) { AtW(s, w, WSent) }

  function WHash(s: State, w: WId): State
    requires CanWHash(s, w)
  {
    AtWPc(PutStatus(s, w, WSubmitted), w, WHashed)
  }

  predicate CanWLose(s: State, w: WId) { AtW(s, w, WSent) || AtW(s, w, WHashed) }

  function WLose(s: State, w: WId): State
    requires CanWLose(s, w)
  {
    var hashed := s.wsubs[w].WHashed?;
    Leave(PutStatus(s, w, if hashed then WSubmitted else WUnknown)
            .(latches := s.latches + {OpLatch(WdOp(w))} + if hashed then {} else {UnknownBroadcast}), w)
  }

  predicate CanWReceive(s: State, w: WId) { AtW(s, w, WHashed) && WdOp(w) in s.chain.outcome }

  function WReceive(s: State, w: WId): State
    requires CanWReceive(s, w)
  {
    AtWPc(s.(queue := None), w, WMined(s.chain.outcome[WdOp(w)]))
  }

  predicate CanWSettle(s: State, w: WId) { w in s.wsubs && s.wsubs[w].WMined? && w in s.wds }

  function WSettle(s: State, w: WId): State
    requires CanWSettle(s, w)
  {
    AtWPc(PutStatus(s, w, if s.wsubs[w].ok then WConfirmed else WReverted), w, WClearing)
  }

  predicate CanWClear(s: State, w: WId) { AtW(s, w, WClearing) }

  function WClear(s: State, w: WId): State {
    s.(wsubs := s.wsubs - {w}, latches := s.latches - {OpLatch(WdOp(w))})
  }

  predicate Unsettled(st: WStatus) { st == WSubmitting || st == WSubmitted || st == WUnknown }

  /** What one read of the chain tells a withdrawal reconciliation. */
  datatype Look = Look(found: bool, receipt: bool)

  predicate CanWReconcile(s: State, w: WId, look: Look) {
    && (Traffic(s) || w in s.wrecovering)
    && w in s.wds && Unsettled(s.wds[w].status)
    && (s.wds[w].status == WSubmitting ==> w !in s.wsubs)
    && (look.found ==> Succeeded(s.chain, WdOp(w)))
    && (look.receipt ==> WdOp(w) in s.chain.outcome)
  }

  /** reconcileSubmitted: a canonical receipt settles, its absence latches. */
  function ReconcileSubmitted(s: State, w: WId, look: Look): State
    requires w in s.wds && (look.receipt ==> WdOp(w) in s.chain.outcome)
  {
    if look.receipt then
      PutStatus(s, w, if s.chain.outcome[WdOp(w)] then WConfirmed else WReverted)
        .(latches := s.latches - {OpLatch(WdOp(w))})
    else PutStatus(s, w, WSubmitted).(latches := s.latches + {OpLatch(WdOp(w))})
  }

  function WReconcile(s: State, w: WId, look: Look): State
    requires CanWReconcile(s, w, look)
  {
    var t := s.(wrecovering := s.wrecovering - {w});
    if s.wds[w].status == WSubmitted then ReconcileSubmitted(t, w, look)
    else if look.found then ReconcileSubmitted(t.(latches := t.latches - {UnknownBroadcast}), w, look)
    else if !NonceUsed(s.chain, WdOp(w)) && s.chain.time > s.wds[w].expiry then
      PutStatus(t, w, WExpired).(latches := t.latches - {OpLatch(WdOp(w)), UnknownBroadcast})
    else PutStatus(t, w, WUnknown).(latches := t.latches + {OpLatch(WdOp(w))})
  }

  predicate CanWSkip(s: State, w: WId) { w in s.wrecovering && w in s.wds && !Unsettled(s.wds[w].status) }

  function WSkip(s: State, w: WId): State { s.(wrecovering := s.wrecovering - {w}) }

  // ------------------------------------------------------------------ the chain's own moves

  predicate InFlight(s: State, op: OpId) {
    op.WdOp? && op.w in s.wsubs && (s.wsubs[op.w].WSent? || s.wsubs[op.w].WHashed?)
  }

  /** The nonces of a broadcast went to another one with the same call data. */
  ghost predicate Spent(c: Chain, op: OpId)
    requires op in c.sent
  {
    c.sent[op].data.Some? && ExecutedData(c, c.sent[op].data.value)
  }

  /** A block includes a sent transaction. A success needs live, unused actions; an execution
      debits its maker by at most what was reserved and moves the taker's cash freely, a
      withdrawal debits its amount. */
  ghost predicate CanMine(s: State, op: OpId, ok: bool, debit: nat) {
    && op in s.chain.sent && op !in s.chain.outcome
    && (ok ==> op !in s.chain.burned && s.chain.time <= s.chain.sent[op].firstExpiry && !Spent(s.chain, op))
    && (if op.RfqOp? then debit <= s.chain.sent[op].amount else debit == s.chain.sent[op].amount)
  }

  function Mine(s: State, op: OpId, ok: bool, debit: nat, taker: int): State
    requires CanMine(s, op, ok, debit)
  {
    var c := s.chain.(outcome := s.chain.outcome[op := ok]);
    if !ok then s.(chain := c)
    else
      var p := c.sent[op];
      var debited := c.cash[p.account := Cash(c, p.account) - debit];
      match op
      case RfqOp(r) =>
        var moved := c.(cash := debited, paid := if p.quote.Some? then c.paid + {p.quote.value} else c.paid);
        s.(chain := if r in s.ix.rfqs then Credit(moved, s.ix.rfqs[r].takerSubaccountId, taker) else moved)
      case WdOp(_) =>
        s.(chain := c.(cash := debited,
                       leaked := if InFlight(s, op) then c.leaked
                                 else c.leaked[p.account := Leaked(c, p.account) + debit]))
  }

  function Credit(c: Chain, a: Account, amount: int): Chain { c.(cash := c.cash[a := Cash(c, a) + amount]) }

  function Burn(s: State, op: OpId): State { s.(chain := s.chain.(burned := s.chain.burned + {op})) }

  function Tick(s: State, time: int): State { s.(chain := s.chain.(time := time)) }

  // ------------------------------------------------------------------ the system

  datatype AuctionStep =
    | SOpenRfq(rfq: Rfq)
    | SQuoteBegin(r: RfqId, maker: Address, sub: Account)
    | SQuoteValidate(r: RfqId, draft: Quote)
    | SQuoteAbort(r: RfqId)
    | SQuoteAdmit(r: RfqId, id: QuoteId)
    | SQuoteDrop(r: RfqId, id: QuoteId)
    | SQuoteReserve(r: RfqId)
    | SCancel(q: QuoteId)
    | SCancelRelease(r: RfqId)
    | SClose(r: RfqId, deadline: int)
    | SExpire(r: RfqId)

  datatype ExecutionStep =
    | SAcceptBegin(r: RfqId)
    | SAcceptEnd(r: RfqId)
    | SAcceptExpire(r: RfqId)
    | SAcceptCommit(r: RfqId, intent: Intent)
    | SRefuse(r: RfqId)
    | SBroadcast(r: RfqId)
    | SHash(r: RfqId, hash: Hash)
    | SLose(r: RfqId)
    | SReceive(r: RfqId)
    | SSettle(r: RfqId, hash: Hash)
    | SRelease(r: RfqId)

  datatype RecoveryStep =
    | SReconStart(r: RfqId)
    | SReconAnswer(r: RfqId, answer: Answer)
    | SReconEnd(r: RfqId)
    | SReconPut(r: RfqId, hash: Hash)
    | SReconClear(r: RfqId)
    | SCrash
    | SRecover(r: RfqId)

  datatype WithdrawalStep =
    | SPrepare(w: WId, wd: Withdrawal)
    | SClaim(w: WId)
    | SUnclaim(w: WId)
    | SWExpire(w: WId)
    | SSubmit(w: WId)
    | SFindBurned(w: WId)
    | SWLock(w: WId)
    | SWRefuse(w: WId)
    | SWEnter(w: WId)
    | SSnapshot(w: WId)
    | SCheck(w: WId)
    | SReject(w: WId)
    | SWBroadcast(w: WId)
    | SWHash(w: WId)
    | SWLose(w: WId)
    | SWReceive(w: WId)
    | SWSettle(w: WId)
    | SWClear(w: WId)
    | SWReconcile(w: WId, look: Look)
    | SWSkip(w: WId)

  datatype ChainStep =
    | SMine(op: OpId, ok: bool, debit: nat, taker_: int)
    | SBurn(op: OpId)
    | STick(time: int)
    | SDeposit(a: Account, amount: nat)

  datatype Step =
    | OfAuction(a: AuctionStep) | OfExecution(e: ExecutionStep) | OfRecovery(v: RecoveryStep)
    | OfWithdrawal(d: WithdrawalStep) | OfChain(c: ChainStep)

  ghost predicate AuctionEnabled(s: State, step: AuctionStep) {
    match step
    case SOpenRfq(rfq) => CanOpenRfq(s, rfq)
    case SQuoteBegin(r, _, sub) => CanQuoteBegin(s, r, sub)
    case SQuoteValidate(r, draft) => CanQuoteValidate(s, r, draft)
    case SQuoteAbort(r) => CanQuoteAbort(s, r)
    case SQuoteAdmit(r, id) => CanQuoteAdmit(s, r, id)
    case SQuoteDrop(r, id) => CanQuoteDrop(s, r, id)
    case SQuoteReserve(r) => CanQuoteReserve(s, r)
    case SCancel(q) => CanCancel(s, q)
    case SCancelRelease(r) => CanCancelRelease(s, r)
    case SClose(r, _) => CanClose(s, r)
    case SExpire(r) => CanExpire(s, r)
  }

  ghost function AuctionApply(s: State, step: AuctionStep): State
    requires AuctionEnabled(s, step)
  {
    match step
    case SOpenRfq(rfq) => OpenRfq(s, rfq)
    case SQuoteBegin(r, maker, sub) => QuoteBegin(s, r, maker, sub)
    case SQuoteValidate(r, draft) => QuoteValidate(s, r, draft)
    case SQuoteAbort(r) => Finish(s, r)
    case SQuoteAdmit(r, id) => QuoteAdmit(s, r, id)
    case SQuoteDrop(r, id) => QuoteDrop(s, r, id)
    case SQuoteReserve(r) => QuoteReserve(s, r)
    case SCancel(q) => Cancel(s, q)
    case SCancelRelease(r) => CancelRelease(s, r)
    case SClose(r, deadline) => Close(s, r, deadline)
    case SExpire(r) => Expire(s, r)
  }

  ghost predicate ExecutionEnabled(s: State, step: ExecutionStep) {
    match step
    case SAcceptBegin(r) => CanAcceptBegin(s, r)
    case SAcceptEnd(r) => CanAcceptEnd(s, r)
    case SAcceptExpire(r) => CanAcceptEnd(s, r) && r in s.ix.rfqs
    case SAcceptCommit(r, intent) => CanAcceptCommit(s, r, intent)
    case SRefuse(r) => CanRefuse(s, r)
    case SBroadcast(r) => CanBroadcast(s, r)
    case SHash(r, _) => CanHash(s, r)
    case SLose(r) => CanLose(s, r)
    case SReceive(r) => CanReceive(s, r)
    case SSettle(r, _) => CanSettle(s, r)
    case SRelease(r) => CanRelease(s, r)
  }

  ghost function ExecutionApply(s: State, step: ExecutionStep): State
    requires ExecutionEnabled(s, step)
  {
    match step
    case SAcceptBegin(r) => AcceptBegin(s, r)
    case SAcceptEnd(r) => Finish(s, r)
    case SAcceptExpire(r) => AcceptExpire(s, r)
    case SAcceptCommit(r, intent) => AcceptCommit(s, r, intent)
    case SRefuse(r) => Refuse(s, r)
    case SBroadcast(r) => Broadcast(s, r)
    case SHash(r, hash) => LearnHash(s, r, hash)
    case SLose(r) => Lose(s, r)
    case SReceive(r) => Receive(s, r)
    case SSettle(r, hash) => Settle(s, r, hash)
    case SRelease(r) => Release(s, r)
  }

  ghost predicate RecoveryEnabled(s: State, step: RecoveryStep) {
    match step
    case SReconStart(r) => CanReconStart(s, r)
    case SReconAnswer(r, answer) => CanReconAnswer(s, r, answer)
    case SReconEnd(r) => CanReconEnd(s, r)
    case SReconPut(r, _) => CanReconPut(s, r)
    case SReconClear(r) => CanReconClear(s, r)
    case SCrash => true
    case SRecover(r) => CanRecover(s, r)
  }

  ghost function RecoveryApply(s: State, step: RecoveryStep): State
    requires RecoveryEnabled(s, step)
  {
    match step
    case SReconStart(r) => ReconStart(s, r)
    case SReconAnswer(r, answer) => ReconAnswer(s, r, answer)
    case SReconEnd(r) => ReconEnd(s, r)
    case SReconPut(r, hash) => ReconPut(s, r, hash)
    case SReconClear(r) => ReconClear(s, r)
    case SCrash => Crash(s)
    case SRecover(r) => Recover(s, r)
  }

  ghost predicate WithdrawalEnabled(s: State, step: WithdrawalStep) {
    match step
    case SPrepare(w, wd) => CanPrepare(s, w, wd)
    case SClaim(w) => CanClaim(s, w)
    case SUnclaim(w) => CanUnclaim(s, w)
    case SWExpire(w) => CanWExpire(s, w)
    case SSubmit(w) => CanSubmit(s, w)
    case SFindBurned(w) => CanFindBurned(s, w)
    case SWLock(w) => CanWLock(s, w)
    case SWRefuse(w) => CanWRefuse(s, w)
    case SWEnter(w) => CanWEnter(s, w)
    case SSnapshot(w) => CanSnapshot(s, w)
    case SCheck(w) => CanCheck(s, w)
    case SReject(w) => CanReject(s, w)
    case SWBroadcast(w) => CanWBroadcast(s, w)
    case SWHash(w) => CanWHash(s, w)
    case SWLose(w) => CanWLose(s, w)
    case SWReceive(w) => CanWReceive(s, w)
    case SWSettle(w) => CanWSettle(s, w)
    case SWClear(w) => CanWClear(s, w)
    case SWReconcile(w, look) => CanWReconcile(s, w, look)
    case SWSkip(w) => CanWSkip(s, w)
  }

  ghost function WithdrawalApply(s: State, step: WithdrawalStep): State
    requires WithdrawalEnabled(s, step)
  {
    match step
    case SPrepare(w, wd) => Prepare(s, w, wd)
    case SClaim(w) => Claim(s, w)
    case SUnclaim(w) => Unclaim(s, w)
    case SWExpire(w) => WExpire(s, w)
    case SSubmit(w) => Submit(s, w)
    case SFindBurned(w) => FindBurned(s, w)
    case SWLock(w) => AtWPc(s, w, Locked)
    case SWRefuse(w) => WRefuse(s, w)
    case SWEnter(w) => WEnter(s, w)
    case SSnapshot(w) => Snapshot(s, w)
    case SCheck(w) => AtWPc(s, w, Checked)
    case SReject(w) => Reject(s, w)
    case SWBroadcast(w) => WBroadcast(s, w)
    case SWHash(w) => WHash(s, w)
    case SWLose(w) => WLose(s, w)
    case SWReceive(w) => WReceive(s, w)
    case SWSettle(w) => WSettle(s, w)
    case SWClear(w) => WClear(s, w)
    case SWReconcile(w, look) => WReconcile(s, w, look)
    case SWSkip(w) => WSkip(s, w)
  }

  ghost predicate ChainEnabled(s: State, step: ChainStep) {
    match step
    case SMine(op, ok, debit, _) => CanMine(s, op, ok, debit)
    case SBurn(_) => true
    case STick(time) => time >= s.chain.time
    case SDeposit(_, _) => true
  }

  ghost function ChainApply(s: State, step: ChainStep): State
    requires ChainEnabled(s, step)
  {
    match step
    case SMine(op, ok, debit, taker) => Mine(s, op, ok, debit, taker)
    case SBurn(op) => Burn(s, op)
    case STick(time) => Tick(s, time)
    case SDeposit(a, amount) => s.(chain := Credit(s.chain, a, amount))
  }

  ghost predicate Enabled(s: State, step: Step) {
    match step
    case OfAuction(a) => AuctionEnabled(s, a)
    case OfExecution(e) => ExecutionEnabled(s, e)
    case OfRecovery(v) => RecoveryEnabled(s, v)
    case OfWithdrawal(d) => WithdrawalEnabled(s, d)
    case OfChain(c) => ChainEnabled(s, c)
  }

  ghost function Apply(s: State, step: Step): State
    requires Enabled(s, step)
  {
    match step
    case OfAuction(a) => AuctionApply(s, a)
    case OfExecution(e) => ExecutionApply(s, e)
    case OfRecovery(v) => RecoveryApply(s, v)
    case OfWithdrawal(d) => WithdrawalApply(s, d)
    case OfChain(c) => ChainApply(s, c)
  }

  ghost predicate Next(s: State, t: State) { exists step :: Enabled(s, step) && t == Apply(s, step) }

  /** Empty logs, an idle engine and any chain on which nothing was broadcast. */
  predicate Init(s: State) {
    && s.ix == Empty && s.wds == map[] && s.reservations == map[] && s.latches == {} && s.sections == map[]
    && s.recons == map[] && s.claims == {} && s.wsubs == map[] && s.queue == None
    && s.recovering == {} && s.wrecovering == {} && s.used == {}
    && s.chain.broadcasts == [] && s.chain.sent == map[] && s.chain.outcome == map[]
    && s.chain.leaked == map[] && s.chain.paid == {}
    && (forall a :: a in s.chain.cash ==> s.chain.cash[a] >= 0)
  }

  /** A finite run of the whole system. */
  ghost predicate Run(run: seq<State>) {
    && |run| > 0 && Init(run[0])
    && (forall i :: 0 < i < |run| ==> Next(run[i - 1], run[i]))
  }
}
