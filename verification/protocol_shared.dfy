/** A run on which one signed pair of actions is accepted for two RFQs, one after the other. The first is executed. The
    second's call fails before its broadcast, because the nonces are gone, and its reconciliation,
      which has no hash to go
    by, finds the first one's transaction. Every call data hash, account and price occurs. */
module ProtocolShared {
  import opened Types
  import opened RfqIndex
  import opened BestQuote
  import opened AuctionCore
  import opened Sums
  import opened Protocol
  import opened ProtocolPaths
  import ProtocolLeak
  import ProtocolTheorems

  // ------------------------------------------------------------------ an auction with one quote

  /** An idle engine that has not heard of this RFQ, and a maker who can pay for its quote. */
  ghost predicate CanAuction(s: State, rfq: Rfq, q: Quote) {
    && Traffic(s) && s.sections == map[] && s.wsubs == map[]
    && rfq.id !in s.ix.rfqs && rfq.id !in s.ix.quotesByRfq && q.id !in s.used && q.id !in s.ix.quotes
    && rfq.status == Open && rfq.bestQuoteId == None && rfq.executionIntent == None && rfq.execution == None
    && q.rfqId == rfq.id
    && Cash(s.chain, q.makerSubaccountId) >= ReservedFor(s.reservations, q.makerSubaccountId, {}) + q.reservedCash
  }

  function Bid(s: State, rfq: Rfq, sections: map<RfqId, Section>): State { OpenRfq(s, rfq).(sections := sections) }

  function Admitted(s: State, rfq: Rfq, q: Quote, sections: map<RfqId, Section>): State {
    s.(ix := PutQuote(PutRfq(s.ix, rfq), q), used := s.used + {q.id}, sections := sections)
  }

  function Auctioned(s: State, rfq: Rfq, q: Quote, deadline: int): State {
    s.(ix := PutRfq(PutQuote(PutRfq(s.ix, rfq), q), ClosedRecord(rfq, Some(q), deadline)),
       reservations := s.reservations[q.id := Reserve(q)], used := s.used + {q.id})
  }

  lemma Opens(s: State, rfq: Rfq, q: Quote)
    requires CanAuction(s, rfq, q)
    ensures Moves(s, OfAuction(SOpenRfq(rfq)), Bid(s, rfq, map[]))
  {
  }

  ghost function Quotes(s: State, rfq: Rfq, q: Quote): map<RfqId, Section> {
    map[rfq.id := Quoting(q.maker, q.makerSubaccountId, [], ReservedFor(s.reservations, q.makerSubaccountId, {}))]
  }

  lemma Bids(s: State, rfq: Rfq, q: Quote)
    requires CanAuction(s, rfq, q)
    ensures Moves(Bid(s, rfq, map[]), OfAuction(SQuoteBegin(rfq.id, q.maker, q.makerSubaccountId)),
              Bid(s, rfq, Quotes(s, rfq, q)))
  {
    var t := Bid(s, rfq, map[]);
    var priors, a := PriorQuotes(t.ix, rfq.id, q.maker), q.makerSubaccountId;
    assert priors == [];
    assert AmountsFor(t.reservations, a, set p | p in priors) == AmountsFor(s.reservations, a, {});
    assert QuoteBegin(t, rfq.id, q.maker, a) == Bid(s, rfq, Quotes(s, rfq, q));
  }

  lemma Validates(s: State, rfq: Rfq, q: Quote)
    requires CanAuction(s, rfq, q)
    ensures Moves(Bid(s, rfq, Quotes(s, rfq, q)), OfAuction(SQuoteValidate(rfq.id, q)),
              Bid(s, rfq, map[rfq.id := Validated(q, [])]))
  {
    hide ReservedFor;
    assert QuoteValidate(Bid(s, rfq, Quotes(s, rfq, q)), rfq.id, q) == Bid(s, rfq, map[rfq.id := Validated(q, [])]);
  }

  lemma Admits(s: State, rfq: Rfq, q: Quote)
    requires CanAuction(s, rfq, q)
    ensures Moves(Bid(s, rfq, map[rfq.id := Validated(q, [])]), OfAuction(SQuoteAdmit(rfq.id, q.id)),
              Admitted(s, rfq, q, map[rfq.id := Stored(q)]))
  {
    hide ReservedFor;
    assert QuoteAdmit(Bid(s, rfq, map[rfq.id := Validated(q, [])]), rfq.id, q.id) == Admitted(s, rfq, q,
      map[rfq.id := Stored(q)]);
  }

  function Reserved(s: State, rfq: Rfq, q: Quote): State {
    Admitted(s, rfq, q, map[]).(reservations := s.reservations[q.id := Reserve(q)])
  }

  lemma Reserves(s: State, rfq: Rfq, q: Quote)
    requires CanAuction(s, rfq, q)
    ensures Moves(Admitted(s, rfq, q, map[rfq.id := Stored(q)]), OfAuction(SQuoteReserve(rfq.id)),
              Reserved(s, rfq, q))
  {
    assert QuoteReserve(Admitted(s, rfq, q, map[rfq.id := Stored(q)]), rfq.id) == Reserved(s, rfq, q);
  }

  lemma Listed(s: State, rfq: Rfq, q: Quote)
    requires CanAuction(s, rfq, q)
    ensures ListQuotes(Reserved(s, rfq, q).ix, rfq.id) == [q] && SelectBest([q]) == Some(q)
  {
    hide ReservedFor;
    assert Ids(Reserved(s, rfq, q).ix, rfq.id) == [q.id];
    assert [q.id][1..] == [] && [q][..0] == [];
    assert Lookup([q.id], Reserved(s, rfq, q).ix.quotes) == [q] + Lookup([], Reserved(s, rfq, q).ix.quotes);
  }

  lemma Closes(s: State, rfq: Rfq, q: Quote, deadline: int)
    requires CanAuction(s, rfq, q)
    ensures Moves(Reserved(s, rfq, q), OfAuction(SClose(rfq.id, deadline)),
              Auctioned(s, rfq, q, deadline))
  {
    hide ReservedFor;
    Listed(s, rfq, q);
    hide ListQuotes, SelectBest;
    assert ClosedReservations(s.reservations[q.id := Reserve(q)], [q], Some(q)) == s.reservations[q.id := Reserve(q)];
    assert Close(Reserved(s, rfq, q), rfq.id, deadline) == Auctioned(s, rfq, q, deadline);
  }

  lemma ReachesAuctioned(s: State, rfq: Rfq, q: Quote, deadline: int)
    requires CanAuction(s, rfq, q)
    ensures Reaches(s, Auctioned(s, rfq, q, deadline))
  {
    hide *;
    var r := rfq.id;
    Start(s);
    Opens(s, rfq, q); Follow(s, s, OfAuction(SOpenRfq(rfq)), Bid(s, rfq, map[]));
    Bids(s, rfq, q);
    Follow(s, Bid(s, rfq, map[]), OfAuction(SQuoteBegin(r, q.maker, q.makerSubaccountId)), Bid(s, rfq, Quotes(s, rfq,
      q)));
    Validates(s, rfq, q);
    Follow(s, Bid(s, rfq, Quotes(s, rfq, q)), OfAuction(SQuoteValidate(r, q)), Bid(s, rfq, map[r := Validated(q, [])]));
    Admits(s, rfq, q);
    Follow(s, Bid(s, rfq, map[r := Validated(q, [])]), OfAuction(SQuoteAdmit(r, q.id)), Admitted(s, rfq, q,
      map[r := Stored(q)]));
    Reserves(s, rfq, q);
    Follow(s, Admitted(s, rfq, q, map[r := Stored(q)]), OfAuction(SQuoteReserve(r)), Reserved(s, rfq, q));
    Closes(s, rfq, q, deadline);
    Follow(s, Reserved(s, rfq, q), OfAuction(SClose(r, deadline)), Auctioned(s, rfq, q, deadline));
  }

  // ------------------------------------------------------------------ an acceptance up to its durable intent

  predicate CanAccept(s: State, r: RfqId, intent: Intent) {
    && Traffic(s) && s.sections == map[] && s.wsubs == map[] && RfqHas(s, r, Closed) && HasWinner(s, r)
      && s.ix.rfqs[r].id == r
    && intent.txHash == None && intent.fill.quoteId == WinnerId(s, r)
  }

  function Committed(s: State, r: RfqId, intent: Intent): State
    requires HasWinner(s, r)
  {
    s.(ix := PutRfq(s.ix, ExecutingRecord(s.ix.rfqs[r], intent)),
       sections := map[r := Queued(s.ix.rfqs[r].takerSubaccountId, WinnerQuote(s, r).makerSubaccountId, WinnerId(s,
         r))])
  }

  lemma ReachesCommitted(s: State, r: RfqId, intent: Intent)
    requires CanAccept(s, r, intent)
    ensures Reaches(s, Committed(s, r, intent))
  {
    var t := AcceptBegin(s, r);
    assert AcceptCommit(t, r, intent) == Committed(s, r, intent);
    assert Moves(s, OfExecution(SAcceptBegin(r)), t) && Moves(t, OfExecution(SAcceptCommit(r, intent)), Committed(s,
      r, intent));
    hide *;
    Start(s);
    Follow(s, s, OfExecution(SAcceptBegin(r)), t);
    Follow(s, t, OfExecution(SAcceptCommit(r, intent)), Committed(s, r, intent));
  }

  // ------------------------------------------------------------------ the scene

  /** The call data that both RFQs carry, its two accounts, and what each quote reserves. */
  datatype Scene = Scene(data: Hash, maker: Account, taker: Account, cost: nat)

  function Begin(x: Scene): State { ProtocolLeak.Fresh(map[x.maker := 2 * x.cost]) }

  function Request(x: Scene, r: RfqId): Rfq {
    Rfq(r, x.taker, ProtocolLeak.OPTION, 1, 0, 60, None, Open, None, None, None, None)
  }

  /** The same signed action for either RFQ. */
  function Offer(x: Scene, r: RfqId): Quote {
    Quote(r, r, 0, x.maker, 5, 5, [], 0, Action(x.maker, 0, 0, 0, 100, 0, 0), 0, 0, x.cost)
  }

  function IntentOf(x: Scene, r: RfqId): Intent {
    Intent(ActionIdentity(x.maker, 0, 0, 100, 0, 0, 0), ActionIdentity(x.taker, 1, 0, 100, 1, 1, 1), x.data, 0, None,
           Fill(r, r, "ETH-CALL", 0, x.maker, x.taker, 1, 5, 5, 0, 0))
  }

  function ClosedOf(x: Scene, r: RfqId): Rfq { ClosedRecord(Request(x, r), Some(Offer(x, r)), 90) }

  function ExecutingOf(x: Scene, r: RfqId): Rfq { ExecutingRecord(ClosedOf(x, r), IntentOf(x, r)) }

  /** Both auctions are closed; the records are these. */
  function Both(x: Scene, first: Rfq, second: Rfq): State {
    Begin(x).(
      ix := Index(map[0 := first, 1 := second], map[0 := Offer(x, 0), 1 := Offer(x, 1)], map[0 := [0], 1 := [1]]),
      reservations := map[0 := Reserve(Offer(x, 0)), 1 := Reserve(Offer(x, 1))], used := {0, 1})
  }

  lemma FirstAuction(x: Scene)
    ensures CanAuction(Begin(x), Request(x, 0), Offer(x, 0))
  {
    assert AmountsFor(map[], x.maker, {}) == map[];
  }

  lemma SecondAuction(x: Scene)
    ensures CanAuction(Auctioned(Begin(x), Request(x, 0), Offer(x, 0), 90), Request(x, 1), Offer(x, 1))
  {
    var s := Auctioned(Begin(x), Request(x, 0), Offer(x, 0), 90);
    assert AmountsFor(s.reservations, x.maker, {}) == map[0 := x.cost];
    TotalAt(map[0 := x.cost], 0);
    assert map[0 := x.cost] - {0} == map[];
  }

  lemma BothAuctions(x: Scene)
    ensures Auctioned(Auctioned(Begin(x), Request(x, 0), Offer(x, 0), 90), Request(x, 1), Offer(x, 1), 90)
         == Both(x, ClosedOf(x, 0), ClosedOf(x, 1))
  {
    var s := Auctioned(Begin(x), Request(x, 0), Offer(x, 0), 90);
    var t := Auctioned(s, Request(x, 1), Offer(x, 1), 90);
    assert s.ix == Index(map[0 := ClosedOf(x, 0)], map[0 := Offer(x, 0)],
      map[0 := [0]]) by { assert Ids(PutRfq(Empty, Request(x, 0)), 0) + [0] == [0]; }
    assert Ids(PutRfq(s.ix, Request(x, 1)), 1) + [1] == [1];
    assert t.ix.quotesByRfq == map[0 := [0], 1 := [1]];
    assert t.ix.quotes == map[0 := Offer(x, 0), 1 := Offer(x, 1)];
    assert t.ix.rfqs == map[0 := ClosedOf(x, 0), 1 := ClosedOf(x, 1)];
    assert t.reservations == Both(x, ClosedOf(x, 0), ClosedOf(x, 1)).reservations;
  }

  // ------------------------------------------------------------------ the first execution

  function QueuedAt(x: Scene, r: RfqId): Section { Queued(x.taker, x.maker, r) }

  function SentChain(x: Scene): Chain {
    Begin(x).chain.(broadcasts := [RfqOp(0)],
                    sent := map[RfqOp(0) := Payload(x.maker, x.cost, 100, 100, Some(0), Some(x.data))])
  }

  function MinedChain(x: Scene, burned: set<OpId>): Chain {
    SentChain(x).(outcome := map[RfqOp(0) := true], burned := burned, paid := {0},
                  cash := map[x.maker := x.cost][x.taker := if x.taker == x.maker then x.cost else 0])
  }

  function HashedOf(x: Scene, hash: Hash): Rfq { HashedRecord(ExecutingOf(x, 0), hash) }

  function ExecutedOf(x: Scene, hash: Hash): Rfq { MinedRecord(HashedOf(x, hash), hash, true, None) }

  /** The first RFQ's record and handler, and the chain, while it executes. */
  function During(x: Scene, first: Rfq, pc: Section, queue: Option<OpId>, chain: Chain): State {
    Both(x, first, ClosedOf(x, 1)).(sections := map[0 := pc], queue := queue, chain := chain)
  }

  /** The first RFQ is executed and its reservation released; the second one's record is this. */
  function After(x: Scene, hash: Hash, second: Rfq, sections: map<RfqId, Section>, burned: set<OpId>): State {
    Both(x, ExecutedOf(x, hash), second).(
      reservations := map[1 := Reserve(Offer(x, 1))], sections := sections, chain := MinedChain(x, burned))
  }

  function Waiting(x: Scene): State { During(x, ExecutingOf(x, 0), QueuedAt(x, 0), None, Begin(x).chain) }

  function Flying(x: Scene, chain: Chain): State {
    During(x, ExecutingOf(x, 0), Sent(x.taker, x.maker, 0), Some(RfqOp(0)), chain)
  }

  function Known(x: Scene, hash: Hash): State {
    During(x, HashedOf(x, hash), Hashed(x.taker, x.maker, 0), Some(RfqOp(0)), MinedChain(x, {}))
  }

  function Receipted(x: Scene, hash: Hash): State {
    During(x, HashedOf(x, hash), Mined(x.taker, x.maker, 0, true), None, MinedChain(x, {}))
  }

  function Settled(x: Scene, hash: Hash): State {
    During(x, ExecutedOf(x, hash), Releasing(0, {x.taker, x.maker}, true), None, MinedChain(x, {}))
  }

  function Done(x: Scene, hash: Hash): State { After(x, hash, ClosedOf(x, 1), map[], {}) }

  lemma AcceptsFirst(x: Scene)
    ensures CanAccept(Both(x, ClosedOf(x, 0), ClosedOf(x, 1)), 0, IntentOf(x, 0))
    ensures Committed(Both(x, ClosedOf(x, 0), ClosedOf(x, 1)), 0, IntentOf(x, 0))
         == Waiting(x)
  {
  }

  lemma BroadcastsFirst(x: Scene)
    ensures Moves(Waiting(x), OfExecution(SBroadcast(0)),
              Flying(x, SentChain(x)))
  {
    assert Broadcast(Waiting(x), 0) == Flying(x, SentChain(x));
  }

  lemma MinesFirst(x: Scene)
    ensures Moves(Flying(x, SentChain(x)), OfChain(SMine(RfqOp(0), true, x.cost, 0)),
              Flying(x, MinedChain(x, {})))
  {
    var s := Flying(x, SentChain(x));
    assert CanMine(s, RfqOp(0), true, x.cost);
    assert Mine(s, RfqOp(0), true, x.cost, 0).chain.cash == MinedChain(x, {}).cash;
    assert Mine(s, RfqOp(0), true, x.cost, 0) == Flying(x, MinedChain(x, {}));
  }

  lemma HashesFirst(x: Scene, hash: Hash)
    ensures Moves(Flying(x, MinedChain(x, {})), OfExecution(SHash(0, hash)),
              Known(x, hash))
  {
    hide MinedChain;
    assert LearnHash(Flying(x, MinedChain(x, {})), 0, hash) == Known(x, hash);
  }

  lemma ReceivesFirst(x: Scene, hash: Hash)
    ensures Moves(Known(x, hash), OfExecution(SReceive(0)),
              Receipted(x, hash))
  {
    assert Receive(Known(x, hash), 0) == Receipted(x, hash);
  }

  lemma SettlesFirst(x: Scene, hash: Hash)
    ensures Moves(Receipted(x, hash), OfExecution(SSettle(0, hash)),
              Settled(x, hash))
  {
    hide MinedChain;
    assert Settle(Receipted(x, hash), 0, hash) == Settled(x, hash);
  }

  lemma ReleasesFirst(x: Scene, hash: Hash)
    ensures Moves(Settled(x, hash), OfExecution(SRelease(0)),
              Done(x, hash))
  {
    var s := Settled(x, hash);
    assert Release(s, 0).reservations == map[1 := Reserve(Offer(x, 1))];
    assert Release(s, 0) == Done(x, hash);
  }

  lemma ReachesExecuted(x: Scene, hash: Hash)
    ensures Reaches(Begin(x), Done(x, hash))
  {
    hide *;
    var s := Begin(x);
    FirstAuction(x); ReachesAuctioned(s, Request(x, 0), Offer(x, 0), 90);
    var one := Auctioned(s, Request(x, 0), Offer(x, 0), 90);
    SecondAuction(x); ReachesAuctioned(one, Request(x, 1), Offer(x, 1), 90);
    BothAuctions(x);
    var two := Both(x, ClosedOf(x, 0), ClosedOf(x, 1));
    Join(s, one, two);
    AcceptsFirst(x); ReachesCommitted(two, 0, IntentOf(x, 0));
    Join(s, two, Waiting(x));
    ReachesReleased(x, hash);
    Join(s, Waiting(x), Done(x, hash));
  }

  lemma ReachesReleased(x: Scene, hash: Hash)
    ensures Reaches(Waiting(x), Done(x, hash))
  {
    hide *;
    var s := Waiting(x);
    Start(s);
    BroadcastsFirst(x); Follow(s, s, OfExecution(SBroadcast(0)), Flying(x, SentChain(x)));
    MinesFirst(x);
    Follow(s, Flying(x, SentChain(x)), OfChain(SMine(RfqOp(0), true, x.cost, 0)), Flying(x, MinedChain(x, {})));
    HashesFirst(x, hash); Follow(s, Flying(x, MinedChain(x, {})), OfExecution(SHash(0, hash)), Known(x, hash));
    ReceivesFirst(x, hash); Follow(s, Known(x, hash), OfExecution(SReceive(0)), Receipted(x, hash));
    SettlesFirst(x, hash); Follow(s, Receipted(x, hash), OfExecution(SSettle(0, hash)), Settled(x, hash));
    ReleasesFirst(x, hash); Follow(s, Settled(x, hash), OfExecution(SRelease(0)), Done(x, hash));
  }

  // ------------------------------------------------------------------ the second one

  function Second(x: Scene, hash: Hash, burned: set<OpId>): State {
    After(x, hash, ExecutingOf(x, 1), map[1 := QueuedAt(x, 1)], burned)
  }

  lemma AcceptsSecond(x: Scene, hash: Hash)
    ensures CanAccept(Done(x, hash), 1, IntentOf(x, 1))
    ensures Committed(Done(x, hash), 1, IntentOf(x, 1))
         == Second(x, hash, {})
  {
  }

  lemma BurnsSecond(x: Scene, hash: Hash)
    ensures Moves(Second(x, hash, {}), OfChain(SBurn(RfqOp(1))),
              Second(x, hash, {RfqOp(1)}))
  {
  }

  function Unresolved(x: Scene): Rfq { ExecutingOf(x, 1).(error := Some("execution outcome unresolved")) }

  function Recovering(x: Scene, hash: Hash, second: Rfq, recons: map<RfqId, Recon>): State {
    After(x, hash, second, map[], {RfqOp(1)}).(latches := {OpLatch(RfqOp(1))}, recons := recons)
  }

  function Asking(x: Scene, hash: Hash, recons: map<RfqId, Recon>): State {
    Recovering(x, hash, Unresolved(x), recons)
  }

  lemma LosesSecond(x: Scene, hash: Hash)
    ensures Moves(Second(x, hash, {RfqOp(1)}), OfExecution(SLose(1)),
              Asking(x, hash, map[]))
  {
    hide MinedChain;
    assert Lose(Second(x, hash, {RfqOp(1)}), 1) == Asking(x, hash, map[]);
  }

  lemma ReconcilesSecond(x: Scene, hash: Hash)
    ensures Moves(Asking(x, hash, map[]), OfRecovery(SReconStart(1)),
              Asking(x, hash, map[1 := Reading]))
  {
    hide MinedChain;
    assert ReconStart(Asking(x, hash, map[]), 1) == Asking(x, hash, map[1 := Reading]);
  }

  lemma AnswersSecond(x: Scene, hash: Hash)
    ensures Moves(Asking(x, hash, map[1 := Reading]), OfRecovery(SReconAnswer(1, AnswerMined(true))),
              Asking(x, hash, map[1 := Got(AnswerMined(true))]))
  {
    var s := Asking(x, hash, map[1 := Reading]);
    assert RfqOp(0) in s.chain.sent && s.chain.sent[RfqOp(0)].data == Some(x.data) && Succeeded(s.chain, RfqOp(0));
    assert ExecutedData(s.chain, x.data);
    assert ReconAnswer(s, 1, AnswerMined(true)) == Asking(x, hash, map[1 := Got(AnswerMined(true))]);
  }

  function Misfiled(x: Scene, hash: Hash): State {
    Recovering(x, hash, MinedRecord(Unresolved(x), hash, true, None), map[1 := Clearing(1, true)])
  }

  lemma FilesSecond(x: Scene, hash: Hash)
    ensures Moves(Asking(x, hash, map[1 := Got(AnswerMined(true))]), OfRecovery(SReconPut(1, hash)),
              Misfiled(x, hash))
  {
    hide MinedChain;
    assert ReconPut(Asking(x, hash, map[1 := Got(AnswerMined(true))]), 1, hash) == Misfiled(x, hash);
  }

  lemma ReachesMisfiled(x: Scene, hash: Hash)
    ensures Reaches(Begin(x), Misfiled(x, hash))
  {
    hide *;
    var s, one := Begin(x), Done(x, hash);
    ReachesExecuted(x, hash);
    AcceptsSecond(x, hash); ReachesCommitted(one, 1, IntentOf(x, 1));
    Join(s, one, Second(x, hash, {}));
    BurnsSecond(x, hash); Follow(s, Second(x, hash, {}), OfChain(SBurn(RfqOp(1))), Second(x, hash, {RfqOp(1)}));
    LosesSecond(x, hash); Follow(s, Second(x, hash, {RfqOp(1)}), OfExecution(SLose(1)), Asking(x, hash, map[]));
    ReconcilesSecond(x, hash);
    Follow(s, Asking(x, hash, map[]), OfRecovery(SReconStart(1)), Asking(x, hash, map[1 := Reading]));
    AnswersSecond(x, hash);
    Follow(s, Asking(x, hash, map[1 := Reading]), OfRecovery(SReconAnswer(1, AnswerMined(true))), Asking(x, hash,
      map[1 := Got(AnswerMined(true))]));
    FilesSecond(x, hash);
    Follow(s, Asking(x, hash, map[1 := Got(AnswerMined(true))]), OfRecovery(SReconPut(1, hash)), Misfiled(x, hash));
  }

  lemma Misfiles(x: Scene, hash: Hash)
    ensures Init(Begin(x))
    ensures var t := Misfiled(x, hash);
            && ProtocolTheorems.SameCallData(t, 0, 1) && t.ix.rfqs[1].executionIntent.value.calldataHash == x.data
            && RfqHas(t, 0, Executed) && Succeeded(t.chain, RfqOp(0))
            && RfqHas(t, 1, Executed) && !Succeeded(t.chain, RfqOp(1)) && RfqOp(1) !in t.chain.broadcasts
  {
  }

  /** For every call data, accounts and price, a run ends with two RFQs that carry it filed as executed, of which the
      second was never even broadcast. */
  lemma SharedCallDataIsShared(data: Hash, maker: Account, taker: Account, cost: nat, hash: Hash) returns (s: State,
    t: State)
    ensures Init(s) && Reaches(s, t)
    ensures ProtocolTheorems.SameCallData(t, 0, 1) && t.ix.rfqs[1].executionIntent.value.calldataHash == data
    ensures RfqHas(t, 0, Executed) && Succeeded(t.chain, RfqOp(0))
    ensures RfqHas(t, 1, Executed) && !Succeeded(t.chain, RfqOp(1)) && RfqOp(1) !in t.chain.broadcasts
  {
    hide Reaches;
    var x := Scene(data, maker, taker, cost);
    s, t := Begin(x), Misfiled(x, hash);
    Misfiles(x, hash);
    ReachesMisfiled(x, hash);
  }
}
