/** The pure transitions of the auction's durable records and of the reservation map.
    The engine class and the concurrent protocol are both stated with these. */
module AuctionCore {
  import opened Types
  import opened RfqIndex
  import opened Sums

  datatype Reservation = Reservation(subaccountId: Account, amount: nat)
  type Reservations = map<QuoteId, Reservation>

  function Reserve(q: Quote): Reservation { Reservation(q.makerSubaccountId, q.reservedCash) }

  /** A quote still binds its maker's cash: its auction runs, or it won and is undecided. */
  predicate Live(ix: Index, q: QuoteId) {
    && q in ix.quotes
    && ix.quotes[q].rfqId in ix.rfqs
    && var rfq := ix.rfqs[ix.quotes[q].rfqId];
       rfq.status == Open || ((rfq.status == Closed || rfq.status == Executing) && rfq.bestQuoteId == Some(q))
  }

  /** The reservation map that the durable store calls for. */
  function ReservationsOf(ix: Index): Reservations {
    map q | q in ix.quotes && Live(ix, q) :: Reserve(ix.quotes[q])
  }

  function AmountsFor(res: Reservations, a: Account, exclude: set<QuoteId>): map<nat, nat> {
    map q | q in res && res[q].subaccountId == a && q !in exclude :: res[q].amount
  }

  /** Cash reserved against an account, leaving out the given quotes. */
  ghost function ReservedFor(res: Reservations, a: Account, exclude: set<QuoteId>): nat {
    Total(AmountsFor(res, a, exclude))
  }

  function IdsOf(qs: seq<Quote>): set<QuoteId> { set q | q in qs :: q.id }

  function ClosedRecord(rfq: Rfq, best: Option<Quote>, deadline: int): Rfq {
    match best
    case Some(b) => rfq.(status := Closed, bestQuoteId := Some(b.id), acceptDeadlineAt := Some(deadline))
    case None => rfq.(status := Expired, bestQuoteId := None)
  }

  /** Losers are released and the winner is (re)installed. */
  function ClosedReservations(res: Reservations, qs: seq<Quote>, best: Option<Quote>): Reservations {
    match best
    case Some(b) => (res - IdsOf(qs))[b.id := Reserve(b)]
    case None => res - IdsOf(qs)
  }

  function ExpiredRecord(rfq: Rfq): Rfq {
    rfq.(status := Expired, error := Some("taker did not accept before the deadline"))
  }

  function ExecutingRecord(rfq: Rfq, intent: Intent): Rfq {
    rfq.(status := Executing, executionIntent := Some(intent), error := None)
  }

  function ReopenedRecord(rfq: Rfq): Rfq {
    rfq.(status := Closed, executionIntent := None, error := Some("executor unavailable"))
  }

  function HashedRecord(rfq: Rfq, hash: Hash): Rfq
    requires rfq.executionIntent.Some?
  {
    rfq.(executionIntent := Some(rfq.executionIntent.value.(txHash := Some(hash))))
  }

  function MinedRecord(rfq: Rfq, hash: Hash, success: bool, block: Option<int>): Rfq
    requires rfq.executionIntent.Some?
  {
    var intent := rfq.executionIntent.value;
    rfq.(status := if success then Executed else Failed,
         execution := Some(Execution(hash, success, block, intent.fill)),
         executionIntent := Some(intent.(txHash := Some(hash))),
         error := if success then None else Some("verifyAndMatch reverted"))
  }

  function UnusedRecord(rfq: Rfq): Rfq {
    rfq.(status := Failed, execution := None,
         error := Some("execution did not consume either action nonce before both actions expired"))
  }
}
