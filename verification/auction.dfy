/** The auction engine (auction.ts): the code that runs inside its locks, on the store and the reservation
    map, statement by statement. The protocol's steps are stated with the same functions. */
module Auction {
  import opened Types
  import opened RfqIndex
  import opened BestQuote
  import opened AuctionCore
  import opened Sums
  import opened JsonlStore
  import RfqStore
  import Protocol

  // ------------------------------------------------------------------ specification

  function Prior(ix: Index, r: RfqId, maker: Address): seq<QuoteId> { Protocol.PriorQuotes(ix, r, maker) }

  /** Quotes dropped one after the other. */
  function DropAll(ix: Index, ids: seq<QuoteId>): Index {
    if ids == [] then ix else DeleteQuote(DropAll(ix, ids[..|ids| - 1]), ids[|ids| - 1])
  }

  function ReleaseAll(res: Reservations, ids: seq<QuoteId>): Reservations {
    if ids == [] then res else ReleaseAll(res, ids[..|ids| - 1]) - {ids[|ids| - 1]}
  }

  lemma {:induction false} ReleasedSet(res: Reservations, ids: seq<QuoteId>)
    ensures ReleaseAll(res, ids) == res - set i | i in ids
  {
    if ids != [] {
      var init := ids[..|ids| - 1];
      ReleasedSet(res, init);
      assert ids == init + [ids[|ids| - 1]];
    }
  }

  datatype Outcome<+T> = Ok(value: T) | Err(reason: string)

  // ------------------------------------------------------------------ the engine

  class AuctionEngine {
    const store: JsonlRfqStore
    const acceptDeadlineMs: int
    var reservations: Reservations

    constructor (s: JsonlRfqStore, deadline: int)
      ensures store == s && reservations == map[] && acceptDeadlineMs == deadline
    {
      store := s;
      acceptDeadlineMs := deadline;
      reservations := map[];
    }

    /** The sum of an account's reservations, leaving out some quotes. */
    method ReservedFor(a: Account, exclude: set<QuoteId>) returns (total: nat)
      ensures total == AuctionCore.ReservedFor(reservations, a, exclude)
    {
      total := 0;
      var keys := reservations.Keys;
      ghost var amounts := AmountsFor(reservations, a, exclude);
      assert amounts - (reservations.Keys - keys) == amounts;
      while keys != {}
        invariant keys <= reservations.Keys
        invariant total + Total(amounts - (reservations.Keys - keys)) == Total(amounts)
        decreases |keys|
      {
        var q :| q in keys;
        ghost var rest := amounts - (reservations.Keys - keys);
        if reservations[q].subaccountId == a && q !in exclude {
          total := total + reservations[q].amount;
          assert q in rest;
          TotalAt(rest, q);
          assert rest - {q} == amounts - (reservations.Keys - (keys - {q}));
        } else {
          assert q !in rest;
          assert rest == amounts - (reservations.Keys - (keys - {q}));
        }
        keys := keys - {q};
      }
      assert amounts - (reservations.Keys - keys) == map[];
    }

    /** The loop over the maker's earlier quotes. */
    method DropPriors(prior: seq<QuoteId>)
      modifies this`reservations, store
      ensures old(store.Durable()) ==> store.Durable()
      ensures store.State() == DropAll(old(store.State()), prior) && reservations == ReleaseAll(old(reservations), prior)
    {
      hide RfqStore.Load, RfqStore.Whole, RfqStore.Line, DeleteQuote;
      for i := 0 to |prior|
        invariant old(store.Durable()) ==> store.Durable()
        invariant store.State() == DropAll(old(store.State()), prior[..i])
        invariant reservations == ReleaseAll(old(reservations), prior[..i])
      {
        assert prior[..i + 1][..i] == prior[..i];
        store.DeleteQuote(prior[i]);
        reservations := reservations - {prior[i]};
      }
      assert prior[..|prior|] == prior;
    }

    /** submitQuoteLocked. validate stands for the quote checks, which read the chain; open says whether the
        window is still open when they return. On success the maker's earlier quotes on the RFQ are gone
        from the store and the map, and the new one is in both. */
    method SubmitQuoteLocked(r: RfqId, maker: Address, sub: Account, validate: nat -> Outcome<Quote>, open: bool)
      returns (result: Outcome<Quote>, replaced: Option<QuoteId>)
      modifies this`reservations, store
      ensures old(store.Durable()) ==> store.Durable()
      ensures var ix, priors := old(store.State()), Prior(old(store.State()), r, maker);
              var checked := validate(AuctionCore.ReservedFor(old(reservations), sub, set p | p in priors));
              && (result.Ok? <==> r in ix.rfqs && checked.Ok? && ix.rfqs[r].status == Open && open)
              && (result.Err? ==> store.State() == ix && reservations == old(reservations))
              && (result.Ok? ==>
                    && result.value == checked.value
                    && store.State() == PutQuote(DropAll(ix, priors), checked.value)
                    && reservations == ReleaseAll(old(reservations), priors)[checked.value.id := Reserve(checked.value)]
                    && replaced == if priors == [] then None else Some(priors[|priors| - 1]))
    {
      hide RfqStore.Load, RfqStore.Whole, RfqStore.Line, DropAll, ReleaseAll, RfqIndex.PutQuote, Lookup,
          Protocol.MakerIds, AmountsFor, AuctionCore.ReservedFor;
      replaced := None;
      if r !in store.rfqs { return Err("unknown rfq"), None; }
      var quotes := store.ListQuotes(r);
      var prior := Protocol.MakerIds(quotes, maker);
      var reserved := ReservedFor(sub, set p | p in prior);
      var checked := validate(reserved);
      if checked.Err? { return checked, None; }
      if store.rfqs[r].status != Open || !open { return Err("auction window closed"), None; }
      DropPriors(prior);
      var quote := checked.value;
      store.PutQuote(quote);
      reservations := reservations[quote.id := Reserve(quote)];
      return checked, if prior == [] then None else Some(prior[|prior| - 1]);
    }

    /** The locked part of cancelQuote. */
    method CancelQuoteLocked(q: QuoteId, maker: Address, open: bool) returns (result: Outcome<Quote>)
      modifies this`reservations, store
      ensures old(store.Durable()) ==> store.Durable()
      ensures var ix := old(store.State());
              && (result.Ok? <==> q in ix.quotes && ix.quotes[q].maker == maker && ix.quotes[q].rfqId in ix.rfqs
                                  && ix.rfqs[ix.quotes[q].rfqId].status == Open && open)
              && (if result.Ok? then store.State() == DeleteQuote(ix, q) && reservations == old(reservations) - {q}
                  else store.State() == ix && reservations == old(reservations))
    {
      if q !in store.quotes || store.quotes[q].maker != maker { return Err("unknown quote"); }
      var current := store.quotes[q];
      if current.rfqId !in store.rfqs || store.rfqs[current.rfqId].status != Open || !open {
        return Err("auction window closed");
      }
      store.DeleteQuote(q);
      reservations := reservations - {q};
      return Ok(current);
    }

    /** The loop that releases every quote but the best. */
    method ReleaseLosers(quotes: seq<Quote>, best: Option<Quote>)
      modifies this`reservations
      ensures reservations == old(reservations) - (IdsOf(quotes) - if best.Some? then {best.value.id} else {})
    {
      ghost var winner := if best.Some? then {best.value.id} else {};
      for i := 0 to |quotes|
        invariant reservations == old(reservations) - (IdsOf(quotes[..i]) - winner)
      {
        LastId(quotes, i);
        if best.None? || quotes[i].id != best.value.id { reservations := reservations - {quotes[i].id}; }
      }
      assert quotes[..|quotes|] == quotes;
    }

    /** closeAuctionLocked: the best quote wins and alone stays reserved, or the RFQ expires. */
    method CloseAuctionLocked(r: RfqId, now: int)
      requires WellFormed(store.State())
      modifies this`reservations, store
      ensures old(store.Durable()) ==> store.Durable()
      ensures var ix := old(store.State());
              if r in ix.rfqs && ix.rfqs[r].status == Open then
                var quotes := RfqIndex.ListQuotes(ix, r);
                && store.State() == PutRfq(ix, ClosedRecord(ix.rfqs[r], SelectBest(quotes), now + acceptDeadlineMs))
                && reservations == ClosedReservations(old(reservations), quotes, SelectBest(quotes))
              else store.State() == ix && reservations == old(reservations)
    {
      hide RfqStore.Load, RfqStore.Whole, RfqStore.Line, Lookup, SelectBest, WellFormed, IsBest;
      if r !in store.rfqs || store.rfqs[r].status != Open { return; }
      var rfq := store.rfqs[r];
      var quotes := store.ListQuotes(r);
      var best := SelectBestQuote(quotes);
      ReleaseLosers(quotes, best);
      if best.Some? { reservations := reservations[best.value.id := Reserve(best.value)]; }
      rfq := rfq.(status := if best.Some? then Closed else Expired,
                  bestQuoteId := if best.Some? then Some(best.value.id) else None);
      if best.Some? { rfq := rfq.(acceptDeadlineAt := Some(now + acceptDeadlineMs)); }
      store.PutRfq(rfq);
    }

    /** expireAcceptLocked: the record first, then the winner's release. */
    method ExpireAcceptLocked(r: RfqId) returns (expired: bool)
      requires WellFormed(store.State())
      modifies this`reservations, store
      ensures old(store.Durable()) ==> store.Durable()
      ensures var ix := old(store.State());
              && (expired <==> r in ix.rfqs && ix.rfqs[r].status == Closed)
              && store.State() == (if expired then PutRfq(ix, ExpiredRecord(ix.rfqs[r])) else ix)
              && reservations == if expired && ix.rfqs[r].bestQuoteId.Some? && ix.rfqs[r].bestQuoteId.value in ix.quotes
                                 then old(reservations) - {ix.rfqs[r].bestQuoteId.value} else old(reservations)
    {
      hide RfqStore.Load, RfqStore.Whole, RfqStore.Line;
      if r !in store.rfqs || store.rfqs[r].status != Closed { return false; }
      var rfq := store.rfqs[r];
      var winner := if rfq.bestQuoteId.Some? && rfq.bestQuoteId.value in store.quotes then Some(store.quotes[rfq.bestQuoteId.value]) else None;
      rfq := rfq.(status := Expired, error := Some("taker did not accept before the deadline"));
      store.PutRfq(rfq);
      if winner.Some? { reservations := reservations - {winner.value.id}; }
      expired := true;
    }

    /** terminalizeMined: no collateral is released before the terminal record is durable. */
    method TerminalizeMined(rfq: Rfq, hash: Hash, success: bool, block: Option<int>)
      requires rfq.executionIntent.Some?
      modifies this`reservations, store
      ensures old(store.Durable()) ==> store.Durable()
      ensures store.State() == PutRfq(old(store.State()), MinedRecord(rfq, hash, success, block))
      ensures reservations == old(reservations) - {rfq.executionIntent.value.fill.quoteId}
    {
      hide RfqStore.Load, RfqStore.Whole, RfqStore.Line;
      var intent := rfq.executionIntent.value;
      store.PutRfq(rfq.(status := if success then Executed else Failed,
                        execution := Some(Execution(hash, success, block, intent.fill)),
                        executionIntent := Some(intent.(txHash := Some(hash))),
                        error := if success then None else Some("verifyAndMatch reverted")));
      reservations := reservations - {intent.fill.quoteId};
    }

    method TerminalizeExpiredUnused(rfq: Rfq)
      requires rfq.executionIntent.Some?
      modifies this`reservations, store
      ensures old(store.Durable()) ==> store.Durable()
      ensures store.State() == PutRfq(old(store.State()), UnusedRecord(rfq))
      ensures reservations == old(reservations) - {rfq.executionIntent.value.fill.quoteId}
    {
      hide RfqStore.Load, RfqStore.Whole, RfqStore.Line;
      store.PutRfq(UnusedRecord(rfq));
      reservations := reservations - {rfq.executionIntent.value.fill.quoteId};
    }
  }

  lemma LastId(quotes: seq<Quote>, i: nat)
    requires i < |quotes|
    ensures IdsOf(quotes[..i + 1]) == IdsOf(quotes[..i]) + {quotes[i].id}
  {
    assert quotes[..i + 1] == quotes[..i] + [quotes[i]];
  }
}
