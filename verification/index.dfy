/** The in-memory index of the RFQ store (store.ts): two maps and the per-RFQ quote order. */
module RfqIndex {
  import opened Types

  datatype Index = Index(
    rfqs: map<RfqId, Rfq>,
    quotes: map<QuoteId, Quote>,
    quotesByRfq: map<RfqId, seq<QuoteId>>)

  const Empty := Index(map[], map[], map[])

  function PutRfq(ix: Index, rfq: Rfq): Index {
    ix.(rfqs := ix.rfqs[rfq.id := rfq])
  }

  function Ids(ix: Index, r: RfqId): seq<QuoteId> {
    if r in ix.quotesByRfq then ix.quotesByRfq[r] else []
  }

  /** A known id keeps its place in the order; a new one goes last. */
  function PutQuote(ix: Index, q: Quote): Index {
    var order := if q.id in ix.quotes then ix.quotesByRfq
                 else ix.quotesByRfq[q.rfqId := Ids(ix, q.rfqId) + [q.id]];
    ix.(quotesByRfq := order, quotes := ix.quotes[q.id := q])
  }

  function Without(ids: seq<QuoteId>, id: QuoteId): (r: seq<QuoteId>)
    ensures forall x :: x in r <==> x in ids && x != id
    ensures Distinct(ids) ==> Distinct(r)
  {
    if ids == [] then []
    else if ids[0] == id then
      assert ids == [id] + ids[1..];
      Without(ids[1..], id)
    else
      assert ids == [ids[0]] + ids[1..];
      assert Distinct(ids) ==> Distinct(ids[1..]) && ids[0] !in ids[1..];
      [ids[0]] + Without(ids[1..], id)
  }

  function DeleteQuote(ix: Index, id: QuoteId): Index {
    if id !in ix.quotes then ix
    else
      var r := ix.quotes[id].rfqId;
      var order := if r in ix.quotesByRfq
                   then ix.quotesByRfq[r := Without(ix.quotesByRfq[r], id)] else ix.quotesByRfq;
      ix.(quotes := ix.quotes - {id}, quotesByRfq := order)
  }

  function Lookup(ids: seq<QuoteId>, quotes: map<QuoteId, Quote>): (qs: seq<Quote>)
    ensures forall q :: q in qs <==> exists id :: id in ids && id in quotes && quotes[id] == q
  {
    if ids == [] then []
    else
      assert ids == [ids[0]] + ids[1..];
      (if ids[0] in quotes then [quotes[ids[0]]] else []) + Lookup(ids[1..], quotes)
  }

  /** The stored quotes of an RFQ in arrival order. */
  function ListQuotes(ix: Index, r: RfqId): seq<Quote> { Lookup(Ids(ix, r), ix.quotes) }

  ghost predicate Distinct(ids: seq<QuoteId>) {
    forall i, j :: 0 <= i < j < |ids| ==> ids[i] != ids[j]
  }

  /** Every stored record sits under its own key and the order lists exactly the stored quotes. */
  ghost predicate WellFormed(ix: Index) {
    && (forall r :: r in ix.rfqs ==> ix.rfqs[r].id == r)
    && (forall q :: q in ix.quotes ==> ix.quotes[q].id == q && q in Ids(ix, ix.quotes[q].rfqId))
    && (forall r, id :: r in ix.quotesByRfq && id in ix.quotesByRfq[r] ==>
          id in ix.quotes && ix.quotes[id].rfqId == r)
    && (forall r :: r in ix.quotesByRfq ==> Distinct(ix.quotesByRfq[r]))
  }

  lemma ListedQuotes(ix: Index, r: RfqId)
    requires WellFormed(ix)
    ensures forall q :: q in ListQuotes(ix, r) <==> q.id in ix.quotes && ix.quotes[q.id] == q && q.rfqId == r
  {
  }

  lemma PutRfqWellFormed(ix: Index, rfq: Rfq)
    requires WellFormed(ix)
    ensures WellFormed(PutRfq(ix, rfq))
  {
    var n := PutRfq(ix, rfq);
    assert forall r :: Ids(n, r) == Ids(ix, r);
  }

  /** A quote keeps its RFQ for life; under that rule every write keeps the index consistent. */
  lemma PutQuoteWellFormed(ix: Index, q: Quote)
    requires WellFormed(ix)
    requires q.id in ix.quotes ==> ix.quotes[q.id].rfqId == q.rfqId
    ensures WellFormed(PutQuote(ix, q))
  {
    var n := PutQuote(ix, q);
    if q.id in ix.quotes {
      assert forall r :: Ids(n, r) == Ids(ix, r);
    } else {
      assert forall r :: r != q.rfqId ==> Ids(n, r) == Ids(ix, r);
      assert Ids(n, q.rfqId) == Ids(ix, q.rfqId) + [q.id];
      assert q.id in Ids(n, q.rfqId);
    }
  }

  lemma DeleteQuoteWellFormed(ix: Index, id: QuoteId)
    requires WellFormed(ix)
    ensures WellFormed(DeleteQuote(ix, id))
  {
    if id in ix.quotes {
      var n := DeleteQuote(ix, id);
      var r := ix.quotes[id].rfqId;
      assert r in ix.quotesByRfq;
      assert forall x :: x != r ==> Ids(n, x) == Ids(ix, x);
      assert Ids(n, r) == Without(Ids(ix, r), id);
    }
  }
}
