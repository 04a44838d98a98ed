/** The store object: three maps updated in place and, when durable, the file behind them. */
module JsonlStore {
  import opened Types
  import opened RfqIndex
  import opened RfqStore
  import Json

  class JsonlRfqStore {
    var file: string
    var rfqs: map<RfqId, Rfq>
    var quotes: map<QuoteId, Quote>
    var quotesByRfq: map<RfqId, seq<QuoteId>>

    ghost function State(): Index
      reads this
    {
      Index(rfqs, quotes, quotesByRfq)
    }

    /** A restart now would rebuild exactly the live index. */
    ghost predicate Durable()
      reads this
    {
      Whole(file) && State() == Load(file)
    }

    /** Replays the file. */
    constructor (contents: string)
      ensures file == contents && State() == Load(contents)
      ensures Whole(contents) ==> Durable()
    {
      file := contents;
      rfqs, quotes, quotesByRfq := map[], map[], map[];
      new;
      var lines := Lines(contents);
      for i := 0 to |lines|
        invariant file == contents
        invariant State() == LoadLines(Empty, lines[..i])
      {
        var line := lines[i];
        assert lines[..i + 1][..i] == lines[..i];
        var trimmed := Trim(line);
        if trimmed != "" {
          var parsed := Json.Parse(trimmed);
          if parsed.Some? {
            var record := RecordOf(parsed.value);
            if record.Some? {
              match record.value
              case RfqRecord(rfq) => rfqs := rfqs[rfq.id := rfq];
              case QuoteRecord(q) => SetQuote(q);
              case QuoteDeleted(id) => RemoveQuote(id);
            }
          }
        }
      }
      assert lines[..|lines|] == lines;
    }

    method SetQuote(q: Quote)
      modifies this
      ensures State() == RfqIndex.PutQuote(old(State()), q) && file == old(file)
    {
      if q.id !in quotes {
        var ids := if q.rfqId in quotesByRfq then quotesByRfq[q.rfqId] else [];
        quotesByRfq := quotesByRfq[q.rfqId := ids + [q.id]];
      }
      quotes := quotes[q.id := q];
    }

    method RemoveQuote(id: QuoteId)
      modifies this
      ensures State() == RfqIndex.DeleteQuote(old(State()), id) && file == old(file)
    {
      if id !in quotes { return; }
      var r := quotes[id].rfqId;
      quotes := quotes - {id};
      if r in quotesByRfq {
        var kept := Filter(quotesByRfq[r], id);
        quotesByRfq := quotesByRfq[r := kept];
      }
    }

    static method Filter(ids: seq<QuoteId>, id: QuoteId) returns (kept: seq<QuoteId>)
      ensures kept == Without(ids, id)
    {
      kept := [];
      for i := 0 to |ids|
        invariant kept + Without(ids[i..], id) == Without(ids, id)
      {
        assert ids[i..][1..] == ids[i + 1..];
        if ids[i] != id { kept := kept + [ids[i]]; }
      }
    }

    method Append(record: Record)
      modifies this`file
      ensures file == old(file) + Line(record)
    {
      file := file + Line(record);
    }

    method PutRfq(rfq: Rfq)
      modifies this
      ensures State() == RfqIndex.PutRfq(old(State()), rfq) && file == old(file) + Line(RfqRecord(rfq))
      ensures old(Durable()) ==> Durable()
    {
      if Whole(file) { AppendApplies(file, RfqRecord(rfq)); }
      hide Load, Line, Whole;
      Append(RfqRecord(rfq));
      rfqs := rfqs[rfq.id := rfq];
    }

    method PutQuote(q: Quote)
      modifies this
      ensures State() == RfqIndex.PutQuote(old(State()), q) && file == old(file) + Line(QuoteRecord(q))
      ensures old(Durable()) ==> Durable()
    {
      if Whole(file) { AppendApplies(file, QuoteRecord(q)); }
      hide Load, Line, Whole;
      Append(QuoteRecord(q));
      SetQuote(q);
    }

    /** Deleting an absent quote writes nothing. */
    method DeleteQuote(id: QuoteId)
      modifies this
      ensures State() == RfqIndex.DeleteQuote(old(State()), id)
      ensures file == if id in old(quotes) then old(file) + Line(QuoteDeleted(id)) else old(file)
      ensures old(Durable()) ==> Durable()
    {
      if id !in quotes { return; }
      if Whole(file) { AppendApplies(file, QuoteDeleted(id)); }
      hide Load, Line, Whole;
      Append(QuoteDeleted(id));
      RemoveQuote(id);
    }

    method ListQuotes(r: RfqId) returns (qs: seq<Quote>)
      ensures qs == RfqIndex.ListQuotes(State(), r)
    {
      hide Load, Line, Whole, Lookup;
      var ids := if r in quotesByRfq then quotesByRfq[r] else [];
      qs := [];
      for i := 0 to |ids|
        invariant qs + Lookup(ids[i..], quotes) == Lookup(ids, quotes)
      {
        LookupAt(ids, i, quotes);
        if ids[i] in quotes { qs := qs + [quotes[ids[i]]]; }
      }
      LookupAll(ids, quotes);
    }
  }

  lemma LookupAt(ids: seq<QuoteId>, i: nat, quotes: map<QuoteId, Quote>)
    requires i < |ids|
    ensures Lookup(ids[i..], quotes) == (if ids[i] in quotes then [quotes[ids[i]]] else []) + Lookup(ids[i + 1..], quotes)
  {
    assert ids[i..][1..] == ids[i + 1..];
  }

  lemma LookupAll(ids: seq<QuoteId>, quotes: map<QuoteId, Quote>)
    ensures Lookup(ids[|ids|..], quotes) == []
  {
  }

  // ------------------------------------------------------------------ logs

  function Replay(log: seq<Record>): Index {
    if log == [] then Empty else ApplyRecord(Replay(log[..|log| - 1]), log[|log| - 1])
  }

  function Written(log: seq<Record>): string {
    if log == [] then "" else Written(log[..|log| - 1]) + Line(log[|log| - 1])
  }

  /** A restart replays the log: whatever was appended, in order, and nothing else. */
  lemma {:induction false} RestartReplays(log: seq<Record>)
    ensures Whole(Written(log)) && Load(Written(log)) == Replay(log)
  {
    if log != [] {
      RestartReplays(log[..|log| - 1]);
      AppendApplies(Written(log[..|log| - 1]), log[|log| - 1]);
      hide Load, Line, ApplyRecord, Whole;
    }
  }

  /** And a crash at any byte of the last append replays all of the log but possibly that record. */
  lemma RestartAfterCrash(log: seq<Record>, r: Record, k: nat)
    requires k <= |Line(r)|
    ensures Load(Written(log) + Line(r)[..k]) == Replay(if k < |RecordText(r)| then log else log + [r])
  {
    RestartReplays(log);
    CrashDuringAppend(Written(log), r, k);
    assert (log + [r])[..|log|] == log;
    hide Load, Line, ApplyRecord, RecordText;
  }

  /** Logs that keep each quote under one RFQ replay to a consistent index. */
  ghost predicate KeepsRfq(log: seq<Record>) {
    forall i :: 0 <= i < |log| && log[i].QuoteRecord? ==>
      var ix, q := Replay(log[..i]), log[i].quote;
      q.id in ix.quotes ==> ix.quotes[q.id].rfqId == q.rfqId
  }

  lemma {:induction false} ReplayIsWellFormed(log: seq<Record>)
    requires KeepsRfq(log)
    ensures WellFormed(Replay(log))
  {
    if log != [] {
      var init, last := log[..|log| - 1], log[|log| - 1];
      assert forall i :: 0 <= i < |init| ==> init[..i] == log[..i];
      ReplayIsWellFormed(init);
      match last
      case RfqRecord(rfq) => PutRfqWellFormed(Replay(init), rfq);
      case QuoteRecord(q) => PutQuoteWellFormed(Replay(init), q);
      case QuoteDeleted(id) => DeleteQuoteWellFormed(Replay(init), id);
    }
  }
}
