/** One pass of the directory indexer (SubaccountDirectoryIndexer.syncOnce), interrupted after any number
    of store writes. */
module DirectorySync {
  import opened Types
  import opened Directory

  // ------------------------------------------------------------------ the chain

  datatype Block = Block(hash: Hash, events: seq<Event>)

  type Chain = seq<Block>

  /** The events of blocks from..to in order. */
  function Range(chain: Chain, from: int, last: int): seq<Event>
    requires 0 <= from && last < |chain|
    decreases last - from
  {
    if last < from then [] else Range(chain, from, last - 1) + chain[last].events
  }

  function UpTo(chain: Chain, last: int): seq<Event>
    requires last < |chain|
  {
    Range(chain, 0, last)
  }

  lemma {:induction false} RangeSplits(chain: Chain, from: nat, last: int)
    requires from <= last + 1 && last < |chain|
    ensures UpTo(chain, last) == UpTo(chain, from - 1) + Range(chain, from, last)
    decreases last
  {
    if from <= last {
      RangeSplits(chain, from, last - 1);
      assert UpTo(chain, from - 1) + (Range(chain, from, last - 1) + chain[last].events)
          == UpTo(chain, from - 1) + Range(chain, from, last - 1) + chain[last].events;
    }
  }

  /** Matching emits nothing before its deployment. */
  ghost predicate ChainOk(chain: Chain, deployment: nat) {
    && Wellformed(UpTo(chain, |chain| - 1))
    && (forall b :: 0 <= b < |chain| && b < deployment ==> chain[b].events == [])
  }

  lemma PrefixWellformed(chain: Chain, last: int)
    requires Wellformed(UpTo(chain, |chain| - 1)) && -1 <= last < |chain|
    ensures Wellformed(UpTo(chain, last)) && |UpTo(chain, last)| <= |UpTo(chain, |chain| - 1)|
  {
    RangeSplits(chain, last + 1, |chain| - 1);
    var all, some := UpTo(chain, |chain| - 1), UpTo(chain, last);
    assert forall i :: 0 <= i < |some| ==> all[i] == some[i];
  }

  lemma {:induction false} NothingBefore(chain: Chain, deployment: nat, last: int)
    requires ChainOk(chain, deployment) && last < |chain| && last < deployment
    ensures UpTo(chain, last) == []
    decreases last
  {
    if last >= 0 { NothingBefore(chain, deployment, last - 1); }
  }

  // ------------------------------------------------------------------ events.sort(comparePositions)

  function InsertEvent(e: Event, s: seq<Event>): (r: seq<Event>)
    ensures multiset(r) == multiset(s) + multiset{e}
  {
    if s == [] || ComparePositions(e.position, s[0].position) <= 0 then [e] + s
    else
      assert s == [s[0]] + s[1..];
      [s[0]] + InsertEvent(e, s[1..])
  }

  function SortEvents(s: seq<Event>): (r: seq<Event>)
    ensures multiset(r) == multiset(s)
  {
    if s == [] then []
    else
      assert s == [s[0]] + s[1..];
      InsertEvent(s[0], SortEvents(s[1..]))
  }

  predicate Ascending(s: seq<Event>) { forall i,
      j :: 0 <= i < j < |s| ==> ComparePositions(s[i].position, s[j].position) <= 0 }

  lemma FrontAscends(e: Event, s: seq<Event>)
    requires Ascending(s) && (s != [] ==> ComparePositions(e.position, s[0].position) <= 0)
    ensures Ascending([e] + s)
  {
    forall j | 0 <= j < |s| ensures ComparePositions(e.position, s[j].position) <= 0 {
      assert j > 0 ==> ComparePositions(s[0].position, s[j].position) <= 0;
    }
    hide ComparePositions;
  }

  lemma {:induction false} InsertAscends(e: Event, s: seq<Event>)
    requires Ascending(s)
    ensures Ascending(InsertEvent(e, s))
  {
    if s == [] || ComparePositions(e.position, s[0].position) <= 0 {
      FrontAscends(e, s);
    } else {
      LaterIsMore(e.position, s[0].position);
      hide ComparePositions;
      InsertAscends(e, s[1..]);
      var rest := InsertEvent(e, s[1..]);
      forall x | x in rest ensures ComparePositions(s[0].position, x.position) <= 0 {
        assert x in multiset(rest);
        if x != e { assert x in s[1..]; }
      }
      FrontAscends(s[0], rest);
    }
  }

  lemma LaterIsMore(l: Position, r: Position)
    requires ComparePositions(l, r) > 0
    ensures ComparePositions(r, l) <= 0
  {
  }

  lemma {:induction false} SortAscends(s: seq<Event>)
    ensures Ascending(SortEvents(s))
  {
    if s != [] {
      SortAscends(s[1..]);
      InsertAscends(s[0], SortEvents(s[1..]));
    }
  }

  lemma FirstAgrees(s: seq<Event>, t: seq<Event>)
    requires Ascending(s) && s != [] && multiset(s) == multiset(t)
    requires forall i, j :: 0 <= i < j < |t| ==> Before(t[i].position, t[j].position)
    ensures t != [] && s[0] == t[0]
  {
    assert s[0] in multiset(t);
    assert t[0] in multiset(s);
    var i :| 0 <= i < |t| && t[i] == s[0];
    var j :| 0 <= j < |s| && s[j] == t[0];
    assert i > 0 ==> Before(t[0].position, t[i].position);
    assert j > 0 ==> ComparePositions(s[0].position, s[j].position) <= 0;
  }

  lemma TailMultiset(s: seq<Event>)
    requires s != []
    ensures multiset(s[1..]) == multiset(s) - multiset{s[0]}
  {
    assert s == [s[0]] + s[1..];
  }

  /** Sorting recovers the chain's order from whatever order the node answered in. */
  lemma {:induction false} SortedIsOrdered(s: seq<Event>, t: seq<Event>)
    requires Ascending(s) && multiset(s) == multiset(t)
    requires forall i, j :: 0 <= i < j < |t| ==> Before(t[i].position, t[j].position)
    ensures s == t
  {
    hide ComparePositions, Before;
    if s == [] {
      assert |t| == |multiset(t)| == |multiset(s)| == 0;
    } else {
      FirstAgrees(s, t);
      TailMultiset(s);
      TailMultiset(t);
      SortedIsOrdered(s[1..], t[1..]);
      assert s == [s[0]] + s[1..] && t == [t[0]] + t[1..];
    }
  }

  lemma RangeOrdered(chain: Chain, from: nat, last: int)
    requires from <= last + 1 && last < |chain| && Wellformed(UpTo(chain, |chain| - 1))
    ensures forall i, j :: 0 <= i < j < |Range(chain, from, last)| ==>
              Before(Range(chain, from, last)[i].position, Range(chain, from, last)[j].position)
  {
    hide Before, Range, UpTo, Wellformed;
    PrefixWellformed(chain, last);
    RangeSplits(chain, from, last);
    TailOrdered(UpTo(chain, from - 1), Range(chain, from, last));
  }

  lemma TailOrdered(base: seq<Event>, tail: seq<Event>)
    requires Wellformed(base + tail)
    ensures forall i, j :: 0 <= i < j < |tail| ==> Before(tail[i].position, tail[j].position)
  {
    var all := base + tail;
    hide Before;
    forall i, j | 0 <= i < j < |tail| ensures Before(tail[i].position, tail[j].position) {
      assert all[|base| + i] == tail[i] && all[|base| + j] == tail[j];
    }
  }

  lemma SortRecovers(fetched: seq<Event>, chain: Chain, from: nat, last: int)
    requires from <= last + 1 && last < |chain| && Wellformed(UpTo(chain, |chain| - 1)) && multiset(fetched) == multiset(Range(chain, from, last))
    ensures SortEvents(fetched) == Range(chain, from, last)
  {
    hide Range, Before, Wellformed, Ascending;
    SortAscends(fetched);
    RangeOrdered(chain, from, last);
    SortedIsOrdered(SortEvents(fetched), Range(chain, from, last));
  }

  // ------------------------------------------------------------------ the store

  class InMemorySubaccountDirectoryStore {
    var accounts: Accounts
    var checkpoint: Option<Checkpoint>

    constructor ()
      ensures accounts == map[] && checkpoint == None
    {
      accounts, checkpoint := map[], None;
    }

    method Reset()
      modifies this
      ensures accounts == map[] && checkpoint == None
    {
      accounts := map[];
      checkpoint := None;
    }

    method SetCheckpoint(cp: Checkpoint)
      modifies this`checkpoint
      ensures checkpoint == Some(cp)
    {
      checkpoint := Some(cp);
    }

    method Apply(e: Event) returns (known: bool)
      modifies this`accounts
      ensures known <==> ApplyEvent(old(accounts), e).Ok?
      ensures accounts == if known then ApplyEvent(old(accounts), e).accounts else old(accounts)
    {
      if e.accountId in accounts && ComparePositions(e.position, accounts[e.accountId].position) <= 0 { return true; }
      if e.Withdrew? {
        if e.accountId !in accounts { return false; }
        accounts := accounts[e.accountId := accounts[e.accountId].(active := false, position := e.position)];
        return true;
      }
      accounts := accounts[e.accountId := Account(e.owner, true, e.position)];
      return true;
    }
  }

  // ------------------------------------------------------------------ a sync that may be interrupted

  /** The store is what the fold gives after some n events, at least those up to the checkpoint and at most
      those up to the highest block any sync has read; or the next sync starts over. */
  ghost predicate Restartable(accounts: Accounts, checkpoint: Option<Checkpoint>, chain: Chain, reached: int) {
    match checkpoint
    case None => true
    case Some(cp) =>
      Canonical(cp, chain) ==>
         && cp.blockNumber <= reached < |chain|
         && exists n :: |UpTo(chain, cp.blockNumber)| <= n <= |UpTo(chain, reached)| && FoldedTo(accounts, chain, reached, n)
  }

  predicate Canonical(cp: Checkpoint, chain: Chain) { cp.blockNumber < |chain| && chain[cp.blockNumber].hash == cp.blockHash }

  /** The next pass goes on from the checkpoint. */
  predicate Resumes(checkpoint: Option<Checkpoint>, chain: Chain) { checkpoint.Some? && Canonical(checkpoint.value, chain) }

  /** The store has seen events of blocks after b. */
  ghost predicate Ahead(accounts: Accounts, chain: Chain, reached: int, b: nat)
    requires reached < |chain| && b < |chain|
  {
    exists n :: n > |UpTo(chain, b)| && FoldedTo(accounts, chain, reached, n)
  }

  ghost predicate FoldedTo(accounts: Accounts, chain: Chain, reached: int, n: int)
    requires reached < |chain|
  {
    0 <= n <= |UpTo(chain, reached)| && accounts == Fold(UpTo(chain, reached)[..n])
  }

  /** A later chain: the same up to what was read, or without the checkpoint's block. */
  lemma ReorgKeepsRestartable(accounts: Accounts, checkpoint: Option<Checkpoint>, chain: Chain, later: Chain,
      reached: nat)
    requires Restartable(accounts, checkpoint, chain, reached) && reached < |chain|
    requires Resumes(checkpoint, chain)
    requires (reached < |later| && chain[..reached + 1] == later[..reached + 1]) || !Resumes(checkpoint, later)
    ensures Restartable(accounts, checkpoint, later, reached)
  {
    if Resumes(checkpoint, later) {
      var b := checkpoint.value.blockNumber;
      assert forall i :: 0 <= i <= reached ==> chain[..reached + 1][i] == chain[i] && later[..reached + 1][i] == later[i];
      SameRange(chain, later, reached, b);
      SameRange(chain, later, reached, reached);
      var n :| |UpTo(chain, b)| <= n <= |UpTo(chain, reached)| && FoldedTo(accounts, chain, reached, n);
      assert FoldedTo(accounts, later, reached, n);
    }
  }

  lemma {:induction false} SameRange(chain: Chain, later: Chain, reached: nat, last: int)
    requires reached < |chain| && reached < |later| && last <= reached
    requires forall i :: 0 <= i <= reached ==> chain[i] == later[i]
    ensures UpTo(chain, last) == UpTo(later, last)
    decreases last
  {
    if last >= 0 { SameRange(chain, later, reached, last - 1); }
  }

  lemma AdvanceFold(accounts: Accounts, chain: Chain, low: int, high: int, n: int)
    requires low <= high < |chain| && -1 <= low && FoldedTo(accounts, chain, low, n)
    ensures |UpTo(chain, low)| <= |UpTo(chain, high)| && FoldedTo(accounts, chain, high, n)
  {
    RangeSplits(chain, low + 1, high);
    assert UpTo(chain, high)[..n] == UpTo(chain, low)[..n];
  }

  lemma ChunkEvent(chain: Chain, from: nat, last: nat, safe: nat, k: nat)
    requires from <= last <= safe < |chain| && k < |Range(chain, from, last)|
    ensures |UpTo(chain, from - 1)| + k < |UpTo(chain, safe)|
    ensures UpTo(chain, safe)[|UpTo(chain, from - 1)| + k] == Range(chain, from, last)[k]
  {
    hide Range, UpTo;
    RangeSplits(chain, from, last);
    RangeSplits(chain, last + 1, safe);
  }

  /** The k-th event of a chunk, applied to a store that has seen n events. */
  lemma ChunkStep(chain: Chain, from: nat, last: nat, safe: nat, n: nat, k: nat)
    requires from <= last <= safe < |chain| && Wellformed(UpTo(chain, |chain| - 1))
    requires k < |Range(chain, from, last)| && |UpTo(chain, from - 1)| + k <= n <= |UpTo(chain, safe)|
    ensures var m := Max(n, |UpTo(chain, from - 1)| + k + 1);
            0 <= m <= |UpTo(chain, safe)| && ApplyEvent(Fold(UpTo(chain, safe)[..n]), Range(chain, from, last)[k]) == Ok(Fold(UpTo(chain, safe)[..m]))
  {
    hide Range, Wellformed, ApplyEvent, Fold, UpTo;
    PrefixWellformed(chain, safe);
    ChunkEvent(chain, from, last, safe, k);
    ApplyAt(UpTo(chain, safe), n, |UpTo(chain, from - 1)| + k);
  }

  /** The checkpoint, if any, is canonical block b. */
  ghost predicate At(checkpoint: Option<Checkpoint>, chain: Chain, b: int) {
    checkpoint.Some? ==> 0 <= b < |chain| && checkpoint.value.blockNumber == b && checkpoint.value.blockHash == chain[b].hash
  }

  lemma CanRestart(accounts: Accounts, checkpoint: Option<Checkpoint>, chain: Chain, b: int, safe: int, n: int)
    requires At(checkpoint, chain, b) && -1 <= b <= safe < |chain| && FoldedTo(accounts, chain, safe, n) && |UpTo(chain, b)| <= n
    ensures Restartable(accounts, checkpoint, chain, safe)
  {
  }

  /** The events of a chunk, one store write each. */
  method ApplyAll(store: InMemorySubaccountDirectoryStore, chain: Chain, ghost from: nat, ghost last: nat,
      ghost safe: nat,
                  events: seq<Event>, budget: nat, ghost n: int)
    returns (alive: bool, left: nat, ghost m: int)
    requires from <= last <= safe < |chain| && Wellformed(UpTo(chain, |chain| - 1)) && events == Range(chain, from, last)
    requires FoldedTo(store.accounts, chain, safe, n) && |UpTo(chain, from - 1)| <= n
    modifies store`accounts
    ensures FoldedTo(store.accounts, chain, safe, m) && n <= m
    ensures alive ==> m == Max(n, |UpTo(chain, last)|)
  {
    left, m := budget, n;
    ghost var base := |UpTo(chain, from - 1)|;
    RangeSplits(chain, from, last);
    for k := 0 to |events|
      invariant FoldedTo(store.accounts, chain, safe, m) && m == Max(n, base + k)
    {
      if left == 0 { return false, left, m; }
      left := left - 1;
      ChunkStep(chain, from, last, safe, m, k);
      m := Max(m, base + k + 1);
      var known := store.Apply(events[k]);
    }
    alive := true;
  }

  datatype SyncResult = Done(indexedThrough: Option<nat>) | Crashed

  function SafeHead(head: nat, confirmations: nat): nat { if head > confirmations then head - confirmations else 0 }

  /** The node answers every range with its events, in any order. */
  ghost predicate Answers(fetch: (nat, nat) -> seq<Event>, chain: Chain) {
    forall f: nat, t: nat :: t < |chain| ==> multiset(fetch(f, t)) == multiset(Range(chain, f, t))
  }

  method FetchSorted(fetch: (nat, nat) -> seq<Event>, chain: Chain, from: nat, last: nat) returns (events: seq<Event>)
    requires Answers(fetch, chain) && from <= last < |chain| && Wellformed(UpTo(chain, |chain| - 1))
    ensures events == Range(chain, from, last)
  {
    events := fetch(from, last);
    SortRecovers(events, chain, from, last);
    events := SortEvents(events);
  }

  /** Two stores that have seen different numbers of events differ. */
  lemma FoldsDiffer(events: seq<Event>, n: nat, m: nat)
    requires Wellformed(events) && n < m <= |events|
    ensures Fold(events[..n]) != Fold(events[..m])
  {
    var id := events[m - 1].accountId;
    assert Seen(events, m, id);
    var i := FoldPositions(events, n, id);
    var j := FoldPositions(events, m, id);
    assert j == m - 1;
    assert id in Fold(events[..n]) ==> Before(events[i].position, events[j].position);
    hide Fold, Wellformed, Seen;
  }

  /** A store that has seen m events, at least those up to block b, is the fold up to b exactly if it has seen no more. */
  lemma ExactlyUpTo(accounts: Accounts, chain: Chain, top: nat, b: nat, m: int)
    requires b <= top < |chain| && Wellformed(UpTo(chain, |chain| - 1))
    requires FoldedTo(accounts, chain, top, m) && |UpTo(chain, b)| <= m
    ensures accounts == Fold(UpTo(chain, b)) <==> m == |UpTo(chain, b)|
  {
    hide Range, Wellformed, Fold, UpTo;
    PrefixWellformed(chain, top);
    var k := |UpTo(chain, b)|;
    RangeSplits(chain, b + 1, top);
    assert UpTo(chain, top)[..k] == UpTo(chain, b);
    if k < m { FoldsDiffer(UpTo(chain, top), k, m); }
  }

  lemma AheadIfMore(accounts: Accounts, chain: Chain, reached: nat, b: nat, n: int)
    requires reached < |chain| && b < |chain| && Wellformed(UpTo(chain, |chain| - 1)) && FoldedTo(accounts, chain, reached, n)
    ensures Ahead(accounts, chain, reached, b) <==> n > |UpTo(chain, b)|
    ensures reached <= b ==> !Ahead(accounts, chain, reached, b)
  {
    hide Range, Wellformed, Fold, UpTo;
    PrefixWellformed(chain, reached);
    if Ahead(accounts, chain, reached, b) {
      var m :| m > |UpTo(chain, b)| && FoldedTo(accounts, chain, reached, m);
      if m < n { FoldsDiffer(UpTo(chain, reached), m, n); } else if n < m { FoldsDiffer(UpTo(chain, reached), n, m); }
    }
    if reached <= b { RangeSplits(chain, reached + 1, b); }
  }

  /** The loop over chunks, from a store that has seen some events, all of them of blocks up to top. */
  method IndexChunks(store: InMemorySubaccountDirectoryStore, chain: Chain, chunkSize: nat,
      fetch: (nat, nat) -> seq<Event>,
                     first: nat, safe: nat, hadReady: bool, budget: nat, ghost seen: int, ghost top: nat)
    returns (r: SyncResult, ghost n: int)
    requires chunkSize > 0 && first <= safe <= top < |chain| && Wellformed(UpTo(chain, |chain| - 1))
    requires Answers(fetch, chain)
    requires FoldedTo(store.accounts, chain, top, seen) && |UpTo(chain, first - 1)| <= seen && At(store.checkpoint, chain, first - 1)
    modifies store
    ensures Restartable(store.accounts, store.checkpoint, chain, top)
    ensures r == Crashed || (r == Done(Some(safe)) && store.checkpoint == Some(Checkpoint(safe, chain[safe].hash, true)))
    ensures r.Done? ==> FoldedTo(store.accounts, chain, top, n) && n == Max(seen, |UpTo(chain, safe)|)
  {
    hide Range, Wellformed, ApplyEvent, Fold, Restartable, FoldedTo, UpTo, Answers;
    var from, left := first, budget;
    n := seen;
    while from <= safe
      invariant from <= safe + 1
      invariant FoldedTo(store.accounts, chain, top, n) && n == Max(seen, |UpTo(chain, from - 1)|)
      invariant At(store.checkpoint, chain, from - 1)
      invariant from == safe + 1 ==> store.checkpoint.Some? && store.checkpoint.value.ready
      decreases safe + 1 - from
    {
      var last := if from + chunkSize - 1 < safe then from + chunkSize - 1 else safe;
      var events := FetchSorted(fetch, chain, from, last);
      var alive;
      ghost var before := n;
      alive, left, n := ApplyAll(store, chain, from, last, top, events, left, n);
      CanRestart(store.accounts, store.checkpoint, chain, from - 1, top, n);
      if !alive || left == 0 { return Crashed, n; }
      left := left - 1;
      store.SetCheckpoint(Checkpoint(last, chain[last].hash, hadReady || last == safe));
      Grows(chain, from - 1, last);
      from := last + 1;
    }
    CanRestart(store.accounts, store.checkpoint, chain, safe, top, n);
    r := Done(Some(safe));
  }

  lemma Grows(chain: Chain, b: int, last: nat)
    requires -1 <= b <= last < |chain|
    ensures |UpTo(chain, b)| <= |UpTo(chain, last)|
  {
    RangeSplits(chain, b + 1, last);
  }

  /** What a pass may have read when it is over. */
  function Reach(checkpoint: Option<Checkpoint>, chain: Chain, reached: int, safe: nat): int {
    if Resumes(checkpoint, chain) then Max(reached, safe) else safe
  }

  /** Where a completed pass leaves the checkpoint: at the safe head, or where it was if the head lags behind it. */
  function Target(checkpoint: Option<Checkpoint>, chain: Chain, safe: nat): nat {
    if Resumes(checkpoint, chain) && checkpoint.value.blockNumber > safe then checkpoint.value.blockNumber else safe
  }

  /** syncOnce. budget is the number of store writes after which the process dies; fetch answers a range of blocks with
      its events in any order; a read of a block the node does not have fails the pass. Whatever happens, the next sync
      can go on from the store. A sync that completes leaves exactly the fold of all events up to its checkpoint,
      whatever the chunk size and however many passes were cut short before it, unless the head it is shown lags behind
      what such a pass had already applied: then, and only then, the store is ahead of its checkpoint. */
  method SyncOnce(store: InMemorySubaccountDirectoryStore, chain: Chain, confirmations: nat, chunkSize: nat,
      deployment: nat,
                  fetch: (nat, nat) -> seq<Event>, budget: nat, ghost reached: int)
    returns (r: SyncResult)
    requires chunkSize > 0 && |chain| > 0 && ChainOk(chain, deployment)
    requires Answers(fetch, chain)
    requires Restartable(store.accounts, store.checkpoint, chain, reached)
    modifies store
    ensures Restartable(store.accounts, store.checkpoint, chain,
                        Reach(old(store.checkpoint), chain, reached, SafeHead(|chain| - 1, confirmations)))
    ensures r.Done? ==> r.indexedThrough == if store.checkpoint.None? then None else Some(store.checkpoint.value.blockNumber)
    ensures r.Done? && store.checkpoint.Some? ==>
              var cp := store.checkpoint.value;
              && Canonical(cp, chain)
              && (store.accounts == Fold(UpTo(chain, cp.blockNumber)) <==>
                    !(Resumes(old(store.checkpoint), chain) && Ahead(old(store.accounts), chain, reached, cp.blockNumber)))
    ensures r.Done? && store.checkpoint.Some? && reached <= SafeHead(|chain| - 1, confirmations) ==>
              store.accounts == Fold(UpTo(chain, store.checkpoint.value.blockNumber))
    ensures r.Done? && deployment <= SafeHead(|chain| - 1, confirmations) ==>
              store.checkpoint.Some? && store.checkpoint.value.blockNumber
                                     == Target(old(store.checkpoint), chain, SafeHead(|chain| - 1, confirmations))
              && (store.checkpoint == old(store.checkpoint) || store.checkpoint.value.ready)
  {
    hide Range, Wellformed, ApplyEvent, Fold, FoldedTo, UpTo;
    var left := budget;
    var checkpoint := store.checkpoint;
    var hadReady := checkpoint.Some? && checkpoint.value.ready;
    var mustReset := checkpoint.None?;
    if checkpoint.Some? {
      if checkpoint.value.blockNumber >= |chain| { return Crashed; }
      if chain[checkpoint.value.blockNumber].hash != checkpoint.value.blockHash {
        checkpoint, hadReady, mustReset := None, false, true;
      }
    }
    if mustReset {
      if left == 0 { return Crashed; }
      left := left - 1;
      store.Reset();
    }
    var safe := SafeHead(|chain| - 1, confirmations);
    var from := if checkpoint.Some? then checkpoint.value.blockNumber + 1 else deployment;
    ghost var top := Reach(old(store.checkpoint), chain, reached, safe);
    ghost var n: int := 0;
    if checkpoint.Some? {
      n :| |UpTo(chain, from - 1)| <= n <= |UpTo(chain, reached)| && FoldedTo(store.accounts, chain, reached, n);
      AdvanceFold(store.accounts, chain, reached, top, n);
      AheadIfMore(store.accounts, chain, reached, Target(checkpoint, chain, safe), n);
    } else if from <= |chain| {
      NothingBefore(chain, deployment, from - 1);
      FoldedNothing(chain, safe);
    }
    if safe < from {
      if checkpoint.Some? { ExactlyUpTo(store.accounts, chain, top, from - 1, n); CanRestart(store.accounts, store.checkpoint, chain, from - 1, top, n); }
      return Done(if checkpoint.None? then None else Some(checkpoint.value.blockNumber));
    }
    ghost var m;
    r, m := IndexChunks(store, chain, chunkSize, fetch, from, safe, hadReady, left, n, top);
    if r.Done? { ExactlyUpTo(store.accounts, chain, top, safe, m); }
  }

  lemma FoldedNothing(chain: Chain, safe: nat)
    requires safe < |chain|
    ensures FoldedTo(map[], chain, safe, 0)
  {
  }
}
