/** Which expiries the oracle posts (expiryPolicy.ts) and how the index's positions split into live and
    expired ones (activeExpiryIndex.ts). */
module ExpiryPolicy {
  import opened Instruments

  predicate Increasing(s: seq<int>) { forall i, j :: 0 <= i < j < |s| ==> s[i] < s[j] }

  function InsertUnique(v: int, s: seq<int>): seq<int> {
    if s == [] then [v] else if v == s[0] then s else if v < s[0] then [v] + s else [s[0]] + InsertUnique(v, s[1..])
  }

  function SortedUnique(values: seq<int>): seq<int> {
    if values == [] then [] else InsertUnique(values[0], SortedUnique(values[1..]))
  }

  lemma {:induction false} InsertUniqueIs(v: int, s: seq<int>)
    requires Increasing(s)
    ensures Increasing(InsertUnique(v, s)) && forall x :: x in InsertUnique(v, s) <==> x == v || x in s
  {
    if s != [] {
      assert s == [s[0]] + s[1..];
      if v > s[0] {
        InsertUniqueIs(v, s[1..]);
        var rest := InsertUnique(v, s[1..]);
        forall j | 0 <= j < |rest| ensures s[0] < rest[j] { assert rest[j] in rest; }
      }
    }
  }

  lemma {:induction false} SortedUniqueIs(values: seq<int>)
    ensures Increasing(SortedUnique(values)) && forall x :: x in SortedUnique(values) <==> x in values
  {
    if values != [] {
      SortedUniqueIs(values[1..]);
      InsertUniqueIs(values[0], SortedUnique(values[1..]));
      assert values == [values[0]] + values[1..];
    }
  }

  // ------------------------------------------------------------------ live and expired positions

  datatype Position = Position(accountId: nat, subId: nat, balance: int)

  function ExpiryOf(p: Position): int {
    match DecodeOptionSubId(p.subId) case Ok(o) => o.expiry case Err(_) => 0
  }

  function Future(values: seq<int>, now: int): (r: seq<int>)
    ensures forall x :: x in r <==> x in values && x > now
  {
    if values == [] then []
    else
      assert values == [values[0]] + values[1..];
      (if values[0] > now then [values[0]] else []) + Future(values[1..], now)
  }

  function Expiries(positions: seq<Position>): (r: seq<int>)
    ensures forall x :: x in r <==> exists p :: p in positions && ExpiryOf(p) == x
  {
    if positions == [] then []
    else
      assert positions == [positions[0]] + positions[1..];
      [ExpiryOf(positions[0])] + Expiries(positions[1..])
  }

  function ActiveExpiries(positions: seq<Position>,
      now: int): seq<int> { SortedUnique(Future(Expiries(positions), now)) }

  datatype Series = Series(expiry: int, subaccounts: seq<int>, subIds: seq<int>)

  datatype Group = Group(accounts: seq<int>, subIds: seq<int>)

  /** What a group has collected from the positions seen. */
  ghost predicate Collects(g: Group, expiry: int, positions: seq<Position>) {
    && (forall a :: a in g.accounts <==> exists p :: p in positions && ExpiryOf(p) == expiry && p.accountId == a)
    && (forall s :: s in g.subIds <==> exists p :: p in positions && ExpiryOf(p) == expiry && p.subId == s)
  }

  ghost predicate Grouped(groups: map<int, Group>, order: seq<int>, positions: seq<Position>, now: int) {
    && (forall e :: e in groups <==> e in order)
    && (forall e :: e in groups <==> e <= now && exists p :: p in positions && ExpiryOf(p) == e)
    && (forall e :: e in groups ==> Collects(groups[e], e, positions))
  }

  lemma GroupNext(groups: map<int, Group>, order: seq<int>, positions: seq<Position>, now: int, p: Position)
    requires Grouped(groups, order, positions, now)
    ensures ExpiryOf(p) > now ==> Grouped(groups, order, positions + [p], now)
    ensures ExpiryOf(p) <= now ==>
              var e := ExpiryOf(p);
              var g := if e in groups then groups[e] else Group([], []);
              Grouped(groups[e := Group(g.accounts + [p.accountId], g.subIds + [p.subId])], if e in groups then order else order + [e], positions + [p], now)
  {
    hide ExpiryOf;
    var more := positions + [p];
    assert forall q :: q in more <==> q in positions || q == p;
    forall e | e in groups && e != ExpiryOf(p) ensures Collects(groups[e], e, more) { assert Collects(groups[e], e, positions); }
    if ExpiryOf(p) <= now {
      var e := ExpiryOf(p);
      var g := if e in groups then groups[e] else Group([], []);
      assert Collects(g, e, positions) by { if e !in groups { assert forall q :: q in positions ==> ExpiryOf(q) != e; } }
      CollectNext(g, e, positions, p);
      assert e !in groups ==> e in order + [e];
    }
  }

  lemma CollectNext(g: Group, e: int, positions: seq<Position>, p: Position)
    requires Collects(g, e, positions) && ExpiryOf(p) == e
    ensures Collects(Group(g.accounts + [p.accountId], g.subIds + [p.subId]), e, positions + [p])
  {
    hide ExpiryOf;
    var more := positions + [p];
    assert p in more;
    assert forall q :: q in more <==> q in positions || q == p;
    forall a | a in g.accounts + [p.accountId] ensures exists q :: q in more && ExpiryOf(q) == e && q.accountId == a {
      if a in g.accounts { var q :| q in positions && ExpiryOf(q) == e && q.accountId == a; assert q in more; }
    }
    forall s | s in g.subIds + [p.subId] ensures exists q :: q in more && ExpiryOf(q) == e && q.subId == s {
      if s in g.subIds { var q :| q in positions && ExpiryOf(q) == e && q.subId == s; assert q in more; }
    }
  }

  /** The series to settle: one per expired expiry, in order, each with exactly its accounts and option ids. */
  ghost predicate IsExpiredSeries(series: seq<Series>, positions: seq<Position>, now: int) {
    && (forall i, j :: 0 <= i < j < |series| ==> series[i].expiry < series[j].expiry)
    && (forall p :: p in positions && ExpiryOf(p) <= now ==> exists s :: s in series && s.expiry == ExpiryOf(p))
    && (forall s :: s in series ==>
          && s.expiry <= now && Increasing(s.subaccounts) && Increasing(s.subIds)
          && Collects(Group(s.subaccounts, s.subIds), s.expiry, positions))
  }

  method ExpiredSeries(positions: seq<Position>, now: int) returns (series: seq<Series>)
    ensures IsExpiredSeries(series, positions, now)
  {
    var groups: map<int, Group> := map[];
    var order: seq<int> := [];
    hide ExpiryOf, Grouped, Collects;
    assert Grouped(groups, order, [], now) by { NothingGrouped(now); }
    for i := 0 to |positions|
      invariant Grouped(groups, order, positions[..i], now)
    {
      var p := positions[i];
      var e := ExpiryOf(p);
      GroupNext(groups, order, positions[..i], now, p);
      assert positions[..i + 1] == positions[..i] + [p];
      if e <= now {
        var g := if e in groups then groups[e] else Group([], []);
        if e !in groups { order := order + [e]; }
        groups := groups[e := Group(g.accounts + [p.accountId], g.subIds + [p.subId])];
      }
    }
    assert positions[..|positions|] == positions;
    var sorted := SortedUnique(order);
    SortedUniqueIs(order);
    series := [];
    for i := 0 to |sorted|
      invariant |series| == i
      invariant forall j :: 0 <= j < i ==> sorted[j] in groups && series[j] == SeriesOf(sorted[j], groups[sorted[j]])
    {
      GroupKeys(groups, order, positions, now);
      assert sorted[i] in sorted;
      series := series + [SeriesOf(sorted[i], groups[sorted[i]])];
    }
    SeriesAreExpired(series, sorted, groups, order, positions, now);
  }

  function SeriesOf(expiry: int, g: Group): Series { Series(expiry, SortedUnique(g.accounts), SortedUnique(g.subIds)) }

  lemma NothingGrouped(now: int)
    ensures Grouped(map[], [], [], now)
  {
  }

  lemma GroupKeys(groups: map<int, Group>, order: seq<int>, positions: seq<Position>, now: int)
    requires Grouped(groups, order, positions, now)
    ensures forall e :: e in groups <==> e in order
  {
  }

  lemma SeriesAreExpired(series: seq<Series>, sorted: seq<int>, groups: map<int, Group>, order: seq<int>,
      positions: seq<Position>, now: int)
    requires Grouped(groups, order, positions, now) && |series| == |sorted| && Increasing(sorted)
    requires forall e :: e in sorted <==> e in order
    requires forall j :: 0 <= j < |sorted| ==> sorted[j] in groups && series[j] == SeriesOf(sorted[j], groups[sorted[j]])
    ensures IsExpiredSeries(series, positions, now)
  {
    hide ExpiryOf, SortedUnique;
    forall p | p in positions && ExpiryOf(p) <= now ensures exists s :: s in series && s.expiry == ExpiryOf(p) {
      assert ExpiryOf(p) in groups;
      assert ExpiryOf(p) in sorted;
      var j :| 0 <= j < |sorted| && sorted[j] == ExpiryOf(p);
      assert series[j] in series;
    }
    forall s | s in series
      ensures s.expiry <= now && Increasing(s.subaccounts) && Increasing(s.subIds) && Collects(Group(s.subaccounts, s.subIds), s.expiry, positions)
    {
      var j :| 0 <= j < |series| && series[j] == s;
      var g := groups[sorted[j]];
      assert Collects(g, sorted[j], positions);
      SortedUniqueIs(g.accounts);
      SortedUniqueIs(g.subIds);
    }
  }

  /** Every position is live or expired, never both: its expiry is posted as active, or its account and option
      id are in the one series that settles it. */
  lemma PositionsPartition(positions: seq<Position>, now: int, series: seq<Series>, p: Position)
    requires IsExpiredSeries(series, positions, now) && p in positions
    ensures ExpiryOf(p) in ActiveExpiries(positions, now) <==> !(exists s :: s in series && s.expiry == ExpiryOf(p))
    ensures ExpiryOf(p) !in ActiveExpiries(positions, now) ==>
              exists s :: s in series && s.expiry == ExpiryOf(p) && p.accountId in s.subaccounts && p.subId in s.subIds
  {
    SortedUniqueIs(Future(Expiries(positions), now));
    hide ExpiryOf, Increasing, SortedUnique;
    if ExpiryOf(p) <= now {
      var s :| s in series && s.expiry == ExpiryOf(p);
      assert Collects(Group(s.subaccounts, s.subIds), s.expiry, positions);
    }
  }

  // ------------------------------------------------------------------ what is posted

  datatype OracleExpirySet = OracleExpirySet(tradeable: seq<int>, active: seq<int>, extra: seq<int>, posting: seq<int>)

  function BuildOracleExpirySet(now: int, tradeable: seq<int>, active: seq<int>, extra: seq<int>): OracleExpirySet {
    var t, a, e := SortedUnique(Future(tradeable, now)), SortedUnique(Future(active, now)), SortedUnique(Future(extra, now));
    OracleExpirySet(t, a, e, SortedUnique(t + a + e))
  }

  /** The posting list is sorted without duplicates, holds only future expiries, and covers every live position. */
  lemma PostingCoversPositions(now: int, tradeable: seq<int>, positions: seq<Position>, extra: seq<int>)
    ensures var posting := BuildOracleExpirySet(now, tradeable, ActiveExpiries(positions, now), extra).posting;
            && Increasing(posting)
            && (forall x :: x in posting <==> x > now && (x in tradeable || x in extra || exists p :: p in positions && ExpiryOf(p) == x))
  {
    var active := ActiveExpiries(positions, now);
    SortedUniqueIs(Future(Expiries(positions), now));
    SortedUniqueIs(Future(tradeable, now));
    SortedUniqueIs(Future(active, now));
    SortedUniqueIs(Future(extra, now));
    var t, a, e := SortedUnique(Future(tradeable, now)), SortedUnique(Future(active, now)), SortedUnique(Future(extra, now));
    SortedUniqueIs(t + a + e);
    hide SortedUnique, Increasing, ExpiryOf;
  }

  // ------------------------------------------------------------------ Fridays

  const DAY := 86_400
  const WEEK := 604_800

  /** Friday 08:00 UTC; day 0 of the epoch was a Thursday. */
  predicate FridayExpiry(t: int) { t % DAY == 8 * 3600 && (t / DAY + 4) % 7 == 5 }

  lemma FridaysAreWeekly(a: int, b: int)
    requires FridayExpiry(a) && FridayExpiry(b) && a < b
    ensures b - a >= WEEK && (b - a) % WEEK == 0
  {
    var x, y := a / DAY, b / DAY;
    assert a == x * DAY + 8 * 3600 && b == y * DAY + 8 * 3600;
    assert (y - x) % 7 == 0;
    assert b - a == ((y - x) / 7) * WEEK;
  }

  /** 08:00 of the first Friday from today on. */
  function FirstCandidate(now: int): int {
    var today := now / DAY;
    var daysToFriday := (5 - (today + 4) % 7 + 7) % 7;
    today * DAY + 8 * 3600 + daysToFriday * DAY
  }

  /** The next count expiries users may open: all Fridays 08:00 UTC more than the lead time away, nearest first,
      and none of them left out. */
  method TradeableFridayExpiries(count: nat, now: int, minLead: nat) returns (out: seq<int>)
    ensures |out| == count
    ensures forall i :: 0 <= i < count ==> FridayExpiry(out[i]) && out[i] - now > minLead
    ensures forall i :: 0 <= i < count ==> out[i] == out[0] + i * WEEK
    ensures forall t :: count > 0 && FridayExpiry(t) && t - now > minLead && t <= out[count - 1] ==> t in out
  {
    out := [];
    if count == 0 { return; }
    var candidate := FirstCandidate(now);
    FirstFriday(now);
    hide FridayExpiry, FirstCandidate;
    while |out| < count
      invariant |out| <= count && FridayExpiry(candidate)
      invariant forall i :: 0 <= i < |out| ==> FridayExpiry(out[i]) && out[i] - now > minLead
      invariant forall i :: 0 <= i < |out| ==> out[i] == out[0] + i * WEEK
      invariant |out| > 0 ==> candidate == out[0] + |out| * WEEK
      invariant forall t :: FridayExpiry(t) && t - now > minLead && t < candidate ==> t in out
      decreases count - |out|, if candidate - now > minLead then 0 else minLead + 1 - (candidate - now)
    {
      NoFridayBetween(candidate);
      if candidate - now > minLead {
        out := out + [candidate];
        assert candidate in out;
      }
      NextFriday(candidate);
      candidate := candidate + WEEK;
    }
  }

  lemma NoFridayBetween(t: int)
    requires FridayExpiry(t)
    ensures forall u :: FridayExpiry(u) && t <= u < t + WEEK ==> u == t
  {
    forall u | FridayExpiry(u) && t <= u < t + WEEK ensures u == t { if t < u { FridaysAreWeekly(t, u); } }
  }

  lemma NextFriday(t: int)
    requires FridayExpiry(t)
    ensures FridayExpiry(t + WEEK)
  {
    assert (t + WEEK) / DAY == t / DAY + 7;
  }

  lemma FirstFriday(now: int)
    ensures FridayExpiry(FirstCandidate(now))
    ensures forall t :: FridayExpiry(t) && t > now ==> t >= FirstCandidate(now)
  {
    var today := now / DAY;
    var daysToFriday := (5 - (today + 4) % 7 + 7) % 7;
    var candidate := FirstCandidate(now);
    assert candidate == (today + daysToFriday) * DAY + 8 * 3600;
    assert candidate / DAY == today + daysToFriday;
    forall t | FridayExpiry(t) && t > now ensures t >= candidate {
      var d := t / DAY;
      assert t == d * DAY + 8 * 3600;
      assert d >= today;
      assert (d + 4) % 7 == 5;
    }
  }
}
