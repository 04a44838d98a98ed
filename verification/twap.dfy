/** The settlement TWAP accumulator (settlementTwap.ts): an integer trapezoid integral of spot over the
    30 minutes before expiry, saved after every observation. */
module Twap {
  import opened Types

  const DURATION := 1800
  const BASELINE := 1

  datatype Series = Series(expiry: int, lastTimestamp: int, lastPrice: int, integral: int, lateStart: bool)

  datatype Aggregates = Aggregates(start: int, current: int, lateStart: bool)

  /** bigint division truncates toward zero. */
  function Trunc(a: int, b: int): int
    requires b > 0
  {
    if a >= 0 then a / b else -((-a) / b)
  }

  function Trapezoid(left: int, right: int, duration: int): int {
    if duration <= 0 then 0 else Trunc((left + right) * duration, 2)
  }

  function Interpolate(leftTime: int, leftPrice: int, rightTime: int, rightPrice: int, target: int): int {
    var duration := rightTime - leftTime;
    if duration <= 0 then rightPrice
    else leftPrice + Trunc((rightPrice - leftPrice) * (target - leftTime), duration)
  }

  function AggregatesOf(integral: int, lateStart: bool): (r: Aggregates)
    ensures r.current > r.start
  {
    Aggregates(BASELINE, BASELINE + if integral > 0 then integral else 1, lateStart)
  }

  /** The first observation of a series: the record of the first save, and the integral of the second. */
  function FirstSave(expiry: int, time: int, price: int): Series {
    Series(expiry, time, price, 0, time > expiry - DURATION)
  }

  function Begun(expiry: int, time: int, price: int): Series {
    var s := FirstSave(expiry, time, price);
    if time < expiry - DURATION then s else s.(integral := price * (time - (expiry - DURATION)))
  }

  /** A further observation. */
  function Advanced(s: Series, time: int, price: int): Series {
    var start := s.expiry - DURATION;
    if time <= s.lastTimestamp then s
    else if time < start then s.(lastTimestamp := time, lastPrice := price, integral := 0)
    else
      var segmentStart := if s.lastTimestamp < start then start else s.lastTimestamp;
      var left := if s.lastTimestamp < start then Interpolate(s.lastTimestamp, s.lastPrice, time, price, start) else s.lastPrice;
      var backfill := s.lastTimestamp > start && s.integral == 0;
      var base := if backfill then s.lastPrice * (s.lastTimestamp - start) else s.integral;
      Series(s.expiry, time, price, base + Trapezoid(left, price, time - segmentStart), s.lateStart || backfill)
  }

  // ------------------------------------------------------------------ the tracker

  datatype Observed = Aggregated(a: Aggregates) | BeforeWindow | Rejected | Died

  function Lookup(series: seq<Series>, expiry: int): Option<Series> {
    if series == [] then None else if series[0].expiry == expiry then Some(series[0]) else Lookup(series[1..], expiry)
  }

  function Update(series: seq<Series>, s: Series): seq<Series> {
    if series == [] then []
    else if series[0].expiry == s.expiry then [s] + series[1..] else [series[0]] + Update(series[1..], s)
  }

  function Unexpired(series: seq<Series>, time: int): seq<Series> {
    if series == [] then []
    else (if series[0].expiry >= time then [series[0]] else []) + Unexpired(series[1..], time)
  }

  lemma {:induction false} LookupKey(series: seq<Series>, e: int)
    ensures Lookup(series, e).Some? ==> Lookup(series, e).value.expiry == e
  {
    if series != [] { LookupKey(series[1..], e); }
  }

  lemma {:induction false} LookupPurged(series: seq<Series>, time: int, e: int)
    requires e < time
    ensures Lookup(Unexpired(series, time), e) == None
  {
    if series != [] {
      LookupPurged(series[1..], time, e);
      if series[0].expiry >= time {
        assert Unexpired(series, time)[1..] == Unexpired(series[1..], time);
      } else {
        assert Unexpired(series, time) == Unexpired(series[1..], time);
      }
    }
  }

  lemma {:induction false} LookupUpdate(series: seq<Series>, s: Series)
    requires Lookup(series, s.expiry).Some?
    ensures Lookup(Update(series, s), s.expiry) == Some(s)
    ensures forall e :: e != s.expiry ==> Lookup(Update(series, s), e) == Lookup(series, e)
  {
    if series[0].expiry != s.expiry { LookupUpdate(series[1..], s); }
  }

  lemma {:induction false} LookupAppend(series: seq<Series>, s: Series, e: int)
    ensures Lookup(series + [s], e) == if Lookup(series, e).Some? then Lookup(series, e) else if e == s.expiry then Some(s) else None
  {
    if series == [] {
      assert series + [s] == [s];
    } else {
      assert (series + [s])[1..] == series[1..] + [s];
      LookupAppend(series[1..], s, e);
    }
  }

  lemma {:induction false} LookupUnexpired(series: seq<Series>, time: int, e: int)
    requires e >= time
    ensures Lookup(Unexpired(series, time), e) == Lookup(series, e)
  {
    if series != [] {
      LookupUnexpired(series[1..], time, e);
      if series[0].expiry >= time {
        assert Unexpired(series, time)[1..] == Unexpired(series[1..], time);
      } else {
        assert Unexpired(series, time) == Unexpired(series[1..], time);
      }
    }
  }

  /** What an observation makes of the record of its own series. */
  function After(s: Option<Series>, expiry: int, time: int, price: int): Series {
    match s case None => Begun(expiry, time, price) case Some(x) => Advanced(x, time, price)
  }

  /** One call of observe(), and how many of its saves succeed before the process dies. */
  datatype Call = Call(expiry: int, time: int, price: int, saves: nat)

  predicate Accepted(c: Call) { c.price > 0 && c.time <= c.expiry }

  /** The call needed a save and died before any. */
  predicate Lost(file: seq<Series>, c: Call) {
    var found := Lookup(file, c.expiry);
    c.saves == 0 && (found.None? || c.time > found.value.lastTimestamp)
  }

  /** The call saved inside its own window, and dropped every series that had expired by then. */
  predicate Purges(file: seq<Series>, c: Call) {
    var found := Lookup(file, c.expiry);
    && Accepted(c) && found.Some? && c.saves > 0
    && c.time > found.value.lastTimestamp && c.time >= c.expiry - DURATION
  }

  /** The file after the call, from a process that had just saved or loaded it. */
  function FileAfter(file: seq<Series>, c: Call): seq<Series> {
    if !Accepted(c) || Lost(file, c) then file
    else
      match Lookup(file, c.expiry)
      case None =>
        var first := file + [FirstSave(c.expiry, c.time, c.price)];
        if c.time < c.expiry - DURATION || c.saves == 1 then first else Update(first, Begun(c.expiry, c.time, c.price))
      case Some(s) =>
        if c.time <= s.lastTimestamp then file
        else
          var advanced := Update(file, Advanced(s, c.time, c.price));
          if Purges(file, c) then Unexpired(advanced, c.time) else advanced
  }

  /** Dying needs a save that does not succeed: the first of one, or the second of a series that begins in its window. */
  predicate Dies(file: seq<Series>, c: Call) {
    Accepted(c) && (Lost(file, c) || (Lookup(file, c.expiry).None? && c.saves == 1 && c.time >= c.expiry - DURATION))
  }

  class SettlementTwapTracker {
    var series: seq<Series>
    var saved: seq<Series>

    constructor (file: seq<Series>)
      ensures series == file && saved == file
    {
      series, saved := file, file;
    }

    /** observe(); the process dies before save number budget. */
    method Observe(expiry: int, time: int, price: int, budget: nat) returns (r: Observed)
      modifies this
      ensures var c := Call(expiry, time, price, budget);
              old(saved) == old(series) ==>
                && saved == FileAfter(old(series), c)
                && (r.Died? <==> Dies(old(series), c))
                && (!r.Died? ==> series == saved)
      ensures r.Rejected? <==> price <= 0 || time > expiry
      ensures r.Rejected? ==> series == old(series) && saved == old(saved)
      ensures r.Aggregated? || r.BeforeWindow? ==> Lookup(series, expiry) == Some(After(Lookup(old(series), expiry), expiry, time, price))
      ensures r.Aggregated? ==> r.a == AggregatesOf(Lookup(series, expiry).value.integral, Lookup(series, expiry).value.lateStart)
      ensures r.BeforeWindow? <==> !r.Rejected? && !r.Died? && time < expiry - DURATION
      ensures r.Aggregated? || r.BeforeWindow? ==> forall e :: e >= time && e != expiry ==> Lookup(series, e) == Lookup(old(series), e)
      ensures r.Died? && Lookup(old(series), expiry).Some? ==> saved == old(saved)
      ensures r.Died? && saved != old(saved) ==> saved == old(series) + [FirstSave(expiry, time, price)]
    {
      hide Interpolate, Trapezoid;
      LookupKey(series, expiry);
      if price <= 0 || time > expiry { return Rejected; }
      var start := expiry - DURATION;
      var left := budget;
      var found := Lookup(series, expiry);
      if found.None? {
        var s := FirstSave(expiry, time, price);
        forall e ensures Lookup(series + [s], e) == if Lookup(series, e).Some? then Lookup(series, e) else if e == expiry then Some(s) else None {
          LookupAppend(series, s, e);
        }
        series := series + [s];
        if left == 0 { return Died; }
        left := left - 1;
        saved := series;
        if time < start { return BeforeWindow; }
        var integral := price * (time - start);
        LookupUpdate(series, s.(integral := integral));
        series := Update(series, s.(integral := integral));
        if left == 0 { return Died; }
        saved := series;
        return Aggregated(AggregatesOf(integral, s.lateStart));
      }
      var s := found.value;
      var integral := s.integral;
      if time <= s.lastTimestamp {
        if time < start { return BeforeWindow; }
        return Aggregated(AggregatesOf(integral, s.lateStart));
      }
      if time < start {
        var next := s.(lastTimestamp := time, lastPrice := price, integral := 0);
        LookupUpdate(series, next);
        series := Update(series, next);
        if left == 0 { return Died; }
        saved := series;
        return BeforeWindow;
      }
      var segmentStart := if s.lastTimestamp < start then start else s.lastTimestamp;
      var priceAtStart := s.lastPrice;
      var lateStart := s.lateStart;
      if s.lastTimestamp < start {
        priceAtStart := Interpolate(s.lastTimestamp, s.lastPrice, time, price, start);
      } else if s.lastTimestamp > start && integral == 0 {
        integral := s.lastPrice * (s.lastTimestamp - start);
        lateStart := true;
      }
      integral := integral + Trapezoid(priceAtStart, price, time - segmentStart);
      var next := Series(expiry, time, price, integral, lateStart);
      LookupUpdate(series, next);
      forall e | e >= time ensures Lookup(Unexpired(Update(series, next), time), e) == Lookup(Update(series, next), e) {
        LookupUnexpired(Update(series, next), time, e);
      }
      series := Unexpired(Update(series, next), time);
      if left == 0 { return Died; }
      saved := series;
      r := Aggregated(AggregatesOf(integral, lateStart));
    }
  }

  // ------------------------------------------------------------------ one series over its observations

  datatype Obs = Obs(time: int, price: int)

  ghost predicate Observable(obs: seq<Obs>, expiry: int) {
    obs != [] && forall i :: 0 <= i < |obs| ==> obs[i].price > 0 && obs[i].time <= expiry
  }

  function Track(obs: seq<Obs>, expiry: int): Series
    requires obs != []
  {
    if |obs| == 1 then Begun(expiry, obs[0].time, obs[0].price)
    else Advanced(Track(obs[..|obs| - 1], expiry), obs[|obs| - 1].time, obs[|obs| - 1].price)
  }

  function Elapsed(s: Series): int { if s.lastTimestamp < s.expiry - DURATION then 0 else s.lastTimestamp - (s.expiry - DURATION) }

  /** The integral lies between the lowest and the highest price, times the elapsed window. */
  ghost predicate Bounded(s: Series, lo: int, hi: int) {
    && 0 < lo <= s.lastPrice <= hi && s.lastTimestamp <= s.expiry
    && lo * Elapsed(s) <= s.integral <= hi * Elapsed(s)
  }

  lemma Scale(a: int, b: int, d: int)
    requires a <= b && d >= 0
    ensures a * d <= b * d
  {
  }

  lemma TrapezoidBounds(l: int, r: int, d: int, lo: int, hi: int)
    requires 0 < lo && lo <= l <= hi && lo <= r <= hi && d > 0
    ensures lo * d <= Trapezoid(l, r, d) <= hi * d && Trapezoid(l, r, d) > 0
  {
    Scale(2 * lo, l + r, d);
    Scale(l + r, 2 * hi, d);
    Scale(1, lo, d);
    assert 2 * lo * d == 2 * (lo * d) && 2 * hi * d == 2 * (hi * d);
  }

  lemma TruncBetween(delta: int, part: int, whole: int)
    requires 0 <= part <= whole && whole > 0
    ensures delta >= 0 ==> 0 <= Trunc(delta * part, whole) <= delta
    ensures delta < 0 ==> delta <= Trunc(delta * part, whole) <= 0
  {
    var m := if delta < 0 then -delta else delta;
    assert delta * part == if delta < 0 then -(m * part) else m * part;
    Scale(0, m, part);
    Scale(part, whole, m);
    assert part * m == m * part && whole * m == m * whole;
    Floor(m * part, whole, m);
  }

  lemma Floor(a: int, d: int, m: int)
    requires d > 0 && 0 <= a <= m * d
    ensures 0 <= a / d <= m
  {
    var q := a / d;
    assert q * d <= a < q * d + d;
    assert (m + 1) * d == m * d + d;
    if q > m { Scale(m + 1, q, d); }
    if q < 0 { Scale(q, -1, d); }
  }

  /** The boundary price lies between the two observed prices. */
  lemma InterpolateBetween(s: Series, time: int, price: int, lo: int, hi: int)
    requires s.lastTimestamp < s.expiry - DURATION <= time && lo <= s.lastPrice <= hi && lo <= price <= hi
    ensures lo <= Interpolate(s.lastTimestamp, s.lastPrice, time, price, s.expiry - DURATION) <= hi
  {
    TruncBetween(price - s.lastPrice, s.expiry - DURATION - s.lastTimestamp, time - s.lastTimestamp);
    hide Trunc;
  }

  lemma AdvancedBounded(s: Series, time: int, price: int, lo: int, hi: int)
    requires Bounded(s, lo, hi) && lo <= price <= hi && time <= s.expiry
    ensures Bounded(Advanced(s, time, price), lo, hi)
    ensures s.lastTimestamp >= s.expiry - DURATION ==> Advanced(s, time, price).integral >= s.integral
    ensures s.lastTimestamp >= s.expiry - DURATION && time > s.lastTimestamp ==> Advanced(s, time, price).integral > s.integral
    ensures s.lastTimestamp > s.expiry - DURATION ==> s.integral > 0
  {
    var start := s.expiry - DURATION;
    Scale(1, lo, Elapsed(s));
    if time > s.lastTimestamp && time >= start {
      var segmentStart := if s.lastTimestamp < start then start else s.lastTimestamp;
      var left := if s.lastTimestamp < start then Interpolate(s.lastTimestamp, s.lastPrice, time, price, start) else s.lastPrice;
      if s.lastTimestamp < start { InterpolateBetween(s, time, price, lo, hi); }
      hide Interpolate, Trunc;
      if time > segmentStart { TrapezoidBounds(left, price, time - segmentStart, lo, hi); }
      assert lo * (time - start) == lo * (segmentStart - start) + lo * (time - segmentStart);
      assert hi * (time - start) == hi * (segmentStart - start) + hi * (time - segmentStart);
      hide Trapezoid;
    }
  }

  /** Over every observation sequence, in any order, the integral stays between the price extremes times
      the elapsed part of the window. */
  lemma {:induction false} IntegralBounded(obs: seq<Obs>, expiry: int, lo: int, hi: int)
    requires Observable(obs, expiry) && 0 < lo && forall i :: 0 <= i < |obs| ==> lo <= obs[i].price <= hi
    ensures Track(obs, expiry).expiry == expiry && Bounded(Track(obs, expiry), lo, hi)
  {
    if |obs| == 1 {
      var e := Elapsed(Begun(expiry, obs[0].time, obs[0].price));
      Scale(lo, obs[0].price, e);
      Scale(obs[0].price, hi, e);
    } else {
      var init, last := obs[..|obs| - 1], obs[|obs| - 1];
      assert forall i :: 0 <= i < |init| ==> init[i] == obs[i];
      IntegralBounded(init, expiry, lo, hi);
      AdvancedBounded(Track(init, expiry), last.time, last.price, lo, hi);
      hide Advanced, Bounded;
    }
  }

  /** Inside the window the integral never decreases, and grows with every later observation. */
  lemma IntegralGrows(obs: seq<Obs>, expiry: int, o: Obs)
    requires Observable(obs + [o], expiry) && obs != [] && Track(obs, expiry).lastTimestamp >= expiry - DURATION
    ensures Track(obs + [o], expiry).integral >= Track(obs, expiry).integral
    ensures o.time > Track(obs, expiry).lastTimestamp ==> Track(obs + [o], expiry).integral > Track(obs, expiry).integral
  {
    var all := obs + [o];
    assert all[..|all| - 1] == obs && all[|obs|] == o;
    assert forall i :: 0 <= i < |obs| ==> obs[i] == all[i];
    var lo, hi := Extremes(all);
    IntegralBounded(obs, expiry, lo, hi);
    AdvancedBounded(Track(obs, expiry), o.time, o.price, lo, hi);
    hide Advanced, Bounded;
  }

  lemma {:induction false} Extremes(obs: seq<Obs>) returns (lo: int, hi: int)
    requires obs != [] && forall i :: 0 <= i < |obs| ==> obs[i].price > 0
    ensures 0 < lo && forall i :: 0 <= i < |obs| ==> lo <= obs[i].price <= hi
    decreases |obs|
  {
    var last := obs[|obs| - 1].price;
    if |obs| == 1 { return last, last; }
    lo, hi := Extremes(obs[..|obs| - 1]);
    assert forall i :: 0 <= i < |obs| - 1 ==> obs[..|obs| - 1][i] == obs[i];
    lo, hi := if last < lo then last else lo, if last > hi then last else hi;
  }

  /** lateStart says that the first observation came after the window had begun. */
  lemma {:induction false} LateStartIsLate(obs: seq<Obs>, expiry: int)
    requires Observable(obs, expiry)
    ensures Track(obs, expiry).lateStart <==> obs[0].time > expiry - DURATION
    ensures Track(obs, expiry).lastTimestamp >= obs[0].time
  {
    if |obs| > 1 {
      var init, last := obs[..|obs| - 1], obs[|obs| - 1];
      assert forall i :: 0 <= i < |init| ==> init[i] == obs[i];
      LateStartIsLate(init, expiry);
      var lo, hi := Extremes(init);
      IntegralBounded(init, expiry, lo, hi);
      AdvancedBounded(Track(init, expiry), last.time, last.price, if last.price < lo then last.price else lo, if last.price > hi then last.price else hi)
        by { Widen(Track(init, expiry), lo, hi, if last.price < lo then last.price else lo, if last.price > hi then last.price else hi); }
      hide Interpolate, Trapezoid, Bounded;
    }
  }

  lemma Widen(s: Series, lo: int, hi: int, lo': int, hi': int)
    requires Bounded(s, lo, hi) && 0 < lo' <= lo && hi <= hi'
    ensures Bounded(s, lo', hi')
  {
    Scale(lo', lo, Elapsed(s));
    Scale(hi, hi', Elapsed(s));
  }

  /** With observations in time order that is: none was at or before the window start. */
  lemma LateStartInOrder(obs: seq<Obs>, expiry: int)
    requires Observable(obs, expiry) && forall i, j :: 0 <= i < j < |obs| ==> obs[i].time <= obs[j].time
    ensures Track(obs, expiry).lateStart <==> forall i :: 0 <= i < |obs| ==> obs[i].time > expiry - DURATION
  {
    LateStartIsLate(obs, expiry);
    hide Track;
  }

  /** A crash between the two initial saves leaves an integral of zero; the next later observation repairs it. */
  lemma CrashIsRepaired(expiry: int, first: Obs, next: Obs)
    requires first.price > 0 && first.time < next.time
    ensures Advanced(FirstSave(expiry, first.time, first.price), next.time, next.price)
         == Advanced(Begun(expiry, first.time, first.price), next.time, next.price)
  {
    hide Interpolate, Trapezoid;
    if first.time > expiry - DURATION { Scale(1, first.price, first.time - (expiry - DURATION)); }
  }

  // ------------------------------------------------------------------ whole runs: many series, crashes and restarts

  /** The file after a run of calls, each call that dies followed by a restart from the file. */
  function FileOf(calls: seq<Call>): seq<Series> {
    if calls == [] then [] else FileAfter(FileOf(calls[..|calls| - 1]), calls[|calls| - 1])
  }

  /** The observations that the accumulator of an expiry stands for: its accepted ones, but for those lost with their
      process, since a call for another expiry last purged the series. */
  function Effective(calls: seq<Call>, expiry: int): seq<Obs> {
    if calls == [] then []
    else
      var init, c := calls[..|calls| - 1], calls[|calls| - 1];
      var file, before := FileOf(init), Effective(init, expiry);
      if c.expiry == expiry then (if !Accepted(c) || Lost(file, c) then before else before + [Obs(c.time, c.price)])
      else if Purges(file, c) && c.time > expiry then []
      else before
  }

  /** The record is the one of these observations, or died between its two first saves and none was later since. */
  ghost predicate Stands(s: Series, expiry: int, obs: seq<Obs>) {
    && Observable(obs, expiry)
    && (s == Track(obs, expiry)
        || (s == FirstSave(expiry, obs[0].time, obs[0].price) && Track(obs, expiry) == Begun(expiry, obs[0].time, obs[0].price)))
  }

  lemma TrackNext(obs: seq<Obs>, o: Obs, expiry: int)
    requires obs != []
    ensures Track(obs + [o], expiry) == Advanced(Track(obs, expiry), o.time, o.price)
  {
    var all := obs + [o];
    assert all[..|all| - 1] == obs;
    hide Advanced;
  }

  lemma StandsFirst(s: Series, expiry: int, o: Obs)
    requires o.price > 0 && o.time <= expiry
    requires s == Begun(expiry, o.time, o.price) || s == FirstSave(expiry, o.time, o.price)
    ensures Stands(s, expiry, [o])
  {
  }

  lemma StandsNext(s: Series, expiry: int, obs: seq<Obs>, o: Obs)
    requires Stands(s, expiry, obs) && o.price > 0 && o.time <= expiry
    ensures Stands(Advanced(s, o.time, o.price), expiry, obs + [o])
  {
    TrackNext(obs, o, expiry);
    hide Track;
    if s != Track(obs, expiry) && o.time > s.lastTimestamp {
      CrashIsRepaired(expiry, obs[0], o);
    }
    hide Interpolate, Trapezoid;
  }

  lemma OwnCall(file: seq<Series>, c: Call)
    requires Accepted(c) && !Lost(file, c)
    ensures var now := Lookup(FileAfter(file, c), c.expiry);
            match Lookup(file, c.expiry)
            case None => now == Some(Begun(c.expiry, c.time, c.price)) || now == Some(FirstSave(c.expiry, c.time, c.price))
            case Some(s) => now == Some(Advanced(s, c.time, c.price))
    ensures Lookup(file, c.expiry).None? && c.saves > 1 ==> Lookup(FileAfter(file, c), c.expiry) == Some(Begun(c.expiry, c.time, c.price))
  {
    LookupKey(file, c.expiry);
    match Lookup(file, c.expiry) {
      case None =>
        var first := FirstSave(c.expiry, c.time, c.price);
        LookupAppend(file, first, c.expiry);
        LookupUpdate(file + [first], Begun(c.expiry, c.time, c.price));
        hide Lookup, Update, Unexpired;
      case Some(s) =>
        hide Lookup, Update, Unexpired, Interpolate, Trapezoid;
        if c.time > s.lastTimestamp {
          var n := Advanced(s, c.time, c.price);
          LookupUpdate(file, n);
          if Purges(file, c) { LookupUnexpired(Update(file, n), c.time, c.expiry); }
        }
    }
  }

  lemma OtherCall(file: seq<Series>, c: Call, e: int)
    requires c.expiry != e
    ensures Lookup(FileAfter(file, c), e) == if Purges(file, c) && c.time > e then None else Lookup(file, e)
  {
    LookupKey(file, c.expiry);
    hide Lookup, Update, Unexpired, Interpolate, Trapezoid;
    if Accepted(c) && !Lost(file, c) {
      match Lookup(file, c.expiry) {
        case None =>
          var first := FirstSave(c.expiry, c.time, c.price);
          LookupAppend(file, first, e);
          LookupAppend(file, first, c.expiry);
          LookupUpdate(file + [first], Begun(c.expiry, c.time, c.price));
        case Some(s) =>
          if c.time > s.lastTimestamp {
            var n := Advanced(s, c.time, c.price);
            LookupUpdate(file, n);
            if Purges(file, c) {
              if c.time > e { LookupPurged(Update(file, n), c.time, e); } else { LookupUnexpired(Update(file, n), c.time, e); }
            }
          }
      }
    }
  }

  /** After every run of observations of any expiries, with deaths before any save and restarts from the file, each
      series is the track of its effective observations. */
  lemma {:induction false} RunIsTracked(calls: seq<Call>, expiry: int)
    ensures var s, obs := Lookup(FileOf(calls), expiry), Effective(calls, expiry);
            (s.None? <==> obs == []) && (s.Some? ==> Stands(s.value, expiry, obs))
  {
    hide FileAfter, Lookup, Stands, Track, Advanced, Lost, Purges;
    if calls == [] {
      NothingStored(expiry);
    } else {
      var init, c := calls[..|calls| - 1], calls[|calls| - 1];
      var file, obs := FileOf(init), Effective(init, expiry);
      RunIsTracked(init, expiry);
      if c.expiry != expiry {
        OtherCall(file, c, expiry);
      } else if !Accepted(c) || Lost(file, c) {
        Unaffected(file, c);
      } else {
        OwnCall(file, c);
        if obs == [] {
          StandsFirst(Lookup(FileOf(calls), expiry).value, expiry, Obs(c.time, c.price));
          assert obs + [Obs(c.time, c.price)] == [Obs(c.time, c.price)];
        } else {
          StandsNext(Lookup(file, expiry).value, expiry, obs, Obs(c.time, c.price));
        }
      }
    }
  }

  /** So the price bounds hold after every run; only a series that died between its first two saves, with nothing later
      since, still lacks the price times time of its first observation. */
  lemma RunIsBounded(calls: seq<Call>, expiry: int, lo: int, hi: int)
    requires 0 < lo && forall i :: 0 <= i < |Effective(calls, expiry)| ==> lo <= Effective(calls, expiry)[i].price <= hi
    ensures var s, obs := Lookup(FileOf(calls), expiry), Effective(calls, expiry);
            s.Some? ==>
              (obs != [] && (Bounded(s.value, lo, hi)
                             || (s.value.integral == 0 && s.value == FirstSave(expiry, obs[0].time, obs[0].price))))
  {
    hide FileOf, Effective, Track, Bounded, Lookup;
    RunIsTracked(calls, expiry);
    if Lookup(FileOf(calls), expiry).Some? { IntegralBounded(Effective(calls, expiry), expiry, lo, hi); }
  }

  lemma NothingStored(expiry: int)
    ensures Lookup(FileOf([]), expiry) == None
  {
  }

  lemma Unaffected(file: seq<Series>, c: Call)
    requires !Accepted(c) || Lost(file, c)
    ensures FileAfter(file, c) == file
  {
  }

  /** The accepted observations of an expiry, but for those lost with their process. */
  function Kept(calls: seq<Call>, expiry: int): seq<Obs> {
    if calls == [] then []
    else
      var init, c := calls[..|calls| - 1], calls[|calls| - 1];
      Kept(init, expiry) + if c.expiry == expiry && Accepted(c) && !Lost(FileOf(init), c) then [Obs(c.time, c.price)] else []
  }

  predicate PurgedBy(calls: seq<Call>, expiry: int, i: nat)
    requires i < |calls|
  {
    calls[i].expiry != expiry && Purges(FileOf(calls[..i]), calls[i]) && calls[i].time > expiry
  }

  /** While no call for another expiry is later than this one, the accumulator stands for all that was kept; a purge
      forgets exactly what was kept before it. */
  lemma {:induction false} EffectiveSincePurge(calls: seq<Call>, expiry: int, i: nat)
    requires i <= |calls| && (i == 0 || PurgedBy(calls, expiry, i - 1))
    requires forall j :: i <= j < |calls| ==> !PurgedBy(calls, expiry, j)
    ensures Kept(calls, expiry) == Kept(calls[..i], expiry) + Effective(calls, expiry)
  {
    hide FileOf, Purges, Lost;
    if |calls| == i {
      assert calls[..i] == calls;
      if i > 0 { assert calls[..|calls| - 1] == calls[..i - 1]; }
    } else {
      var init := calls[..|calls| - 1];
      assert forall j :: 0 <= j < |init| ==> init[j] == calls[j] && init[..j] == calls[..j];
      assert !PurgedBy(calls, expiry, |calls| - 1);
      assert forall j :: 0 <= j < |init| ==> PurgedBy(init, expiry, j) == PurgedBy(calls, expiry, j);
      EffectiveSincePurge(init, expiry, i);
      assert init[..i] == calls[..i];
    }
  }

  /** An observation that arrives after a purge starts over, whatever the series had accumulated. */
  lemma PurgedStartsOver(calls: seq<Call>, purge: Call, late: Call)
    requires purge.expiry != late.expiry && Purges(FileOf(calls), purge) && purge.time > late.expiry
    requires Accepted(late) && late.saves > 1
    ensures Lookup(FileOf(calls + [purge, late]), late.expiry) == Some(Begun(late.expiry, late.time, late.price))
  {
    hide FileAfter, Lookup, Purges;
    var file := FileOf(calls);
    assert (calls + [purge, late])[..|calls| + 1] == calls + [purge];
    assert (calls + [purge])[..|calls|] == calls;
    OtherCall(file, purge, late.expiry);
    OwnCall(FileAfter(file, purge), late);
  }

  // ------------------------------------------------------------------ distance from the exact integral

  /** The exact integral of the piecewise linear price through the accepted observations, and how many
      segments it has. */
  datatype Exact = Exact(area: real, segments: nat)

  function ExactStart(expiry: int, o: Obs): Exact {
    Exact(if o.time < expiry - DURATION then 0.0 else (o.price * (o.time - (expiry - DURATION))) as real, 0)
  }

  function BoundaryPrice(s: Series, o: Obs): real
    requires o.time > s.lastTimestamp
  {
    s.lastPrice as real + ((o.price - s.lastPrice) * (s.expiry - DURATION - s.lastTimestamp)) as real / (o.time - s.lastTimestamp) as real
  }

  function ExactNext(s: Series, e: Exact, o: Obs): Exact {
    var start := s.expiry - DURATION;
    if o.time <= s.lastTimestamp then e
    else if o.time < start then Exact(0.0, 0)
    else
      var segmentStart := if s.lastTimestamp < start then start else s.lastTimestamp;
      var left := if s.lastTimestamp < start then BoundaryPrice(s, o) else s.lastPrice as real;
      Exact(e.area + (left + o.price as real) * (o.time - segmentStart) as real / 2.0, e.segments + 1)
  }

  function ExactTrack(obs: seq<Obs>, expiry: int): Exact
    requires obs != []
  {
    if |obs| == 1 then ExactStart(expiry, obs[0])
    else ExactNext(Track(obs[..|obs| - 1], expiry), ExactTrack(obs[..|obs| - 1], expiry), obs[|obs| - 1])
  }

  predicate Near(x: real, y: real, bound: real) { -bound <= x - y <= bound }

  lemma TruncNear(a: int, d: int)
    requires d > 0
    ensures Near(Trunc(a, d) as real, a as real / d as real, 1.0)
  {
    var m := if a < 0 then -a else a;
    var q, rest := m / d, m % d;
    assert m == q * d + rest;
    var x := m as real / d as real;
    assert x == q as real + rest as real / d as real by { Divide(m, q, rest, d); }
    assert 0.0 <= rest as real / d as real <= 1.0 by { Fraction(rest, d); }
    if a < 0 { assert a as real / d as real == -x; }
  }

  lemma Divide(m: int, q: int, rest: int, d: int)
    requires d > 0 && m == q * d + rest
    ensures m as real / d as real == q as real + rest as real / d as real
  {
    assert m as real == q as real * d as real + rest as real;
  }

  lemma Fraction(rest: int, d: int)
    requires 0 <= rest <= d && d > 0
    ensures 0.0 <= rest as real / d as real <= 1.0
  {
  }

  /** An error of eps in the left price costs half of eps per second, the halving at most one half. */
  lemma TrapezoidNear(left: int, exact: real, right: int, d: int, eps: real)
    requires d > 0 && left + right >= 0 && Near(left as real, exact, eps)
    ensures Near(Trapezoid(left, right, d) as real, (exact + right as real) * d as real / 2.0, eps * d as real / 2.0 + 0.5)
  {
    var a := (left + right) * d;
    Scale(0, left + right, d);
    assert 2 * (a / 2) <= a <= 2 * (a / 2) + 1;
    var diff := left as real - exact;
    assert a as real == (left as real + right as real) * d as real;
    assert (left as real + right as real) * d as real == (exact + right as real) * d as real + diff * d as real;
    Stretch(diff, eps, d as real);
  }

  lemma Stretch(x: real, eps: real, d: real)
    requires -eps <= x <= eps && d > 0.0
    ensures -(eps * d) <= x * d <= eps * d
  {
    assert (eps - x) * d >= 0.0;
    assert (x + eps) * d >= 0.0;
    assert (eps - x) * d == eps * d - x * d && (x + eps) * d == x * d + eps * d;
  }

  ghost predicate Close(s: Series, e: Exact) {
    if s.lastTimestamp < s.expiry - DURATION then s.integral == 0 && e == Exact(0.0, 0)
    else Near(s.integral as real, e.area, (e.segments as real + 1800.0) / 2.0)
  }

  /** The area of a segment whose left price is given. */
  function Area(left: real, right: int, d: int): real { (left + right as real) * d as real / 2.0 }

  lemma FirstAre(s: Series, e: Exact, o: Obs)
    requires Close(s, e) && s.lastTimestamp < s.expiry - DURATION < o.time
    ensures var start := s.expiry - DURATION;
            var left := Interpolate(s.lastTimestamp, s.lastPrice, o.time, o.price, start);
            && Advanced(s, o.time, o.price) == Series(s.expiry, o.time, o.price, Trapezoid(left, o.price, o.time - start), s.lateStart)
            && ExactNext(s, e, o) == Exact(Area(BoundaryPrice(s, o), o.price, o.time - start), 1)
  {
    hide Interpolate, Trapezoid, BoundaryPrice;
  }

  lemma LaterAre(s: Series, e: Exact, o: Obs)
    requires s.expiry - DURATION <= s.lastTimestamp < o.time && (s.lastTimestamp > s.expiry - DURATION ==> s.integral > 0)
    ensures Advanced(s, o.time, o.price)
         == Series(s.expiry, o.time, o.price, s.integral + Trapezoid(s.lastPrice, o.price, o.time - s.lastTimestamp), s.lateStart)
    ensures ExactNext(s, e, o) == Exact(e.area + Area(s.lastPrice as real, o.price, o.time - s.lastTimestamp), e.segments + 1)
  {
    hide Interpolate, Trapezoid, BoundaryPrice;
  }

  lemma Added(a: int, x: real, b: int, y: real, e1: real, e2: real)
    requires Near(a as real, x, e1) && Near(b as real, y, e2)
    ensures Near((a + b) as real, x + y, e1 + e2)
  {
  }

  lemma FirstSegment(s: Series, e: Exact, o: Obs, lo: int, hi: int)
    requires Bounded(s, lo, hi) && Close(s, e) && lo <= o.price <= hi && o.time <= s.expiry
    requires s.lastTimestamp < s.expiry - DURATION < o.time
    ensures Close(Advanced(s, o.time, o.price), ExactNext(s, e, o))
  {
    var start := s.expiry - DURATION;
    var left := Interpolate(s.lastTimestamp, s.lastPrice, o.time, o.price, start);
    hide Interpolate, BoundaryPrice, Advanced, ExactNext, Trapezoid, Area, Near;
    InterpolateBetween(s, o.time, o.price, lo, hi);
    BoundaryNear(s, o);
    FirstAre(s, e, o);
    TrapezoidNear(left, BoundaryPrice(s, o), o.price, o.time - start, 1.0);
    AreaIs(BoundaryPrice(s, o), o.price, o.time - start);
    Wider(Trapezoid(left, o.price, o.time - start), Area(BoundaryPrice(s, o), o.price, o.time - start), (o.time - start) as real);
  }

  lemma BoundaryNear(s: Series, o: Obs)
    requires s.lastTimestamp < o.time
    ensures Near(Interpolate(s.lastTimestamp, s.lastPrice, o.time, o.price, s.expiry - DURATION) as real, BoundaryPrice(s, o), 1.0)
  {
    var a, d := (o.price - s.lastPrice) * (s.expiry - DURATION - s.lastTimestamp), o.time - s.lastTimestamp;
    TruncNear(a, d);
    hide Trunc;
  }

  lemma AreaIs(left: real, right: int, d: int)
    ensures Area(left, right, d) == (left + right as real) * d as real / 2.0
  {
  }

  lemma Wider(a: int, x: real, d: real)
    requires Near(a as real, x, 1.0 * d / 2.0 + 0.5) && d <= 1800.0
    ensures Near(a as real, x, (1 as real + 1800.0) / 2.0)
  {
  }

  lemma LaterSegment(s: Series, e: Exact, o: Obs, lo: int, hi: int)
    requires Bounded(s, lo, hi) && Close(s, e) && lo <= o.price <= hi && o.time <= s.expiry
    requires s.expiry - DURATION <= s.lastTimestamp < o.time
    ensures Close(Advanced(s, o.time, o.price), ExactNext(s, e, o))
  {
    var d := o.time - s.lastTimestamp;
    AdvancedBounded(s, o.time, o.price, lo, hi);
    LaterAre(s, e, o);
    hide Interpolate, BoundaryPrice, Advanced, ExactNext;
    TrapezoidNear(s.lastPrice, s.lastPrice as real, o.price, d, 0.0);
    hide Trapezoid;
    Added(s.integral, e.area, Trapezoid(s.lastPrice, o.price, d), Area(s.lastPrice as real, o.price, d), (e.segments as real + 1800.0) / 2.0, 0.5);
  }

  lemma AdvancedClose(s: Series, e: Exact, o: Obs, lo: int, hi: int)
    requires Bounded(s, lo, hi) && Close(s, e) && lo <= o.price <= hi && o.time <= s.expiry
    ensures Close(Advanced(s, o.time, o.price), ExactNext(s, e, o))
  {
    var start := s.expiry - DURATION;
    if o.time > s.lastTimestamp && o.time >= start {
      if s.lastTimestamp >= start { LaterSegment(s, e, o, lo, hi); }
      else if o.time > start { FirstSegment(s, e, o, lo, hi); }
      else { hide Interpolate; }
    } else {
      hide Interpolate, Trapezoid, BoundaryPrice;
    }
  }

  /** After n segments the accumulator is within (n + 1800) / 2 of the exact piecewise linear integral. */
  lemma {:induction false} IntegralIsClose(obs: seq<Obs>, expiry: int)
    requires Observable(obs, expiry)
    ensures Close(Track(obs, expiry), ExactTrack(obs, expiry))
  {
    if |obs| > 1 {
      var init, last := obs[..|obs| - 1], obs[|obs| - 1];
      assert forall i :: 0 <= i < |init| ==> init[i] == obs[i];
      IntegralIsClose(init, expiry);
      var lo, hi := Extremes(obs);
      IntegralBounded(init, expiry, lo, hi);
      AdvancedClose(Track(init, expiry), ExactTrack(init, expiry), last, lo, hi);
      hide Advanced, ExactNext, Bounded, Close;
    }
  }
}
