/** Winner selection (auction.ts, selectBestQuote) and what a winner means. */
module BestQuote {
  import opened Types

  /** a must be replaced by b as the running best: b pays more, or pays the same and came first. */
  predicate Beats(b: Quote, a: Quote) {
    b.premium > a.premium || (b.premium == a.premium && b.receivedAt < a.receivedAt)
  }

  /** The best of a list is the earliest listed quote that no other quote beats. */
  ghost predicate IsBest(qs: seq<Quote>, best: Option<Quote>) {
    match best
    case None => qs == []
    case Some(b) => exists i :: 0 <= i < |qs| && qs[i] == b && IsBestAt(qs, i)
  }

  ghost predicate IsBestAt(qs: seq<Quote>, i: nat)
    requires i < |qs|
  {
    && (forall j :: 0 <= j < |qs| ==> !Beats(qs[j], qs[i]))
    && (forall j :: 0 <= j < i ==> Beats(qs[i], qs[j]))
  }

  function SelectBest(qs: seq<Quote>): Option<Quote> {
    if qs == [] then None
    else
      var last := qs[|qs| - 1];
      match SelectBest(qs[..|qs| - 1])
      case None => Some(last)
      case Some(b) => if Beats(last, b) then Some(last) else Some(b)
  }

  lemma {:induction false} SelectBestIsBest(qs: seq<Quote>)
    ensures IsBest(qs, SelectBest(qs))
  {
    if qs != [] {
      var init, n := qs[..|qs| - 1], |qs| - 1;
      SelectBestIsBest(init);
      if SelectBest(init).Some? {
        var i :| 0 <= i < n && init[i] == SelectBest(init).value && IsBestAt(init, i);
        if Beats(qs[n], qs[i]) {
          forall j | 0 <= j < n ensures Beats(qs[n], qs[j]) { assert !Beats(init[j], init[i]); }
          assert IsBestAt(qs, n);
        } else {
          forall j | 0 <= j < |qs| ensures !Beats(qs[j], qs[i]) {
            if j < n { assert !Beats(init[j], init[i]); }
          }
          forall j | 0 <= j < i ensures Beats(qs[i], qs[j]) { assert Beats(init[i], init[j]); }
          assert IsBestAt(qs, i);
        }
      } else {
        assert IsBestAt(qs, n);
      }
    }
  }

  /** The description leaves no choice, so it names the selected quote. */
  lemma BestIsUnique(qs: seq<Quote>, a: Option<Quote>, b: Option<Quote>)
    requires IsBest(qs, a) && IsBest(qs, b)
    ensures a == b
  {
    if a.Some? && b.Some? {
      var i :| 0 <= i < |qs| && qs[i] == a.value && IsBestAt(qs, i);
      var j :| 0 <= j < |qs| && qs[j] == b.value && IsBestAt(qs, j);
      assert i == j;
    }
  }

  /** The running-best loop of the source. */
  method SelectBestQuote(quotes: seq<Quote>) returns (best: Option<Quote>)
    ensures best == SelectBest(quotes)
    ensures IsBest(quotes, best)
  {
    best := None;
    for k := 0 to |quotes|
      invariant best == SelectBest(quotes[..k])
    {
      var q := quotes[k];
      assert quotes[..k + 1][..k] == quotes[..k];
      if best.None? || q.premium > best.value.premium
        || (q.premium == best.value.premium && q.receivedAt < best.value.receivedAt) {
        best := Some(q);
      }
    }
    assert quotes[..|quotes|] == quotes;
    SelectBestIsBest(quotes);
  }
}
