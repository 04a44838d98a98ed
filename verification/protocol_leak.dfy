/** Runs on which cash alone does not cover what is owed: a withdrawal whose broadcast outcome was
    unknown gives up its account lock, a quote is admitted against the same cash, and then the
    withdrawal is mined. Every cash and every lost amount occur. */
module ProtocolLeak {
  import opened Types
  import opened RfqIndex
  import opened AuctionCore
  import opened Sums
  import opened Protocol
  import opened ProtocolInvariant
  import opened ProtocolPaths

  /** A maker, the cash it starts with, and the part of it that it withdraws. */
  datatype Scene = Scene(maker: Account, cash: nat, lost: nat)

  function Fresh(cash: map<Account, int>): State {
    State(Empty, map[], map[], {}, map[], map[], {}, map[], None, {}, {}, {},
          Chain([], map[], map[], {}, 0, cash, map[], {}))
  }

  function Begin(x: Scene): State { Fresh(map[x.maker := x.cash]) }

  const OPTION := Instrument("ETH", 0, 1000, 0, true, 1, "ETH-CALL")

  function Opened(x: Scene): Rfq { Rfq(0, x.maker + 1, OPTION, 1, 0, 60, None, Open, None, None, None, None) }

  /** A quote that takes all of the maker's cash. */
  function Draft(x: Scene): Quote {
    Quote(0, 0, 0, x.maker, 5, 5, [], 0, Action(x.maker, 0, 0, 0, 100, 0, 0), 0, 0, x.cash)
  }

  function Takeout(x: Scene): Withdrawal { Withdrawal(x.maker, x.lost, 10, WPrepared) }

  /** The withdrawal is broadcast and its outcome lost. */
  function Withdrawn(x: Scene): State {
    Begin(x).(
      wds := map[0 := Takeout(x).(status := WUnknown)],
      latches := {OpLatch(WdOp(0)), UnknownBroadcast},
      chain := Begin(x).chain.(
        broadcasts := [WdOp(0)], sent := map[WdOp(0) := Payload(x.maker, x.lost, 10, 10, None, None)]))
  }

  /** The same cash backs a stored quote. */
  function Quoted(x: Scene): State {
    Withdrawn(x).(
      ix := Index(map[0 := Opened(x)], map[0 := Draft(x)], map[0 := [0]]),
      reservations := map[0 := Reservation(x.maker, x.cash)], used := {0})
  }

  // ------------------------------------------------------------------ the withdrawal

  /** The submission of withdrawal 0 at program counter pc, before anything is broadcast. */
  function Submitting(x: Scene, pc: WSub, queue: Option<OpId>): State {
    Begin(x).(wds := map[0 := Takeout(x).(status := WSubmitting)], wsubs := map[0 := pc], queue := queue)
  }

  function Prepared(x: Scene, claims: set<WId>): State { Begin(x).(wds := map[0 := Takeout(x)], claims := claims) }

  lemma Prepares(x: Scene)
    ensures Enabled(Begin(x), OfWithdrawal(SPrepare(0, Takeout(x))))
    ensures Apply(Begin(x), OfWithdrawal(SPrepare(0, Takeout(x)))) == Prepared(x, {})
  {
  }

  lemma Claims(x: Scene)
    ensures Enabled(Prepared(x, {}), OfWithdrawal(SClaim(0)))
    ensures Apply(Prepared(x, {}), OfWithdrawal(SClaim(0))) == Prepared(x, {0})
  {
    assert Claim(Prepared(x, {}), 0) == Prepared(x, {0});
  }

  lemma Submits(x: Scene)
    ensures Enabled(Prepared(x, {0}), OfWithdrawal(SSubmit(0)))
    ensures Apply(Prepared(x, {0}), OfWithdrawal(SSubmit(0))) == Submitting(x, Waiting, None)
  {
    assert Submit(Prepared(x, {0}), 0) == Submitting(x, Waiting, None);
  }

  lemma Locks(x: Scene)
    ensures Enabled(Submitting(x, Waiting, None), OfWithdrawal(SWLock(0)))
    ensures Apply(Submitting(x, Waiting, None), OfWithdrawal(SWLock(0))) == Submitting(x, Locked, None)
  {
    assert AtWPc(Submitting(x, Waiting, None), 0, Locked) == Submitting(x, Locked, None);
  }

  lemma Enters(x: Scene)
    ensures Enabled(Submitting(x, Locked, None), OfWithdrawal(SWEnter(0)))
    ensures Apply(Submitting(x, Locked, None), OfWithdrawal(SWEnter(0))) == Submitting(x, InQueue, Some(WdOp(0)))
  {
    assert WEnter(Submitting(x, Locked, None), 0) == Submitting(x, InQueue, Some(WdOp(0)));
  }

  lemma Snapshots(x: Scene)
    ensures Enabled(Submitting(x, InQueue, Some(WdOp(0))), OfWithdrawal(SSnapshot(0)))
    ensures Apply(Submitting(x, InQueue, Some(WdOp(0))), OfWithdrawal(SSnapshot(0))) == Submitting(x, Snapped(x.cash), Some(WdOp(0)))
  {
    assert Snapshot(Submitting(x, InQueue, Some(WdOp(0))), 0) == Submitting(x, Snapped(x.cash), Some(WdOp(0)));
  }

  lemma Checks(x: Scene)
    requires x.lost <= x.cash
    ensures Enabled(Submitting(x, Snapped(x.cash), Some(WdOp(0))), OfWithdrawal(SCheck(0)))
    ensures Apply(Submitting(x, Snapped(x.cash), Some(WdOp(0))), OfWithdrawal(SCheck(0))) == Submitting(x, Checked, Some(WdOp(0)))
  {
    var t := Submitting(x, Snapped(x.cash), Some(WdOp(0)));
    assert AmountsFor(t.reservations, x.maker, {}) == map[];
    assert AtWPc(t, 0, Checked) == Submitting(x, Checked, Some(WdOp(0)));
  }

  function Gone(x: Scene): State { Submitting(x, WSent, Some(WdOp(0))).(chain := Withdrawn(x).chain) }

  lemma Broadcasts(x: Scene)
    ensures Enabled(Submitting(x, Checked, Some(WdOp(0))), OfWithdrawal(SWBroadcast(0)))
    ensures Apply(Submitting(x, Checked, Some(WdOp(0))), OfWithdrawal(SWBroadcast(0))) == Gone(x)
  {
    assert WBroadcast(Submitting(x, Checked, Some(WdOp(0))), 0) == Gone(x);
  }

  lemma Loses(x: Scene)
    ensures Enabled(Gone(x), OfWithdrawal(SWLose(0))) && Apply(Gone(x), OfWithdrawal(SWLose(0))) == Withdrawn(x)
  {
    assert WLose(Gone(x), 0) == Withdrawn(x);
  }

  lemma ReachesWithdrawn(x: Scene)
    requires x.lost <= x.cash
    ensures Reaches(Begin(x), Withdrawn(x))
  {
    hide *;
    var s, q := Begin(x), Some(WdOp(0));
    Start(s);
    Prepares(x); Extend(s, s, OfWithdrawal(SPrepare(0, Takeout(x))));
    Claims(x); Extend(s, Prepared(x, {}), OfWithdrawal(SClaim(0)));
    Submits(x); Extend(s, Prepared(x, {0}), OfWithdrawal(SSubmit(0)));
    Locks(x); Extend(s, Submitting(x, Waiting, None), OfWithdrawal(SWLock(0)));
    Enters(x); Extend(s, Submitting(x, Locked, None), OfWithdrawal(SWEnter(0)));
    Snapshots(x); Extend(s, Submitting(x, InQueue, q), OfWithdrawal(SSnapshot(0)));
    Checks(x); Extend(s, Submitting(x, Snapped(x.cash), q), OfWithdrawal(SCheck(0)));
    Broadcasts(x); Extend(s, Submitting(x, Checked, q), OfWithdrawal(SWBroadcast(0)));
    Loses(x); Extend(s, Gone(x), OfWithdrawal(SWLose(0)));
  }

  // ------------------------------------------------------------------ the quote

  /** The auction with its only quote being handled at sec. */
  function Bidding(x: Scene, sections: map<RfqId, Section>): State {
    Withdrawn(x).(ix := Index(map[0 := Opened(x)], map[], map[]), sections := sections)
  }

  lemma Opens(x: Scene)
    ensures Enabled(Withdrawn(x), OfAuction(SOpenRfq(Opened(x)))) && Apply(Withdrawn(x), OfAuction(SOpenRfq(Opened(x)))) == Bidding(x, map[])
  {
    assert OpenRfq(Withdrawn(x), Opened(x)) == Bidding(x, map[]);
  }

  lemma Bids(x: Scene)
    ensures Enabled(Bidding(x, map[]), OfAuction(SQuoteBegin(0, 0, x.maker)))
    ensures Apply(Bidding(x, map[]), OfAuction(SQuoteBegin(0, 0, x.maker))) == Bidding(x, map[0 := Quoting(0, x.maker, [], 0)])
  {
    var s := Bidding(x, map[]);
    assert AmountsFor(s.reservations, x.maker, {}) == map[];
    assert PriorQuotes(s.ix, 0, 0) == [] && (set p | p in PriorQuotes(s.ix, 0, 0)) == {};
    assert QuoteBegin(s, 0, 0, x.maker) == Bidding(x, map[0 := Quoting(0, x.maker, [], 0)]);
  }

  lemma Validates(x: Scene)
    ensures Enabled(Bidding(x, map[0 := Quoting(0, x.maker, [], 0)]), OfAuction(SQuoteValidate(0, Draft(x))))
    ensures Apply(Bidding(x, map[0 := Quoting(0, x.maker, [], 0)]), OfAuction(SQuoteValidate(0, Draft(x))))
         == Bidding(x, map[0 := Validated(Draft(x), [])])
  {
    assert QuoteValidate(Bidding(x, map[0 := Quoting(0, x.maker, [], 0)]), 0, Draft(x)) == Bidding(x, map[0 := Validated(Draft(x), [])]);
  }

  function Filed(x: Scene): State { Quoted(x).(reservations := map[], sections := map[0 := Stored(Draft(x))]) }

  lemma Admits(x: Scene)
    ensures Enabled(Bidding(x, map[0 := Validated(Draft(x), [])]), OfAuction(SQuoteAdmit(0, 0)))
    ensures Apply(Bidding(x, map[0 := Validated(Draft(x), [])]), OfAuction(SQuoteAdmit(0, 0))) == Filed(x)
  {
    var s := Bidding(x, map[0 := Validated(Draft(x), [])]);
    assert Ids(s.ix, 0) + [0] == [0];
    assert QuoteAdmit(s, 0, 0) == Filed(x);
  }

  lemma Reserves(x: Scene)
    ensures Enabled(Filed(x), OfAuction(SQuoteReserve(0))) && Apply(Filed(x), OfAuction(SQuoteReserve(0))) == Quoted(x)
  {
    assert QuoteReserve(Filed(x), 0) == Quoted(x);
  }

  lemma ReachesQuoted(x: Scene)
    requires x.lost <= x.cash
    ensures Reaches(Begin(x), Quoted(x))
  {
    hide *;
    var s := Begin(x);
    ReachesWithdrawn(x);
    Opens(x); Extend(s, Withdrawn(x), OfAuction(SOpenRfq(Opened(x))));
    Bids(x); Extend(s, Bidding(x, map[]), OfAuction(SQuoteBegin(0, 0, x.maker)));
    Validates(x); Extend(s, Bidding(x, map[0 := Quoting(0, x.maker, [], 0)]), OfAuction(SQuoteValidate(0, Draft(x))));
    Admits(x); Extend(s, Bidding(x, map[0 := Validated(Draft(x), [])]), OfAuction(SQuoteAdmit(0, 0)));
    Reserves(x); Extend(s, Filed(x), OfAuction(SQuoteReserve(0)));
  }

  lemma MinesLate(x: Scene)
    ensures Enabled(Quoted(x), OfChain(SMine(WdOp(0), true, x.lost, 0)))
    ensures Apply(Quoted(x), OfChain(SMine(WdOp(0), true, x.lost, 0))) == Mine(Quoted(x), WdOp(0), true, x.lost, 0)
  {
  }

  lemma Ends(x: Scene)
    ensures CanMine(Quoted(x), WdOp(0), true, x.lost)
    ensures var t := Mine(Quoted(x), WdOp(0), true, x.lost, 0);
            && x.maker !in Takers(t) && Owed(t, x.maker) == map[0 := x.cash]
            && Cash(t.chain, x.maker) == x.cash - x.lost && Leaked(t.chain, x.maker) == x.lost
  {
    var t := Mine(Quoted(x), WdOp(0), true, x.lost, 0);
    assert Owed(t, x.maker) == map[0 := x.cash];
  }

  /** For every maker, every cash and every part of it, a run ends with the whole cash still owed to live quotes and
      that part gone: cash and the late withdrawals together are exactly what is owed, so the bound on what is owed
      cannot be lowered; and cash alone falls short by whatever was lost. */
  lemma CashAloneDoesNotCover(maker: Account, cash: nat, lost: nat) returns (t: State)
    requires lost <= cash
    ensures Init(Fresh(map[maker := cash])) && Reaches(Fresh(map[maker := cash]), t)
    ensures maker !in Takers(t) && Leaked(t.chain, maker) == lost && Cash(t.chain, maker) == cash - lost
    ensures Total(Owed(t, maker)) == cash == Cash(t.chain, maker) + Leaked(t.chain, maker)
    ensures lost > 0 ==> Total(Owed(t, maker)) > Cash(t.chain, maker)
  {
    var x := Scene(maker, cash, lost);
    Ends(x);
    t := Mine(Quoted(x), WdOp(0), true, lost, 0);
    assert Begin(x) == Fresh(map[maker := cash]);
    hide Reaches, Mine, Quoted, Owed, Takers, Begin, Enabled, Apply;
    ReachesQuoted(x);
    MinesLate(x);
    Extend(Begin(x), Quoted(x), OfChain(SMine(WdOp(0), true, lost, 0)));
    TotalAt(Owed(t, maker), 0);
    assert map[0 := cash] - {0} == map[];
  }
}
