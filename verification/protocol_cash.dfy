/** How far the reservations protect a maker's cash, over every run. */
module ProtocolCash {
  import opened Types
  import opened AuctionCore
  import opened Sums
  import opened Protocol
  import opened ProtocolInvariant
  import opened ProtocolSafety
  import opened ProtocolTheorems

  /** An account that never takes: no stored RFQ names it as its taker. */
  predicate MakesOnly(s: State, a: Account) { a !in Takers(s) }

  /** What the live quotes of a maker may still take never exceeds its cash, but for withdrawals that
      were mined after their handler gave up its lock. */
  lemma NeverOverpromised(run: seq<State>, i: nat, a: Account)
    requires Run(run) && i < |run| && MakesOnly(run[i], a)
    ensures Total(Owed(run[i], a)) <= Cash(run[i].chain, a) + Leaked(run[i].chain, a)
  {
    RunInv(run, i);
    hide Run, Control, Owed, Takers, SectionSolvent, SubmissionSolvent, Total;
  }

  // ------------------------------------------------------------------ withdrawals resolved inside their lock

  /** Every withdrawal of the run that succeeds does so while its handler waits for it. */
  ghost predicate MinedInside(run: seq<State>) {
    forall i, w :: 0 < i < |run| && Succeeded(run[i].chain, WdOp(w)) && !Succeeded(run[i - 1].chain, WdOp(w)) ==>
      InFlight(run[i - 1], WdOp(w))
  }

  lemma LeakStep(s: State, step: Step)
    requires Enabled(s, step)
    ensures var t := Apply(s, step);
            t.chain.leaked == s.chain.leaked
            || exists w :: Succeeded(t.chain, WdOp(w)) && !Succeeded(s.chain, WdOp(w)) && !InFlight(s, WdOp(w))
  {
    hide AuctionApply, AuctionEnabled, ExecutionApply, ExecutionEnabled, RecoveryApply, RecoveryEnabled,
      WithdrawalApply, WithdrawalEnabled, ChainApply, ChainEnabled;
    match step
    case OfAuction(a) => AuctionKeeps(s, a);
    case OfExecution(e) => ExecutionKeeps(s, e);
    case OfRecovery(v) => RecoveryKeeps(s, v);
    case OfWithdrawal(d) => WithdrawalKeeps(s, d);
    case OfChain(c) => LeakChainStep(s, c);
  }

  lemma LeakChainStep(s: State, step: ChainStep)
    requires ChainEnabled(s, step)
    ensures var t := ChainApply(s, step);
            t.chain.leaked == s.chain.leaked
            || exists w :: Succeeded(t.chain, WdOp(w)) && !Succeeded(s.chain, WdOp(w)) && !InFlight(s, WdOp(w))
  {
    hide Mine;
    if step.SMine? { LeakMine(s, step.op, step.ok, step.debit, step.taker_); }
  }

  lemma LeakMine(s: State, op: OpId, ok: bool, debit: nat, taker: int)
    requires CanMine(s, op, ok, debit)
    ensures var t := Mine(s, op, ok, debit, taker);
            t.chain.leaked == s.chain.leaked
            || exists w :: Succeeded(t.chain, WdOp(w)) && !Succeeded(s.chain, WdOp(w)) && !InFlight(s, WdOp(w))
  {
    hide Cash, Leaked;
    if op.WdOp? && ok && !InFlight(s, op) {
      assert Succeeded(Mine(s, op, ok, debit, taker).chain, WdOp(op.w));
    }
  }

  lemma {:induction false} NothingLeaks(run: seq<State>, i: nat)
    requires Run(run) && MinedInside(run) && i < |run|
    ensures run[i].chain.leaked == map[]
    decreases i
  {
    if i > 0 {
      NothingLeaks(run, i - 1);
      var step := StepAt(run, i);
      hide Run, Inv, Enabled, Apply, Succeeded, InFlight;
      LeakStep(run[i - 1], step);
    } else {
      hide Inv, Next;
    }
  }

  /** Account by account: cash covers what is owed as long as none of this account's withdrawals was mined late. */
  lemma SolventUnlessLeaked(run: seq<State>, i: nat, a: Account)
    requires Run(run) && i < |run| && MakesOnly(run[i], a) && Leaked(run[i].chain, a) == 0
    ensures Total(Owed(run[i], a)) <= Cash(run[i].chain, a)
  {
    hide Run, Owed, Total, MakesOnly;
    NeverOverpromised(run, i, a);
  }

  /** With withdrawals resolved inside their lock, cash covers what is still owed after any
      interleaving of quotes, replacements, cancellations, closes, acceptances and withdrawals. */
  lemma SolventInsideLocks(run: seq<State>, i: nat, a: Account)
    requires Run(run) && MinedInside(run) && i < |run| && MakesOnly(run[i], a)
    ensures Total(Owed(run[i], a)) <= Cash(run[i].chain, a)
  {
    hide Run, MinedInside, MakesOnly, Owed, Total;
    NeverOverpromised(run, i, a);
    NothingLeaks(run, i);
  }

  /** Between locked sections the same holds of the reservation map itself, winners already paid on
      chain left out. */
  lemma ReservationsAreCovered(run: seq<State>, i: nat, a: Account)
    requires Run(run) && MinedInside(run) && i < |run| && MakesOnly(run[i], a) && Quiet(run[i])
    ensures ReservedFor(run[i].reservations, a, run[i].chain.paid) <= Cash(run[i].chain, a)
  {
    hide Run, MinedInside, MakesOnly, Quiet, Total;
    SolventInsideLocks(run, i, a);
    ReservationsMatchStore(run, i);
    assert AmountsFor(ReservationsOf(run[i].ix), a, run[i].chain.paid) == Owed(run[i], a);
  }
}
