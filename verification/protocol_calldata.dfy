/** Two acceptances with one call data. Matching executes call data at most once, so of two RFQs that carry
    the same only one can be executed by its own broadcast; the other's record then tells of a transaction that is not its own. */
module ProtocolCallData {
  import opened Types
  import opened Protocol
  import opened ProtocolInvariant
  import opened ProtocolSafety
  import opened ProtocolTheorems
  import ProtocolQuotes
  import ProtocolWithdrawals

  // ------------------------------------------------------------------ call data executes once

  ghost predicate Carries(c: Chain, op: OpId, data: Hash) { op in c.sent && c.sent[op].data == Some(data) }

  ghost predicate OnceEach(c: Chain) {
    forall o, p, data :: Carries(c, o, data) && Carries(c, p, data) && Succeeded(c, o) && Succeeded(c, p) ==> o == p
  }

  lemma BroadcastOnce(c: Chain, d: Chain, op: OpId)
    requires OnceEach(c) && op !in c.outcome && d.outcome == c.outcome
    requires op in d.sent && d.sent == c.sent[op := d.sent[op]]
    ensures OnceEach(d)
  {
    assert forall o, data :: o != op ==> Carries(d, o, data) == Carries(c, o, data);
    assert forall o :: Succeeded(d, o) == Succeeded(c, o);
    hide Carries;
  }

  lemma MineOnce(c: Chain, d: Chain, op: OpId, ok: bool)
    requires OnceEach(c) && d.sent == c.sent && d.outcome == c.outcome[op := ok]
    requires op in c.sent && (ok ==> !Spent(c, op))
    ensures OnceEach(d)
  {
    forall o, data | ok && o != op && Carries(d, op, data) && Carries(d, o, data) ensures !Succeeded(d, o) {
      assert Succeeded(c, o) ==> ExecutedData(c, data);
    }
    assert forall o, data :: Carries(d, o, data) == Carries(c, o, data);
    hide Carries;
  }

  lemma QuietOnce(c: Chain, d: Chain)
    requires OnceEach(c) && d.sent == c.sent && d.outcome == c.outcome
    ensures OnceEach(d)
  {
    assert forall o, data :: Carries(d, o, data) == Carries(c, o, data);
    assert forall o :: Succeeded(d, o) == Succeeded(c, o);
    hide Carries, Succeeded;
  }

  lemma RfqBroadcastOnce(s: State, r: RfqId)
    requires Control(s) && CanBroadcast(s, r) && OnceEach(s.chain)
    ensures OnceEach(Broadcast(s, r).chain)
  {
    hide Control, OnceEach;
    ProtocolQuotes.SectionHere(s, r);
    hide RfqHere;
    ReceiptsAreSent(s);
    BroadcastOnce(s.chain, Broadcast(s, r).chain, RfqOp(r));
  }

  lemma WdBroadcastOnce(s: State, w: WId)
    requires Control(s) && CanWBroadcast(s, w) && OnceEach(s.chain)
    ensures OnceEach(WBroadcast(s, w).chain)
  {
    hide Control, OnceEach;
    ProtocolWithdrawals.Here(s, w);
    ReceiptsAreSent(s);
    BroadcastOnce(s.chain, WBroadcast(s, w).chain, WdOp(w));
  }

  lemma StepOnce(s: State, step: Step)
    requires Control(s) && Enabled(s, step) && OnceEach(s.chain)
    ensures OnceEach(Apply(s, step).chain)
  {
    hide Control, OnceEach, AuctionApply, AuctionEnabled, ExecutionApply, ExecutionEnabled, RecoveryApply,
      RecoveryEnabled, WithdrawalApply, WithdrawalEnabled, ChainApply, ChainEnabled, Broadcast, WBroadcast, Spent;
    match step
    case OfAuction(a) => AuctionKeeps(s, a);
    case OfExecution(e) => ExecutionKeeps(s, e); if e.SBroadcast? { RfqBroadcastOnce(s, e.r); }
    case OfRecovery(v) => RecoveryKeeps(s, v);
    case OfWithdrawal(d) => WithdrawalKeeps(s, d); if d.SWBroadcast? { WdBroadcastOnce(s, d.w); }
    case OfChain(c) =>
      ChainKeeps(s, c);
      if c.SMine? { MineOnce(s.chain, ChainApply(s, c).chain, c.op, c.ok); } else { QuietOnce(s.chain, ChainApply(s,
        c).chain); }
  }

  lemma {:induction false} RunOnce(run: seq<State>, i: nat)
    requires Run(run) && i < |run|
    ensures OnceEach(run[i].chain)
    decreases i
  {
    if i > 0 {
      RunOnce(run, i - 1);
      var step := StepAt(run, i);
      hide Run, Control, Solvent, Enabled, Apply, OnceEach;
      StepOnce(run[i - 1], step);
    }
  }

  lemma SentData(s: State, r: RfqId)
    requires Control(s) && Succeeded(s.chain, RfqOp(r))
    ensures r in s.ix.rfqs && s.ix.rfqs[r].executionIntent.Some?
    ensures Carries(s.chain, RfqOp(r), s.ix.rfqs[r].executionIntent.value.calldataHash)
  {
    hide Control, WinnerOk, ExecutedData;
    ReceiptsAreSent(s);
    KnownOps(s, RfqOp(r));
    RecordOk(s, r);
  }

  lemma AloneOrNot(s: State, r: RfqId)
    requires Control(s) && OnceEach(s.chain) && RfqHas(s, r, Executed)
    ensures Succeeded(s.chain, RfqOp(r)) <==>
              forall x :: x != r && SameCallData(s, r, x) ==> !Succeeded(s.chain, RfqOp(x))
  {
    hide Control, ExecutedData, Carries;
    ExecutedTruth(s, r);
    var h := s.ix.rfqs[r].executionIntent.value.calldataHash;
    if Succeeded(s.chain, RfqOp(r)) {
      SentData(s, r);
      forall x | x != r && SameCallData(s, r, x) ensures !Succeeded(s.chain, RfqOp(x)) {
        if Succeeded(s.chain, RfqOp(x)) {
          SentData(s, x);
          assert false;
        }
      }
    } else {
      WhoseData(s, h);
      var x :| x in s.ix.rfqs && s.ix.rfqs[x].executionIntent.Some?
               && s.ix.rfqs[x].executionIntent.value.calldataHash == h && Succeeded(s.chain, RfqOp(x));
      assert SameCallData(s, r, x);
    }
  }

  /** An executed record is the RFQ's own exactly when no other RFQ with the same call data has succeeded. */
  lemma OwnExactlyIfAlone(run: seq<State>, i: nat, r: RfqId)
    requires Run(run) && i < |run| && RfqHas(run[i], r, Executed)
    ensures Succeeded(run[i].chain, RfqOp(r)) <==>
              forall x :: x != r && SameCallData(run[i], r, x) ==> !Succeeded(run[i].chain, RfqOp(x))
  {
    RunInv(run, i);
    RunOnce(run, i);
    hide Run, Control, Solvent, OnceEach, SameCallData, Succeeded;
    AloneOrNot(run[i], r);
  }
}
