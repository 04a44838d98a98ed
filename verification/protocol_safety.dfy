/** The invariant is inductive, so it holds in every state of every run. */
module ProtocolSafety {
  import opened Protocol
  import opened ProtocolInvariant
  import opened ProtocolFrame
  import opened ProtocolExecution
  import opened ProtocolQuotes
  import opened ProtocolRecovery
  import opened ProtocolWithdrawals
  import opened ProtocolChain
  import opened ProtocolSolvency
  import opened ProtocolSolvencySteps
  import opened ProtocolSolvencyChain

  lemma InitInv(s: State)
    requires Init(s)
    ensures Inv(s)
  {
    assert forall a :: Owed(s, a) == map[];
  }

  lemma AuctionControl(s: State, step: AuctionStep)
    requires Control(s) && AuctionEnabled(s, step)
    ensures Control(AuctionApply(s, step))
  {
    hide Control, QuoteAdmit, QuoteDrop, Close, Expire, Cancel, OpenRfq, QuoteBegin, QuoteReserve;
    match step
    case SOpenRfq(rfq) => KeepOpenRfq(s, rfq);
    case SQuoteBegin(r, maker, sub) => KeepQuoteBegin(s, r, maker, sub);
    case SQuoteValidate(r, draft) => KeepQuoteValidate(s, r, draft);
    case SQuoteAbort(r) => KeepQuoteAbort(s, r);
    case SQuoteAdmit(r, id) => KeepQuoteAdmit(s, r, id);
    case SQuoteDrop(r, id) => KeepQuoteDrop(s, r, id);
    case SQuoteReserve(r) => KeepQuoteReserve(s, r);
    case SCancel(q) => KeepCancel(s, q);
    case SCancelRelease(r) => KeepCancelRelease(s, r);
    case SClose(r, deadline) => KeepClose(s, r, deadline);
    case SExpire(r) => KeepExpire(s, r);
  }

  lemma ExecutionControl(s: State, step: ExecutionStep)
    requires Control(s) && ExecutionEnabled(s, step)
    ensures Control(ExecutionApply(s, step))
  {
    InBooks(s, step.r);
    hide Control;
    match step
    case SAcceptBegin(r) => KeepAcceptBegin(s, r);
    case SAcceptEnd(r) => KeepAcceptEnd(s, r);
    case SAcceptExpire(r) => KeepAcceptExpire(s, r);
    case SAcceptCommit(r, intent) => KeepAcceptCommit(s, r, intent);
    case SRefuse(r) => KeepRefuse(s, r);
    case SBroadcast(r) => KeepBroadcast(s, r);
    case SHash(r, hash) => KeepHash(s, r, hash);
    case SLose(r) => KeepLose(s, r);
    case SReceive(r) => KeepReceive(s, r);
    case SSettle(r, hash) => KeepSettle(s, r, hash);
    case SRelease(r) => KeepRelease(s, r);
  }

  lemma RecoveryControl(s: State, step: RecoveryStep)
    requires Control(s) && RecoveryEnabled(s, step)
    ensures Control(RecoveryApply(s, step))
  {
    hide Control, Recover, ReconPut, MinedCallData;
    match step
    case SReconStart(r) => KeepReconStart(s, r);
    case SReconAnswer(r, answer) => KeepReconAnswer(s, r, answer);
    case SReconEnd(r) => KeepReconEnd(s, r);
    case SReconPut(r, hash) => KeepReconPut(s, r, hash);
    case SReconClear(r) => KeepReconClear(s, r);
    case SCrash => KeepCrash(s);
    case SRecover(r) => KeepRecover(s, r);
  }

  lemma WithdrawalControl(s: State, step: WithdrawalStep)
    requires Control(s) && WithdrawalEnabled(s, step)
    ensures Control(WithdrawalApply(s, step))
  {
    hide Control, WReconcile;
    match step
    case SPrepare(w, wd) => KeepPrepare(s, w, wd);
    case SClaim(w) => KeepClaim(s, w);
    case SUnclaim(w) => KeepUnclaim(s, w);
    case SWExpire(w) => KeepWExpire(s, w);
    case SSubmit(w) => KeepSubmit(s, w);
    case SFindBurned(w) => KeepFindBurned(s, w);
    case SWLock(w) => KeepWLock(s, w);
    case SWRefuse(w) => KeepWRefuse(s, w);
    case SWEnter(w) => KeepWEnter(s, w);
    case SSnapshot(w) => KeepSnapshot(s, w);
    case SCheck(w) => KeepCheck(s, w);
    case SReject(w) => KeepReject(s, w);
    case SWBroadcast(w) => KeepWBroadcast(s, w);
    case SWHash(w) => KeepWHash(s, w);
    case SWLose(w) => KeepWLose(s, w);
    case SWReceive(w) => KeepWReceive(s, w);
    case SWSettle(w) => KeepWSettle(s, w);
    case SWClear(w) => KeepWClear(s, w);
    case SWReconcile(w, look) => KeepWReconcile(s, w, look);
    case SWSkip(w) => KeepWSkip(s, w);
  }

  lemma ChainControl(s: State, step: ChainStep)
    requires Control(s) && ChainEnabled(s, step)
    ensures Control(ChainApply(s, step))
  {
    hide Control, Mine;
    match step
    case SMine(op, ok, debit, taker) => KeepMine(s, op, ok, debit, taker);
    case SBurn(op) => KeepBurn(s, op);
    case STick(time) => KeepTick(s, time);
    case SDeposit(a, amount) => KeepDeposit(s, a, amount);
  }

  lemma StepInv(s: State, step: Step)
    requires Inv(s) && Enabled(s, step)
    ensures Inv(Apply(s, step))
  {
    hide Control, Solvent, AuctionEnabled, AuctionApply, ExecutionEnabled, ExecutionApply, RecoveryEnabled,
        RecoveryApply,
      WithdrawalEnabled, WithdrawalApply, ChainEnabled, ChainApply;
    match step
    case OfAuction(a) => AuctionControl(s, a); AuctionSolvent(s, a);
    case OfExecution(e) => ExecutionControl(s, e); ExecutionSolvent(s, e);
    case OfRecovery(v) => RecoveryControl(s, v); RecoverySolvent(s, v);
    case OfWithdrawal(d) => WithdrawalControl(s, d); WithdrawalSolvent(s, d);
    case OfChain(c) => ChainControl(s, c); ChainSolvent(s, c);
  }

  /** Every state of every run, crashes between appends and restarts included, satisfies the invariant. */
  lemma {:induction false} RunInv(run: seq<State>, i: nat)
    requires Run(run) && i < |run|
    ensures Inv(run[i])
    decreases i
  {
    if i == 0 {
      InitInv(run[0]);
    } else {
      RunInv(run, i - 1);
      assert Next(run[i - 1], run[i]);
      var step :| Enabled(run[i - 1], step) && run[i] == Apply(run[i - 1], step);
      hide *;
      StepInv(run[i - 1], step);
    }
  }
}
