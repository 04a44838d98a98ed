/** The protocol's promises, over every run. A run may crash after any step and restart; a crash inside an append is such
    a run too as long as nothing is written behind the fragment (ProtocolLog). */
module ProtocolTheorems {
  import opened Types
  import opened RfqIndex
  import opened BestQuote
  import opened AuctionCore
  import opened Protocol
  import opened ProtocolInvariant
  import opened ProtocolFrame
  import opened ProtocolQuotes
  import opened ProtocolRecovery
  import opened ProtocolWithdrawals
  import opened ProtocolLifecycle
  import opened ProtocolSafety

  // ------------------------------------------------------------------ from steps to runs

  /** What holds between any two states of a run, the first one earlier. */
  ghost predicate Precedes(s: State, t: State) {
    && (forall r :: r in s.ix.rfqs ==> r in t.ix.rfqs)
    && (forall r :: r in s.ix.rfqs && s.ix.rfqs[r].status != Open ==>
          t.ix.rfqs[r].status != Open && t.ix.rfqs[r].bestQuoteId == s.ix.rfqs[r].bestQuoteId)
    && (forall r :: r in s.ix.rfqs && Terminal(s.ix.rfqs[r].status) ==> t.ix.rfqs[r] == s.ix.rfqs[r])
    && (forall q :: q in s.ix.quotes && Decided(s, s.ix.quotes[q].rfqId) ==> q in t.ix.quotes && t.ix.quotes[q] == s.ix.quotes[q])
    && (forall q :: q in t.ix.quotes && Decided(s, t.ix.quotes[q].rfqId) ==> q in s.ix.quotes)
    && Remembers(s.chain, t.chain)
  }

  predicate Decided(s: State, r: RfqId) { r in s.ix.rfqs && s.ix.rfqs[r].status != Open }

  ghost predicate Remembers(c: Chain, d: Chain) {
    && |c.broadcasts| <= |d.broadcasts| && d.broadcasts[..|c.broadcasts|] == c.broadcasts
    && (forall op :: op in c.sent ==> op in d.sent && d.sent[op].firstExpiry == c.sent[op].firstExpiry)
    && (forall op :: op in c.outcome ==> op in d.outcome && d.outcome[op] == c.outcome[op])
    && c.burned <= d.burned && c.time <= d.time
  }

  lemma GrowthRemembers(b: Chain, c: Chain, d: Chain)
    requires Remembers(b, c) && ChainGrows(c, d)
    ensures Remembers(b, d)
  {
    assert d.broadcasts[..|c.broadcasts|][..|b.broadcasts|] == d.broadcasts[..|b.broadcasts|];
  }

  lemma StepPrecedes(s: State, m: State, t: State)
    requires Precedes(s, m) && Evolves(m, t)
    ensures Precedes(s, t)
  {
    GrowthRemembers(s.chain, m.chain, t.chain);
    hide ChainGrows, Remembers;
  }

  lemma StepAt(run: seq<State>, i: nat) returns (step: Step)
    requires Run(run) && 0 < i < |run|
    ensures Inv(run[i - 1])
    ensures Enabled(run[i - 1], step) && run[i] == Apply(run[i - 1], step)
  {
    RunInv(run, i - 1);
    hide Inv, Init, Enabled, Apply;
    assert Next(run[i - 1], run[i]);
    step :| Enabled(run[i - 1], step) && run[i] == Apply(run[i - 1], step);
  }

  lemma NextEvolves(run: seq<State>, i: nat)
    requires Run(run) && 0 < i < |run|
    ensures Evolves(run[i - 1], run[i])
  {
    var step := StepAt(run, i);
    hide Run, Control, Solvent, Enabled, Apply;
    StepEvolves(run[i - 1], step);
  }

  lemma {:induction false} RunPrecedes(run: seq<State>, i: nat, j: nat)
    requires Run(run) && i <= j < |run|
    ensures Precedes(run[i], run[j])
    decreases j
  {
    if i < j {
      hide *;
      RunPrecedes(run, i, j - 1);
      NextEvolves(run, j);
      StepPrecedes(run[i], run[j - 1], run[j]);
    } else {
      hide Run;
    }
  }

  lemma RunRemembers(run: seq<State>, i: nat, j: nat)
    requires Run(run) && i <= j < |run|
    ensures Remembers(run[i].chain, run[j].chain)
  {
    RunPrecedes(run, i, j);
    hide Run, Remembers;
  }

  // ------------------------------------------------------------------ which steps touch what

  lemma AuctionKeeps(s: State, step: AuctionStep)
    requires AuctionEnabled(s, step)
    ensures AuctionApply(s, step).chain == s.chain && AuctionApply(s, step).latches == s.latches
  {
    hide AccountFree, ReservedFor, Cash, SelectBest, ListQuotes, PriorQuotes, Live, Beats, ClosedRecord,
        ClosedReservations;
  }

  lemma ExecutionKeeps(s: State, step: ExecutionStep)
    requires ExecutionEnabled(s, step)
    ensures ExecutionApply(s, step).chain.outcome == s.chain.outcome
    ensures !step.SBroadcast? ==> ExecutionApply(s, step).chain == s.chain
    ensures step.SBroadcast? ==> CanBroadcast(s, step.r) && ExecutionApply(s, step) == Broadcast(s, step.r)
    ensures !(step.SRelease? && s.sections[step.r].clear) ==> s.latches <= ExecutionApply(s, step).latches
    ensures step.SRelease? ==> CanRelease(s, step.r) && s.latches - {OpLatch(RfqOp(step.r))} <= ExecutionApply(s, step).latches
    ensures step.SRelease? ==> ExecutionApply(s, step).ix == s.ix
  {
    hide AccountFree, RfqPayload, MinedRecord, ExpiredRecord, ReopenedRecord, HashedRecord, ExecutingRecord;
  }

  lemma RecoverKeeps(s: State, r: RfqId)
    requires CanRecover(s, r)
    ensures Recover(s, r).chain == s.chain && s.latches <= Recover(s, r).latches
  {
    hide ReserveAll, ReserveWinner;
  }

  lemma RecoveryKeeps(s: State, step: RecoveryStep)
    requires RecoveryEnabled(s, step)
    ensures RecoveryApply(s, step).chain == s.chain
    ensures step.SCrash? ==> RecoveryApply(s, step) == Crash(s)
    ensures !step.SCrash? && !step.SReconClear? ==> s.latches <= RecoveryApply(s, step).latches
    ensures step.SReconClear? ==> CanReconClear(s, step.r) && RecoveryApply(s, step).ix == s.ix
    ensures step.SReconClear? ==> forall op :: OpLatch(op) in s.latches && op != RfqOp(step.r) ==> OpLatch(op) in RecoveryApply(s, step).latches
  {
    hide Recover, MinedRecord, UnusedRecord;
    if step.SRecover? { RecoverKeeps(s, step.r); }
  }

  lemma ReconcileKeeps(s: State, w: WId, look: Look)
    requires CanWReconcile(s, w, look)
    ensures WReconcile(s, w, look).chain == s.chain
    ensures forall op :: OpLatch(op) in s.latches && OpLatch(op) !in WReconcile(s, w, look).latches ==>
              op == WdOp(w) && w in WReconcile(s, w, look).wds && !Unsettled(WReconcile(s, w, look).wds[w].status)
  {
    hide NonceUsed, Traffic;
  }

  lemma WithdrawalKeeps(s: State, step: WithdrawalStep)
    requires WithdrawalEnabled(s, step)
    ensures WithdrawalApply(s, step).chain.outcome == s.chain.outcome
    ensures !step.SWBroadcast? ==> WithdrawalApply(s, step).chain == s.chain
    ensures step.SWBroadcast? ==> CanWBroadcast(s, step.w) && WithdrawalApply(s, step) == WBroadcast(s, step.w)
    ensures !step.SWClear? && !step.SWReconcile? ==> s.latches <= WithdrawalApply(s, step).latches
    ensures step.SWClear? ==> CanWClear(s, step.w) && WithdrawalApply(s, step).wds == s.wds
    ensures step.SWClear? ==> s.latches - {OpLatch(WdOp(step.w))} <= WithdrawalApply(s, step).latches
    ensures step.SWReconcile? ==> CanWReconcile(s, step.w, step.look) && WithdrawalApply(s, step) == WReconcile(s, step.w, step.look)
  {
    hide WReconcile, CanWReconcile, AccountFree, ReservedFor, Cash;
    if step.SWReconcile? { ReconcileLeavesLog(s, step.w, step.look); }
  }

  lemma ChainKeeps(s: State, step: ChainStep)
    requires ChainEnabled(s, step)
    ensures ChainApply(s, step).chain.broadcasts == s.chain.broadcasts && ChainApply(s, step).latches == s.latches
    ensures ChainApply(s, step).chain.sent == s.chain.sent
    ensures !step.SMine? ==> ChainApply(s, step).chain.outcome == s.chain.outcome
    ensures step.SMine? ==> CanMine(s, step.op, step.ok, step.debit)
    ensures step.SMine? ==> ChainApply(s, step).chain.outcome == s.chain.outcome[step.op := step.ok]
  {
    hide Mine;
    if step.SMine? { MineKeeps(s, step.op, step.ok, step.debit, step.taker_); }
  }

  lemma MineKeeps(s: State, op: OpId, ok: bool, debit: nat, taker: int)
    requires CanMine(s, op, ok, debit)
    ensures Mine(s, op, ok, debit, taker).chain.broadcasts == s.chain.broadcasts && Mine(s, op, ok, debit, taker).latches == s.latches
    ensures Mine(s, op, ok, debit, taker).chain.sent == s.chain.sent
    ensures Mine(s, op, ok, debit, taker).chain.outcome == s.chain.outcome[op := ok]
  {
    hide Cash, Leaked, InFlight;
  }

  // ------------------------------------------------------------------ at most one broadcast

  /** The step from s to t broadcasts op. */
  ghost predicate Broadcasts(s: State, t: State, op: OpId) {
    |t.chain.broadcasts| == |s.chain.broadcasts| + 1 && t.chain.broadcasts[|s.chain.broadcasts|] == op
  }

  lemma HistoryAt(run: seq<State>, i: nat)
    requires Run(run) && i < |run|
    ensures History(run[i]) && QueueOk(run[i])
  {
    RunInv(run, i);
    hide Run, Solvent, RfqHere, WithdrawalHere, Books, QueueOk, Orphans, Exclusive;
  }

  /** An RFQ or a withdrawal is broadcast by at most one step of a run, however often the engine
      crashes, restarts and is asked again. */
  lemma BroadcastAtMostOnce(run: seq<State>, i: nat, j: nat, op: OpId)
    requires Run(run) && 0 < i < j < |run|
    requires Broadcasts(run[i - 1], run[i], op)
    ensures !Broadcasts(run[j - 1], run[j], op)
  {
    hide *;
    HistoryAt(run, j);
    RunRemembers(run, i, j - 1);
    RunRemembers(run, j - 1, j);
    NoRepeat(run[i - 1], run[i], run[j - 1], run[j], op);
  }

  lemma NoRepeat(s: State, t: State, u: State, v: State, op: OpId)
    requires Broadcasts(s, t, op) && Remembers(t.chain, u.chain) && Remembers(u.chain, v.chain) && History(v)
    ensures !Broadcasts(u, v, op)
  {
    var a, b, c, d := s.chain, t.chain, u.chain, v.chain;
    var n := |a.broadcasts|;
    assert c.broadcasts[n] == c.broadcasts[..|b.broadcasts|][n] == b.broadcasts[n];
    assert |d.broadcasts| > |c.broadcasts| ==> d.broadcasts[n] == d.broadcasts[..|c.broadcasts|][n];
  }

  /** What is broadcast was first made durable: an executing RFQ with its intent and its stored
      winner, or a submitting withdrawal; and no latch was set. */
  ghost predicate Durable(s: State, op: OpId) {
    match op
    case RfqOp(r) => RfqHas(s, r, Executing) && s.ix.rfqs[r].executionIntent.Some? && HasWinner(s, r)
    case WdOp(w) => WHas(s, w, WSubmitting)
  }

  lemma BroadcastStepFacts(s: State, step: Step, op: OpId)
    requires Control(s) && Enabled(s, step) && Broadcasts(s, Apply(s, step), op)
    ensures Durable(s, op) && forall o :: o in s.chain.sent ==> Resolved(s.chain, o)
  {
    hide Control, AuctionApply, AuctionEnabled, ExecutionApply, ExecutionEnabled, RecoveryApply, RecoveryEnabled,
      WithdrawalApply, WithdrawalEnabled, ChainApply, ChainEnabled;
    match step
    case OfAuction(a) => AuctionKeeps(s, a);
    case OfExecution(e) => ExecutionKeeps(s, e); if e.SBroadcast? { RfqBroadcastFacts(s, e.r); }
    case OfRecovery(v) => RecoveryKeeps(s, v);
    case OfWithdrawal(d) => WithdrawalKeeps(s, d); if d.SWBroadcast? { WdBroadcastFacts(s, d.w); }
    case OfChain(c) => ChainKeeps(s, c);
  }

  lemma RfqBroadcastFacts(s: State, r: RfqId)
    requires Control(s) && CanBroadcast(s, r)
    ensures Durable(s, RfqOp(r)) && forall o :: o in s.chain.sent ==> Resolved(s.chain, o)
  {
    hide Control;
    SectionHere(s, r);
    hide RfqHere;
    AllSettled(s);
  }

  lemma WdBroadcastFacts(s: State, w: WId)
    requires Control(s) && CanWBroadcast(s, w)
    ensures Durable(s, WdOp(w)) && forall o :: o in s.chain.sent ==> Resolved(s.chain, o)
  {
    hide Control;
    Here(s, w);
  }

  ghost predicate AllResolved(c: Chain) { forall o :: o in c.broadcasts ==> Resolved(c, o) }

  /** Fail-closed: when a broadcast starts, its record is durable and every earlier broadcast has a
      canonical receipt or can no longer succeed. */
  lemma BroadcastIsGuarded(run: seq<State>, i: nat, op: OpId)
    requires Run(run) && 0 < i < |run| && Broadcasts(run[i - 1], run[i], op)
    ensures Durable(run[i - 1], op)
    ensures AllResolved(run[i - 1].chain)
  {
    var step := StepAt(run, i);
    HistoryAt(run, i - 1);
    hide Run, Control, Solvent, Enabled, Apply, QueueOk, Resolved;
    BroadcastStepFacts(run[i - 1], step, op);
  }

  /** "Can no longer succeed" is final. */
  lemma NeverIsNever(s: State, step: Step, op: OpId)
    requires Enabled(s, step) && ChainGrows(s.chain, Apply(s, step).chain)
    requires NeverSucceeds(s.chain, op) && !Succeeded(s.chain, op)
    ensures NeverSucceeds(Apply(s, step).chain, op) && !Succeeded(Apply(s, step).chain, op)
  {
    hide AuctionApply, AuctionEnabled, ExecutionApply, ExecutionEnabled, RecoveryApply, RecoveryEnabled,
      WithdrawalApply, WithdrawalEnabled, ChainApply, ChainEnabled;
    match step
    case OfAuction(a) => AuctionKeeps(s, a);
    case OfExecution(e) => ExecutionKeeps(s, e);
    case OfRecovery(v) => RecoveryKeeps(s, v);
    case OfWithdrawal(d) => WithdrawalKeeps(s, d);
    case OfChain(c) => ChainKeeps(s, c);
  }

  lemma {:induction false} ResolvedIsFinal(run: seq<State>, i: nat, j: nat, op: OpId)
    requires Run(run) && i <= j < |run| && Resolved(run[i].chain, op) && !Succeeded(run[i].chain, op)
    ensures !Succeeded(run[j].chain, op) && NeverSucceeds(run[j].chain, op)
    decreases j
  {
    if i < j {
      hide *;
      ResolvedIsFinal(run, i, j - 1, op);
      NextNever(run, j, op);
    } else {
      hide Run;
    }
  }

  lemma NextNever(run: seq<State>, j: nat, op: OpId)
    requires Run(run) && 0 < j < |run| && NeverSucceeds(run[j - 1].chain, op) && !Succeeded(run[j - 1].chain, op)
    ensures NeverSucceeds(run[j].chain, op) && !Succeeded(run[j].chain, op)
  {
    var step := StepAt(run, j);
    NextEvolves(run, j);
    hide Run, Enabled, Apply, NeverSucceeds, ChainGrows, RecordsEvolve, QuotesFreeze, Inv, ReopensUnsent, Succeeded;
    NeverIsNever(run[j - 1], step, op);
  }

  // ------------------------------------------------------------------ unknown outcomes stay latched

  /** A durable operation without an outcome, which no handler and no recovery is working on. */
  predicate Ambiguous(s: State, op: OpId) {
    match op
    case RfqOp(r) => RfqHas(s, r, Executing) && r !in s.recovering && !ActiveAt(s, r)
    case WdOp(w) => w in s.wds && Unsettled(s.wds[w].status) && w !in s.wrecovering && w !in s.wsubs
  }

  lemma AmbiguousLatched(s: State, op: OpId)
    requires Control(s) && Ambiguous(s, op)
    ensures OpLatch(op) in s.latches
  {
    match op
    case RfqOp(r) => Unfold(s, r); hide Control, RfqOk, SectionOk, ReconOk, ReservedAt, Globals, Books, History, QueueOk, Orphans, Exclusive;
    case WdOp(w) => Here(s, w); hide Control, QueueOk, SubmissionOk;
  }

  /** Its own latch is set, so nothing can be broadcast past it. */
  lemma AmbiguousBlocks(run: seq<State>, i: nat, op: OpId)
    requires Run(run) && i < |run| && Ambiguous(run[i], op)
    ensures OpLatch(op) in run[i].latches
    ensures forall r :: !CanBroadcast(run[i], r)
    ensures forall w :: !CanWEnter(run[i], w)
  {
    RunInv(run, i);
    hide Run, Control, Solvent;
    AmbiguousLatched(run[i], op);
  }

  predicate Settled(s: State, op: OpId) {
    match op
    case RfqOp(r) => RfqHas(s, r, Executed) || RfqHas(s, r, Failed)
    case WdOp(w) => w in s.wds && !Unsettled(s.wds[w].status)
  }

  lemma LatchSteps(s: State, step: Step, op: OpId)
    requires Control(s) && Enabled(s, step) && OpLatch(op) in s.latches && OpLatch(op) !in Apply(s, step).latches
    ensures Apply(s, step) == Crash(s) || Settled(Apply(s, step), op)
  {
    hide Control, AuctionApply, AuctionEnabled, ExecutionApply, ExecutionEnabled, RecoveryApply, RecoveryEnabled,
      WithdrawalApply, WithdrawalEnabled, ChainApply, ChainEnabled, Crash, WReconcile, CanWReconcile;
    match step
    case OfAuction(a) => AuctionKeeps(s, a);
    case OfExecution(e) => ExecutionKeeps(s, e); if e.SRelease? && s.sections[e.r].clear { ReleasedRecord(s, e.r); }
    case OfRecovery(v) => RecoveryKeeps(s, v); if v.SReconClear? { ClearedRecord(s, v.r); }
    case OfWithdrawal(d) =>
      WithdrawalKeeps(s, d);
      if d.SWClear? { ClearedWithdrawal(s, d.w); }
      if d.SWReconcile? { ReconcileKeeps(s, d.w, d.look); }
    case OfChain(c) => ChainKeeps(s, c);
  }

  /** Short of a crash, a latch is lifted only once the terminal record is in the log. */
  lemma LatchOutlivesDoubt(run: seq<State>, i: nat, op: OpId)
    requires Run(run) && 0 < i < |run|
    requires OpLatch(op) in run[i - 1].latches && OpLatch(op) !in run[i].latches
    ensures run[i] == Crash(run[i - 1]) || Settled(run[i], op)
  {
    var step := StepAt(run, i);
    hide Run, Control, Solvent, Enabled, Apply, Settled, Crash;
    LatchSteps(run[i - 1], step, op);
  }

  lemma ReleasedRecord(s: State, r: RfqId)
    requires Control(s) && CanRelease(s, r) && s.sections[r].clear
    ensures RfqHas(s, r, Executed) || RfqHas(s, r, Failed)
  {
    hide Control, SectionOk, RfqOk, RfqHere;
    SectionHere(s, r);
    RecordOk(s, r);
    ReceiptsAreSent(s);
    ReleasedIs(s, r);
  }

  lemma ReleasedIs(s: State, r: RfqId)
    requires CanRelease(s, r) && s.sections[r].clear && SectionOk(s, r) && RfqOk(s, r)
    requires forall op :: op in s.chain.outcome ==> op in s.chain.sent
    ensures RfqHas(s, r, Executed) || RfqHas(s, r, Failed)
  {
    hide WinnerOk, RfqPayload;
  }

  lemma RecordOk(s: State, r: RfqId)
    requires Control(s) && r in s.ix.rfqs
    ensures RfqOk(s, r) && s.ix.rfqs[r].id == r
  {
    Unfold(s, r);
    hide Control, RfqOk, SectionOk, ReconOk, RfqLatched, ReservedAt, Globals, Books, History, QueueOk, Orphans,
        Exclusive;
  }

  lemma ReceiptsAreSent(s: State)
    requires Control(s)
    ensures forall op :: op in s.chain.outcome ==> op in s.chain.sent
  {
    hide RfqHere, WithdrawalHere, Books, QueueOk, Orphans, Exclusive;
  }

  lemma ClearedRecord(s: State, r: RfqId)
    requires Control(s) && CanReconClear(s, r)
    ensures RfqHas(s, r, Executed) || RfqHas(s, r, Failed)
  {
    ReconHere(s, r);
  }

  lemma ClearedWithdrawal(s: State, w: WId)
    requires Control(s) && CanWClear(s, w)
    ensures !Unsettled(s.wds[w].status)
  {
    Here(s, w);
    hide Control, QueueOk;
  }

  // ------------------------------------------------------------------ the life of an RFQ

  lemma RfqFacts(run: seq<State>, i: nat, r: RfqId)
    requires Run(run) && i < |run| && r in run[i].ix.rfqs
    ensures RfqOk(run[i], r) && run[i].ix.rfqs[r].id == r
  {
    RunInv(run, i);
    hide Run, Control, Solvent, RfqOk;
    RecordOk(run[i], r);
  }

  /** Expired, executed and failed records never change again. */
  lemma TerminalIsFinal(run: seq<State>, i: nat, j: nat, r: RfqId)
    requires Run(run) && i <= j < |run| && r in run[i].ix.rfqs && Terminal(run[i].ix.rfqs[r].status)
    ensures r in run[j].ix.rfqs && run[j].ix.rfqs[r] == run[i].ix.rfqs[r]
  {
    RunPrecedes(run, i, j);
  }

  /** The winner of a closed auction is fixed: the same stored quote at every later time, and
      none of the quotes stored for that RFQ, then or later, beats it. */
  lemma WinnerIsFinal(run: seq<State>, i: nat, j: nat, r: RfqId)
    requires Run(run) && i <= j < |run| && r in run[i].ix.rfqs
    requires run[i].ix.rfqs[r].status == Closed || Accepted(run[i].ix.rfqs[r].status)
    ensures HasWinner(run[i], r) && HasWinner(run[j], r)
    ensures WinnerId(run[j], r) == WinnerId(run[i], r) && WinnerQuote(run[j], r) == WinnerQuote(run[i], r)
    ensures WinnerQuote(run[j], r).rfqId == r
    ensures forall q :: q in run[j].ix.quotes && run[j].ix.quotes[q].rfqId == r ==>
              q in run[i].ix.quotes && !Beats(run[j].ix.quotes[q], WinnerQuote(run[j], r))
  {
    RfqFacts(run, i, r);
    RunPrecedes(run, i, j);
    RfqFacts(run, j, r);
    hide Run, Beats, Remembers;
  }

  /** Acceptance and the deadline never both win: what was broadcast never expires, and what
      expired is never broadcast. */
  lemma AcceptOrExpire(run: seq<State>, i: nat, j: nat, r: RfqId)
    requires Run(run) && i < |run| && j < |run|
    requires RfqOp(r) in run[i].chain.broadcasts
    ensures !RfqHas(run[j], r, Expired)
  {
    HistoryAt(run, i);
    HistoryAt(run, j);
    if RfqHas(run[j], r, Expired) {
      if i <= j {
        RunPrecedes(run, i, j);
        RfqFacts(run, j, r);
      } else {
        RunPrecedes(run, j, i);
        RfqFacts(run, i, r);
      }
    }
  }

  /** From executing an RFQ returns to closed only if it was not broadcast. */
  lemma ReopenedUnsent(run: seq<State>, i: nat, r: RfqId)
    requires Run(run) && 0 < i < |run| && RfqHas(run[i - 1], r, Executing) && RfqHas(run[i], r, Closed)
    ensures RfqOp(r) !in run[i].chain.broadcasts
  {
    NextEvolves(run, i);
    HistoryAt(run, i);
  }

  /** Every step follows the lifecycle open, closed, executing, and so on. */
  lemma LifecycleEdges(run: seq<State>, i: nat, r: RfqId)
    requires Run(run) && 0 < i < |run| && r in run[i - 1].ix.rfqs
    ensures r in run[i].ix.rfqs && Edge(run[i - 1].ix.rfqs[r].status, run[i].ix.rfqs[r].status)
  {
    NextEvolves(run, i);
  }

  /** The persisted call data of two RFQs is the same: both sides signed the very same actions for both. */
  predicate SameCallData(s: State, r: RfqId, x: RfqId) {
    && r in s.ix.rfqs && s.ix.rfqs[r].executionIntent.Some? && x in s.ix.rfqs && s.ix.rfqs[x].executionIntent.Some?
    && s.ix.rfqs[r].executionIntent.value.calldataHash == s.ix.rfqs[x].executionIntent.value.calldataHash
  }

  /** No two RFQs carry the same call data. */
  ghost predicate DistinctCallData(s: State) {
    forall r, x :: SameCallData(s, r, x) ==> r == x
  }

  lemma WhoseData(s: State, h: Hash)
    requires Control(s) && ExecutedData(s.chain, h)
    ensures exists x :: x in s.ix.rfqs && s.ix.rfqs[x].executionIntent.Some?
                        && s.ix.rfqs[x].executionIntent.value.calldataHash == h && Succeeded(s.chain, RfqOp(x))
  {
    var op :| op in s.chain.sent && s.chain.sent[op].data == Some(h) && Succeeded(s.chain, op);
    KnownOps(s, op);
    match op {
      case WdOp(w) => NoData(s, w);
      case RfqOp(x) => RecordOk(s, x); hide Control;
    }
  }

  lemma KnownOps(s: State, op: OpId)
    requires Control(s) && op in s.chain.sent
    ensures Known(s, op)
  {
    hide RfqHere, WithdrawalHere, Books, QueueOk, Orphans, Exclusive;
  }

  lemma NoData(s: State, w: WId)
    requires Control(s) && w in s.wds && WdOp(w) in s.chain.sent
    ensures s.chain.sent[WdOp(w)].data == None
  {
    Here(s, w);
    hide Control, QueueOk;
  }

  lemma ExecutedTruth(s: State, r: RfqId)
    requires Control(s) && RfqHas(s, r, Executed)
    ensures s.ix.rfqs[r].executionIntent.Some? && ExecutedData(s.chain, s.ix.rfqs[r].executionIntent.value.calldataHash)
    ensures Resolved(s.chain, RfqOp(r)) && (DistinctCallData(s) ==> Succeeded(s.chain, RfqOp(r)))
  {
    hide Control, WinnerOk, ExecutedData;
    RecordOk(s, r);
    var h := s.ix.rfqs[r].executionIntent.value.calldataHash;
    WhoseData(s, h);
    var x :| x in s.ix.rfqs && s.ix.rfqs[x].executionIntent.Some?
             && s.ix.rfqs[x].executionIntent.value.calldataHash == h && Succeeded(s.chain, RfqOp(x));
    assert SameCallData(s, r, x);
  }

  /** Records tell the truth: executed means that a transaction with exactly this call data succeeded and the RFQ's
      own broadcast did or cannot any more; failed means that its own never does; and a success is never filed as
      anything but executing or executed. When no other RFQ carries its call data, that transaction is its own. */
  lemma RecordsAreTrue(run: seq<State>, i: nat, j: nat, r: RfqId)
    requires Run(run) && i <= j < |run|
    ensures RfqHas(run[i], r, Executed) ==>
              && run[i].ix.rfqs[r].executionIntent.Some?
              && ExecutedData(run[i].chain, run[i].ix.rfqs[r].executionIntent.value.calldataHash)
              && Resolved(run[i].chain, RfqOp(r))
    ensures RfqHas(run[i], r, Executed) && DistinctCallData(run[i]) ==> Succeeded(run[i].chain, RfqOp(r))
    ensures RfqHas(run[i], r, Failed) ==> !Succeeded(run[j].chain, RfqOp(r))
    ensures Succeeded(run[i].chain, RfqOp(r)) ==> RfqHas(run[i], r, Executing) || RfqHas(run[i], r, Executed)
  {
    hide Run, Control, Solvent, QueueOk, WinnerOk, RfqPayload, ExecutedData, DistinctCallData;
    HistoryAt(run, i);
    RunPrecedes(run, i, j);
    if r in run[i].ix.rfqs {
      RfqFacts(run, i, r);
      RfqFacts(run, j, r);
      if RfqHas(run[i], r, Executed) {
        RunInv(run, i);
        ExecutedTruth(run[i], r);
      }
    } else {
      assert !Known(run[i], RfqOp(r));
    }
  }

  // ------------------------------------------------------------------ reservations

  /** No locked section runs, no reconciliation is between its record and its release, and
      recovery is complete. */
  predicate Quiet(s: State) {
    s.sections == map[] && (forall r :: r in s.recons ==> !s.recons[r].Clearing?) && s.recovering == {}
  }

  /** Nothing is about to be released or reserved. */
  lemma QuietBooks(s: State)
    requires Control(s) && Quiet(s)
    ensures forall q :: q in s.reservations ==> q in s.ix.quotes
    ensures forall q :: q in s.ix.quotes ==> s.ix.quotes[q].rfqId in s.ix.rfqs
  {
    assert forall r, q :: !ReleasePending(s, r, q);
    hide RfqHere, WithdrawalHere, WellFormed, History, QueueOk, Exclusive, ReleasePending;
  }

  lemma QuietReservation(s: State, q: QuoteId)
    requires Quiet(s) && q in s.ix.quotes && ReservedAt(s, s.ix.quotes[q].rfqId)
    ensures Live(s.ix, q) <==> q in s.reservations
    ensures q in s.reservations ==> s.reservations[q] == Reserve(s.ix.quotes[q])
  {
    hide Live;
  }

  lemma QuietReservations(s: State)
    requires Control(s) && Quiet(s)
    ensures s.reservations == ReservationsOf(s.ix)
  {
    hide Control, Quiet, Live, ReservedAt;
    QuietBooks(s);
    forall q | q in s.ix.quotes ensures Live(s.ix, q) <==> q in s.reservations
      ensures q in s.reservations ==> s.reservations[q] == Reserve(s.ix.quotes[q]) {
      ReservedOf(s, s.ix.quotes[q].rfqId);
      QuietReservation(s, q);
    }
  }

  lemma ReservedOf(s: State, r: RfqId)
    requires Control(s) && r in s.ix.rfqs
    ensures ReservedAt(s, r)
  {
    Unfold(s, r);
    hide Control;
    ReservedHere(s, r);
  }

  /** Between locked sections the reservation map is a function of the store. */
  lemma ReservationsMatchStore(run: seq<State>, i: nat)
    requires Run(run) && i < |run| && Quiet(run[i])
    ensures run[i].reservations == ReservationsOf(run[i].ix)
  {
    RunInv(run, i);
    hide Run, Control, Solvent, Quiet, ReservationsOf;
    QuietReservations(run[i]);
  }

  /** Inside them too, a live quote is reserved, but for the tick in which it is being stored. */
  lemma LiveIsReserved(run: seq<State>, i: nat, q: QuoteId)
    requires Run(run) && i < |run| && q in run[i].ix.quotes && Live(run[i].ix, q)
    requires run[i].ix.quotes[q].rfqId !in run[i].recovering && !ReservePending(run[i], q)
    ensures q in run[i].reservations && run[i].reservations[q] == Reserve(run[i].ix.quotes[q])
  {
    RunInv(run, i);
    hide Run, Solvent, Control;
    ReservedOf(run[i], run[i].ix.quotes[q].rfqId);
  }

  /** An undecided execution keeps its winner's cash reserved: the reservation ends with the record. */
  lemma ExecutingIsReserved(run: seq<State>, i: nat, r: RfqId)
    requires Run(run) && i < |run| && RfqHas(run[i], r, Executing) && r !in run[i].recovering
    ensures HasWinner(run[i], r) && WinnerId(run[i], r) in run[i].reservations
    ensures run[i].reservations[WinnerId(run[i], r)] == Reserve(WinnerQuote(run[i], r))
  {
    RfqFacts(run, i, r);
    RunInv(run, i);
    hide Run, Solvent, Control;
    var q := WinnerId(run[i], r);
    assert Live(run[i].ix, q);
    if r in run[i].sections { SectionHere(run[i], r); }
    ReservedOf(run[i], r);
  }
}
