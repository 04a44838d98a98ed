/** The protocol over its two log files. Protocol.Crash keeps what was written; here a crash may also cut an append, and
    what is written behind a fragment is lost at the next restart. As long as nothing is, the engine's states are states
    of a run of the protocol, so everything proved of those holds; otherwise an RFQ can be broadcast twice. */
module ProtocolLog {
  import opened Types
  import opened RfqIndex
  import opened AuctionCore
  import opened BestQuote
  import opened LogFile
  import opened RfqStore
  import opened Protocol
  import opened ProtocolInvariant
  import opened ProtocolSafety
  import Paths
  import P = ProtocolPaths
  import ProtocolWithdrawals

  type Wds = map<WId, Withdrawal>

  datatype World = World(s: State, rfqLog: Reloaded<Index>, wdLog: Reloaded<Wds>)

  // ------------------------------------------------------------------ what a step appends

  function AdmitWrite(draft: Quote, todo: seq<QuoteId>, id: QuoteId): Record {
    if todo == [] then QuoteRecord(draft.(id := id)) else QuoteDeleted(todo[0])
  }

  function AuctionWrite(s: State, step: AuctionStep): Option<Record> {
    match step
    case SOpenRfq(rfq) => Some(RfqRecord(rfq))
    case SQuoteAdmit(r, id) =>
      if r in s.sections && s.sections[r].Validated? then Some(AdmitWrite(s.sections[r].draft, s.sections[r].todo,
        id)) else None
    case SQuoteDrop(r, id) =>
      if r in s.sections && s.sections[r].Dropping? then Some(AdmitWrite(s.sections[r].draft, s.sections[r].todo,
        id)) else None
    case SCancel(q) => Some(QuoteDeleted(q))
    case SClose(r, deadline) =>
      if r in s.ix.rfqs then Some(RfqRecord(ClosedRecord(s.ix.rfqs[r], SelectBest(ListQuotes(s.ix, r)),
        deadline))) else None
    case SExpire(r) => if r in s.ix.rfqs then Some(RfqRecord(ExpiredRecord(s.ix.rfqs[r]))) else None
    case _ => None
  }

  function ExecutionWrite(s: State, step: ExecutionStep): Option<Record> {
    if step.r !in s.ix.rfqs then None
    else
      var rfq := s.ix.rfqs[step.r];
      match step
      case SAcceptExpire(_) => Some(RfqRecord(ExpiredRecord(rfq)))
      case SAcceptCommit(_, intent) => Some(RfqRecord(ExecutingRecord(rfq, intent)))
      case SRefuse(_) => Some(RfqRecord(ReopenedRecord(rfq)))
      case SHash(_, hash) => if rfq.executionIntent.Some? then Some(RfqRecord(HashedRecord(rfq, hash))) else None
      case SLose(_) => Some(RfqRecord(rfq.(error := Some("execution outcome unresolved"))))
      case SSettle(r, hash) =>
        if rfq.executionIntent.Some? && r in s.sections && s.sections[r].Mined?
        then Some(RfqRecord(MinedRecord(rfq, hash, s.sections[r].ok, None))) else None
      case _ => None
  }

  function RecoveryWrite(s: State, step: RecoveryStep): Option<Record> {
    match step
    case SReconPut(r, hash) =>
      if CanReconPut(s, r) then
        match s.recons[r].answer
        case AnswerMined(ok) => Some(RfqRecord(MinedRecord(s.ix.rfqs[r], hash, ok, None)))
        case AnswerExpiredUnused => Some(RfqRecord(UnusedRecord(s.ix.rfqs[r])))
      else None
    case _ => None
  }

  /** The record that a step appends to the RFQ log. */
  function RfqWrite(s: State, step: Step): Option<Record> {
    match step
    case OfAuction(a) => AuctionWrite(s, a)
    case OfExecution(e) => ExecutionWrite(s, e)
    case OfRecovery(v) => RecoveryWrite(s, v)
    case _ => None
  }

  /** The withdrawal whose record a step appends to the withdrawal log. */
  function WdWrite(s: State, step: Step): Option<WId> {
    if !step.OfWithdrawal? then None
    else
      match step.d
      case SPrepare(w, _) => Some(w)
      case SWExpire(w) => Some(w)
      case SSubmit(w) => Some(w)
      case SFindBurned(w) => Some(w)
      case SWRefuse(w) => Some(w)
      case SReject(w) => Some(w)
      case SWHash(w) => Some(w)
      case SWLose(w) => Some(w)
      case SWSettle(w) => Some(w)
      case SWReconcile(w, look) => if look.receipt || !WHas(s, w, WSubmitted) then Some(w) else None
      case _ => None
  }

  lemma AdmitWrites(s: State, r: RfqId, draft: Quote, todo: seq<QuoteId>, id: QuoteId)
    ensures var t := AdmitNext(s, r, draft, todo, id);
            t.ix == ApplyRecord(s.ix, AdmitWrite(draft, todo, id)) && t.wds == s.wds
  {
    hide RfqIndex.PutQuote, RfqIndex.DeleteQuote;
  }

  lemma CloseWrites(s: State, r: RfqId, deadline: int)
    requires CanClose(s, r)
    ensures var t, w := Close(s, r, deadline), AuctionWrite(s, SClose(r, deadline));
            w.Some? && t.ix == ApplyRecord(s.ix, w.value) && t.wds == s.wds
  {
    hide SelectBest, ListQuotes, ClosedReservations, ClosedRecord;
  }

  lemma AuctionWrites(s: State, step: AuctionStep)
    requires AuctionEnabled(s, step)
    ensures var w, t := AuctionWrite(s, step), AuctionApply(s, step);
            t.ix == (if w.Some? then ApplyRecord(s.ix, w.value) else s.ix) && t.wds == s.wds
  {
    hide AccountFree, ReservedFor, Cash, SelectBest, ListQuotes, PriorQuotes, Close, CanClose, AdmitNext, AdmitWrite;
    hide RfqIndex.PutQuote, RfqIndex.DeleteQuote, Traffic;
    match step
    case SQuoteAdmit(r, id) => AdmitWrites(s, r, s.sections[r].draft, s.sections[r].todo, id);
    case SQuoteDrop(r, id) =>
      AdmitWrites(s.(reservations := s.reservations - {s.sections[r].cur}), r, s.sections[r].draft,
        s.sections[r].todo, id);
    case SClose(r, deadline) => CloseWrites(s, r, deadline); hide AuctionWrite;
    case _ =>
  }

  lemma ExecutionWrites(s: State, step: ExecutionStep)
    requires ExecutionEnabled(s, step)
    ensures var w, t := ExecutionWrite(s, step), ExecutionApply(s, step);
            t.ix == (if w.Some? then ApplyRecord(s.ix, w.value) else s.ix) && t.wds == s.wds
  {
    hide AccountFree, RfqPayload;
  }

  lemma RecoveryWrites(s: State, step: RecoveryStep)
    requires RecoveryEnabled(s, step)
    ensures var w, t := RecoveryWrite(s, step), RecoveryApply(s, step);
            t.ix == (if w.Some? then ApplyRecord(s.ix, w.value) else s.ix) && t.wds == s.wds
  {
    hide ReserveAll, ReserveWinner, MinedCallData;
  }

  lemma ReconcileWrites(s: State, w: WId, look: Look)
    requires CanWReconcile(s, w, look)
    ensures var t := WReconcile(s, w, look);
            && t.ix == s.ix && w in t.wds && t.wds == s.wds[w := t.wds[w]]
            && (!look.receipt && WHas(s, w, WSubmitted) ==> t.wds == s.wds)
  {
    hide WReconcile;
    ProtocolWithdrawals.ReconcileShape(s, w, look);
    if !look.receipt && WHas(s, w, WSubmitted) { Unanswered(s, w, look); }
  }

  lemma Unanswered(s: State, w: WId, look: Look)
    requires CanWReconcile(s, w, look) && !look.receipt && WHas(s, w, WSubmitted)
    ensures WReconcile(s, w, look).wds == s.wds
  {
    assert s.wds[w := s.wds[w].(status := WSubmitted)] == s.wds;
  }

  lemma WithdrawalWrites(s: State, step: WithdrawalStep)
    requires WithdrawalEnabled(s, step)
    ensures var w, t := WdWrite(s, OfWithdrawal(step)), WithdrawalApply(s, step);
            t.ix == s.ix && (w.Some? ==> w.value in t.wds)
              && t.wds == (if w.Some? then s.wds[w.value := t.wds[w.value]] else s.wds)
  {
    hide AccountFree, ReservedFor, Cash, WReconcile, CanWReconcile, WHas, Traffic;
    if step.SWReconcile? { ReconcileWrites(s, step.w, step.look); }
  }

  /** A step changes each log's index by the record it appends, and only so. */
  lemma StepWrites(s: State, step: Step)
    requires Enabled(s, step)
    ensures var r, w, t := RfqWrite(s, step), WdWrite(s, step), Apply(s, step);
            && t.ix == (if r.Some? then ApplyRecord(s.ix, r.value) else s.ix)
            && (w.Some? ==> w.value in t.wds) && t.wds == (if w.Some? then s.wds[w.value := t.wds[w.value]] else s.wds)
  {
    hide AuctionWrite, ExecutionWrite, RecoveryWrite, ApplyRecord, AuctionApply, AuctionEnabled, ExecutionApply,
      ExecutionEnabled, RecoveryApply,
      RecoveryEnabled, WithdrawalApply, WithdrawalEnabled, ChainEnabled;
    match step
    case OfAuction(a) => AuctionWrites(s, a);
    case OfExecution(e) => ExecutionWrites(s, e);
    case OfRecovery(v) => RecoveryWrites(s, v);
    case OfWithdrawal(d) => WithdrawalWrites(s, d);
    case OfChain(c) =>
  }

  // ------------------------------------------------------------------ the system with its files

  /** A step of the protocol, a crash inside its append, or a restart. */
  datatype Event = Does(step: Step) | Tears(step: Step, complete: bool) | Restarts

  predicate IsCrash(step: Step) { step.OfRecovery? && step.v.SCrash? }

  ghost predicate Occurs(v: World, e: Event) {
    match e
    case Does(step) => Enabled(v.s, step) && !IsCrash(step)
    case Tears(step, _) => Enabled(v.s, step) && (RfqWrite(v.s, step).Some? || WdWrite(v.s, step).Some?)
    case Restarts => true
  }

  /** What the step's record makes of the index of complete lines. */
  ghost function RfqApplied(v: World, step: Step): Index {
    match RfqWrite(v.s, step)
    case Some(r) => ApplyRecord(v.rfqLog.index, r)
    case None => v.rfqLog.index
  }

  ghost function WdApplied(v: World, step: Step): Wds
    requires Enabled(v.s, step)
  {
    match WdWrite(v.s, step)
    case Some(w) => if w in Apply(v.s, step).wds then v.wdLog.index[w := Apply(v.s, step).wds[w]] else v.wdLog.index
    case None => v.wdLog.index
  }

  /** The engine knows only what a reload of its files shows. */
  function Reload(v: World): World { v.(s := Crash(v.s.(ix := v.rfqLog.shown, wds := v.wdLog.shown))) }

  ghost function Outcome(v: World, e: Event): World
    requires Occurs(v, e)
  {
    match e
    case Does(step) =>
      World(Apply(v.s, step),
            if RfqWrite(v.s, step).Some? then Appended(v.rfqLog, RfqApplied(v, step)) else v.rfqLog,
            if WdWrite(v.s, step).Some? then Appended(v.wdLog, WdApplied(v, step)) else v.wdLog)
    case Tears(step, complete) =>
      Reload(World(if complete then Apply(v.s, step) else v.s,
                   if RfqWrite(v.s, step).Some? then Cut(v.rfqLog, RfqApplied(v, step), complete) else v.rfqLog,
                   if WdWrite(v.s, step).Some? then Cut(v.wdLog, WdApplied(v, step), complete) else v.wdLog))
    case Restarts => Reload(v)
  }

  /** The event writes nothing behind a fragment. */
  ghost predicate Clean(v: World, e: Event) {
    e.Restarts? || ((RfqWrite(v.s, e.step).Some? ==> !v.rfqLog.torn) && (WdWrite(v.s, e.step).Some? ==> !v.wdLog.torn))
  }

  function Fresh(s: State): World { World(s, Intact(s.ix), Intact(s.wds)) }

  ghost predicate Next(v: World, w: World) { exists e :: Occurs(v, e) && w == Outcome(v, e) }

  ghost predicate CleanNext(v: World, w: World) { exists e :: Occurs(v, e) && Clean(v, e) && w == Outcome(v, e) }

  /** A run from empty files in which nothing is written behind a fragment. */
  ghost predicate CleanRun(run: seq<World>) {
    && |run| > 0 && Init(run[0].s) && run[0] == Fresh(run[0].s)
    && (forall i :: 0 < i < |run| ==> CleanNext(run[i - 1], run[i]))
  }

  // ------------------------------------------------------------------ clean runs are runs of the protocol

  /** A reload shows what the engine holds, and while no line is open that is what the complete lines amount to. */
  predicate Synced(v: World) {
    && v.rfqLog.shown == v.s.ix && (!v.rfqLog.torn ==> v.rfqLog.index == v.s.ix)
    && v.wdLog.shown == v.s.wds && (!v.wdLog.torn ==> v.wdLog.index == v.s.wds)
  }

  lemma ReloadIsCrash(v: World)
    requires Synced(v)
    ensures Reload(v).s == Crash(v.s) && Synced(Reload(v))
  {
    assert v.s.(ix := v.rfqLog.shown, wds := v.wdLog.shown) == v.s;
  }

  lemma CrashStep(s: State)
    ensures P.Moves(s, OfRecovery(SCrash), Crash(s))
  {
  }

  lemma DoesSynced(v: World, step: Step)
    requires Synced(v) && Occurs(v, Does(step)) && Clean(v, Does(step))
    ensures Synced(Outcome(v, Does(step)))
  {
    hide RfqWrite, WdWrite, ApplyRecord, Enabled, Apply;
    StepWrites(v.s, step);
  }

  lemma TearsSynced(v: World, step: Step, complete: bool)
    requires Synced(v) && Occurs(v, Tears(step, complete)) && Clean(v, Tears(step, complete))
    ensures Outcome(v, Tears(step, complete)).s == Crash(if complete then Apply(v.s, step) else v.s)
    ensures Synced(Outcome(v, Tears(step, complete)))
  {
    hide RfqWrite, WdWrite, ApplyRecord, Enabled, Apply, Crash;
    StepWrites(v.s, step);
    var base := if complete then Apply(v.s, step) else v.s;
    var u := World(base, if RfqWrite(v.s, step).Some? then Cut(v.rfqLog, RfqApplied(v, step), complete) else v.rfqLog,
                   if WdWrite(v.s, step).Some? then Cut(v.wdLog, WdApplied(v, step), complete) else v.wdLog);
    assert Synced(u);
    ReloadIsCrash(u);
  }

  /** One clean event is a step of the protocol, a crash, or a step and a crash. */
  lemma CleanIsSteps(v: World, e: Event)
    requires Synced(v) && Occurs(v, e) && Clean(v, e)
    ensures P.Reaches(v.s, Outcome(v, e).s) && Synced(Outcome(v, e))
  {
    hide P.Reaches, Enabled, Apply, Synced, Clean, Reload, Crash, RfqWrite, WdWrite, RfqApplied, WdApplied;
    P.Start(v.s);
    match e
    case Does(step) =>
      P.Extend(v.s, v.s, step);
      DoesSynced(v, step);
    case Tears(step, complete) =>
      TearsSynced(v, step, complete);
      var t := if complete then Apply(v.s, step) else v.s;
      if complete { P.Extend(v.s, v.s, step); }
      CrashStep(t);
      P.Follow(v.s, t, OfRecovery(SCrash), Crash(t));
    case Restarts =>
      ReloadIsCrash(v);
      CrashStep(v.s);
      P.Follow(v.s, v.s, OfRecovery(SCrash), Crash(v.s));
  }

  lemma CleanNextIsSteps(v: World, w: World)
    requires Synced(v) && CleanNext(v, w)
    ensures P.Reaches(v.s, w.s) && Synced(w)
  {
    hide P.Reaches, Occurs, Outcome, Clean, Synced;
    var e :| Occurs(v, e) && Clean(v, e) && w == Outcome(v, e);
    CleanIsSteps(v, e);
  }

  lemma CleanAt(run: seq<World>, i: nat)
    requires CleanRun(run) && 0 < i < |run|
    ensures CleanNext(run[i - 1], run[i])
  {
    hide CleanNext;
  }

  /** Reloads show what the engine holds, at every moment of a clean run. */
  lemma {:induction false} CleanSynced(run: seq<World>, i: nat)
    requires CleanRun(run) && i < |run|
    ensures Synced(run[i])
    decreases i
  {
    if i > 0 {
      hide *;
      CleanSynced(run, i - 1);
      CleanAt(run, i);
      CleanNextIsSteps(run[i - 1], run[i]);
    } else {
      hide CleanNext;
    }
  }

  lemma {:induction false} CleanReaches(run: seq<World>, i: nat, j: nat)
    requires CleanRun(run) && i <= j < |run|
    ensures P.Reaches(run[i].s, run[j].s)
    decreases j
  {
    hide *;
    if i == j {
      P.Start(run[i].s);
    } else {
      CleanReaches(run, i, j - 1);
      CleanSynced(run, j - 1);
      CleanAt(run, j);
      CleanNextIsSteps(run[j - 1], run[j]);
      P.Join(run[i].s, run[j - 1].s, run[j].s);
    }
  }

  /** Two paths, one after the other, from the start of a run. */
  lemma JoinedRun(init: State, s: State, t: State) returns (p: seq<State>, a: nat, b: nat)
    requires Init(init) && P.Reaches(init, s) && P.Reaches(s, t)
    ensures Run(p) && a <= b < |p| && p[a] == s && p[b] == t
  {
    hide Protocol.Next, Init;
    var x :| Paths.Path(Protocol.Next, x) && x[0] == init && x[|x| - 1] == s;
    var y :| Paths.Path(Protocol.Next, y) && y[0] == s && y[|y| - 1] == t;
    p, a, b := x + y[1..], |x| - 1, |x| + |y| - 2;
    Paths.JoinedPath(Protocol.Next, x, y);
  }

  /** Any two states of the engine, one after the other,
    lie like that on a run of the protocol: every theorem about runs,
      about one state or two, holds of clean runs, whatever appends their crashes cut. */
  lemma CleanRunsAreRuns(run: seq<World>, i: nat, j: nat) returns (p: seq<State>, a: nat, b: nat)
    requires CleanRun(run) && i <= j < |run|
    ensures Run(p) && a <= b < |p| && p[a] == run[i].s && p[b] == run[j].s
    ensures Inv(run[i].s) && run[i].rfqLog.shown == run[i].s.ix && run[i].wdLog.shown == run[i].s.wds
  {
    assert Init(run[0].s);
    CleanSynced(run, i);
    hide CleanRun, Init, Run, Inv;
    CleanReaches(run, 0, i);
    CleanReaches(run, i, j);
    p, a, b := JoinedRun(run[0].s, run[i].s, run[j].s);
    RunInv(p, a);
  }

  /** In particular no RFQ and no withdrawal is broadcast twice. */
  lemma CleanBroadcastsAreDistinct(run: seq<World>, i: nat, a: nat, b: nat)
    requires CleanRun(run) && i < |run| && a < b < |run[i].s.chain.broadcasts|
    ensures run[i].s.chain.broadcasts[a] != run[i].s.chain.broadcasts[b]
  {
    hide CleanRun, Run, Solvent, RfqHere, WithdrawalHere, Books, QueueOk, Orphans, Exclusive;
    var p, m, n := CleanRunsAreRuns(run, i, i);
  }
}
