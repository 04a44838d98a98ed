/** What a torn tail costs: the record behind which a broadcast is safe is lost, and after the next restart the RFQ is
    accepted and broadcast again. */
module ProtocolTorn {
  import opened Types
  import opened RfqIndex
  import opened AuctionCore
  import opened LogFile
  import opened RfqStore
  import opened Protocol
  import opened L = ProtocolLog
  import opened S = ProtocolShared
  import P = ProtocolPaths
  import Paths

  // ------------------------------------------------------------------ paths of the system with its files

  ghost predicate Reaches(v: World, w: World) { Paths.Reaches(L.Next, v, w) }

  ghost predicate Moves(v: World, e: Event, w: World) { Occurs(v, e) && Outcome(v, e) == w }

  lemma Start(v: World)
    ensures Reaches(v, v)
  {
    hide L.Next;
    Paths.Start(L.Next, v);
  }

  lemma Follow(v: World, w: World, e: Event, u: World)
    requires Reaches(v, w) && Moves(w, e, u)
    ensures Reaches(v, u)
  {
    hide Occurs, Outcome;
    assert L.Next(w, u);
    hide L.Next;
    Paths.Extend(L.Next, v, w, u);
  }

  lemma Join(v: World, w: World, u: World)
    requires Reaches(v, w) && Reaches(w, u)
    ensures Reaches(v, u)
  {
    hide L.Next;
    Paths.Join(L.Next, v, w, u);
  }

  lemma LiftStep(s: State, t: State)
    requires Protocol.Next(s, t)
    ensures CleanNext(Fresh(s), Fresh(t)) && L.Next(Fresh(s), Fresh(t))
  {
    hide Enabled, Apply, RfqWrite, WdWrite, ApplyRecord, IsCrash;
    var step :| Enabled(s, step) && t == Apply(s, step);
    if IsCrash(step) {
      CrashIs(s, step);
      ReloadIsCrash(Fresh(s));
      assert Clean(Fresh(s), Restarts) && Outcome(Fresh(s), Restarts) == Fresh(t);
    } else {
      StepWrites(s, step);
      assert Clean(Fresh(s), Does(step)) && Outcome(Fresh(s), Does(step)) == Fresh(t);
    }
  }

  lemma CrashIs(s: State, step: Step)
    requires IsCrash(step) && Enabled(s, step)
    ensures Apply(s, step) == Crash(s) && Crash(s).ix == s.ix && Crash(s).wds == s.wds
  {
  }

  /** Conversely to CleanRunsAreRuns, every run of the protocol is a clean run, with files that are always whole. */
  lemma RunsAreClean(p: seq<State>) returns (run: seq<World>)
    requires Run(p)
    ensures CleanRun(run) && |run| == |p| && forall i :: 0 <= i < |p| ==> run[i] == Fresh(p[i])
  {
    hide Protocol.Next, CleanNext, L.Next, Fresh;
    run := seq(|p|, i requires 0 <= i < |p| => Fresh(p[i]));
    forall i | 0 < i < |run| ensures CleanNext(run[i - 1], run[i]) { LiftStep(p[i - 1], p[i]); }
    FreshIs(p[0]);
  }

  lemma FreshIs(s: State)
    ensures Fresh(s).s == s
  {
  }

  lemma {:induction false} LiftPath(path: seq<State>, i: nat)
    requires Paths.Path(Protocol.Next, path) && i < |path|
    ensures Reaches(Fresh(path[0]), Fresh(path[i]))
    decreases i
  {
    hide Protocol.Next, L.Next, Fresh;
    if i == 0 {
      Start(Fresh(path[0]));
    } else {
      LiftPath(path, i - 1);
      LiftStep(path[i - 1], path[i]);
      hide Paths.Path;
      Paths.Extend(L.Next, Fresh(path[0]), Fresh(path[i - 1]), Fresh(path[i]));
    }
  }

  lemma Lift(s: State, t: State)
    requires P.Reaches(s, t)
    ensures Reaches(Fresh(s), Fresh(t))
  {
    hide Protocol.Next, Fresh, Reaches;
    var path :| Paths.Path(Protocol.Next, path) && path[0] == s && path[|path| - 1] == t;
    LiftPath(path, |path| - 1);
  }

  // ------------------------------------------------------------------ the scene: one closed auction

  function One(x: Scene, first: Rfq, sections: map<RfqId, Section>, queue: Option<OpId>, chain: Chain): State {
    Begin(x).(ix := Filed(x, first), reservations := map[0 := Reserve(Offer(x, 0))], used := {0},
              sections := sections, queue := queue, chain := chain)
  }

  function Filed(x: Scene, first: Rfq): Index { Index(map[0 := first], map[0 := Offer(x, 0)], map[0 := [0]]) }

  function Idle(x: Scene, chain: Chain): State { One(x, ClosedOf(x, 0), map[], None, chain) }

  /** After a crash, before recovery. */
  function Down(x: Scene, chain: Chain): State { Idle(x, chain).(reservations := map[], recovering := {0}) }

  function Accepts(x: Scene, chain: Chain): State {
    One(x, ClosedOf(x, 0), map[0 := Accepting(x.taker, x.maker, 0)], None, chain)
  }

  function Commits(x: Scene, chain: Chain): State { One(x, ExecutingOf(x, 0), map[0 := QueuedAt(x, 0)], None, chain) }

  function Sends(x: Scene, chain: Chain): State {
    One(x, ExecutingOf(x, 0), map[0 := Sent(x.taker, x.maker, 0)], Some(RfqOp(0)), chain)
  }

  function Aired(x: Scene, chain: Chain): Chain {
    chain.(broadcasts := chain.broadcasts + [RfqOp(0)],
           sent := chain.sent[RfqOp(0) := Payload(x.maker, x.cost, 100, 100, Some(0), Some(x.data))])
  }

  /** The RFQ log ends with the closed record, and perhaps a fragment. */
  function With(s: State, x: Scene, torn: bool): World {
    World(s, Reloaded(Filed(x, ClosedOf(x, 0)), Filed(x, ClosedOf(x, 0)), torn), Intact(map[]))
  }

  /** The log as the engine believes it to be. */
  function Believed(s: State): World { World(s, Intact(s.ix), Intact(map[])) }

  lemma AuctionClosed(x: Scene)
    ensures Auctioned(Begin(x), Request(x, 0), Offer(x, 0), 90) == Idle(x, Begin(x).chain)
    ensures Fresh(Idle(x, Begin(x).chain)) == With(Idle(x, Begin(x).chain), x, false)
  {
    var s := Auctioned(Begin(x), Request(x, 0), Offer(x, 0), 90);
    assert Ids(PutRfq(Empty, Request(x, 0)), 0) + [0] == [0];
    assert s.ix == Filed(x, ClosedOf(x, 0));
  }

  lemma Starts(x: Scene, chain: Chain, torn: bool)
    ensures Moves(With(Idle(x, chain), x, torn), Does(OfExecution(SAcceptBegin(0))), With(Accepts(x, chain), x, torn))
  {
    assert AcceptBegin(Idle(x, chain), 0) == Accepts(x, chain);
  }

  lemma TearsCommit(x: Scene, chain: Chain)
    ensures Moves(With(Accepts(x, chain), x, false), Tears(OfExecution(SAcceptCommit(0, IntentOf(x, 0))), false),
      With(Down(x, chain), x, true))
  {
    assert CanAcceptCommit(Accepts(x, chain), 0, IntentOf(x, 0));
    assert Crash(Accepts(x, chain)) == Down(x, chain);
  }

  lemma Recovers(x: Scene, chain: Chain, torn: bool)
    ensures Moves(With(Down(x, chain), x, torn), Does(OfRecovery(SRecover(0))), With(Idle(x, chain), x, torn))
  {
    assert Recover(Down(x, chain), 0) == Idle(x, chain);
  }

  lemma Committing(x: Scene, chain: Chain)
    ensures CanAcceptCommit(Accepts(x, chain), 0, IntentOf(x, 0))
    ensures AcceptCommit(Accepts(x, chain), 0, IntentOf(x, 0)) == Commits(x, chain)
    ensures ApplyRecord(Filed(x, ClosedOf(x, 0)), RfqRecord(ExecutingOf(x, 0))) == Commits(x, chain).ix
  {
    assert PutRfq(Filed(x, ClosedOf(x, 0)), ExecutingOf(x, 0)) == Filed(x, ExecutingOf(x, 0));
  }

  /** Behind a fragment the intent is lost, else it is in the log. */
  lemma CommitsTo(x: Scene, chain: Chain, torn: bool)
    ensures Moves(With(Accepts(x, chain), x, torn), Does(OfExecution(SAcceptCommit(0, IntentOf(x, 0)))),
              if torn then With(Commits(x, chain), x, false) else Believed(Commits(x, chain)))
  {
    Committing(x, chain);
  }

  lemma Sending(x: Scene, chain: Chain)
    ensures CanBroadcast(Commits(x, chain), 0) && Broadcast(Commits(x, chain), 0) == Sends(x, Aired(x, chain))
  {
    assert Broadcast(Commits(x, chain), 0).chain == Aired(x, chain);
    assert Broadcast(Commits(x, chain), 0).sections == Sends(x, chain).sections;
  }

  lemma SendsTo(x: Scene, chain: Chain, rfqLog: Reloaded<Index>)
    ensures Moves(World(Commits(x, chain), rfqLog, Intact(map[])), Does(OfExecution(SBroadcast(0))),
              World(Sends(x, Aired(x, chain)), rfqLog, Intact(map[])))
  {
    Sending(x, chain);
    hide CanBroadcast, Broadcast, Commits, Sends;
  }

  lemma ForgetsIt(x: Scene, chain: Chain)
    ensures Moves(With(Sends(x, chain), x, false), Restarts, With(Down(x, chain), x, false))
  {
    assert Crash(Sends(x, chain).(ix := Filed(x, ClosedOf(x, 0)), wds := map[])) == Down(x, chain);
  }

  /** The log may be torn: an acceptance up to its broadcast. */
  lemma ReachesSent(x: Scene, chain: Chain, torn: bool)
    ensures Reaches(With(Idle(x, chain), x, torn),
              if torn then With(Sends(x, Aired(x, chain)), x, false)
              else World(Sends(x, Aired(x, chain)), Intact(Commits(x, chain).ix), Intact(map[])))
  {
    assert Believed(Commits(x, chain)) == World(Commits(x, chain), Intact(Commits(x, chain).ix), Intact(map[]));
    var closed := Filed(x, ClosedOf(x, 0));
    assert forall s :: With(s, x, false) == World(s, Intact(closed), Intact(map[]));
    hide *;
    var v := With(Idle(x, chain), x, torn);
    Start(v);
    Starts(x, chain, torn);
    Follow(v, v, Does(OfExecution(SAcceptBegin(0))), With(Accepts(x, chain), x, torn));
    CommitsTo(x, chain, torn);
    var rfqLog := if torn then Intact(closed) else Intact(Commits(x, chain).ix);
    var committed := World(Commits(x, chain), rfqLog, Intact(map[]));
    Follow(v, With(Accepts(x, chain), x, torn), Does(OfExecution(SAcceptCommit(0, IntentOf(x, 0)))), committed);
    SendsTo(x, chain, rfqLog);
    Follow(v, committed, Does(OfExecution(SBroadcast(0))), World(Sends(x, Aired(x, chain)), rfqLog, Intact(map[])));
  }

  lemma ReachesTorn(x: Scene, chain: Chain)
    ensures Reaches(With(Idle(x, chain), x, false), With(Idle(x, chain), x, true))
  {
    hide *;
    var v := With(Idle(x, chain), x, false);
    Start(v);
    Starts(x, chain, false);
    Follow(v, v, Does(OfExecution(SAcceptBegin(0))), With(Accepts(x, chain), x, false));
    TearsCommit(x, chain);
    Follow(v, With(Accepts(x, chain), x, false), Tears(OfExecution(SAcceptCommit(0, IntentOf(x, 0))), false),
      With(Down(x, chain), x, true));
    Recovers(x, chain, true);
    Follow(v, With(Down(x, chain), x, true), Does(OfRecovery(SRecover(0))), With(Idle(x, chain), x, true));
  }

  lemma ReachesIdleAgain(x: Scene, chain: Chain)
    ensures Reaches(With(Sends(x, chain), x, false), With(Idle(x, chain), x, false))
  {
    hide *;
    var v := With(Sends(x, chain), x, false);
    Start(v);
    ForgetsIt(x, chain);
    Follow(v, v, Restarts, With(Down(x, chain), x, false));
    Recovers(x, chain, false);
    Follow(v, With(Down(x, chain), x, false), Does(OfRecovery(SRecover(0))), With(Idle(x, chain), x, false));
  }

  lemma ReachesClosed(x: Scene)
    ensures Reaches(Fresh(Begin(x)), With(Idle(x, Begin(x).chain), x, false))
  {
    hide *;
    FirstAuction(x);
    ReachesAuctioned(Begin(x), Request(x, 0), Offer(x, 0), 90);
    AuctionClosed(x);
    Lift(Begin(x), Idle(x, Begin(x).chain));
  }

  lemma Twice(x: Scene)
    ensures Init(Begin(x)) && Aired(x, Aired(x, Begin(x).chain)).broadcasts == [RfqOp(0), RfqOp(0)]
    ensures forall c :: Sends(x, c).chain == c
  {
    assert [RfqOp(0)] + [RfqOp(0)] == [RfqOp(0), RfqOp(0)];
  }

  /** For every call data, accounts and price: a crash cuts an intent's record, the next intent is written behind the
      fragment and broadcast, a restart has neither, and the RFQ is accepted and broadcast once more. */
  lemma TornTailBroadcastsTwice(data: Hash, maker: Account, taker: Account, cost: nat) returns (v: World, w: World)
    ensures Init(v.s) && v == Fresh(v.s) && Reaches(v, w)
    ensures w.s.chain.broadcasts == [RfqOp(0), RfqOp(0)]
  {
    var x := Scene(data, maker, taker, cost);
    var c0 := Begin(x).chain;
    var c1 := Aired(x, c0);
    v, w := Fresh(Begin(x)), World(Sends(x, Aired(x, c1)), Intact(Commits(x, c1).ix), Intact(map[]));
    Twice(x);
    FreshIs(Begin(x));
    hide *;
    var idle := With(Idle(x, c0), x, false);
    ReachesClosed(x);
    ReachesTorn(x, c0); Join(v, idle, With(Idle(x, c0), x, true));
    ReachesSent(x, c0, true); Join(v, With(Idle(x, c0), x, true), With(Sends(x, c1), x, false));
    ReachesIdleAgain(x, c1); Join(v, With(Sends(x, c1), x, false), With(Idle(x, c1), x, false));
    ReachesSent(x, c1, false); Join(v, With(Idle(x, c1), x, false), w);
  }
}
