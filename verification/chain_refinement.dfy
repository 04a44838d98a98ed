/** The protocol's chain is what the executor's chain looks like from the engine: every block, transaction by
    transaction, is a sequence of the protocol's chain steps, so the answers that the code reads from blocks are
    answers the protocol allows. */
module ChainRefinement {
  import opened Types
  import opened Protocol
  import opened ProtocolPaths
  import opened ProtocolInvariant
  import T = ProtocolTheorems
  import E = ExecutorChain

  type Blocks = E.Chain

  /** The RFQs whose intents exist, what is persisted of each, which broadcast a transaction hash belongs to, what a
      successful execution debits, and the hash of call data. */
  datatype Env = Env(
    executor: Address, matching: Address, reqs: map<RfqId, E.Request>,
    origin: Hash -> Option<RfqId>, debit: RfqId -> nat, data: E.Input -> Hash)

  predicate Of(env: Env, t: E.Included, r: RfqId) { r in env.reqs && env.origin(t.tx.hash) == Some(r) }

  /** The wallet signs only what the engine broadcasts: a transaction of the executor with known call data stems from
      one broadcast of an RFQ with that call data, and no broadcast is mined twice. */
  ghost predicate Attributed(env: Env, c: Blocks) {
    && (forall n, k, r ::
          (E.In(c, n, k) && r in env.reqs && E.Carries(E.TxAt(c, n, k).tx, env.executor, env.matching, env.reqs[r].input)) ==>
            exists x :: Of(env, E.TxAt(c, n, k), x))
    && (forall n, k, r :: E.In(c, n, k) && Of(env, E.TxAt(c, n, k), r) ==>
          E.Carries(E.TxAt(c, n, k).tx, env.executor, env.matching, env.reqs[r].input))
    && (forall n, k, m, l, r ::
          (E.In(c, n, k) && E.In(c, m, l) && Of(env, E.TxAt(c, n, k), r) && Of(env, E.TxAt(c, m, l), r)) ==> (n, k) == (m, l))
  }

  /** The state has broadcast what is mined, with the expiries of the signed actions; what carries call data is the
      broadcast of a known intent; and a hash stands for one call data. */
  ghost predicate Ready(env: Env, s: State, c: Blocks) {
    && (forall r :: r in env.reqs ==> E.Exact(env.reqs[r]))
    && (forall op :: op in s.chain.sent && s.chain.sent[op].data.Some? ==> op.RfqOp? && op.r in env.reqs)
    && (forall r, x :: r in env.reqs && x in env.reqs && env.data(env.reqs[r].input) == env.data(env.reqs[x].input) ==>
          env.reqs[r].input == env.reqs[x].input)
    && (forall r :: r in env.reqs && RfqOp(r) in s.chain.sent ==>
          && s.chain.sent[RfqOp(r)].firstExpiry == Min(env.reqs[r].first.expiry, env.reqs[r].second.expiry)
          && env.debit(r) <= s.chain.sent[RfqOp(r)].amount
          && s.chain.sent[RfqOp(r)].data == Some(env.data(env.reqs[r].input)))
    && (forall n, k, r :: E.In(c, n, k) && Of(env, E.TxAt(c, n, k), r) ==> RfqOp(r) in s.chain.sent)
  }

  /** In every state of a run, what carries call data is the broadcast of a stored intent. */
  lemma OnlyIntentsCarryData(env: Env, s: State, op: OpId)
    requires Control(s) && (forall r :: r in s.ix.rfqs && s.ix.rfqs[r].executionIntent.Some? ==> r in env.reqs)
    requires op in s.chain.sent && s.chain.sent[op].data.Some?
    ensures op.RfqOp? && op.r in env.reqs
  {
    T.KnownOps(s, op);
    match op
    case WdOp(w) => T.NoData(s, w);
    case RfqOp(r) => T.RecordOk(s, r); hide Control, WinnerOk;
  }

  ghost predicate MinedAs(env: Env, c: Blocks, r: RfqId, ok: bool) {
    exists n, k :: E.In(c, n, k) && Of(env, E.TxAt(c, n, k), r) && E.TxAt(c, n, k).success == ok
  }

  ghost predicate NoncesGone(env: Env, c: Blocks, r: RfqId)
    requires r in env.reqs
  {
    E.Used(c, E.Key(env.reqs[r].first)) || E.Used(c, E.Key(env.reqs[r].second))
  }

  ghost predicate MatchesAt(env: Env, pc: Chain, c: Blocks, r: RfqId)
    requires r in env.reqs
  {
    && (RfqOp(r) in pc.outcome ==> MinedAs(env, c, r, pc.outcome[RfqOp(r)]))
    && (forall ok :: MinedAs(env, c, r, ok) ==> RfqOp(r) in pc.outcome && pc.outcome[RfqOp(r)] == ok)
    && (NonceUsed(pc, RfqOp(r)) <==> NoncesGone(env, c, r))
  }

  /** The protocol's chain has the receipts, the consumed nonces and the time of the canonical blocks. */
  ghost predicate Matches(env: Env, pc: Chain, c: Blocks) {
    && (|c| > 0 ==> pc.time == c[|c| - 1].timestamp)
    && (forall r :: r in env.reqs ==> MatchesAt(env, pc, c, r))
  }

  // ------------------------------------------------------------------ growing the chain

  function Opened(c: Blocks, hash: Hash, time: int): Blocks { c + [E.Block(hash, time, [])] }

  function WithTx(c: Blocks, t: E.Included): Blocks
    requires |c| > 0
  {
    var last := c[|c| - 1];
    c[..|c| - 1] + [last.(txs := last.txs + [t])]
  }

  lemma OpenedTxs(c: Blocks, hash: Hash, time: int)
    ensures forall n, k :: E.In(Opened(c, hash, time), n, k) <==> E.In(c, n, k)
    ensures forall n, k :: E.In(c, n, k) ==> E.TxAt(Opened(c, hash, time), n, k) == E.TxAt(c, n, k)
  {
  }

  predicate Fresh(c: Blocks, n: int, k: int) { |c| > 0 && n == |c| - 1 && k == |c[|c| - 1].txs| }

  lemma NewTx(c: Blocks, t: E.Included)
    requires |c| > 0
    ensures forall n, k :: E.In(WithTx(c, t), n, k) <==> E.In(c, n, k) || Fresh(c, n, k)
    ensures forall n, k :: E.In(c, n, k) ==> E.TxAt(WithTx(c, t), n, k) == E.TxAt(c, n, k)
    ensures forall n, k :: Fresh(c, n, k) ==> E.In(WithTx(c, t), n, k) && !E.In(c, n, k)
                                              && E.TxAt(WithTx(c, t), n, k) == t
  {
  }

  lemma UsedWithTx(c: Blocks, t: E.Included, key: E.NonceKey)
    requires |c| > 0
    ensures E.Used(WithTx(c, t), key) <==> E.Used(c, key) || (t.success && key in t.tx.uses)
  {
    NewTx(c, t);
    var d := WithTx(c, t);
    hide WithTx;
    if E.Used(c, key) {
      var n, k :| E.In(c, n, k) && E.TxAt(c, n, k).success && key in E.TxAt(c, n, k).tx.uses;
      assert E.In(d, n, k) && E.TxAt(d, n, k).success;
    }
    if t.success && key in t.tx.uses {
      var n, k := |c| - 1, |c[|c| - 1].txs|;
      assert Fresh(c, n, k) && E.In(d, n, k) && E.TxAt(d, n, k).success;
    }
  }

  lemma MinedWithTx(env: Env, c: Blocks, t: E.Included, r: RfqId, ok: bool)
    requires |c| > 0
    ensures MinedAs(env, WithTx(c, t), r, ok) <==> MinedAs(env, c, r, ok) || (Of(env, t, r) && t.success == ok)
  {
    NewTx(c, t);
    var d := WithTx(c, t);
    hide WithTx, Of;
    if MinedAs(env, c, r, ok) {
      var n, k :| E.In(c, n, k) && Of(env, E.TxAt(c, n, k), r) && E.TxAt(c, n, k).success == ok;
      assert E.In(d, n, k) && Of(env, E.TxAt(d, n, k), r);
    }
    if Of(env, t, r) && t.success == ok {
      var n, k := |c| - 1, |c[|c| - 1].txs|;
      assert Fresh(c, n, k) && E.In(d, n, k) && Of(env, E.TxAt(d, n, k), r);
    }
  }

  // ------------------------------------------------------------------ one transaction

  /** Its success consumes a nonce of r's, although it is not r's broadcast. */
  predicate Burns(env: Env, t: E.Included, r: RfqId)
    requires r in env.reqs
  {
    && t.success && !Of(env, t, r)
    && (E.Key(env.reqs[r].first) in t.tx.uses || E.Key(env.reqs[r].second) in t.tx.uses)
  }

  /** What a successful broadcast of r consumes, and when. */
  lemma OwnExecution(env: Env, s: State, c: Blocks, t: E.Included, r: RfqId)
    requires |c| > 0 && E.Valid(WithTx(c, t), env.matching) && Attributed(env, WithTx(c, t)) && Ready(env, s, WithTx(c, t))
    requires Of(env, t, r) && t.success
    ensures E.Key(env.reqs[r].first) in t.tx.uses && E.Key(env.reqs[r].second) in t.tx.uses
    ensures c[|c| - 1].timestamp <= Min(env.reqs[r].first.expiry, env.reqs[r].second.expiry)
    ensures !NoncesGone(env, c, r)
  {
    NewTx(c, t);
    var d, n, k := WithTx(c, t), |c| - 1, |c[|c| - 1].txs|;
    assert Fresh(c, n, k) && E.In(d, n, k) && E.TxAt(d, n, k) == t;
    assert d[n].timestamp == c[n].timestamp;
    hide WithTx;
    assert E.Executes(t, env.matching);
    assert env.reqs[r].first in t.tx.input.actions && env.reqs[r].second in t.tx.input.actions;
    forall key | key in t.tx.uses ensures !E.Used(c, key) {
      forall m, l | E.In(c, m, l) && E.TxAt(c, m, l).success ensures key !in E.TxAt(c, m, l).tx.uses {
        assert E.In(d, m, l) && E.TxAt(d, m, l).success && (m, l) != (n, k);
      }
    }
  }

  lemma NotYetMined(env: Env, c: Blocks, t: E.Included, r: RfqId, ok: bool)
    requires |c| > 0 && Attributed(env, WithTx(c, t)) && Of(env, t, r)
    ensures !MinedAs(env, c, r, ok)
  {
    NewTx(c, t);
    var d, n, k := WithTx(c, t), |c| - 1, |c[|c| - 1].txs|;
    assert Fresh(c, n, k) && E.In(d, n, k) && Of(env, E.TxAt(d, n, k), r);
    hide WithTx;
    forall m, l | E.In(c, m, l) ensures !Of(env, E.TxAt(c, m, l), r) {
      assert E.In(d, m, l) && (m, l) != (n, k);
    }
  }

  /** A success on chain has consumed the nonces of every RFQ with its call data. */
  lemma SuccessTakesNonces(env: Env, s: State, c: Blocks, d: Blocks, r: RfqId, x: RfqId)
    requires Within(c, d) && E.Valid(d, env.matching) && Attributed(env, d) && Ready(env, s, d) && r in env.reqs
    requires MinedAs(env, c, x, true) && x in env.reqs && env.reqs[x].input == env.reqs[r].input
    ensures NoncesGone(env, c, r)
  {
    hide Of;
    var n, k :| E.In(c, n, k) && Of(env, E.TxAt(c, n, k), x) && E.TxAt(c, n, k).success == true;
    assert E.In(d, n, k) && E.TxAt(d, n, k) == E.TxAt(c, n, k);
    assert E.Carries(E.TxAt(d, n, k).tx, env.executor, env.matching, env.reqs[x].input);
    assert E.Exact(env.reqs[r]) && E.Executes(E.TxAt(d, n, k), env.matching);
    assert env.reqs[r].first in E.TxAt(d, n, k).tx.input.actions;
    assert E.Used(c, E.Key(env.reqs[r].first));
  }

  lemma WithTxWithin(c: Blocks, t: E.Included)
    requires |c| > 0
    ensures Within(c, WithTx(c, t))
  {
    NewTx(c, t);
  }

  /** So its call data has not been executed before. */
  lemma NotSpent(env: Env, s: State, c: Blocks, t: E.Included, r: RfqId)
    requires |c| > 0 && E.Valid(WithTx(c, t), env.matching) && Attributed(env, WithTx(c, t)) && Ready(env, s, WithTx(c, t))
    requires Matches(env, s.chain, c) && Of(env, t, r) && t.success && RfqOp(r) in s.chain.sent
    ensures !Spent(s.chain, RfqOp(r))
  {
    OwnExecution(env, s, c, t, r);
    WithTxWithin(c, t);
    hide E.Valid, Attributed, WithTx, MinedAs, NoncesGone, Within;
    if Spent(s.chain, RfqOp(r)) {
      var h := s.chain.sent[RfqOp(r)].data.value;
      var op :| op in s.chain.sent && s.chain.sent[op].data == Some(h) && Succeeded(s.chain, op);
      var x := op.r;
      SuccessTakesNonces(env, s, c, WithTx(c, t), r, x) by {
        assert MatchesAt(env, s.chain, c, x);
        assert env.data(env.reqs[r].input) == env.data(env.reqs[x].input);
      }
      assert false;
    }
  }

  /** The first step for a transaction: its receipt, if it is a broadcast of the engine's. */
  lemma ReceiptStep(env: Env, s: State, c: Blocks, t: E.Included, r: RfqId)
    requires |c| > 0 && E.Valid(WithTx(c, t), env.matching) && Attributed(env, WithTx(c, t)) && Ready(env, s, WithTx(c, t))
    requires Matches(env, s.chain, c) && Of(env, t, r)
    ensures CanMine(s, RfqOp(r), t.success, env.debit(r))
  {
    NewTx(c, t);
    var n, k := |c| - 1, |c[|c| - 1].txs|;
    assert Fresh(c, n, k) && E.In(WithTx(c, t), n, k) && Of(env, E.TxAt(WithTx(c, t), n, k), r);
    assert RfqOp(r) in s.chain.sent && env.debit(r) <= s.chain.sent[RfqOp(r)].amount;
    hide E.Valid, WithTx, Of, MinedAs, Attributed, NoncesGone;
    NotYetMined(env, c, t, r, true);
    NotYetMined(env, c, t, r, false);
    assert MatchesAt(env, s.chain, c, r);
    if t.success {
      OwnExecution(env, s, c, t, r);
      NotSpent(env, s, c, t, r);
    }
    hide Spent;
  }

  /** Nonces consumed by others are burned, one RFQ after the other. */
  lemma {:induction false} BurnAll(s: State, rs: set<RfqId>) returns (u: State)
    ensures Reaches(s, u) && u == s.(chain := s.chain.(burned := u.chain.burned))
    ensures u.chain.burned == s.chain.burned + set r | r in rs :: RfqOp(r)
    decreases |rs|
  {
    hide Reaches, Enabled, Apply;
    Start(s);
    if rs == {} {
      u := s;
    } else {
      var r :| r in rs;
      var v := BurnAll(s, rs - {r});
      BurnStep(v, RfqOp(r));
      Extend(s, v, OfChain(SBurn(RfqOp(r))));
      u := Burn(v, RfqOp(r));
      assert rs == (rs - {r}) + {r};
    }
  }

  lemma BurnStep(s: State, op: OpId)
    ensures Enabled(s, OfChain(SBurn(op))) && Apply(s, OfChain(SBurn(op))) == Burn(s, op)
  {
  }

  lemma MineStep(s: State, op: OpId, ok: bool, debit: nat)
    requires CanMine(s, op, ok, debit)
    ensures Enabled(s, OfChain(SMine(op, ok, debit, 0))) && Apply(s, OfChain(SMine(op, ok, debit, 0))) == Mine(s, op, ok, debit, 0)
  {
  }

  lemma MineChanges(s: State, r: RfqId, ok: bool, debit: nat)
    requires CanMine(s, RfqOp(r), ok, debit)
    ensures var u := Mine(s, RfqOp(r), ok, debit, 0);
            && u == s.(chain := u.chain) && u.chain.outcome == s.chain.outcome[RfqOp(r) := ok]
            && u.chain.sent == s.chain.sent && u.chain.burned == s.chain.burned && u.chain.time == s.chain.time
  {
  }

  /** One transaction is the receipt of a broadcast or none, and the burning of the nonces it takes from others. */
  lemma OneTx(env: Env, s: State, c: Blocks, t: E.Included) returns (u: State)
    requires |c| > 0 && E.Valid(WithTx(c, t), env.matching) && Attributed(env, WithTx(c, t)) && Ready(env, s, WithTx(c, t))
    requires Matches(env, s.chain, c)
    ensures Reaches(s, u) && u == s.(chain := u.chain) && u.chain.sent == s.chain.sent
    ensures Matches(env, u.chain, WithTx(c, t))
  {
    hide Reaches, Enabled, Apply, E.Valid, Attributed, Ready, WithTx, MatchesAt, Mine;
    Start(s);
    var own := if env.origin(t.tx.hash).Some? && env.origin(t.tx.hash).value in env.reqs then {env.origin(t.tx.hash).value} else {};
    var v := s;
    if own != {} {
      var r := env.origin(t.tx.hash).value;
      ReceiptStep(env, s, c, t, r);
      MineStep(s, RfqOp(r), t.success, env.debit(r));
      MineChanges(s, r, t.success, env.debit(r));
      Extend(s, s, OfChain(SMine(RfqOp(r), t.success, env.debit(r), 0)));
      v := Mine(s, RfqOp(r), t.success, env.debit(r), 0);
    }
    var burnt := set x | x in env.reqs && Burns(env, t, x);
    u := BurnAll(v, burnt);
    Join(s, v, u);
    SameTime(c, t);
    forall x | x in env.reqs ensures MatchesAt(env, u.chain, WithTx(c, t), x) {
      if x in own { OwnMatches(env, s, u, c, t, x); } else { OtherMatches(env, s, u, c, t, x); }
    }
  }

  lemma SameTime(c: Blocks, t: E.Included)
    requires |c| > 0
    ensures |WithTx(c, t)| == |c| && WithTx(c, t)[|c| - 1].timestamp == c[|c| - 1].timestamp
  {
  }

  lemma OwnMatches(env: Env, s: State, u: State, c: Blocks, t: E.Included, r: RfqId)
    requires |c| > 0 && E.Valid(WithTx(c, t), env.matching) && Attributed(env, WithTx(c, t)) && Ready(env, s, WithTx(c, t))
    requires Of(env, t, r) && MatchesAt(env, s.chain, c, r)
    requires RfqOp(r) in u.chain.outcome && u.chain.outcome[RfqOp(r)] == t.success
    requires RfqOp(r) in u.chain.burned <==> RfqOp(r) in s.chain.burned
    ensures MatchesAt(env, u.chain, WithTx(c, t), r)
  {
    NotYetMined(env, c, t, r, true);
    NotYetMined(env, c, t, r, false);
    MinedWithTx(env, c, t, r, true);
    MinedWithTx(env, c, t, r, false);
    UsedWithTx(c, t, E.Key(env.reqs[r].first));
    UsedWithTx(c, t, E.Key(env.reqs[r].second));
    if t.success { OwnExecution(env, s, c, t, r); }
    hide E.Valid, Attributed, Ready, WithTx, MinedAs, Of, E.Used;
  }

  lemma OtherMatches(env: Env, s: State, u: State, c: Blocks, t: E.Included, r: RfqId)
    requires |c| > 0 && r in env.reqs && !Of(env, t, r) && MatchesAt(env, s.chain, c, r)
    requires RfqOp(r) in u.chain.outcome <==> RfqOp(r) in s.chain.outcome
    requires RfqOp(r) in s.chain.outcome ==> u.chain.outcome[RfqOp(r)] == s.chain.outcome[RfqOp(r)]
    requires RfqOp(r) in u.chain.burned <==> RfqOp(r) in s.chain.burned || Burns(env, t, r)
    ensures MatchesAt(env, u.chain, WithTx(c, t), r)
  {
    hide WithTx, MinedAs, Of, E.Used;
    MinedWithTx(env, c, t, r, true);
    MinedWithTx(env, c, t, r, false);
    UsedWithTx(c, t, E.Key(env.reqs[r].first));
    UsedWithTx(c, t, E.Key(env.reqs[r].second));
  }

  // ------------------------------------------------------------------ blocks

  /** An empty block only moves the time. */
  lemma OpenBlock(env: Env, s: State, c: Blocks, hash: Hash, time: int)
    requires Matches(env, s.chain, c) && time >= s.chain.time
    ensures Reaches(s, Tick(s, time)) && Matches(env, Tick(s, time).chain, Opened(c, hash, time))
  {
    hide Reaches, Enabled, Apply, MatchesAt;
    Start(s);
    TickStep(s, time);
    Extend(s, s, OfChain(STick(time)));
    forall r | r in env.reqs ensures MatchesAt(env, Tick(s, time).chain, Opened(c, hash, time), r) {
      SameTxs(env, s.chain, Tick(s, time).chain, c, Opened(c, hash, time), r) by { OpenedTxs(c, hash, time); hide Opened; }
    }
  }

  lemma TickStep(s: State, time: int)
    requires time >= s.chain.time
    ensures Enabled(s, OfChain(STick(time))) && Apply(s, OfChain(STick(time))) == Tick(s, time)
  {
  }

  lemma SameTxs(env: Env, pc: Chain, pd: Chain, c: Blocks, d: Blocks, r: RfqId)
    requires r in env.reqs && MatchesAt(env, pc, c, r)
    requires pd.outcome == pc.outcome && pd.burned == pc.burned
    requires forall n, k :: E.In(d, n, k) <==> E.In(c, n, k)
    requires forall n, k :: E.In(c, n, k) ==> E.TxAt(d, n, k) == E.TxAt(c, n, k)
    ensures MatchesAt(env, pd, d, r)
  {
    hide Of;
    forall ok ensures MinedAs(env, d, r, ok) <==> MinedAs(env, c, r, ok) {
      if MinedAs(env, c, r, ok) {
        var n, k :| E.In(c, n, k) && Of(env, E.TxAt(c, n, k), r) && E.TxAt(c, n, k).success == ok;
        assert E.In(d, n, k) && Of(env, E.TxAt(d, n, k), r);
      }
    }
    forall key ensures E.Used(d, key) <==> E.Used(c, key) {
      if E.Used(c, key) {
        var n, k :| E.In(c, n, k) && E.TxAt(c, n, k).success && key in E.TxAt(c, n, k).tx.uses;
        assert E.In(d, n, k) && E.TxAt(d, n, k).success;
      }
    }
    hide MinedAs, E.Used;
  }

  /** The first k transactions of a block. */
  function Partial(c: Blocks, b: E.Block, k: nat): Blocks
    requires k <= |b.txs|
  {
    c + [b.(txs := b.txs[..k])]
  }

  lemma PartialNext(c: Blocks, b: E.Block, k: nat)
    requires k < |b.txs|
    ensures Partial(c, b, k + 1) == WithTx(Partial(c, b, k), b.txs[k])
    ensures Partial(c, b, |b.txs|) == c + [b] && Partial(c, b, 0) == Opened(c, b.hash, b.timestamp)
  {
    assert b.txs[..k + 1] == b.txs[..k] + [b.txs[k]];
    assert b.txs[..|b.txs|] == b.txs;
    assert Partial(c, b, k)[..|Partial(c, b, k)| - 1] == c;
  }

  lemma PartialEnds(c: Blocks, b: E.Block)
    ensures Partial(c, b, |b.txs|) == c + [b] && Partial(c, b, 0) == Opened(c, b.hash, b.timestamp)
  {
    assert b.txs[..|b.txs|] == b.txs;
  }

  /** Part of a chain, with the same block times. */
  ghost predicate Within(d: Blocks, full: Blocks) {
    && |d| <= |full| && (forall n :: 0 <= n < |d| ==> d[n].timestamp == full[n].timestamp)
    && (forall n, k :: E.In(d, n, k) ==> E.In(full, n, k) && E.TxAt(full, n, k) == E.TxAt(d, n, k))
  }

  lemma PartOf(env: Env, s: State, d: Blocks, full: Blocks)
    requires Within(d, full) && E.Valid(full, env.matching) && Attributed(env, full) && Ready(env, s, full)
    ensures E.Valid(d, env.matching) && Attributed(env, d) && Ready(env, s, d)
  {
    hide Of, E.Carries;
    assert E.Valid(d, env.matching) by { hide Attributed, Ready; }
    assert Attributed(env, d) by { hide E.Valid, Ready; }
    hide E.Valid, Attributed;
  }

  lemma PartialWithin(c: Blocks, b: E.Block, k: nat)
    requires k <= |b.txs|
    ensures Within(Partial(c, b, k), c + [b])
  {
  }

  lemma TimesGrow(d: Blocks, matching: Address, n: nat)
    requires E.Valid(d, matching) && 0 < n < |d|
    ensures d[n - 1].timestamp <= d[n].timestamp
  {
  }

  lemma PrefixWithin(init: Blocks, full: Blocks)
    requires init <= full
    ensures Within(init, full)
  {
  }

  lemma SameReady(env: Env, s: State, u: State, c: Blocks)
    requires Ready(env, s, c) && u.chain.sent == s.chain.sent
    ensures Ready(env, u, c)
  {
    hide Of;
  }

  lemma {:induction false} OneBlock(env: Env, s: State, c: Blocks, b: E.Block, k: nat) returns (u: State)
    requires k <= |b.txs| && E.Valid(c + [b], env.matching) && Attributed(env, c + [b]) && Ready(env, s, c + [b])
    requires Matches(env, s.chain, c) && s.chain.time <= b.timestamp
    ensures Reaches(s, u) && u == s.(chain := u.chain) && u.chain.sent == s.chain.sent
    ensures Matches(env, u.chain, Partial(c, b, k))
    decreases k
  {
    hide Reaches, E.Valid, Attributed, Ready, Matches, WithTx, Opened, Partial, Within;
    PartialEnds(c, b);
    if k == 0 {
      u := Tick(s, b.timestamp);
      OpenBlock(env, s, c, b.hash, b.timestamp);
    } else {
      var v := OneBlock(env, s, c, b, k - 1);
      PartialNext(c, b, k - 1);
      SameReady(env, s, v, c + [b]);
      PartialWithin(c, b, k);
      PartOf(env, v, Partial(c, b, k), c + [b]);
      NotEmpty(c, b, k - 1);
      u := OneTx(env, v, Partial(c, b, k - 1), b.txs[k - 1]);
      Join(s, v, u);
    }
  }

  lemma NotEmpty(c: Blocks, b: E.Block, k: nat)
    requires k <= |b.txs|
    ensures |Partial(c, b, k)| > 0
  {
  }

  /** However the canonical chain grows, the protocol's chain can follow: by receipts, burned nonces and time. */
  lemma {:induction false} ExtensionIsSteps(env: Env, s: State, c: Blocks, d: Blocks) returns (u: State)
    requires c <= d && E.Valid(d, env.matching) && Attributed(env, d) && Ready(env, s, d)
    requires Matches(env, s.chain, c) && (c == [] && d != [] ==> s.chain.time <= d[0].timestamp)
    ensures Reaches(s, u) && u == s.(chain := u.chain) && u.chain.sent == s.chain.sent && Matches(env, u.chain, d)
    ensures |c| == |d| ==> u == s
    decreases |d|
  {
    hide Reaches, Attributed, Ready, Within, E.Valid, MatchesAt;
    if |c| == |d| {
      u := s;
      assert c == d;
      Start(s);
    } else {
      var n := |d| - 1;
      var init := d[..n];
      assert d == init + [d[n]];
      PrefixWithin(init, d);
      PartOf(env, s, init, d);
      var v := ExtensionIsSteps(env, s, c, init);
      SameReady(env, s, v, d);
      if n > 0 { TimesGrow(d, env.matching, n); }
      assert v.chain.time <= d[n].timestamp;
      hide Matches;
      u := OneBlock(env, v, init, d[n], |d[n].txs|);
      PartialEnds(init, d[n]);
      Join(s, v, u);
    }
  }

  // ------------------------------------------------------------------ a new intent

  /** When an RFQ's intent is made, nothing of it is on chain but perhaps nonces that others consumed; those the protocol
      burns. */
  lemma IntentJoins(env: Env, s: State, c: Blocks, r: RfqId, req: E.Request) returns (u: State)
    requires Matches(env, s.chain, c) && r !in env.reqs
    requires RfqOp(r) !in s.chain.outcome && RfqOp(r) !in s.chain.burned
    requires forall n, k :: E.In(c, n, k) ==> env.origin(E.TxAt(c, n, k).tx.hash) != Some(r)
    ensures Reaches(s, u) && u == s.(chain := u.chain) && u.chain.sent == s.chain.sent
    ensures Matches(env.(reqs := env.reqs[r := req]), u.chain, c)
  {
    hide Reaches, Enabled, Apply, MatchesAt, NoncesGone, MinedAs;
    var more := env.(reqs := env.reqs[r := req]);
    Start(s);
    u := s;
    if NoncesGone(more, c, r) {
      BurnStep(s, RfqOp(r));
      Extend(s, s, OfChain(SBurn(RfqOp(r))));
      u := Burn(s, RfqOp(r));
    }
    forall x | x in more.reqs ensures MatchesAt(more, u.chain, c, x) {
      if x == r { JoinedMatches(more, s.chain, u.chain, c, r); } else { assert MatchesAt(env, s.chain, c, x); SameRequest(env, more, s.chain, u.chain, c, x); }
    }
  }

  lemma JoinedMatches(env: Env, pc: Chain, pd: Chain, c: Blocks, r: RfqId)
    requires r in env.reqs && forall n, k :: E.In(c, n, k) ==> env.origin(E.TxAt(c, n, k).tx.hash) != Some(r)
    requires RfqOp(r) !in pc.outcome && pd.outcome == pc.outcome && (RfqOp(r) in pd.burned <==> NoncesGone(env, c, r))
    ensures MatchesAt(env, pd, c, r)
  {
    assert forall ok :: !MinedAs(env, c, r, ok);
    hide MinedAs, NoncesGone;
  }

  lemma SameRequest(env: Env, more: Env, pc: Chain, pd: Chain, c: Blocks, x: RfqId)
    requires x in env.reqs && x in more.reqs && more.reqs[x] == env.reqs[x] && more.origin == env.origin && MatchesAt(env, pc, c, x)
    requires pd.outcome == pc.outcome && (RfqOp(x) in pd.burned <==> RfqOp(x) in pc.burned)
    ensures MatchesAt(more, pd, c, x)
  {
    assert forall ok :: MinedAs(more, c, x, ok) <==> MinedAs(env, c, x, ok);
    hide MinedAs;
  }

  // ------------------------------------------------------------------ the code's verdicts

  /** What reconcileVerifyAndMatch promises of a receipt it found: by its hash, or a success that left a log. */
  predicate FoundAs(env: Env, r: RfqId, result: E.Submitted) { env.origin(result.txHash) == Some(r) || result.success }

  /** Every verdict of reconcileVerifyAndMatch is an answer the protocol allows at that state of the chain. */
  lemma VerdictIsAnswer(env: Env, s: State, c: Blocks, r: RfqId, verdict: E.Outcome)
    requires |c| > 0 && E.Valid(c, env.matching) && Attributed(env, c) && Ready(env, s, c) && Matches(env, s.chain, c)
    requires r in s.recons && s.recons[r] == Reading && r in s.ix.rfqs && s.ix.rfqs[r].executionIntent.Some? && r in env.reqs
    requires var intent := s.ix.rfqs[r].executionIntent.value;
             && intent.maker.expiry == env.reqs[r].first.expiry && intent.taker.expiry == env.reqs[r].second.expiry
             && intent.calldataHash == env.data(env.reqs[r].input)
    requires verdict.Mined? ==> E.IsMined(c, env.executor, env.matching, env.reqs[r].input, verdict.result) && FoundAs(env, r, verdict.result)
    requires verdict.ExpiredUnused? ==> E.Lapsed(c, env.reqs[r])
    ensures verdict.Mined? ==> CanReconAnswer(s, r, AnswerMined(verdict.result.success))
    ensures verdict.ExpiredUnused? ==> CanReconAnswer(s, r, AnswerExpiredUnused)
  {
    assert MatchesAt(env, s.chain, c, r);
    if verdict.Mined? {
      MinedIsAnswer(env, s, c, r, verdict.result);
    }
    hide E.Valid, Attributed, Ready, E.IsMined, MinedAs, MinedCallData;
  }

  lemma MinedIsAnswer(env: Env, s: State, c: Blocks, r: RfqId, result: E.Submitted)
    requires E.Valid(c, env.matching) && Attributed(env, c) && Ready(env, s, c) && Matches(env, s.chain, c)
    requires r in s.ix.rfqs && s.ix.rfqs[r].executionIntent.Some? && r in env.reqs
    requires s.ix.rfqs[r].executionIntent.value.calldataHash == env.data(env.reqs[r].input)
    requires E.IsMined(c, env.executor, env.matching, env.reqs[r].input, result) && FoundAs(env, r, result)
    ensures MinedCallData(s, r, result.success)
  {
    hide E.Carries, E.Executes, NonceUsed;
    var n := result.blockNumber;
    var k :| E.In(c, n, k) && E.TxAt(c, n, k).tx.hash == result.txHash && E.TxAt(c, n, k).success == result.success
             && E.Carries(E.TxAt(c, n, k).tx, env.executor, env.matching, env.reqs[r].input);
    var x :| Of(env, E.TxAt(c, n, k), x);
    assert MinedAs(env, c, x, result.success);
    assert MatchesAt(env, s.chain, c, x);
    SameInput(env, c, n, k, r, x);
    assert RfqOp(x) in s.chain.sent;
    if x != r {
      assert result.success;
      assert s.chain.sent[RfqOp(x)].data == Some(env.data(env.reqs[r].input));
      assert Succeeded(s.chain, RfqOp(x));
      assert ExecutedData(s.chain, env.data(env.reqs[r].input));
      SameNonces(env, s, c, n, k, r);
    }
  }

  lemma SameInput(env: Env, c: Blocks, n: nat, k: nat, r: RfqId, x: RfqId)
    requires Attributed(env, c) && r in env.reqs && E.In(c, n, k) && Of(env, E.TxAt(c, n, k), x)
    requires E.Carries(E.TxAt(c, n, k).tx, env.executor, env.matching, env.reqs[r].input)
    ensures env.reqs[x].input == env.reqs[r].input
  {
  }

  lemma SameNonces(env: Env, s: State, c: Blocks, n: nat, k: nat, r: RfqId)
    requires E.Valid(c, env.matching) && Ready(env, s, c) && Matches(env, s.chain, c) && r in env.reqs
    requires E.In(c, n, k) && E.TxAt(c, n, k).success && E.Carries(E.TxAt(c, n, k).tx, env.executor, env.matching, env.reqs[r].input)
    ensures NonceUsed(s.chain, RfqOp(r))
  {
    hide Of;
    var t := E.TxAt(c, n, k);
    assert MatchesAt(env, s.chain, c, r);
    assert E.Exact(env.reqs[r]) && E.Executes(t, env.matching) && env.reqs[r].first in t.tx.input.actions;
    assert E.Used(c, E.Key(env.reqs[r].first));
  }
}
