/** The executor's chain boundary (chain.ts): latches, submission and exact reconciliation. */
module ExecutorChain {
  import opened Types

  // ------------------------------------------------------------------ the chain

  datatype NonceKey = NonceKey(mod: Address, owner: Address, nonce: int)

  /** Transaction input. Call data determines the actions it executes. */
  datatype Input = VerifyAndMatch(actions: seq<Action>, rest: Hash) | OtherInput(bytes: Hash)

  datatype Tx = Tx(hash: Hash, from: Address, to: Option<Address>, input: Input, uses: set<NonceKey>)

  datatype Included = Included(tx: Tx, success: bool)

  datatype Block = Block(hash: Hash, timestamp: int, txs: seq<Included>)

  /** The canonical chain; a block's number is its index. */
  type Chain = seq<Block>

  function Key(a: Action): NonceKey { NonceKey(a.mod, a.owner, a.nonce) }

  predicate In(c: Chain, n: int, k: int) { 0 <= n < |c| && 0 <= k < |c[n].txs| }

  function TxAt(c: Chain, n: nat, k: nat): Included
    requires In(c, n, k)
  {
    c[n].txs[k]
  }

  ghost predicate Used(c: Chain, key: NonceKey) {
    exists n, k :: In(c, n, k) && TxAt(c, n, k).success && key in TxAt(c, n, k).tx.uses
  }

  /** Matching executes an action only before its expiry and only with a fresh nonce. */
  ghost predicate Valid(c: Chain, matching: Address) {
    && (forall i, j :: 0 <= i <= j < |c| ==> c[i].timestamp <= c[j].timestamp)
    && (forall n, k, a :: In(c, n, k) && Executes(TxAt(c, n, k), matching) && a in TxAt(c, n, k).tx.input.actions ==>
          c[n].timestamp <= a.expiry && Key(a) in TxAt(c, n, k).tx.uses)
    && (forall n, k, m, l :: In(c, n, k) && In(c, m, l) && (n, k) != (m, l) && TxAt(c, n, k).success && TxAt(c, m, l).success ==>
          TxAt(c, n, k).tx.uses !! TxAt(c, m, l).tx.uses)
    && (forall n, k, m, l :: In(c, n, k) && In(c, m, l) && TxAt(c, n, k).tx.hash == TxAt(c, m, l).tx.hash ==> (n, k) == (m, l))
  }

  predicate Executes(t: Included, matching: Address) {
    t.success && t.tx.to == Some(matching) && t.tx.input.VerifyAndMatch?
  }

  /** The call data runs successfully in block n. */
  ghost predicate ExecutedIn(c: Chain, matching: Address, input: Input, n: int) {
    exists k :: In(c, n, k) && Executes(TxAt(c, n, k), matching) && TxAt(c, n, k).tx.input == input
  }

  ghost predicate NeverExecuted(c: Chain, matching: Address, input: Input) {
    forall n :: !ExecutedIn(c, matching, input, n)
  }

  // ------------------------------------------------------------------ what a node answers

  datatype Reply<+T> = Found(value: T) | NotFound | Failed

  datatype Receipt = Receipt(blockNumber: nat, blockHash: Hash, success: bool)

  datatype Log = Log(nonce: int, txHash: Hash)

  /** The node at successive reads. Its canonical chain grows; receipts may stem from orphaned blocks;
      any read may fail. */
  datatype Node = Node(
    view: nat -> Chain,
    down: nat -> bool,
    receipt: (nat, Hash) -> Reply<Receipt>,
    transaction: (nat, Hash) -> Reply<Tx>,
    logs: (nat, Address, Address, int) -> Reply<seq<Log>>,
    used: (nat, NonceKey, nat) -> Reply<bool>)

  /** Block and transaction hashes commit to what they name, and reads about the canonical chain are true. */
  ghost predicate Honest(node: Node, matching: Address) {
    && (forall i {:trigger node.view(i)} :: |node.view(i)| > 0 && Valid(node.view(i), matching))
    && (forall i, j {:trigger node.view(i), node.view(j)} :: i <= j ==> node.view(i) <= node.view(j))
    && (forall i, h, j {:trigger node.receipt(i, h), node.view(j)} ::
          node.receipt(i, h).Found? && i <= j ==> ReceiptTrue(node.view(j), h, node.receipt(i, h).value))
    && (forall i, h {:trigger node.receipt(i, h)} :: KnowsReceipt(node.view(i), h, node.receipt(i, h)))
    && (forall i, h, j {:trigger node.transaction(i, h), node.view(j)} ::
          node.transaction(i, h).Found? ==> TransactionTrue(node.view(j), h, node.transaction(i, h).value))
    && (forall i, m, o, from {:trigger node.logs(i, m, o, from)} :: LogsTrue(node.view(i), m, o, from, node.logs(i, m, o, from)))
    && (forall i: nat, key, n: nat {:trigger node.used(i, key, n)} ::
          node.used(i, key, n).Found? && n < |node.view(i)| ==> (node.used(i, key, n).value <==> Used(node.view(i)[..n + 1], key)))
  }

  /** If the canonical block has the receipt's hash, it holds the transaction with the receipt's status. */
  ghost predicate ReceiptTrue(c: Chain, h: Hash, rc: Receipt) {
    rc.blockNumber < |c| && c[rc.blockNumber].hash == rc.blockHash ==>
      exists k :: In(c, rc.blockNumber, k) && TxAt(c, rc.blockNumber, k).tx.hash == h && TxAt(c, rc.blockNumber, k).success == rc.success
  }

  /** A canonical transaction has a receipt, and it is the canonical one. */
  ghost predicate KnowsReceipt(c: Chain, h: Hash, r: Reply<Receipt>) {
    forall n, k :: In(c, n, k) && TxAt(c, n, k).tx.hash == h ==>
      !r.NotFound? && (r.Found? ==> r.value == Receipt(n, c[n].hash, TxAt(c, n, k).success))
  }

  ghost predicate TransactionTrue(c: Chain, h: Hash, tx: Tx) {
    forall n, k :: In(c, n, k) && TxAt(c, n, k).tx.hash == h ==> TxAt(c, n, k).tx == tx
  }

  /** NonceUsed events since a block: exactly the owner's nonces consumed on the canonical chain. */
  ghost predicate LogsTrue(c: Chain, mod: Address, owner: Address, from: int, r: Reply<seq<Log>>) {
    r.Found? ==>
      && (forall n, k, nonce :: In(c, n, k) && n >= from && TxAt(c, n, k).success && NonceKey(mod, owner, nonce) in TxAt(c, n, k).tx.uses ==>
            Log(nonce, TxAt(c, n, k).tx.hash) in r.value)
      && (forall l :: l in r.value ==> LogTrue(c, mod, owner, l))
  }

  ghost predicate LogTrue(c: Chain, mod: Address, owner: Address, l: Log) {
    exists n, k :: In(c, n, k) && TxAt(c, n, k).tx.hash == l.txHash && TxAt(c, n, k).success
                   && NonceKey(mod, owner, l.nonce) in TxAt(c, n, k).tx.uses
  }

  // ------------------------------------------------------------------ reconciliation

  datatype Request = Request(txHash: Option<Hash>, input: Input, first: Action, second: Action, fromBlock: int)

  predicate Exact(req: Request) { req.input.VerifyAndMatch? && req.input.actions == [req.first, req.second] }

  datatype Submitted = Submitted(txHash: Hash, success: bool, blockNumber: nat)

  datatype Outcome = Mined(result: Submitted) | ExpiredUnused | Pending | AttributionError | RpcError

  /** A canonical transaction of the executor that carries exactly the persisted call data. */
  ghost predicate IsMined(c: Chain, executor: Address, matching: Address, input: Input, r: Submitted) {
    exists k :: In(c, r.blockNumber, k)
      && TxAt(c, r.blockNumber, k).tx.hash == r.txHash && TxAt(c, r.blockNumber, k).success == r.success
      && Carries(TxAt(c, r.blockNumber, k).tx, executor, matching, input)
  }

  predicate Carries(tx: Tx, executor: Address, matching: Address, input: Input) {
    tx.from == executor && tx.to == Some(matching) && tx.input == input
  }

  /** Both actions are past their expiry at the chain's head and neither nonce is used. */
  ghost predicate Lapsed(c: Chain, req: Request) {
    && |c| > 0 && c[|c| - 1].timestamp > req.first.expiry && c[|c| - 1].timestamp > req.second.expiry
    && !Used(c, Key(req.first)) && !Used(c, Key(req.second))
  }

  datatype Exactness = Match(result: Submitted) | Absent | Misattributed | Unknown

  method ExactCanonicalResult(node: Node, k: nat, hash: Hash, input: Input, executor: Address, matching: Address)
    returns (r: Exactness, k': nat)
    requires Honest(node, matching)
    ensures k <= k'
    ensures r.Match? ==> r.result.txHash == hash && IsMined(node.view(k'), executor, matching, input, r.result)
    ensures forall n, i :: In(node.view(k), n, i) && TxAt(node.view(k), n, i).tx.hash == hash ==>
              r.Unknown? || if Carries(TxAt(node.view(k), n, i).tx, executor, matching, input)
                            then r == Match(Submitted(hash, TxAt(node.view(k), n, i).success, n)) else r.Misattributed?
  {
    var reply := node.receipt(k, hash);
    k' := k;
    if reply.NotFound? { return Absent, k'; }
    if reply.Failed? { return Unknown, k'; }
    var rc := reply.value;
    k' := k + 1;
    if node.down(k') || rc.blockNumber >= |node.view(k')| { return Unknown, k'; }
    var block := node.view(k')[rc.blockNumber];
    assert node.view(k) <= node.view(k');
    if block.hash != rc.blockHash { return Absent, k'; }
    k' := k + 2;
    assert node.view(k) <= node.view(k + 1) <= node.view(k');
    var found := node.transaction(k', hash);
    if !found.Found? { return Unknown, k'; }
    var tx := found.value;
    assert TransactionTrue(node.view(k), hash, tx) && TransactionTrue(node.view(k'), hash, tx);
    assert ReceiptTrue(node.view(k'), hash, rc);
    if tx.from != executor { return Misattributed, k'; }
    if tx.to != Some(matching) { return Misattributed, k'; }
    if tx.input != input { return Misattributed, k'; }
    r := Match(Submitted(hash, rc.success, rc.blockNumber));
  }

  /** The hashes of the logs with the wanted nonce, each once. */
  method HashesOf(logs: seq<Log>, nonce: int) returns (hashes: seq<Hash>)
    ensures forall h :: h in hashes <==> Log(nonce, h) in logs
    ensures forall i, j :: 0 <= i < j < |hashes| ==> hashes[i] != hashes[j]
  {
    hashes := [];
    for i := 0 to |logs|
      invariant forall h :: h in hashes <==> Log(nonce, h) in logs[..i]
      invariant forall i, j :: 0 <= i < j < |hashes| ==> hashes[i] != hashes[j]
    {
      if logs[i].nonce == nonce && logs[i].txHash !in hashes { hashes := hashes + [logs[i].txHash]; }
    }
    assert logs[..|logs|] == logs;
  }

  /** A nonce is consumed once, so the logs name at most one transaction for it. */
  lemma OneHash(c: Chain, matching: Address, mod: Address, owner: Address, a: Log, b: Log)
    requires Valid(c, matching) && LogTrue(c, mod, owner, a) && LogTrue(c, mod, owner, b) && a.nonce == b.nonce
    ensures a.txHash == b.txHash
  {
    var n, i :| In(c, n, i) && TxAt(c, n, i).tx.hash == a.txHash && TxAt(c, n, i).success
                && NonceKey(mod, owner, a.nonce) in TxAt(c, n, i).tx.uses;
    var m, l :| In(c, m, l) && TxAt(c, m, l).tx.hash == b.txHash && TxAt(c, m, l).success
                && NonceKey(mod, owner, a.nonce) in TxAt(c, m, l).tx.uses;
  }

  lemma SameHashes(node: Node, matching: Address, k: nat, mod: Address, owner: Address, nonce: int, from: int,
      hashes: seq<Hash>)
    requires Honest(node, matching) && node.logs(k, mod, owner, from).Found?
    requires forall h :: h in hashes <==> Log(nonce, h) in node.logs(k, mod, owner, from).value
    ensures forall i, j :: 0 <= i < |hashes| && 0 <= j < |hashes| ==> hashes[i] == hashes[j]
  {
    var c := node.view(k);
    forall i, j | 0 <= i < |hashes| && 0 <= j < |hashes| ensures hashes[i] == hashes[j] {
      assert LogsTrue(c, mod, owner, from, node.logs(k, mod, owner, from));
      OneHash(c, matching, mod, owner, Log(nonce, hashes[i]), Log(nonce, hashes[j]));
    }
  }

  lemma ExecutionUses(c: Chain, d: Chain, matching: Address, req: Request, n: int)
    requires Exact(req) && c <= d && Valid(d, matching) && ExecutedIn(d, matching, req.input, n)
    ensures 0 <= n < |d| && d[n].timestamp <= req.first.expiry
    ensures n < |c| ==> Used(c, Key(req.first))
  {
    var k :| In(d, n, k) && Executes(TxAt(d, n, k), matching) && TxAt(d, n, k).tx.input == req.input;
    assert req.first in TxAt(d, n, k).tx.input.actions;
    if n < |c| { assert In(c, n, k) && TxAt(c, n, k) == TxAt(d, n, k); }
  }

  /** Once both signed actions are past expiry and neither nonce is used, no extension of the chain
      ever executes the call data. */
  lemma LapsedIsFinal(c: Chain, d: Chain, matching: Address, req: Request)
    requires Lapsed(c, req) && Exact(req) && c <= d && Valid(d, matching)
    ensures NeverExecuted(d, matching, req.input)
  {
    forall n ensures !ExecutedIn(d, matching, req.input, n) {
      assert n >= |c| && n < |d| ==> d[|c| - 1].timestamp <= d[n].timestamp;
      if ExecutedIn(d, matching, req.input, n) { ExecutionUses(c, d, matching, req, n); }
    }
  }

  /** A canonical transaction stays mined in every extension. */
  lemma MinedIsFinal(c: Chain, d: Chain, executor: Address, matching: Address, input: Input, r: Submitted)
    requires IsMined(c, executor, matching, input, r) && c <= d
    ensures IsMined(d, executor, matching, input, r)
  {
    var k :| In(c, r.blockNumber, k)
      && TxAt(c, r.blockNumber, k).tx.hash == r.txHash && TxAt(c, r.blockNumber, k).success == r.success
      && Carries(TxAt(c, r.blockNumber, k).tx, executor, matching, input);
    assert In(d, r.blockNumber, k) && TxAt(d, r.blockNumber, k) == TxAt(c, r.blockNumber, k);
  }

  /** The executor's own transaction with the persisted call data has succeeded on the chain. */
  ghost predicate Landed(c: Chain, executor: Address, matching: Address, req: Request) {
    exists n, k :: n >= req.fromBlock && In(c, n, k) && TxAt(c, n, k).success && Carries(TxAt(c, n, k).tx, executor, matching, req.input)
                   && (req.txHash.Some? ==> TxAt(c, n, k).tx.hash == req.txHash.value)
  }

  /** Only successful transactions leave logs, and what was canonical stays so. */
  lemma LoggedSucceeded(node: Node, matching: Address, k: nat, j: nat, mod: Address, owner: Address, nonce: int, from: int, h: Hash)
    requires Honest(node, matching) && node.logs(k, mod, owner, from).Found? && Log(nonce, h) in node.logs(k, mod, owner, from).value
    requires k <= j
    ensures exists n, i :: In(node.view(j), n, i) && TxAt(node.view(j), n, i).tx.hash == h && TxAt(node.view(j), n, i).success
  {
    var c, d := node.view(k), node.view(j);
    assert c <= d && LogsTrue(c, mod, owner, from, node.logs(k, mod, owner, from)) && LogTrue(c, mod, owner, Log(nonce, h));
    var n, i :| In(c, n, i) && TxAt(c, n, i).tx.hash == h && TxAt(c, n, i).success && NonceKey(mod, owner, nonce) in TxAt(c, n, i).tx.uses;
    assert In(d, n, i) && TxAt(d, n, i) == TxAt(c, n, i);
  }

  /** The reads of reconcileVerifyAndMatch before it looks at expiry. */
  method FindExact(node: Node, k: nat, req: Request, executor: Address, matching: Address) returns (r: Exactness,
      k': nat)
    requires Honest(node, matching) && Exact(req)
    ensures k <= k'
    ensures r.Match? ==> IsMined(node.view(k'), executor, matching, req.input, r.result)
    ensures r.Match? ==> if req.txHash.Some? then r.result.txHash == req.txHash.value else r.result.success
    ensures Landed(node.view(k), executor, matching, req) ==> r.Match? || r.Unknown?
  {
    if req.txHash.Some? {
      r, k' := ExactCanonicalResult(node, k, req.txHash.value, req.input, executor, matching);
      return;
    }
    var logs := node.logs(k, req.first.mod, req.first.owner, req.fromBlock);
    if !logs.Found? { return Unknown, k; }
    var hashes := HashesOf(logs.value, req.first.nonce);
    SameHashes(node, matching, k, req.first.mod, req.first.owner, req.first.nonce, req.fromBlock, hashes);
    LandedIsLogged(node, matching, executor, k, req, hashes);
    var exact: seq<Submitted> := [];
    k' := k;
    for i := 0 to |hashes|
      invariant k <= k' && |exact| <= i
      invariant forall e :: e in exact ==> IsMined(node.view(k'), executor, matching, req.input, e) && e.success
      invariant Landed(node.view(k), executor, matching, req) ==> |exact| == i
    {
      LoggedSucceeded(node, matching, k, k', req.first.mod, req.first.owner, req.first.nonce, req.fromBlock, hashes[i]);
      var one, next := ExactCanonicalResult(node, k', hashes[i], req.input, executor, matching);
      forall e | e in exact ensures IsMined(node.view(next), executor, matching, req.input, e) {
        MinedIsFinal(node.view(k'), node.view(next), executor, matching, req.input, e);
      }
      LandedStays(node, matching, executor, k, k', req, hashes[i]);
      k' := next;
      if one.Unknown? { return Unknown, k'; }
      if one.Misattributed? { return Misattributed, k'; }
      if one.Match? { exact := exact + [one.result]; }
    }
    AtMostOne(hashes);
    // so the error "multiple canonical transactions match" cannot arise
    assert |exact| <= 1;
    if |exact| == 1 { assert exact[0] in exact; return Match(exact[0]), k'; }
    return Absent, k';
  }

  lemma AtMostOne(hashes: seq<Hash>)
    requires forall i, j :: 0 <= i < j < |hashes| ==> hashes[i] != hashes[j]
    requires forall i, j :: 0 <= i < |hashes| && 0 <= j < |hashes| ==> hashes[i] == hashes[j]
    ensures |hashes| <= 1
  {
    if |hashes| > 1 { Repeats(hashes); }
  }

  lemma Repeats(hashes: seq<Hash>)
    requires |hashes| > 1
    requires forall i, j :: 0 <= i < |hashes| && 0 <= j < |hashes| ==> hashes[i] == hashes[j]
    ensures exists i, j :: 0 <= i < j < |hashes| && hashes[i] == hashes[j]
  {
    assert hashes[0] == hashes[1];
  }

  /** The landed transaction is the one that the logs name. */
  lemma LandedIsLogged(node: Node, matching: Address, executor: Address, k: nat, req: Request, hashes: seq<Hash>)
    requires Honest(node, matching) && Exact(req) && node.logs(k, req.first.mod, req.first.owner, req.fromBlock).Found?
    requires forall h :: h in hashes <==> Log(req.first.nonce, h) in node.logs(k, req.first.mod, req.first.owner, req.fromBlock).value
    requires forall i, j :: 0 <= i < |hashes| && 0 <= j < |hashes| ==> hashes[i] == hashes[j]
    ensures Landed(node.view(k), executor, matching, req) ==> |hashes| > 0
    ensures Landed(node.view(k), executor, matching, req) ==> forall h :: h in hashes ==> LandedAs(node.view(k), executor, matching, req, h)
  {
    var c := node.view(k);
    if Landed(c, executor, matching, req) {
      var n, i :| n >= req.fromBlock && In(c, n, i) && TxAt(c, n, i).success && Carries(TxAt(c, n, i).tx, executor, matching, req.input)
                  && (req.txHash.Some? ==> TxAt(c, n, i).tx.hash == req.txHash.value);
      var h := TxAt(c, n, i).tx.hash;
      assert Valid(c, matching) && Executes(TxAt(c, n, i), matching) && req.first in TxAt(c, n, i).tx.input.actions;
      assert Key(req.first) in TxAt(c, n, i).tx.uses;
      assert LogsTrue(c, req.first.mod, req.first.owner, req.fromBlock, node.logs(k, req.first.mod, req.first.owner, req.fromBlock));
      assert h in hashes;
      assert LandedAs(c, executor, matching, req, h);
    }
  }

  ghost predicate LandedAs(c: Chain, executor: Address, matching: Address, req: Request, h: Hash) {
    exists n, k :: In(c, n, k) && TxAt(c, n, k).tx.hash == h && Carries(TxAt(c, n, k).tx, executor, matching, req.input)
  }

  lemma LandedStays(node: Node, matching: Address, executor: Address, k: nat, j: nat, req: Request, h: Hash)
    requires Honest(node, matching) && k <= j
    ensures LandedAs(node.view(k), executor, matching, req, h) ==> LandedAs(node.view(j), executor, matching, req, h)
  {
    var c, d := node.view(k), node.view(j);
    assert c <= d;
    if LandedAs(c, executor, matching, req, h) {
      var n, i :| In(c, n, i) && TxAt(c, n, i).tx.hash == h && Carries(TxAt(c, n, i).tx, executor, matching, req.input);
      assert In(d, n, i) && TxAt(d, n, i) == TxAt(c, n, i);
    }
  }

  /** reconcileVerifyAndMatch. Its verdicts are final: "mined" names a canonical transaction with exactly the
      persisted call data, "expired unused" means that no extension of the chain executes it. And it does
      not overlook a success: one that was canonical before the call is never reported as pending or unused. */
  method ReconcileVerifyAndMatch(node: Node, k: nat, req: Request, executor: Address, matching: Address)
    returns (r: Outcome, k': nat)
    requires Honest(node, matching) && Exact(req)
    ensures k <= k'
    ensures r.Mined? ==> IsMined(node.view(k'), executor, matching, req.input, r.result)
    ensures r.Mined? ==> if req.txHash.Some? then r.result.txHash == req.txHash.value else r.result.success
    ensures r.ExpiredUnused? ==> Lapsed(node.view(k'), req)
    ensures r.ExpiredUnused? ==> forall d :: node.view(k') <= d && Valid(d, matching) ==> NeverExecuted(d, matching, req.input)
    ensures Landed(node.view(k), executor, matching, req) && req.first.mod == req.second.mod ==> r.Mined? || r.RpcError?
  {
    if req.first.mod != req.second.mod { return AttributionError, k; }
    var found;
    found, k' := FindExact(node, k, req, executor, matching);
    match found {
      case Match(result) => return Mined(result), k';
      case Unknown => return RpcError, k';
      case Misattributed => return AttributionError, k';
      case Absent =>
    }
    k' := k' + 1;
    if node.down(k') { return RpcError, k'; }
    var number := |node.view(k')| - 1;
    var latest := node.view(k')[number];
    if latest.timestamp > req.first.expiry && latest.timestamp > req.second.expiry {
      var one := node.used(k' + 1, Key(req.first), number);
      var two := node.used(k' + 2, Key(req.second), number);
      if !one.Found? || !two.Found? { return RpcError, k' + 2; }
      if !one.value && !two.value {
        assert node.view(k') <= node.view(k' + 1) && node.view(k') <= node.view(k' + 2);
        assert node.view(k' + 1)[..number + 1] == node.view(k') == node.view(k' + 2)[..number + 1];
        forall d | node.view(k') <= d && Valid(d, matching) ensures NeverExecuted(d, matching, req.input) {
          LapsedIsFinal(node.view(k'), d, matching, req);
        }
        return ExpiredUnused, k';
      }
    }
    r := Pending;
  }
}
