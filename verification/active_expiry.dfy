/** The active-expiry index (activeExpiryIndex.ts): the option balances of the chain, scanned in chunks and
    saved after each, and what the oracle derives from them. */
module ActiveExpiry {
  import opened Types
  import opened Instruments

  // ------------------------------------------------------------------ balance events

  datatype PositionKey = PositionKey(accountId: nat, subId: nat)

  type Positions = map<PositionKey, int>

  datatype BalanceAdjusted = BalanceAdjusted(accountId: nat, assetAndSubId: nat, postBalance: int)

  datatype AssetAndSubId = AssetAndSubId(asset: Address, subId: nat)

  function DecodeAssetAndSubId(packed: nat): AssetAndSubId {
    Quotient(packed, 96);
    AssetAndSubId(ShiftRight(packed, 96), BitAnd(packed, UINT96_MAX))
  }

  lemma Quotient(a: nat, k: nat)
    ensures ShiftRight(a, k) >= 0
  {
    var p := Pow2(k);
    var q := a / p;
    Euclid(a, p);
    assert q * p == -((-q) * p);
    if q < 0 { AtLeast(-q, p); }
  }

  lemma Wide()
    ensures Pow2(96) == UINT96_MAX + 1
  {
    Widths();
    assert Pow2(96) == 2 * Pow2(95);
    hide Pow2;
  }

  /** Packing an asset and a 96-bit sub id loses neither. */
  lemma PackedKey(asset: Address, subId: nat)
    requires subId <= UINT96_MAX
    ensures DecodeAssetAndSubId(asset * (UINT96_MAX + 1) + subId) == AssetAndSubId(asset, subId)
  {
    Wide();
    hide Pow2, BitAnd;
    var packed := asset * (UINT96_MAX + 1) + subId;
    ModUnique(packed, asset, subId, UINT96_MAX + 1);
    MaskIsMod(packed, 96);
  }

  function ApplyBalanceAdjustment(positions: Positions, e: BalanceAdjusted, optionAsset: Address): Positions {
    var decoded := DecodeAssetAndSubId(e.assetAndSubId);
    if decoded.asset != optionAsset then positions
    else
      var key := PositionKey(e.accountId, decoded.subId);
      if e.postBalance == 0 then positions - {key} else positions[key := e.postBalance]
  }

  function Fold(events: seq<BalanceAdjusted>, optionAsset: Address): Positions {
    if events == [] then map[]
    else ApplyBalanceAdjustment(Fold(events[..|events| - 1], optionAsset), events[|events| - 1], optionAsset)
  }

  predicate About(e: BalanceAdjusted, key: PositionKey, optionAsset: Address) {
    e.accountId == key.accountId && DecodeAssetAndSubId(e.assetAndSubId) == AssetAndSubId(optionAsset, key.subId)
  }

  /** The post-balance of the last event about a key; zero without one. */
  function LastBalance(events: seq<BalanceAdjusted>, key: PositionKey, optionAsset: Address): int {
    if events == [] then 0
    else if About(events[|events| - 1], key, optionAsset) then events[|events| - 1].postBalance
    else LastBalance(events[..|events| - 1], key, optionAsset)
  }

  /** The index holds exactly the last non-zero post-balance of every account and option. */
  lemma {:induction false} FoldIsLastBalance(events: seq<BalanceAdjusted>, key: PositionKey, optionAsset: Address)
    ensures key in Fold(events, optionAsset) <==> LastBalance(events, key, optionAsset) != 0
    ensures key in Fold(events, optionAsset) ==> Fold(events, optionAsset)[key] == LastBalance(events, key, optionAsset)
  {
    if events != [] {
      FoldIsLastBalance(events[..|events| - 1], key, optionAsset);
      hide DecodeAssetAndSubId;
    }
  }

  /** No later event about the key than the one that decides it. */
  lemma {:induction false} LastBalanceIsLast(events: seq<BalanceAdjusted>, key: PositionKey, optionAsset: Address,
      i: nat)
    requires i < |events| && About(events[i], key, optionAsset)
    requires forall j :: i < j < |events| ==> !About(events[j], key, optionAsset)
    ensures LastBalance(events, key, optionAsset) == events[i].postBalance
  {
    hide About;
    if i < |events| - 1 {
      var init := events[..|events| - 1];
      assert forall j :: 0 <= j < |init| ==> init[j] == events[j];
      LastBalanceIsLast(init, key, optionAsset, i);
    }
  }

  lemma {:induction false} FoldConcat(a: seq<BalanceAdjusted>, b: seq<BalanceAdjusted>, optionAsset: Address)
    ensures Fold(a + b, optionAsset) == ApplyAll(Fold(a, optionAsset), b, optionAsset)
  {
    if b == [] {
      assert a + b == a;
    } else {
      assert (a + b)[..|a + b| - 1] == a + b[..|b| - 1];
      FoldConcat(a, b[..|b| - 1], optionAsset);
    }
  }

  function ApplyAll(positions: Positions, events: seq<BalanceAdjusted>, optionAsset: Address): Positions {
    if events == [] then positions
    else ApplyBalanceAdjustment(ApplyAll(positions, events[..|events| - 1], optionAsset), events[|events| - 1], optionAsset)
  }

  // ------------------------------------------------------------------ scanning

  datatype Block = Block(hash: Hash, events: seq<BalanceAdjusted>)

  type Chain = seq<Block>

  function Range(chain: Chain, from: int, last: int): seq<BalanceAdjusted>
    requires 0 <= from && last < |chain|
    decreases last - from
  {
    if last < from then [] else Range(chain, from, last - 1) + chain[last].events
  }

  lemma {:induction false} RangeSplits(chain: Chain, from: nat, mid: int, last: int)
    requires from <= mid + 1 && mid <= last < |chain|
    ensures Range(chain, from, last) == Range(chain, from, mid) + Range(chain, mid + 1, last)
    decreases last - mid
  {
    if mid < last {
      RangeSplits(chain, from, mid, last - 1);
      assert Range(chain, from, mid) + (Range(chain, mid + 1, last - 1) + chain[last].events)
          == Range(chain, from, mid) + Range(chain, mid + 1, last - 1) + chain[last].events;
    }
  }

  datatype IndexState = IndexState(fromBlock: nat, lastScanned: int, hash: Option<Hash>, positions: Positions)

  /** The state is the fold of what it scanned, unless its checkpoint is no longer canonical. */
  ghost predicate Trusted(s: IndexState, chain: Chain, optionAsset: Address) {
    && s.lastScanned >= s.fromBlock - 1
    && (s.lastScanned < s.fromBlock ==> s.positions == map[])
    && (s.lastScanned >= s.fromBlock ==>
          s.hash.Some? && (s.lastScanned < |chain| && chain[s.lastScanned].hash == s.hash.value ==>
                             s.positions == Fold(Range(chain, s.fromBlock, s.lastScanned), optionAsset)))
  }

  /** The first block with code, by bisection. For any answers it is a block with code whose predecessor has none. */
  method FindDeploymentBlock(hasCode: nat -> bool, safeHead: nat) returns (r: Option<nat>)
    ensures r.None? <==> !hasCode(safeHead)
    ensures r.Some? ==> r.value <= safeHead && hasCode(r.value) && (r.value > 0 ==> !hasCode(r.value - 1))
    ensures r.Some? && (forall a: nat, b: nat :: a <= b && hasCode(a) ==> hasCode(b)) ==> forall b: nat :: hasCode(b) <==> b >= r.value
  {
    if !hasCode(safeHead) { return None; }
    var low, high := 0, safeHead;
    while low < high
      invariant 0 <= low <= high <= safeHead && hasCode(high) && (low > 0 ==> !hasCode(low - 1))
    {
      var mid := (low + high) / 2;
      if hasCode(mid) { high := mid; } else { low := mid + 1; }
    }
    if forall a: nat, b: nat :: a <= b && hasCode(a) ==> hasCode(b) { FirstWithCode(hasCode, low); }
    r := Some(low);
  }

  lemma FirstWithCode(hasCode: nat -> bool, low: nat)
    requires forall a: nat, b: nat :: a <= b && hasCode(a) ==> hasCode(b)
    requires hasCode(low) && (low > 0 ==> !hasCode(low - 1))
    ensures forall b: nat :: hasCode(b) <==> b >= low
  {
    forall b: nat ensures hasCode(b) <==> b >= low { if b < low { assert b <= low - 1; } }
  }

  /** The process's state and the file it was last saved to. */
  class ActiveExpiryIndex {
    var state: Option<IndexState>
    var saved: Option<IndexState>

    constructor (file: Option<IndexState>)
      ensures state == None && saved == file
    {
      state, saved := None, file;
    }

    method Save()
      requires state.Some?
      modifies this`saved
      ensures saved == state
    {
      saved := state;
    }

    method Crash()
      modifies this`state
      ensures state == None
    {
      state := None;
    }
  }

  datatype SyncResult = Synced | NotYet | Crashed | Failed

  /** Every chain that the process may be shown, now or after a reorganisation. A block's hash commits to the block
      and to all before it. */
  type World = iset<Chain>

  ghost predicate Committed(world: World) {
    forall c: Chain, d: Chain, b :: c in world && d in world && 0 <= b < |c| && b < |d| && c[b].hash == d[b].hash ==> c[..b + 1] == d[..b + 1]
  }

  ghost predicate TrustedIn(s: IndexState, world: World, optionAsset: Address) {
    forall chain: Chain :: chain in world ==> Trusted(s, chain, optionAsset)
  }

  ghost predicate Both(index: ActiveExpiryIndex, world: World, optionAsset: Address)
    reads index
  {
    && (index.state.Some? ==> TrustedIn(index.state.value, world, optionAsset))
    && (index.saved.Some? ==> TrustedIn(index.saved.value, world, optionAsset))
  }

  lemma {:induction false} SameRange(c: Chain, d: Chain, from: nat, last: int)
    requires -1 <= last < |c| && last < |d| && c[..last + 1] == d[..last + 1]
    ensures Range(c, from, last) == Range(d, from, last)
    decreases last
  {
    if from <= last {
      assert c[..last + 1][last] == c[last] && d[..last + 1][last] == d[last];
      assert c[..last] == c[..last + 1][..last] && d[..last] == d[..last + 1][..last];
      SameRange(c, d, from, last - 1);
    }
  }

  /** What was read from one chain, up to a block that was canonical there, is the fold of any chain on which
      that block is canonical: no reorganisation can make the state wrong without changing the hash. */
  lemma ReorgKeepsTrusted(s: IndexState, chain: Chain, world: World, optionAsset: Address)
    requires Committed(world) && chain in world && Current(s, chain, optionAsset)
    requires s.lastScanned >= s.fromBlock ==> s.hash == Some(chain[s.lastScanned].hash)
    ensures TrustedIn(s, world, optionAsset)
  {
    hide Fold, Range;
    forall later: Chain | later in world ensures Trusted(s, later, optionAsset) {
      var b := s.lastScanned;
      if s.fromBlock <= b < |later| && later[b].hash == chain[b].hash {
        assert chain[..b + 1] == later[..b + 1];
        SameRange(chain, later, s.fromBlock, b);
      }
    }
  }

  method ResetState(index: ActiveExpiryIndex, chain: Chain, configured: Option<nat>, hasCode: nat -> bool,
      safeHead: nat, budget: nat, ghost world: World, ghost optionAsset: Address)
    returns (ok: bool, left: nat)
    requires safeHead < |chain| && Both(index, world, optionAsset)
    modifies index
    ensures Both(index, world, optionAsset)
    ensures ok ==> index.state.Some? && Current(index.state.value, chain, optionAsset)
                   && index.state.value.lastScanned == index.state.value.fromBlock - 1
    ensures !ok ==> index.state.None? || index.state == old(index.state)
  {
    left := budget;
    var found := configured;
    if found.None? { found := FindDeploymentBlock(hasCode, safeHead); }
    if found.None? || found.value > |chain| { return false, left; }
    var hash := if found.value > 0 then Some(chain[found.value - 1].hash) else None;
    index.state := Some(IndexState(found.value, found.value - 1, hash, map[]));
    if left == 0 { index.Crash(); return false, left; }
    index.Save();
    return true, left - 1;
  }

  method ApplyLogs(positions: Positions, logs: seq<BalanceAdjusted>, optionAsset: Address) returns (r: Positions)
    ensures r == ApplyAll(positions, logs, optionAsset)
  {
    r := positions;
    for i := 0 to |logs|
      invariant r == ApplyAll(positions, logs[..i], optionAsset)
    {
      assert logs[..i + 1][..i] == logs[..i];
      r := ApplyBalanceAdjustment(r, logs[i], optionAsset);
    }
    assert logs[..|logs|] == logs;
  }

  lemma Scanned(s: IndexState, chain: Chain, last: nat, world: World, optionAsset: Address)
    requires chain in world && Committed(world) && Current(s, chain, optionAsset) && s.lastScanned < last < |chain|
    ensures var n := IndexState(s.fromBlock, last, Some(chain[last].hash), ApplyAll(s.positions, Range(chain, s.lastScanned + 1, last), optionAsset));
            Current(n, chain, optionAsset) && TrustedIn(n, world, optionAsset)
  {
    hide Committed, TrustedIn, Fold, ApplyAll, Range;
    FoldOfRange(s, chain, optionAsset);
    RangeSplits(chain, s.fromBlock, s.lastScanned, last);
    FoldConcat(Range(chain, s.fromBlock, s.lastScanned), Range(chain, s.lastScanned + 1, last), optionAsset);
    var n := IndexState(s.fromBlock, last, Some(chain[last].hash), ApplyAll(s.positions, Range(chain, s.lastScanned + 1, last), optionAsset));
    ReorgKeepsTrusted(n, chain, world, optionAsset);
  }

  lemma FoldOfRange(s: IndexState, chain: Chain, optionAsset: Address)
    requires Current(s, chain, optionAsset) && s.lastScanned < |chain|
    ensures s.positions == Fold(Range(chain, s.fromBlock, s.lastScanned), optionAsset)
  {
  }

  /** One chunk: apply its events, record its last block, save. */
  method ScanChunk(index: ActiveExpiryIndex, chain: Chain, optionAsset: Address, last: nat,
      budget: nat, ghost world: World) returns (alive: bool, left: nat)
    requires chain in world && Committed(world)
    requires Both(index, world, optionAsset) && index.state.Some? && Current(index.state.value, chain, optionAsset)
    requires index.state.value.lastScanned < last < |chain|
    modifies index
    ensures Both(index, world, optionAsset)
    ensures alive ==> index.state.Some? && Current(index.state.value, chain, optionAsset)
    ensures alive ==> index.state.value.fromBlock == old(index.state.value.fromBlock) && index.state.value.lastScanned == last
  {
    var s := index.state.value;
    var logs := Range(chain, s.lastScanned + 1, last);
    var positions := ApplyLogs(s.positions, logs, optionAsset);
    Scanned(s, chain, last, world, optionAsset);
    hide Fold, ApplyAll, Range, Current, TrustedIn, Committed;
    left := budget;
    index.state := Some(IndexState(s.fromBlock, last, Some(chain[last].hash), positions));
    if left == 0 { index.Crash(); return false, left; }
    left := left - 1;
    index.Save();
    alive := true;
  }

  /** The scan of performSync from a trusted state; budget counts the saves before the process dies. */
  method Scan(index: ActiveExpiryIndex, chain: Chain, chunkSize: nat, optionAsset: Address, safeHead: nat,
      budget: nat, ghost world: World) returns (alive: bool)
    requires chain in world && Committed(world)
    requires chunkSize > 0 && safeHead < |chain| && Both(index, world, optionAsset) && index.state.Some?
    requires Current(index.state.value, chain, optionAsset) && index.state.value.lastScanned <= Max(safeHead, index.state.value.fromBlock - 1)
    modifies index
    ensures Both(index, world, optionAsset)
    ensures alive ==> index.state.Some? && index.state.value.fromBlock == old(index.state.value.fromBlock)
    ensures alive ==> index.state.value.lastScanned == Max(safeHead, index.state.value.fromBlock - 1)
    ensures alive ==> Current(index.state.value, chain, optionAsset)
  {
    var left := budget;
    var from := index.state.value.fromBlock;
    var cursor := index.state.value.lastScanned + 1;
    assert from <= cursor;
    hide Fold, ApplyAll, Range, Current, Trusted, Both, Committed;
    while cursor <= safeHead
      invariant index.state.Some? && index.state.value.fromBlock == from && index.state.value.lastScanned == cursor - 1
      invariant Both(index, world, optionAsset) && Current(index.state.value, chain, optionAsset)
      invariant from <= cursor <= Max(safeHead, from - 1) + 1
      decreases safeHead + 1 - cursor
    {
      var last := if cursor + chunkSize - 1 < safeHead then cursor + chunkSize - 1 else safeHead;
      alive, left := ScanChunk(index, chain, optionAsset, last, left, world);
      if !alive { return; }
      cursor := last + 1;
    }
    alive := true;
  }

  function Max(a: int, b: int): int { if a < b then b else a }

  /** The state is the fold of the canonical blocks it has scanned. */
  ghost predicate Current(s: IndexState, chain: Chain, optionAsset: Address) {
    if s.lastScanned < s.fromBlock then s.lastScanned == s.fromBlock - 1 && s.positions == map[]
    else s.lastScanned < |chain| && s.positions == Fold(Range(chain, s.fromBlock, s.lastScanned), optionAsset)
  }

  /** sync: load or reset, drop a checkpoint that is ahead or not canonical, scan to the safe head. After any
      completed sync the index is the fold of all events from its first block to the safe head of the chain it was
      shown, whatever chains earlier syncs were shown and wherever they died; and it stays fit for every later one. */
  method PerformSync(index: ActiveExpiryIndex, chain: Chain, confirmations: nat, chunkSize: nat, optionAsset: Address,
      configured: Option<nat>, hasCode: nat -> bool, budget: nat, ghost world: World)
    returns (r: SyncResult)
    requires chunkSize > 0 && |chain| > 0 && chain in world && Committed(world) && Both(index, world, optionAsset)
    modifies index
    ensures Both(index, world, optionAsset)
    ensures r.Synced? ==> |chain| - 1 >= confirmations && index.state.Some?
                          && index.state.value.lastScanned == Max(|chain| - 1 - confirmations, index.state.value.fromBlock - 1)
                          && Current(index.state.value, chain, optionAsset)
  {
    if |chain| - 1 < confirmations { return NotYet; }
    var safeHead := |chain| - 1 - confirmations;
    var left, ok := budget, true;
    hide Fold, Range, Committed;
    if index.state.None? {
      if index.saved.Some? { index.state := index.saved; }
      else { ok, left := ResetState(index, chain, configured, hasCode, safeHead, left, world, optionAsset); }
    }
    if !ok || index.state.None? { return if index.state.None? then Crashed else SyncResult.Failed; }
    var s := index.state.value;
    if s.lastScanned >= s.fromBlock && s.hash.Some? && (s.lastScanned > safeHead || chain[s.lastScanned].hash != s.hash.value) {
      ok, left := ResetState(index, chain, configured, hasCode, safeHead, left, world, optionAsset);
      if !ok { return if index.state.None? then Crashed else SyncResult.Failed; }
    }
    assert Trusted(index.state.value, chain, optionAsset);
    StartCurrent(index.state.value, chain, optionAsset);
    var alive := Scan(index, chain, chunkSize, optionAsset, safeHead, left, world);
    r := if alive then Synced else Crashed;
  }

  lemma StartCurrent(s: IndexState, chain: Chain, optionAsset: Address)
    requires Trusted(s, chain, optionAsset)
    requires s.lastScanned >= s.fromBlock ==> s.lastScanned < |chain| && Some(chain[s.lastScanned].hash) == s.hash
    ensures Current(s, chain, optionAsset)
  {
  }
}
