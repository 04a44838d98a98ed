/** The arithmetic of withdrawals (withdrawal.ts): conversions that round in a chosen direction, the
    exact maximum search, the preview's caps, and the final policy check. */
module WithdrawalPolicy {
  import opened Types
  import opened Decimal
  import AuctionCore
  import Protocol

  const ONE := 1_000_000_000_000_000_000
  const BPS := 10_000

  // ------------------------------------------------------------------ division

  /** For d > 0, x <= a / d exactly when x * d <= a. */
  lemma QuotientBound(x: int, a: int, d: int)
    requires d > 0
    ensures x <= a / d <==> x * d <= a
  {
    var q, r := a / d, a % d;
    assert a == q * d + r;
    if x <= q { Grows(x, q, d); }
    if x > q { Grows(q + 1, x, d); }
  }

  lemma Grows(x: int, y: int, d: int)
    requires d > 0 && x <= y
    ensures x * d <= y * d
  {
  }

  // ------------------------------------------------------------------ token units and 18-decimal amounts

  function ToTokenUnitsFloor(amount18: int, decimals: nat): int {
    if amount18 <= 0 then 0
    else if decimals == 18 then amount18
    else if decimals < 18 then amount18 / Pow10(18 - decimals)
    else amount18 * Pow10(decimals - 18)
  }

  function ToTokenUnitsCeil(amount18: int, decimals: nat): int {
    if amount18 <= 0 then 0
    else if decimals >= 18 then amount18 * Pow10(decimals - 18)
    else
      var divisor := Pow10(18 - decimals);
      (amount18 + divisor - 1) / divisor
  }

  function TokenQuantum(decimals: nat): (q: nat)
    ensures q > 0
  {
    if decimals > 18 then Pow10(decimals - 18) else 1
  }

  function TokenUnitsTo18Floor(tokenUnits: int, decimals: nat): int {
    if decimals == 18 then tokenUnits
    else if decimals < 18 then tokenUnits * Pow10(18 - decimals)
    else tokenUnits / Pow10(decimals - 18)
  }

  predicate Aligned(tokenUnits: int, decimals: nat) { tokenUnits % TokenQuantum(decimals) == 0 }

  /** An aligned amount of tokens is within the floor of an internal amount exactly when what it debits
      internally is within that amount: rounding neither steals nor gives. */
  lemma FloorIsExact(tokenUnits: int, amount18: int, decimals: nat)
    requires tokenUnits > 0 && Aligned(tokenUnits, decimals)
    ensures tokenUnits <= ToTokenUnitsFloor(amount18, decimals) <==> TokenUnitsTo18Floor(tokenUnits, decimals) <= amount18
  {
    hide Pow10;
    if decimals < 18 {
      var d := Pow10(18 - decimals);
      QuotientBound(tokenUnits, amount18, d);
      Grows(1, d, tokenUnits);
      assert d * tokenUnits == tokenUnits * d;
    } else if decimals > 18 {
      var d := Pow10(decimals - 18);
      var q := tokenUnits / d;
      assert tokenUnits == q * d;
      PositiveQuotient(q, d);
      if q <= amount18 { Grows(q, amount18, d); }
      if q > amount18 { Grows(amount18 + 1, q, d); assert (amount18 + 1) * d == amount18 * d + d; }
    }
  }

  lemma PositiveQuotient(q: int, d: int)
    requires d > 0 && q * d > 0
    ensures q > 0
  {
    if q <= 0 { Grows(q, 0, d); }
  }

  /** The ceiling is the least number of tokens whose internal value reaches the amount. */
  lemma CeilIsLeast(tokenUnits: int, amount18: int, decimals: nat)
    requires amount18 > 0 && decimals <= 18
    ensures ToTokenUnitsCeil(amount18, decimals) <= tokenUnits <==> amount18 <= TokenUnitsTo18Floor(tokenUnits, decimals)
  {
    hide Pow10;
    if decimals == 18 {
      assert Pow10(0) == 1 by { PowZero(); }
    } else {
      var d := Pow10(18 - decimals);
      QuotientBound(tokenUnits + 1, amount18 + d - 1, d);
      assert (tokenUnits + 1) * d == tokenUnits * d + d;
    }
  }

  lemma PowZero()
    ensures Pow10(0) == 1
  {
  }

  /** Rounding down to the quantum keeps a bound and yields an aligned amount. */
  lemma Realigned(x: int, q: int)
    requires q > 0 && x >= 0
    ensures 0 <= (x / q) * q <= x && ((x / q) * q) % q == 0
    ensures x % q == 0 ==> (x / q) * q == x
    ensures forall y :: 0 <= y <= x && y % q == 0 ==> y <= (x / q) * q
  {
    var k := x / q;
    QuotientBound(k, x, q);
    QuotientBound(0, x, q);
    Grows(0, k, q);
    Multiple(k, q);
    forall y | 0 <= y <= x && y % q == 0 ensures y <= k * q {
      var j := y / q;
      assert y == j * q;
      QuotientBound(j, x, q);
      Grows(j, k, q);
    }
  }

  lemma Multiple(k: int, q: int)
    requires q > 0
    ensures (k * q) % q == 0
  {
    var r := (k * q) % q;
    var m := (k * q) / q;
    assert k * q == m * q + r;
    assert (k - m) * q == r;
    if k - m >= 1 { Grows(1, k - m, q); }
    if k - m <= -1 { Grows(k - m, -1, q); }
  }

  // ------------------------------------------------------------------ the fee-adjusted cap

  function FeeAdjusted(available: nat, rate: int): int
    requires rate > 0
  {
    ((available + 1) * rate - 1) / ONE
  }

  /** It is the largest withdrawal whose fee-inclusive debit floor(s * 10^18 / rate) is still covered. */
  lemma FeeCapIsMaximal(s: nat, available: nat, rate: int)
    requires rate > 0
    ensures s <= FeeAdjusted(available, rate) <==> (s * ONE) / rate <= available
  {
    QuotientBound(s, (available + 1) * rate - 1, ONE);
    QuotientBound(available + 1, s * ONE, rate);
  }

  // ------------------------------------------------------------------ findMaximum

  datatype Blocker = Blocker(code: string)

  datatype Simulated = Accepted | Refused(blocker: Blocker)

  datatype Search = Maximum(maximum: nat, blocker: Blocker, marginLimited: bool) | Inconclusive

  function Pow2(k: nat): (p: nat)
    ensures p > 0
  {
    if k == 0 then 1 else 2 * Pow2(k - 1)
  }

  ghost predicate Monotone(simulate: nat -> Simulated) {
    forall a, b :: a <= b && simulate(b).Accepted? ==> simulate(a).Accepted?
  }

  /** The bisection halves the gap: after i rounds it lies between the floor and the ceiling of upper / 2^i. */
  ghost predicate Halved(gap: nat, i: nat, upper: nat) { (gap - 1) * Pow2(i) < upper < (gap + 1) * Pow2(i) }

  lemma HalveAgain(gap: nat, i: nat, upper: nat, half: nat)
    requires Halved(gap, i, upper) && (half == gap / 2 || half == gap - gap / 2)
    ensures Halved(half, i + 1, upper)
  {
    var p := Pow2(i);
    assert (half - 1) * Pow2(i + 1) == (2 * half - 2) * p;
    assert (half + 1) * Pow2(i + 1) == (2 * half + 2) * p;
    Grows(2 * half - 2, gap - 1, p);
    Grows(gap + 1, 2 * half + 2, p);
  }

  lemma GapCloses(gap: nat, i: nat, upper: nat)
    requires Halved(gap, i, upper)
    ensures upper <= Pow2(i) ==> gap <= 1
    ensures upper >= 2 * Pow2(i) ==> gap >= 2
  {
    if gap >= 2 { Grows(1, gap - 1, Pow2(i)); }
    if gap <= 1 { Grows(gap + 1, 2, Pow2(i)); }
  }

  /** The bisection: low simulated fine (or is zero), high was refused with blocker, and iterations were made. */
  function Bisect(simulate: nat -> Simulated, low: nat, high: nat, blocker: Blocker, iterations: nat): Search
    requires low < high
    decreases high - low
  {
    if low + 1 < high && iterations < 96 then
      var candidate := (low + high) / 2;
      var result := simulate(candidate);
      if result.Accepted? then Bisect(simulate, candidate, high, blocker, iterations + 1)
      else Bisect(simulate, low, candidate, result.blocker, iterations + 1)
    else if low + 1 < high then Inconclusive
    else Maximum(low, blocker, true)
  }

  function SearchOf(simulate: nat -> Simulated, upper: nat): Search
    requires upper > 0
  {
    var full := simulate(upper);
    if full.Accepted? then Maximum(upper, Blocker("NONE"), false) else Bisect(simulate, 0, upper, full.blocker, 0)
  }

  /** The exact maximum by bisection over an arbitrary simulation. Whatever the simulation does, the result
      is the whole of upper, or a value that simulated fine (or is zero) right below one that did not. */
  method FindMaximum(simulate: nat -> Simulated, upper: nat) returns (r: Search, simulations: nat)
    requires upper > 0
    ensures r == SearchOf(simulate, upper)
    ensures simulate(upper).Accepted? <==> r == Maximum(upper, Blocker("NONE"), false)
    ensures r.Maximum? && !simulate(upper).Accepted? ==>
              (r.maximum == 0 || simulate(r.maximum).Accepted?) && r.maximum < upper && r.marginLimited
              && simulate(r.maximum + 1) == Refused(r.blocker)
    ensures r.Maximum? && Monotone(simulate) ==>
              forall x :: 0 < x <= upper ==> (simulate(x).Accepted? <==> x <= r.maximum)
    ensures upper <= Pow2(96) ==> r.Maximum?
    ensures upper >= Pow2(97) && !simulate(upper).Accepted? ==> r.Inconclusive?
    ensures simulations <= 97
  {
    var full := simulate(upper);
    simulations := 1;
    if full.Accepted? { return Maximum(upper, Blocker("NONE"), false), simulations; }
    var low, high, blocker, iterations := 0, upper, full.blocker, 0;
    while low + 1 < high && iterations < 96
      invariant 0 <= low < high <= upper && 0 <= iterations <= 96 && simulations == iterations + 1
      invariant low == 0 || simulate(low).Accepted?
      invariant simulate(high) == Refused(blocker)
      invariant SearchOf(simulate, upper) == Bisect(simulate, low, high, blocker, iterations)
      invariant Halved(high - low, iterations, upper)
      decreases high - low
    {
      ghost var gap := high - low;
      iterations := iterations + 1;
      var candidate := (low + high) / 2;
      var result := simulate(candidate);
      simulations := simulations + 1;
      if result.Accepted? { low := candidate; } else { high := candidate; blocker := result.blocker; }
      HalveAgain(gap, iterations - 1, upper, high - low);
    }
    GapCloses(high - low, iterations, upper);
    assert Pow2(97) == 2 * Pow2(96);
    if low + 1 < high { return Inconclusive, simulations; }
    if upper >= Pow2(97) { PowGrows(iterations, 96); }
    r := Maximum(low, blocker, true);
  }

  lemma {:induction false} PowGrows(i: nat, k: nat)
    requires i <= k
    ensures Pow2(i) <= Pow2(k)
    decreases k
  {
    if i < k { PowGrows(i, k - 1); }
  }

  // ------------------------------------------------------------------ the caps of a preview

  datatype Kind = CashAsset | OtherAsset

  datatype Asset = Asset(kind: Kind, configuredToken: Option<Address>, configuredDecimals: Option<nat>)

  datatype Snapshot = Snapshot(
    matchingOwner: Address, accountHolder: Address, manager: Address, withdrawTimestamp: int,
    cashWithdrawFeeEnabled: bool, cashExchangeRate: int, cashWithInterest: int, internalBalance: int,
    cashTokenDecimals: nat, tokenAddress: Address, tokenDecimals: nat, tokenLiquidity: nat)

  datatype Config = Config(matching: Address, standardManager: Address, safetyBps: nat)

  const ZERO_ADDRESS: Address := 0

  function SnapshotBlocker(config: Config, owner: Address, asset: Asset, snap: Snapshot): Option<Blocker> {
    if snap.matchingOwner == ZERO_ADDRESS then Some(Blocker("ACCOUNT_NOT_IN_MATCHING"))
    else if snap.matchingOwner != owner then Some(Blocker("OWNER_MISMATCH"))
    else if snap.accountHolder != config.matching then Some(Blocker("ACCOUNT_NOT_HELD_BY_MATCHING"))
    else if snap.withdrawTimestamp != 0 then Some(Blocker("ACCOUNT_EXIT_PENDING"))
    else if snap.manager != config.standardManager then Some(Blocker("UNSUPPORTED_MANAGER"))
    else if asset.kind == CashAsset && snap.cashWithdrawFeeEnabled then Some(Blocker("CASH_WITHDRAWALS_BLOCKED"))
    else if asset.configuredToken.Some? && snap.tokenAddress != asset.configuredToken.value then Some(Blocker("ASSET_CONFIG_MISMATCH"))
    else if asset.configuredDecimals.Some? && snap.tokenDecimals != asset.configuredDecimals.value then Some(Blocker("ASSET_DECIMALS_MISMATCH"))
    else None
  }

  function Available(snap: Snapshot, reserved: nat): nat {
    if snap.cashWithInterest > reserved then snap.cashWithInterest - reserved else 0
  }

  function AfterFee(snap: Snapshot, reserved: nat): int {
    if snap.cashWithdrawFeeEnabled && snap.cashExchangeRate > 0 then FeeAdjusted(Available(snap, reserved), snap.cashExchangeRate)
    else Available(snap, reserved)
  }

  /** What may leave in 18 decimals: for cash, what neither reservations nor the fee need; else the balance. */
  function Free18(asset: Asset, snap: Snapshot, reserved: nat): int {
    if asset.kind == CashAsset then
      if Available(snap, reserved) < AfterFee(snap, reserved) then Available(snap, reserved) else AfterFee(snap, reserved)
    else if snap.internalBalance > 0 then snap.internalBalance else 0
  }

  function Ceiling(asset: Asset, snap: Snapshot, reserved: nat): int {
    var floor := ToTokenUnitsFloor(Free18(asset, snap, reserved), snap.tokenDecimals);
    if floor > snap.tokenLiquidity then snap.tokenLiquidity else floor
  }

  /** A whole number of quanta within what may leave and within the token's liquidity, and the most there is. */
  ghost predicate IsCap(cap: int, asset: Asset, snap: Snapshot, reserved: nat) {
    && 0 <= cap <= Ceiling(asset, snap, reserved) && Aligned(cap, snap.tokenDecimals)
    && (forall t :: 0 <= t <= Ceiling(asset, snap, reserved) && Aligned(t, snap.tokenDecimals) ==> t <= cap)
  }

  lemma CapIsUnique(a: int, b: int, asset: Asset, snap: Snapshot, reserved: nat)
    requires IsCap(a, asset, snap, reserved) && IsCap(b, asset, snap, reserved)
    ensures a == b
  {
    hide ToTokenUnitsFloor, Aligned, Free18;
  }

  lemma FloorNonnegative(a: int, decimals: nat)
    ensures ToTokenUnitsFloor(a, decimals) >= 0
  {
    if a > 0 && decimals < 18 { QuotientBound(0, a, Pow10(18 - decimals)); }
    if a > 0 && decimals > 18 { Grows(0, a, Pow10(decimals - 18)); }
  }

  lemma CapBy(floor: int, asset: Asset, snap: Snapshot, reserved: nat)
    requires floor == ToTokenUnitsFloor(Free18(asset, snap, reserved), snap.tokenDecimals)
    ensures var capped := if floor > snap.tokenLiquidity then snap.tokenLiquidity else floor;
            var q := TokenQuantum(snap.tokenDecimals);
            IsCap((capped / q) * q, asset, snap, reserved)
  {
    FloorNonnegative(Free18(asset, snap, reserved), snap.tokenDecimals);
    var capped := if floor > snap.tokenLiquidity then snap.tokenLiquidity else floor;
    Realigned(capped, TokenQuantum(snap.tokenDecimals));
    hide ToTokenUnitsFloor, TokenQuantum, Free18;
  }

  /** An aligned amount within the cash cap debits, with the reservations, no more than the cash there is. */
  lemma CapLeavesReservations(tokenUnits: int, cap: int, asset: Asset, snap: Snapshot, reserved: nat)
    requires IsCap(cap, asset, snap, reserved) && asset.kind == CashAsset
    requires 0 < tokenUnits <= cap && Aligned(tokenUnits, snap.tokenDecimals)
    ensures TokenUnitsTo18Floor(tokenUnits, snap.tokenDecimals) + reserved <= snap.cashWithInterest
    ensures snap.cashWithdrawFeeEnabled && snap.cashExchangeRate > 0 ==>
              (TokenUnitsTo18Floor(tokenUnits, snap.tokenDecimals) * ONE) / snap.cashExchangeRate + reserved <= snap.cashWithInterest
  {
    var debit := TokenUnitsTo18Floor(tokenUnits, snap.tokenDecimals);
    FloorIsExact(tokenUnits, Free18(asset, snap, reserved), snap.tokenDecimals);
    DebitPositive(tokenUnits, snap.tokenDecimals);
    if snap.cashWithdrawFeeEnabled && snap.cashExchangeRate > 0 { FeeCapIsMaximal(debit, Available(snap, reserved), snap.cashExchangeRate); }
    hide ToTokenUnitsFloor, TokenUnitsTo18Floor, Aligned, FeeAdjusted;
  }

  lemma DebitPositive(tokenUnits: int, decimals: nat)
    requires tokenUnits > 0 && Aligned(tokenUnits, decimals)
    ensures TokenUnitsTo18Floor(tokenUnits, decimals) > 0
  {
    if decimals < 18 { Grows(1, tokenUnits, Pow10(18 - decimals)); }
    if decimals > 18 {
      var d := Pow10(decimals - 18);
      assert tokenUnits == (tokenUnits / d) * d;
      PositiveQuotient(tokenUnits / d, d);
    }
  }

  // ------------------------------------------------------------------ preview, prepare, final policy

  datatype PreviewResult =
    | Preview(balanceTokenUnits: int, debtTokenUnits: int, protocolMax: nat, recommended: nat, blocker: Option<Blocker>)
    | SearchInconclusive
    | Reorged

  /** What a preview promises about its maximum. */
  ghost predicate Sound(r: PreviewResult, config: Config, owner: Address, asset: Asset, snap: Snapshot, reserved: nat,
      simulate: nat -> Simulated)
    requires r.Preview?
  {
    && (r.blocker.None? <==> r.protocolMax > 0)
    && (r.blocker.None? ==> SnapshotBlocker(config, owner, asset, snap).None?)
    && r.recommended <= r.protocolMax <= snap.tokenLiquidity
    && Aligned(r.protocolMax, snap.tokenDecimals) && Aligned(r.recommended, snap.tokenDecimals)
    && (exists cap :: IsCap(cap, asset, snap, reserved) && r.protocolMax <= cap)
    && (Monotone(simulate) ==> forall t :: 0 < t <= r.protocolMax ==> simulate(t).Accepted?)
  }

  /** And that it is not too small: every aligned amount within the cap that simulates is offered. */
  ghost predicate Exact(r: PreviewResult, config: Config, owner: Address, asset: Asset, snap: Snapshot, reserved: nat,
      simulate: nat -> Simulated)
    requires r.Preview?
  {
    Monotone(simulate) && SnapshotBlocker(config, owner, asset, snap).None? ==>
      forall cap, t :: IsCap(cap, asset, snap, reserved) && 0 < t <= cap && Aligned(t, snap.tokenDecimals) && simulate(t).Accepted? ==>
        t <= r.protocolMax
  }

  function Buffer(max: nat, bps: nat): (b: nat)
    requires bps < BPS
    ensures b <= max
  {
    Buffered(max, bps);
    (max * (BPS - bps)) / BPS
  }

  lemma Buffered(max: nat, bps: nat)
    requires bps < BPS
    ensures 0 <= (max * (BPS - bps)) / BPS <= max
  {
    var x := max * (BPS - bps);
    if max > 0 {
      Grows(BPS - bps, BPS, max);
      Grows(0, BPS - bps, max);
      assert (BPS - bps) * max == x;
    }
  }

  /** What the search says of the maximum after rounding it down to the quantum. */
  ghost predicate Rounded(simulate: nat -> Simulated, upper: int, max: nat, quantum: int)
    requires quantum > 0
  {
    && max <= upper && max % quantum == 0
    && (Monotone(simulate) ==> forall t :: 0 < t <= max ==> simulate(t).Accepted?)
    && (Monotone(simulate) ==> forall t :: 0 < t <= upper && t % quantum == 0 && simulate(t).Accepted? ==> t <= max)
  }

  lemma SearchRounds(simulate: nat -> Simulated, upper: nat, max: nat, quantum: int)
    requires quantum > 0 && max <= upper
    requires Monotone(simulate) ==> forall x :: 0 < x <= upper ==> (simulate(x).Accepted? <==> x <= max)
    ensures 0 <= (max / quantum) * quantum && Rounded(simulate, upper, (max / quantum) * quantum, quantum)
  {
    Realigned(max, quantum);
    hide Monotone;
  }

  lemma PreviewIs(r: PreviewResult, config: Config, owner: Address, asset: Asset, snap: Snapshot, reserved: nat,
      simulate: nat -> Simulated, cap: int)
    requires r.Preview? && IsCap(cap, asset, snap, reserved) && (r.blocker.None? <==> r.protocolMax > 0)
    requires r.recommended <= r.protocolMax <= cap && Aligned(r.recommended, snap.tokenDecimals) && Aligned(r.protocolMax, snap.tokenDecimals)
    requires r.protocolMax > 0 ==> SnapshotBlocker(config, owner, asset, snap).None?
    requires SnapshotBlocker(config, owner, asset, snap).None? && cap > 0 ==> Rounded(simulate, cap, r.protocolMax, TokenQuantum(snap.tokenDecimals))
    ensures Sound(r, config, owner, asset, snap, reserved, simulate) && Exact(r, config, owner, asset, snap, reserved, simulate)
  {
    UniqueCap(cap, asset, snap, reserved);
    CapFacts(cap, asset, snap, reserved);
    hide IsCap, SnapshotBlocker, Monotone, TokenQuantum;
  }

  /** The exact balance and the cash debt in token units. */
  function BalancesOf(asset: Asset, snap: Snapshot): (int, int) {
    var exact := if asset.kind == CashAsset then snap.cashWithInterest else snap.internalBalance;
    (ToTokenUnitsFloor(if exact > 0 then exact else 0, snap.tokenDecimals),
     ToTokenUnitsCeil(if snap.cashWithInterest < 0 then -snap.cashWithInterest else 0, snap.cashTokenDecimals))
  }

  /** What previewAtBlock answers for a cap and a blocker. */
  function PreviewFrom(config: Config, asset: Asset, snap: Snapshot, simulate: nat -> Simulated, canonical: bool,
      upper: nat, blocker: Option<Blocker>): PreviewResult
    requires config.safetyBps < BPS
  {
    var quantum := TokenQuantum(snap.tokenDecimals);
    var (balance, debt) := BalancesOf(asset, snap);
    if blocker.None? && upper > 0 then
      match SearchOf(simulate, upper)
      case Inconclusive => SearchInconclusive
      case Maximum(maximum, refusal, limited) =>
        var max := RoundDown(maximum, quantum);
        if !canonical then Reorged
        else Preview(balance, debt, max, RoundDown(if limited then Buffer(max, config.safetyBps) else max, quantum),
                     if max == 0 then Some(refusal) else None)
    else if !canonical then Reorged
    else Preview(balance, debt, 0, 0, if blocker.Some? then blocker else Some(Blocker("NO_POSITIVE_BALANCE")))
  }

  function CapOf(asset: Asset, snap: Snapshot, reserved: nat): nat {
    FloorNonnegative(Free18(asset, snap, reserved), snap.tokenDecimals);
    RoundDown(Ceiling(asset, snap, reserved), TokenQuantum(snap.tokenDecimals))
  }

  function PreviewOf(config: Config, owner: Address, asset: Asset, snap: Snapshot, reserved: nat, simulate: nat -> Simulated,
      canonical: bool): PreviewResult
    requires config.safetyBps < BPS
  {
    PreviewFrom(config, asset, snap, simulate, canonical, CapOf(asset, snap, reserved), SnapshotBlocker(config, owner, asset, snap))
  }

  function RoundDown(x: nat, quantum: int): (r: nat)
    requires quantum > 0
    ensures r == (x / quantum) * quantum
  {
    Realigned(x, quantum);
    (x / quantum) * quantum
  }

  /** The balances a preview shows, and the cap it searches under. */
  method CapAtBlock(asset: Asset, snap: Snapshot, reserved: nat) returns (balance: int, debt: int, upper: nat)
    ensures (balance, debt) == BalancesOf(asset, snap)
    ensures upper == CapOf(asset, snap, reserved) && IsCap(upper, asset, snap, reserved)
  {
    var exact := if asset.kind == CashAsset then snap.cashWithInterest else snap.internalBalance;
    balance := ToTokenUnitsFloor(if exact > 0 then exact else 0, snap.tokenDecimals);
    debt := ToTokenUnitsCeil(if snap.cashWithInterest < 0 then -snap.cashWithInterest else 0, snap.cashTokenDecimals);
    var available := if snap.cashWithInterest > reserved then snap.cashWithInterest - reserved else 0;
    var feeAdjusted := if snap.cashWithdrawFeeEnabled && snap.cashExchangeRate > 0
                       then FeeAdjusted(available, snap.cashExchangeRate) else available;
    var noBorrowCap := if available < feeAdjusted then available else feeAdjusted;
    var most := if asset.kind == CashAsset then ToTokenUnitsFloor(noBorrowCap, snap.tokenDecimals) else balance;
    CapBy(most, asset, snap, reserved);
    if most > snap.tokenLiquidity { most := snap.tokenLiquidity; }
    var quantum := TokenQuantum(snap.tokenDecimals);
    hide IsCap, ToTokenUnitsFloor, TokenQuantum, FeeAdjusted;
    upper := (most / quantum) * quantum;
  }

  method PreviewAtBlock(config: Config, owner: Address, asset: Asset, snap: Snapshot, reserved: nat,
      simulate: nat -> Simulated, canonical: bool)
    returns (r: PreviewResult)
    requires config.safetyBps < BPS
    ensures r == PreviewOf(config, owner, asset, snap, reserved, simulate, canonical)
    ensures r.Preview? ==> Sound(r, config, owner, asset, snap, reserved, simulate) && Exact(r, config, owner, asset, snap, reserved, simulate)
    ensures canonical && (exists cap :: IsCap(cap, asset, snap, reserved) && cap <= Pow2(96)) ==> r.Preview?
    ensures !canonical ==> !r.Preview?
  {
    hide IsCap, ToTokenUnitsFloor, ToTokenUnitsCeil, SnapshotBlocker, TokenQuantum, Sound, Exact, Rounded, Monotone, Available, AfterFee, Free18,
      Ceiling, Buffer, FeeAdjusted, Pow2, Pow10, CapOf, RoundDown, SearchOf, Bisect, BalancesOf, Aligned;
    var blocker := SnapshotBlocker(config, owner, asset, snap);
    var balance, debt, upper := CapAtBlock(asset, snap, reserved);
    UniqueCap(upper, asset, snap, reserved);
    CapFacts(upper, asset, snap, reserved);
    var quantum := TokenQuantum(snap.tokenDecimals);
    var protocolMax, marginLimited := 0, false;
    ZeroRounds(quantum);
    if blocker.None? && upper > 0 {
      var search, _ := FindMaximum(simulate, upper);
      if search.Inconclusive? { return SearchInconclusive; }
      marginLimited := search.marginLimited;
      SearchRounds(simulate, upper, search.maximum, quantum);
      protocolMax := (search.maximum / quantum) * quantum;
      RoundedFacts(simulate, upper, protocolMax, quantum);
      if protocolMax == 0 { blocker := Some(search.blocker); }
    } else if blocker.None? {
      blocker := Some(Blocker("NO_POSITIVE_BALANCE"));
    }
    if !canonical { return Reorged; }
    var buffered := if marginLimited then Buffer(protocolMax, config.safetyBps) else protocolMax;
    RoundAligned(buffered, snap.tokenDecimals);
    RoundAligned(protocolMax, snap.tokenDecimals);
    r := Preview(balance, debt, protocolMax, (buffered / quantum) * quantum, blocker);
    PreviewIs(r, config, owner, asset, snap, reserved, simulate, upper);
  }

  lemma RoundAligned(x: nat, decimals: nat)
    ensures var q := TokenQuantum(decimals);
            0 <= (x / q) * q <= x && (x / q) * q == RoundDown(x, q) && Aligned((x / q) * q, decimals)
            && (x % q == 0 ==> Aligned(x, decimals))
  {
    Realigned(x, TokenQuantum(decimals));
  }

  lemma ZeroRounds(quantum: int)
    requires quantum > 0
    ensures RoundDown(0, quantum) == 0
  {
  }

  lemma RoundedFacts(simulate: nat -> Simulated, upper: int, max: nat, quantum: int)
    requires quantum > 0 && Rounded(simulate, upper, max, quantum)
    ensures max <= upper && max % quantum == 0
  {
  }

  lemma UniqueCap(cap: int, asset: Asset, snap: Snapshot, reserved: nat)
    requires IsCap(cap, asset, snap, reserved)
    ensures forall c :: IsCap(c, asset, snap, reserved) ==> c == cap
  {
    forall c | IsCap(c, asset, snap, reserved) ensures c == cap { CapIsUnique(c, cap, asset, snap, reserved); }
  }

  lemma CapFacts(cap: int, asset: Asset, snap: Snapshot, reserved: nat)
    requires IsCap(cap, asset, snap, reserved)
    ensures 0 <= cap <= snap.tokenLiquidity && Aligned(cap, snap.tokenDecimals)
  {
  }

  datatype PolicyError = PolicyChanged(blocker: Blocker) | PolicyMaxReduced(latest: int) | PreflightReorged

  /** What the check under the account lock and the write queue lets through. */
  ghost predicate PolicyHolds(config: Config, owner: Address, asset: Asset, snap: Snapshot, reserved: nat,
      simulate: nat -> Simulated, tokenUnits: nat) {
    && SnapshotBlocker(config, owner, asset, snap).None?
    && Aligned(tokenUnits, snap.tokenDecimals)
    && (exists cap :: IsCap(cap, asset, snap, reserved) && tokenUnits <= cap)
    && simulate(tokenUnits).Accepted?
  }

  method AssertFinalPolicy(config: Config, owner: Address, asset: Asset, snap: Snapshot, reserved: nat,
      simulate: nat -> Simulated,
                           tokenUnits: nat, canonical: bool)
    returns (e: Option<PolicyError>)
    ensures e.None? <==> PolicyHolds(config, owner, asset, snap, reserved, simulate, tokenUnits) && canonical
  {
    var blocker := SnapshotBlocker(config, owner, asset, snap);
    if blocker.Some? { return Some(PolicyChanged(blocker.value)); }
    var available := if snap.cashWithInterest > reserved then snap.cashWithInterest - reserved else 0;
    var feeAdjusted := if snap.cashWithdrawFeeEnabled && snap.cashExchangeRate > 0
                       then FeeAdjusted(available, snap.cashExchangeRate) else available;
    var cashCap := if available < feeAdjusted then available else feeAdjusted;
    var cap := if asset.kind == CashAsset then ToTokenUnitsFloor(cashCap, snap.tokenDecimals)
               else ToTokenUnitsFloor(if snap.internalBalance > 0 then snap.internalBalance else 0, snap.tokenDecimals);
    CapBy(cap, asset, snap, reserved);
    if cap > snap.tokenLiquidity { cap := snap.tokenLiquidity; }
    var quantum := TokenQuantum(snap.tokenDecimals);
    cap := (cap / quantum) * quantum;
    UniqueCap(cap, asset, snap, reserved);
    hide IsCap, ToTokenUnitsFloor, Free18, SnapshotBlocker, TokenQuantum;
    if tokenUnits % quantum != 0 || tokenUnits > cap { return Some(PolicyMaxReduced(cap)); }
    var simulation := simulate(tokenUnits);
    if simulation.Refused? { return Some(PolicyChanged(simulation.blocker)); }
    if !canonical { return Some(PreflightReorged); }
    e := None;
  }

  /** prepare()'s checks of a requested amount against a fresh preview. */
  predicate PrepareAccepts(r: PreviewResult, decimals: nat, tokenUnits: nat) {
    r.Preview? && tokenUnits > 0 && r.blocker.None? && Aligned(tokenUnits, decimals) && tokenUnits <= r.protocolMax
  }

  /** With unchanged state, what prepare accepted passes the final check exactly when that amount simulates: the
      search has simulated other amounts, and everything else was checked. */
  lemma PassesIffSimulates(r: PreviewResult, config: Config, owner: Address, asset: Asset, snap: Snapshot, reserved: nat,
      simulate: nat -> Simulated, tokenUnits: nat)
    requires PrepareAccepts(r, snap.tokenDecimals, tokenUnits) && Sound(r, config, owner, asset, snap, reserved, simulate)
    ensures PolicyHolds(config, owner, asset, snap, reserved, simulate, tokenUnits) <==> simulate(tokenUnits).Accepted?
  {
    hide IsCap, SnapshotBlocker, Aligned, Monotone;
    var cap :| IsCap(cap, asset, snap, reserved) && r.protocolMax <= cap;
  }

  /** So everything that prepare may accept on a preview passes exactly when every aligned amount up to its
      maximum simulates, of which the search has tried at most 97. */
  lemma AllPassIffAllSimulate(r: PreviewResult, config: Config, owner: Address, asset: Asset, snap: Snapshot, reserved: nat,
      simulate: nat -> Simulated)
    requires r.Preview? && r.blocker.None? && Sound(r, config, owner, asset, snap, reserved, simulate)
    ensures (forall t :: PrepareAccepts(r, snap.tokenDecimals, t) ==> PolicyHolds(config, owner, asset, snap, reserved, simulate, t))
        <==> (forall t: nat :: 0 < t <= r.protocolMax && Aligned(t, snap.tokenDecimals) ==> simulate(t).Accepted?)
  {
    hide PolicyHolds, Aligned, Sound;
    forall t | PrepareAccepts(r, snap.tokenDecimals, t)
      ensures PolicyHolds(config, owner, asset, snap, reserved, simulate, t) <==> simulate(t).Accepted?
    {
      PassesIffSimulates(r, config, owner, asset, snap, reserved, simulate, t);
    }
    assert forall t: nat :: PrepareAccepts(r, snap.tokenDecimals, t) <==> 0 < t <= r.protocolMax && Aligned(t, snap.tokenDecimals);
  }

  /** A monotone simulation is one for which they all do. */
  lemma PreparedPasses(r: PreviewResult, config: Config, owner: Address, asset: Asset, snap: Snapshot, reserved: nat,
      simulate: nat -> Simulated, tokenUnits: nat)
    requires PrepareAccepts(r, snap.tokenDecimals, tokenUnits) && Sound(r, config, owner, asset, snap, reserved, simulate)
    requires Monotone(simulate)
    ensures PolicyHolds(config, owner, asset, snap, reserved, simulate, tokenUnits)
  {
    hide IsCap, SnapshotBlocker, Aligned, Monotone;
    PassesIffSimulates(r, config, owner, asset, snap, reserved, simulate, tokenUnits);
  }

  /** Without monotonicity the condition can fail: here 1 and 5 units are refused, the search settles on 4 of 5,
      prepare accepts 1 on that preview, and the final check refuses it. */
  lemma OtherwiseItNeedNot()
    ensures var simulate: nat -> Simulated := t => if t == 1 || t == 5 then Refused(Blocker("MARGIN")) else Accepted;
            var config, asset := Config(2, 3, 0), Asset(OtherAsset, None, None);
            var snap := Snapshot(1, 2, 3, 0, false, 0, 0, 5, 18, 0, 18, 5);
            var r := PreviewOf(config, 1, asset, snap, 0, simulate, true);
            && SearchOf(simulate, 5) == Maximum(4, Blocker("MARGIN"), true) && r == Preview(5, 0, 4, 4, None)
            && PrepareAccepts(r, 18, 1) && !PolicyHolds(config, 1, asset, snap, 0, simulate, 1)
  {
    var simulate: nat -> Simulated := t => if t == 1 || t == 5 then Refused(Blocker("MARGIN")) else Accepted;
    var refusal := Blocker("MARGIN");
    assert Bisect(simulate, 4, 5, refusal, 3) == Maximum(4, refusal, true);
    assert Bisect(simulate, 3, 5, refusal, 2) == Bisect(simulate, 4, 5, refusal, 3);
    assert Bisect(simulate, 2, 5, refusal, 1) == Bisect(simulate, 3, 5, refusal, 2);
    assert Bisect(simulate, 0, 5, refusal, 0) == Bisect(simulate, 2, 5, refusal, 1);
    assert SearchOf(simulate, 5) == Maximum(4, refusal, true);
  }

  /** A withdrawal that passes the final policy satisfies the cash condition under which the protocol
      lets it broadcast. */
  lemma PolicyIsCheck(s: Protocol.State, w: Protocol.WId, config: Config, owner: Address, asset: Asset, snap: Snapshot,
                      simulate: nat -> Simulated, tokenUnits: nat)
    requires w in s.wsubs && s.wsubs[w].Snapped? && w in s.wds && asset.kind == CashAsset && tokenUnits > 0
    requires s.wsubs[w].cash == snap.cashWithInterest && s.wds[w].debit == TokenUnitsTo18Floor(tokenUnits, snap.tokenDecimals)
    requires PolicyHolds(config, owner, asset, snap, AuctionCore.ReservedFor(s.reservations, s.wds[w].account, {}), simulate, tokenUnits)
    ensures Protocol.CanCheck(s, w)
  {
    var reserved := AuctionCore.ReservedFor(s.reservations, s.wds[w].account, {});
    var cap :| IsCap(cap, asset, snap, reserved) && tokenUnits <= cap;
    hide IsCap;
    CapLeavesReservations(tokenUnits, cap, asset, snap, reserved);
  }
}
