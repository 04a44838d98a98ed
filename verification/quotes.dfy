/** Admission of quotes and acceptances (quotes.ts) and the execution built from them (executor.ts).
    ABI decoding, hashes and signatures are oracles: what a hash commits to, its argument decides. */
module Quotes {
  import opened Types
  import Protocol

  const ONE := 1_000_000_000_000_000_000

  datatype RfqOrder = RfqOrder(maxFee: nat, trades: seq<Trade>)

  datatype TakerOrder = TakerOrder(orderHash: Hash, maxFee: nat)

  /** The pure counterparts of keccak, abi.decode and EIP-712 recovery. */
  datatype Oracles = Oracles(
    makerOrder: Hash -> Option<RfqOrder>, takerOrder: Hash -> Option<TakerOrder>,
    hashTrades: seq<Trade> -> Hash, signed: (Action, Hash) -> bool)

  ghost predicate CollisionFree<A(!new), B(!new)>(f: A -> B) { forall x, y :: f(x) == f(y) ==> x == y }

  /** The chain reads of one validation; None is a read that throws. */
  datatype Reads = Reads(
    owner: Address, feed: bool, rate: Option<nat>, forwardPrice: Option<nat>, minFee: Option<nat>, cash: int)

  datatype Refusal =
    | NotOpen | WindowClosed | WrongModule | WrongOwner | SessionKey | NoSubaccount | ActionExpired | TooShort
    | Undecodable | NotOneTrade | WrongAsset | WrongSubId | WrongAmount | NoPremium | BadSignature | NotDeposited
    | NoFeeEstimate | InsufficientCash | WrongSubaccount | QuoteExpired | WrongOrderHash

  datatype Checked<+T> = Accepted(value: T) | Refused(why: Refusal) {
    predicate IsFailure() { Refused? }

    function PropagateFailure<U>(): Checked<U>
      requires Refused?
    {
      Refused(why)
    }

    function Extract(): T
      requires Accepted?
    {
      value
    }
  }

  function Require(ok: bool, why: Refusal): Checked<()> { if ok then Accepted(()) else Refused(why) }

  // ------------------------------------------------------------------ the open interest fee

  function Abs(x: int): nat { if x < 0 then -x else x }

  /** bigint division truncates; here both operands are non-negative. */
  function RawFee(amount: int, price: nat, rate: nat): nat { ((Abs(amount) * price / ONE) * rate) / ONE }

  function EstimateOIFee(seen: Reads, amount: int): Option<nat> {
    var rate :- seen.rate;
    if rate == 0 then Some(0)
    else
      var price :- seen.forwardPrice;
      var fee := RawFee(amount, price, rate);
      if fee > 0 then
        var least :- seen.minFee;
        Some(if fee < least then least else fee)
      else Some(0)
  }

  lemma MulMono(a: nat, b: nat, c: nat)
    requires a <= b
    ensures a * c <= b * c
  {
  }

  lemma DivMono(a: nat, b: nat)
    requires a <= b
    ensures a / ONE <= b / ONE
  {
  }

  lemma RawFeeMonotone(a: int, b: int, price: nat, rate: nat)
    requires Abs(a) <= Abs(b)
    ensures RawFee(a, price, rate) <= RawFee(b, price, rate)
  {
    MulMono(Abs(a), Abs(b), price);
    DivMono(Abs(a) * price, Abs(b) * price);
    MulMono(Abs(a) * price / ONE, Abs(b) * price / ONE, rate);
    DivMono((Abs(a) * price / ONE) * rate, (Abs(b) * price / ONE) * rate);
  }

  /** Larger trades never pay less, whatever their direction, and a fee that is charged reaches the minimum. */
  lemma FeeMonotone(seen: Reads, a: int, b: int)
    requires Abs(a) <= Abs(b) && EstimateOIFee(seen, a).Some? && EstimateOIFee(seen, b).Some?
    ensures EstimateOIFee(seen, a).value <= EstimateOIFee(seen, b).value
    ensures EstimateOIFee(seen, b).value > 0 ==> seen.minFee.Some? && EstimateOIFee(seen, b).value >= seen.minFee.value
  {
    if seen.rate != Some(0) { RawFeeMonotone(a, b, seen.forwardPrice.value, seen.rate.value); }
    hide RawFee;
  }

  /** Rounding down twice loses less than one unit of fee and, of the exact fee, the rate's share of one unit of notional. */
  lemma RawFeeIsClose(amount: int, price: nat, rate: nat)
    ensures RawFee(amount, price, rate) * ONE * ONE <= Abs(amount) * price * rate
    ensures Abs(amount) * price * rate < (RawFee(amount, price, rate) + 1) * ONE * ONE + rate * ONE
  {
    var notional := Abs(amount) * price;
    var whole, part := notional / ONE, notional % ONE;
    assert notional == whole * ONE + part;
    assert notional * rate == whole * rate * ONE + part * rate by { Distribute(whole * ONE, part, rate); Reorder(whole, rate); }
    MulMono(part, ONE, rate);
    if rate > 0 { assert part * rate < ONE * rate by { MulMono(part + 1, ONE, rate); Distribute(part, 1, rate); } }
  }

  lemma Distribute(a: int, b: int, c: int)
    ensures (a + b) * c == a * c + b * c
  {
  }

  lemma Reorder(a: int, b: int)
    ensures a * ONE * b == a * b * ONE
  {
  }

  // ------------------------------------------------------------------ a maker's quote

  datatype Clock = Clock(window: int, action: int, received: int)

  /** validateQuote: the checks in their order. Opening an RFQ refuses amounts that are not positive. */
  function ValidateQuote(o: Oracles, rfqModule: Address, rfq: Rfq, maker: Address, action: Action, signature: Hash,
                         seen: Reads, reserved: nat, now: Clock, id: QuoteId): (checked: Checked<Quote>)
    requires rfq.amount > 0
  {
    var _ :- Require(rfq.status == Open, NotOpen);
    var _ :- Require(now.window < rfq.auctionEndsAt, WindowClosed);
    var _ :- Require(action.mod == rfqModule, WrongModule);
    var _ :- Require(action.owner == maker, WrongOwner);
    var _ :- Require(action.signer == action.owner, SessionKey);
    var _ :- Require(action.subaccountId > 0, NoSubaccount);
    var _ :- Require(action.expiry > now.action / 1000, ActionExpired);
    var _ :- Require(action.expiry >= (rfq.auctionEndsAt + 999) / 1000, TooShort);
    var _ :- Require(o.makerOrder(action.data).Some?, Undecodable);
    var order := o.makerOrder(action.data).value;
    var _ :- Require(|order.trades| == 1, NotOneTrade);
    var trade := order.trades[0];
    var _ :- Require(trade.asset == rfq.instrument.optionAsset, WrongAsset);
    var _ :- Require(trade.subId == rfq.instrument.subId, WrongSubId);
    var _ :- Require(trade.amount == rfq.amount, WrongAmount);
    var _ :- Require(trade.price > 0, NoPremium);
    var _ :- Require(o.signed(action, signature), BadSignature);
    var _ :- Require(seen.owner == maker, NotDeposited);
    var fee := if seen.feed then EstimateOIFee(seen, trade.amount) else Some(0);
    var _ :- Require(fee.Some?, NoFeeEstimate);
    var totalPremium := Premium(trade.price, trade.amount);
    var required := totalPremium + order.maxFee + fee.value;
    var _ :- Require(seen.cash >= reserved + required, InsufficientCash);
    Accepted(Quote(id, rfq.id, maker, action.subaccountId, trade.price, totalPremium, order.trades,
                   o.hashTrades(order.trades), action, signature, now.received, required))
  }

  function Premium(price: int, amount: int): (p: nat)
    requires price > 0 && amount > 0
    ensures p * ONE <= price * amount < (p + 1) * ONE
  {
    NonNegative(price, amount);
    (price * amount) / ONE
  }

  lemma NonNegative(a: nat, b: nat)
    ensures a * b >= 0
  {
  }

  /** An admitted quote is exactly what its maker signed: one trade of the RFQ's instrument and size, at the price
      the auction ranks by, committed to by its order hash. */
  lemma AdmittedIsSigned(o: Oracles, rfqModule: Address, rfq: Rfq, maker: Address, action: Action, signature: Hash,
                         seen: Reads, reserved: nat, now: Clock, id: QuoteId, q: Quote)
    requires rfq.amount > 0
    requires ValidateQuote(o, rfqModule, rfq, maker, action, signature, seen, reserved, now, id) == Accepted(q)
    ensures q.id == id && q.rfqId == rfq.id && q.makerSubaccountId == q.action.subaccountId > 0
    ensures q.action.owner == q.action.signer == q.maker == seen.owner && q.action.mod == rfqModule && o.signed(q.action, q.signature)
    ensures q.trades == [Trade(rfq.instrument.optionAsset, rfq.instrument.subId, q.premium, rfq.amount)]
    ensures q.orderHash == o.hashTrades(q.trades) && q.premium > 0
    ensures o.makerOrder(q.action.data).Some? && o.makerOrder(q.action.data).value.trades == q.trades
    ensures q.totalPremium * ONE <= q.premium * rfq.amount < (q.totalPremium + 1) * ONE
  {
  }

  /** The maker can pay whatever the executor may charge: premium, the fee cap it signed and the estimated open
      interest fee, on top of everything already reserved. Other things equal, that is the only use of the balance. */
  lemma AdmittedIsCovered(o: Oracles, rfqModule: Address, rfq: Rfq, maker: Address, action: Action, signature: Hash,
                          seen: Reads, reserved: nat, now: Clock, id: QuoteId, q: Quote, cash: int)
    requires rfq.amount > 0
    requires ValidateQuote(o, rfqModule, rfq, maker, action, signature, seen, reserved, now, id) == Accepted(q)
    ensures seen.cash >= reserved + q.reservedCash
    ensures o.makerOrder(q.action.data).Some? && q.reservedCash >= q.totalPremium + o.makerOrder(q.action.data).value.maxFee
    ensures seen.feed ==> EstimateOIFee(seen, rfq.amount).Some?
                           && q.reservedCash == q.totalPremium + o.makerOrder(q.action.data).value.maxFee + EstimateOIFee(seen, rfq.amount).value
    ensures var again := ValidateQuote(o, rfqModule, rfq, maker, action, signature, seen.(cash := cash), reserved, now, id);
            if cash >= reserved + q.reservedCash then again == Accepted(q) else again == Refused(InsufficientCash)
  {
    assert EstimateOIFee(seen.(cash := cash), rfq.amount) == EstimateOIFee(seen, rfq.amount);
    hide EstimateOIFee, Premium;
  }

  /** Whenever the auction closes, the signed action is still valid then. */
  lemma AdmittedOutlivesAuction(o: Oracles, rfqModule: Address, rfq: Rfq, maker: Address, action: Action,
      signature: Hash,
                                seen: Reads, reserved: nat, now: Clock, id: QuoteId, t: int)
    requires rfq.amount > 0 && t < rfq.auctionEndsAt
    requires ValidateQuote(o, rfqModule, rfq, maker, action, signature, seen, reserved, now, id).Accepted?
    ensures t / 1000 < action.expiry
  {
    hide EstimateOIFee, Premium;
  }

  /** What the engine admits is what the protocol admits: the cash the handler read covers the reservations it
      summed under the maker's lock. */
  lemma AdmittedByProtocol(s: Protocol.State, r: RfqId, o: Oracles, rfqModule: Address, action: Action, signature: Hash,
                           seen: Reads, now: Clock, id: QuoteId, q: Quote)
    requires r in s.sections && s.sections[r].Quoting? && r in s.ix.rfqs && s.ix.rfqs[r].id == r && s.ix.rfqs[r].amount > 0
    requires action.subaccountId == s.sections[r].sub && seen.cash == Protocol.Cash(s.chain, action.subaccountId)
    requires ValidateQuote(o, rfqModule, s.ix.rfqs[r], s.sections[r].maker, action, signature, seen, s.sections[r].reserved, now, id) == Accepted(q)
    ensures Protocol.CanQuoteValidate(s, r, q)
  {
    hide EstimateOIFee, Premium;
  }

  // ------------------------------------------------------------------ a taker's acceptance

  /** validateTakerAccept. */
  function ValidateTakerAccept(o: Oracles, rfqModule: Address, rfq: Rfq, quote: Quote, action: Action, signature: Hash,
                               owner: Address, now: int): Checked<TakerOrder> {
    var _ :- Require(action.mod == rfqModule, WrongModule);
    var _ :- Require(action.subaccountId == rfq.takerSubaccountId, WrongSubaccount);
    var _ :- Require(action.signer == action.owner, SessionKey);
    var _ :- Require(action.expiry > now / 1000, ActionExpired);
    var _ :- Require(quote.action.expiry > now / 1000, QuoteExpired);
    var _ :- Require(o.takerOrder(action.data).Some?, Undecodable);
    var order := o.takerOrder(action.data).value;
    var _ :- Require(order.orderHash == quote.orderHash, WrongOrderHash);
    var _ :- Require(o.signed(action, signature), BadSignature);
    var _ :- Require(owner == action.owner, NotDeposited);
    Accepted(order)
  }

  // ------------------------------------------------------------------ the execution

  datatype FillData = FillData(makerAccount: Account, makerFee: nat, takerAccount: Account, takerFee: nat,
      managerData: string)

  /** verifyAndMatch(actions, signatures, actionData). */
  datatype CallData = CallData(first: Action, second: Action, firstSignature: Hash, secondSignature: Hash,
      data: FillData)

  datatype Plan = Plan(call: CallData, fill: Fill)

  function BuildRfqExecution(rfq: Rfq, quote: Quote, taker: Action, signature: Hash): Plan {
    Plan(CallData(quote.action, taker, quote.signature, signature,
                  FillData(quote.action.subaccountId, 0, taker.subaccountId, 0, "0x")),
         Fill(rfq.id, quote.id, rfq.instrument.name, quote.maker, quote.action.subaccountId, taker.subaccountId,
              rfq.amount, quote.premium, quote.totalPremium, 0, 0))
  }

  function Identity(a: Action): ActionIdentity {
    ActionIdentity(a.subaccountId, a.nonce, a.mod, a.expiry, a.owner, a.signer, a.data)
  }

  function CreateExecutionIntent(plan: Plan, hash: CallData -> Hash, block: int): Intent {
    Intent(Identity(plan.call.first), Identity(plan.call.second), hash(plan.call), block, None, plan.fill)
  }

  /** From signature to call data: a quote admitted to an RFQ and accepted by its taker executes the trade that both
      signed. The maker's action comes first, the taker's signature commits to exactly the quoted trades, the fees
      are within both caps, both actions are unexpired, and what the fill debits is within the reservation. */
  lemma ExecutesWhatWasSigned(o: Oracles, rfqModule: Address, open: Rfq, maker: Address, action: Action,
      signature: Hash,
                              seen: Reads, reserved: nat, now: Clock, id: QuoteId, q: Quote,
                              rfq: Rfq, taker: Action, takerSignature: Hash, owner: Address, later: int, order: TakerOrder)
    requires open.amount > 0 && CollisionFree(o.hashTrades)
    requires ValidateQuote(o, rfqModule, open, maker, action, signature, seen, reserved, now, id) == Accepted(q)
    requires rfq.id == open.id && rfq.amount == open.amount && rfq.instrument == open.instrument
    requires ValidateTakerAccept(o, rfqModule, rfq, q, taker, takerSignature, owner, later) == Accepted(order)
    ensures var plan := BuildRfqExecution(rfq, q, taker, takerSignature);
            && o.signed(plan.call.first, plan.call.firstSignature) && plan.call.first.signer == plan.fill.maker
            && o.signed(plan.call.second, plan.call.secondSignature) && plan.call.second.signer == owner
            && plan.call.data.makerAccount == plan.call.first.subaccountId == plan.fill.makerSubaccountId
            && plan.call.data.takerAccount == plan.call.second.subaccountId == plan.fill.takerSubaccountId == rfq.takerSubaccountId
            && plan.call.first.expiry > later / 1000 && plan.call.second.expiry > later / 1000
            && o.makerOrder(plan.call.first.data).Some? && o.takerOrder(plan.call.second.data) == Some(order)
            && plan.call.data.makerFee <= o.makerOrder(plan.call.first.data).value.maxFee && plan.call.data.takerFee <= order.maxFee
            && o.makerOrder(plan.call.first.data).value.trades
                 == [Trade(rfq.instrument.optionAsset, rfq.instrument.subId, plan.fill.premium, plan.fill.amount)]
            && plan.fill.totalPremium + plan.fill.makerFee <= q.reservedCash
    ensures forall trades :: o.hashTrades(trades) == order.orderHash ==> trades == o.makerOrder(q.action.data).value.trades
  {
    hide EstimateOIFee, Premium;
  }

  /** Its intent is the one the protocol lets the handler commit. */
  lemma IntentCommits(s: Protocol.State, r: RfqId, taker: Action, signature: Hash, hash: CallData -> Hash, block: int)
    requires r in s.sections && s.sections[r].Accepting? && Protocol.HasWinner(s, r) && s.ix.rfqs[r].status == Closed
    requires s.ix.rfqs[r].id == r
    requires Protocol.WinnerId(s, r) == s.sections[r].winner && Protocol.WinnerQuote(s, r).id == s.sections[r].winner
    ensures var intent := CreateExecutionIntent(BuildRfqExecution(s.ix.rfqs[r], Protocol.WinnerQuote(s, r), taker, signature), hash, block);
            Protocol.CanAcceptCommit(s, r, intent) && Protocol.AcceptCommit(s, r, intent).ix.rfqs[r].executionIntent == Some(intent)
  {
  }

  /** A persisted call data hash names one pair of signed actions: two acceptances share it exactly when both
      sides signed the very same actions, nonces included. */
  lemma CallDataNamesTheActions(hash: CallData -> Hash, r1: Rfq, q1: Quote, t1: Action, s1: Hash, b1: int, r2: Rfq,
      q2: Quote, t2: Action, s2: Hash, b2: int)
    requires CollisionFree(hash)
    ensures var i1 := CreateExecutionIntent(BuildRfqExecution(r1, q1, t1, s1), hash, b1);
            var i2 := CreateExecutionIntent(BuildRfqExecution(r2, q2, t2, s2), hash, b2);
            && (i1.calldataHash == i2.calldataHash <==> q1.action == q2.action && q1.signature == q2.signature && t1 == t2 && s1 == s2)
            && (i1.calldataHash == i2.calldataHash ==> i1.maker == i2.maker && i1.taker == i2.taker)
  {
    var c1, c2 := BuildRfqExecution(r1, q1, t1, s1).call, BuildRfqExecution(r2, q2, t2, s2).call;
    assert hash(c1) == hash(c2) ==> c1 == c2;
  }
}
