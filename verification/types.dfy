/** The engine's domain records (types.ts), shared by every module.
    Addresses, hashes and call data are opaque identities: equal identities stand for
    equal bytes, which is how a collision-free hash behaves. */
module Types {
  type RfqId = nat
  type QuoteId = nat
  type Account = int
  type Address = nat
  type Hash = nat

  datatype Option<+T> = None | Some(value: T) {
    predicate IsFailure() { None? }

    function PropagateFailure<U>(): Option<U>
      requires None?
    {
      None
    }

    function Extract(): T
      requires Some?
    {
      value
    }
  }

  datatype Status = Open | Closed | Expired | Executing | Executed | Failed

  datatype Instrument = Instrument(
    currency: string, optionAsset: Address, expiry: int, strike: int,
    isCall: bool, subId: int, name: string)

  datatype Trade = Trade(asset: Address, subId: int, price: int, amount: int)

  datatype Action = Action(
    subaccountId: Account, nonce: int, mod: Address, data: Hash,
    expiry: int, owner: Address, signer: Address)

  datatype Quote = Quote(
    id: QuoteId, rfqId: RfqId, maker: Address, makerSubaccountId: Account,
    premium: int, totalPremium: int, trades: seq<Trade>, orderHash: Hash,
    action: Action, signature: Hash, receivedAt: int, reservedCash: nat)

  /** What an intent remembers about one signed action. */
  datatype ActionIdentity = ActionIdentity(
    subaccountId: Account, nonce: int, mod: Address, expiry: int,
    owner: Address, signer: Address, dataHash: Hash)

  datatype Fill = Fill(
    rfqId: RfqId, quoteId: QuoteId, instrument: string, maker: Address,
    makerSubaccountId: Account, takerSubaccountId: Account, amount: int,
    premium: int, totalPremium: int, makerFee: int, takerFee: int)

  datatype Intent = Intent(
    maker: ActionIdentity, taker: ActionIdentity, calldataHash: Hash,
    fromBlock: int, txHash: Option<Hash>, fill: Fill)

  datatype Execution = Execution(
    txHash: Hash, success: bool, blockNumber: Option<int>, fill: Fill)

  datatype Rfq = Rfq(
    id: RfqId, takerSubaccountId: Account, instrument: Instrument, amount: int,
    createdAt: int, auctionEndsAt: int, acceptDeadlineAt: Option<int>,
    status: Status, bestQuoteId: Option<QuoteId>, execution: Option<Execution>,
    executionIntent: Option<Intent>, error: Option<string>)

  predicate Terminal(s: Status) { s == Expired || s == Executed || s == Failed }
}
