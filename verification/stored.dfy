/** The stored form of records (store.ts): domain records with their integers as decimal text,
    as JSON objects. Members are read in the order in which they are written. */
module StoredForm {
  import opened Types
  import opened Decimal
  import opened Json

  // ------------------------------------------------------------------ scalars

  function N(i: int): Json { JStr(Print(i)) }

  function ReadN(j: Json): Option<int> { if j.JStr? then Read(j.s) else None }

  function ReadId(j: Json): Option<nat> {
    var i :- ReadN(j);
    if i >= 0 then Some(i) else None
  }

  function Num(j: Json): Option<int> { if j.JNum? then Some(j.n) else None }

  function Str(j: Json): Option<string> { if j.JStr? then Some(j.s) else None }

  function Flag(j: Json): Option<bool> { if j.JBool? then Some(j.b) else None }

  function Maybe(o: Option<int>): Json { match o case Some(i) => N(i) case None => JNull }

  function ReadMaybe(j: Json): Option<Option<int>> {
    if j.JNull? then Some(None) else var i :- ReadN(j); Some(Some(i))
  }

  function ReadMaybeId(j: Json): Option<Option<nat>> {
    if j.JNull? then Some(None) else var i :- ReadId(j); Some(Some(i))
  }

  function MaybeNum(o: Option<int>): Json { match o case Some(i) => JNum(i) case None => JNull }

  function ReadMaybeNum(j: Json): Option<Option<int>> {
    if j.JNull? then Some(None) else var i :- Num(j); Some(Some(i))
  }

  function MaybeStr(o: Option<string>): Json { match o case Some(s) => JStr(s) case None => JNull }

  function ReadMaybeStr(j: Json): Option<Option<string>> {
    if j.JNull? then Some(None) else var s :- Str(j); Some(Some(s))
  }

  /** The k-th member of an object, if it has the given name. */
  function At(j: Json, k: nat, name: string): Option<Json> {
    if j.JObj? && k < |j.fields| && j.fields[k].name == name then Some(j.fields[k].value) else None
  }

  lemma Scalars(i: int)
    ensures ReadN(N(i)) == Some(i)
  {
    ReadPrint(i);
  }

  // ------------------------------------------------------------------ parts of an RFQ

  function InstrumentJson(i: Instrument): Json {
    JObj([Member("currency", JStr(i.currency)), Member("optionAsset", N(i.optionAsset)), Member("expiry", N(i.expiry)),
          Member("strike", N(i.strike)), Member("isCall", JBool(i.isCall)), Member("subId", N(i.subId)), Member("name", JStr(i.name))])
  }

  function ReadInstrument(j: Json): Option<Instrument> {
    var currency :- At(j, 0, "currency"); var currency :- Str(currency);
    var optionAsset :- At(j, 1, "optionAsset"); var optionAsset :- ReadId(optionAsset);
    var expiry :- At(j, 2, "expiry"); var expiry :- ReadN(expiry);
    var strike :- At(j, 3, "strike"); var strike :- ReadN(strike);
    var isCall :- At(j, 4, "isCall"); var isCall :- Flag(isCall);
    var subId :- At(j, 5, "subId"); var subId :- ReadN(subId);
    var name :- At(j, 6, "name"); var name :- Str(name);
    Some(Instrument(currency, optionAsset, expiry, strike, isCall, subId, name))
  }

  function FillJson(f: Fill): Json {
    JObj([Member("rfqId", N(f.rfqId)), Member("quoteId", N(f.quoteId)), Member("instrument", JStr(f.instrument)),
          Member("maker", N(f.maker)), Member("makerSubaccountId", N(f.makerSubaccountId)),
          Member("takerSubaccountId", N(f.takerSubaccountId)), Member("amount", N(f.amount)), Member("premium", N(f.premium)),
          Member("totalPremium", N(f.totalPremium)), Member("makerFee", N(f.makerFee)), Member("takerFee", N(f.takerFee))])
  }

  function ReadFill(j: Json): Option<Fill> {
    var rfqId :- At(j, 0, "rfqId"); var rfqId :- ReadId(rfqId);
    var quoteId :- At(j, 1, "quoteId"); var quoteId :- ReadId(quoteId);
    var instrument :- At(j, 2, "instrument"); var instrument :- Str(instrument);
    var maker :- At(j, 3, "maker"); var maker :- ReadId(maker);
    var makerSub :- At(j, 4, "makerSubaccountId"); var makerSub :- ReadN(makerSub);
    var takerSub :- At(j, 5, "takerSubaccountId"); var takerSub :- ReadN(takerSub);
    var amount :- At(j, 6, "amount"); var amount :- ReadN(amount);
    var premium :- At(j, 7, "premium"); var premium :- ReadN(premium);
    var totalPremium :- At(j, 8, "totalPremium"); var totalPremium :- ReadN(totalPremium);
    var makerFee :- At(j, 9, "makerFee"); var makerFee :- ReadN(makerFee);
    var takerFee :- At(j, 10, "takerFee"); var takerFee :- ReadN(takerFee);
    Some(Fill(rfqId, quoteId, instrument, maker, makerSub, takerSub, amount, premium, totalPremium, makerFee, takerFee))
  }

  function IdentityJson(a: ActionIdentity): Json {
    JObj([Member("subaccountId", N(a.subaccountId)), Member("nonce", N(a.nonce)), Member("module", N(a.mod)),
          Member("expiry", N(a.expiry)), Member("owner", N(a.owner)), Member("signer", N(a.signer)), Member("dataHash", N(a.dataHash))])
  }

  function ReadIdentity(j: Json): Option<ActionIdentity> {
    var sub :- At(j, 0, "subaccountId"); var sub :- ReadN(sub);
    var nonce :- At(j, 1, "nonce"); var nonce :- ReadN(nonce);
    var mod :- At(j, 2, "module"); var mod :- ReadId(mod);
    var expiry :- At(j, 3, "expiry"); var expiry :- ReadN(expiry);
    var owner :- At(j, 4, "owner"); var owner :- ReadId(owner);
    var signer :- At(j, 5, "signer"); var signer :- ReadId(signer);
    var dataHash :- At(j, 6, "dataHash"); var dataHash :- ReadId(dataHash);
    Some(ActionIdentity(sub, nonce, mod, expiry, owner, signer, dataHash))
  }

  function ExecutionJson(e: Execution): Json {
    JObj([Member("txHash", N(e.txHash)), Member("status", JStr(if e.success then "success" else "reverted")),
          Member("blockNumber", Maybe(e.blockNumber)), Member("fill", FillJson(e.fill))])
  }

  function ReadExecution(j: Json): Option<Execution> {
    var txHash :- At(j, 0, "txHash"); var txHash :- ReadId(txHash);
    var status :- At(j, 1, "status"); var status :- Str(status);
    var blockNumber :- At(j, 2, "blockNumber"); var blockNumber :- ReadMaybe(blockNumber);
    var fill :- At(j, 3, "fill"); var fill :- ReadFill(fill);
    Some(Execution(txHash, status == "success", blockNumber, fill))
  }

  function IntentJson(i: Intent): Json {
    JObj([Member("actions", JArr([IdentityJson(i.maker), IdentityJson(i.taker)])), Member("calldataHash", N(i.calldataHash)),
          Member("fromBlock", N(i.fromBlock)), Member("txHash", Maybe(i.txHash)), Member("fill", FillJson(i.fill))])
  }

  function ReadIntent(j: Json): Option<Intent> {
    var actions :- At(j, 0, "actions");
    if !actions.JArr? || |actions.items| != 2 then None
    else
      var maker :- ReadIdentity(actions.items[0]);
      var taker :- ReadIdentity(actions.items[1]);
      var calldataHash :- At(j, 1, "calldataHash"); var calldataHash :- ReadId(calldataHash);
      var fromBlock :- At(j, 2, "fromBlock"); var fromBlock :- ReadN(fromBlock);
      var txHash :- At(j, 3, "txHash"); var txHash :- ReadMaybeId(txHash);
      var fill :- At(j, 4, "fill"); var fill :- ReadFill(fill);
      Some(Intent(maker, taker, calldataHash, fromBlock, txHash, fill))
  }

  function StatusText(s: Status): string {
    match s
    case Open => "open" case Closed => "closed" case Expired => "expired"
    case Executing => "executing" case Executed => "executed" case Failed => "failed"
  }

  function ReadStatus(j: Json): Option<Status> {
    if j == JStr("open") then Some(Open) else if j == JStr("closed") then Some(Closed)
    else if j == JStr("expired") then Some(Expired) else if j == JStr("executing") then Some(Executing)
    else if j == JStr("executed") then Some(Executed) else if j == JStr("failed") then Some(Failed) else None
  }

  // ------------------------------------------------------------------ RFQs and quotes

  function RfqToStored(r: Rfq): Json {
    JObj([Member("id", N(r.id)), Member("takerSubaccountId", N(r.takerSubaccountId)), Member("instrument", InstrumentJson(r.instrument)),
          Member("amount", N(r.amount)), Member("direction", JStr("sell")), Member("createdAt", JNum(r.createdAt)),
          Member("auctionEndsAt", JNum(r.auctionEndsAt)), Member("acceptDeadlineAt", MaybeNum(r.acceptDeadlineAt)),
          Member("status", JStr(StatusText(r.status))), Member("bestQuoteId", Maybe(r.bestQuoteId)),
          Member("execution", match r.execution case Some(e) => ExecutionJson(e) case None => JNull),
          Member("executionIntent", match r.executionIntent case Some(i) => IntentJson(i) case None => JNull),
          Member("error", MaybeStr(r.error))])
  }

  function ReadMaybeExecution(j: Json): Option<Option<Execution>> {
    if j.JNull? then Some(None) else var e :- ReadExecution(j); Some(Some(e))
  }

  function ReadMaybeIntent(j: Json): Option<Option<Intent>> {
    if j.JNull? then Some(None) else var i :- ReadIntent(j); Some(Some(i))
  }

  /** Records written before intents existed lack that member. */
  function RfqFromStored(j: Json): Option<Rfq> {
    var id :- At(j, 0, "id"); var id :- ReadId(id);
    var taker :- At(j, 1, "takerSubaccountId"); var taker :- ReadN(taker);
    var instrument :- At(j, 2, "instrument"); var instrument :- ReadInstrument(instrument);
    var amount :- At(j, 3, "amount"); var amount :- ReadN(amount);
    var createdAt :- At(j, 5, "createdAt"); var createdAt :- Num(createdAt);
    var endsAt :- At(j, 6, "auctionEndsAt"); var endsAt :- Num(endsAt);
    var deadline :- At(j, 7, "acceptDeadlineAt"); var deadline :- ReadMaybeNum(deadline);
    var status :- At(j, 8, "status"); var status :- ReadStatus(status);
    var best :- At(j, 9, "bestQuoteId"); var best :- ReadMaybeId(best);
    var execution :- At(j, 10, "execution"); var execution :- ReadMaybeExecution(execution);
    var legacy := At(j, 11, "executionIntent").None?;
    var intent :- if legacy then Some(None) else ReadMaybeIntent(j.fields[11].value);
    var error :- At(j, if legacy then 11 else 12, "error"); var error :- ReadMaybeStr(error);
    Some(Rfq(id, taker, instrument, amount, createdAt, endsAt, deadline, status, best, execution, intent, error))
  }

  function TradeJson(t: Trade): Json {
    JObj([Member("asset", N(t.asset)), Member("subId", N(t.subId)), Member("price", N(t.price)), Member("amount", N(t.amount))])
  }

  function ReadTrade(j: Json): Option<Trade> {
    var asset :- At(j, 0, "asset"); var asset :- ReadId(asset);
    var subId :- At(j, 1, "subId"); var subId :- ReadN(subId);
    var price :- At(j, 2, "price"); var price :- ReadN(price);
    var amount :- At(j, 3, "amount"); var amount :- ReadN(amount);
    Some(Trade(asset, subId, price, amount))
  }

  function TradesJson(ts: seq<Trade>): seq<Json> { if ts == [] then [] else [TradeJson(ts[0])] + TradesJson(ts[1..]) }

  function ReadTrades(js: seq<Json>): Option<seq<Trade>> {
    if js == [] then Some([])
    else
      var t :- ReadTrade(js[0]);
      var ts :- ReadTrades(js[1..]);
      Some([t] + ts)
  }

  function ActionJson(a: Action): Json {
    JObj([Member("subaccountId", N(a.subaccountId)), Member("nonce", N(a.nonce)), Member("module", N(a.mod)), Member("data", N(a.data)),
          Member("expiry", N(a.expiry)), Member("owner", N(a.owner)), Member("signer", N(a.signer))])
  }

  function ReadAction(j: Json): Option<Action> {
    var sub :- At(j, 0, "subaccountId"); var sub :- ReadN(sub);
    var nonce :- At(j, 1, "nonce"); var nonce :- ReadN(nonce);
    var mod :- At(j, 2, "module"); var mod :- ReadId(mod);
    var data :- At(j, 3, "data"); var data :- ReadId(data);
    var expiry :- At(j, 4, "expiry"); var expiry :- ReadN(expiry);
    var owner :- At(j, 5, "owner"); var owner :- ReadId(owner);
    var signer :- At(j, 6, "signer"); var signer :- ReadId(signer);
    Some(Action(sub, nonce, mod, data, expiry, owner, signer))
  }

  function QuoteMembers(q: Quote): seq<Member> {
    [Member("id", N(q.id)), Member("rfqId", N(q.rfqId)), Member("maker", N(q.maker)), Member("makerSubaccountId", N(q.makerSubaccountId)),
     Member("premium", N(q.premium)), Member("totalPremium", N(q.totalPremium)), Member("trades", JArr(TradesJson(q.trades))),
     Member("orderHash", N(q.orderHash)), Member("action", ActionJson(q.action)), Member("signature", N(q.signature)),
     Member("receivedAt", JNum(q.receivedAt))]
  }

  function QuoteToStored(q: Quote): Json { JObj(QuoteMembers(q) + [Member("reservedCash", N(q.reservedCash))]) }

  /** The form written before reservations were tracked. */
  function LegacyQuote(q: Quote): Json { JObj(QuoteMembers(q)) }

  /** A quote without reservedCash reserves its total premium. */
  function QuoteFromStored(j: Json): Option<Quote> {
    var id :- At(j, 0, "id"); var id :- ReadId(id);
    var rfqId :- At(j, 1, "rfqId"); var rfqId :- ReadId(rfqId);
    var maker :- At(j, 2, "maker"); var maker :- ReadId(maker);
    var sub :- At(j, 3, "makerSubaccountId"); var sub :- ReadN(sub);
    var premium :- At(j, 4, "premium"); var premium :- ReadN(premium);
    var totalPremium :- At(j, 5, "totalPremium"); var totalPremium :- ReadN(totalPremium);
    var trades :- At(j, 6, "trades"); var trades :- if trades.JArr? then ReadTrades(trades.items) else None;
    var orderHash :- At(j, 7, "orderHash"); var orderHash :- ReadId(orderHash);
    var action :- At(j, 8, "action"); var action :- ReadAction(action);
    var signature :- At(j, 9, "signature"); var signature :- ReadId(signature);
    var receivedAt :- At(j, 10, "receivedAt"); var receivedAt :- Num(receivedAt);
    var reserved :- match At(j, 11, "reservedCash") case Some(v) => ReadId(v)
                                                    case None => if totalPremium >= 0 then Some(totalPremium) else None;
    Some(Quote(id, rfqId, maker, sub, premium, totalPremium, trades, orderHash, action, signature, receivedAt, reserved))
  }

  // ------------------------------------------------------------------ reading undoes writing

  lemma AllScalars()
    ensures forall i {:trigger N(i)} :: ReadN(N(i)) == Some(i)
  {
    forall i ensures ReadN(N(i)) == Some(i) { Scalars(i); }
  }

  lemma InstrumentRoundTrip(i: Instrument)
    ensures ReadInstrument(InstrumentJson(i)) == Some(i)
  {
    AllScalars();
    hide N, ReadN;
  }

  lemma FillRoundTrip(f: Fill)
    ensures ReadFill(FillJson(f)) == Some(f)
  {
    AllScalars();
    hide N, ReadN;
  }

  lemma IdentityRoundTrip(a: ActionIdentity)
    ensures ReadIdentity(IdentityJson(a)) == Some(a)
  {
    AllScalars();
    hide N, ReadN;
  }

  lemma MaybeRoundTrip(o: Option<int>)
    ensures ReadMaybe(Maybe(o)) == Some(o)
  {
    if o.Some? { Scalars(o.value); }
  }

  lemma MaybeIdRoundTrip(o: Option<nat>)
    ensures ReadMaybeId(Maybe(o)) == Some(o)
  {
    if o.Some? { Scalars(o.value); }
  }

  lemma ExecutionRoundTrip(e: Execution)
    ensures ReadExecution(ExecutionJson(e)) == Some(e)
  {
    AllScalars();
    MaybeRoundTrip(e.blockNumber);
    hide N, ReadN, FillJson, ReadFill, Maybe, ReadMaybe;
    assert "success"[0] == 's' && "reverted"[0] == 'r';
    FillRoundTrip(e.fill);
  }

  lemma IntentRoundTrip(i: Intent)
    ensures ReadIntent(IntentJson(i)) == Some(i)
  {
    AllScalars();
    MaybeIdRoundTrip(i.txHash);
    hide N, ReadN, FillJson, ReadFill, IdentityJson, ReadIdentity, Maybe, ReadMaybeId;
    FillRoundTrip(i.fill);
    IdentityRoundTrip(i.maker);
    IdentityRoundTrip(i.taker);
  }

  lemma StatusRoundTrip(s: Status)
    ensures ReadStatus(JStr(StatusText(s))) == Some(s)
  {
    assert "closed"[0] == 'c' && "expired"[2] == 'p' && "executing"[5] == 't' && "executed"[6] == 'e' && "failed"[0] == 'f';
    assert "open"[0] == 'o';
  }

  lemma {:induction false} TradesRoundTrip(ts: seq<Trade>)
    ensures ReadTrades(TradesJson(ts)) == Some(ts)
  {
    if ts != [] {
      TradesRoundTrip(ts[1..]);
      assert TradesJson(ts)[1..] == TradesJson(ts[1..]);
      assert [ts[0]] + ts[1..] == ts;
      TradeRoundTrip(ts[0]);
      hide ReadTrade, TradeJson;
    }
  }

  lemma TradeRoundTrip(t: Trade)
    ensures ReadTrade(TradeJson(t)) == Some(t)
  {
    AllScalars();
    hide N, ReadN;
  }

  lemma ActionRoundTrip(a: Action)
    ensures ReadAction(ActionJson(a)) == Some(a)
  {
    AllScalars();
    hide N, ReadN;
  }

  /** rfqFromStored undoes rfqToStored. */
  lemma RfqRoundTrip(r: Rfq)
    ensures RfqFromStored(RfqToStored(r)) == Some(r)
  {
    AllScalars();
    MaybeIdRoundTrip(r.bestQuoteId);
    hide N, ReadN, ReadInstrument, InstrumentJson, ReadMaybeExecution, ExecutionJson, ReadMaybeIntent, IntentJson,
        StatusText, ReadStatus,
      Maybe, ReadMaybeId;
    InstrumentRoundTrip(r.instrument);
    StatusRoundTrip(r.status);
    MaybeExecution(r.execution);
    MaybeIntent(r.executionIntent);
  }

  lemma MaybeExecution(e: Option<Execution>)
    ensures ReadMaybeExecution(match e case Some(x) => ExecutionJson(x) case None => JNull) == Some(e)
  {
    if e.Some? { ExecutionRoundTrip(e.value); }
  }

  lemma MaybeIntent(i: Option<Intent>)
    ensures ReadMaybeIntent(match i case Some(x) => IntentJson(x) case None => JNull) == Some(i)
  {
    if i.Some? { IntentRoundTrip(i.value); }
  }

  /** quoteFromStored undoes quoteToStored, and reads a legacy record as one that reserves its premium. */
  lemma QuoteRoundTrip(q: Quote)
    ensures QuoteFromStored(QuoteToStored(q)) == Some(q)
    ensures q.totalPremium >= 0 ==> QuoteFromStored(LegacyQuote(q)) == Some(q.(reservedCash := q.totalPremium))
  {
    AllScalars();
    hide N, ReadN, ReadAction, ActionJson, TradesJson, ReadTrades;
    ActionRoundTrip(q.action);
    TradesRoundTrip(q.trades);
  }
}
