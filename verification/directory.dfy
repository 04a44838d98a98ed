/** The subaccount directory (subaccount-directory.ts): a projection of Matching's ownership events that
    is synced in chunks, may crash between any two writes, and must equal a plain fold of the chain. */
module Directory {
  import opened Types

  type AccountId = nat

  datatype Position = Position(blockNumber: nat, transactionIndex: nat, logIndex: nat)

  datatype Event = Deposited(position: Position, accountId: AccountId, owner: Address) | Withdrew(position: Position,
      accountId: AccountId)

  function ComparePositions(l: Position, r: Position): int {
    if l.blockNumber != r.blockNumber then (if l.blockNumber < r.blockNumber then -1 else 1)
    else if l.transactionIndex != r.transactionIndex then l.transactionIndex - r.transactionIndex
    else l.logIndex - r.logIndex
  }

  predicate Before(l: Position, r: Position) { ComparePositions(l, r) < 0 }

  datatype Account = Account(owner: Address, active: bool, position: Position)

  type Accounts = map<AccountId, Account>

  datatype Checkpoint = Checkpoint(blockNumber: nat, blockHash: Hash, ready: bool)

  // ------------------------------------------------------------------ the plain fold

  /** Each event in order decides the state of its account. */
  function Fold(events: seq<Event>): Accounts {
    if events == [] then map[] else Decide(Fold(events[..|events| - 1]), events[|events| - 1])
  }

  function Decide(accounts: Accounts, e: Event): Accounts {
    match e
    case Deposited(p, id, owner) => accounts[id := Account(owner, true, p)]
    case Withdrew(p, id) => if id in accounts then accounts[id := Account(accounts[id].owner, false, p)] else accounts
  }

  /** What the fold means: an account is active for an owner exactly when its last event is that owner's deposit. */
  ghost predicate LastIsDeposit(events: seq<Event>, id: AccountId, owner: Address) {
    exists i :: 0 <= i < |events| && events[i].accountId == id && events[i].Deposited? && events[i].owner == owner
                && forall j :: i < j < |events| ==> events[j].accountId != id
  }

  lemma {:induction false} ActiveMeansLastDeposit(events: seq<Event>, id: AccountId, owner: Address)
    ensures id in Fold(events) && Fold(events)[id].active && Fold(events)[id].owner == owner <==> LastIsDeposit(events, id, owner)
  {
    if events != [] {
      var init, last := events[..|events| - 1], events[|events| - 1];
      ActiveMeansLastDeposit(init, id, owner);
      if last.accountId == id {
        if last.Deposited? && last.owner == owner { assert LastIsDeposit(events, id, owner); }
      } else {
        if LastIsDeposit(init, id, owner) {
          var i :| 0 <= i < |init| && init[i].accountId == id && init[i].Deposited? && init[i].owner == owner
                   && forall j :: i < j < |init| ==> init[j].accountId != id;
          assert events[i] == init[i];
          assert forall j :: i < j < |init| ==> events[j] == init[j];
          assert LastIsDeposit(events, id, owner);
        }
        if LastIsDeposit(events, id, owner) {
          var i :| 0 <= i < |events| && events[i].accountId == id && events[i].Deposited? && events[i].owner == owner
                   && forall j :: i < j < |events| ==> events[j].accountId != id;
          assert init[i] == events[i];
          assert forall j :: i < j < |init| ==> events[j] == init[j];
          assert LastIsDeposit(init, id, owner);
        }
      }
    }
  }

  // ------------------------------------------------------------------ applying events to the store

  datatype Applied = Ok(accounts: Accounts) | UnknownSubaccount

  /** An event not newer than what the account has seen is skipped. */
  function ApplyEvent(accounts: Accounts, e: Event): Applied {
    if e.accountId in accounts && ComparePositions(e.position, accounts[e.accountId].position) <= 0 then Ok(accounts)
    else if e.Withdrew? then
      if e.accountId !in accounts then UnknownSubaccount
      else Ok(accounts[e.accountId := accounts[e.accountId].(active := false, position := e.position)])
    else Ok(accounts[e.accountId := Account(e.owner, true, e.position)])
  }

  /** Events as Matching emits them: in position order, and a withdrawal follows a deposit. */
  ghost predicate Wellformed(events: seq<Event>) {
    && (forall i, j :: 0 <= i < j < |events| ==> Before(events[i].position, events[j].position))
    && (forall j :: 0 <= j < |events| && events[j].Withdrew? ==> exists i :: 0 <= i < j && events[i].accountId == events[j].accountId)
  }

  ghost predicate Seen(events: seq<Event>, n: nat, id: AccountId)
    requires n <= |events|
  {
    exists i :: 0 <= i < n && events[i].accountId == id
  }

  ghost predicate LatestAt(events: seq<Event>, n: nat, id: AccountId, i: int)
    requires n <= |events|
  {
    0 <= i < n && events[i].accountId == id && forall j :: i < j < n ==> events[j].accountId != id
  }

  lemma FoldNext(events: seq<Event>, n: nat)
    requires n < |events|
    ensures Fold(events[..n + 1]) == Decide(Fold(events[..n]), events[n])
  {
    assert events[..n + 1][..n] == events[..n];
  }

  lemma SeenNext(events: seq<Event>, n: nat, id: AccountId)
    requires n < |events|
    ensures Seen(events, n + 1, id) <==> Seen(events, n, id) || events[n].accountId == id
  {
    if Seen(events, n, id) { var i :| 0 <= i < n && events[i].accountId == id; assert 0 <= i < n + 1; }
  }

  lemma NothingSeen(events: seq<Event>, id: AccountId)
    ensures id !in Fold(events[..0]) && !Seen(events, 0, id)
  {
  }

  lemma WithdrewSeen(events: seq<Event>, k: nat)
    requires Wellformed(events) && k < |events| && events[k].Withdrew?
    ensures Seen(events, k, events[k].accountId)
  {
  }

  /** The fold knows the accounts it has seen, each at the position of its latest event. */
  lemma {:induction false} FoldPositions(events: seq<Event>, n: nat, id: AccountId) returns (i: int)
    requires Wellformed(events) && n <= |events|
    ensures id in Fold(events[..n]) <==> Seen(events, n, id)
    ensures id in Fold(events[..n]) ==> LatestAt(events, n, id, i) && Fold(events[..n])[id].position == events[i].position
  {
    hide Fold, Wellformed, Seen;
    i := -1;
    if n == 0 {
      NothingSeen(events, id);
    } else {
      var last := events[n - 1];
      if last.Withdrew? { WithdrewSeen(events, n - 1); }
      i := FoldPositions(events, n - 1, id);
      FoldNext(events, n - 1);
      SeenNext(events, n - 1, id);
      if last.accountId == id { i := n - 1; }
    }
  }

  /** The next event extends the fold. */
  lemma ApplyNext(events: seq<Event>, n: nat)
    requires Wellformed(events) && n < |events|
    ensures ApplyEvent(Fold(events[..n]), events[n]) == Ok(Fold(events[..n + 1]))
  {
    var id := events[n].accountId;
    assert forall i :: 0 <= i < n ==> Before(events[i].position, events[n].position);
    hide Fold, Wellformed, Seen;
    if events[n].Withdrew? { WithdrewSeen(events, n); }
    var i := FoldPositions(events, n, id);
    FoldNext(events, n);
  }

  /** One that was applied before changes nothing. */
  lemma ApplyPast(events: seq<Event>, n: nat, k: nat)
    requires Wellformed(events) && k < n <= |events|
    ensures ApplyEvent(Fold(events[..n]), events[k]) == Ok(Fold(events[..n]))
  {
    var id := events[k].accountId;
    assert Seen(events, n, id);
    assert forall i :: k < i < n ==> Before(events[k].position, events[i].position);
    hide Fold, Wellformed, Seen;
    var i := FoldPositions(events, n, id);
    assert k <= i;
  }

  function Max(a: int, b: int): int { if a < b then b else a }

  /** Replaying from an earlier point catches up and then goes on. */
  lemma ApplyAt(events: seq<Event>, n: nat, k: nat)
    requires Wellformed(events) && k <= n <= |events| && k < |events|
    ensures ApplyEvent(Fold(events[..n]), events[k]) == Ok(Fold(events[..Max(n, k + 1)]))
  {
    if k < n { ApplyPast(events, n, k); } else { ApplyNext(events, n); }
  }
}
