/** The DynamoDB adapter of the directory (dynamodb-subaccount-directory.ts): a read, then a write that
    the table makes only if the stored item is older. Other workers may write in between. */
module DirectoryDynamo {
  import opened Types
  import opened Directory

  /** One account's item; ownerActiveKey is present while the account is active, and is what queries use. */
  datatype Item = Item(owner: Address, active: bool, updatedBlock: nat, updatedTransactionIndex: nat,
      updatedLogIndex: nat,
                       ownerActiveKey: Option<Address>)

  function ItemOf(a: Directory.Account): Item {
    Item(a.owner, a.active, a.position.blockNumber, a.position.transactionIndex, a.position.logIndex,
         if a.active then Some(a.owner) else None)
  }

  predicate IsNewer(e: Event, item: Item) {
    if e.position.blockNumber != item.updatedBlock then e.position.blockNumber > item.updatedBlock
    else if e.position.transactionIndex != item.updatedTransactionIndex then e.position.transactionIndex > item.updatedTransactionIndex
    else e.position.logIndex > item.updatedLogIndex
  }

  /** The condition expression of the put, on the item stored at that moment. */
  predicate NewerCondition(requireExisting: bool, stored: Option<Item>, e: Event) {
    var newer := stored.Some? &&
      (var i := stored.value;
       || i.updatedBlock < e.position.blockNumber
       || (i.updatedBlock == e.position.blockNumber && i.updatedTransactionIndex < e.position.transactionIndex)
       || (i.updatedBlock == e.position.blockNumber && i.updatedTransactionIndex == e.position.transactionIndex
           && i.updatedLogIndex < e.position.logIndex));
    if requireExisting then stored.Some? && newer else stored.None? || newer
  }

  datatype Written = Stored(item: Option<Item>) | UnknownSubaccount

  /** applyEvent: read is the item at the get, stored the one at the conditional put. A failed condition is ignored. */
  function ApplyWrite(read: Option<Item>, stored: Option<Item>, e: Event): Written {
    if read.Some? && !IsNewer(e, read.value) then Stored(stored)
    else if e.Withdrew? && read.None? then Written.UnknownSubaccount
    else
      var owner := if e.Deposited? then e.owner else read.value.owner;
      var active := e.Deposited?;
      var item := Item(owner, active, e.position.blockNumber, e.position.transactionIndex, e.position.logIndex,
                       if active then Some(owner) else None);
      if NewerCondition(e.Withdrew?, stored, e) then Stored(Some(item)) else Stored(stored)
  }

  function SetCheckpoint(stored: Option<Checkpoint>, cp: Checkpoint): (r: Checkpoint)
    ensures stored.Some? ==> stored.value.blockNumber <= r.blockNumber
    ensures r.blockNumber >= cp.blockNumber
  {
    if stored.None? || stored.value.blockNumber <= cp.blockNumber then cp else stored.value
  }

  function ItemAt(accounts: Accounts, id: AccountId): Option<Item> {
    if id in accounts then Some(ItemOf(accounts[id])) else None
  }

  /** Without interference the adapter and the in-memory store do the same to every account. */
  lemma AdapterAgrees(accounts: Accounts, e: Event)
    ensures var read := ItemAt(accounts, e.accountId);
            match ApplyEvent(accounts, e)
            case UnknownSubaccount => ApplyWrite(read, read, e).UnknownSubaccount?
            case Ok(after) => ApplyWrite(read, read, e) == Stored(ItemAt(after, e.accountId))
                              && forall id :: id != e.accountId ==> ItemAt(after, id) == ItemAt(accounts, id)
  {
  }

  // ------------------------------------------------------------------ several workers on one account

  /** One account's events in order. */
  ghost predicate OneAccount(own: seq<Event>, id: AccountId) {
    Wellformed(own) && forall i :: 0 <= i < |own| ==> own[i].accountId == id
  }

  /** The item after the first k events. */
  function ItemAfter(own: seq<Event>, id: AccountId, k: nat): Option<Item>
    requires k <= |own|
  {
    ItemAt(Fold(own[..k]), id)
  }

  lemma {:induction false} AfterSome(own: seq<Event>, id: AccountId, k: nat)
    requires OneAccount(own, id) && k <= |own|
    ensures ItemAfter(own, id, k).Some? <==> k > 0
    ensures k > 0 ==> var f := Fold(own[..k]); id in f && f[id].position == own[k - 1].position
    ensures k > 0 ==> Fold(own[..k])[id].active == own[k - 1].Deposited?
  {
    if k > 0 {
      AfterSome(own, id, k - 1);
      assert own[..k][..k - 1] == own[..k - 1];
      if own[k - 1].Withdrew? { var i :| 0 <= i < k - 1 && own[i].accountId == own[k - 1].accountId; }
    }
  }

  lemma NewerIsOrder(e: Event, a: Directory.Account, withdrew: bool)
    ensures IsNewer(e, ItemOf(a)) <==> ComparePositions(e.position, a.position) > 0
    ensures NewerCondition(withdrew, Some(ItemOf(a)), e) <==> ComparePositions(e.position, a.position) > 0
  {
  }

  /** Event k is newer than an item that has seen i of the account's events exactly when i <= k. */
  lemma NewerThanSeen(own: seq<Event>, id: AccountId, k: nat, i: nat)
    requires OneAccount(own, id) && k < |own| && 0 < i <= |own|
    ensures ItemAfter(own, id, i).Some?
    ensures IsNewer(own[k], ItemAfter(own, id, i).value) <==> i <= k
    ensures NewerCondition(own[k].Withdrew?, ItemAfter(own, id, i), own[k]) <==> i <= k
  {
    AfterSome(own, id, i);
    NewerIsOrder(own[k], Fold(own[..i])[id], own[k].Withdrew?);
    if i <= k { assert Before(own[i - 1].position, own[k].position); }
    if i - 1 > k { assert Before(own[k].position, own[i - 1].position); }
    hide Fold, IsNewer, NewerCondition;
  }

  /** A worker that applies event k in order has read the account after i >= k events and writes when others have
      brought it to j >= i events: the item is then the one after max(j, k + 1) events. No write goes back, and
      none mixes the owner of one deposit with the state of another. */
  lemma LastWriterWins(own: seq<Event>, id: AccountId, k: nat, i: nat, j: nat)
    requires OneAccount(own, id) && k <= i <= j <= |own| && k < |own|
    ensures ApplyWrite(ItemAfter(own, id, i), ItemAfter(own, id, j), own[k]) == Stored(ItemAfter(own, id, Max(j, k + 1)))
  {
    hide IsNewer, NewerCondition, Fold, ItemAfter;
    if i > k {
      NewerThanSeen(own, id, k, i);
    } else if j > k {
      NewerThanSeen(own, id, k, j);
      if k == 0 { FirstDeposits(own, id); } else { ReadSome(own, id, k); }
    } else {
      NextItem(own, id, k);
    }
  }

  lemma FirstDeposits(own: seq<Event>, id: AccountId)
    requires OneAccount(own, id) && own != []
    ensures own[0].Deposited?
  {
  }

  lemma ReadSome(own: seq<Event>, id: AccountId, k: nat)
    requires OneAccount(own, id) && 0 < k <= |own|
    ensures ItemAfter(own, id, k).Some?
  {
    AfterSome(own, id, k);
  }

  lemma NextItem(own: seq<Event>, id: AccountId, k: nat)
    requires OneAccount(own, id) && k < |own|
    ensures ApplyWrite(ItemAfter(own, id, k), ItemAfter(own, id, k), own[k]) == Stored(ItemAfter(own, id, k + 1))
  {
    hide Fold, ApplyEvent, ApplyWrite, ItemAt;
    ApplyNext(own, k);
    AdapterAgrees(Fold(own[..k]), own[k]);
  }

  /** The query by ownerActiveKey lists exactly the active accounts of that owner. */
  lemma QueryListsActive(accounts: Accounts, owner: Address, id: AccountId)
    requires id in accounts
    ensures ItemOf(accounts[id]).ownerActiveKey == Some(owner) <==> accounts[id].active && accounts[id].owner == owner
  {
  }

  /** After all of an account's events the query lists it for an owner exactly when its last event is that owner's
      deposit, whatever workers raced on the way. */
  lemma QueryIsLastDeposit(own: seq<Event>, id: AccountId, owner: Address)
    requires OneAccount(own, id)
    ensures var item := ItemAfter(own, id, |own|);
            item.Some? && item.value.ownerActiveKey == Some(owner) <==> LastIsDeposit(own, id, owner)
  {
    hide Fold, LastIsDeposit, OneAccount;
    assert own[..|own|] == own;
    ActiveMeansLastDeposit(own, id, owner);
    if id in Fold(own) { QueryListsActive(Fold(own), owner, id); }
  }
}
