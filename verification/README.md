# Verified model of the RFQ engine and its oracle indexes

A venue where takers auction covered calls to market makers. The engine runs the auctions, keeps makers' cash
reserved while their quotes can still win, and submits accepted trades and withdrawals through one executor wallet.
It must survive a crash at any point and must never act on a broadcast whose outcome it does not know. Beside it run
indexers that project contract events into tables, and feeds that compute settlement prices.

The project models that behaviour in four layers and proves what each is for.

**The execution protocol** (`protocol*.dfy`). Every handler of the engine (quote, replace, cancel, close, expire,
accept, reconcile, withdraw, recover) is cut at its awaits. One step of the transition system is the code between two
awaits, a crash, or a move of the chain: mining, reverting, burning a nonce, time, deposits. The state is the two
durable logs, the volatile maps, each handler's program counter with its locals, and the chain. `ProtocolInvariant`
gives the inductive invariant, `ProtocolSafety.RunInv` shows that it holds in every state of every run, and
`ProtocolTheorems`, `ProtocolCallData` and `ProtocolCash` state what follows from it. `ProtocolLog` puts the protocol on
its two log files, where a crash may also cut an append: as long as nothing is written behind a fragment, every state of
the engine lies on a run of the protocol, and `ProtocolTorn` shows what happens otherwise.

**The code inside one lock** (`auction.dfy`, `auction_accept.dfy`, `auction_recovery.dfy`, `tx_submitter.dfy`,
`chain.dfy`, `chain_refinement.dfy`, `store.dfy`, `log_file.dfy`, `torn_log.dfy`, `jsonl_store.dfy`,
`withdrawal.dfy`, `withdrawal_store.dfy`, `account_lock.dfy`, `quotes.dfy`). Classes with the engine's own fields, each method proved
against the same record functions (`AuctionCore`) that the protocol's steps use. This layer discharges what the
protocol takes as a step: that blocks are sequences of its chain steps and the chain's answers are final, what every
history of appends and crashes reloads to, that the locks exclude and never deadlock, that a quote is admitted only
when the maker can pay.

**The indexes** (`directory*.dfy`, `active_expiry.dfy`, `expiry_policy.dfy`). Chunked, restartable, reorg-checking
projections against a plain fold over the chain's events.

**Arithmetic and codecs** (`twap.dfy`, `svi.dfy`, `instruments.dfy`, `units.dfy`, `decimal.dfy`, `json.dfy`,
`json_torn.dfy`, `stored.dfy`).

How to read the protocol:

- A handler that waits for a lock has done nothing yet and is not represented; `AccountLocks` models the waiting. A
  section holds its RFQ's resource lock and its accounts' locks, and steps of others that need them are disabled.
- A broadcast is identified by its operation, an RFQ or a withdrawal, and carries its call data. A reconciliation
  without a hash recognises a success by the call data alone, so it may find another RFQ's: two acceptances share
  their call data exactly when both sides signed the same two actions (`Quotes.CallDataNamesTheActions`). Nothing
  excludes that; `ProtocolCallData.OwnExactlyIfAlone` says when a record is the RFQ's own, and
  `ProtocolShared.SharedCallDataIsShared` is a run on which it is not.
- `Protocol.Crash` happens between appends and leaves whole logs. The store skips a torn last line when it loads but
  does not remove it, and its next append continues that line, so the theorems about runs hold while no record is
  appended behind a torn tail (`ProtocolLog.CleanRunsAreRuns`) and not beyond (`ProtocolTorn.TornTailBroadcastsTwice`).
- The queue's guard may refuse at any time, a broadcast needs an empty set of latches. Refusals by the hash latch and by
  the shared latches are therefore included. A failing submission, whether it fails before its broadcast, in it or
  after it, and its owner's catch block are one step.
- An execution debits its maker at most the quote's reserved cash. A nonce may be consumed by a transaction that the
  engine did not send.
- `Leaked` counts withdrawals mined after their handler had given up its account lock.
- Recovery visits RFQs and withdrawals in any order; timers may fire meanwhile, requests may not.

Where the code promises less than one might expect, the condition is proved with it: appends work exactly on whole
files (`TornLog.AppendsWorkIffWhole`), an answer to a prepare survives restarts exactly when a complete line tells of it
(`IdempotentPrepare.AnswerSurvivesIffKept`), an executed record is the RFQ's own exactly when no other RFQ with its call
data succeeded (`ProtocolCallData.OwnExactlyIfAlone`), the directory is the fold up to its checkpoint exactly when the
head did not fall behind what was applied (`DirectorySync.SyncOnce`), a prepared withdrawal passes the final check exactly when its own amount
simulates (`WithdrawalPolicy.PassesIffSimulates`), option ids decode exactly for positive expiry and non-negative strike
(`Instruments.DecodeOfEncode`), an accumulator stands for what was kept since its last purge
(`Twap.EffectiveSincePurge`), and cash covers what is owed but for withdrawals mined late, a bound that is attained for
every cash and every loss (`ProtocolLeak.CashAloneDoesNotCover`).

## Model

| member | source | states |
|---|---|---|
| `ProtocolSafety.RunInv` | services/rfq-engine/src/auction.ts:198-661 | The invariant (records true to the chain, latches, queue, reservations, lock holders, solvency) holds in every state of every run, with crashes between any two appends and restarts anywhere. |
| `ProtocolLog.CleanRunsAreRuns` | services/rfq-engine/src/store.ts:423-472 | With crashes at any point of an append, but nothing written behind a fragment, any two states of the engine lie in order on a run of the protocol, so what is proved of runs holds of them; and a reload shows what the engine holds. |
| `ProtocolLog.CleanBroadcastsAreDistinct` | services/rfq-engine/src/auction.ts:431-498 | In particular nothing is broadcast twice, wherever a crash cuts an append. |
| `ProtocolTorn.RunsAreClean` | services/rfq-engine/src/store.ts:464-472 | Conversely every run of the protocol is such a run, with logs that are always whole. |
| `ProtocolTorn.TornTailBroadcastsTwice` | services/rfq-engine/src/store.ts:430-472 | For every call data, accounts and price, a run from empty files on which an intent is appended behind a fragment ends with the RFQ broadcast twice. |
| `ProtocolTheorems.BroadcastAtMostOnce` | services/rfq-engine/src/auction.ts:431-498 | Each RFQ and each withdrawal is broadcast by at most one step of a run. |
| `ProtocolTheorems.BroadcastIsGuarded` | services/rfq-engine/src/chain.ts:440-454 | When a broadcast starts its record is durable, and every earlier broadcast has a canonical receipt or can no longer succeed. |
| `ProtocolTheorems.ResolvedIsFinal` | services/rfq-engine/src/chain.ts:298-355 | A broadcast that can no longer succeed never does, whatever the chain does next. |
| `ProtocolTheorems.AmbiguousBlocks` | services/rfq-engine/src/auction.ts:481-494 | A durable operation without an outcome that nobody is working on has its own latch set, and no RFQ or withdrawal can be broadcast past it. |
| `ProtocolTheorems.LatchOutlivesDoubt` | services/rfq-engine/src/auction.ts:518-544 | Short of a crash an operation's latch is lifted only when its terminal record is in the log. |
| `ProtocolTheorems.TerminalIsFinal` | services/rfq-engine/src/auction.ts:546-588 | Expired, executed and failed records never change again. |
| `ProtocolTheorems.WinnerIsFinal` | services/rfq-engine/src/auction.ts:284-313 | From the close on, the winner is one stored quote, it never changes or disappears, and no quote stored for the RFQ beats it. |
| `ProtocolTheorems.AcceptOrExpire` | services/rfq-engine/src/auction.ts:348-443 | What was broadcast never expires, and what expired is never broadcast. |
| `ProtocolTheorems.ReopenedUnsent` | services/rfq-engine/src/auction.ts:459-480 | An RFQ goes back from executing to closed only if it was not broadcast. |
| `ProtocolTheorems.LifecycleEdges` | services/rfq-engine/src/auction.ts:284-544 | Every step moves every RFQ along an edge of the lifecycle, and records are never lost. |
| `ProtocolTheorems.RecordsAreTrue` | services/rfq-engine/src/auction.ts:501-544 | Executed means that a transaction with exactly this call data succeeded and that the RFQ's own broadcast did or never will; with call data of its own it is the RFQ's own. A failed RFQ never executes later; an executed one is never filed as anything else. |
| `ProtocolCallData.OwnExactlyIfAlone` | services/rfq-engine/src/chain.ts:308-329 | An executed record is the RFQ's own exactly when no other RFQ with the same call data has succeeded. |
| `ProtocolShared.SharedCallDataIsShared` | services/rfq-engine/src/chain.ts:308-329 | For every call data, accounts and price, a run from a fresh engine ends with two RFQs that carry it filed as executed, the second never broadcast. |
| `ProtocolTheorems.ReservationsMatchStore` | services/rfq-engine/src/auction.ts:240-313 | Between locked sections the reservation map is exactly the live quotes of the store with their accounts and amounts. |
| `ProtocolTheorems.LiveIsReserved` | services/rfq-engine/src/auction.ts:240-249 | Also inside sections every live quote is reserved, but for the tick in which it is being stored. |
| `ProtocolTheorems.ExecutingIsReserved` | services/rfq-engine/src/auction.ts:515-544 | The winner's cash stays reserved as long as its RFQ is executing. |
| `ProtocolCash.NeverOverpromised` | services/rfq-engine/src/quotes.ts:239-270 | For accounts that never take, what live quotes may still debit is at most cash plus late-mined withdrawals, in every state of every run. |
| `ProtocolCash.SolventUnlessLeaked` | services/rfq-engine/src/withdrawal.ts:624-692 | Account by account: cash alone covers it unless one of this account's withdrawals was mined late. |
| `ProtocolCash.SolventInsideLocks` | services/rfq-engine/src/withdrawal.ts:624-692 | When withdrawals are mined inside their lock, cash alone covers it. |
| `ProtocolCash.ReservationsAreCovered` | services/rfq-engine/src/auction.ts:86-94 | Between sections the reservation map itself, less winners already paid, is covered by cash. |
| `ProtocolLeak.CashAloneDoesNotCover` | services/rfq-engine/src/withdrawal.ts:654-662 | For every maker, every cash and every part of it, a run ends with all the cash owed to live quotes and that part gone: the bound is attained, and cash alone falls short. |
| `Auction.AuctionEngine.ReservedFor` | services/rfq-engine/src/auction.ts:86-94 | The loop computes the sum over the account's reservations outside the excluded quotes. |
| `Auction.AuctionEngine.SubmitQuoteLocked` | services/rfq-engine/src/auction.ts:211-250 | Exactly when a quote is admitted; its maker's earlier quotes on the RFQ then leave store and map, and otherwise nothing changes. |
| `Auction.AuctionEngine.CancelQuoteLocked` | services/rfq-engine/src/auction.ts:257-278 | A cancellation succeeds exactly for the maker's own quote in an open auction, and removes it from store and map. |
| `Auction.AuctionEngine.CloseAuctionLocked` | services/rfq-engine/src/auction.ts:284-314 | The best quote wins and alone stays reserved, or the RFQ expires. |
| `Auction.AuctionEngine.ExpireAcceptLocked` | services/rfq-engine/src/auction.ts:348-358 | Exactly a closed RFQ expires, and its winner is released. |
| `BestQuote.SelectBestQuote` | services/rfq-engine/src/auction.ts:688-700 | The loop returns the quote that no other beats on premium, then on arrival. |
| `BestQuote.BestIsUnique` | services/rfq-engine/src/auction.ts:688-700 | The winner does not depend on anything but the quotes. |
| `AuctionAccept.AcceptRfqLocked` | services/rfq-engine/src/auction.ts:382-499 | Which answer an acceptance gets; that the executor is called only with the durable intent; the record, latches and reservation each outcome leaves; that the map stays the one the store calls for. |
| `AuctionAccept.Execute` | services/rfq-engine/src/auction.ts:443-499 | The durable intent, the broadcast and its aftermath: a refusal reopens or expires, a receipt settles, anything else keeps the RFQ executing and latched. |
| `AuctionAccept.ReconcileExecutingOnce` | services/rfq-engine/src/auction.ts:556-588 | The latch precedes the read; it and the reservation go only with the terminal record; a mismatched hash ends nothing. |
| `AuctionAccept.WonReservations` | services/rfq-engine/src/auction.ts:459-544 | A record that stays closed or executing leaves the reservations due unchanged; a terminal one frees exactly the winner. |
| `AuctionAccept.ClearKeepsOthers` | services/rfq-engine/src/executor.ts:132-136 | Clearing one RFQ's recovery leaves every other RFQ's latch set. |
| `AuctionRecovery.Recover` | services/rfq-engine/src/auction.ts:596-661 | Over all stored RFQs in any order and with any answers of the chain, through the reconciliation with its hash check, recovery leaves exactly the reservation map of the store and exactly the latches of the RFQs still executing. |
| `AuctionRecovery.Restart` | services/rfq-engine/src/auction.ts:590-661 | So does a restart from the file alone, torn or whole, with a fresh engine and a fresh wallet. |
| `AuctionRecovery.RunsAreRecoverable` | services/rfq-engine/src/auction.ts:590-661 | What the engine has stored at any time of any run meets what recovery needs of the records. |
| `Quotes.AdmittedIsSigned` | services/rfq-engine/src/quotes.ts:160-237 | An admitted quote is the maker's signed action: one trade of the RFQ's instrument and size at the ranked premium, bound by its order hash. |
| `Quotes.AdmittedIsCovered` | services/rfq-engine/src/quotes.ts:238-270 | Cash covers reservations, premium, signed fee cap and estimated fee; other things equal the balance decides, at exactly that threshold. |
| `Quotes.AdmittedOutlivesAuction` | services/rfq-engine/src/quotes.ts:187-192 | The signed action is unexpired at every moment before the auction's end. |
| `Quotes.FeeMonotone` | services/rfq-engine/src/quotes.ts:125-142 | Larger trades never pay a smaller estimated fee, whatever their direction, and a charged fee reaches the minimum. |
| `Quotes.RawFeeIsClose` | services/rfq-engine/src/quotes.ts:134-136 | What the two roundings of the fee lose. |
| `Quotes.AdmittedByProtocol` | services/rfq-engine/src/quotes.ts:239-270 | A quote that passes validation satisfies the protocol's guard. |
| `Quotes.ExecutesWhatWasSigned` | services/rfq-engine/src/executor.ts:41-84 | Call data of an admitted and accepted quote: maker first, both signatures, unexpired actions, the trade both committed to, fees within caps, debit within the reservation. |
| `Quotes.IntentCommits` | services/rfq-engine/src/executor.ts:98-115 | Its intent is the one the protocol lets the handler commit. |
| `Quotes.CallDataNamesTheActions` | services/rfq-engine/src/executor.ts:98-115 | Two intents share a call data hash exactly when they carry the same signed actions. |
| `ExecutorChain.ExactCanonicalResult` | services/rfq-engine/src/chain.ts:357-387 | A result names a canonical transaction of the executor with exactly the persisted call data. |
| `ExecutorChain.ReconcileVerifyAndMatch` | services/rfq-engine/src/chain.ts:298-355 | "Mined" is canonical and exact; "expired unused" means no extension executes the call data; a success on chain before the call is not overlooked. |
| `ExecutorChain.LapsedIsFinal` | services/rfq-engine/src/chain.ts:333-354 | Both actions expired and both nonces unused at one block: no later block executes them. |
| `ExecutorChain.OneHash` | services/rfq-engine/src/chain.ts:312-329 | At most one transaction consumes an action nonce, so the logs of an intent name one hash or none. |
| `TxSubmitter.ViemTxSubmitter.SubmitVerifyAndMatch` | services/rfq-engine/src/chain.ts:389-454 | Nothing is broadcast past a latch; a broadcast returns exactly when its receipt is canonical, and sets a latch otherwise. |
| `TxSubmitter.PausedUntilCleared` | services/rfq-engine/src/chain.ts:456-479 | An operation's latch outlives every sequence of calls without its own clear. |
| `TxSubmitter.FailureHolds` | services/rfq-engine/src/chain.ts:389-433 | A failed broadcast refuses every later write until its owner clears it. |
| `TxSubmitter.ConflictHolds` | services/rfq-engine/src/chain.ts:466-471 | Two unresolved hashes pause the wallet for good. |
| `ChainRefinement.ExtensionIsSteps` | services/rfq-engine/src/chain.ts:357-433 | However the canonical chain grows, the protocol's chain follows by receipts, burned nonces and time, and keeps the same receipts, consumed nonces and time. |
| `ChainRefinement.OneTx` | services/rfq-engine/src/chain.ts:357-387 | A transaction is the receipt of the broadcast it stems from, and burns the nonces it takes from other RFQs. |
| `ChainRefinement.NotSpent` | services/rfq-engine/src/chain.ts:357-387 | On such a chain no call data succeeds twice. |
| `ChainRefinement.IntentJoins` | services/rfq-engine/src/executor.ts:98-115 | A new intent joins that correspondence, whatever nonces of it are already gone. |
| `ChainRefinement.VerdictIsAnswer` | services/rfq-engine/src/chain.ts:298-355 | Every verdict of the reconciliation on such a chain is an answer the protocol allows. |
| `AccountLocks.Exclusion` | services/rfq-engine/src/account-lock.ts:20-39 | At most one task works under a key. |
| `AccountLocks.FirstComeFirstServed` | services/rfq-engine/src/account-lock.ts:20-39 | Keys are served in order of request although tails are deleted. |
| `AccountLocks.NoDeadlock` | services/rfq-engine/src/account-lock.ts:8-39 | In every reachable state with a task in it some task can go on. |
| `AccountLocks.HandlerKeysSorted` | services/rfq-engine/src/auction.ts:364-380 | RFQ resource, then sorted distinct accounts, then the write queue is an increasing order, whatever accounts are named. |
| `RfqStore.RecordRoundTrip` | services/rfq-engine/src/store.ts:258-410 | Every record, as JSON, reads back as itself. |
| `StoredForm.RfqRoundTrip` | services/rfq-engine/src/store.ts:258-368 | rfqFromStored undoes rfqToStored. |
| `StoredForm.QuoteRoundTrip` | services/rfq-engine/src/store.ts:370-410 | quoteFromStored undoes quoteToStored. |
| `RfqStore.CrashDuringAppend` | services/rfq-engine/src/store.ts:423-472 | A crash at any byte of an append reloads to the index before it or after it, the latter once the record's text is complete. |
| `RfqStore.AppendApplies` | services/rfq-engine/src/store.ts:464-472 | A completed append has exactly its record's effect on the reloaded index. |
| `TornLog.HistoryReloads` | services/rfq-engine/src/store.ts:423-472 | After any appends and crashes at any bytes, exactly what a reload shows, and when the file is whole. |
| `TornLog.TornFileLosesAppend` | services/rfq-engine/src/store.ts:464-472 | An append behind a record cut at any byte short of its newline is lost with it. |
| `TornLog.ShownThenGone` | services/rfq-engine/src/store.ts:430-472 | A record that lacks only its newline is there after one restart and gone after the next append. |
| `TornLog.AppendToHistory` | services/rfq-engine/src/store.ts:464-472 | On every file the store can have written, an append has its record's effect if the file is whole, and otherwise only closes the open line. |
| `TornLog.AppendsWorkIffWhole` | services/rfq-engine/src/store.ts:464-472 | Appends work exactly on whole files. |
| `JsonTorn.TornValue` | services/rfq-engine/src/store.ts:430-460 | A torn JSON value with a record glued to it never parses to the end of a list or an object. |
| `JsonlStore.JsonlRfqStore.constructor` | services/rfq-engine/src/store.ts:417-462 | The replay loop computes the index of the file. |
| `JsonlStore.JsonlRfqStore.PutQuote` | services/rfq-engine/src/store.ts:68-75 | The live index takes the quote, keeping its place or going last, and still equals the replay of its file. |
| `JsonlStore.JsonlRfqStore.DeleteQuote` | services/rfq-engine/src/store.ts:81-92 | The quote leaves both maps and the order, and the live index still equals the replay. |
| `JsonlStore.RestartReplays` | services/rfq-engine/src/store.ts:423-462 | A restart replays every record appended, in order, and nothing else. |
| `JsonlStore.RestartAfterCrash` | services/rfq-engine/src/store.ts:423-462 | After a crash at any byte, all of the log but possibly its last record. |
| `JsonlStore.ReplayIsWellFormed` | services/rfq-engine/src/store.ts:47-100 | Replayed logs give an index whose order lists exactly the stored quotes of each RFQ. |
| `Json.ParseStringify` | services/rfq-engine/src/store.ts:464-472 | Parsing undoes printing for every value. |
| `Json.TornIsRejected` | services/rfq-engine/src/store.ts:430-460 | No proper prefix of a printed record parses. |
| `WithdrawalPolicy.FindMaximum` | services/rfq-engine/src/withdrawal.ts:577-622 | The loop computes the bisection; for any simulation, the whole of upper or a value that simulates right below one that does not; the true maximum when monotone; conclusive up to 2^96; at most 97 simulations. |
| `WithdrawalPolicy.FloorIsExact` | services/rfq-engine/src/withdrawal.ts:96-118 | Aligned amounts are within the floor exactly when their debit is within the internal amount. |
| `WithdrawalPolicy.CeilIsLeast` | services/rfq-engine/src/withdrawal.ts:103-118 | The ceiling is the least number of tokens that reaches the amount. |
| `WithdrawalPolicy.FeeCapIsMaximal` | services/rfq-engine/src/withdrawal.ts:466-468 | The fee-adjusted cap is the largest amount whose fee-inclusive debit is available. |
| `WithdrawalPolicy.CapLeavesReservations` | services/rfq-engine/src/withdrawal.ts:455-471 | An aligned amount within the cash cap leaves the reservations covered, fee included. |
| `WithdrawalPolicy.PreviewAtBlock` | services/rfq-engine/src/withdrawal.ts:427-534 | Blocker exactly when nothing can leave; recommended, maximum and liquidity ordered and quantum aligned; the maximum is sound, and exact when monotone. |
| `WithdrawalPolicy.AssertFinalPolicy` | services/rfq-engine/src/withdrawal.ts:780-841 | The final check passes exactly when snapshot, alignment, cap, simulation and canonicity hold. |
| `WithdrawalPolicy.PassesIffSimulates` | services/rfq-engine/src/withdrawal.ts:205-232 | With unchanged state, what prepare accepts passes the final check exactly when that amount simulates. |
| `WithdrawalPolicy.AllPassIffAllSimulate` | services/rfq-engine/src/withdrawal.ts:205-232 | All that prepare may accept on a preview passes exactly when every aligned amount up to its maximum simulates. |
| `WithdrawalPolicy.PreparedPasses` | services/rfq-engine/src/withdrawal.ts:205-232 | For a monotone simulation they all do. |
| `WithdrawalPolicy.OtherwiseItNeedNot` | services/rfq-engine/src/withdrawal.ts:577-622 | A simulation on which the search settles on 4 of 5, the preview offers 4, prepare accepts 1, and the final check refuses it. |
| `WithdrawalPolicy.PolicyIsCheck` | services/rfq-engine/src/withdrawal.ts:780-841 | A cash withdrawal that passes satisfies the protocol's guard. |
| `WithdrawalStore.JsonlWithdrawalOperationStore.PutIfIdempotencyAbsent` | services/rfq-engine/src/withdrawal-store.ts:41-59 | The first operation under a key is stored, later ones are answered with it. |
| `IdempotentPrepare.OneOperationPerKey` | services/rfq-engine/src/withdrawal.ts:172-184 | At most one operation exists per owner and key in memory and file, whatever interleaves and wherever crashes cut the log. |
| `IdempotentPrepare.KeptIfWhole` | services/rfq-engine/src/withdrawal-store.ts:148-159 | The answer to a prepare that stores its operation is in a complete line exactly if the put found the file whole. |
| `IdempotentPrepare.AnswerSurvivesIffKept` | services/rfq-engine/src/withdrawal-store.ts:127-159 | An answer survives every later restart, crashes inside appends included, exactly if a complete line tells of it. |
| `IdempotentPrepare.SuccessesAgree` | services/rfq-engine/src/withdrawal.ts:277-288 | All kept successes under a key give the same operation, action and review. |
| `IdempotentPrepare.DifferentRequestConflicts` | services/rfq-engine/src/withdrawal.ts:172-184 | Once a success is kept, every later answer under its key is that success, or a conflict if the fingerprint differs. |
| `IdempotentPrepare.LostAnswerIsRepeated` | services/rfq-engine/src/withdrawal-store.ts:127-159 | Otherwise not: for any three operations, a run on which a put behind a fragment is answered and lost ends with two different successes under one key. |
| `Directory.ActiveMeansLastDeposit` | services/rfq-engine/src/subaccount-directory.ts:85-116 | An account is active for an owner exactly when its last event is that owner's deposit. |
| `Directory.ApplyAt` | services/rfq-engine/src/subaccount-directory.ts:85-106 | Replaying an event already seen changes nothing, the next one extends the fold. |
| `DirectorySync.SortRecovers` | services/rfq-engine/src/subaccount-directory.ts:60-67 | Sorting by position recovers the chain's order from any order of logs. |
| `DirectorySync.SyncOnce` | services/rfq-engine/src/subaccount-directory.ts:192-240 | For every chunk size, after any number of passes cut short between writes and for every head, a completed sync leaves the fold up to its checkpoint, but for one case that is named: exactly when the head lags behind what a cut-short pass had applied, the store is ahead of it. |
| `DirectorySync.ReorgKeepsRestartable` | services/rfq-engine/src/subaccount-directory.ts:192-212 | A reorganisation above what was read, or one that changes or removes the checkpoint's block, leaves the store restartable. |
| `DirectoryDynamo.AdapterAgrees` | services/rfq-engine/src/dynamodb-subaccount-directory.ts:134-188 | The conditional-write adapter does to every account what the in-memory store does. |
| `DirectoryDynamo.LastWriterWins` | services/rfq-engine/src/dynamodb-subaccount-directory.ts:59-81 | With other workers writing between its read and its write, no write goes back. |
| `DirectoryDynamo.QueryIsLastDeposit` | services/rfq-engine/src/dynamodb-subaccount-directory.ts:134-209 | After an account's events the query lists it for an owner exactly when its last event is that owner's deposit. |
| `ActiveExpiry.FoldIsLastBalance` | services/oracle-feeds/src/activeExpiryIndex.ts:456-478 | The fold holds exactly the non-zero last balances per account and option. |
| `ActiveExpiry.LastBalanceIsLast` | services/oracle-feeds/src/activeExpiryIndex.ts:456-478 | The last balance is the post balance of the last event about the key. |
| `ActiveExpiry.PackedKey` | services/oracle-feeds/src/activeExpiryIndex.ts:450-454 | Unpacking recovers asset and option id from a packed key. |
| `ActiveExpiry.FindDeploymentBlock` | services/oracle-feeds/src/activeExpiryIndex.ts:365-394 | A block with code whose predecessor has none; the first one when code does not disappear. |
| `ActiveExpiry.PerformSync` | services/oracle-feeds/src/activeExpiryIndex.ts:190-336 | A completed sync leaves the fold of all events from the first block to the safe head of the chain it was shown, for every chunking, whatever chains earlier syncs were shown, wherever they died, and also when the head fell below the checkpoint. |
| `ActiveExpiry.ReorgKeepsTrusted` | services/oracle-feeds/src/activeExpiryIndex.ts:297-311 | What was read up to a canonical block is the fold on every chain on which that block is canonical. |
| `ExpiryPolicy.ExpiredSeries` | services/oracle-feeds/src/activeExpiryIndex.ts:262-280 | One series per expired expiry, in order, with exactly its accounts and option ids. |
| `ExpiryPolicy.PositionsPartition` | services/oracle-feeds/src/activeExpiryIndex.ts:253-280 | Every position is in exactly one of the active expiries and the expired series. |
| `ExpiryPolicy.PostingCoversPositions` | services/oracle-feeds/src/expiryPolicy.ts:74-96 | The posting list is sorted, duplicate-free and holds exactly the future expiries asked for or held. |
| `ExpiryPolicy.TradeableFridayExpiries` | services/oracle-feeds/src/expiryPolicy.ts:10-37 | The nearest Fridays 08:00 UTC beyond the lead time, none left out. |
| `Twap.SettlementTwapTracker.Observe` | services/oracle-feeds/src/settlementTwap.ts:63-126 | What an observation does to its series, to the others and to the file, saved or not, and when the process dies. |
| `Twap.RunIsTracked` | services/oracle-feeds/src/settlementTwap.ts:63-170 | After any calls for any expiries, deaths before any save and restarts, each series is the track of its effective observations. |
| `Twap.RunIsBounded` | services/oracle-feeds/src/settlementTwap.ts:63-170 | So its integral keeps the price bounds, but for a series that died between its first two saves. |
| `Twap.EffectiveSincePurge` | services/oracle-feeds/src/settlementTwap.ts:120-125 | The effective observations are all that were kept since the last purge by a later call for another expiry. |
| `Twap.PurgedStartsOver` | services/oracle-feeds/src/settlementTwap.ts:120-125 | An observation after a purge starts over. |
| `Twap.IntegralBounded` | services/oracle-feeds/src/settlementTwap.ts:63-126 | The integral lies between the lowest and highest price times the elapsed window, exactly. |
| `Twap.IntegralGrows` | services/oracle-feeds/src/settlementTwap.ts:63-126 | Inside the window it never decreases. |
| `Twap.IntegralIsClose` | services/oracle-feeds/src/settlementTwap.ts:181-196 | After n segments it is within (n + 1800) / 2 of the exact piecewise linear integral. |
| `Twap.LateStartIsLate` | services/oracle-feeds/src/settlementTwap.ts:78-112 | lateStart holds exactly when the first observation came after the window start. |
| `Twap.LateStartInOrder` | services/oracle-feeds/src/settlementTwap.ts:78-112 | In time order: exactly when none was at or before it. |
| `Twap.CrashIsRepaired` | services/oracle-feeds/src/settlementTwap.ts:72-112 | A crash between the two initial saves is undone by the next later observation. |
| `Svi.IntegerSqrt` | services/oracle-feeds/src/svi.ts:75-85 | Newton's loop ends with the floor of the square root. |
| `Svi.SqrtIsUnique` | services/oracle-feeds/src/svi.ts:75-85 | There is only one such number. |
| `Svi.FlatSviVol` | services/oracle-feeds/src/svi.ts:42-73 | The flat surface returns at most the volatility put in and loses only the rounding of three operations. |
| `Instruments.DecodeOfEncode` | services/shared/src/instruments.ts:25-43 | Decoding undoes encoding exactly for accepted options with positive expiry and non-negative strike; other ids are rejected. |
| `Instruments.EncodeOfDecode` | services/shared/src/instruments.ts:25-43 | Every 96-bit id with non-zero expiry is the encoding of what it decodes to. |
| `Instruments.EncodingIsInjective` | services/shared/src/instruments.ts:25-34 | No two such options share an id. |
| `Units.AmountRoundTrip` | services/shared/src/units.ts:2-28 | Parsing undoes printing for every integer and every precision. |
| `Units.PrintingIsInjective` | services/shared/src/units.ts:17-28 | Different amounts print differently. |
| `Decimal.ReadPrint` | services/rfq-engine/src/store.ts:202-410 | BigInt of a printed integer is that integer. |

## Left out

- An exception from an event listener after a terminal record is stored (services/rfq-engine/src/auction.ts:520-543): listeners are taken not to throw.
- `ProtocolSafety.RunInv`, `ProtocolTheorems.BroadcastAtMostOnce`, `ProtocolTheorems.BroadcastIsGuarded` and the other theorems about runs: they hold while no record is appended behind a torn tail, as `ProtocolLog.CleanRunsAreRuns` states and `ProtocolTorn.TornTailBroadcastsTwice` shows to be needed.
- The withdrawal log is modelled record by record; that a fragment with a record glued to it is skipped is proved in characters for the RFQ log (`TornLog`), whose loading code it repeats.
- An append that throws is a crash: some handlers change the shared record before they append (services/rfq-engine/src/auction.ts:306-311).
- JSON is the compact form that the engine writes: members in written order, integers only, a file is a sequence of characters. A cut inside a multi-byte character is not modelled.
- Legacy records without an intent, and puts that change only an error text during the handlers of the protocol.
- Withdrawal reconciliation is one atomic step: concurrent reconciliations of one withdrawal may write stale statuses (services/rfq-engine/src/withdrawal.ts:698-703), so withdrawal statuses are not claimed to be absorbing, and an ambiguous withdrawal is latched but a latched one need not be ambiguous.
- Withdrawal handlers are steps of the protocol over records and a program counter; there is no class around them.
- Handlers of the engine's class run to completion: interleavings between their awaits are the protocol's, and timers and event emission are left to its enabled steps.
- `AuctionAccept.AcceptRfqLocked`: stores the transaction hash after the submitter returns instead of inside its callback, because a class method cannot be interrupted; the crash points between are steps of the protocol.
- Solvency is stated for accounts that no stored RFQ names as taker; an execution's own fees and margin are within its reserved cash by assumption.
- The canonical chain does not reorganise during one reconciliation, while receipts may come from orphaned blocks; across calls only extensions are considered.
- Keccak, ABI encoding, EIP-712 and the contracts' gates are oracles: equal identities stand for equal bytes.
- Opening an RFQ, market readiness, instrument names and their parsing: validation without state.
- The withdrawal gateway's contract reads: snapshots and simulations are inputs.
- DynamoDB paging, batch deletion, retries of log queries, rate limits and heartbeats.
- One active-expiry sync reads one view of the chain; a state file of another deployment is refused by loading and not modelled.
- A save of the TWAP file that fails is the end of its process.
- Floating-point pricing, surface fitting and the market maker; the New York calendar.
- The shadow ledger, the serial transaction queue and settlement identities: only easy members.
- HTTP and WebSocket plumbing, configuration, deployment, the web application, and the smart contracts.
