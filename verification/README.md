# Verified models of the copy-trading bot

The bot watches a target wallet on Solana, copies its buys, guards every position
it opens with take-profit, stop-loss, trailing-stop and rug rules, and sends its
transactions through several providers at once. This project models the parts of
it where several tasks share state, and the arithmetic and byte parsers they rest
on, and proves what they promise.

- **Position lifecycle** (`Positions`, `Lifecycle*`). Buy tasks, the monitor task
  and the sell executor share the position map, the set of reserved mints and the
  sell queue. `PositionMonitor` is the shared object, each method one section
  under the source's locks. `Lifecycle` is the machine in which every such section
  or channel operation is one step, the monitor works from a stale snapshot, and
  the environment picks prices, liquidity, balances and call outcomes.
  `LifecycleActors` holds the actors' own loops and branches as methods over the
  shared object and proves that each body is a path of that machine;
  `LifecycleSafety`, `LifecycleTheorems`, `LifecycleFacts` and `LifecycleLevels`
  prove what every run keeps and trace what a position remembers to its cause; `LifecycleLimits` shows with runs where each
  promise stops and states it exactly.
- **Detection** (`AltCache`, `AltResolution`, `Detection`). The least-recently-used
  cache of address lookup tables with background fetches, every interleaving of it
  with a growing chain, and the proof that what the fast shreds parser reports is
  what the full parser reports for the same transaction.
- **Sending** (`CircuitBreaker`, `FanOut`). The per-provider circuit and the
  first-success fan-out with aborts, over any number of concurrent calls that
  share one semaphore.
- **Key vault** (`Vault`). Three file layouts with migration on the first write,
  as one map from slots to keys.
- **Quotes and parsers** (`ConstantProduct`, `BondingCurve`, `Arithmetic`,
  `TokenParsers`, `TokenFormats`, `SignatureDedup`, `Bytes`). Wrapping 64-bit quotes, the bonding curve, the
  Token-2022 and Metaplex walks, and the signature table of the select loop.

`dafny verify dfyconfig.toml` checks the whole project.

## Where the code and its promises part

- Mirror sells bypass `pending_sell`. One order per mint, a balanced ledger, exact
  subtraction in a completed sell and one completion per level each hold in every
  run exactly when mirror sells are off (`ExclusivityIffNoMirrorSells`,
  `ConservationIffNoMirrorSells`, `NoTruncationIffNoMirrorSells`,
  `LevelsOnceIffNoMirrorSells`).
- `is_final` is computed from a stale snapshot. It is right in every run exactly when
  neither mirror sells nor accumulating buys are on (`FinalityIffPlain`).
- `pending_sell` is not always cleared. With mirror sells off a flagged position has
  an order left to clear it exactly as long as none was loaded flagged and no step
  has orphaned one (`FlagsClearableIff`, `AbandonedIff`). Three kinds of step do: the
  executor's silent `continue`s (src/main.rs:1403, 1411, 1441, 1453, 1457, 1477, 1485,
  1522, 1534, 1538); a sell that fails, or leaves tokens, before the monitor sets the
  flag it has just sent the order for (`LateFlagAbandons`); and a fresh buy that lands
  in that gap after the old position was sold out (`FreshBuyAbandoned`). Such a
  position is not priced, revalidated or sold again in the run, and since the flag is saved
  with the position (src/models.rs:86-87) the loss can outlast it.
- `max_holded_coins` is read before the buy. It is a hard cap in every run exactly when
  it is zero or at most one buy at a time is past the check (`CapHeldIff`); in general the least
  bound is the cap plus the overlapping buys less one (`CapBoundIsExact`).
- The comments of `send_concurrent` say a failed half-open probe re-opens the
  circuit. It does not: the time stamp is only set when absent
  (`FailedProbeStaysHalfOpen`). A threshold of zero can never close again
  (`ZeroThresholdNeverCloses`).
- The comment on the signature table says it holds when a signature was first
  seen. Every sighting overwrites it: a signature is dispatched again exactly when a
  cleanup found its last sighting expired (`RedispatchIff`), and one first seen
  longer ago is still refused (`LongSeenStillRefused`).
- Settings never bound the slippage. Up to 10000 basis points the minimum output is at
  most the output; above, the product counts down from 2^64, and the minimum is above
  the output, or zero, under exact conditions on what is left of the last lap
  (`MinOutUnmeetableIff`, `MinOutZeroIff`). The two constant-product copies disagree
  on an empty input side (`CpmmAgreesIff`).
- The 90% safety margin of a buy has a floor of 1000 base units, which exceeds the
  quote itself below 1000 (`HaircutWithinQuoteIff`).

## Model

| member | source | states |
|---|---|---|
| Positions.FindLevel | src/position_monitor.rs:577-585 | the loop returns the first level that is not done, whose trigger is met and whose floored amount is not zero, or none when no level qualifies |
| Positions.FirstToFireIff | src/position_monitor.rs:577-585 | that level is the first whose price condition, multiplied out, holds and whose share is at least one token |
| Positions.LevelOrderIs | src/position_monitor.rs:582-605 | an order for a take-profit or stop-loss level carries its share of the original, floored, or all that is held when that is less, and is final exactly when it is all |
| Positions.PnlIff | src/position_monitor.rs:461 | a profit or loss of t percent is a price of 100 + t hundredths of the buy price |
| Positions.TrailingStopIff | src/position_monitor.rs:80-91 | the trailing stop fires exactly when enabled, armed above the buy price, and met at its basis points below the watermark |
| Positions.RugIff | src/position_monitor.rs:503-537 | a rug is detected exactly inside the window when the price fell far enough from the highest one known or the pool from a positive entry liquidity; a bound of zero asks for no fall at all |
| Positions.PeakIs | src/position_monitor.rs:464 | the watermark written is the higher of the price and the snapshot's |
| Positions.ValidateLevels | src/settings.rs:543-580 | the check accepts exactly one to four levels with triggers of the right sign, percentages in range and a sum of at most 100 |
| Positions.MirrorOrderIs | src/main.rs:1215-1233 | a mirror order sells all when the target sold all or a figure is missing, otherwise the target's proportion of the holding, floored, but at least one token |
| Positions.AccumulatedCost | src/position_monitor.rs:235-261 | on the books before and after, amount times price of the position grows by exactly the cost of what is added |
| Positions.CostBasisKept | src/position_monitor.rs:239-244 | combined tokens times the average price is the cost of both purchases |
| Positions.PositionMonitor.TryAcquireBuy | src/position_monitor.rs:287-318 | already holding, busy or acquired, decided against both collections at once; the reservation is taken only when acquired |
| Positions.PositionMonitor.ReleaseBuy | src/position_monitor.rs:324-327 | exactly the named reservation goes |
| Positions.PositionMonitor.AddPosition | src/position_monitor.rs:169-176 | the whole new book: the entry inserted, every other one as it was |
| Positions.PositionMonitor.AccumulatePosition | src/position_monitor.rs:235-261 | amount and original become the sum, amount times price grows by the cost of what is added, every other field and position stays; nothing happens without an entry |
| Positions.PositionMonitor.UpdateAfterSell | src/position_monitor.rs:196-228 | the whole new book: saturating subtraction, flag cleared, the level recorded once, an emptied entry removed |
| Positions.PositionMonitor.SetPendingSell | src/position_monitor.rs:188-193 | the flag of one entry set or cleared, nothing else |
| Positions.PositionMonitor.MarkMigrated | src/position_monitor.rs:778-787 | only an existing entry is marked, nothing else changes |
| LifecycleActors.SendAndFlag | src/position_monitor.rs:496-500 | the order is queued and its position flagged, or, on a closed channel, neither |
| LifecycleActors.CheckLevels | src/position_monitor.rs:576-663 | the two level loops order the first take-profit level to fire, else the first stop-loss level, never both; the body is a path of the machine |
| LifecycleActors.CheckRugAndLevels | src/position_monitor.rs:503-663 | a rug sells everything and ends the entry, otherwise the levels decide; the body is a path of the machine |
| LifecycleActors.CheckPriced | src/position_monitor.rs:461-663 | a priced entry raises the watermark, then orders by trailing stop, rug test or levels; the body is a path of the machine |
| LifecycleActors.CheckEntry | src/position_monitor.rs:411-663 | the order of one snapshot entry as a case table over flag, price, trailing stop, rug test and levels, and field by field what it leaves of the book, migration mark included; the body is a path of the machine |
| LifecycleActors.RevalidateEntry | src/position_monitor.rs:699-745 | a position is dropped only when unflagged in the snapshot and empty or without account on chain; the body is a path of the machine |
| LifecycleActors.ExecuteOrder | src/main.rs:1377-1594 | what one order leaves of the book when sold, failed, skipped or no longer held; the body is a path of the machine |
| LifecycleActors.RunBuy | src/main.rs:708-1204 | an undisturbed buy changes the book only when acquired and within the cap, leaves no reservation behind, and is a path of the machine |
| LifecycleActors.Land | src/main.rs:1182-1194 | a filled buy accumulates or inserts, as decided by the earlier `has_position`; the body is a path of the machine |
| LifecycleSafety.NextKeepsInv | src/position_monitor.rs:383-775 | with mirror sells off every step of every actor keeps the joint invariant of book, orders, snapshots, tasks and ledger |
| LifecycleSafety.FinishKeepsLedger | src/position_monitor.rs:196-228 | a completed, failed or dropped order keeps added = held + sold + written off |
| LifecycleSafety.SendKeepsInv | src/position_monitor.rs:476-500 | queueing an order for the mint in hand, before its flag is set, keeps the invariant |
| LifecycleSafety.NoStopLossAfterTakeProfit | src/position_monitor.rs:576-663 | after a take-profit order no stop-loss level can fire in the same entry under validated settings |
| LifecycleTheorems.OrderExclusivity | src/main.rs:1377-1596 | in every run with mirror sells off at most one order per mint is queued or executing, its position exists, and is flagged or the monitor is between send and flag |
| LifecycleTheorems.Conservation | src/position_monitor.rs:169-261 | in those runs tokens added equal held + sold + written off per mint, and no amount exceeds its original |
| LifecycleTheorems.SellNeverTruncates | src/position_monitor.rs:200 | in those runs the saturating subtraction of a completed sell is an exact one |
| LifecycleTheorems.BuyExclusion | src/main.rs:708-741 | in every run, whatever the settings, one buy task per mint holds a reservation and `add_position` never replaces an entry |
| LifecycleTheorems.ReservationsOwned | src/main.rs:730-739 | in every run the reserved mints are exactly those of the tasks that will release them |
| LifecycleTheorems.NoAccumulation | src/main.rs:741-751 | without accumulating buys no task ever finds its mint held |
| LifecycleTheorems.LifetimeMonotone | src/position_monitor.rs:201-217 | in every run, whatever the settings, between any two points of one position's life its completed levels are kept and its high-watermark has not fallen, although both are written from stale snapshots |
| LifecycleTheorems.NeverAboveOriginal | src/position_monitor.rs:196-261 | in every run, whatever the settings, no position holds more than its original amount |
| LifecycleFacts.NextEvolves | src/position_monitor.rs:169-261 | a step changes a live position only as its kind allows, field by field, and opens one only by a fresh buy, with exactly what was bought |
| LifecycleFacts.WatermarkObserved | src/position_monitor.rs:464-470 | in every run each high-watermark is one loaded with the position or a price observed for its mint |
| LifecycleFacts.WatermarkCoversPrices | src/position_monitor.rs:464-470 | from a priced entry on, while the position lives, its high-watermark is at least that price |
| LifecycleFacts.LifeBegins | src/main.rs:1182-1194 | every position of every run was loaded or opened by a fresh buy, and held ever since |
| LifecycleFacts.PurchaseKept | src/position_monitor.rs:169-261 | through its life a position keeps its buy time and the target's amount, and until a buy is added its price and original amount |
| LifecycleFacts.MigratedIff | src/position_monitor.rs:778-787 | a position is migrated exactly when it began so or an entry since was given a migration signal or a price of zero |
| LifecycleFacts.DoneIff | src/position_monitor.rs:199-212 | a level is marked done exactly when it began so or an order for it completed since |
| LifecycleFacts.EntryLiquidityRead | src/position_monitor.rs:519-531 | a position's entry liquidity is the one it began with or one read for its mint since |
| LifecycleTheorems.LevelOncePerLifetime | src/position_monitor.rs:201-217 | between two completions of one level index the position was closed |
| LifecycleTheorems.DroppedOrderAbandons | src/main.rs:1397-1404 | an order dropped by `continue`, before or after its flag was set, leaves its position with at least its tokens, flagged or about to be, and no order to clear it, for the rest of the run |
| LifecycleTheorems.OrphansIff | src/position_monitor.rs:496-499 | with mirror sells off a step abandons a position exactly when it drops its order, finishes its order short of closing it before the flag is set, or adds it between send and flag |
| LifecycleTheorems.AbandonedIff | src/main.rs:1377-1596 | in every run with mirror sells off a position is abandoned exactly when it was loaded flagged or some earlier step orphaned it |
| LifecycleTheorems.FlagsClearableIff | src/position_monitor.rs:186-193 | in those runs every position flagged, or about to be, has an order left to clear its flag exactly when none was loaded flagged and no step has orphaned one |
| LifecycleTheorems.CapOvershoot | src/main.rs:743-751 | with cap M and at most K buys between count check and add, at most M + K - 1 positions are open, or as many as were loaded |
| LifecycleLevels.AllLevelsBounds | src/position_monitor.rs:582 | the floored level amounts stay within the percentages' share and lose less than one token per level |
| LifecycleLevels.LevelsWithinOriginal | src/settings.rs:543-562 | validated take-profit levels never ask for more than the original amount |
| LifecycleLevels.Finality | src/position_monitor.rs:587-589 | without mirror sells or accumulation a completed order carries `is_final` exactly when it removed the position |
| LifecycleLevels.TpOrderUnclamped | src/position_monitor.rs:582-588 | in every run without mirror sells or accumulation, until a stop-loss completes, no take-profit order is clamped |
| LifecycleLevels.TpLevelsAddUp | src/position_monitor.rs:577-617 | a position has sold exactly its completed levels, queued orders carry full level amounts, and open levels fit in what is left |
| LifecycleLevels.TpDust | src/position_monitor.rs:577-617 | with percentages summing to 100 and every non-zero level completed, fewer tokens remain than there are levels |
| LifecycleLimits.ExclusivityIffNoMirrorSells | src/main.rs:1210-1260 | order exclusivity holds in every state of every run exactly when mirror sells are off |
| LifecycleLimits.MirrorSellsOverlap | src/main.rs:1243-1256 | a run in which two mirror orders for one mint are queued |
| LifecycleLimits.ConservationIffNoMirrorSells | src/main.rs:1210-1260 | the ledger balances in every state of every run exactly when mirror sells are off |
| LifecycleLimits.NoTruncationIffNoMirrorSells | src/position_monitor.rs:200 | the saturating subtraction is exact in every completed sell of every run exactly when mirror sells are off |
| LifecycleLimits.LevelsOnceIffNoMirrorSells | src/position_monitor.rs:199-212 | every run completes each level at most once per position lifetime exactly when mirror sells are off |
| LifecycleLimits.MirrorSellsRepeatLevel | src/position_monitor.rs:199-212 | a run in which a mirror sell clears the flag of a queued level order and the level completes twice in one lifetime |
| LifecycleLimits.FinalityIffPlain | src/position_monitor.rs:587-589 | finality is right at every completed sell of every run exactly when neither mirror sells nor accumulating buys are on |
| LifecycleLimits.MirrorSellsDefeatFinality | src/main.rs:1210-1260 | a run in which two mirror orders, neither marked final, close a position |
| LifecycleLimits.AccumulationDefeatsFinality | src/position_monitor.rs:467-501 | a run in which a final trailing-stop order leaves tokens behind |
| LifecycleLimits.LateFlagAbandons | src/position_monitor.rs:496-499 | a run without a dropped order in which a sell fails before the flag is set and the position is abandoned |
| LifecycleLimits.FreshBuyAbandoned | src/position_monitor.rs:496-499 | a run without a dropped or failed order in which a fresh buy between send and flag is abandoned |
| LifecycleLimits.CapIsOvershot | src/main.rs:743-751 | for every cap and every number n of buys, a run from cap - 1 loaded positions, never with more than n buys past the check, that opens cap + n - 1 |
| LifecycleLimits.CapBoundIsExact | src/main.rs:743-751 | a bound holds in every run under cap M with at most K buys past the check exactly when it is at least M + K - 1, for M and K of at least one |
| LifecycleLimits.CapHeldIff | src/main.rs:743-751 | the cap holds in every such run exactly when it is zero or at most one buy at a time is past the check |
| SignatureDedup.SelectLoop.Receive | src/main.rs:657-671 | whether a detection is dispatched, and the whole table after it, cleanup included |
| SignatureDedup.NoEarlyRedispatch | src/main.rs:643-671 | under a monotone clock a signature is dispatched again only when its last sighting is at least 120 s old |
| SignatureDedup.RedispatchIff | src/main.rs:643-671 | a signature seen before is dispatched again exactly when a cleanup since its last sighting found that sighting at least 120 s old |
| SignatureDedup.LongSeenStillRefused | src/main.rs:650-663 | a sequence in which a cleanup finds the first sighting expired and the signature is still refused |
| SignatureDedup.FirstSightingDispatches | src/main.rs:657-663 | a signature never seen before is always dispatched |
| SignatureDedup.SeenOrExpired | src/main.rs:657-671 | the table holds a signature at the time of its last sighting until a cleanup finds it expired |
| SignatureDedup.CleanupKeepsFresh | src/main.rs:666-670 | whatever a cleanup keeps was sighted less than 120 s before |
| SignatureDedup.CleansEvery101st | src/main.rs:666-671 | a sighting runs the cleanup exactly when it is dispatched as the next multiple of 101 |
| SignatureDedup.OnlyExpiredForgotten | src/main.rs:666-671 | a step forgets a signature exactly when it is a cleanup that finds it at least 120 s old |
| SignatureDedup.TableBounded | src/main.rs:664-671 | the table holds exactly what the last cleanup kept plus at most 100 newer signatures |
| CircuitBreaker.ProviderHealthTracker.State | src/swqos_sender.rs:93-111 | the state by failures, threshold and cooldown, for known and unknown providers |
| CircuitBreaker.ProviderHealthTracker.RecordSuccess | src/swqos_sender.rs:114-120 | resets the provider's circuit and no other |
| CircuitBreaker.ProviderHealthTracker.RecordFailure | src/swqos_sender.rs:123-134 | counts a failure and stamps the first one at the threshold, for that provider alone |
| CircuitBreaker.CircuitIsHistory | src/swqos_sender.rs:114-134 | the counter is the trailing failure run of the whole log, and the stamp the time of the failure that first reached the threshold |
| CircuitBreaker.StateIsHistory | src/swqos_sender.rs:93-134 | Closed iff the trailing run is below the threshold, else Open for the cooldown after the failure that first reached it, then HalfOpen until a success |
| CircuitBreaker.FailedProbeStaysHalfOpen | src/swqos_sender.rs:123-134 | a failed half-open probe leaves the circuit half-open |
| CircuitBreaker.ZeroThresholdNeverCloses | src/swqos_sender.rs:93-134 | with threshold zero a provider is Closed iff its whole log is successes |
| FanOut.SelectActive | src/swqos_sender.rs:405-443 | the active providers are exactly those whose circuit is not open and that are not the leader to avoid; every other one is in exactly one skip list, for its reason |
| FanOut.PermitsBounded | src/swqos_sender.rs:484-546 | over every interleaving of every call, the tasks holding a permit plus the permits left are the semaphore's size, aborts included |
| FanOut.OkIsFirstSuccess | src/swqos_sender.rs:551-596 | a returned signature is the first success received, after failures only, from a provider neither open nor leader |
| FanOut.AllFailedIsComplete | src/swqos_sender.rs:551-608 | the all-failed error means every task finished with exactly one report, a failure, and none was aborted |
| AltCache.PushTable | src/shreds_listener.rs:182-195 | one table's keys are pushed in order, or the push stops exactly when an index is out of range |
| AltCache.BuildFullKeys | src/shreds_listener.rs:174-209 | static keys, then the writable addresses of every lookup, then the readonly ones, written out table by table; none when an index is missing, and then a bad lookup is named |
| AltCache.FullKeysAre | src/shreds_listener.rs:174-209 | the recursive definition the loops compute is that list |
| AltCache.ResolvedAre | src/shreds_listener.rs:141-210 | a v0 message resolves exactly when every table is cached and has every index, to that list from the cached tables |
| AltCache.EvictedIsOldest | src/shreds_listener.rs:97 | what a store evicts was used before everything it keeps |
| AltCache.FullKeysGrow | src/shreds_listener.rs:28-30 | a list built from prefixes of tables is the list built from the grown tables |
| AltCache.PutKeeps | src/shreds_listener.rs:97 | storing keeps keys distinct and loses at most the least recently used entry, and only of a full cache |
| AltCache.Cache.Get | src/shreds_listener.rs:60-63 | returns the cached table and makes it the most recent one |
| AltCache.Cache.Store | src/shreds_listener.rs:97 | the whole cache after a store, eviction included |
| AltCache.Cache.Invalidate | src/shreds_listener.rs:189 | drops one entry and nothing else |
| AltCache.Cache.BeginFetch | src/shreds_listener.rs:73-83 | a fetch starts iff none is running for the key and it is not cached |
| AltCache.Cache.EndFetch | src/shreds_listener.rs:106 | ends exactly that fetch |
| AltCache.Cache.ResolveKeys | src/shreds_listener.rs:141-210 | the resolved list as a function of message and cache; cache contents change only for keys it asks to fetch again |
| AltResolution.CacheIsSound | src/shreds_listener.rs:60-118 | in every interleaving each cached table is a prefix of the on-chain one, the cache holds at most 128 tables, at most one fetch per table runs, and a key is in flight exactly while one does |
| AltResolution.CacheIsRecent | src/shreds_listener.rs:60-106 | in every interleaving the cache stands in the order of last uses, hits and stores alike |
| AltResolution.FullKeysAreOnChain | src/shreds_listener.rs:141-210 | in every interleaving a resolved list is static keys, all writable and all readonly addresses, as the chain has them |
| Detection.ParsePumpFromVtx | src/shreds_listener.rs:401-530 | reports the first buy or sell instruction, or nothing when there is none or its mint does not resolve |
| Detection.BuildAccountKeys | src/geyser_listener.rs:562-575 | static, then loaded writable, then loaded readonly keys |
| Detection.CheckInstruction | src/geyser_listener.rs:628-671 | the buy and sell an instruction reports |
| Detection.ParsePumpFromProto | src/geyser_listener.rs:595-790 | the first buy and the first sell over top-level then inner instructions |
| Detection.FirstOfIsFirst | src/geyser_listener.rs:674-780 | the flag-guarded scan finds the report of the first reporting instruction, or none when there is none |
| Detection.FastRefinesFull | src/shreds_listener.rs:413-530 | what the fast parser reports, the full one reports as its first trade of that side, same mint and amount |
| Detection.KeysAreTimeless | src/shreds_listener.rs:28-30 | two readings of the chain that both resolve a message give the same key list |
| Detection.FastDetectionRefinesFull | src/shreds_listener.rs:141-530 | in every run of the cache, a report of the fast parser is the full parser's report over the static, loaded writable and loaded readonly keys of the execution, whenever it executed |
| Detection.EncodedTradeIsReported | src/geyser_listener.rs:628-671 | both parsers read an encoded buy or sell alike: its side, the key its mint index names, its token amount |
| Detection.ReportedIsEncoded | src/geyser_listener.rs:628-671 | the full parser reports exactly the program's instructions with a known discriminator and an in-range mint, and nothing of the amount when it is cut off |
| Vault.SavedFileLoads | src/api_key_vault.rs:537-551 | what is saved is what the next load parses |
| Vault.RustFileReads | src/api_key_vault.rs:440-470 | a v1 file of the Rust bot reads, for a slot in both of its maps, what decrypts under that slot's salt |
| Vault.TsFileReads | src/api_key_vault.rs:440-470 | a v1 file of the TypeScript bot reads what decrypts under the file's salt |
| Vault.V2FileReads | src/api_key_vault.rs:440-470 | a v2 file with the supported key derivation reads what decrypts under its salt |
| Vault.UnsupportedReadsNothing | src/api_key_vault.rs:440-496 | no file, no JSON, and every text in none of the layouts read nothing |
| Vault.MigrationKeepsReads | src/api_key_vault.rs:500-535 | migration changes what no slot reads, from any layout |
| Vault.TrimStrips | src/api_key_vault.rs:691-694 | trimming is the slice between two runs of spaces that neither starts nor ends with one |
| Vault.ApiKeyVault.LoadOrMigrate | src/api_key_vault.rs:500-535 | the re-encryption loop visits every legacy slot and keeps exactly the readable ones |
| Vault.ApiKeyVault.SetApiKey | src/api_key_vault.rs:684-698 | Ok exactly when slot, encryption and write allow it, and the file after it; nothing is written otherwise |
| Vault.ApiKeyVault.GetApiKey | src/api_key_vault.rs:702-714 | the vault's value wins, then the trimmed environment value of a known slot |
| Vault.WriteIsMapUpdate | src/api_key_vault.rs:684-698 | a successful write is one map update on what slots read, whatever the layout before; a failed one changes nothing |
| Vault.WriteSucceedsIff | src/api_key_vault.rs:684-698 | a write that reaches the disk fails only for an unknown slot or for a key under a malformed salt |
| Vault.UntouchedSlotKept | src/api_key_vault.rs:684-698 | over any sequence of calls a slot without a successful write reads what it first read |
| Vault.RustSlotKept | src/api_key_vault.rs:500-535 | from a v1 Rust file such a slot keeps the key it decrypted to under its own salt, through migration and every later write |
| Vault.TsSlotKept | src/api_key_vault.rs:500-535 | from a v1 TypeScript file likewise, under the file's salt |
| Vault.LastWriteWins | src/api_key_vault.rs:684-698 | over any sequence of calls a slot reads the trimmed value of its last successful write, or nothing if that was blank |
| ConstantProduct.FeeExactIff | src/raydium_v4.rs:188 | the 0.25% fee is exact iff `amount_in * 25` fits in 64 bits |
| ConstantProduct.MinOutExactIff | src/raydium_v4.rs:205 | the minimum output is exact iff its product fits in 64 bits |
| ConstantProduct.QuoteExactIff | src/raydium_v4.rs:180-208 | when the fee product fits in 64 bits the output is the unbounded one, and the whole quote is exactly when the minimum's product fits too |
| ConstantProduct.MinOutUnmeetableIff | src/raydium_v4.rs:205 | for all inputs, the minimum exceeds the output exactly when the slippage is above 100% and its excess is non-zero and stops short of 2^64 by at least 10000 times one more than the output |
| ConstantProduct.OneLapUnmeetableIff | src/raydium_v4.rs:205 | while the product wraps once, that is exactly when output times slippage fits in 64 bits with a margin of 10000 |
| ConstantProduct.MinOutZeroIff | src/raydium_v4.rs:205 | above 100% the minimum is zero exactly when the excess is zero or in the last 10000 of its lap |
| ConstantProduct.MinOutWithin | src/raydium_v4.rs:205 | up to 100% the minimum never exceeds the output |
| ConstantProduct.QuotesAreLargest | src/raydium_v4.rs:180-208 | on an input side above zero both copies quote the largest output that keeps the product of the reserves once the amount after fee is paid in |
| ConstantProduct.FeeLeavesRest | src/raydium_v4.rs:188-189 | the amount after fee lacks exactly the fee, which while exact is 25 of 10000, floored |
| ConstantProduct.QuoteIsShare | src/raydium_v4.rs:180-208 | on a live pool the truncating casts are exact and the output is below the reserve |
| ConstantProduct.CpmmAgreesIff | src/raydium_cpmm.rs:137-161 | the two copies agree unless the input side is empty, where CPMM quotes the whole other side |
| ConstantProduct.ProductNeverFalls | src/raydium_v4.rs:180-208 | no sequence of quotes, in any direction or order, lowers the product or empties a side |
| ConstantProduct.NoRoundTripProfit | src/raydium_v4.rs:180-208 | when one side is back where it started or lower, the other has not shrunk |
| BondingCurve.QuoteIsOptimal | src/buyer.rs:130-137 | the quote is the largest number of tokens that leaves the product above where it was |
| BondingCurve.TokensAreOptimal | src/buyer.rs:130-138 | what is bought is the largest such number the curve has left |
| BondingCurve.NoPaymentNoTokens | src/buyer.rs:130-137 | paying nothing buys nothing |
| BondingCurve.SplittingNeverPays | src/buyer.rs:130-138 | splitting a buy into any list of consecutive buys never yields more tokens, capped or not |
| BondingCurve.SafeAmountIsNineTenths | src/buyer.rs:139 | the order is nine tenths of the exact amount, floored, unless that is below 1000 |
| BondingCurve.HaircutWithinQuoteIff | src/buyer.rs:139 | the order stays within the quote iff the quote is at least 1000 units |
| TokenParsers.ParseTransferFeeBps | src/rug_guard.rs:47-83 | the loop computes the walk's recursive definition on all bytes, and so ends and stays in bounds |
| TokenParsers.TransferFeeOfEncoding | src/rug_guard.rs:47-83 | on the encoding of any extension list the walk returns the newer fee of the first transfer-fee extension if that is long enough, else none |
| TokenFormats.TransferFeeIff | src/rug_guard.rs:47-83 | on all bytes a fee is returned exactly when an account with an extension list of that newer fee is serialised there |
| TokenParsers.ReadU32 | src/rug_guard.rs:118-123 | four little-endian bytes and the offset behind them, or none and the old offset |
| TokenParsers.ParseIsMutable | src/rug_guard.rs:85-116 | the loop and the creator match compute the walk's definition on all bytes |
| TokenParsers.MutableFlagOfEncoding | src/rug_guard.rs:85-116 | for every name, symbol, uri, optional creator list and suffix the walk returns the serialised flag |
| TokenFormats.MutableFlagIff | src/rug_guard.rs:85-116 | on all bytes a flag is returned exactly when it is that of metadata serialised at their start |
| Bytes.DecodesEncoded | src/rug_guard.rs:118-123 | little-endian decoding inverts encoding at every width |

## Left out

- Floating point: prices, percentages and thresholds are exact reals, so nothing here is a bit-level result; the tolerance on the sum of sell percentages in `Settings::validate` is exact too, and the 90% haircut of a buy is exact division.
- 64-bit overflow of token amounts in `accumulate_position`: amounts are naturals, so the sum never wraps.
- Startup validation: it removes positions without looking at `pending_sell`, and is folded into the initial state, where nothing is queued or reserved and every stored amount is within its original.
- The sell channel's capacity: a full channel only delays a send, which the machine allows at any step; the position file, logging and routing fields of an order are not modelled either.
- LifecycleTheorems.FlagsClearableIff: does not cover mirror sells, whose orders clear flags they did not set.
- LifecycleLevels.TpLevelsAddUp: assumes the take-profit levels are not reloaded during the run, because a reload changes what a completed level index stands for; all other settings may change. The same holds of TpDust.
- LifecycleActors.RunBuy: refusals and failures inside a buy, such as blacklist, gates, replay sizing and sending, are one choice of the environment.
- LifecycleActors.ExecuteOrder: routing by exchange, transaction building and sending are one choice of sold, failed or skipped.
- Mirror sells: the read of the book and the send are one step, and the ratio is computed from the current holding as in the code; nothing is claimed about tracking the target's cumulative ratio.
- AltCache.Cache.ResolveKeys: states a resolution with no other task between its steps; the interleaved case is the machine of `AltResolution`.
- Address lookup tables only grow on the modelled chain; closing and re-creating a table at one address is not modelled.
- Detection: SOL amounts, account lists, the log fallback and the other exchanges; instructions are given already decoded, and keys are compared as text.
- Fan-out: the direct RPC fallback when no provider is active, panicking provider tasks, and the steps of a provider's own protocol; health updates are the separate model `CircuitBreaker`.
- Vault: the secret is fixed; AES-GCM, scrypt, SHA-256 and JSON are uninterpreted, with decryption inverting encryption; the order in which a hash map is walked is arbitrary; status listing, masking and file permissions are not modelled.
- Vault.SavedFileLoads: the JSON text is taken to decode to what was serialised; what is proved is that the layout dispatch then accepts it.
- ConstantProduct: 64-bit products wrap as in a release build, where a debug build would stop.
- ConstantProduct.ProductNeverFalls: excludes swaps whose input side would exceed 64 bits, which a pool cannot hold.
- Token safety evaluation, account and PDA derivation, HTTP, WebSocket, gRPC and QUIC transport, the configuration watcher and the key panel.
