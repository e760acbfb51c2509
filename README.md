# Game economy of the BRIGHT-GAME backend, in Dafny

This project models the rules by which the game backend moves coins and energy.

- **Balance reconciliation** (`setEnergyAndCoins`). The wallet's token balance and SOL balance are compared with the user's last coin and energy snapshots. Coins are granted, energy is topped up, and the energy ceiling follows the SOL tier.
- **Loot cases.** This covers the `CASE_CHANCES` table and the first-match draw, the per-type effects (`caseFunctions`), the paid `openCase`, and the daily `openDailyCase` with its 24-hour cooldown.
- **Task rewards.** This covers explicit and condition-triggered completion, the reward, and the games-played ladder. Every completion ends in a reconciliation.
- **The small user operations:** registration, starting a game, buying and equipping items, and recording a finished game.

The repositories are one `Store.Database` object with a sequence per table. `Database.State()` gives the same tables as a `Tables` value. Each service operation is a method that changes the database in place. Its postcondition ties the new state and the answer to a function of the old state: `OpenCaseSpec`, `ReconcileSpec`, `CompleteTaskSpec` and so on. The properties are proved as lemmas about those functions.

A loaded entity that is later saved is a local value, written back with `Save`. `Save` overwrites the whole row with the same id. This makes visible which of two saves of the same user wins.

What the outside world answers in one request comes in as parameters, bundled in `Env`:
- the wallet's token and SOL balances;
- the clock (`now`);
- the start of the local day.

The random draw of a case is the parameter `r`.

Modules, in dependency order:
- `Store` (store.dfy): entities, tables, lookups.
- `Views` (views.dfy): games count, next case time, `caseAvailable`.
- `Reconciliation` (reconciliation.dfy).
- `Cases` (cases.dfy).
- `Tasks` (tasks.dfy).
- `Users` (users.dfy).

Three places where the code does not do what it evidently means are listed under "## Findings". The case functions and methods take an `Edition`:
- `AsWritten` follows the code;
- `Intended` applies the correction.

Each finding has a lemma exhibiting the as-written behaviour and a lemma proving the intended property of the correction.

Three facts about the code that a reader might expect otherwise:
- The shrink correction carries over the energy above the new tier: `min(newTier + max(0, current - newTier), 500)`, which is the code's `min(max(energyCurrent, newTier), 500)` (src/modules/users/user.service.ts:533-538). When the tier drops from 240 to 80, energy 240 therefore stays 240 and 300 stays 300; neither falls to 80 or 140 (`Reconciliation.ShrinkKeepsEnergyAboveNewCeiling`).
- `energyCurrent <= min(energyMax, 500)` is not an invariant of the code. It breaks in two places:
  - energy prizes of cases are uncapped (`Cases.EnergyPrizeUncapped`);
  - the shrink correction keeps energy above the new ceiling.
  The model states neither as an invariant.
- The game-score snapshot holds the stored `user.score`, which `updateScore` never changes, not the score of the game just played.

## Model

| member | source | states |
|---|---|---|
| Store.Latest | src/modules/users/user.service.ts:544-586 | The latest snapshot of a user is a row of the ledger with that user's id, and there is none exactly when the ledger holds no row of the user |
| Store.LatestAfterAppend | src/modules/users/user.service.ts:544-586 | After a snapshot is appended for a user, it is that user's latest; other users' latest rows do not change |
| Views.GamesCount | src/modules/users/user.service.ts:588-598 | The games count is at most the number of game-history rows, and is 0 exactly when the user has no row |
| Views.GamesCountAfterPlay | src/modules/users/user.service.ts:588-598 | Each game-history row of the user adds exactly one to the games count; rows of other users add nothing |
| Views.NextCaseTS | src/modules/users/user.service.ts:600-616 | Undefined exactly when the user has no daily case row; otherwise the createdAt of the user's last daily row plus 86 400 000 ms |
| Views.NextCaseTSAfterAppend | src/modules/users/user.service.ts:600-616 | A daily row appended for the user restarts the cooldown from its own time; any other row leaves the next time as it was |
| Views.CaseAvailable | src/modules/users/user.service.ts:637 | A case is available without a next case time, and otherwise exactly when that time is not after now |
| Views.CaseAvailableStays | src/modules/users/user.service.ts:637 | Once a case is available it stays available as the clock moves on |
| Views.HasOpenedDailyCase | src/modules/users/user.service.ts:621-633 | True only if some daily case of the user was opened on or after the start of the day, and then a next case time exists |
| Views.HasOpenedDailyCaseIff | src/modules/users/user.service.ts:621-633 | On a time-ordered case history, true exactly when some daily case of the user was opened on or after the start of the day (both directions) |
| Views.Enrich | src/modules/users/user.service.ts:618-646 | The view holds the stored user unchanged. Its games count is 0 exactly when the user has no game row. Its next case time is undefined exactly when the user has no daily case. `caseAvailable` holds exactly when there is no next time or it is not after now. A user who opened a daily case today has a next time |
| Views.CaseAvailableIffCooldownsOver | src/modules/users/user.service.ts:637 | On a time-ordered case history, `caseAvailable` holds iff every daily case of the user is at least one cooldown old (both directions) |
| Store.Save | src/modules/users/user.service.ts:676-677 | `save` writes the whole record: it overwrites the first row with the record's id, or appends the record when no row has that id |
| Store.SaveWrites | src/modules/users/user.service.ts:676-677 | After a save the record is in the table, at most one row was added, and no row with another id changed |
| Reconciliation.EnergyForSolBalance | src/modules/users/user.service.ts:456-466 | The tier is always 80, 160 or 240 |
| Reconciliation.EnergyForSolBalanceMonotone | src/modules/users/user.service.ts:456-466 | A larger SOL balance never gives a lower tier |
| Reconciliation.EnergyForSolBalanceBelowTenth | src/modules/users/user.service.ts:456-466 | Every balance below 0.1 gives 80 |
| Reconciliation.CoinStep | src/modules/users/user.service.ts:478-497 | Covers four facts: (1) coins never decrease; (2) without a snapshot, coins are unchanged and nothing is written; (3) on a rise, exactly floor(diff)*100 coins are granted and a snapshot is written; (4) otherwise coins are unchanged and a snapshot is written iff the value differs and the snapshot is over 30 days old (strict) |
| Reconciliation.EnergyStep | src/modules/users/user.service.ts:499-531 | Covers three cases: (1) without a snapshot, energy is min(tier, 500) and a snapshot is written; (2) on a rise, the tier increase is added only if positive, capped at 500, and a snapshot is always written; (3) otherwise energy is unchanged and the 30-day re-baseline rule applies |
| Reconciliation.ShrinkCorrection | src/modules/users/user.service.ts:533-538 | When the stored ceiling exceeds the new tier, energy becomes min(max(energy, tier), 500); otherwise it is unchanged |
| Reconciliation.ReconcileUser | src/modules/users/user.service.ts:478-539 | Only coins, energy and the ceiling change. The ceiling equals the tier, and coins never decrease. With no coin snapshot, coins do not move and no snapshot is written. With no energy snapshot, energy equals the ceiling. Energy never ends above max(old, 500), and never below the old value when there was a snapshot and the old value was at most 500 |
| Reconciliation.ReconcileSpec | src/modules/users/user.service.ts:468-542 | NotFound with no writes exactly when no user has the wallet; only the user and the two ledgers are written |
| Reconciliation.ReconcileKeepsUsers | src/modules/users/user.service.ts:468-542 | Reconciliation rewrites only the row found by wallet, keeps ids and wallets in place, and returns that row |
| Reconciliation.ReconcileUserIdempotent | src/modules/users/user.service.ts:478-539 | A user reconciled again with the snapshots the first call left, at the same balances, is unchanged and gets no new snapshot |
| Reconciliation.LatestAfterReconcile | src/modules/users/user.service.ts:478-531 | After a reconciliation the latest coin and energy snapshots of the user are the ones it wrote, or the previous ones when it wrote none |
| Reconciliation.ReconcileNoop | src/modules/users/user.service.ts:468-542 | A reconciliation that changes nothing in the user writes nothing and returns the stored row |
| Reconciliation.ReconcileIdempotent | src/modules/users/user.service.ts:468-542 | Reconciling twice with the same balances at the same moment is the same as reconciling once |
| Reconciliation.NoCoinFarmingWithinMonth | src/modules/users/user.service.ts:478-497 | Within 30 days a rise from b0 to b1, a fall back, then a rise to any b2 <= b1 together grant only the first rise, and only the first writes a snapshot |
| Reconciliation.ShrinkKeepsEnergyAboveNewCeiling | src/modules/users/user.service.ts:533-538 | Tier 240 → 80 keeps 300 energy at 300 and 240 at 240, and lifts 50 to 80 |
| Reconciliation.ReconcileGrantsMonotone | src/modules/users/user.service.ts:478-539 | The reconciled row never has fewer coins, and its ceiling is the SOL tier |
| Reconciliation.ReconcileCoins | src/modules/users/user.service.ts:478-497 | The in-place coin half: the user and the coin ledger become what `CoinStep` says |
| Reconciliation.ReconcileEnergy | src/modules/users/user.service.ts:499-531 | The in-place energy half: the user and the energy ledger become what `EnergyStep` says |
| Reconciliation.SetEnergyAndCoins | src/modules/users/user.service.ts:468-542 | The new database state and the answer are those of `ReconcileSpec` |
| Cases.Chance | src/modules/users/user.service.ts:30-39 | Every sampled type has a non-empty range inside [0, 1]; the repeat type's range lies below 0; as written no range reaches into a gap |
| Cases.DrawFrom | src/modules/users/user.service.ts:663-669 | The first-match scan returns a type whose range holds r, and returns nothing iff no remaining type's range holds r |
| Cases.DrawIsTheEligibleType | src/modules/users/user.service.ts:30-39 | As written, the draw is c iff c's closed range holds r: the ranges are disjoint, so the iteration order does not matter |
| Cases.RepeatNeverDrawn | src/modules/users/user.service.ts:38 | gold_mask_repeat ([-1, -1]) is never drawn for r in [0, 1) |
| Cases.DrawGaps | src/modules/users/user.service.ts:30-39 | As written, a draw in [0, 1) finds nothing iff r lies in one of the six gaps between the ranges |
| Cases.IntendedDrawTotal | src/modules/users/user.service.ts:30-39 | With gap-free ranges every r in [0, 1) draws a case, and never the repeat type |
| Cases.SelectCase | src/modules/users/user.service.ts:663-669 | The loop with `break` (and the daily `continue` on the repeat type) returns exactly `Draw` |
| Cases.CaseEffect | src/modules/users/user.service.ts:48-201 | A case function touches only users, inventory and case history; the repeat type's function and a missing user change nothing |
| Cases.CaseEffectAt | src/modules/users/user.service.ts:48-201 | The user's row gets the prize. The history gets one row: the drawn type, or gold_mask_repeat for an owned mask, with `isDaily` as recorded. The inventory gains the mask on a first gold mask |
| Cases.CaseEffectUsers | src/modules/users/user.service.ts:48-201 | After any case function the user row holds energy + the energy prize and coins + the coin prize (+400 for an owned mask); nothing else moves |
| Cases.EnergyPrizeUncapped | src/modules/users/user.service.ts:90-109 | Energy prizes are not capped: 480 + 50 gives 530 |
| Cases.OpenCaseSpec | src/modules/users/user.service.ts:649-680 | NotFound iff the user is missing; BadRequest iff coins are below 200; neither writes anything; a success returns the drawn type |
| Cases.OpenCaseGapFails | src/modules/users/user.service.ts:660-673 | As written, any draw in one of the six gaps with enough coins raises InternalServerError and writes nothing |
| Cases.OpenDailyCaseGapFails | src/modules/users/user.service.ts:695-711 | As written, any daily draw in one of the six gaps once the cooldown is over raises InternalServerError and writes nothing: skipping the repeat type does not close the gaps |
| Cases.PaidCase | src/modules/users/user.service.ts:675-677 | A paid case touches only users, inventory and case history, and a missing user gets no history or inventory row; `PaidCasePrizeLost` and `PaidCaseIntendedPaysPrize` state the user row for each edition |
| Cases.PaidCasePrizeLost | src/modules/users/user.service.ts:675-677 | As written the user's row ends at the loaded copy minus 200, though the case history records the prize |
| Cases.OpenCasePrizeLost | src/modules/users/user.service.ts:649-680 | The same over every successful openCase with r in [0, 1) |
| Cases.OpenCaseCoins500AsWritten | src/modules/users/user.service.ts:675-677 | A coins_500 case opened with 300 coins leaves 100 coins |
| Cases.PaidCaseIntendedPaysPrize | src/modules/users/user.service.ts:675-677 | With the debit applied to the row the effect saved, the user ends with the prize added and 200 coins taken |
| Cases.OpenCaseIntendedPaysPrize | src/modules/users/user.service.ts:649-680 | The same for the whole corrected openCase |
| Cases.OpenDailyCaseSpec | src/modules/users/user.service.ts:682-718 | NotFound iff the user is missing. While the cooldown runs, the stored next time is returned and nothing is drawn or written. Otherwise the draw skips the repeat type and the answer is now + 86 400 000 |
| Cases.DailyCooldownHolds | src/modules/users/user.service.ts:682-718 | After a daily case that records itself as daily, a second call within one cooldown returns the first call's next time and writes nothing |
| Cases.DailyOpeningRecorded | src/modules/users/user.service.ts:713-717 | A daily opening recorded as daily puts the stored next time at the time the call answered |
| Cases.EffectRecordsDaily | src/modules/users/user.service.ts:600-616 | A case function run as daily (and recording it) makes the next case time now + one cooldown |
| Cases.DailyBlocked | src/modules/users/user.service.ts:689-693 | While the next case time is in the future, openDailyCase returns it and writes nothing |
| Cases.DailyCoins250LeavesCooldownOpen | src/modules/users/user.service.ts:144-147 | As written a daily coins_250 answers now + one cooldown but leaves the stored cooldown where it was |
| Cases.DailyCoins250Twice | src/modules/users/user.service.ts:130-148 | As written a user with no daily case who draws coins_250 can open a second daily case at once |
| Cases.PrizeCase | src/modules/users/user.service.ts:50-168 | The in-place energy and coin entries of caseFunctions produce exactly `CaseEffect` |
| Cases.GoldMaskCase | src/modules/users/user.service.ts:169-200 | The in-place gold-mask entry produces exactly `CaseEffect` |
| Cases.CaseFunction | src/modules/users/user.service.ts:48-201 | Dispatch on the type, in place, produces exactly `CaseEffect` |
| Cases.Debit | src/modules/users/user.service.ts:676-677 | The debit after the effect produces exactly `PaidCase`: as written on the early copy, intended on the reloaded row |
| Cases.OpenCase | src/modules/users/user.service.ts:649-680 | The new database state and the answer are those of `OpenCaseSpec` |
| Cases.OpenDailyCase | src/modules/users/user.service.ts:682-718 | The new database state and the answer are those of `OpenDailyCaseSpec` |
| Tasks.UserTasksOf | src/modules/task/task.service.ts:28 | Holds exactly the completion rows of the user |
| Tasks.AnyForTask | src/modules/task/task.service.ts:32 | True iff some row has the task's id |
| Tasks.FindAll | src/modules/task/task.service.ts:26-34 | Every task once, in order, flagged completed iff the user id is truthy and a completion row of that user has the task's id |
| Tasks.Reward | src/modules/task/task.service.ts:105-115 | Covers three cases: (1) a value of 0 or less changes nothing; (2) an energy reward gives min(energy + value, ceiling, 500) and changes nothing else; (3) a coin reward adds the value unclamped |
| Tasks.EnergyRewardCanLower | src/modules/task/task.service.ts:107 | 300 energy over a ceiling of 80 becomes 80 after a reward of 10 |
| Tasks.ExecuteTaskSpec | src/modules/task/task.service.ts:96-118 | executeTask appends exactly the completion row for (user, task), leaves tasks, items, inventory, case and game history alone, and answers a user whose ceiling is the SOL tier: the reconciliation's view, not the raw reward |
| Tasks.ExecuteTaskKeepsLevels | src/modules/task/task.service.ts:96-118 | executeTask changes no row's level or level index |
| Tasks.ExecuteTaskFacts | src/modules/task/task.service.ts:96-118 | executeTask on a stored user appends exactly one completion row for (user, task), keeps the user rows in place and the key unique, and, with the wallet balances supplied, always answers |
| Tasks.FirstReconcileOverridesEnergyReward | src/modules/task/task.service.ts:117 | The answer is the reconciliation's: with no energy snapshot, the returned energy is the SOL tier whatever the reward did |
| Tasks.CompleteTaskSpec | src/modules/task/task.service.ts:53-75 | There are three errors, none of which writes anything: (1) NotFound for a missing task (checked first); (2) NotFound for a falsy or missing user; (3) Conflict iff the user already completed the task. Success appends the completion row |
| Tasks.CompleteByConditionSpec | src/modules/task/task.service.ts:77-94 | null without writes iff no task has the condition or the user completed it; NotFound iff the task exists and the user is missing; success appends the completion row |
| Tasks.CompletionsStayUnique | src/modules/task/task.service.ts:53-94 | Neither completion path writes a second row for the same (user, task) |
| Tasks.SecondCompletionConflicts | src/modules/task/task.service.ts:68-72 | A second completeTask of the same task by the same user is a Conflict |
| Tasks.SecondConditionCompletionIsNoop | src/modules/task/task.service.ts:88-91 | A second completeTaskByCondition returns null and writes nothing |
| Tasks.Due | src/modules/task/task.service.ts:120-135 | A condition is attempted iff its threshold is at most the games count |
| Tasks.DueAfterTwelveGames | src/modules/task/task.service.ts:121-131 | With 12 games exactly firstgame and tengames are attempted, in that order |
| Tasks.RunLadder | src/modules/task/task.service.ts:130-134 | The run keeps tasks, user rows and the key, and fails iff some attempted condition has a task and the user is missing |
| Tasks.ConditionStep | src/modules/task/task.service.ts:77-94 | One completion for an existing user succeeds, settles its condition and unsettles none |
| Tasks.RunLadderSettles | src/modules/task/task.service.ts:120-135 | After the run every attempted condition is settled (no task, or completed) |
| Tasks.RunLadderKeepsLevels | src/modules/task/task.service.ts:120-135 | A run of the ladder changes no row's level or level index |
| Tasks.RunLadderSettledIsNoop | src/modules/task/task.service.ts:130-134 | A run over settled conditions writes nothing |
| Tasks.LadderTwiceIsNoop | src/modules/task/task.service.ts:120-135 | A second ladder with the same count writes nothing, so no completion is added |
| Tasks.ExecuteTask | src/modules/task/task.service.ts:96-118 | The in-place executeTask: completion row, reward, then `SetEnergyAndCoins`, whose answer is returned |
| Tasks.CompleteTask | src/modules/task/task.service.ts:53-75 | The new database state and the answer are those of `CompleteTaskSpec` |
| Tasks.CompleteTaskByCondition | src/modules/task/task.service.ts:77-94 | The new database state and the answer are those of `CompleteByConditionSpec` |
| Tasks.CheckAndCompleteGamesTasks | src/modules/task/task.service.ts:120-135 | The loop over the ladder leaves the database as `RunLadder` over the due conditions, in ladder order |
| Users.NextId | src/modules/users/user.service.ts:236 | The id the table hands out is positive and above every id in use |
| Users.CreateUserSpec | src/modules/users/user.service.ts:227-240 | Conflict without writes iff the wallet or the name is taken. Success inserts a user with a fresh id and the given wallet and name, plus one inventory row with item 1 |
| Users.CreateUserKeepsKeys | src/modules/users/user.service.ts:227-240 | Registration keeps ids and wallets unique; the new user owns the default skin and is found by its wallet |
| Users.StartGameSpec | src/modules/users/user.service.ts:303-320 | NotFound iff the wallet is unknown. Success iff energy is at least 1, and then exactly one energy is spent and saved. Otherwise the user is returned unchanged and nothing is written |
| Users.StartGameSpendsOne | src/modules/users/user.service.ts:309-319 | The user's row ends one energy lower on success and unchanged otherwise, and never goes negative |
| Users.EquipSkinSpec | src/modules/users/user.service.ts:322-346 | NotFound iff the wallet is unknown; BadRequest iff the user has no inventory item with that name; neither writes. Success returns the wallet's user with only `equippedSkin` changed, to an owned item of that name, and saves only that row |
| Users.UpdateCoins | src/modules/users/user.service.ts:388 | The row with the id gets exactly the new coins and nothing else; no row with another id changes and the length stays; without such a row nothing changes |
| Users.BuyItemSpec | src/modules/users/user.service.ts:348-396 | NotFound iff the user is missing, or the user exists and the item is missing; errors write nothing |
| Users.Purchased | src/modules/users/user.service.ts:374-395 | A purchase that passed the checks adds one inventory row, sets the buyer's coins to the debited value and answers |
| Users.BuyItemOutcome | src/modules/users/user.service.ts:348-396 | There are three outcomes: (1) BadRequest iff coins are below the price; (2) Conflict iff coins suffice and the item is owned; (3) success otherwise. Success adds exactly one inventory row, debits exactly the price from the buyer's row only, returns the debited user, and the item is then owned |
| Users.UpdateScoreSpec | src/modules/users/user.service.ts:280-301 | NotFound without writes iff the wallet is unknown; otherwise the answer is the user with the new coins and level |
| Users.ScoredKeepsUsers | src/modules/users/user.service.ts:284-295 | The score update rewrites only the user's row (coins, level, level index) and keeps the key unique |
| Users.UpdateScoreCountsTheGame | src/modules/users/user.service.ts:280-301 | A recorded game appends exactly one game-history row: the user's id, the stored score, the new level, level index and coins, and now. The games count rises by exactly one, the stored user ends with the new level and level index after the ladder, and every ladder condition the new count reaches is settled |
| Users.RunLadderKeepsGames | src/modules/task/task.service.ts:120-135 | The ladder writes no game-history row |
| Users.CreateUser | src/modules/users/user.service.ts:227-240 | The new database state and the answer are those of `CreateUserSpec` |
| Users.StartGame | src/modules/users/user.service.ts:303-320 | The new database state and the answer are those of `StartGameSpec` |
| Users.EquipSkin | src/modules/users/user.service.ts:322-346 | The new database state and the answer are those of `EquipSkinSpec` |
| Users.BuyItem | src/modules/users/user.service.ts:348-396 | The new database state and the answer are those of `BuyItemSpec` |
| Users.Purchase | src/modules/users/user.service.ts:374-395 | The in-place writes of a purchase are those of `Purchased` |
| Users.UpdateScore | src/modules/users/user.service.ts:280-301 | The new database state and the answer are those of `UpdateScoreSpec` |

## Left out

- Token service: the token and SOL balances come in through `Env`. The Solana calls are not part of this model.
- Tasks.RunLadder: every reconciliation in one run of the ladder uses the one pair of balances in `Env`. In the source each `executeTask` calls `setEnergyAndCoins` (src/modules/task/task.service.ts:117), which queries the RPC again, so the balances could change between two completions of one run.
- Tasks.ExecuteTaskFacts: always answers only because `Env` always supplies the balances. `getTokenBalance` and `getSolBalance` rethrow RPC errors (src/modules/token/token.service.ts:33-36, :46-49). `executeTask` has then already saved the completion row and the reward (src/modules/task/task.service.ts:103, :109, :113) before `setEnergyAndCoins` throws at :117, so the task stays completed and rewarded but not reconciled, and a retry gets Conflict. The model does not capture that path.
- Reconciliation.CoinStep: balances are exact reals, while the source subtracts and floors IEEE doubles at src/modules/users/user.service.ts:482. A rise from 0.35 to 4.35 floors 3.9999999999999996 to 3 there, so the source can grant 100 coins fewer than the model at integer boundaries. `getSolBalance` divides a lamport count by 1e9 in doubles (src/modules/token/token.service.ts:45). That division is correctly rounded and 0.01, 0.1 and 1 are whole multiples of 1e-9, so the energy tiers agree with the exact model at their thresholds.
- Reconciliation.EnergyStep: the SOL snapshot is a `decimal(18,9)` column (src/modules/users/entity/energy-history.entity.ts:21). Drivers that return decimals as strings (TypeORM on PostgreSQL and MySQL) make `lastSolBalance !== solBalance` at :518 always true, so once the 30-day re-baseline is due an equal balance writes a new snapshot, where the model writes none. The coin ledger's `balance` at :490 likely behaves the same. The model compares numbers, as the code is written to.
- Dependency-injection wiring is left out; the task service calls reconciliation directly.
- JWT issuance and checking, `updateNonce`, `getGameToken` and `gameLogin` are left out: they are not game-economy rules.
- The spent-energy cache `energyService.addSpentEnergy` (src/modules/users/user.service.ts:313) is an external cache and is not modelled.
- `console.log` and TypeORM relation loading are left out; relations are read as the `inventory` and `items` tables.
- Time: `Math.random` is the parameter `r`. Every clock reading in one request is the single `now`, including the second `Date.now()` of openDailyCase (:714), the `new Date()` of the re-baseline checks, and the insert time of updateScore's game-history row, which `UpdateScoreSpec` takes from `env.now` like the ladder's reconciliations.
- The local-time start of the day for `hasOpenedDailyCase` is the parameter `startOfDay`.
- Swallowed repository exceptions (:561-563, :583-585, :595-597) are not modelled. The lookups always succeed, so "no snapshot" and a count of 0 arise only from an empty ledger.
- Concurrency is left out. Each operation runs as one sequential transaction, so the check-then-insert race on completions and interleaved saves are not captured.
- `goldMaskId` (:46) is declared with the literal type `10` but never assigned. The model reads it as the item id 10 (`Cases.GOLD_MASK_ID`) and does not reason about the undefined value the field holds at run time.
- `createdAt` is assumed to follow insertion order, so "latest by createdAt" is the last row appended. `Views.CaseAvailableIffCooldownsOver` states this assumption explicitly as `Chronological`.
- A new user row takes the entity defaults: 0 for the counters, and no equipped skin. Its id is `NextId`, one above the largest id in use. The entity file that fixes these defaults is not part of this model.
- The order of `Object.values(ECaseType)` is taken as the order of the `CASE_CHANCES` table. The enum file is not part of this model; `Cases.DrawIsTheEligibleType` shows the order does not matter as written.
- `itemService.findByName` is modelled as the first item with that name.
- Cases.OpenCasePrizeLost: stated only for draws `r` in [0, 1), the values `Math.random` can return.
- Tasks.FirstReconcileOverridesEnergyReward: stated for a user whose wallet finds their own row.
- Tasks.CompleteTaskSpec: requires the user table's primary key (`UniqueIds`) to hold, as the database guarantees.
- Tasks.CompleteByConditionSpec: requires `UniqueIds`, as the database guarantees.
- Users.UpdateScoreSpec: requires `UniqueIds`, as the database guarantees.
- The case methods take an `Edition` the source does not have. Called with `AsWritten` they do what the code does; with `Intended` they apply the corrections listed under Findings.

## Findings

| source | as written | input that shows it | evidently intended | confidence | as-written member | corrected member |
|---|---|---|---|---|---|---|
| src/modules/users/user.service.ts:30-39 | Neighbouring closed ranges leave gaps such as (0.3, 0.31), so the draw finds no case and openCase/openDailyCase throw InternalServerError after the coin check | r = 0.305 with at least 200 coins: `InternalServerError` | Each range ends where the next begins, so every r in [0, 1) finds a case | not executed | Cases.DrawGaps | Cases.IntendedDrawTotal |
| src/modules/users/user.service.ts:144-147 | The coins_250 entry saves its case-history row without `isDaily`, so a daily coins_250 is not a daily row and does not start the cooldown | A user with no daily case, r = 0.95: openDailyCase answers coins_250 twice at the same moment | The row records `isDaily` like every other entry, so the cooldown holds | not executed | Cases.DailyCoins250Twice | Cases.DailyCooldownHolds |
| src/modules/users/user.service.ts:675-677 | openCase debits the user copy it loaded before the case function ran and saves it, overwriting the row the function saved, so the prize is lost | 300 coins, r = 0.99 (coins_500): the user ends with 100 coins, not 600 | The debit applies to the row the case function left | not executed | Cases.OpenCaseCoins500AsWritten | Cases.OpenCaseIntendedPaysPrize |
