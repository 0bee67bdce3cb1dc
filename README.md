# LORY city builder: economy, stores and validators

This project models the game logic of a small hexagonal city builder. The
player places buildings on a hex map. Buildings of one type that stand next
to each other and have similar levels form clusters. Each building earns
coins per hour from its type, level, health, cluster size and the city's
employment. A ticker and a web worker turn that income into a coin delta at
every animation frame. Around this economy sit:

- the game ledger (coins and buildings);
- a finance store for investments and loans;
- a persisted snapshot store;
- two quest stores with different rules;
- the quest admin panel and its two editors;
- the city page's build guard and wheel zoom;
- the check of a Telegram login.

Each source file is one Dafny module, with two exceptions. `grid.ts` is
split into `Grid` and `Random`, which holds its Mulberry32 generator.
`QuestTypes` holds the quest record of `src/app/pages/Quests/types.ts` and
the tag normalisation both quest forms share. Three helper modules model no
source file. `Common`
holds `Option`, `Result` and real min/max. `Seqs` holds filter, map,
subsequence, sums and counts. `Text` holds trim, split, join, decimal
rendering and code-unit order.

Pure code is written as functions with lemmas. A store the source mutates is
a `class` whose methods name what they change. A loop of the source is a
method with a `while` or `for` loop, proved against a specification function:

- the flood fill of `recomputeClusters`;
- `axialDisk` and `genHexagonGrid`;
- the Mulberry32 generator and `assignBiomes`;
- the worker's sums;
- the rolling window of `useEconomyTicker`;
- `payLoan`;
- `hexToBytes`.

Inputs the program takes from the environment are parameters of the model:

- clock readings (`Date.now`, `performance.now`);
- fresh ids (`crypto.randomUUID`, the random suffix of a cluster id);
- the stored record and the JSON parser;
- the date parser and the admin panel's calendar ranges;
- the HMAC signature function;
- the population and job counts.

## Model

| member | source | states |
|---|---|---|
| Formulas.BaseIncome | src/app/services/economy/formulas.ts:22-30 | an unknown building type earns base 2; every base lies between 1 and 8 |
| Formulas.LevelMult | src/app/services/economy/formulas.ts:32-34 | the multiplier is 1 up to level 1, 1.35 at level 2, never below 1 |
| Formulas.LevelMultMonotone | src/app/services/economy/formulas.ts:32-34 | a higher level never lowers the multiplier |
| Formulas.HealthMult | src/app/services/economy/formulas.ts:36-39 | the multiplier lies in [0.4, 1]; health 100 gives 1 and health 0 gives 0.4 |
| Formulas.HealthMultMonotone | src/app/services/economy/formulas.ts:36-39 | more health never lowers the multiplier |
| Formulas.ClusterBonus | src/app/services/economy/formulas.ts:41-43 | the bonus is 1 below five tiles and, for a non-negative count, between 1 and 1 + 0.01 per tile |
| Formulas.ClusterBonusSteps | src/app/services/economy/formulas.ts:41-43 | the bonus is 1 for 1 to 4 tiles and grows by exactly 0.05 at each multiple of 5, staying flat otherwise |
| Formulas.ClusterBonusMonotone | src/app/services/economy/formulas.ts:41-43 | the bonus is at least 1 for a positive count and never falls as the count grows |
| Formulas.EmploymentMult | src/app/services/economy/formulas.ts:45-49 | the multiplier lies in [0.6, 1.2]; a ratio of 1 or more gives 1.2, a ratio of 0 or less gives 0.6 |
| Formulas.EmploymentMultMonotone | src/app/services/economy/formulas.ts:45-49 | a higher employment ratio never lowers the multiplier |
| Formulas.ProductMonotone | src/app/services/economy/formulas.ts:62 | the six-factor product is non-negative and grows with each non-negative factor |
| Formulas.IncomePerSecond | src/app/services/economy/formulas.ts:51-63 | with non-negative productivity and tile count the income is non-negative; it is zero exactly when productivity is zero; with every default it is 1.2 × base × level multiplier × productivity |
| Formulas.IncomeMonotone | src/app/services/economy/formulas.ts:52-71 | income never falls when level, health, cluster tile count or employment ratio rise |
| Formulas.IncomePerHour | src/app/services/economy/formulas.ts:65-71 | with non-negative productivity and tile count, hourly income is non-negative and at least the income per second; it is zero exactly when productivity is zero |
| Formulas.DefaultHouseIncome | src/app/services/economy/formulas.ts:52-71 | a level-1 house with every default earns 2.4 per second and 8640 per hour, and so does an unknown type |
| Formulas.PowNatNonZero | src/app/services/economy/formulas.ts:75 | a power of a non-zero base is non-zero, so the growth power is always defined |
| Formulas.DefaultUpgradeCostValues | src/app/services/economy/formulas.ts:74-75 | with the defaults, level 1 costs 50 and level 2 costs 80 |
| Formulas.UpgradeCost | src/app/services/economy/formulas.ts:73-75 | level 1 costs the rounded base; for a growth of at least 1 and a non-negative base no level costs less than that |
| Formulas.UpgradeCostMonotone | src/app/services/economy/formulas.ts:74-75 | for a growth of at least 1 and a non-negative base each level costs at least as much as the one before |
| Formulas.DefaultUpgradeCostIncreasing | src/app/services/economy/formulas.ts:74-75 | with the defaults, each level from 1 up costs strictly more than the one before |
| Clustering.Key | src/app/services/map/clustering.ts:9 | the coordinate key `"q:r"` contains the separator |
| Clustering.KeyInjective | src/app/services/map/clustering.ts:9 | two coordinates with the same key are equal |
| Clustering.AdjacentDirection | src/app/services/map/clustering.ts:4-7 | every adjacent coordinate is reached by one of the six neighbour offsets |
| Clustering.ByCoord | src/app/services/map/clustering.ts:15-16 | the coordinate map covers exactly the buildings' coordinates and maps each to a building standing there |
| Clustering.BuildByCoord | src/app/services/map/clustering.ts:15-16 | the `forEach` loop builds that coordinate map |
| Clustering.ByCoordUnique | src/app/services/map/clustering.ts:15-16 | with unique coordinates every building is the one its coordinate maps to |
| Clustering.ByCoordIds | src/app/services/map/clustering.ts:15-16 | with unique ids no two coordinates map to buildings with one id |
| Clustering.LinkedSymmetric | src/app/services/map/clustering.ts:43-48 | the compatibility relation (adjacent, same type, levels within delta) is symmetric |
| Clustering.ReachableSymmetric | src/app/services/map/clustering.ts:43-50 | reachability over compatible steps is symmetric |
| Clustering.ReachableTransitive | src/app/services/map/clustering.ts:43-50 | reachability over compatible steps is transitive |
| Clustering.PushNeighbors | src/app/services/map/clustering.ts:43-50 | the stack becomes the old stack followed by the compatible, unvisited neighbours of the current building, one per matching offset, in offset order |
| Clustering.GrowCluster | src/app/services/map/clustering.ts:33-51 | the stack loop ends with the tiles of the seed's component, each visited once, their levels, and every popped id mapped to the cluster id |
| Clustering.ClusterAll | src/app/services/map/clustering.ts:22-65 | the outer loop skips visited buildings and grows one cluster per unvisited seed, keeping the partition invariant |
| Clustering.RecomputeClusters | src/app/services/map/clustering.ts:11-68 | clusters are disjoint, carry distinct ids, cover every building, and their tile counts sum to the number of coordinates; with unique coordinates each cluster is a connected component and every building id maps to the cluster holding its tile |
| Clustering.RoundedMeanBounds | src/app/services/map/clustering.ts:53-56 | the rounded mean of the levels or coordinates lies between their minimum and maximum |
| Clustering.TotalTilesAppend | src/app/services/map/clustering.ts:58-64 | pushing a cluster adds its tile count to the total |
| Clustering.OwnedDisjoint | src/app/services/map/clustering.ts:22-65 | no tile belongs to two clusters |
| Clustering.OwnedDistinctIds | src/app/services/map/clustering.ts:31 | clusters grown from distinct seeds have distinct ids |
| Clustering.OwnedCovers | src/app/services/map/clustering.ts:22-24 | every building's coordinate is in some cluster |
| Clustering.IdsMappedAll | src/app/services/map/clustering.ts:41 | each building id maps to the id of the cluster whose tiles hold it |
| Clustering.SameClusterIffReachable | src/app/services/map/clustering.ts:43-50 | a coordinate is in a member's cluster exactly when it is reachable from that member |
| Clustering.LinkedSameCluster | src/app/services/map/clustering.ts:43-50 | two compatible neighbours always land in the same cluster |
| Clustering.ComponentOfMember | src/app/services/map/clustering.ts:33-51 | a cluster's tile set is the component of each of its members |
| Clustering.ClustersAreComponents | src/app/services/map/clustering.ts:22-65 | the set of clusters' tile sets is the set of components, so the partition does not depend on the random ids |
| Clustering.CoversMap | src/app/services/map/clustering.ts:22-24 | every coordinate of the map is in some cluster |
| Clustering.LevelDrift | src/app/services/map/clustering.ts:48 | with delta 1 a chain of levels 1, 2, 3, 4 is one cluster whose ends differ by 3 |
| Hex.AxialToPixel | src/lib/hex.ts:12-16 | y is 45 times r, and x is 30·√3·(q + r/2) |
| Hex.HexCenterSpacing | src/lib/hex.ts:12-19 | centres in a row are 30·√3 apart at the same height; the next row is 45 lower and shifted by half that width |
| Hex.AxialToPixelInjective | src/lib/hex.ts:12-16 | distinct coordinates have distinct pixel positions |
| Hex.AxialDisk | src/lib/hex.ts:36-43 | the nested loops produce the disk of the given radius |
| Hex.RowFromFacts | src/lib/hex.ts:41 | the inner loop's column has one coordinate per row from r1 to r2, in increasing r |
| Hex.DiskFromMembership | src/lib/hex.ts:38-41 | the columns from q0 on hold exactly the coordinates with q ≥ q0 within the radius |
| Hex.DiskMembership | src/lib/hex.ts:36-43 | `(q, r)` is in the disk exactly when max(abs q, abs r, abs(q + r)) is at most the radius |
| Hex.DiskOrdered | src/lib/hex.ts:38-41 | the disk is ordered by q and then r, with no duplicates |
| Hex.RowLength | src/lib/hex.ts:39-41 | column q has 2R + 1 − abs q coordinates |
| Hex.DiskSize | src/lib/hex.ts:36-43 | the disk has 3R(R + 1) + 1 coordinates for R ≥ 0 and none for a negative radius |
| Grid.GenHexagonGrid | src/app/utils/grid.ts:11-21 | the grid is one tile per disk coordinate, in disk order, with the requested biome or grass |
| Grid.Column | src/app/utils/grid.ts:16-18 | the inner loop yields the tiles of one column from r1 to r2 |
| Grid.TilesOfAppend | src/app/utils/grid.ts:11-21 | the tiles of two coordinate lists placed one after the other are the two tile lists joined |
| Grid.GridSpec | src/app/utils/grid.ts:11-21 | tile i sits at disk coordinate i with id `"q:r"` and the given biome, and no two tiles share an id |
| Random.Mulberry32.constructor | src/app/utils/grid.ts:25 | the generator starts from the given seed |
| Random.Mulberry32.Next | src/app/utils/grid.ts:26-31 | each call advances the seed by 0x6d2b79f5 and returns the mix of the new seed, a number in [0, 1) |
| Random.MixBits | src/app/utils/grid.ts:27-30 | the three mixing rounds keep the state a 32-bit value |
| Random.Unit | src/app/utils/grid.ts:30 | dividing a 32-bit value by 2^32 gives a number in [0, 1) |
| Random.Mix | src/app/utils/grid.ts:26-30 | every output lies in [0, 1) |
| Random.DrawsAt | src/app/utils/grid.ts:25-32 | the k-th draw depends only on the seed and k |
| Random.NthShift | src/app/utils/grid.ts:26 | advancing the seed once shifts the draw sequence by one |
| Grid.BiomeOfSpec | src/app/utils/grid.ts:39-48 | each biome covers exactly one interval between the thresholds 0.12, 0.38, 0.62 and 0.82 |
| Grid.WithBiomes | src/app/utils/grid.ts:37-50 | the map keeps the length and changes only the biome of each tile |
| Grid.AssignBiomes | src/app/utils/grid.ts:35-51 | the map draws one number per tile, in order, from a generator seeded with the seed or 1337 |
| Grid.AssignedSpec | src/app/utils/grid.ts:35-50 | tile i keeps its id and coordinate and takes the biome of the i-th draw |
| Grid.AssignedStable | src/app/utils/grid.ts:35-50 | re-assigning with the same seed changes nothing, and a prefix gets the biomes of the whole list's prefix |
| Grid.ViewportMonotone | src/app/utils/grid.ts:70-82 | points inside the view are visible, and a larger padding never hides a visible point |
| Ticker.Without | src/app/services/economy/ticker.ts:23 | unsubscribing removes exactly that callback and keeps the rest distinct |
| Ticker.FindIndex | src/app/services/economy/ticker.ts:37 | the found cluster has the id; none is found only when no cluster has it |
| Ticker.Enrich | src/app/services/economy/ticker.ts:34-44 | the enriched list has the input's length and order, each entry the unchanged building with a price attached |
| Ticker.EnrichSizes | src/app/services/economy/ticker.ts:35-42 | a building is priced with its own cluster's tile count, or 1 without a cluster, and employment ratio 1 by default |
| Ticker.EnrichOwnCluster | src/app/services/economy/ticker.ts:32-44 | with the clustering's id map, every building is priced with the tile count of the cluster that holds it |
| Ticker.PriceBuildings | src/app/services/economy/ticker.ts:32-44 | with distinct coordinates the clusters are exactly the connected components and the id map covers exactly the buildings; with distinct ids too, every building is priced by the tile count of its own component |
| Ticker.FanoutOnce | src/app/services/economy/ticker.ts:15-18 | each current subscriber is called exactly once, with the delta received |
| Ticker.EconomyTicker.constructor | src/app/services/economy/ticker.ts:10-19 | no subscribers, an empty outbox, and the clock reading as the last time |
| Ticker.EconomyTicker.Subscribe | src/app/services/economy/ticker.ts:21-22 | adds the callback once, as a set does |
| Ticker.EconomyTicker.Unsubscribe | src/app/services/economy/ticker.ts:23 | removes only that callback |
| Ticker.EconomyTicker.Tick | src/app/services/economy/ticker.ts:27-47 | sends one message with the enriched buildings, no investments and dtMs = now − lastTs, then sets lastTs to now; the clusters used are the connected components, and each building is priced by its own |
| Ticker.EconomyTicker.Deliver | src/app/services/economy/ticker.ts:15-18 | a worker result calls every subscriber with its delta and changes nothing else |
| Worker.ComputeDelta | src/app/workers/economy.worker.ts:2-15 | the two loops and the floor compute the floored sum of the building and investment terms |
| Worker.FloorCentsSpec | src/app/workers/economy.worker.ts:13 | the result is a multiple of 0.01, within 0.01 below the raw sum, and the largest such value |
| Worker.FloorCentsOfCents | src/app/workers/economy.worker.ts:13 | an amount already in whole cents is unchanged |
| Worker.BuildingsIncomeAppend | src/app/workers/economy.worker.ts:7 | a building adds its hourly income × dtMs / 3,600,000 |
| Worker.InvestmentsYieldAppend | src/app/workers/economy.worker.ts:10 | an investment adds amount × roi × dtMs / (365·24·3,600,000) |
| Worker.BuildingsIncomeLinear | src/app/workers/economy.worker.ts:7 | the building income is proportional to dtMs |
| Worker.InvestmentsYieldLinear | src/app/workers/economy.worker.ts:10 | the investment yield is proportional to dtMs |
| Worker.DeltaZero | src/app/workers/economy.worker.ts:4-13 | no buildings and no investments, or dtMs = 0, give a delta of 0 |
| Worker.DeltaNonNegative | src/app/workers/economy.worker.ts:7-13 | non-negative incomes, amounts, rates and dtMs give a non-negative delta |
| Hook.ClampSpec | src/app/hooks/useEconomyTicker.ts:10-11 | the clamp lies in [a, b] and is the identity inside it |
| Hook.EmploymentRatio | src/app/hooks/useEconomyTicker.ts:38 | the ratio passed to `tick` lies in [0, 1.2] and is population / max(1, jobs) when that is in range |
| Hook.ToEconomy | src/app/hooks/useEconomyTicker.ts:39 | the buildings handed to the ticker keep their ids, coordinates and levels |
| Hook.EvictSpec | src/app/hooks/useEconomyTicker.ts:26-29 | entries leave only from the front; a sorted window stays sorted and keeps only entries at or after the cutoff; the newest entry stays when it is not before the cutoff |
| Hook.SortedPush | src/app/hooks/useEconomyTicker.ts:24 | pushing an entry no earlier than the last keeps the window sorted |
| Hook.EvictOld | src/app/hooks/useEconomyTicker.ts:27-29 | the `while`/`shift` loop computes the eviction |
| Hook.Divisor | src/app/hooks/useEconomyTicker.ts:31 | the time span divisor is at least 1 second and at least the window's span |
| Hook.RateBounds | src/app/hooks/useEconomyTicker.ts:30-32 | with a non-negative sum, coins per second lie between 0 and the window's sum |
| Hook.EconomyHook.constructor | src/app/hooks/useEconomyTicker.ts:13-16 | an empty window and a rate of 0 |
| Hook.EconomyHook.OnDelta | src/app/hooks/useEconomyTicker.ts:21-33 | the delta goes to `addCoins` once; the window is the evicted push, keeps the newest entry and only entries of the last 5 seconds; the rate is recomputed from it |
| Hook.EconomyHook.Frame | src/app/hooks/useEconomyTicker.ts:36-40 | each frame ticks once with the clamped ratio population / max(1, jobs): the posted message carries the economy view of the buildings priced by their connected components, no investments, and the time since the last tick |
| Game.AddThenRemove | src/app/store/game.ts:74-90 | with a fresh id, removing the building `addBuildingAt` just added restores the list, and the new building is the only one with that id |
| Game.WithoutIdSpec | src/app/store/game.ts:87-90 | removal keeps exactly the buildings with other ids, in order |
| Game.Upgraded | src/app/store/game.ts:91-96 | the upgrade keeps the length and treats each building on its own |
| Game.UpgradedSpec | src/app/store/game.ts:91-96 | only buildings with the id gain one level; nothing else about any building changes |
| Game.GameStore.constructor | src/app/store/game.ts:34-35 | 500 coins and no buildings |
| Game.GameStore.AddCoins | src/app/store/game.ts:37-47 | coins grow by v, buildings stay, and the saved snapshot is the new state |
| Game.GameStore.CanSpend | src/app/store/game.ts:48 | true exactly when the coins cover v |
| Game.GameStore.Spend | src/app/store/game.ts:49-61 | v ≤ 0 succeeds and changes nothing; too few coins fails and changes nothing; otherwise coins drop by v, stay non-negative, and the new state is saved |
| Game.GameStore.Reset | src/app/store/game.ts:62-68 | 500 coins, no buildings, nothing saved |
| Game.GameStore.AddBuilding | src/app/store/game.ts:70-73 | appends the building with a fresh id and changes nothing else |
| Game.GameStore.AddBuildingAt | src/app/store/game.ts:74-86 | appends exactly one new building and changes nothing else |
| Game.GameStore.RemoveBuilding | src/app/store/game.ts:87-90 | keeps the buildings with other ids and leaves the coins alone |
| Game.GameStore.UpgradeBuilding | src/app/store/game.ts:91-96 | upgrades the buildings with that id and charges nothing |
| Finance.FindInvestment | src/app/store/finance.ts:64 | the found investment is in the list with that id; none is found only when no investment has it |
| Finance.AfterPayment | src/app/store/finance.ts:98-103 | the paid loan stays, with balance owed − payment, exactly when that is positive |
| Finance.PaidLoansOthers | src/app/store/finance.ts:92-96 | loans with other ids come out unchanged and in order |
| Finance.PaidLoansPaid | src/app/store/finance.ts:97-103 | every remaining loan with the id is an original one with a positive balance of owed − payment |
| Finance.OwedIgnoresBalance | src/app/store/finance.ts:98-99 | the amount owed is computed from the original amount, whatever the balance |
| Finance.RepeatedPaymentIgnored | src/app/store/finance.ts:98-103 | a loan of 100 at rate 0 paid 50 twice still has balance 50 |
| Finance.FinanceStore.constructor | src/app/store/finance.ts:46-47 | no investments and no loans |
| Finance.FinanceStore.Invest | src/app/store/finance.ts:48-60 | too few coins changes nothing; otherwise one investment is appended and the amount is debited, except that an amount ≤ 0 is not debited |
| Finance.FinanceStore.CollectInvestment | src/app/store/finance.ts:61-72 | an unknown id changes nothing; otherwise the floor of the profit is paid out and that investment removed |
| Finance.FinanceStore.TakeLoan | src/app/store/finance.ts:73-84 | coins grow by the amount and a loan with balance equal to the amount is appended |
| Finance.FinanceStore.PayLoan | src/app/store/finance.ts:85-107 | too few coins changes nothing; otherwise the payment is debited (unless ≤ 0) and the loop rebuilds the loans as specified by the paid-loan list |
| Finance.FinanceStore.DeclareBankruptcy | src/app/store/finance.ts:108-112 | no investments, no loans and a reset game |
| SnapshotStore.Reload | src/app/store/game.store.ts:44-74 | a stored record that parses to a snapshot's fields loads as that snapshot whatever the time, and the store starts in it |
| SnapshotStore.MergeLaws | src/app/store/game.store.ts:80-82 | a patch replaces exactly its own keys; merging is idempotent and two merges compose into one |
| SnapshotStore.Store.constructor | src/app/store/game.store.ts:69-77 | the initial state, no listeners, nothing notified |
| SnapshotStore.Store.SetState | src/app/store/game.store.ts:80-84 | the new state merges the patch, or the function's patch of the old state; it is saved and every listener is notified |
| SnapshotStore.NotifiedOnce | src/app/store/game.store.ts:84 | each registered listener is notified exactly once per update |
| QuestStore.FirstIndex | src/app/store/questStore.ts:75 | the first quest with the id, or none when no quest has it |
| QuestStore.AddedQuest | src/app/store/questStore.ts:67-125 | a quest added under a fresh id is the one found by that id, is not claimable, becomes active on start, keeps every quest within its goal, and is unchanged by an update with its own input |
| QuestStore.StartSpec | src/app/store/questStore.ts:67-72 | only an available quest with the id becomes active |
| QuestStore.ClaimOnce | src/app/store/questStore.ts:73-85 | after a claim the quest is no longer claimable, so a repeat claim is a no-op |
| QuestStore.UpdateSpec | src/app/store/questStore.ts:105-125 | the update keeps id and status, caps current at the new goal and sets progress to current / goal |
| QuestStore.IncrementSpec | src/app/store/questStore.ts:128-146 | only an active quest with the tag and current < goal advances, to min(current + amount, goal), becoming completed exactly when it reaches the goal |
| QuestStore.IncrementKeepsBounds | src/app/store/questStore.ts:139-143 | for amount ≥ 0, 0 ≤ current ≤ goal is kept and current never falls |
| QuestStore.BoundsPreserved | src/app/store/questStore.ts:105-146 | increments and updates keep every quest within its goal |
| QuestStore.DeleteSpec | src/app/store/questStore.ts:126-127 | deletion keeps exactly the quests with other ids, in order |
| QuestStore.Quests.constructor | src/app/store/questStore.ts:63 | no quests |
| QuestStore.Quests.Fetch | src/app/store/questStore.ts:64-66 | the list is unchanged |
| QuestStore.Quests.Start | src/app/store/questStore.ts:67-72 | the list becomes the started list |
| QuestStore.Quests.Claim | src/app/store/questStore.ts:73-85 | a missing or uncompleted quest changes nothing and pays nothing; a completed one pays its reward once and is marked rewarded |
| QuestStore.Quests.AddQuest | src/app/store/questStore.ts:86-104 | appends one new quest |
| QuestStore.Quests.UpdateQuest | src/app/store/questStore.ts:105-125 | the list becomes the updated list |
| QuestStore.Quests.DeleteQuest | src/app/store/questStore.ts:126-127 | the list loses the quests with the id |
| QuestStore.Quests.IncrementProgressForTag | src/app/store/questStore.ts:128-146 | every quest advances by the amount, 1 by default |
| QuestBoard.MockQuests | src/app/pages/Quests/questStore.ts:16-122 | the mock list has eight quests |
| QuestBoard.MockQuestsUniqueIds | src/app/pages/Quests/questStore.ts:15-122 | the mock list's ids are unique |
| QuestBoard.MockQuestsShaped | src/app/pages/Quests/questStore.ts:16-122 | every regular mock quest has a period and every event has both dates |
| QuestBoard.ReplacedSpec | src/app/pages/Quests/questStore.ts:134-135 | every quest with the argument's id is replaced by it; length and other quests unchanged |
| QuestBoard.StartedSpec | src/app/pages/Quests/questStore.ts:140-145 | a matching quest becomes active whatever its status, with progress max(0, progress), and nothing else changes |
| QuestBoard.ClaimedSpec | src/app/pages/Quests/questStore.ts:147-152 | a matching quest becomes rewarded whatever its status, and nothing else changes |
| QuestBoard.WithoutSpec | src/app/pages/Quests/questStore.ts:137-138 | deletion keeps exactly the quests with other ids, in order |
| QuestBoard.UniqueIdsKept | src/app/pages/Quests/questStore.ts:134-152 | update, start and claim keep unique ids unique |
| QuestBoard.Board.constructor | src/app/pages/Quests/questStore.ts:125 | no quests |
| QuestBoard.Board.Fetch | src/app/pages/Quests/questStore.ts:127-130 | the list becomes the mock list |
| QuestBoard.Board.AddQuest | src/app/pages/Quests/questStore.ts:132 | appends the quest as given |
| QuestBoard.Board.UpdateQuest | src/app/pages/Quests/questStore.ts:134-135 | the list becomes the replaced list |
| QuestBoard.Board.DeleteQuest | src/app/pages/Quests/questStore.ts:137-138 | the list loses the quests with the id |
| QuestBoard.Board.Start | src/app/pages/Quests/questStore.ts:140-145 | the list becomes the started list |
| QuestBoard.Board.Claim | src/app/pages/Quests/questStore.ts:147-152 | the list becomes the claimed list; no coins are paid |
| AdminPanel.IsBetweenSpec | src/app/pages/Quests/components/AdminPanel.tsx:47 | inclusive at both ends; an invalid date is never between |
| AdminPanel.ScheduleOverTime | src/app/pages/Quests/components/AdminPanel.tsx:82-92 | a quest scheduled at a time was scheduled at every earlier time, and a dated quest once active is never scheduled again |
| AdminPanel.ActiveInterval | src/app/pages/Quests/components/AdminPanel.tsx:87-92 | the times at which a quest is active form an interval |
| AdminPanel.ScheduledThenActive | src/app/pages/Quests/components/AdminPanel.tsx:82-92 | a scheduled quest has a valid start, and at that start it is active and no longer scheduled unless it ends before it starts |
| AdminPanel.NotActiveAndScheduled | src/app/pages/Quests/components/AdminPanel.tsx:82-92 | no quest is both active and scheduled |
| AdminPanel.BucketsDisjoint | src/app/pages/Quests/components/AdminPanel.tsx:94-105 | no quest is in the buckets of two different periods |
| AdminPanel.PanelListsOrder | src/app/pages/Quests/components/AdminPanel.tsx:107-115 | active and scheduled lists are subsequences of the lists they filter |
| AdminPanel.PanelListsEvents | src/app/pages/Quests/components/AdminPanel.tsx:107-111 | the event lists hold only events of the store, active or scheduled as named |
| AdminPanel.PanelListsDisjoint | src/app/pages/Quests/components/AdminPanel.tsx:110-115 | no quest is in both an active and a scheduled list |
| AdminPanel.PanelListsScoped | src/app/pages/Quests/components/AdminPanel.tsx:94-113 | the scoped list holds exactly the store quests in the selected bucket, each a regular quest of the selected period |
| QuestTypes.NonblankTrimmed | src/app/pages/Quests/components/QuestModal.tsx:65 | a trimmed text is dropped exactly when blank, and what is kept is non-empty and trimmed |
| QuestTypes.CleanTagsSpec | src/app/pages/Quests/components/QuestModal.tsx:60 | cleaned tags are non-empty, trimmed and comma-free, and every non-blank piece appears trimmed |
| QuestTypes.TagsRoundTrip | src/app/pages/Quests/components/QuestModal.tsx:28-60 | joining clean tags with `", "` and cleaning again gives them back |
| QuestTypes.SplitTags | src/app/pages/Quests/components/QuestModal.tsx:28 | splitting the joined tags at commas gives the first tag and the rest each behind a space |
| QuestModal.OpenedFormState | src/app/pages/Quests/components/QuestModal.tsx:15-56 | the editor opened for a new quest cannot save; opened on a quest it could have produced, it can save exactly when that quest meets the save conditions |
| QuestModal.CanSubmitIffSaveable | src/app/pages/Quests/components/QuestModal.tsx:50-75 | saving is allowed exactly when the quest it would build has a title, a non-negative reward, a period if regular, and for an event with both dates an end not before its start |
| QuestModal.SubmitText | src/app/pages/Quests/components/QuestModal.tsx:59-65 | the initial id is kept when present; the title is trimmed; a blank description is absent |
| QuestModal.SubmitProgress | src/app/pages/Quests/components/QuestModal.tsx:68-71 | progress is clamped to [0, 1]; only a regular quest keeps its period |
| QuestModal.SubmitDatesAndTags | src/app/pages/Quests/components/QuestModal.tsx:60-74 | a date is set exactly where one was entered, and the tags are clean |
| QuestModal.EditRoundTrip | src/app/pages/Quests/components/QuestModal.tsx:15-75 | opening the editor on a normalised quest and saving gives that quest back |
| QuestForm.OpenedFields | src/app/pages/Quests/components/QuestForm.tsx:16-47 | a form for a new quest has saving off and would submit every default; on a quest it could have produced, saving is off exactly when the title is empty; the number inputs open with numbers |
| QuestForm.DisabledIffNoTitle | src/app/pages/Quests/components/QuestForm.tsx:28-33 | saving is enabled exactly when the submitted title would be non-empty |
| QuestForm.SubmitText | src/app/pages/Quests/components/QuestForm.tsx:33-34 | the title is trimmed and a blank description is absent |
| QuestForm.SubmitNumbers | src/app/pages/Quests/components/QuestForm.tsx:36-39 | progress lies in [0, 1] and is 0 for a non-number; a non-numeric reward becomes 0 |
| QuestForm.SubmitRest | src/app/pages/Quests/components/QuestForm.tsx:40-46 | only a regular quest keeps its period; empty dates are absent; tags are clean |
| QuestForm.EditRoundTrip | src/app/pages/Quests/components/QuestForm.tsx:16-47 | opening the form on a normalised quest and submitting gives its values back |
| City.IsOccupied | src/app/pages/City/index.tsx:39-40 | true exactly when some building stands at `(q, r)` |
| City.PlaceKeepsUnique | src/app/pages/City/index.tsx:55-70 | building only on a free tile keeps coordinates unique |
| City.CityPage.constructor | src/app/pages/City/index.tsx:15 | the base view box 0, 0, 800, 600 |
| City.CityPage.OnWorldLoaded | src/app/pages/City/index.tsx:29-36 | the view is centred on the origin tile |
| City.CityPage.OnTileClick | src/app/pages/City/index.tsx:50-81 | water, then occupancy, then payment are checked in that order, and each refusal changes nothing; a success pays 100 and adds one house with income 12 at the tile, keeping coordinates unique |
| City.ClampW | src/app/pages/City/index.tsx:98-103 | the width lies in [200, 3200] and is the identity inside that range |
| City.Zoom | src/app/pages/City/index.tsx:165-176 | the new width is the clamped scaled width, 1.1 for a downward turn and 0.9 otherwise |
| City.ZoomAspect | src/app/pages/City/index.tsx:169-170 | zooming keeps the height-to-width ratio |
| City.ZoomAnchor | src/app/pages/City/index.tsx:168-174 | the point under the cursor stays under the cursor |
| City.CityPage.OnWheel | src/app/pages/City/index.tsx:158-177 | nothing happens before the map is shown or with the control key held; otherwise the view is zoomed |
| TelegramAuth.HexPrefix | src/app/utils/telegramAuth.ts:15 | `parseInt(…, 16)` reads the longest prefix of hex digits |
| TelegramAuth.HexToBytes | src/app/utils/telegramAuth.ts:9-18 | the loop fills the byte array that hex decoding specifies |
| TelegramAuth.DecodeHexSpec | src/app/utils/telegramAuth.ts:10-16 | odd length is an error; otherwise there are n/2 bytes and byte i is the value of the pair at 2i |
| TelegramAuth.DecodeOnePair | src/app/utils/telegramAuth.ts:15 | a two-character string decodes to the wrapped value of `parseInt` |
| TelegramAuth.DecodeNoDigit | src/app/utils/telegramAuth.ts:15 | a pair with no hex digit decodes to 0 |
| TelegramAuth.DecodeBarePrefix | src/app/utils/telegramAuth.ts:15 | the pair `"0x"` decodes to 0 |
| TelegramAuth.DecodeOneDigit | src/app/utils/telegramAuth.ts:15 | a digit followed by a non-digit decodes to that digit |
| TelegramAuth.DecodeSigned | src/app/utils/telegramAuth.ts:15 | `"-1"` decodes to 255 |
| TelegramAuth.ByteHexSpec | src/app/utils/telegramAuth.ts:77 | a byte renders as two lower-case hex digits of its high and low nibbles |
| TelegramAuth.EncodeHexSpec | src/app/utils/telegramAuth.ts:75-78 | the hex string has two characters per byte, in order |
| TelegramAuth.EncodeHexLower | src/app/utils/telegramAuth.ts:75-78 | the hex string is lower case |
| TelegramAuth.DecodeEncode | src/app/utils/telegramAuth.ts:9-18 | decoding the hex of some bytes gives those bytes back |
| TelegramAuth.EncodeDecode | src/app/utils/telegramAuth.ts:9-18 | encoding the bytes of an even-length lower-case hex string gives the string back |
| TelegramAuth.Lookup | src/app/utils/telegramAuth.ts:44 | a missing key reads as undefined; a present key reads its value |
| TelegramAuth.SortByKey | src/app/utils/telegramAuth.ts:29 | sorting keeps the same fields |
| TelegramAuth.SortByKeySorted | src/app/utils/telegramAuth.ts:29 | fields with distinct keys come out with strictly increasing keys |
| TelegramAuth.SortedUnique | src/app/utils/telegramAuth.ts:29 | two strictly sorted lists with the same fields are equal |
| TelegramAuth.SortedFieldsMembers | src/app/utils/telegramAuth.ts:26-28 | a field is in the string exactly when some included entry renders to it |
| TelegramAuth.SortedFieldsSpec | src/app/utils/telegramAuth.ts:25-29 | no `hash` field, no undefined or null value, and keys strictly increasing |
| TelegramAuth.DataCheckStringOrderFree | src/app/utils/telegramAuth.ts:25-31 | the string does not depend on the order of the object's properties |
| TelegramAuth.DataCheckStringLines | src/app/utils/telegramAuth.ts:30 | the string is empty without fields; otherwise it splits at newlines into the `key=value` lines in order |
| TelegramAuth.VerifySpec | src/app/utils/telegramAuth.ts:42-83 | false without a hash, without a secret or with an odd-length secret; otherwise true exactly when the hash is the hex of the signature |
| TelegramAuth.VerifyLowerCase | src/app/utils/telegramAuth.ts:75-79 | an accepted hash is lower case with two digits per signature byte |
| TelegramAuth.VerifyByBytes | src/app/utils/telegramAuth.ts:75-79 | for a lower-case even-length hash, comparing hex is comparing the decoded bytes |
| Text.JoinSplit | src/app/pages/Quests/components/QuestForm.tsx:43-44 | joining the pieces of a split with the separator gives the text back |
| Text.SplitJoin | src/app/pages/Quests/components/QuestForm.tsx:43-44 | splitting a join of pieces free of the separator gives the pieces back |
| Text.TrimSpec | src/app/pages/Quests/components/QuestForm.tsx:33 | trimming removes exactly the leading and trailing white space |

## Left out

- Rendering is not modelled: JSX, SVG, animation, alerts as dialogs, pointer panning, the quest editor's sync effect, and every page and component other than those above.
- `hexPolygonPoints` and `computeBounds` (trigonometry, infinities) are not modelled, and neither is `fetchWorld`, whose cosine noise and asynchrony fall outside the model.
- √3 is the exact real 1.7320508075688772, the decimal form of the double `Math.sqrt(3)` returns. Money, rates and times are `real`, so IEEE rounding, NaN and infinities are not modelled. The one exception is QuestForm's number inputs, which can be non-numbers.
- Clock readings, fresh ids (`crypto.randomUUID`, the `Math.random` suffix of a cluster id), the stored record, `JSON.parse`, date parsing and the admin panel's day, week and month ranges are parameters. Calendar arithmetic is not modelled.
- localStorage writes are modelled as a ghost "last saved snapshot" field. The `try`/`catch` around them cannot fail in the model.
- The worker thread and its message channel are an outbox sequence on the ticker. `requestAnimationFrame` scheduling and the effect's cleanup are not modelled. One frame is one call.
- HMAC-SHA-256, `importKey` and `TextEncoder` are a `sign` parameter. Only `hexToBytes`'s error is modelled among the failures the `catch` absorbs.
- `localeCompare` is modelled as code-unit lexicographic order. That agrees with it on ASCII keys, which is what the login widget sends.
- Random.Mulberry32.Next: the 32-bit state is a `nat` below 2^32 with bitwise xor and or defined arithmetically, not `bv32`. The source's captured seed is a double that grows without wrapping, and the model's seed is an unbounded integer. The two agree while the double is exact.
- City.CityPage.OnTileClick: the fallback through `addBuilding` (City lines 71-80) is not modelled. `addBuildingAt` always exists in the game store, so that branch cannot run.
- City.CityPage.OnWheel: requires a bounding rectangle with non-zero width and height, because the source divides by them and gets infinities otherwise.
- Hook.EconomyHook.OnDelta: requires a timestamp no earlier than the newest window entry, which `performance.now` guarantees.
- Hook.EconomyHook.Frame: population and job counts are parameters, because the game store read in the hook defines neither field.
- QuestStore.UpdateSpec: a zero goal gives progress 0 where the source gets NaN or an infinity; `Ratio` makes that choice.
- QuestStore.IncrementSpec: the same zero-goal choice of `Ratio` applies to the progress `IncrementOne` computes.
- The `locked` status is a constructor of both quest status types. No operation of either store creates or leaves it specially.
- The unimplemented parts of `game.store.ts` beyond `setState`, and `auth.ts`, `ui.store.ts`, `db.ts` and `supabaseClient.ts`, are not part of this model.
