# Idle game prototype: the Cell Stage economy, the modifier resolver and the worker helpers

This project models four pieces of the idle-game prototype in Dafny and proves properties of them.

- **The Cell Stage engine** (`assets/js/GameState.js`).
  - `GameState` owns a table of resources (`amount`, `max`), buildings and upgrades. It runs the
    timed `tick`, click actions (`performAction`, `getActionValue`), purchases (`buyBuilding`,
    `buyUpgrade`), unlock checks and the total production rate.
  - `CellStage` collects the effects aimed at a building or at an action.
  - `Building` reduces those effects into a production map and a waste rate. Each result sits in a
    cache behind an invalidation flag.
- **The priority resolver** (`node-test.ts`).
  - Base `add` modifiers come from building counts. Static modifiers are added after them.
  - `matches` compares paths and understands a `.*` suffix.
  - `resolve` filters the modifiers, sorts them stably by priority and folds add/mul/set from 0.
- **`flattenDefs`** (`assets/js/resources.js`): a table of layers becomes one table keyed by
  `layer.key`. `RESOURCES` is the flattened version of that table.
- **The global `gameState` record** (`script.js`) and its helpers: money, resources, buildings,
  worker pools, `assignWorker` and the worker-driven `gameTick`.

Modules, one file each:

- `Wrappers` holds `Option`.
- `Effects` holds effects and the add -> mult -> set reductions. There is a scalar one (action
  values, waste) and a per-resource one (production maps). Each has a loop method, a specification
  function and closed-form lemmas.
- `Stage` holds the table datatypes, the effect collection, and the `Building` and `CellStage`
  classes with their caches.
- `Economy` holds the `GameState` class, the specification functions of tick, totals and purchases,
  and their lemmas.
- `Resolver` holds `node-test.ts`.
- `Resources` holds `resources.js`.
- `Workers` holds `script.js` as the class `Game`.

Modelling choices:

- **Numbers.** Amounts, rates and values are `real`; counts and priorities are `int`.
- **Object order.** JavaScript visits object keys in insertion order. The model gives that order
  explicitly wherever it matters:
  - `Holdings.buildingOrder` and `Holdings.upgradeOrder` for the Cell Stage table;
  - sequences of pairs for unlock conditions, `flattenDefs` input and the resolver's building counts;
  - `workerOrder` for the worker pools.
- **Shared table.** In the source, the `GameState`, the `CellStage` and every `Building` read one
  shared `data` table. In the model the table is the `GameState` fields `resources` and `holdings`,
  and the `GameState` passes `holdings` to the `Building` methods.
- **Cache coherence.** `Building.Coherent` states that any cache a getter would return equals a fresh
  computation. `GameState.Valid` keeps that true for every building across every operation.
- **Elapsed time.** It is a parameter `dt`.

## Model

| member | source | states |
|---|---|---|
| Effects.OfKind | assets/js/GameState.js:46-58 | grouping by type keeps only effects of the requested type and never more than were collected (what it keeps: `OfKindCounts`) |
| Effects.OfKindCounts | assets/js/GameState.js:46-58 | grouping keeps every copy of each effect of the requested type, as many times as it was collected, and drops every effect of another type |
| Effects.OfKindPermutes | assets/js/GameState.js:46-58 | two collections holding the same effects, in any order, group into the same effects of each type |
| Effects.OfKindConcat | assets/js/GameState.js:46-58 | grouping the effects of two lists is grouping each list and concatenating, so collection order is kept within a type |
| Effects.SumValuesConcat | assets/js/GameState.js:63-65 | the additive total of two lists is the sum of their totals |
| Effects.ProductValuesConcat | assets/js/GameState.js:68-70 | the multiplicative factor of two lists is the product of their factors |
| Effects.SumPermutes | assets/js/GameState.js:63-65 | the additive total does not depend on the order of the values |
| Effects.ProductPermutes | assets/js/GameState.js:68-70 | the multiplicative factor does not depend on the order of the values |
| Effects.ScalarReduce | assets/js/GameState.js:46-75 | the scalar add -> mult -> set reduction the three grouped loops compute (their loop is `Effects.Reduce`; its order-independence is `StackingOrderIrrelevant`, its `set` rule `LastSetWins`) |
| Effects.Reduce | assets/js/GameState.js:60-75 | the three grouped loops give the base plus every additive value, times every multiplicative value, or the last `set` value when there is one; other types are ignored |
| Effects.SumLoop | assets/js/GameState.js:63-65 | the additive loop adds the sum of the values to its start |
| Effects.ProductLoop | assets/js/GameState.js:68-70 | the multiplicative loop scales its start by the product of the values |
| Effects.StackingOrderIrrelevant | assets/js/GameState.js:46-75 | with no `set` effect, any reordering of the collected effects (the same effects, as a multiset) reduces to the same value |
| Effects.NoSetsPermute | assets/js/GameState.js:72-75 | a reordering of a collection without `set` effects has none either |
| Effects.LastSetWins | assets/js/GameState.js:72-75 | a `set` effect followed by no other `set` decides the value, whatever the base and whatever additive or multiplicative effects surround it |
| Effects.MultStep | assets/js/GameState.js:460-472 | one multiplier never adds or removes an entry; an unscoped one scales every entry, a scoped one only its own resource's entry |
| Effects.AddPhaseSums | assets/js/GameState.js:454-457 | after the additive loop the entries are exactly the resources some additive effect names, each holding the sum of that resource's values |
| Effects.MultPhaseKeys | assets/js/GameState.js:460-472 | the multiplicative loop creates no entry and removes none |
| Effects.MultPhaseScales | assets/js/GameState.js:460-472 | after the multiplicative loop each entry is its value times every multiplier that applies to it |
| Effects.SetPhaseOverrides | assets/js/GameState.js:475-477 | after the `set` loop an entry holds the last `set` aimed at it, or else its previous value; a resource named by a `set` always has an entry |
| Effects.ProductionClosedForm | assets/js/GameState.js:436-480 | a resource has a production entry iff an additive or `set` effect names it; its value is the last `set` for it, or else its additive sum times the multipliers that apply to it |
| Effects.ProductionMap | assets/js/GameState.js:436-480 | the production map of a collected effect list, as the three phases build it (closed form: `ProductionClosedForm`; loops: `ReduceProduction`) |
| Effects.ReduceProduction | assets/js/GameState.js:451-479 | the three loops of `_getProduction` compute the production map of the collected effects |
| Effects.AddLoop | assets/js/GameState.js:454-457 | the additive loop, including its reset of a falsy entry to 0, builds the additive phase's map |
| Effects.MultLoop | assets/js/GameState.js:460-472 | the multiplicative loop, scoped or unscoped per effect, builds the multiplicative phase's map |
| Effects.SetLoop | assets/js/GameState.js:475-477 | the `set` loop overwrites one entry per effect, in order |
| Effects.ScaleAll | assets/js/GameState.js:468-470 | the `for...in` loop keeps the keys and scales every entry by the factor |
| Stage.Targeting | assets/js/GameState.js:338-342 | an effect is kept iff it is in the list and its `building` field names the building |
| Stage.FromOtherBuildingsMembers | assets/js/GameState.js:334-344 | step 2 collects an effect iff it names the building and comes from a different building whose count is nonzero |
| Stage.FromUpgradesMembers | assets/js/GameState.js:346-355 | step 3 collects an effect iff it names the building and comes from a purchased upgrade |
| Stage.AllEffectsForBuildingMembers | assets/js/GameState.js:325-358 | an effect is collected for building `k` iff it is one of `k`'s own, whatever `k`'s count, or it names `k` and comes from another building with nonzero count or a purchased upgrade |
| Stage.FromActiveBuildingsMembers | assets/js/GameState.js:368-373 | step 1 of action collection takes an effect iff it belongs to a building whose count is positive |
| Stage.FromPurchasedMembers | assets/js/GameState.js:375-380 | step 2 of action collection takes an effect iff it belongs to a purchased upgrade |
| Stage.AllActionEffectsMembers | assets/js/GameState.js:365-383 | action effects are exactly those of buildings with positive count and of purchased upgrades; the `building` field is not consulted |
| Stage.WithWaste | assets/js/GameState.js:408-412 | the change rate keeps every production entry, has a `waste` entry, and that entry is production's `waste` (0 when missing) plus the waste rate |
| Stage.ProductionEntry | assets/js/GameState.js:436-480 | a building's production of each resource in closed form, over the effects collected for it |
| Stage.ConditionMet | assets/js/GameState.js:244-249 | the condition loop accepts iff every required building is owned at least the required number of times, a missing building counting as 0 |
| Stage.Building.constructor | assets/js/GameState.js:394-403 | a new building has empty caches with both flags raised |
| Stage.Building.GetProduction | assets/js/GameState.js:436-480 | `_getProduction` returns the reduction of the effects collected for `production` |
| Stage.Building.GetWasteProduction | assets/js/GameState.js:482-515 | `_getWasteProduction` returns the scalar reduction from `wasteProduction` over the `wasteProduction` effects |
| Stage.Building.ProductionRate | assets/js/GameState.js:417-423 | the getter returns the current production map, leaves a valid cache holding it, and keeps the caches coherent; the waste cache is untouched |
| Stage.Building.WasteProductionRate | assets/js/GameState.js:428-434 | the getter returns the current waste rate, leaves a valid cache holding it (a cached 0 is recomputed, being falsy), and keeps the caches coherent |
| Stage.Building.ResourceChangeRate | assets/js/GameState.js:408-412 | the getter returns production plus waste as the building's change rate and keeps the caches coherent |
| Stage.CellStage.constructor | assets/js/GameState.js:309-317 | one fresh `Building` per building key, keyed by it, with both flags raised |
| Stage.CellStage.InvalidateCache | assets/js/GameState.js:385-390 | every building's two flags are raised and the cached values are kept |
| Economy.Clamp | assets/js/GameState.js:272 | the clamp is never negative, never above a non-negative maximum, keeps an in-range amount, and yields the amount, the maximum or 0 |
| Economy.BuildingStep | assets/js/GameState.js:25-31 | one building's step keeps the resource keys and every maximum |
| Economy.TickFrom | assets/js/GameState.js:14-34 | `tick(dt)` as a fold over the buildings in key order (its properties: `TickKeepsShape`, `TickKeepsRange`, `TickIsClampedTotal`, `SplitTickDiffers`) |
| Economy.AddRates | assets/js/GameState.js:225-228 | accumulating one building's rate gives entries for exactly the resources seen so far |
| Economy.TotalRate | assets/js/GameState.js:217-233 | `getTotalProductionRate()` as a fold over the buildings in key order (its method: `GameState.GetTotalProductionRate`; its sign: `TotalRateNonNegative`) |
| Economy.BuildingCost | assets/js/GameState.js:279-291 | the flat cost `defaultCost[r] × n` (its additivity: `BatchCost`) |
| Economy.Affordable | assets/js/GameState.js:293-301 | every cost resource exists and holds at least its cost (its method: `GameState.CanAfford`) |
| Economy.Deduct | assets/js/GameState.js:164-166 | the deduction lowers exactly the cost resources by their cost, leaves every other resource as it was, and leaves no cost resource below 0 |
| Economy.BuildingUnlocked | assets/js/GameState.js:240-250 | true iff the building is unknown, or every required building is owned at least the required number of times (missing counts as 0); no condition means unlocked |
| Economy.UpgradeUnlocked | assets/js/GameState.js:257-267 | the same reading of the condition for an upgrade |
| Economy.ActionTarget | assets/js/GameState.js:79-95 | the resource an action credits: `nutrients` for `nutrientAbsorption`, else the first effect's resource when it is a non-empty name, else the action name (its method: `GameState.PerformAction`) |
| Economy.TickKeepsShape | assets/js/GameState.js:14-34 | a tick neither adds nor removes resources and never changes a maximum |
| Economy.TickKeepsRange | assets/js/GameState.js:14-34 | amounts that start in `[0, max]` stay there through a tick |
| Economy.TickWithoutTime | assets/js/GameState.js:14-34 | a tick over no elapsed time leaves an in-range table unchanged |
| Economy.StepWithoutTime | assets/js/GameState.js:25-31 | one building's step over no elapsed time leaves an in-range table unchanged |
| Economy.TotalRateNonNegative | assets/js/GameState.js:217-233 | when no running building has a negative rate for a resource, its total production rate is non-negative |
| Economy.TickIsClampedTotal | assets/js/GameState.js:14-34 | when no running building drains a resource, a tick leaves it at its amount plus the total production rate of `getTotalProductionRate` (lines 217-233) times `dt`, clamped once |
| Economy.StepIsClampedTotal | assets/js/GameState.js:25-31 | the inductive step of the previous row for one building |
| Economy.ClampingIsPerBuilding | assets/js/GameState.js:20-33 | clamping after each building differs from clamping the sum: a drain of 5 then a gain of 5 from empty leaves 5, not 0 |
| Economy.SingleAdditiveRate | assets/js/GameState.js:408-480 | a building whose only collected production effect adds `v` to a resource changes that resource at rate `v` |
| Economy.DrainFeedEffects | assets/js/GameState.js:325-358 | in the two-building example each building collects only its own production effect |
| Economy.DrainFeedRates | assets/js/GameState.js:408-480 | in the two-building example "drain" changes atp at -5 per second and "feed" at +5 |
| Economy.SingleStep | assets/js/GameState.js:25-31 | one building with one copy moves a lone resource by rate times `dt`, clamped |
| Economy.SingleTickStep | assets/js/GameState.js:21-32 | the step of a building with one copy moves a lone resource by its rate times `dt`, clamped |
| Economy.TickTwo | assets/js/GameState.js:19-33 | a tick over two buildings is the first building's step followed by the second's |
| Economy.PairTick | assets/js/GameState.js:14-34 | a tick over two buildings clamps the first building's change before adding the second's |
| Economy.SplitTickDiffers | assets/js/GameState.js:14-34 | two one-second ticks of the example leave atp at 5, where one two-second tick leaves 10 |
| Economy.ComposeChanges | assets/js/GameState.js:270-277 | with a non-negative rate, clamped changes over `a` and then `b` seconds equal one over `a + b` |
| Economy.SplitTicksCompose | assets/js/GameState.js:14-34 | when no running building drains a resource, `tick(a)` then `tick(b)` leaves it where `tick(a + b)` does |
| Economy.TickSummed | assets/js/GameState.js:14-34 | the summed tick keeps the resource keys |
| Economy.ClampSameDirection | assets/js/GameState.js:270-277 | two changes of the same sign clamp as their sum does |
| Economy.SummedTicksCompose | assets/js/GameState.js:14-34 | the summed tick keeps amounts in `[0, max]` and `tick(a)` then `tick(b)` equals `tick(a + b)` for every table |
| Economy.TickMatchesSummed | assets/js/GameState.js:14-34 | when no running building drains a resource, the tick as written and the summed tick agree on it |
| Economy.BatchCost | assets/js/GameState.js:279-291 | the cost is flat: buying `n1 + n2` at once costs what `n1` and `n2` cost, whatever is already owned |
| Economy.BuyingKeepsRange | assets/js/GameState.js:158-166 | an affordable purchase of a non-negative number with non-negative costs keeps every amount in `[0, max]` |
| Economy.ActionKeepsRange | assets/js/GameState.js:79-95 | an action's clamped change keeps every amount in `[0, max]`, whatever the value's sign |
| Economy.DeductKeepsRange | assets/js/GameState.js:190-192 | paying an affordable upgrade cost with no negative entry keeps every amount in `[0, max]` |
| Economy.NegativeCostExceedsMax | assets/js/GameState.js:164-166 | the deduction does not clamp: a cost of -5 on a full store of 10 leaves 15 |
| Economy.PurchaseIgnoresUnlock | assets/js/GameState.js:148-161 | a building whose unlock condition is unmet can still be bought |
| Economy.PurchaseKeepsUnlocks | assets/js/GameState.js:240-267 | buying a non-negative number of buildings never locks anything that was unlocked |
| Economy.GameState.constructor | assets/js/GameState.js:5-9 | the object holds the given table, its `CellStage` matches the table, and the caches start coherent |
| Economy.GameState.ApplyResourceChange | assets/js/GameState.js:270-277 | only the resource's amount changes, to the clamped sum; `capped` iff the sum exceeds the maximum, `depleted` iff it is below 0 |
| Economy.GameState.ApplyBuildingRate | assets/js/GameState.js:25-31 | the inner loop of `tick` performs one building's step, skipping resources the table lacks |
| Economy.GameState.RateOf | assets/js/GameState.js:22-23 | the building object's `resourceChangeRate` is the building's change rate over the current table, and the caches stay coherent |
| Economy.GameState.TickBuilding | assets/js/GameState.js:21-32 | a building with count > 0 applies its step, and any other building changes nothing |
| Economy.GameState.Tick | assets/js/GameState.js:14-34 | `tick(dt)` applies each building's step in key order; the table of buildings and upgrades is unchanged and the caches stay coherent |
| Economy.GameState.GetBuildingProductionRate | assets/js/GameState.js:208-211 | the building's current production map, or an empty map for an unknown key |
| Economy.GameState.TotalBuilding | assets/js/GameState.js:221-229 | one iteration of the totals loop adds the rate times the count of a building with count > 0 |
| Economy.GameState.GetTotalProductionRate | assets/js/GameState.js:217-233 | the unclamped sum over running buildings of rate times count, in key order |
| Economy.AccumulateRate | assets/js/GameState.js:225-228 | the inner loop creates missing totals at 0 and adds rate times count to each |
| Economy.GameState.GetActionValue | assets/js/GameState.js:105-140 | the scalar reduction of the collected action effects from 0 |
| Economy.GameState.PerformAction | assets/js/GameState.js:41-98 | the action value is applied, clamped, to `nutrients` for `nutrientAbsorption` and otherwise to the first effect's resource or the action name; the result records it; with that resource absent nothing changes and the result is empty |
| Economy.GameState.CalculateBuildingCost | assets/js/GameState.js:279-291 | the cost is `defaultCost[r] × n` for every resource of the default cost, whatever the current count |
| Economy.GameState.CanAfford | assets/js/GameState.js:293-301 | true iff every cost resource exists and holds at least its cost |
| Economy.GameState.DeductCost | assets/js/GameState.js:164-166 | the resources after the deduction loop are those of the deduction |
| Economy.GameState.BuyBuilding | assets/js/GameState.js:148-175 | succeeds iff the key is known, it is not a single-purchase building already owned, and the cost is affordable; the unlock is not checked; on success the cost is deducted, the count is raised by `n` and the caches are invalidated; on refusal nothing changes |
| Economy.GameState.BuyUpgrade | assets/js/GameState.js:182-201 | succeeds iff the upgrade is known, not purchased and affordable; on success the cost is deducted and it is marked purchased; on refusal nothing changes; afterwards a second call is refused |
| Economy.GameState.CompletePurchase | assets/js/GameState.js:164-174 | deducting, updating the table and invalidating every cache keeps the caches coherent |
| Resolver.MatchesItself | node-test.ts:106 | every path matches itself |
| Resolver.MatchesCharacterised | node-test.ts:105-111 | distinct paths match iff the pattern ends in `.*` and the target starts with the pattern minus those two characters |
| Resolver.WildcardCrossesSegments | node-test.ts:107-109 | there is no dot boundary: `production.*` matches `productionX`, and distinct exact paths do not match |
| Resolver.Matches | node-test.ts:105-111 | `matches`: equal paths, or a `.*` pattern whose stem starts the target (characterised by `MatchesItself` and `MatchesCharacterised`) |
| Resolver.BuildingModifiersEntries | node-test.ts:58-66 | one building yields one `add` modifier at priority 0 per production entry, in entry order, worth the entry's value times the count |
| Resolver.EmittedForMembers | node-test.ts:54-66 | a building's modifiers are exactly those emitted for its definition's entries, and only when it is known with a positive count |
| Resolver.BaseModifiersMembers | node-test.ts:51-70 | the base modifiers are exactly the ones emitted for known buildings with count > 0, one per resource of the definition; unknown ids and counts ≤ 0 contribute nothing |
| Resolver.GetBaseModifiers | node-test.ts:51-70 | the nested loops push exactly the base modifiers, in order |
| Resolver.ApplicableMembers | node-test.ts:115-116 | a modifier survives the two filters iff its path matches and its condition is absent or holds |
| Resolver.Applicable | node-test.ts:115-116 | the two filters of `resolve`, keeping list order (members: `ApplicableMembers`) |
| Resolver.InsertPermutes | node-test.ts:117 | one insertion step adds exactly the inserted modifier |
| Resolver.InsertSorted | node-test.ts:117 | one insertion step keeps a list in priority order |
| Resolver.InsertKeepsPriorityOrder | node-test.ts:117 | one insertion step appends the inserted modifier to those of its priority and keeps their order |
| Resolver.SortByPriorityCorrect | node-test.ts:117 | the sort orders by non-decreasing priority, is a permutation, and is stable |
| Resolver.SortByPriority | node-test.ts:117 | the stable sort by priority, as insertion sort (its properties: `SortByPriorityCorrect`, `SortedStaysPut`) |
| Resolver.SortedStaysPut | node-test.ts:117 | a list already in priority order is left as it is |
| Resolver.FoldConcat | node-test.ts:119-133 | folding two lists is folding the second from the result of the first |
| Resolver.Fold | node-test.ts:119-133 | the add/mul/set loop as a fold (its loop: `ApplyModifiers`; its laws: `FoldConcat`, `SetDiscardsEarlier`) |
| Resolver.SetDiscardsEarlier | node-test.ts:129-131 | a `set` discards everything applied before it, and everything after it still applies |
| Resolver.Round3 | node-test.ts:135 | rounding to three decimals moves the value by at most 0.0005 |
| Resolver.PipelineCorrect | node-test.ts:113-117 | the modifiers applied are exactly the matching ones whose condition holds, in non-decreasing priority, with list order kept within a priority, so base modifiers precede static ones of the same priority |
| Resolver.Resolve | node-test.ts:113-136 | `resolve`: the rounded fold of the pipeline (its method: `ResolvePath`) |
| Resolver.NothingApplicableResolvesZero | node-test.ts:113-136 | a path no modifier applies to resolves to 0 |
| Resolver.ApplyModifiers | node-test.ts:119-133 | the `for` loop computes the fold from 0 |
| Resolver.ResolvePath | node-test.ts:113-136 | `resolve` is the rounded fold of the pipeline |
| Resolver.DemoBase | node-test.ts:38-70 | two mitochondria yield `add` 8 on the ATP path and `add` -2 on the nutrients path |
| Resolver.DemoPipeline | node-test.ts:76-117 | for the ATP path, the applied modifiers are the base 8, then ×1.2 and ×1.1, then ×0.5 only at waste ≥ 50 |
| Resolver.DemoResolves | node-test.ts:76-99 | the ATP path resolves to 5.28 when waste ≥ 50, and to 10.56 otherwise |
| Resolver.MitochondrionDemo | node-test.ts:142-153 | 10.56 at waste 10 and 5.28 at waste 80 |
| Resources.Id | assets/js/resources.js:6 | the id is the layer, a dot, then the key |
| Resources.LayerPairs | assets/js/resources.js:5-8 | one layer yields one `(id, definition)` pair per entry, in order |
| Resources.FlattenDefs | assets/js/resources.js:1-12 | the nested loops build, in a fresh map, the table of every visited pair |
| Resources.Flatten | assets/js/resources.js:1-12 | the flattened table as a function of the layers (its keys, values and size: `FlattenKeys`, `FlattenValue`, `FlattenSize`) |
| Resources.FromPairsKeys | assets/js/resources.js:5-8 | the table holds exactly the ids of the visited pairs |
| Resources.FromPairsLastWins | assets/js/resources.js:6-7 | an id maps to the definition of the last pair that carries it |
| Resources.FromPairsSize | assets/js/resources.js:4-11 | the table has at most as many entries as pairs, and exactly as many when the ids are distinct |
| Resources.PairsCount | assets/js/resources.js:4-8 | one pair is visited per definition |
| Resources.PairsPosition | assets/js/resources.js:4-8 | definition `j` of layer `i` is visited at a known position |
| Resources.PairsOrigin | assets/js/resources.js:4-8 | every visited pair comes from some definition of some layer |
| Resources.FlattenKeys | assets/js/resources.js:4-9 | an id is in the result iff it is `layer.key` for some definition of the input |
| Resources.FlattenValue | assets/js/resources.js:4-8 | a definition whose id no later definition shares is in the result under its id |
| Resources.FlattenSize | assets/js/resources.js:4-11 | the result has at most as many entries as there are definitions, and exactly as many when ids are distinct |
| Resources.CollidingIds | assets/js/resources.js:6-7 | two definitions with the same id leave one entry, holding the later one |
| Resources.DottedNamesCollide | assets/js/resources.js:6-7 | layer `a.b` key `c` and layer `a` key `b.c` collide on `a.b.c`, and the later wins |
| Resources.ResourcesEmpty | assets/js/resources.js:14-20 | `RESOURCES` is empty |
| Workers.DefaultPool | script.js:61 | the pool found is a listed pool marked default; none is found iff no listed pool is marked default |
| Workers.DefaultPoolFirst | script.js:61 | a default pool with no default pool listed before it is the one found |
| Workers.Assigned | script.js:58-67 | `assignWorker` never adds or removes a pool |
| Workers.Moved | script.js:64-65 | moving workers never adds or removes a pool |
| Workers.HeadcountUpdate | script.js:58-67 | changing one listed pool changes the headcount by the change of its count |
| Workers.MovedKeepsHeadcount | script.js:64-65 | moving `n` workers between two listed pools keeps the headcount |
| Workers.AssignKeepsHeadcount | script.js:58-67 | `assignWorker` preserves the sum of all worker counts |
| Workers.AssignMoves | script.js:61-66 | nothing changes without a default pool holding a positive count or for an unknown job; otherwise the default pool loses `n`, the job gains `n`, and every other pool is untouched |
| Workers.OverAssignment | script.js:63-64 | the guard checks only a positive count: one unemployed worker assigned 3 to the farm leaves -2 |
| Workers.OutputAdds | script.js:88-90 | what workers produce is linear in the elapsed time |
| Workers.OutputNonNegative | script.js:88-90 | a non-negative count over non-negative time produces a non-negative amount |
| Workers.Produced | script.js:82-91 | the resources after `gameTick(dt)` (their laws: `TicksCompose`, `TickOnlyGrows`) |
| Workers.TicksCompose | script.js:82-91 | with no cap, ticks of `a` and `b` seconds equal one tick of `a + b` |
| Workers.TickOnlyGrows | script.js:88-90 | with non-negative counts and time, a tick never lowers a resource, keeps the keys, and touches only food, stone and wood |
| Workers.DistinctWorkerOrder | script.js:14-35 | the initial worker pools are listed once each |
| Workers.Game.constructor | script.js:1-38 | the initial record: no money, zero resources, buildings and workers, speed 1 |
| Workers.Game.AddMoney | script.js:41-43 | only `money` changes, by `amount` |
| Workers.Game.AddResource | script.js:44-48 | a known resource grows by `amount`; an unknown type changes nothing |
| Workers.Game.AddBuilding | script.js:49-53 | a known building grows by 1; an unknown type changes nothing |
| Workers.Game.AddWorker | script.js:54-56 | only the `unassigned` pool grows, by `n` |
| Workers.Game.FindDefaultPool | script.js:61 | the `find` returns the first listed pool marked default, if any |
| Workers.Game.Move | script.js:64-65 | the two count updates move `n` from one pool to the other |
| Workers.Game.AssignWorker | script.js:58-67 | the pools become those of `assignWorker`, and the record keeps its shape |
| Workers.Game.SetGameSpeed | script.js:78-80 | the speed is stored as given |
| Workers.Game.GameTick | script.js:82-91 | food, stone and wood rise by the farm, quarry and lumberMill worker counts times `dt`; nothing else changes and nothing is capped |
| Workers.Game.OnInterval | script.js:135-140 | the interval callback ticks only at game speed exactly 1 |

## Left out

- Wall-clock time. `Date.now()` and `lastTick` are not modelled: `tick` and `gameTick` take the
  elapsed seconds `dt` as a parameter (assets/js/GameState.js:15-17, script.js:36, 83-85).
- Floating point. Numbers are exact reals, so IEEE rounding is not modelled. `Number(value.toFixed(3))`
  is modelled as exact rounding to the nearest thousandth, with halves rounded away from zero.
- `_deepClone`: the constructor takes the table as a value, which is what the JSON round trip yields
  for plain data.
- Aliasing. In the source, `CellStage` and each `Building` hold references to the same `data` table.
  The model passes the table's current value to them instead.
- `typeof resource.amount === 'number'` in `tick`: amounts are always numbers in the model, so the
  only skipped resources are missing ones.
- Truthiness of numbers read from the table:
  - `wasteProduction || 0` is modelled as a real that defaults to 0, so a `NaN` default is not
    modelled.
  - Counts are integers, so fractional counts are not modelled.
- Object keys:
  - JavaScript lists integer-like keys before the others. The model takes key order as given.
  - Keys inherited from `Object.prototype` are not modelled; examples are `toString`, and
    `__proto__` in `flattenDefs`. Lookups such as `gameState.resources[type] !== undefined`,
    `gameState.workers[type]` and `BUILDING_DEFS[id]` therefore see only the record's own keys.
- Condition closures. In node-test.ts the only condition used is `waste >= 50`; conditions are
  modelled as `WasteAtLeast(threshold)` over a state holding the waste amount and the building
  counts.
- Output and the browser. Console output, DOM rendering (`render`), `window` exports and the
  `setInterval` scheduling are not modelled; `Workers.Game.OnInterval` is the callback's body.
  (script.js:69-148, node-test.ts:152-153.)
- Default arguments. `buyBuilding(key, count = 1)` (assets/js/GameState.js:148), `addWorker(n = 1)`
  and `assignWorker(type, n = 1)` (script.js:54, 58) are modelled with the count always passed, so a
  call that omits it is the call with 1.
- Missing cost tables. `Object.entries(undefined)` throws a `TypeError` when a building has no
  `defaultCost` (assets/js/GameState.js:286) or an upgrade has no `cost` (assets/js/GameState.js:190).
  In the model `BuildingDef.defaultCost` and `UpgradeDef.cost` are mandatory maps, so that exception
  path does not exist.
- Other files. `assets/js/TestCase.js` (a console test runner), `assets/testing/testing.js` (save-file
  analysis through `fs`), and the `STAGE PLANNING`, `AI TESTS` and `ts` directories are not part of
  this model.

## Findings

| source | as written | input that shows it | evidently intended | confidence | as-written member | corrected member |
|---|---|---|---|---|---|---|
| assets/js/GameState.js:20-33 | `tick` clamps each building's change to `[0, max]` as soon as it is applied, so a drain clamped at 0 loses what a later building adds back, and splitting a tick changes the result | atp at 0 of max 10; building "drain" at -5 per second, then "feed" at +5, one copy each: two ticks of 1 second leave 5, one tick of 2 seconds leaves 10 | each resource moves by the sum of every building's change and is clamped once, so that `tick(a)` then `tick(b)` equals `tick(a + b)` | not executed | Economy.SplitTickDiffers | Economy.SummedTicksCompose |

The engine's design describes the tick as summing every building's contribution and clamping once,
and asks that two ticks with no purchase between them agree with one tick over their total time.
`Economy.TickSummed` is that tick, and `Economy.SummedTicksCompose` proves the agreement for every
table. The tick as written agrees with it on every resource no running building drains
(`Economy.TickMatchesSummed`, `Economy.SplitTicksCompose`). `Economy.GameState.Tick` keeps the
per-building clamp, because it models the code.
