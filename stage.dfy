/** The Cell Stage table (buildings and upgrades), the effect collection of `CellStage`, and the
    `Building` objects with their cached production and waste rates (assets/js/GameState.js). */
module Stage {
  import opened Wrappers
  import opened Effects

  /** A resource entry `{amount, max}` of the table. */
  datatype Resource = Resource(amount: real, max: real)

  /** A building entry. `effects` maps an effect type ("production", "wasteProduction", an action name)
      to its list; a missing `unlockCondition` is the empty list of `[requiredBuilding, requiredCount]`
      entries and a missing `wasteProduction` is 0. */
  datatype BuildingDef = BuildingDef(
    count: int,
    singlePurchase: bool,
    defaultCost: map<string, real>,
    effects: map<string, seq<Effect>>,
    unlockCondition: seq<(string, int)>,
    wasteProduction: real)

  /** An upgrade entry. */
  datatype UpgradeDef = UpgradeDef(
    purchased: bool,
    cost: map<string, real>,
    effects: map<string, seq<Effect>>,
    unlockCondition: seq<(string, int)>)

  /** The buildings and upgrades of the table, each with its key order: `Object.entries` visits the keys
      in insertion order, and that order decides the order effects are collected in and the order
      `tick` applies buildings in. */
  datatype Holdings = Holdings(
    buildingOrder: seq<string>,
    buildings: map<string, BuildingDef>,
    upgradeOrder: seq<string>,
    upgrades: map<string, UpgradeDef>)
  {
    /** Each order lists its table's keys exactly once. */
    ghost predicate WellFormed() {
      (forall i, j :: 0 <= i < j < |buildingOrder| ==> buildingOrder[i] != buildingOrder[j]) &&
      (forall k :: k in buildings <==> k in buildingOrder) &&
      (forall i, j :: 0 <= i < j < |upgradeOrder| ==> upgradeOrder[i] != upgradeOrder[j]) &&
      (forall k :: k in upgrades <==> k in upgradeOrder)
    }
  }

  /** `obj.effects && obj.effects[type]`: the list, or nothing when either is missing. */
  function EffectsOf(effects: map<string, seq<Effect>>, effectType: string): seq<Effect> {
    if effectType in effects then effects[effectType] else []
  }

  /** The effects whose `building` field names `key`, in order. */
  function Targeting(effs: seq<Effect>, key: string): (r: seq<Effect>)
    ensures forall e :: e in r <==> e in effs && e.building == Some(key)
  {
    if effs == [] then []
    else
      var last := effs[|effs| - 1];
      assert effs == effs[..|effs| - 1] + [last];
      Targeting(effs[..|effs| - 1], key) + (if last.building == Some(key) then [last] else [])
  }

  // ---------------------------------------------------------------------------
  // CellStage: effect collection
  // ---------------------------------------------------------------------------

  /** Step 2 of `getAllEffectsForBuilding` over the buildings in `order`: every other building whose
      count is truthy (nonzero) contributes its effects aimed at `key`. */
  function FromOtherBuildings(h: Holdings, order: seq<string>, key: string, effectType: string): seq<Effect>
    requires forall k :: k in order ==> k in h.buildings
  {
    if order == [] then []
    else
      var prev := FromOtherBuildings(h, order[..|order| - 1], key, effectType);
      var other := order[|order| - 1];
      if other != key && h.buildings[other].count != 0
      then prev + Targeting(EffectsOf(h.buildings[other].effects, effectType), key)
      else prev
  }

  /** Step 3 of `getAllEffectsForBuilding`: every purchased upgrade contributes its effects aimed at `key`. */
  function FromUpgrades(h: Holdings, order: seq<string>, key: string, effectType: string): seq<Effect>
    requires forall u :: u in order ==> u in h.upgrades
  {
    if order == [] then []
    else
      var prev := FromUpgrades(h, order[..|order| - 1], key, effectType);
      var u := order[|order| - 1];
      if h.upgrades[u].purchased
      then prev + Targeting(EffectsOf(h.upgrades[u].effects, effectType), key)
      else prev
  }

  /** `CellStage.getAllEffectsForBuilding`: the building's own effects, then those of other owned
      buildings, then those of purchased upgrades. */
  function AllEffectsForBuilding(h: Holdings, key: string, effectType: string): seq<Effect>
    requires h.WellFormed() && key in h.buildings
  {
    EffectsOf(h.buildings[key].effects, effectType)
    + FromOtherBuildings(h, h.buildingOrder, key, effectType)
    + FromUpgrades(h, h.upgradeOrder, key, effectType)
  }

  /** Step 1 of `getAllActionEffects`: every building with count > 0 contributes all its effects of the type. */
  function FromActiveBuildings(h: Holdings, order: seq<string>, actionType: string): seq<Effect>
    requires forall k :: k in order ==> k in h.buildings
  {
    if order == [] then []
    else
      var prev := FromActiveBuildings(h, order[..|order| - 1], actionType);
      var k := order[|order| - 1];
      if h.buildings[k].count > 0 then prev + EffectsOf(h.buildings[k].effects, actionType) else prev
  }

  /** Step 2 of `getAllActionEffects`: every purchased upgrade contributes all its effects of the type. */
  function FromPurchased(h: Holdings, order: seq<string>, actionType: string): seq<Effect>
    requires forall u :: u in order ==> u in h.upgrades
  {
    if order == [] then []
    else
      var prev := FromPurchased(h, order[..|order| - 1], actionType);
      var u := order[|order| - 1];
      if h.upgrades[u].purchased then prev + EffectsOf(h.upgrades[u].effects, actionType) else prev
  }

  /** `CellStage.getAllActionEffects`. */
  function AllActionEffects(h: Holdings, actionType: string): seq<Effect>
    requires h.WellFormed()
  {
    FromActiveBuildings(h, h.buildingOrder, actionType) + FromPurchased(h, h.upgradeOrder, actionType)
  }

  lemma {:induction false} FromOtherBuildingsMembers(h: Holdings, order: seq<string>, key: string, effectType: string, e: Effect)
    requires forall k :: k in order ==> k in h.buildings
    ensures e in FromOtherBuildings(h, order, key, effectType) <==>
      e.building == Some(key) &&
      exists o :: o in order && o != key && h.buildings[o].count != 0 && e in EffectsOf(h.buildings[o].effects, effectType)
    decreases |order|
  {
    if order != [] {
      var prefix := order[..|order| - 1];
      var o := order[|order| - 1];
      assert order == prefix + [o];
      FromOtherBuildingsMembers(h, prefix, key, effectType, e);
    }
  }

  lemma {:induction false} FromUpgradesMembers(h: Holdings, order: seq<string>, key: string, effectType: string, e: Effect)
    requires forall u :: u in order ==> u in h.upgrades
    ensures e in FromUpgrades(h, order, key, effectType) <==>
      e.building == Some(key) &&
      exists u :: u in order && h.upgrades[u].purchased && e in EffectsOf(h.upgrades[u].effects, effectType)
    decreases |order|
  {
    if order != [] {
      var prefix := order[..|order| - 1];
      var u := order[|order| - 1];
      assert order == prefix + [u];
      FromUpgradesMembers(h, prefix, key, effectType, e);
    }
  }

  /** What `getAllEffectsForBuilding(key, type)` collects: the building's own effects of that type
      whatever its count, the effects of another building only when that building's count is nonzero
      and the effect names `key` in its `building` field, and the effects of an upgrade only when it is
      purchased and the effect names `key`. */
  lemma AllEffectsForBuildingMembers(h: Holdings, key: string, effectType: string, e: Effect)
    requires h.WellFormed() && key in h.buildings
    ensures e in AllEffectsForBuilding(h, key, effectType) <==>
      e in EffectsOf(h.buildings[key].effects, effectType) ||
      (e.building == Some(key) &&
       ((exists o :: o in h.buildings && o != key && h.buildings[o].count != 0 && e in EffectsOf(h.buildings[o].effects, effectType)) ||
        (exists u :: u in h.upgrades && h.upgrades[u].purchased && e in EffectsOf(h.upgrades[u].effects, effectType))))
  {
    FromOtherBuildingsMembers(h, h.buildingOrder, key, effectType, e);
    FromUpgradesMembers(h, h.upgradeOrder, key, effectType, e);
  }

  lemma {:induction false} FromActiveBuildingsMembers(h: Holdings, order: seq<string>, actionType: string, e: Effect)
    requires forall k :: k in order ==> k in h.buildings
    ensures e in FromActiveBuildings(h, order, actionType) <==>
      exists k :: k in order && h.buildings[k].count > 0 && e in EffectsOf(h.buildings[k].effects, actionType)
    decreases |order|
  {
    if order != [] {
      var prefix := order[..|order| - 1];
      var k := order[|order| - 1];
      assert order == prefix + [k];
      FromActiveBuildingsMembers(h, prefix, actionType, e);
    }
  }

  lemma {:induction false} FromPurchasedMembers(h: Holdings, order: seq<string>, actionType: string, e: Effect)
    requires forall u :: u in order ==> u in h.upgrades
    ensures e in FromPurchased(h, order, actionType) <==>
      exists u :: u in order && h.upgrades[u].purchased && e in EffectsOf(h.upgrades[u].effects, actionType)
    decreases |order|
  {
    if order != [] {
      var prefix := order[..|order| - 1];
      var u := order[|order| - 1];
      assert order == prefix + [u];
      FromPurchasedMembers(h, prefix, actionType, e);
    }
  }

  /** What `getAllActionEffects(type)` collects: every effect of that type of a building whose count is
      positive or of a purchased upgrade, and nothing else; the action effects ignore the `building` field. */
  lemma AllActionEffectsMembers(h: Holdings, actionType: string, e: Effect)
    requires h.WellFormed()
    ensures e in AllActionEffects(h, actionType) <==>
      (exists k :: k in h.buildings && h.buildings[k].count > 0 && e in EffectsOf(h.buildings[k].effects, actionType)) ||
      (exists u :: u in h.upgrades && h.upgrades[u].purchased && e in EffectsOf(h.upgrades[u].effects, actionType))
  {
    FromActiveBuildingsMembers(h, h.buildingOrder, actionType, e);
    FromPurchasedMembers(h, h.upgradeOrder, actionType, e);
  }

  // ---------------------------------------------------------------------------
  // Building rates
  // ---------------------------------------------------------------------------

  /** `Building._getProduction`: the production map of building `key`. */
  function Production(h: Holdings, key: string): map<string, real>
    requires h.WellFormed() && key in h.buildings
  {
    ProductionMap(AllEffectsForBuilding(h, key, "production"))
  }

  /** `Building._getWasteProduction`: the waste rate of building `key`, starting from `data.wasteProduction || 0`. */
  function WasteRate(h: Holdings, key: string): real
    requires h.WellFormed() && key in h.buildings
  {
    ScalarReduce(h.buildings[key].wasteProduction, AllEffectsForBuilding(h, key, "wasteProduction"))
  }

  /** `Building.resourceChangeRate`: a copy of the production map whose `waste` entry is
      `(rate.waste || 0)` plus the waste rate. */
  function ChangeRate(h: Holdings, key: string): map<string, real>
    requires h.WellFormed() && key in h.buildings
  {
    WithWaste(Production(h, key), WasteRate(h, key))
  }

  /** `rate = {...production}; rate.waste = (rate.waste || 0) + waste`: the production entries are
      kept, and `waste` is present and raised by `waste`. */
  function WithWaste(production: map<string, real>, waste: real): (rate: map<string, real>)
    ensures rate.Keys == production.Keys + {"waste"}
    ensures forall r :: r in rate && r != "waste" ==> rate[r] == production[r]
    ensures rate["waste"] == OrZero(production, "waste") + waste
  {
    production["waste" := OrZero(production, "waste") + waste]
  }

  /** `m[k] || 0` on a map of numbers: a missing entry reads as 0. */
  function OrZero(m: map<string, real>, k: string): real {
    if k in m then m[k] else 0.0
  }

  /** A building's production rate of resource `r` in closed form (see `Effects.ProductionClosedForm`). */
  lemma ProductionEntry(h: Holdings, key: string, r: string)
    requires h.WellFormed() && key in h.buildings
    ensures var effs := AllEffectsForBuilding(h, key, "production");
      var adds, mults, sets := OfKind(effs, Additive), OfKind(effs, Multiplicative), OfKind(effs, SetValue);
      (r in Production(h, key) <==> r in AddKeys(adds) || LastSetFor(sets, r).Some?) &&
      (r in Production(h, key) ==>
        Production(h, key)[r] == LastSetFor(sets, r).GetOr(Scaled(SumFor(adds, r), ProductFor(mults, r))))
  {
    ProductionClosedForm(AllEffectsForBuilding(h, key, "production"), r);
  }

  // ---------------------------------------------------------------------------
  // Unlock conditions
  // ---------------------------------------------------------------------------

  /** `this.data.buildings[r]?.count || 0`. */
  function OwnedCount(h: Holdings, r: string): int {
    if r in h.buildings then h.buildings[r].count else 0
  }

  /** The loop of `isBuildingUnlocked` / `isUpgradeUnlocked` over the condition's entries, returning
      false at the first building owned fewer times than required. */
  function ConditionMet(h: Holdings, cond: seq<(string, int)>): (b: bool)
    ensures b <==> forall i :: 0 <= i < |cond| ==> OwnedCount(h, cond[i].0) >= cond[i].1
  {
    if cond == [] then true
    else if OwnedCount(h, cond[0].0) < cond[0].1 then false
    else ConditionMet(h, cond[1..])
  }

  // ---------------------------------------------------------------------------
  // Building objects with their caches
  // ---------------------------------------------------------------------------

  /** A `Building` object: its key and the two caches with their invalidation flags. Its data and its
      `CellStage` are read through the table, which the caller passes in as `h`. */
  class Building {
    const key: string
    var productionCache: Option<map<string, real>>
    var productionCacheInvalid: bool
    var wasteCache: Option<real>
    var wasteCacheInvalid: bool

    constructor(key: string)
      ensures this.key == key
      ensures productionCache == None && productionCacheInvalid
      ensures wasteCache == None && wasteCacheInvalid
    {
      this.key := key;
      productionCache := None;
      productionCacheInvalid := true;
      wasteCache := None;
      wasteCacheInvalid := true;
    }

    /** A cache that a getter would return without recomputing holds what a fresh computation gives.
        The production cache is reused when it is valid and present (an empty object is truthy); the
        waste cache only when it is valid and nonzero, since 0 is falsy. */
    ghost predicate Coherent(h: Holdings)
      reads this
    {
      h.WellFormed() && key in h.buildings &&
      (!productionCacheInvalid && productionCache.Some? ==> productionCache.value == Production(h, key)) &&
      (!wasteCacheInvalid && wasteCache.Some? && wasteCache.value != 0.0 ==> wasteCache.value == WasteRate(h, key))
    }

    /** `_getProduction`. */
    method GetProduction(h: Holdings) returns (rate: map<string, real>)
      requires h.WellFormed() && key in h.buildings
      ensures rate == Production(h, key)
    {
      var effs := AllEffectsForBuilding(h, key, "production");
      rate := ReduceProduction(effs);
    }

    /** `_getWasteProduction`. */
    method GetWasteProduction(h: Holdings) returns (rate: real)
      requires h.WellFormed() && key in h.buildings
      ensures rate == WasteRate(h, key)
    {
      var effs := AllEffectsForBuilding(h, key, "wasteProduction");
      rate := Reduce(h.buildings[key].wasteProduction, effs);
    }

    /** The `productionRate` getter. */
    method ProductionRate(h: Holdings) returns (rate: map<string, real>)
      requires Coherent(h)
      modifies this
      ensures Coherent(h)
      ensures rate == Production(h, key)
      ensures productionCache == Some(rate) && !productionCacheInvalid
      ensures wasteCache == old(wasteCache) && wasteCacheInvalid == old(wasteCacheInvalid)
    {
      if productionCacheInvalid || productionCache.None? {
        var computed := GetProduction(h);
        productionCache := Some(computed);
        productionCacheInvalid := false;
      }
      rate := productionCache.value;
    }

    /** The `wasteProductionRate` getter. */
    method WasteProductionRate(h: Holdings) returns (rate: real)
      requires Coherent(h)
      modifies this
      ensures Coherent(h)
      ensures rate == WasteRate(h, key)
      ensures wasteCache == Some(rate) && !wasteCacheInvalid
      ensures productionCache == old(productionCache) && productionCacheInvalid == old(productionCacheInvalid)
    {
      if wasteCacheInvalid || wasteCache.None? || wasteCache.value == 0.0 {
        var computed := GetWasteProduction(h);
        wasteCache := Some(computed);
        wasteCacheInvalid := false;
      }
      rate := wasteCache.value;
    }

    /** The `resourceChangeRate` getter. */
    method ResourceChangeRate(h: Holdings) returns (rate: map<string, real>)
      requires Coherent(h)
      modifies this
      ensures Coherent(h)
      ensures rate == ChangeRate(h, key)
    {
      var production := ProductionRate(h);
      var waste := WasteProductionRate(h);
      rate := WithWaste(production, waste);
    }
  }

  /** The `CellStage` object: one `Building` per building key of the table. */
  class CellStage {
    const buildings: map<string, Building>

    constructor(h: Holdings)
      requires h.WellFormed()
      ensures buildings.Keys == h.buildings.Keys
      ensures forall k :: k in buildings ==> fresh(buildings[k])
      ensures forall k :: k in buildings ==>
        buildings[k].key == k && buildings[k].productionCacheInvalid && buildings[k].wasteCacheInvalid
    {
      var made: map<string, Building> := map[];
      var i := 0;
      while i < |h.buildingOrder|
        invariant 0 <= i <= |h.buildingOrder|
        invariant made.Keys == set j | 0 <= j < i :: h.buildingOrder[j]
        invariant forall k :: k in made ==> fresh(made[k])
        invariant forall k :: k in made ==>
          made[k].key == k && made[k].productionCacheInvalid && made[k].wasteCacheInvalid
      {
        var b := new Building(h.buildingOrder[i]);
        made := made[h.buildingOrder[i] := b];
        i := i + 1;
      }
      buildings := made;
    }

    /** `invalidateCache`: both flags of every building are raised; the cached values stay. */
    method InvalidateCache()
      modifies buildings.Values
      ensures forall b :: b in buildings.Values ==> b.productionCacheInvalid && b.wasteCacheInvalid
      ensures forall b :: b in buildings.Values ==>
        b.productionCache == old(b.productionCache) && b.wasteCache == old(b.wasteCache)
    {
      var todo := buildings.Values;
      while todo != {}
        invariant todo <= buildings.Values
        invariant forall b :: b in buildings.Values && b !in todo ==> b.productionCacheInvalid && b.wasteCacheInvalid
        invariant forall b :: b in buildings.Values ==>
          b.productionCache == old(b.productionCache) && b.wasteCache == old(b.wasteCache)
        decreases todo
      {
        var b :| b in todo;
        b.productionCacheInvalid := true;
        b.wasteCacheInvalid := true;
        todo := todo - {b};
      }
    }
  }
}
