/** The `GameState` object of the Cell Stage engine: its resource table, the timed tick, click actions,
    purchases and unlock checks (assets/js/GameState.js). */
module Economy {
  import opened Wrappers
  import opened Effects
  import opened Stage

  // ---------------------------------------------------------------------------
  // Resource arithmetic
  // ---------------------------------------------------------------------------

  /** `Math.max(0, Math.min(x, max))`: never negative, and never above `max` unless `max` itself is
      negative (then the result is 0). An amount already in range is kept. */
  function Clamp(x: real, max: real): (r: real)
    ensures 0.0 <= r
    ensures 0.0 <= max ==> r <= max
    ensures 0.0 <= x <= max ==> r == x
    ensures r == x || r == max || r == 0.0
  {
    var capped := if x < max then x else max;
    if 0.0 < capped then capped else 0.0
  }

  /** Every amount lies between 0 and its maximum. */
  ghost predicate InRange(res: map<string, Resource>) {
    forall k :: k in res ==> 0.0 <= res[k].amount <= res[k].max
  }

  /** The resource after `_applyResourceChange(resource, change)`. */
  function Changed(e: Resource, change: real): Resource {
    e.(amount := Clamp(e.amount + change, e.max))
  }

  /** `ratePerSecond * buildingData.count * deltaTime`. */
  function Change(rate: real, count: int, dt: real): real {
    Scaled(Scaled(rate, count as real), dt)
  }

  /** One building's step of `tick`: each resource of its rate that the table has moves by
      `rate × count × dt` and is clamped at once; every other resource is untouched. */
  function BuildingStep(res: map<string, Resource>, rate: map<string, real>, count: int, dt: real): (r: map<string, Resource>)
    ensures r.Keys == res.Keys
    ensures forall k :: k in r ==> r[k].max == res[k].max
  {
    map k | k in res :: if k in rate then Changed(res[k], Change(rate[k], count, dt)) else res[k]
  }

  /** `tick(dt)` over the buildings in `order`: each building with count > 0 in turn applies its step.
      (A key without a building is skipped; in a well-formed table the order lists only building keys.) */
  function TickFrom(res: map<string, Resource>, h: Holdings, order: seq<string>, dt: real): map<string, Resource>
    requires h.WellFormed()
  {
    if order == [] then res
    else
      TickStep(TickFrom(res, h, order[..|order| - 1], dt), h, order[|order| - 1], dt)
  }

  /** The step of building `k` in `tick(dt)`: it applies its rate when its count is positive. */
  function TickStep(res: map<string, Resource>, h: Holdings, k: string, dt: real): map<string, Resource>
    requires h.WellFormed()
  {
    if k in h.buildings && h.buildings[k].count > 0
    then BuildingStep(res, ChangeRate(h, k), h.buildings[k].count, dt)
    else res
  }

  /** `totalRates[res] = (totalRates[res] || 0) + ratePerSecond * count` for each entry of one rate. */
  function AddRates(totals: map<string, real>, rate: map<string, real>, count: int): (r: map<string, real>)
    ensures r.Keys == totals.Keys + rate.Keys
  {
    map k | k in totals.Keys + rate.Keys ::
      OrZero(totals, k) + (if k in rate then Scaled(rate[k], count as real) else 0.0)
  }

  /** `getTotalProductionRate` over the buildings in `order`. */
  function TotalRate(h: Holdings, order: seq<string>): map<string, real>
    requires h.WellFormed()
  {
    if order == [] then map[]
    else
      TotalStep(TotalRate(h, order[..|order| - 1]), h, order[|order| - 1])
  }

  /** The contribution of building `k` to `getTotalProductionRate()` when its count is positive. */
  function TotalStep(totals: map<string, real>, h: Holdings, k: string): map<string, real>
    requires h.WellFormed()
  {
    if k in h.buildings && h.buildings[k].count > 0
    then AddRates(totals, ChangeRate(h, k), h.buildings[k].count)
    else totals
  }

  // ---------------------------------------------------------------------------
  // Purchases and unlocks
  // ---------------------------------------------------------------------------

  /** `_calculateBuildingCost(key, n)`: `defaultCost[r] × n` for every resource of the default cost,
      whatever the current count. */
  function BuildingCost(def: BuildingDef, n: int): map<string, real> {
    map r | r in def.defaultCost :: Scaled(def.defaultCost[r], n as real)
  }

  /** `_canAfford(cost)`: every cost resource exists and holds at least the cost. */
  predicate Affordable(res: map<string, Resource>, cost: map<string, real>) {
    forall r :: r in cost ==> r in res && cost[r] <= res[r].amount
  }

  /** The deduction loop of `buyBuilding` / `buyUpgrade`: no clamping, but an affordable cost never
      takes an amount below 0. */
  function Deduct(res: map<string, Resource>, cost: map<string, real>): (r: map<string, Resource>)
    requires Affordable(res, cost)
    ensures r.Keys == res.Keys
    ensures forall k :: k in cost ==> r[k] == res[k].(amount := res[k].amount - cost[k]) && 0.0 <= r[k].amount
    ensures forall k :: k in res && k !in cost ==> r[k] == res[k]
  {
    map k | k in res :: if k in cost then res[k].(amount := res[k].amount - cost[k]) else res[k]
  }

  /** The three refusals of `buyBuilding`: an unknown key, a single-purchase building already owned,
      and an unaffordable cost. The unlock condition is not consulted. */
  predicate CanBuyBuilding(res: map<string, Resource>, h: Holdings, key: string, n: int) {
    key in h.buildings &&
    !(h.buildings[key].singlePurchase && h.buildings[key].count > 0) &&
    Affordable(res, BuildingCost(h.buildings[key], n))
  }

  /** The refusals of `buyUpgrade`: an unknown key, an upgrade already purchased, an unaffordable cost. */
  predicate CanBuyUpgrade(res: map<string, Resource>, h: Holdings, key: string) {
    key in h.upgrades && !h.upgrades[key].purchased && Affordable(res, h.upgrades[key].cost)
  }

  /** The table after `building.count += n`. */
  function AddCount(h: Holdings, key: string, n: int): Holdings
    requires key in h.buildings
  {
    h.(buildings := h.buildings[key := h.buildings[key].(count := h.buildings[key].count + n)])
  }

  /** The table after `upgrade.purchased = true`. */
  function MarkPurchased(h: Holdings, key: string): Holdings
    requires key in h.upgrades
  {
    h.(upgrades := h.upgrades[key := h.upgrades[key].(purchased := true)])
  }

  /** `isBuildingUnlocked(key)`: true for an unknown building or one without condition, and otherwise
      exactly when every required building is owned at least the required number of times, a missing
      building counting as 0. */
  function BuildingUnlocked(h: Holdings, key: string): (b: bool)
    ensures b <==> (key !in h.buildings ||
      forall i :: 0 <= i < |h.buildings[key].unlockCondition| ==>
        OwnedCount(h, h.buildings[key].unlockCondition[i].0) >= h.buildings[key].unlockCondition[i].1)
  {
    key !in h.buildings || ConditionMet(h, h.buildings[key].unlockCondition)
  }

  /** `isUpgradeUnlocked(key)`, with the same reading of the condition as for buildings. */
  function UpgradeUnlocked(h: Holdings, key: string): (b: bool)
    ensures b <==> (key !in h.upgrades ||
      forall i :: 0 <= i < |h.upgrades[key].unlockCondition| ==>
        OwnedCount(h, h.upgrades[key].unlockCondition[i].0) >= h.upgrades[key].unlockCondition[i].1)
  {
    key !in h.upgrades || ConditionMet(h, h.upgrades[key].unlockCondition)
  }

  // ---------------------------------------------------------------------------
  // Click actions
  // ---------------------------------------------------------------------------

  /** `getActionValue(type)`: the scalar reduction of the collected action effects, starting from 0. */
  function ActionValue(h: Holdings, actionType: string): real
    requires h.WellFormed()
  {
    ScalarReduce(0.0, AllActionEffects(h, actionType))
  }

  /** The resource `performAction(type)` credits: `nutrients` for "nutrientAbsorption", and otherwise
      `actionEffects[0]?.resource || type`. */
  function ActionTarget(h: Holdings, actionType: string): string
    requires h.WellFormed()
  {
    var effs := AllActionEffects(h, actionType);
    if actionType == "nutrientAbsorption" then "nutrients"
    else if |effs| > 0 && Scoped(effs[0]) then effs[0].resource.value
    else actionType
  }

  // ---------------------------------------------------------------------------
  // Properties of tick, purchases and unlocks
  // ---------------------------------------------------------------------------

  /** `tick` neither adds nor removes resources and never changes a maximum. */
  lemma {:induction false} TickKeepsShape(res: map<string, Resource>, h: Holdings, order: seq<string>, dt: real)
    requires h.WellFormed()
    ensures TickFrom(res, h, order, dt).Keys == res.Keys
    ensures forall k :: k in res ==> TickFrom(res, h, order, dt)[k].max == res[k].max
    decreases |order|
  {
    if order != [] {
      TickKeepsShape(res, h, order[..|order| - 1], dt);
    }
  }

  /** Amounts that start in `[0, max]` stay there through a tick. */
  lemma {:induction false} TickKeepsRange(res: map<string, Resource>, h: Holdings, order: seq<string>, dt: real)
    requires h.WellFormed()
    requires InRange(res)
    ensures InRange(TickFrom(res, h, order, dt))
    decreases |order|
  {
    if order != [] {
      TickKeepsRange(res, h, order[..|order| - 1], dt);
    }
  }

  /** A tick over no elapsed time leaves an in-range table as it is. */
  lemma {:induction false} TickWithoutTime(res: map<string, Resource>, h: Holdings, order: seq<string>)
    requires h.WellFormed()
    requires InRange(res)
    ensures TickFrom(res, h, order, 0.0) == res
    decreases |order|
  {
    if order != [] {
      TickWithoutTime(res, h, order[..|order| - 1]);
      var k := order[|order| - 1];
      if k in h.buildings && h.buildings[k].count > 0 {
        StepWithoutTime(res, ChangeRate(h, k), h.buildings[k].count);
      }
    }
  }

  /** One building's step over no elapsed time leaves an in-range table as it is. */
  lemma StepWithoutTime(res: map<string, Resource>, rate: map<string, real>, count: int)
    requires InRange(res)
    ensures BuildingStep(res, rate, count, 0.0) == res
  {
    forall r | r in rate
      ensures Change(rate[r], count, 0.0) == 0.0
    {
      ScaledSign(Scaled(rate[r], count as real), 0.0);
    }
  }

  /** No building that runs contributes a negative rate to resource `r`. */
  ghost predicate NonNegativeFor(h: Holdings, order: seq<string>, r: string)
    requires h.WellFormed()
  {
    forall k :: k in order && k in h.buildings && h.buildings[k].count > 0 && r in ChangeRate(h, k) ==>
      0.0 <= ChangeRate(h, k)[r]
  }

  lemma {:induction false} TotalRateNonNegative(h: Holdings, order: seq<string>, r: string)
    requires h.WellFormed()
    requires NonNegativeFor(h, order, r)
    ensures 0.0 <= OrZero(TotalRate(h, order), r)
    decreases |order|
  {
    if order != [] {
      var prefix := order[..|order| - 1];
      var k := order[|order| - 1];
      TotalRateNonNegative(h, prefix, r);
      if k in h.buildings && h.buildings[k].count > 0 && r in ChangeRate(h, k) {
        ScaledSign(ChangeRate(h, k)[r], h.buildings[k].count as real);
      }
    }
  }

  /** Clamping after a non-negative step and clamping once at the end agree. */
  lemma ClampTwice(y: real, z: real, max: real)
    requires 0.0 <= y && 0.0 <= z && 0.0 <= max
    ensures Clamp(Clamp(y, max) + z, max) == Clamp(y + z, max)
  {
  }

  /** When no running building drains resource `r`, clamping after each building changes nothing:
      a tick leaves `r` at its amount plus `getTotalProductionRate()[r] × dt`, clamped once. */
  lemma {:induction false} TickIsClampedTotal(res: map<string, Resource>, h: Holdings, order: seq<string>, dt: real, r: string)
    requires h.WellFormed()
    requires InRange(res) && r in res && 0.0 <= dt
    requires NonNegativeFor(h, order, r)
    ensures r in TickFrom(res, h, order, dt)
    ensures TickFrom(res, h, order, dt)[r] == Changed(res[r], Scaled(OrZero(TotalRate(h, order), r), dt))
    decreases |order|
  {
    TickKeepsShape(res, h, order, dt);
    if order == [] {
      ScaledSign(0.0, dt);
    } else {
      var prefix := order[..|order| - 1];
      var k := order[|order| - 1];
      TickIsClampedTotal(res, h, prefix, dt, r);
      if k in h.buildings && h.buildings[k].count > 0 {
        var c := h.buildings[k].count;
        TotalRateNonNegative(h, prefix, r);
        StepIsClampedTotal(TickFrom(res, h, prefix, dt), ChangeRate(h, k), c, dt, r, res[r], TotalRate(h, prefix));
      }
    }
  }

  /** The inductive step of `TickIsClampedTotal` for one building. */
  lemma StepIsClampedTotal(prev: map<string, Resource>, rate: map<string, real>, c: int, dt: real, r: string,
                           start: Resource, totals: map<string, real>)
    requires 0.0 <= start.amount <= start.max && 0 < c && 0.0 <= dt
    requires r in rate ==> 0.0 <= rate[r]
    requires 0.0 <= OrZero(totals, r)
    requires r in prev && prev[r] == Changed(start, Scaled(OrZero(totals, r), dt))
    ensures BuildingStep(prev, rate, c, dt)[r] == Changed(start, Scaled(OrZero(AddRates(totals, rate, c), r), dt))
  {
    var t := OrZero(totals, r);
    if r in rate {
      var x := Scaled(rate[r], c as real);
      assert OrZero(AddRates(totals, rate, c), r) == t + x;
      ScaledDistributes(t, x, dt);
      ScaledSign(t, dt);
      ScaledSign(rate[r], c as real);
      ScaledSign(x, dt);
      ClampTwice(start.amount + Scaled(t, dt), Scaled(x, dt), start.max);
    } else {
      assert OrZero(AddRates(totals, rate, c), r) == t;
    }
  }

  /** Clamping after each building differs from clamping the summed change: a building draining 5
      from an empty resource, then one adding 5, leaves 5 where the sum would leave 0. */
  lemma ClampingIsPerBuilding()
    ensures var res := map["atp" := Resource(0.0, 10.0)];
      var drain, feed := map["atp" := -5.0], map["atp" := 5.0];
      BuildingStep(BuildingStep(res, drain, 1, 1.0), feed, 1, 1.0)["atp"].amount == 5.0 &&
      Changed(res["atp"], Change(-5.0, 1, 1.0) + Change(5.0, 1, 1.0)).amount == 0.0
  {
    var res := map["atp" := Resource(0.0, 10.0)];
    var drained := BuildingStep(res, map["atp" := -5.0], 1, 1.0);
    assert drained["atp"].amount == 0.0;
  }

  // ---------------------------------------------------------------------------
  // Splitting a tick
  // ---------------------------------------------------------------------------

  /** Two buildings that each own one copy: "drain" consumes 5 atp per second, then "feed" makes 5. */
  function DrainFeed(): Holdings {
    Holdings(
      ["drain", "feed"],
      map["drain" := BuildingDef(1, false, map[], map["production" := [Effect(Additive, Some("atp"), -5.0, None)]], [], 0.0),
          "feed" := BuildingDef(1, false, map[], map["production" := [Effect(Additive, Some("atp"), 5.0, None)]], [], 0.0)],
      [], map[])
  }

  /** A building whose only collected production effect adds `v` to `r` changes `r` at rate `v`. */
  lemma SingleAdditiveRate(h: Holdings, key: string, r: string, v: real)
    requires h.WellFormed() && key in h.buildings && r != "waste"
    requires AllEffectsForBuilding(h, key, "production") == [Effect(Additive, Some(r), v, None)]
    ensures r in ChangeRate(h, key) && ChangeRate(h, key)[r] == v
  {
    var e := Effect(Additive, Some(r), v, None);
    assert [e][..0] == [];
    assert OfKind([e], Additive) == [e];
    assert OfKind([e], Multiplicative) == [];
    assert OfKind([e], SetValue) == [];
    assert AddKeys([e]) == {r};
    assert SumFor([e], r) == v;
    ProductionEntry(h, key, r);
  }

  lemma DrainFeedWellFormed()
    ensures DrainFeed().WellFormed()
  {
    assert "drain" != "feed";
  }

  /** The production effects collected for each building of `DrainFeed()` are its own. */
  lemma DrainFeedEffects()
    ensures DrainFeed().WellFormed()
    ensures AllEffectsForBuilding(DrainFeed(), "drain", "production") == [Effect(Additive, Some("atp"), -5.0, None)]
    ensures AllEffectsForBuilding(DrainFeed(), "feed", "production") == [Effect(Additive, Some("atp"), 5.0, None)]
  {
    DrainFeedWellFormed();
    var h := DrainFeed();
    var drain, feed := Effect(Additive, Some("atp"), -5.0, None), Effect(Additive, Some("atp"), 5.0, None);
    assert "drain" != "feed";
    assert h.buildingOrder[..1] == ["drain"] && ["drain"][..0] == [];
    assert Targeting([feed], "drain") == [] && Targeting([drain], "feed") == [] by {
      assert [feed][..0] == [] && [drain][..0] == [];
    }
    assert FromOtherBuildings(h, h.buildingOrder, "drain", "production") == [];
    assert FromOtherBuildings(h, h.buildingOrder, "feed", "production") == [];
  }

  /** The rates of the two buildings of `DrainFeed()`. */
  lemma DrainFeedRates()
    ensures DrainFeed().WellFormed()
    ensures "atp" in ChangeRate(DrainFeed(), "drain") && ChangeRate(DrainFeed(), "drain")["atp"] == -5.0
    ensures "atp" in ChangeRate(DrainFeed(), "feed") && ChangeRate(DrainFeed(), "feed")["atp"] == 5.0
  {
    DrainFeedEffects();
    assert "atp" != "waste";
    SingleAdditiveRate(DrainFeed(), "drain", "atp", -5.0);
    SingleAdditiveRate(DrainFeed(), "feed", "atp", 5.0);
  }

  /** One step of a building with one copy on a table holding the single resource `r`. */
  lemma SingleStep(r: string, e: Resource, rate: map<string, real>, dt: real)
    requires r in rate
    ensures BuildingStep(map[r := e], rate, 1, dt) == map[r := Changed(e, Scaled(rate[r], dt))]
  {
    assert Scaled(rate[r], 1 as real) == rate[r];
  }

  /** The step of a building with one copy on a table holding the single resource `r`. */
  lemma SingleTickStep(h: Holdings, k: string, r: string, e: Resource, dt: real)
    requires h.WellFormed() && k in h.buildings && h.buildings[k].count == 1
    requires r in ChangeRate(h, k)
    ensures TickStep(map[r := e], h, k, dt) == map[r := Changed(e, Scaled(ChangeRate(h, k)[r], dt))]
  {
    SingleStep(r, e, ChangeRate(h, k), dt);
  }

  /** A tick over two buildings with one copy each, on a table holding the single resource `r`: the
      first building's change is clamped before the second one's is added. */
  lemma PairTick(h: Holdings, k1: string, k2: string, r: string, e: Resource, dt: real)
    requires h.WellFormed() && k1 in h.buildings && k2 in h.buildings
    requires h.buildings[k1].count == 1 && h.buildings[k2].count == 1
    requires r in ChangeRate(h, k1) && r in ChangeRate(h, k2)
    ensures TickFrom(map[r := e], h, [k1, k2], dt) ==
      map[r := Changed(Changed(e, Scaled(ChangeRate(h, k1)[r], dt)), Scaled(ChangeRate(h, k2)[r], dt))]
  {
    var first := map[r := Changed(e, Scaled(ChangeRate(h, k1)[r], dt))];
    TickTwo(map[r := e], h, k1, k2, dt);
    SingleTickStep(h, k1, r, e, dt);
    SingleTickStep(h, k2, r, first[r], dt);
  }

  /** A tick over two buildings is the step of the first, then the step of the second. */
  lemma TickTwo(res: map<string, Resource>, h: Holdings, k1: string, k2: string, dt: real)
    requires h.WellFormed()
    ensures TickFrom(res, h, [k1, k2], dt) == TickStep(TickStep(res, h, k1, dt), h, k2, dt)
  {
    assert [k1][..0] == [];
    assert TickFrom(res, h, [k1], dt) == TickStep(res, h, k1, dt);
    assert [k1, k2][..1] == [k1];
  }

  /** `tick(1); tick(1)` and `tick(2)` disagree: from an empty atp store with maximum 10, "drain" is
      clamped at 0 before "feed" adds its share, so each one-second tick ends at 5, while the
      two-second tick also ends clamped, at 10. */
  lemma SplitTickDiffers()
    ensures DrainFeed().WellFormed()
    ensures var res, h, order := map["atp" := Resource(0.0, 10.0)], DrainFeed(), ["drain", "feed"];
      TickFrom(TickFrom(res, h, order, 1.0), h, order, 1.0) == map["atp" := Resource(5.0, 10.0)] &&
      TickFrom(res, h, order, 2.0) == map["atp" := Resource(10.0, 10.0)]
  {
    var h := DrainFeed();
    DrainFeedRates();
    assert h.buildings["drain"].count == 1 && h.buildings["feed"].count == 1;
    PairTick(h, "drain", "feed", "atp", Resource(0.0, 10.0), 1.0);
    PairTick(h, "drain", "feed", "atp", Resource(5.0, 10.0), 1.0);
    PairTick(h, "drain", "feed", "atp", Resource(0.0, 10.0), 2.0);
  }

  /** A non-negative rate moves an in-range amount by `a` and then `b` seconds to where `a + b` seconds
      take it. */
  lemma ComposeChanges(e: Resource, t: real, a: real, b: real)
    requires 0.0 <= e.amount <= e.max && 0.0 <= t && 0.0 <= a && 0.0 <= b
    ensures Changed(Changed(e, Scaled(t, a)), Scaled(t, b)) == Changed(e, Scaled(t, a + b))
  {
    ScaledSign(t, a);
    ScaledSign(t, b);
    ScaledAddsFactors(t, a, b);
    ClampTwice(e.amount + Scaled(t, a), Scaled(t, b), e.max);
  }

  /** When no running building drains resource `r`, the tick as written does compose: `tick(a)` then
      `tick(b)` leaves `r` where `tick(a + b)` does. */
  lemma SplitTicksCompose(res: map<string, Resource>, h: Holdings, order: seq<string>, a: real, b: real, r: string)
    requires h.WellFormed()
    requires InRange(res) && r in res && 0.0 <= a && 0.0 <= b
    requires NonNegativeFor(h, order, r)
    ensures r in TickFrom(TickFrom(res, h, order, a), h, order, b) && r in TickFrom(res, h, order, a + b)
    ensures TickFrom(TickFrom(res, h, order, a), h, order, b)[r] == TickFrom(res, h, order, a + b)[r]
  {
    var first := TickFrom(res, h, order, a);
    var t := OrZero(TotalRate(h, order), r);
    assert r in first && first[r] == Changed(res[r], Scaled(t, a)) && InRange(first) by {
      TickIsClampedTotal(res, h, order, a, r);
      TickKeepsRange(res, h, order, a);
    }
    assert r in TickFrom(first, h, order, b) && TickFrom(first, h, order, b)[r] == Changed(first[r], Scaled(t, b)) by {
      TickIsClampedTotal(first, h, order, b, r);
    }
    assert r in TickFrom(res, h, order, a + b) && TickFrom(res, h, order, a + b)[r] == Changed(res[r], Scaled(t, a + b)) by {
      TickIsClampedTotal(res, h, order, a + b, r);
    }
    assert 0.0 <= t by {
      TotalRateNonNegative(h, order, r);
    }
    ComposeChanges(res[r], t, a, b);
  }

  /** The tick as the design describes it: each resource moves by the summed
      `getTotalProductionRate()[r] × dt` and is clamped once. */
  function TickSummed(res: map<string, Resource>, h: Holdings, order: seq<string>, dt: real): (r: map<string, Resource>)
    requires h.WellFormed()
    ensures r.Keys == res.Keys
  {
    map k | k in res :: Changed(res[k], Scaled(OrZero(TotalRate(h, order), k), dt))
  }

  /** Two steps in the same direction clamp as one. */
  lemma ClampSameDirection(y: real, z1: real, z2: real, max: real)
    requires 0.0 <= y <= max
    requires (0.0 <= z1 && 0.0 <= z2) || (z1 <= 0.0 && z2 <= 0.0)
    ensures Clamp(Clamp(y + z1, max) + z2, max) == Clamp(y + z1 + z2, max)
  {
  }

  /** The summed tick keeps every amount in `[0, max]`, and splitting it never matters: `tick(a)` then
      `tick(b)` equals `tick(a + b)` for every table, draining buildings included. */
  lemma SummedTicksCompose(res: map<string, Resource>, h: Holdings, order: seq<string>, a: real, b: real)
    requires h.WellFormed()
    requires InRange(res) && 0.0 <= a && 0.0 <= b
    ensures InRange(TickSummed(res, h, order, a))
    ensures TickSummed(TickSummed(res, h, order, a), h, order, b) == TickSummed(res, h, order, a + b)
  {
    var first := TickSummed(res, h, order, a);
    forall k | k in res
      ensures TickSummed(first, h, order, b)[k] == TickSummed(res, h, order, a + b)[k]
    {
      var t := OrZero(TotalRate(h, order), k);
      ScaledSign(t, a);
      ScaledSign(t, b);
      ScaledAddsFactors(t, a, b);
      if 0.0 <= t {
        ClampSameDirection(res[k].amount, Scaled(t, a), Scaled(t, b), res[k].max);
      } else {
        ClampSameDirection(res[k].amount, Scaled(t, a), Scaled(t, b), res[k].max);
      }
    }
  }

  /** When no running building drains `r`, the tick as written and the summed tick agree on `r`. */
  lemma TickMatchesSummed(res: map<string, Resource>, h: Holdings, order: seq<string>, dt: real, r: string)
    requires h.WellFormed()
    requires InRange(res) && r in res && 0.0 <= dt
    requires NonNegativeFor(h, order, r)
    ensures r in TickFrom(res, h, order, dt)
    ensures TickFrom(res, h, order, dt)[r] == TickSummed(res, h, order, dt)[r]
  {
    TickIsClampedTotal(res, h, order, dt, r);
  }

  // ---------------------------------------------------------------------------
  // Range of the other mutations
  // ---------------------------------------------------------------------------

  /** `performAction` adds its value through `_applyResourceChange`, so an in-range table stays in range
      whatever the value's sign. */
  lemma ActionKeepsRange(res: map<string, Resource>, k: string, v: real)
    requires InRange(res) && k in res
    ensures InRange(res[k := Changed(res[k], v)])
  {
  }

  /** Paying an affordable cost with no negative entry, as `buyUpgrade` does, keeps every amount in
      `[0, max]`. */
  lemma DeductKeepsRange(res: map<string, Resource>, cost: map<string, real>)
    requires InRange(res) && Affordable(res, cost)
    requires forall r :: r in cost ==> 0.0 <= cost[r]
    ensures InRange(Deduct(res, cost))
  {
  }

  /** The deduction loop does not clamp: a negative cost entry raises a full store past its maximum. */
  lemma NegativeCostExceedsMax()
    ensures var res := map["atp" := Resource(10.0, 10.0)];
      InRange(res) && Affordable(res, map["atp" := -5.0]) && !InRange(Deduct(res, map["atp" := -5.0]))
  {
    var res := map["atp" := Resource(10.0, 10.0)];
    assert Deduct(res, map["atp" := -5.0])["atp"].amount == 15.0;
  }

  /** The cost is flat: buying `n1 + n2` at once costs what buying `n1` and then `n2` costs, whatever
      is already owned. */
  lemma BatchCost(def: BuildingDef, n1: int, n2: int)
    ensures BuildingCost(def, n1 + n2).Keys == def.defaultCost.Keys
    ensures forall r :: r in def.defaultCost ==>
      BuildingCost(def, n1 + n2)[r] == BuildingCost(def, n1)[r] + BuildingCost(def, n2)[r]
  {
    forall r | r in def.defaultCost
      ensures BuildingCost(def, n1 + n2)[r] == BuildingCost(def, n1)[r] + BuildingCost(def, n2)[r]
    {
      ScaledAddsFactors(def.defaultCost[r], n1 as real, n2 as real);
    }
  }

  /** Buying a non-negative number of a building with non-negative default costs keeps every amount
      in `[0, max]`. */
  lemma BuyingKeepsRange(res: map<string, Resource>, def: BuildingDef, n: int)
    requires InRange(res) && 0 <= n
    requires forall r :: r in def.defaultCost ==> 0.0 <= def.defaultCost[r]
    requires Affordable(res, BuildingCost(def, n))
    ensures InRange(Deduct(res, BuildingCost(def, n)))
  {
    forall r | r in def.defaultCost
      ensures 0.0 <= BuildingCost(def, n)[r]
    {
      ScaledSign(def.defaultCost[r], n as real);
    }
  }

  /** `buyBuilding` does not consult the unlock condition: a building whose requirement is unmet can
      still be bought. */
  lemma PurchaseIgnoresUnlock()
    ensures var h := Holdings(
        ["a", "b"],
        map["a" := BuildingDef(0, false, map[], map[], [], 0.0),
            "b" := BuildingDef(0, false, map[], map[], [("a", 1)], 0.0)],
        [], map[]);
      !BuildingUnlocked(h, "b") && CanBuyBuilding(map[], h, "b", 1)
  {
    var h := Holdings(
        ["a", "b"],
        map["a" := BuildingDef(0, false, map[], map[], [], 0.0),
            "b" := BuildingDef(0, false, map[], map[], [("a", 1)], 0.0)],
        [], map[]);
    assert OwnedCount(h, h.buildings["b"].unlockCondition[0].0) < h.buildings["b"].unlockCondition[0].1;
  }

  /** Buying a non-negative number of buildings never locks anything that was unlocked. */
  lemma PurchaseKeepsUnlocks(h: Holdings, key: string, n: int, other: string)
    requires key in h.buildings && 0 <= n
    ensures BuildingUnlocked(h, other) ==> BuildingUnlocked(AddCount(h, key, n), other)
    ensures UpgradeUnlocked(h, other) ==> UpgradeUnlocked(AddCount(h, key, n), other)
  {
    var h' := AddCount(h, key, n);
    assert forall r :: OwnedCount(h, r) <= OwnedCount(h', r);
  }

  // ---------------------------------------------------------------------------
  // The GameState object
  // ---------------------------------------------------------------------------

  class GameState {
    var resources: map<string, Resource>
    var holdings: Holdings
    const cellStage: CellStage

    /** The table is well formed, the `CellStage` has one `Building` per building key, and every cache
        a getter would reuse agrees with a fresh computation over the current table. */
    ghost predicate Valid()
      reads this`holdings, cellStage.buildings.Values
    {
      holdings.WellFormed() &&
      cellStage.buildings.Keys == holdings.buildings.Keys &&
      forall k :: k in cellStage.buildings ==>
        cellStage.buildings[k].key == k && cellStage.buildings[k].Coherent(holdings)
    }

    /** The constructor: a copy of the stage data and a `CellStage` over it. */
    constructor(resources: map<string, Resource>, holdings: Holdings)
      requires holdings.WellFormed()
      ensures Valid()
      ensures this.resources == resources && this.holdings == holdings
    {
      this.resources := resources;
      this.holdings := holdings;
      cellStage := new CellStage(holdings);
    }

    /** `_applyResourceChange`: the amount moves by `change` and is clamped into `[0, max]`; the result
        reports whether the unclamped amount was above the maximum or below 0. */
    method ApplyResourceChange(key: string, change: real) returns (capped: bool, depleted: bool)
      requires key in resources
      modifies this`resources
      ensures resources == old(resources)[key := Changed(old(resources)[key], change)]
      ensures capped <==> old(resources)[key].amount + change > old(resources)[key].max
      ensures depleted <==> old(resources)[key].amount + change < 0.0
    {
      var resource := resources[key];
      var newAmount := resource.amount + change;
      var capped' := if newAmount < resource.max then newAmount else resource.max;
      resources := resources[key := resource.(amount := if 0.0 < capped' then capped' else 0.0)];
      capped := newAmount > resource.max;
      depleted := newAmount < 0.0;
    }

    /** The inner loop of `tick` for one building with the given rate and count. */
    method ApplyBuildingRate(rate: map<string, real>, count: int, dt: real)
      modifies this`resources
      ensures resources == BuildingStep(old(resources), rate, count, dt)
    {
      var todo := rate.Keys;
      while todo != {}
        invariant todo <= rate.Keys
        invariant resources.Keys == old(resources).Keys
        invariant forall k :: k in resources ==>
          resources[k] == if k in rate && k !in todo then Changed(old(resources)[k], Change(rate[k], count, dt)) else old(resources)[k]
        decreases todo
      {
        var k :| k in todo;
        if k in resources {
          var _, _ := ApplyResourceChange(k, Change(rate[k], count, dt));
        }
        todo := todo - {k};
      }
    }

    /** The `resourceChangeRate` getter of the `Building` for `key`, through the `CellStage`. */
    method RateOf(key: string) returns (rate: map<string, real>)
      requires Valid() && key in holdings.buildings
      modifies cellStage.buildings.Values
      ensures Valid()
      ensures rate == ChangeRate(holdings, key)
    {
      var building := cellStage.buildings[key];
      rate := building.ResourceChangeRate(holdings);
    }

    /** One iteration of the building loop of `tick()`: a building with count > 0 applies its rate. */
    method TickBuilding(key: string, dt: real)
      requires Valid() && key in holdings.buildings
      modifies this`resources, cellStage.buildings.Values
      ensures Valid()
      ensures resources == TickStep(old(resources), holdings, key, dt)
    {
      var count := holdings.buildings[key].count;
      if count > 0 {
        var rate := RateOf(key);
        ApplyBuildingRate(rate, count, dt);
      }
    }

    /** `tick()` with the elapsed seconds `dt` passed in. */
    method Tick(dt: real)
      requires Valid()
      modifies this`resources, cellStage.buildings.Values
      ensures Valid()
      ensures resources == TickFrom(old(resources), holdings, holdings.buildingOrder, dt)
    {
      var order := holdings.buildingOrder;
      ghost var h, start := holdings, resources;
      var i := 0;
      while i < |order|
        invariant 0 <= i <= |order|
        invariant Valid() && holdings == h
        invariant resources == TickFrom(start, h, order[..i], dt)
      {
        TickFromPrefix(start, h, order, i, dt);
        TickBuilding(order[i], dt);
        i := i + 1;
      }
      assert order[..i] == order;
    }

    /** `getBuildingProductionRate(key)`: the `productionRate` getter of that building, or an empty
        map for an unknown key. */
    method GetBuildingProductionRate(key: string) returns (rate: map<string, real>)
      requires Valid()
      modifies cellStage.buildings.Values
      ensures Valid()
      ensures rate == if key in holdings.buildings then Production(holdings, key) else map[]
    {
      if key in cellStage.buildings {
        var building := cellStage.buildings[key];
        rate := building.ProductionRate(holdings);
      } else {
        rate := map[];
      }
    }

    /** One iteration of the building loop of `getTotalProductionRate()`. */
    method TotalBuilding(key: string, totals: map<string, real>) returns (r: map<string, real>)
      requires Valid() && key in holdings.buildings
      modifies cellStage.buildings.Values
      ensures Valid()
      ensures r == TotalStep(totals, holdings, key)
    {
      r := totals;
      var count := holdings.buildings[key].count;
      if count > 0 {
        var rate := RateOf(key);
        r := AccumulateRate(totals, rate, count);
      }
    }

    /** `getTotalProductionRate()`. */
    method GetTotalProductionRate() returns (totals: map<string, real>)
      requires Valid()
      modifies cellStage.buildings.Values
      ensures Valid()
      ensures totals == TotalRate(holdings, holdings.buildingOrder)
    {
      var order := holdings.buildingOrder;
      ghost var h := holdings;
      totals := map[];
      var i := 0;
      while i < |order|
        invariant 0 <= i <= |order|
        invariant Valid() && holdings == h
        invariant totals == TotalRate(h, order[..i])
      {
        TotalRatePrefix(h, order, i);
        totals := TotalBuilding(order[i], totals);
        i := i + 1;
      }
      assert order[..i] == order;
    }

    /** `getActionValue(type)`. */
    method GetActionValue(actionType: string) returns (value: real)
      requires Valid()
      ensures value == ActionValue(holdings, actionType)
    {
      var effs := AllActionEffects(holdings, actionType);
      value := Reduce(0.0, effs);
    }

    /** `performAction(type)`: the action value is applied, clamped, to the target resource, and the
        result records it under that resource; with the target absent nothing changes and the result
        is empty. */
    method PerformAction(actionType: string) returns (results: map<string, real>)
      requires Valid()
      modifies this`resources
      ensures Valid()
      ensures var target, value := ActionTarget(holdings, actionType), ActionValue(holdings, actionType);
        if target in old(resources) then
          results == map[target := value] &&
          resources == old(resources)[target := Changed(old(resources)[target], value)]
        else
          results == map[] && resources == old(resources)
    {
      var effs := AllActionEffects(holdings, actionType);
      var value := Reduce(0.0, effs);
      var target := if |effs| > 0 && Scoped(effs[0]) then effs[0].resource.value else actionType;
      results := map[];
      if actionType == "nutrientAbsorption" {
        if "nutrients" in resources {
          var _, _ := ApplyResourceChange("nutrients", value);
          results := results["nutrients" := value];
        }
      } else if target in resources {
        var _, _ := ApplyResourceChange(target, value);
        results := results[target := value];
      }
    }

    /** `_calculateBuildingCost(key, n)`. */
    method CalculateBuildingCost(key: string, n: int) returns (cost: map<string, real>)
      requires key in holdings.buildings
      ensures cost == BuildingCost(holdings.buildings[key], n)
    {
      var baseCost := holdings.buildings[key].defaultCost;
      cost := map[];
      var todo := baseCost.Keys;
      while todo != {}
        invariant todo <= baseCost.Keys
        invariant cost.Keys == baseCost.Keys - todo
        invariant forall r :: r in cost ==> cost[r] == Scaled(baseCost[r], n as real)
        decreases todo
      {
        var r :| r in todo;
        cost := cost[r := Scaled(baseCost[r], n as real)];
        todo := todo - {r};
      }
    }

    /** `_canAfford(cost)`. */
    method CanAfford(cost: map<string, real>) returns (ok: bool)
      ensures ok == Affordable(resources, cost)
    {
      var todo := cost.Keys;
      while todo != {}
        invariant todo <= cost.Keys
        invariant forall r :: r in cost && r !in todo ==> r in resources && cost[r] <= resources[r].amount
        decreases todo
      {
        var r :| r in todo;
        if r !in resources || resources[r].amount < cost[r] {
          return false;
        }
        todo := todo - {r};
      }
      return true;
    }

    /** The deduction loop shared by the two purchases. */
    method DeductCost(cost: map<string, real>)
      requires Affordable(resources, cost)
      modifies this`resources
      ensures resources == Deduct(old(resources), cost)
    {
      var todo := cost.Keys;
      while todo != {}
        invariant todo <= cost.Keys
        invariant resources.Keys == old(resources).Keys
        invariant forall r :: r in resources ==>
          resources[r] == if r in cost && r !in todo then old(resources)[r].(amount := old(resources)[r].amount - cost[r]) else old(resources)[r]
        decreases todo
      {
        var r :| r in todo;
        resources := resources[r := resources[r].(amount := resources[r].amount - cost[r])];
        todo := todo - {r};
      }
    }

    /** `buyBuilding(key, n)`: on success the cost is deducted, the count raised by `n` and every cache
        invalidated; on refusal nothing changes. */
    method BuyBuilding(key: string, n: int) returns (ok: bool)
      requires Valid()
      modifies this, cellStage.buildings.Values
      ensures Valid()
      ensures ok == CanBuyBuilding(old(resources), old(holdings), key, n)
      ensures ok ==>
        resources == Deduct(old(resources), BuildingCost(old(holdings).buildings[key], n)) &&
        holdings == AddCount(old(holdings), key, n)
      ensures !ok ==> resources == old(resources) && holdings == old(holdings)
      ensures !ok ==> forall b :: b in cellStage.buildings.Values ==> unchanged(b)
    {
      if key !in holdings.buildings {
        return false;
      }
      var building := holdings.buildings[key];
      if building.singlePurchase && building.count > 0 {
        return false;
      }
      var cost := CalculateBuildingCost(key, n);
      var affordable := CanAfford(cost);
      if !affordable {
        return false;
      }
      CompletePurchase(cost, AddCount(holdings, key, n));
      return true;
    }

    /** `buyUpgrade(key)`: on success the cost is deducted, the upgrade marked purchased and every cache
        invalidated; on refusal nothing changes. Either way a second call is refused. */
    method BuyUpgrade(key: string) returns (ok: bool)
      requires Valid()
      modifies this, cellStage.buildings.Values
      ensures Valid()
      ensures ok == CanBuyUpgrade(old(resources), old(holdings), key)
      ensures ok ==>
        resources == Deduct(old(resources), old(holdings).upgrades[key].cost) &&
        holdings == MarkPurchased(old(holdings), key)
      ensures !ok ==> resources == old(resources) && holdings == old(holdings)
      ensures !ok ==> forall b :: b in cellStage.buildings.Values ==> unchanged(b)
      ensures !CanBuyUpgrade(resources, holdings, key)
    {
      if key !in holdings.upgrades || holdings.upgrades[key].purchased {
        return false;
      }
      var affordable := CanAfford(holdings.upgrades[key].cost);
      if !affordable {
        return false;
      }
      CompletePurchase(holdings.upgrades[key].cost, MarkPurchased(holdings, key));
      return true;
    }

    /** The tail both purchases share: deduct the cost, update the table, invalidate every cache. */
    method CompletePurchase(cost: map<string, real>, updated: Holdings)
      requires Valid() && Affordable(resources, cost)
      requires updated.WellFormed() && updated.buildings.Keys == holdings.buildings.Keys
      modifies this, cellStage.buildings.Values
      ensures Valid()
      ensures resources == Deduct(old(resources), cost) && holdings == updated
    {
      DeductCost(cost);
      holdings := updated;
      cellStage.InvalidateCache();
    }
  }

  /** One more building of the order is one more step of the fold. */
  lemma TickFromPrefix(res: map<string, Resource>, h: Holdings, order: seq<string>, i: int, dt: real)
    requires h.WellFormed() && 0 <= i < |order|
    ensures TickFrom(res, h, order[..i + 1], dt) == TickStep(TickFrom(res, h, order[..i], dt), h, order[i], dt)
  {
    assert order[..i + 1][..i] == order[..i];
  }

  /** One more building of the order is one more step of the sum. */
  lemma TotalRatePrefix(h: Holdings, order: seq<string>, i: int)
    requires h.WellFormed() && 0 <= i < |order|
    ensures TotalRate(h, order[..i + 1]) == TotalStep(TotalRate(h, order[..i]), h, order[i])
  {
    assert order[..i + 1][..i] == order[..i];
  }

  /** The inner loop of `getTotalProductionRate` for one building. */
  method AccumulateRate(totals: map<string, real>, rate: map<string, real>, count: int) returns (r: map<string, real>)
    ensures r == AddRates(totals, rate, count)
  {
    r := totals;
    var todo := rate.Keys;
    while todo != {}
      invariant todo <= rate.Keys
      invariant r.Keys == totals.Keys + (rate.Keys - todo)
      invariant forall k :: k in r ==>
        r[k] == OrZero(totals, k) + (if k in rate && k !in todo then Scaled(rate[k], count as real) else 0.0)
      decreases todo
    {
      var k :| k in todo;
      r := r[k := OrZero(r, k) + Scaled(rate[k], count as real)];
      todo := todo - {k};
    }
  }
}
