/** The prototype's global `gameState` record and its console helpers (script.js): money, three raw
    resources, building counts, worker pools, and the timed tick that lets workers produce. */
module Workers {
  import opened Wrappers

  /** An entry of `gameState.workers`. */
  datatype Worker = Worker(count: int, name: string, isDefault: bool)

  /** The keys of `gameState.workers`, in the order `Object.values` visits them. */
  function WorkerOrder(): seq<string> {
    ["unassigned", "farm", "quarry", "lumberMill"]
  }

  /** The initial `gameState.workers`. */
  function InitialWorkers(): map<string, Worker> {
    map["unassigned" := Worker(0, "Unemployed", true),
        "farm" := Worker(0, "Farmer", false),
        "quarry" := Worker(0, "Quarry Worker", false),
        "lumberMill" := Worker(0, "Lumberjack", false)]
  }

  ghost predicate Distinct(order: seq<string>) {
    forall i, j :: 0 <= i < j < |order| ==> order[i] != order[j]
  }

  /** `Object.values(workers).find(worker => worker.default)`, by key: the first pool in `order` marked
      as the default one, if any. */
  function DefaultPool(workers: map<string, Worker>, order: seq<string>): (pool: Option<string>)
    ensures pool.Some? ==> pool.value in workers && pool.value in order && workers[pool.value].isDefault
    ensures pool.None? <==> forall k :: k in order && k in workers ==> !workers[k].isDefault
  {
    if order == [] then None
    else if order[0] in workers && workers[order[0]].isDefault then Some(order[0])
    else DefaultPool(workers, order[1..])
  }

  /** The pool found is the first default pool in `order`: a default pool at position `i` with no
      default pool before it is the one returned. */
  lemma {:induction false} DefaultPoolFirst(workers: map<string, Worker>, order: seq<string>, i: int)
    requires 0 <= i < |order| && order[i] in workers && workers[order[i]].isDefault
    requires forall j :: 0 <= j < i && order[j] in workers ==> !workers[order[j]].isDefault
    ensures DefaultPool(workers, order) == Some(order[i])
    decreases i
  {
    if i > 0 {
      assert order[0] in workers ==> !workers[order[0]].isDefault;
      forall j | 0 <= j < i - 1 && order[1..][j] in workers
        ensures !workers[order[1..][j]].isDefault
      {
        assert order[1..][j] == order[j + 1];
      }
      DefaultPoolFirst(workers, order[1..], i - 1);
    }
  }

  /** The pools after `assignWorker(type, n)`: when a default pool exists with a positive count and
      `type` is a pool, `n` workers leave the default pool and `n` join `type`, in that order. */
  function Assigned(workers: map<string, Worker>, order: seq<string>, workerType: string, n: int): (r: map<string, Worker>)
    ensures r.Keys == workers.Keys
  {
    var pool := DefaultPool(workers, order);
    if pool.Some? && workers[pool.value].count > 0 && workerType in workers then
      Moved(workers, pool.value, workerType, n)
    else workers
  }

  /** `n` workers leave pool `from`, then `n` join pool `to`. */
  function Moved(workers: map<string, Worker>, from: string, to: string, n: int): (r: map<string, Worker>)
    requires from in workers && to in workers
    ensures r.Keys == workers.Keys
  {
    var drawn := workers[from := workers[from].(count := workers[from].count - n)];
    drawn[to := drawn[to].(count := drawn[to].count + n)]
  }

  /** The number of workers over the pools listed in `order`. */
  function Headcount(workers: map<string, Worker>, order: seq<string>): int {
    if order == [] then 0
    else (if order[0] in workers then workers[order[0]].count else 0) + Headcount(workers, order[1..])
  }

  const Food: string := "food"
  const Stone: string := "stone"
  const Wood: string := "wood"
  const Farm: string := "farm"
  const Quarry: string := "quarry"
  const LumberMill: string := "lumberMill"

  /** What `count` workers of one job produce in `dt` seconds, at one unit per worker per second. */
  function Output(count: int, dt: real): real {
    count as real * 1.0 * dt
  }

  /** Output is linear in time. */
  lemma OutputAdds(count: int, a: real, b: real)
    ensures Output(count, a) + Output(count, b) == Output(count, a + b)
  {
    assert count as real * (a + b) == count as real * a + count as real * b;
  }

  lemma OutputNonNegative(count: int, dt: real)
    requires 0 <= count && 0.0 <= dt
    ensures 0.0 <= Output(count, dt)
  {
    assert 0.0 <= count as real * dt;
  }

  /** The resources after `gameTick()` over `dt` seconds: every farmer adds one food, every quarry
      worker one stone and every lumberjack one wood per second, with no cap. */
  function Produced(resources: map<string, real>, workers: map<string, Worker>, dt: real): map<string, real>
    requires "food" in resources && "stone" in resources && "wood" in resources
    requires "farm" in workers && "quarry" in workers && "lumberMill" in workers
  {
    var fed := resources[Food := resources[Food] + Output(workers[Farm].count, dt)];
    var quarried := fed[Stone := fed[Stone] + Output(workers[Quarry].count, dt)];
    quarried[Wood := quarried[Wood] + Output(workers[LumberMill].count, dt)]
  }

  lemma ResourceNamesDistinct()
    ensures "food" != "stone" && "food" != "wood" && "stone" != "wood"
  {
    assert |"food"| != |"stone"| && |"stone"| != |"wood"|;
    assert "food"[0] != "wood"[0];
  }

  // ---------------------------------------------------------------------------
  // Properties of the worker pools and the tick
  // ---------------------------------------------------------------------------

  /** Changing one listed pool changes the headcount by the change of that pool's count. */
  lemma {:induction false} HeadcountUpdate(workers: map<string, Worker>, order: seq<string>, k: string, w: Worker)
    requires k in workers && Distinct(order)
    ensures Headcount(workers[k := w], order) ==
      Headcount(workers, order) + (if k in order then w.count - workers[k].count else 0)
    decreases |order|
  {
    if order != [] {
      assert Distinct(order[1..]) by {
        forall i, j | 0 <= i < j < |order[1..]|
          ensures order[1..][i] != order[1..][j]
        {
          assert order[1..][i] == order[i + 1] && order[1..][j] == order[j + 1];
        }
      }
      HeadcountUpdate(workers, order[1..], k, w);
      if order[0] == k {
        assert k !in order[1..];
      }
    }
  }

  /** Moving workers between two listed pools keeps the headcount. */
  lemma MovedKeepsHeadcount(workers: map<string, Worker>, order: seq<string>, from: string, to: string, n: int)
    requires Distinct(order) && from in workers && to in workers && from in order && to in order
    ensures Headcount(Moved(workers, from, to, n), order) == Headcount(workers, order)
  {
    var drawn := workers[from := workers[from].(count := workers[from].count - n)];
    HeadcountUpdate(workers, order, from, drawn[from]);
    HeadcountUpdate(drawn, order, to, drawn[to].(count := drawn[to].count + n));
  }

  /** `assignWorker` moves workers between pools and never creates or destroys one. */
  lemma AssignKeepsHeadcount(workers: map<string, Worker>, order: seq<string>, workerType: string, n: int)
    requires Distinct(order) && forall k :: k in workers <==> k in order
    ensures Headcount(Assigned(workers, order, workerType, n), order) == Headcount(workers, order)
  {
    var pool := DefaultPool(workers, order);
    if pool.Some? && workers[pool.value].count > 0 && workerType in workers {
      MovedKeepsHeadcount(workers, order, pool.value, workerType, n);
    }
  }

  /** `assignWorker` changes nothing without a default pool holding a positive count, or for an unknown
      job; otherwise the default pool loses `n` and the job gains `n` (nothing moves when the job is the
      default pool itself), and every other pool is untouched. */
  lemma AssignMoves(workers: map<string, Worker>, order: seq<string>, workerType: string, n: int)
    ensures var pool := DefaultPool(workers, order);
      var r := Assigned(workers, order, workerType, n);
      if pool.Some? && workers[pool.value].count > 0 && workerType in workers then
        r.Keys == workers.Keys &&
        (workerType == pool.value ==> r == workers) &&
        (workerType != pool.value ==>
          r[pool.value].count == workers[pool.value].count - n &&
          r[workerType].count == workers[workerType].count + n) &&
        forall k :: k in workers && k != pool.value && k != workerType ==> r[k] == workers[k]
      else r == workers
  {
    var pool := DefaultPool(workers, order);
    if pool.Some? && workers[pool.value].count > 0 && workerType == pool.value {
      var p := pool.value;
      assert Assigned(workers, order, workerType, n)[p] == workers[p];
    }
  }

  /** The guard checks only that the default pool is non-empty, not that it holds `n` workers: from the
      initial state, `addWorker()` then `assignWorker("farm", 3)` leaves -2 unemployed. */
  lemma OverAssignment()
    ensures var workers := InitialWorkers()["unassigned" := Worker(1, "Unemployed", true)];
      Assigned(workers, WorkerOrder(), "farm", 3)["unassigned"].count == -2
  {
    var workers := InitialWorkers()["unassigned" := Worker(1, "Unemployed", true)];
    assert DefaultPool(workers, WorkerOrder()) == Some("unassigned");
    assert "farm" != "unassigned" by {
      assert |"farm"| != |"unassigned"|;
    }
  }

  /** With no cap, two ticks of `a` and `b` seconds produce what one tick of `a + b` seconds does. */
  lemma TicksCompose(resources: map<string, real>, workers: map<string, Worker>, a: real, b: real)
    requires "food" in resources && "stone" in resources && "wood" in resources
    requires "farm" in workers && "quarry" in workers && "lumberMill" in workers
    ensures Produced(Produced(resources, workers, a), workers, b) == Produced(resources, workers, a + b)
  {
    OutputAdds(workers[Farm].count, a, b);
    OutputAdds(workers[Quarry].count, a, b);
    OutputAdds(workers[LumberMill].count, a, b);
  }

  /** With non-negative worker counts a tick forward in time never lowers a resource, and it touches
      only food, stone and wood. */
  lemma TickOnlyGrows(resources: map<string, real>, workers: map<string, Worker>, dt: real)
    requires "food" in resources && "stone" in resources && "wood" in resources
    requires "farm" in workers && "quarry" in workers && "lumberMill" in workers
    requires 0.0 <= dt
    requires workers["farm"].count >= 0 && workers["quarry"].count >= 0 && workers["lumberMill"].count >= 0
    ensures Produced(resources, workers, dt).Keys == resources.Keys
    ensures forall k :: k in resources ==> resources[k] <= Produced(resources, workers, dt)[k]
    ensures forall k :: k in resources && k != "food" && k != "stone" && k != "wood" ==>
      Produced(resources, workers, dt)[k] == resources[k]
  {
    OutputNonNegative(workers[Farm].count, dt);
    OutputNonNegative(workers[Quarry].count, dt);
    OutputNonNegative(workers[LumberMill].count, dt);
    ResourceNamesDistinct();
  }

  // ---------------------------------------------------------------------------
  // The gameState record
  // ---------------------------------------------------------------------------

  class Game {
    var money: real
    var resources: map<string, real>
    var buildings: map<string, int>
    var workers: map<string, Worker>
    const workerOrder: seq<string>
    /** 0 = paused, 1 = normal; any other value is stored as it is and also pauses the loop. */
    var gameSpeed: real

    /** The record keeps the shape it starts with: the three resources `gameTick` reads and the worker
        pools, listed once each in `workerOrder`. */
    ghost predicate Valid()
      reads this`resources, this`workers
    {
      "food" in resources && "stone" in resources && "wood" in resources &&
      "unassigned" in workers && "farm" in workers && "quarry" in workers && "lumberMill" in workers &&
      Distinct(workerOrder) && (forall k :: k in workers <==> k in workerOrder)
    }

    /** The initial `gameState`. */
    constructor()
      ensures Valid()
      ensures money == 0.0 && gameSpeed == 1.0
      ensures resources == map["wood" := 0.0, "stone" := 0.0, "food" := 0.0]
      ensures buildings == map["house" := 0, "farm" := 0, "quarry" := 0, "lumberMill" := 0]
      ensures workers == InitialWorkers() && workerOrder == WorkerOrder()
    {
      money := 0.0;
      resources := map["wood" := 0.0, "stone" := 0.0, "food" := 0.0];
      buildings := map["house" := 0, "farm" := 0, "quarry" := 0, "lumberMill" := 0];
      workers := InitialWorkers();
      workerOrder := WorkerOrder();
      gameSpeed := 1.0;
      new;
      DistinctWorkerOrder();
    }

    /** `addMoney(amount)`: only `money` changes. */
    method AddMoney(amount: real)
      modifies this`money
      ensures money == old(money) + amount
    {
      money := money + amount;
    }

    /** `addResource(type, amount)`: a known resource grows by `amount`; an unknown type changes
        nothing. */
    method AddResource(resourceType: string, amount: real)
      modifies this`resources
      ensures resources == if resourceType in old(resources)
        then old(resources)[resourceType := old(resources)[resourceType] + amount]
        else old(resources)
    {
      if resourceType in resources {
        resources := resources[resourceType := resources[resourceType] + amount];
      }
    }

    /** `addBuilding(type)`: a known building's count grows by one; an unknown type changes nothing. */
    method AddBuilding(buildingType: string)
      modifies this`buildings
      ensures buildings == if buildingType in old(buildings)
        then old(buildings)[buildingType := old(buildings)[buildingType] + 1]
        else old(buildings)
    {
      if buildingType in buildings {
        buildings := buildings[buildingType := buildings[buildingType] + 1];
      }
    }

    /** `addWorker(n)`: only the `unassigned` pool grows, by `n`, whichever pool is the default one. */
    method AddWorker(n: int)
      requires Valid()
      modifies this`workers
      ensures Valid()
      ensures workers == old(workers)["unassigned" := old(workers)["unassigned"].(count := old(workers)["unassigned"].count + n)]
    {
      workers := workers["unassigned" := workers["unassigned"].(count := workers["unassigned"].count + n)];
    }

    /** The `find` over `Object.values(gameState.workers)`. */
    method FindDefaultPool() returns (pool: Option<string>)
      ensures pool == DefaultPool(workers, workerOrder)
    {
      var i := 0;
      while i < |workerOrder|
        invariant 0 <= i <= |workerOrder|
        invariant DefaultPool(workers, workerOrder) == DefaultPool(workers, workerOrder[i..])
      {
        assert workerOrder[i..][1..] == workerOrder[i + 1..];
        var k := workerOrder[i];
        if k in workers && workers[k].isDefault {
          return Some(k);
        }
        i := i + 1;
      }
      return None;
    }

    /** The two count updates of `assignWorker`, in place. */
    method Move(from: string, to: string, n: int)
      requires from in workers && to in workers
      modifies this`workers
      ensures workers == Moved(old(workers), from, to, n)
    {
      workers := workers[from := workers[from].(count := workers[from].count - n)];
      workers := workers[to := workers[to].(count := workers[to].count + n)];
    }

    /** `assignWorker(type, n)`. */
    method AssignWorker(workerType: string, n: int)
      requires Valid()
      modifies this`workers
      ensures Valid()
      ensures workers == Assigned(old(workers), workerOrder, workerType, n)
    {
      var pool := FindDefaultPool();
      if pool.Some? && workers[pool.value].count > 0 && workerType in workers {
        Move(pool.value, workerType, n);
      }
    }

    /** `setGameSpeed(speed)`. */
    method SetGameSpeed(speed: real)
      modifies this`gameSpeed
      ensures gameSpeed == speed
    {
      gameSpeed := speed;
    }

    /** `gameTick()` over the elapsed seconds `dt`: workers produce; money, buildings and workers are
        unchanged. */
    method GameTick(dt: real)
      requires Valid()
      modifies this`resources
      ensures Valid()
      ensures resources == Produced(old(resources), workers, dt)
    {
      resources := resources[Food := resources[Food] + Output(workers[Farm].count, dt)];
      resources := resources[Stone := resources[Stone] + Output(workers[Quarry].count, dt)];
      resources := resources[Wood := resources[Wood] + Output(workers[LumberMill].count, dt)];
    }

    /** The `setInterval` callback: a tick happens only at game speed 1. */
    method OnInterval(dt: real)
      requires Valid()
      modifies this`resources
      ensures Valid()
      ensures resources == if gameSpeed == 1.0 then Produced(old(resources), workers, dt) else old(resources)
    {
      if gameSpeed == 1.0 {
        GameTick(dt);
      }
    }
  }

  /** The worker keys are listed once each. */
  lemma DistinctWorkerOrder()
    ensures Distinct(WorkerOrder())
    ensures forall k :: k in InitialWorkers() <==> k in WorkerOrder()
  {
    var order := WorkerOrder();
    assert |order[0]| == 10 && |order[1]| == 4 && |order[2]| == 6 && |order[3]| == 10;
    assert order[0][0] != order[3][0];
  }
}
