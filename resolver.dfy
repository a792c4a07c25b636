/** The priority-sorted modifier resolver of node-test.ts: base modifiers from building counts, static
    modifiers, path matching with a `.*` wildcard, a stable sort by priority and an add/mul/set fold. */
module Resolver {
  import opened Wrappers
  import opened Effects

  datatype Mode = Add | Mul | SetTo

  /** The only condition the static modifiers use: `(s) => s.resources.waste >= threshold`. */
  datatype Condition = WasteAtLeast(threshold: real)

  datatype Modifier = Modifier(
    path: string,
    mode: Mode,
    value: real,
    priority: int,
    condition: Option<Condition>,
    source: Option<string>)

  /** The resolver's game state: the waste amount and the building counts in entry order. */
  datatype NodeState = NodeState(waste: real, buildings: seq<(string, int)>)

  function Holds(c: Condition, state: NodeState): bool {
    match c
    case WasteAtLeast(threshold) => state.waste >= threshold
  }

  // ---------------------------------------------------------------------------
  // Definitions
  // ---------------------------------------------------------------------------

  /** `BUILDING_DEFS`: each building's production entries in declaration order. */
  function BuildingDefs(): map<string, seq<(string, real)>> {
    map["mitochondrion" := [("atp", 4.0), ("nutrients", -1.0)]]
  }

  /** `STATIC_MODIFIERS`. */
  function StaticModifiers(): seq<Modifier> {
    [ Modifier("building.mitochondrion.production.atp", Mul, 1.2, 100, None, Some("endoplasmicReticulum")),
      Modifier("building.mitochondrion.production.*", Mul, 1.1, 100, None, Some("metabolicLineage")),
      Modifier("building.mitochondrion.production.atp", Mul, 0.5, 200, Some(WasteAtLeast(50.0)), Some("wastePenalty")) ]
  }

  // ---------------------------------------------------------------------------
  // matches
  // ---------------------------------------------------------------------------

  /** `matches(modPath, target)`: equal paths match; a path ending in `.*` matches every target that
      starts with the path minus those two characters, with no check of a dot boundary. */
  function Matches(modPath: string, target: string): bool {
    if modPath == target then true
    else if |modPath| >= 2 && modPath[|modPath| - 2..] == ".*" then modPath[..|modPath| - 2] <= target
    else false
  }

  lemma MatchesItself(p: string)
    ensures Matches(p, p)
  {
  }

  /** Every pair other than equal paths matches only through the wildcard: then exactly when the target
      extends the path's stem. */
  lemma MatchesCharacterised(p: string, t: string)
    requires p != t
    ensures Matches(p, t) <==> |p| >= 2 && p[|p| - 2..] == ".*" && p[..|p| - 2] <= t
  {
  }

  /** No dot boundary: `production.*` also matches `productionX`. */
  lemma WildcardCrossesSegments()
    ensures Matches("building.mitochondrion.production.*", "building.mitochondrion.productionX")
    ensures !Matches("building.mitochondrion.production.atp", "building.mitochondrion.production.nutrients")
  {
    var p: string := "building.mitochondrion.production.*";
    assert p[|p| - 2..] == ".*";
    assert p[..|p| - 2] == "building.mitochondrion.production";
    var q: string := "building.mitochondrion.production.atp";
    assert |q| >= 2 && q[|q| - 2..] != ".*" by {
      assert q[|q| - 1] == 'p';
    }
  }

  // ---------------------------------------------------------------------------
  // getBaseModifiers
  // ---------------------------------------------------------------------------

  /** The template path `building.${id}.production.${res}`. */
  function ProductionPath(id: string, res: string): string {
    "building." + id + ".production." + res
  }

  /** The modifiers one building with `count` copies contributes, one per production entry. */
  function BuildingModifiers(id: string, count: int, production: seq<(string, real)>): seq<Modifier> {
    if production == [] then []
    else
      var last := production[|production| - 1];
      BuildingModifiers(id, count, production[..|production| - 1])
        + [Modifier(ProductionPath(id, last.0), Add, Scaled(last.1, count as real), 0, None, Some(id))]
  }

  /** One `add` modifier per production entry, in entry order, worth the entry's value times the count. */
  lemma {:induction false} BuildingModifiersEntries(id: string, count: int, production: seq<(string, real)>)
    ensures |BuildingModifiers(id, count, production)| == |production|
    ensures forall j :: 0 <= j < |production| ==>
      BuildingModifiers(id, count, production)[j] ==
        Modifier(ProductionPath(id, production[j].0), Add, Scaled(production[j].1, count as real), 0, None, Some(id))
    decreases |production|
  {
    if production != [] {
      BuildingModifiersEntries(id, count, production[..|production| - 1]);
    }
  }

  /** `getBaseModifiers(state)` over the first entries of the building counts. */
  function BaseModifiers(buildings: seq<(string, int)>): seq<Modifier> {
    if buildings == [] then []
    else
      var prev := BaseModifiers(buildings[..|buildings| - 1]);
      var (id, count) := buildings[|buildings| - 1];
      if id !in BuildingDefs() || count <= 0 then prev
      else prev + BuildingModifiers(id, count, BuildingDefs()[id])
  }

  /** `m` is the modifier `getBaseModifiers` emits for entry `j` of the definition of building `b`,
      which must be known and have a positive count. */
  ghost predicate EmittedFor(b: (string, int), j: int, m: Modifier) {
    b.0 in BuildingDefs() && b.1 > 0 && 0 <= j < |BuildingDefs()[b.0]| &&
    m == Modifier(ProductionPath(b.0, BuildingDefs()[b.0][j].0), Add,
                  Scaled(BuildingDefs()[b.0][j].1, b.1 as real), 0, None, Some(b.0))
  }

  /** The modifiers one building contributes are exactly those emitted for its entries. */
  lemma EmittedForMembers(b: (string, int), m: Modifier)
    ensures (b.0 in BuildingDefs() && b.1 > 0 && m in BuildingModifiers(b.0, b.1, BuildingDefs()[b.0])) <==>
      exists j :: EmittedFor(b, j, m)
  {
    if b.0 in BuildingDefs() && b.1 > 0 {
      var mods := BuildingModifiers(b.0, b.1, BuildingDefs()[b.0]);
      BuildingModifiersEntries(b.0, b.1, BuildingDefs()[b.0]);
      if m in mods {
        var j :| 0 <= j < |mods| && mods[j] == m;
        assert EmittedFor(b, j, m);
      }
      if exists j :: EmittedFor(b, j, m) {
        var j :| EmittedFor(b, j, m);
        assert mods[j] == m;
      }
    }
  }

  /** The base modifiers are exactly one `add` at priority 0 per known building with count > 0 and
      per resource of its definition, worth the definition's value times the count. */
  lemma {:induction false} BaseModifiersMembers(buildings: seq<(string, int)>, m: Modifier)
    ensures m in BaseModifiers(buildings) <==> exists i, j :: 0 <= i < |buildings| && EmittedFor(buildings[i], j, m)
    decreases |buildings|
  {
    if buildings != [] {
      var prefix := buildings[..|buildings| - 1];
      var last := buildings[|buildings| - 1];
      BaseModifiersMembers(prefix, m);
      var fromLast := exists j :: EmittedFor(last, j, m);
      EmittedForMembers(last, m);
      if m in BaseModifiers(prefix) {
        var i, j :| 0 <= i < |prefix| && EmittedFor(prefix[i], j, m);
        assert buildings[i] == prefix[i];
      }
      if fromLast {
        var j :| EmittedFor(last, j, m);
        assert EmittedFor(buildings[|buildings| - 1], j, m);
      }
      if exists i, j :: 0 <= i < |buildings| && EmittedFor(buildings[i], j, m) {
        var i, j :| 0 <= i < |buildings| && EmittedFor(buildings[i], j, m);
        if i < |prefix| {
          assert EmittedFor(prefix[i], j, m);
        }
      }
    }
  }

  /** `getBaseModifiers`: the nested loops pushing one modifier per production entry. */
  method GetBaseModifiers(state: NodeState) returns (mods: seq<Modifier>)
    ensures mods == BaseModifiers(state.buildings)
  {
    mods := [];
    var i := 0;
    while i < |state.buildings|
      invariant 0 <= i <= |state.buildings|
      invariant mods == BaseModifiers(state.buildings[..i])
    {
      assert state.buildings[..i + 1][..i] == state.buildings[..i];
      var (id, count) := state.buildings[i];
      if id in BuildingDefs() && count > 0 {
        var production := BuildingDefs()[id];
        ghost var before := mods;
        var j := 0;
        while j < |production|
          invariant 0 <= j <= |production|
          invariant mods == before + BuildingModifiers(id, count, production[..j])
        {
          assert production[..j + 1][..j] == production[..j];
          mods := mods + [Modifier(ProductionPath(id, production[j].0), Add, Scaled(production[j].1, count as real), 0, None, Some(id))];
          j := j + 1;
        }
        assert production[..j] == production;
      }
      i := i + 1;
    }
    assert state.buildings[..i] == state.buildings;
  }

  // ---------------------------------------------------------------------------
  // Filtering and the stable sort
  // ---------------------------------------------------------------------------

  /** `!m.condition || m.condition(state)`. */
  predicate ConditionAllows(m: Modifier, state: NodeState) {
    m.condition.None? || Holds(m.condition.value, state)
  }

  /** The two filters of `resolve`, keeping list order. */
  function Applicable(mods: seq<Modifier>, path: string, state: NodeState): seq<Modifier> {
    if mods == [] then []
    else
      var last := mods[|mods| - 1];
      Applicable(mods[..|mods| - 1], path, state)
        + (if Matches(last.path, path) && ConditionAllows(last, state) then [last] else [])
  }

  /** `resolve` keeps exactly the modifiers whose path matches and whose condition, if any, holds. */
  lemma {:induction false} ApplicableMembers(mods: seq<Modifier>, path: string, state: NodeState)
    ensures forall m :: m in Applicable(mods, path, state) <==> m in mods && Matches(m.path, path) && ConditionAllows(m, state)
    decreases |mods|
  {
    if mods != [] {
      assert mods == mods[..|mods| - 1] + [mods[|mods| - 1]];
      ApplicableMembers(mods[..|mods| - 1], path, state);
    }
  }

  /** Places `m` after every element of priority at most its own (the stable insertion step). */
  function Insert(m: Modifier, s: seq<Modifier>): seq<Modifier> {
    if s == [] || s[|s| - 1].priority <= m.priority then s + [m]
    else Insert(m, s[..|s| - 1]) + [s[|s| - 1]]
  }

  /** `sort((a, b) => a.priority - b.priority)`: a stable sort by priority. */
  function SortByPriority(s: seq<Modifier>): seq<Modifier> {
    if s == [] then [] else Insert(s[|s| - 1], SortByPriority(s[..|s| - 1]))
  }

  ghost predicate Sorted(s: seq<Modifier>) {
    forall i, j :: 0 <= i < j < |s| ==> s[i].priority <= s[j].priority
  }

  /** The elements of priority `p`, in order. */
  function WithPriority(s: seq<Modifier>, p: int): seq<Modifier> {
    if s == [] then []
    else WithPriority(s[..|s| - 1], p) + (if s[|s| - 1].priority == p then [s[|s| - 1]] else [])
  }

  /** Inserting adds exactly `m` and nothing else. */
  lemma {:induction false} InsertPermutes(m: Modifier, s: seq<Modifier>)
    ensures |Insert(m, s)| == |s| + 1
    ensures multiset(Insert(m, s)) == multiset(s) + multiset{m}
    decreases |s|
  {
    if s != [] && s[|s| - 1].priority > m.priority {
      var s' := s[..|s| - 1];
      assert s == s' + [s[|s| - 1]];
      InsertPermutes(m, s');
    }
  }

  /** A sorted prefix of a sorted list. */
  lemma SortedPrefix(s: seq<Modifier>, n: nat)
    requires Sorted(s) && n <= |s|
    ensures Sorted(s[..n])
  {
    forall i, j | 0 <= i < j < n
      ensures s[..n][i].priority <= s[..n][j].priority
    {
      assert s[..n][i] == s[i] && s[..n][j] == s[j];
    }
  }

  /** Appending an element whose priority bounds every other keeps a list sorted. */
  lemma SortedSnoc(t: seq<Modifier>, x: Modifier)
    requires Sorted(t)
    requires forall i :: 0 <= i < |t| ==> t[i].priority <= x.priority
    ensures Sorted(t + [x])
  {
    forall i, j | 0 <= i < j < |t| + 1
      ensures (t + [x])[i].priority <= (t + [x])[j].priority
    {
      if j == |t| {
        assert (t + [x])[i] == t[i];
      } else {
        assert (t + [x])[i] == t[i] && (t + [x])[j] == t[j];
      }
    }
  }

  /** Inserting into a sorted list keeps it sorted. */
  lemma {:induction false} InsertSorted(m: Modifier, s: seq<Modifier>)
    requires Sorted(s)
    ensures Sorted(Insert(m, s))
    decreases |s|
  {
    if s == [] || s[|s| - 1].priority <= m.priority {
      forall i | 0 <= i < |s|
        ensures s[i].priority <= m.priority
      {
        if i < |s| - 1 {
          assert s[i].priority <= s[|s| - 1].priority;
        }
      }
      SortedSnoc(s, m);
    } else {
      var s' := s[..|s| - 1];
      var last := s[|s| - 1];
      SortedPrefix(s, |s| - 1);
      InsertSorted(m, s');
      InsertPermutes(m, s');
      var t := Insert(m, s');
      forall i | 0 <= i < |t|
        ensures t[i].priority <= last.priority
      {
        assert t[i] in multiset(s') + multiset{m} by {
          assert t[i] in multiset(t);
        }
        if t[i] != m {
          assert t[i] in s';
          var k :| 0 <= k < |s'| && s'[k] == t[i];
          assert s[k] == t[i];
        }
      }
      SortedSnoc(t, last);
    }
  }

  lemma {:induction false} InsertKeepsPriorityOrder(m: Modifier, s: seq<Modifier>, p: int)
    ensures WithPriority(Insert(m, s), p) == WithPriority(s, p) + (if m.priority == p then [m] else [])
    decreases |s|
  {
    if s == [] || s[|s| - 1].priority <= m.priority {
      WithPriorityAppend(s, m, p);
    } else {
      var s' := s[..|s| - 1];
      var last := s[|s| - 1];
      InsertKeepsPriorityOrder(m, s', p);
      WithPriorityAppend(Insert(m, s'), last, p);
      assert WithPriority(s, p) == WithPriority(s', p) + (if last.priority == p then [last] else []);
      if m.priority == p {
        assert last.priority != p;
      } else {
        assert WithPriority(Insert(m, s'), p) == WithPriority(s', p);
      }
    }
  }

  lemma WithPriorityAppend(s: seq<Modifier>, m: Modifier, p: int)
    ensures WithPriority(s + [m], p) == WithPriority(s, p) + (if m.priority == p then [m] else [])
  {
    assert (s + [m])[..|s + [m]| - 1] == s;
  }

  /** The sort orders by non-decreasing priority, keeps exactly the same modifiers, and is stable:
      the modifiers of any one priority keep their list order. */
  lemma {:induction false} SortByPriorityCorrect(s: seq<Modifier>)
    ensures Sorted(SortByPriority(s))
    ensures multiset(SortByPriority(s)) == multiset(s)
    ensures forall p :: WithPriority(SortByPriority(s), p) == WithPriority(s, p)
    decreases |s|
  {
    if s != [] {
      var s' := s[..|s| - 1];
      var m := s[|s| - 1];
      assert s == s' + [m];
      SortByPriorityCorrect(s');
      InsertSorted(m, SortByPriority(s'));
      InsertPermutes(m, SortByPriority(s'));
      forall p ensures WithPriority(SortByPriority(s), p) == WithPriority(s, p) {
        InsertKeepsPriorityOrder(m, SortByPriority(s'), p);
      }
    }
  }

  // ---------------------------------------------------------------------------
  // The fold and resolve
  // ---------------------------------------------------------------------------

  /** One step of the `switch` in `resolve`. */
  function Step(value: real, m: Modifier): real {
    match m.mode
    case Add => value + m.value
    case Mul => Scaled(value, m.value)
    case SetTo => m.value
  }

  /** The `for` loop of `resolve` from the starting value `start`. */
  function Fold(start: real, mods: seq<Modifier>): real {
    if mods == [] then start else Step(Fold(start, mods[..|mods| - 1]), mods[|mods| - 1])
  }

  lemma {:induction false} FoldConcat(start: real, a: seq<Modifier>, b: seq<Modifier>)
    ensures Fold(start, a + b) == Fold(Fold(start, a), b)
    decreases |b|
  {
    if b == [] {
      assert a + b == a;
    } else {
      assert (a + b)[..|a + b| - 1] == a + b[..|b| - 1];
      FoldConcat(start, a, b[..|b| - 1]);
    }
  }

  /** A `set` modifier discards everything applied before it, and everything after it still applies. */
  lemma SetDiscardsEarlier(start: real, before: seq<Modifier>, m: Modifier, after: seq<Modifier>)
    requires m.mode == SetTo
    ensures Fold(start, before + [m] + after) == Fold(m.value, after)
  {
    FoldConcat(start, before + [m], after);
    assert (before + [m])[..|before + [m]| - 1] == before;
  }

  /** `Number(value.toFixed(3))` on exact numbers: the nearest multiple of 1/1000, halves rounded away
      from zero. */
  function Round3(x: real): (r: real)
    ensures -0.0005 <= r - x <= 0.0005
  {
    if x < 0.0 then -RoundHalfUp3(-x) else RoundHalfUp3(x)
  }

  function RoundHalfUp3(y: real): (r: real)
    ensures -0.0005 < r - y <= 0.0005
  {
    ((y * 1000.0 + 0.5).Floor as real) / 1000.0
  }

  /** Every modifier `resolve` considers: the base ones, then the static ones. */
  function AllModifiers(state: NodeState): seq<Modifier> {
    BaseModifiers(state.buildings) + StaticModifiers()
  }

  /** The modifiers `resolve(path, state)` applies, in application order. */
  function Pipeline(path: string, state: NodeState): seq<Modifier> {
    SortByPriority(Applicable(AllModifiers(state), path, state))
  }

  /** `resolve(path, state)`. */
  function Resolve(path: string, state: NodeState): real {
    Round3(Fold(0.0, Pipeline(path, state)))
  }

  /** The modifiers applied are exactly the matching ones whose condition holds, in non-decreasing
      priority with list order kept among equal priorities (so base modifiers precede static ones of
      the same priority). */
  lemma PipelineCorrect(path: string, state: NodeState)
    ensures forall m :: m in Pipeline(path, state) <==>
      m in AllModifiers(state) && Matches(m.path, path) && ConditionAllows(m, state)
    ensures Sorted(Pipeline(path, state))
    ensures forall p :: WithPriority(Pipeline(path, state), p) == WithPriority(Applicable(AllModifiers(state), path, state), p)
  {
    var applicable := Applicable(AllModifiers(state), path, state);
    ApplicableMembers(AllModifiers(state), path, state);
    SortByPriorityCorrect(applicable);
    forall m ensures m in Pipeline(path, state) <==> m in applicable {
      assert m in Pipeline(path, state) <==> multiset(Pipeline(path, state))[m] > 0;
      assert m in applicable <==> multiset(applicable)[m] > 0;
    }
  }

  /** A path no modifier applies to (none matches it with its condition holding) resolves to 0. */
  lemma NothingApplicableResolvesZero(path: string, state: NodeState)
    requires forall m :: m in AllModifiers(state) ==> !(Matches(m.path, path) && ConditionAllows(m, state))
    ensures Resolve(path, state) == 0.0
  {
    assert Pipeline(path, state) == [] by {
      PipelineCorrect(path, state);
      NoMembersEmpty(Pipeline(path, state));
    }
    assert Round3(0.0) == 0.0 by {
      assert (0.0 * 1000.0 + 0.5).Floor == 0;
    }
  }

  lemma NoMembersEmpty(s: seq<Modifier>)
    ensures (forall m :: m !in s) ==> s == []
  {
    if s != [] {
      assert s[0] in s;
    }
  }

  /** `resolve`: the pipeline, the loop over it, and the rounding. */
  method ResolvePath(path: string, state: NodeState) returns (result: real)
    ensures result == Resolve(path, state)
  {
    var base := GetBaseModifiers(state);
    var mods := SortByPriority(Applicable(base + StaticModifiers(), path, state));
    var value := ApplyModifiers(mods);
    result := Round3(value);
  }

  /** The `for` loop of `resolve`, starting from 0. */
  method ApplyModifiers(mods: seq<Modifier>) returns (value: real)
    ensures value == Fold(0.0, mods)
  {
    value := 0.0;
    var i := 0;
    while i < |mods|
      invariant 0 <= i <= |mods|
      invariant value == Fold(0.0, mods[..i])
    {
      assert mods[..i + 1][..i] == mods[..i];
      var m := mods[i];
      match m.mode {
        case Add => value := value + m.value;
        case Mul => value := Scaled(value, m.value);
        case SetTo => value := m.value;
      }
      i := i + 1;
    }
    assert mods[..i] == mods;
  }

  // ---------------------------------------------------------------------------
  // The demonstration of node-test.ts
  // ---------------------------------------------------------------------------

  /** With two mitochondria the ATP production resolves to 8 × 1.2 × 1.1 = 10.56 at waste 10, and the
      waste penalty (×0.5, gated on waste ≥ 50) halves it to 5.28 at waste 80. */
  lemma MitochondrionDemo()
    ensures Resolve("building.mitochondrion.production.atp", NodeState(10.0, [("mitochondrion", 2)])) == 10.56
    ensures Resolve("building.mitochondrion.production.atp", NodeState(80.0, [("mitochondrion", 2)])) == 5.28
  {
    DemoResolves(10.0);
    DemoResolves(80.0);
  }

  /** The demonstration at any waste level: 10.56 below the penalty's threshold, 5.28 from it on. */
  lemma DemoResolves(waste: real)
    ensures Resolve("building.mitochondrion.production.atp", NodeState(waste, [("mitochondrion", 2)])) ==
      if waste >= 50.0 then 5.28 else 10.56
  {
    var mods := DemoPipeline(waste);
    if waste >= 50.0 {
      assert Fold(0.0, mods) == 5280 as real / 1000.0 by {
        FoldFour(mods[0], mods[1], mods[2], mods[3]);
        assert mods == [mods[0], mods[1], mods[2], mods[3]];
      }
      RoundsExactly(5280);
    } else {
      assert Fold(0.0, mods) == 10560 as real / 1000.0 by {
        FoldThree(mods[0], mods[1], mods[2]);
        assert mods == [mods[0], mods[1], mods[2]];
      }
      RoundsExactly(10560);
    }
  }

  /** The modifiers applied for the mitochondrion's ATP with two mitochondria: the base `add` of 8,
      the ×1.2 and ×1.1 multipliers of priority 100, and the ×0.5 penalty only at waste ≥ 50. */
  lemma DemoPipeline(waste: real) returns (mods: seq<Modifier>)
    ensures mods == Pipeline("building.mitochondrion.production.atp", NodeState(waste, [("mitochondrion", 2)]))
    ensures |mods| == if waste >= 50.0 then 4 else 3
    ensures mods[0].mode == Add && mods[0].value == 8.0
    ensures mods[1].mode == Mul && mods[1].value == 1.2
    ensures mods[2].mode == Mul && mods[2].value == 1.1
    ensures waste >= 50.0 ==> mods[3].mode == Mul && mods[3].value == 0.5
  {
    var target: string := "building.mitochondrion.production.atp";
    var state := NodeState(waste, [("mitochondrion", 2)]);
    var atp, nut := DemoBase();
    var statics := StaticModifiers();
    var low := [atp, statics[0], statics[1]];
    mods := if waste >= 50.0 then low + [statics[2]] else low;
    assert Applicable(AllModifiers(state), target, state) == mods by {
      DemoMatches();
      FilterFive(atp, nut, statics, target, state);
    }
    assert SortByPriority(mods) == mods by {
      SortedStaysPut(mods);
    }
  }

  /** The path facts the demonstration needs. */
  lemma DemoMatches()
    ensures var target, statics := "building.mitochondrion.production.atp", StaticModifiers();
      Matches(target, target) && !Matches("building.mitochondrion.production.nutrients", target) &&
      Matches(statics[0].path, target) && Matches(statics[1].path, target) && Matches(statics[2].path, target)
  {
    var target: string := "building.mitochondrion.production.atp";
    var nutrients: string := "building.mitochondrion.production.nutrients";
    assert nutrients != target by {
      assert |nutrients| != |target|;
    }
    assert nutrients[|nutrients| - 2..] != ".*" by {
      assert nutrients[|nutrients| - 1] == 's';
    }
    var p := StaticModifiers()[1].path;
    assert p[|p| - 2..] == ".*";
    assert p[..|p| - 2] == "building.mitochondrion.production";
  }

  lemma ApplicableSnoc(s: seq<Modifier>, m: Modifier, path: string, state: NodeState)
    ensures Applicable(s + [m], path, state) ==
      Applicable(s, path, state) + (if Matches(m.path, path) && ConditionAllows(m, state) then [m] else [])
  {
    assert (s + [m])[..|s + [m]| - 1] == s;
  }

  /** The two filters over the two base modifiers followed by three static ones, when all but the
      second base modifier match and only the last static one is conditional. */
  lemma FilterFive(a: Modifier, n: Modifier, statics: seq<Modifier>, t: string, state: NodeState)
    requires |statics| == 3
    requires Matches(a.path, t) && !Matches(n.path, t)
    requires Matches(statics[0].path, t) && Matches(statics[1].path, t) && Matches(statics[2].path, t)
    requires a.condition.None? && statics[0].condition.None? && statics[1].condition.None?
    ensures Applicable([a, n] + statics, t, state) ==
      [a, statics[0], statics[1]] + (if ConditionAllows(statics[2], state) then [statics[2]] else [])
  {
    var s0, s1, s2 := statics[0], statics[1], statics[2];
    assert ConditionAllows(a, state) && ConditionAllows(s0, state) && ConditionAllows(s1, state);
    ApplicableSnoc([], a, t, state);
    assert [] + [a] == [a];
    assert Applicable([a], t, state) == [a];
    ApplicableSnoc([a], n, t, state);
    assert [a] + [n] == [a, n];
    assert Applicable([a, n], t, state) == [a];
    ApplicableSnoc([a, n], s0, t, state);
    assert [a, n] + [s0] == [a, n, s0];
    assert Applicable([a, n, s0], t, state) == [a, s0];
    ApplicableSnoc([a, n, s0], s1, t, state);
    assert [a, n, s0] + [s1] == [a, n, s0, s1];
    assert Applicable([a, n, s0, s1], t, state) == [a, s0, s1];
    ApplicableSnoc([a, n, s0, s1], s2, t, state);
    assert statics == [s0, s1, s2];
    assert [a, n] + statics == [a, n, s0, s1] + [s2];
  }

  /** A list already in priority order is left as it is by the stable sort. */
  lemma {:induction false} SortedStaysPut(s: seq<Modifier>)
    requires Sorted(s)
    ensures SortByPriority(s) == s
    decreases |s|
  {
    if s != [] {
      var s' := s[..|s| - 1];
      var m := s[|s| - 1];
      SortedPrefix(s, |s| - 1);
      SortedStaysPut(s');
      if s' != [] {
        assert s'[|s'| - 1] == s[|s| - 2];
      }
      assert Insert(m, s') == s' + [m];
      assert s == s' + [m];
    }
  }

  lemma FoldThree(a: Modifier, m1: Modifier, m2: Modifier)
    requires a.mode == Add && a.value == 8.0 && m1.mode == Mul && m1.value == 1.2 && m2.mode == Mul && m2.value == 1.1
    ensures Fold(0.0, [a, m1, m2]) == 10560 as real / 1000.0
  {
    assert [a, m1, m2][..2] == [a, m1];
    assert [a, m1][..1] == [a];
    assert [a][..0] == [];
    assert Fold(0.0, [a]) == 8.0;
    assert Fold(0.0, [a, m1]) == Scaled(8.0, 1.2);
  }

  lemma FoldFour(a: Modifier, m1: Modifier, m2: Modifier, m3: Modifier)
    requires a.mode == Add && a.value == 8.0 && m1.mode == Mul && m1.value == 1.2 && m2.mode == Mul && m2.value == 1.1
    requires m3.mode == Mul && m3.value == 0.5
    ensures Fold(0.0, [a, m1, m2, m3]) == 5280 as real / 1000.0
  {
    assert [a, m1, m2, m3][..3] == [a, m1, m2];
    FoldThree(a, m1, m2);
  }

  /** A multiple of 1/1000 is left as it is by the rounding. */
  lemma RoundsExactly(n: nat)
    ensures Round3(n as real / 1000.0) == n as real / 1000.0
  {
    var y := n as real / 1000.0;
    assert y * 1000.0 + 0.5 == n as real + 0.5;
    assert (n as real + 0.5).Floor == n;
  }

  /** The base modifiers of the demonstration: 8 ATP and -2 nutrients from two mitochondria. */
  lemma DemoBase() returns (atp: Modifier, nut: Modifier)
    ensures BaseModifiers([("mitochondrion", 2)]) == [atp, nut]
    ensures atp == Modifier("building.mitochondrion.production.atp", Add, 8.0, 0, None, Some("mitochondrion"))
    ensures nut == Modifier("building.mitochondrion.production.nutrients", Add, -2.0, 0, None, Some("mitochondrion"))
  {
    atp := Modifier("building.mitochondrion.production.atp", Add, 8.0, 0, None, Some("mitochondrion"));
    nut := Modifier("building.mitochondrion.production.nutrients", Add, -2.0, 0, None, Some("mitochondrion"));
    var production := BuildingDefs()["mitochondrion"];
    assert production == [("atp", 4.0), ("nutrients", -1.0)];
    assert BuildingModifiers("mitochondrion", 2, production) == [atp, nut] by {
      TwoEntries("mitochondrion", 2, production);
      DemoPaths();
      assert Scaled(4.0, 2 as real) == 8.0 && Scaled(-1.0, 2 as real) == -2.0;
    }
    SingleBuilding("mitochondrion", 2);
  }

  /** The production paths of the mitochondrion's two resources. */
  lemma DemoPaths()
    ensures ProductionPath("mitochondrion", "atp") == "building.mitochondrion.production.atp"
    ensures ProductionPath("mitochondrion", "nutrients") == "building.mitochondrion.production.nutrients"
  {
    AtpPath();
  }

  lemma AtpPath()
    ensures ProductionPath("mitochondrion", "atp") == "building.mitochondrion.production.atp"
  {
  }

  /** A definition with two production entries yields exactly two modifiers, in entry order. */
  lemma TwoEntries(id: string, count: int, production: seq<(string, real)>)
    requires |production| == 2
    ensures BuildingModifiers(id, count, production) ==
      [Modifier(ProductionPath(id, production[0].0), Add, Scaled(production[0].1, count as real), 0, None, Some(id)),
       Modifier(ProductionPath(id, production[1].0), Add, Scaled(production[1].1, count as real), 0, None, Some(id))]
  {
    BuildingModifiersEntries(id, count, production);
  }

  /** A single known building with a positive count contributes exactly its own modifiers. */
  lemma SingleBuilding(id: string, count: int)
    requires id in BuildingDefs() && count > 0
    ensures BaseModifiers([(id, count)]) == BuildingModifiers(id, count, BuildingDefs()[id])
  {
    assert [(id, count)][..0] == [];
  }
}
