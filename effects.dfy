/** Effects and the add -> mult -> set reductions of the Cell Stage engine
    (assets/js/GameState.js: `performAction`, `getActionValue`, `Building._getProduction`,
    `Building._getWasteProduction`). */
module Effects {
  import opened Wrappers

  /** The `type` tag of an effect; any tag other than the three known ones is ignored by every reduction. */
  datatype Kind = Additive | Multiplicative | SetValue | Unrecognised

  /** One effect object `{type, resource?, value, building?}`. */
  datatype Effect = Effect(kind: Kind, resource: Option<string>, value: real, building: Option<string>)

  /** The property name JavaScript uses for `obj[eff.resource]`: a missing resource becomes "undefined". */
  function KeyOf(resource: Option<string>): string {
    if resource.Some? then resource.value else "undefined"
  }

  /** Truthiness of `eff.resource`: a multiplicative effect is resource-scoped only when the name is present and non-empty. */
  predicate Scoped(e: Effect) {
    e.resource.Some? && e.resource.value != ""
  }

  /** The effects of one kind, in collection order (the grouping `reduce` of the source). */
  function OfKind(effs: seq<Effect>, k: Kind): (r: seq<Effect>)
    ensures |r| <= |effs|
    ensures forall i :: 0 <= i < |r| ==> r[i].kind == k
  {
    if effs == [] then []
    else OfKind(effs[..|effs| - 1], k) + (if effs[|effs| - 1].kind == k then [effs[|effs| - 1]] else [])
  }

  /** Grouping keeps every copy of an effect of kind `k` and drops every copy of any other effect. */
  lemma {:induction false} OfKindCounts(effs: seq<Effect>, k: Kind, e: Effect)
    ensures multiset(OfKind(effs, k))[e] == if e.kind == k then multiset(effs)[e] else 0
    decreases |effs|
  {
    if effs != [] {
      var prefix, last := effs[..|effs| - 1], effs[|effs| - 1];
      var kept := if last.kind == k then [last] else [];
      assert multiset(effs) == multiset(prefix) + multiset{last} by {
        assert effs == prefix + [last];
      }
      assert multiset(OfKind(effs, k)) == multiset(OfKind(prefix, k)) + multiset(kept) by {
        assert OfKind(effs, k) == OfKind(prefix, k) + kept;
      }
      OfKindCounts(prefix, k, e);
    }
  }

  /** Effect lists holding the same effects, in any order, group into lists holding the same effects. */
  lemma OfKindPermutes(e1: seq<Effect>, e2: seq<Effect>, k: Kind)
    requires multiset(e1) == multiset(e2)
    ensures multiset(OfKind(e1, k)) == multiset(OfKind(e2, k))
  {
    forall e ensures multiset(OfKind(e1, k))[e] == multiset(OfKind(e2, k))[e] {
      OfKindCounts(e1, k, e);
      OfKindCounts(e2, k, e);
    }
  }

  lemma {:induction false} OfKindConcat(a: seq<Effect>, b: seq<Effect>, k: Kind)
    ensures OfKind(a + b, k) == OfKind(a, k) + OfKind(b, k)
    decreases |b|
  {
    if b == [] {
      assert a + b == a;
    } else {
      var b' := b[..|b| - 1];
      assert (a + b)[..|a + b| - 1] == a + b';
      OfKindConcat(a, b', k);
    }
  }

  // ---------------------------------------------------------------------------
  // Scalar reduction: action values and waste rates
  // ---------------------------------------------------------------------------

  function SumValues(s: seq<Effect>): real {
    if s == [] then 0.0 else SumValues(s[..|s| - 1]) + s[|s| - 1].value
  }

  function ProductValues(s: seq<Effect>): real {
    if s == [] then 1.0 else ProductValues(s[..|s| - 1]) * s[|s| - 1].value
  }

  lemma {:induction false} SumValuesConcat(a: seq<Effect>, b: seq<Effect>)
    ensures SumValues(a + b) == SumValues(a) + SumValues(b)
    decreases |b|
  {
    if b == [] {
      assert a + b == a;
    } else {
      var b' := b[..|b| - 1];
      assert (a + b)[..|a + b| - 1] == a + b';
      SumValuesConcat(a, b');
    }
  }

  lemma {:induction false} ProductValuesConcat(a: seq<Effect>, b: seq<Effect>)
    ensures ProductValues(a + b) == ProductValues(a) * ProductValues(b)
    decreases |b|
  {
    if b == [] {
      assert a + b == a;
    } else {
      var b' := b[..|b| - 1];
      assert (a + b)[..|a + b| - 1] == a + b';
      ProductValuesConcat(a, b');
    }
  }

  /** What the three grouped loops compute from `base`: every additive value summed onto the base, the
      result scaled by every multiplicative value, and the whole replaced by the last `set` value if any. */
  function ScalarReduce(base: real, effs: seq<Effect>): real {
    var sets := OfKind(effs, SetValue);
    if sets != [] then sets[|sets| - 1].value
    else Scaled(base + SumValues(OfKind(effs, Additive)), ProductValues(OfKind(effs, Multiplicative)))
  }

  /** The product `x * factor`. Products are written through this function so that proofs can name them
      as terms; the lemmas below give the facts about it the model relies on. */
  function Scaled(x: real, factor: real): real {
    x * factor
  }

  lemma ScaledSign(x: real, factor: real)
    ensures x == 0.0 || factor == 0.0 ==> Scaled(x, factor) == 0.0
    ensures 0.0 <= x && 0.0 <= factor ==> 0.0 <= Scaled(x, factor)
    ensures x <= 0.0 && 0.0 <= factor ==> Scaled(x, factor) <= 0.0
  {
  }

  lemma ScaledAssociates(x: real, y: real, z: real)
    ensures Scaled(x, Scaled(y, z)) == Scaled(Scaled(x, y), z)
  {
  }

  lemma ScaledDistributes(x: real, y: real, factor: real)
    ensures Scaled(x + y, factor) == Scaled(x, factor) + Scaled(y, factor)
  {
  }

  lemma ScaledAddsFactors(x: real, f: real, g: real)
    ensures Scaled(x, f + g) == Scaled(x, f) + Scaled(x, g)
  {
  }

  /** The grouped forEach loops shared by `performAction`, `getActionValue` (base 0) and
      `_getWasteProduction` (base `data.wasteProduction || 0`). */
  method Reduce(base: real, effs: seq<Effect>) returns (total: real)
    ensures total == ScalarReduce(base, effs)
  {
    total := SumLoop(base, OfKind(effs, Additive));
    total := ProductLoop(total, OfKind(effs, Multiplicative));
    ghost var scaled := total;
    var sets := OfKind(effs, SetValue);
    var i := 0;
    while i < |sets|
      invariant 0 <= i <= |sets|
      invariant i == 0 ==> total == scaled
      invariant i > 0 ==> total == sets[i - 1].value
    {
      total := sets[i].value;
      i := i + 1;
    }
  }

  /** The loop over the additive effects. */
  method SumLoop(start: real, adds: seq<Effect>) returns (total: real)
    ensures total == start + SumValues(adds)
  {
    total := start;
    var i := 0;
    while i < |adds|
      invariant 0 <= i <= |adds|
      invariant total == start + SumValues(adds[..i])
    {
      assert adds[..i + 1][..i] == adds[..i];
      total := total + adds[i].value;
      i := i + 1;
    }
    assert adds[..i] == adds;
  }

  /** The loop over the multiplicative effects. */
  method ProductLoop(start: real, mults: seq<Effect>) returns (total: real)
    ensures total == Scaled(start, ProductValues(mults))
  {
    total := start;
    var i := 0;
    while i < |mults|
      invariant 0 <= i <= |mults|
      invariant total == Scaled(start, ProductValues(mults[..i]))
    {
      assert mults[..i + 1][..i] == mults[..i];
      ScaledAssociates(start, ProductValues(mults[..i]), mults[i].value);
      total := total * mults[i].value;
      i := i + 1;
    }
    assert mults[..i] == mults;
  }

  /** With no `set` effect among them, effects reduce to the same value in every collection order:
      additive values are all summed before any multiplier is applied, and both are commutative. */
  lemma StackingOrderIrrelevant(base: real, e1: seq<Effect>, e2: seq<Effect>)
    requires multiset(e1) == multiset(e2)
    requires OfKind(e1, SetValue) == []
    ensures ScalarReduce(base, e1) == ScalarReduce(base, e2)
  {
    NoSetsPermute(e1, e2);
    var a1, a2 := OfKind(e1, Additive), OfKind(e2, Additive);
    var m1, m2 := OfKind(e1, Multiplicative), OfKind(e2, Multiplicative);
    assert SumValues(a1) == SumValues(a2) by {
      OfKindPermutes(e1, e2, Additive);
      SumPermutes(a1, a2);
    }
    assert ProductValues(m1) == ProductValues(m2) by {
      OfKindPermutes(e1, e2, Multiplicative);
      ProductPermutes(m1, m2);
    }
  }

  lemma NoSetsPermute(e1: seq<Effect>, e2: seq<Effect>)
    requires multiset(e1) == multiset(e2)
    requires OfKind(e1, SetValue) == []
    ensures OfKind(e2, SetValue) == []
  {
    OfKindPermutes(e1, e2, SetValue);
    assert |multiset(OfKind(e2, SetValue))| == 0;
  }

  /** Taking out the last element of `s` and some copy of it from `t` leaves two permutations of each other. */
  lemma RemoveMatching<T>(s: seq<T>, t: seq<T>) returns (i: int)
    requires multiset(s) == multiset(t) && s != []
    ensures 0 <= i < |t| && t[i] == s[|s| - 1]
    ensures t == t[..i] + [t[i]] + t[i + 1..]
    ensures multiset(s[..|s| - 1]) == multiset(t[..i] + t[i + 1..])
  {
    var prefix, x := s[..|s| - 1], s[|s| - 1];
    assert multiset(s) == multiset(prefix) + multiset{x} by {
      assert s == prefix + [x];
    }
    assert x in multiset(t);
    i :| 0 <= i < |t| && t[i] == x;
    var front, back := t[..i], t[i + 1..];
    assert t == front + [x] + back;
    assert multiset(t) == multiset(front + back) + multiset{x} by {
      assert multiset(t) == multiset(front) + multiset{x} + multiset(back);
      assert multiset(front + back) == multiset(front) + multiset(back);
    }
    forall e ensures multiset(prefix)[e] == multiset(front + back)[e] {
      assert multiset(s)[e] == multiset(t)[e];
    }
  }

  /** The sum of the values does not depend on their order. */
  lemma {:induction false} SumPermutes(s: seq<Effect>, t: seq<Effect>)
    requires multiset(s) == multiset(t)
    ensures SumValues(s) == SumValues(t)
    decreases |s|
  {
    if s != [] {
      var i := RemoveMatching(s, t);
      var x, front, back := t[i], t[..i], t[i + 1..];
      assert SumValues(s) == SumValues(front + back) + x.value by {
        SumPermutes(s[..|s| - 1], front + back);
      }
      assert SumValues(t) == SumValues(front + back) + x.value by {
        assert SumValues([x]) == x.value by {
          assert [x][..0] == [];
        }
        SumValuesConcat(front + [x], back);
        SumValuesConcat(front, [x]);
        SumValuesConcat(front, back);
      }
    }
  }

  /** The product of the values does not depend on their order. */
  lemma {:induction false} ProductPermutes(s: seq<Effect>, t: seq<Effect>)
    requires multiset(s) == multiset(t)
    ensures ProductValues(s) == ProductValues(t)
    decreases |s|
  {
    if s != [] {
      var i := RemoveMatching(s, t);
      var x, front, back := t[i], t[..i], t[i + 1..];
      assert ProductValues(s) == ProductValues(front + back) * x.value by {
        ProductPermutes(s[..|s| - 1], front + back);
      }
      assert ProductValues(t) == ProductValues(front + back) * x.value by {
        assert ProductValues([x]) == x.value by {
          assert [x][..0] == [];
        }
        var a, b := ProductValues(front), ProductValues(back);
        calc {
          ProductValues(t);
          { ProductValuesConcat(front + [x], back); }
          ProductValues(front + [x]) * b;
          { ProductValuesConcat(front, [x]); }
          a * x.value * b;
          { Rearranged(a, x.value, b); }
          a * b * x.value;
          { ProductValuesConcat(front, back); }
          ProductValues(front + back) * x.value;
        }
      }
    }
  }

  lemma Rearranged(a: real, x: real, b: real)
    ensures a * x * b == a * b * x
  {
  }

  /** A `set` effect followed by no other `set` decides the value, whatever the base and whatever
      additive or multiplicative effects surround it. */
  lemma LastSetWins(base: real, before: seq<Effect>, e: Effect, after: seq<Effect>)
    requires e.kind == SetValue
    requires OfKind(after, SetValue) == []
    ensures ScalarReduce(base, before + [e] + after) == e.value
  {
    OfKindConcat(before + [e], after, SetValue);
    OfKindConcat(before, [e], SetValue);
    assert OfKind([e], SetValue) == [e] by {
      assert [e][..0] == [];
    }
  }

  // ---------------------------------------------------------------------------
  // Per-resource reduction: a building's production map
  // ---------------------------------------------------------------------------

  /** The additive loop: `if (!total[res]) total[res] = 0; total[res] += value`. */
  function AddPhase(adds: seq<Effect>): map<string, real> {
    if adds == [] then map[]
    else
      var prev := AddPhase(adds[..|adds| - 1]);
      var e := adds[|adds| - 1];
      var k := KeyOf(e.resource);
      prev[k := (if k in prev then prev[k] else 0.0) + e.value]
  }

  /** Whether a multiplicative effect scales the entry `r`: unscoped ones scale every entry. */
  predicate Applies(m: Effect, r: string) {
    !Scoped(m) || m.resource.value == r
  }

  /** One multiplicative effect. A scoped one scales its resource's entry only when that entry is present
      and nonzero, an unscoped one every entry; since a zero entry stays zero when scaled, the nonzero
      test never changes a value and no entry is ever created. */
  function MultStep(total: map<string, real>, m: Effect): (r: map<string, real>)
    ensures r.Keys == total.Keys
    ensures forall k :: k in total ==> r[k] == if Applies(m, k) then Scaled(total[k], m.value) else total[k]
  {
    if Scoped(m) then
      var k := m.resource.value;
      if k in total && total[k] != 0.0 then total[k := Scaled(total[k], m.value)] else total
    else
      map r | r in total :: Scaled(total[r], m.value)
  }

  function MultPhase(total: map<string, real>, mults: seq<Effect>): map<string, real> {
    if mults == [] then total else MultStep(MultPhase(total, mults[..|mults| - 1]), mults[|mults| - 1])
  }

  /** The `set` loop: `total[eff.resource] = eff.value`. */
  function SetPhase(total: map<string, real>, sets: seq<Effect>): map<string, real> {
    if sets == [] then total
    else SetPhase(total, sets[..|sets| - 1])[KeyOf(sets[|sets| - 1].resource) := sets[|sets| - 1].value]
  }

  /** The production map `_getProduction` builds from a collected effect list. */
  function ProductionMap(effs: seq<Effect>): map<string, real> {
    SetPhase(MultPhase(AddPhase(OfKind(effs, Additive)), OfKind(effs, Multiplicative)), OfKind(effs, SetValue))
  }

  // Reference definitions, entry by entry.

  /** The entries the additive effects create. */
  function AddKeys(adds: seq<Effect>): set<string> {
    if adds == [] then {} else AddKeys(adds[..|adds| - 1]) + {KeyOf(adds[|adds| - 1].resource)}
  }

  /** The sum of the additive values aimed at entry `r`. */
  function SumFor(adds: seq<Effect>, r: string): real {
    if adds == [] then 0.0
    else if KeyOf(adds[|adds| - 1].resource) == r then SumFor(adds[..|adds| - 1], r) + adds[|adds| - 1].value
    else SumFor(adds[..|adds| - 1], r)
  }

  /** The product of the multipliers that apply to entry `r`. */
  function ProductFor(mults: seq<Effect>, r: string): real {
    if mults == [] then 1.0
    else if Applies(mults[|mults| - 1], r) then Scaled(ProductFor(mults[..|mults| - 1], r), mults[|mults| - 1].value)
    else ProductFor(mults[..|mults| - 1], r)
  }

  /** The value of the last `set` effect aimed at `r`, if there is one. */
  function LastSetFor(sets: seq<Effect>, r: string): Option<real> {
    if sets == [] then None
    else if KeyOf(sets[|sets| - 1].resource) == r then Some(sets[|sets| - 1].value)
    else LastSetFor(sets[..|sets| - 1], r)
  }

  lemma {:induction false} SumForAbsent(adds: seq<Effect>, r: string)
    requires r !in AddKeys(adds)
    ensures SumFor(adds, r) == 0.0
    decreases |adds|
  {
    if adds != [] {
      SumForAbsent(adds[..|adds| - 1], r);
    }
  }

  /** After the additive loop, the entries are exactly the resources some additive effect names, each
      holding the sum of that resource's additive values. */
  lemma {:induction false} AddPhaseSums(adds: seq<Effect>)
    ensures AddPhase(adds).Keys == AddKeys(adds)
    ensures forall r :: r in AddPhase(adds) ==> AddPhase(adds)[r] == SumFor(adds, r)
    decreases |adds|
  {
    if adds != [] {
      var prefix := adds[..|adds| - 1];
      AddPhaseSums(prefix);
      forall r | r in AddPhase(adds)
        ensures AddPhase(adds)[r] == SumFor(adds, r)
      {
        if r !in AddPhase(prefix) {
          SumForAbsent(prefix, r);
        }
      }
    }
  }

  lemma {:induction false} MultPhaseKeys(total: map<string, real>, mults: seq<Effect>)
    ensures MultPhase(total, mults).Keys == total.Keys
    decreases |mults|
  {
    if mults != [] {
      MultPhaseKeys(total, mults[..|mults| - 1]);
    }
  }

  /** After the multiplicative loop each entry is its starting value times every multiplier that applies to it. */
  lemma {:induction false} MultPhaseScales(total: map<string, real>, mults: seq<Effect>, r: string)
    requires r in total
    ensures r in MultPhase(total, mults)
    ensures MultPhase(total, mults)[r] == Scaled(total[r], ProductFor(mults, r))
    decreases |mults|
  {
    MultPhaseKeys(total, mults);
    if mults != [] {
      var prefix := mults[..|mults| - 1];
      var m := mults[|mults| - 1];
      MultPhaseScales(total, prefix, r);
      if Applies(m, r) {
        ScaledAssociates(total[r], ProductFor(prefix, r), m.value);
      }
    }
  }

  /** After the `set` loop an entry holds the value of the last `set` aimed at it, and otherwise its
      value from before the loop; every resource a `set` names has an entry. */
  lemma {:induction false} SetPhaseOverrides(total: map<string, real>, sets: seq<Effect>, r: string)
    ensures r in SetPhase(total, sets) <==> r in total || LastSetFor(sets, r).Some?
    ensures r in SetPhase(total, sets) ==>
      SetPhase(total, sets)[r] == if LastSetFor(sets, r).Some? then LastSetFor(sets, r).value else total[r]
    decreases |sets|
  {
    if sets != [] {
      SetPhaseOverrides(total, sets[..|sets| - 1], r);
    }
  }

  /** The production map entry by entry: a resource has an entry iff an additive or a `set` effect names
      it; its value is the last `set` aimed at it if there is one, and otherwise the sum of its additive
      values times every multiplier that applies to it. */
  lemma ProductionClosedForm(effs: seq<Effect>, r: string)
    ensures var adds, mults, sets := OfKind(effs, Additive), OfKind(effs, Multiplicative), OfKind(effs, SetValue);
      (r in ProductionMap(effs) <==> r in AddKeys(adds) || LastSetFor(sets, r).Some?) &&
      (r in ProductionMap(effs) ==>
        ProductionMap(effs)[r] == LastSetFor(sets, r).GetOr(Scaled(SumFor(adds, r), ProductFor(mults, r))))
  {
    var adds, mults, sets := OfKind(effs, Additive), OfKind(effs, Multiplicative), OfKind(effs, SetValue);
    var added := AddPhase(adds);
    AddPhaseSums(adds);
    MultPhaseKeys(added, mults);
    var scaled := MultPhase(added, mults);
    SetPhaseOverrides(scaled, sets, r);
    if r in added {
      MultPhaseScales(added, mults, r);
    }
  }

  /** The forEach loops of `_getProduction` over an already-collected effect list. */
  method ReduceProduction(effs: seq<Effect>) returns (total: map<string, real>)
    ensures total == ProductionMap(effs)
  {
    total := AddLoop(OfKind(effs, Additive));
    total := MultLoop(total, OfKind(effs, Multiplicative));
    total := SetLoop(total, OfKind(effs, SetValue));
  }

  /** The loop over the additive effects, from an empty map. */
  method AddLoop(adds: seq<Effect>) returns (total: map<string, real>)
    ensures total == AddPhase(adds)
  {
    total := map[];
    var i := 0;
    while i < |adds|
      invariant 0 <= i <= |adds|
      invariant total == AddPhase(adds[..i])
    {
      assert adds[..i + 1][..i] == adds[..i];
      var k := KeyOf(adds[i].resource);
      if k !in total || total[k] == 0.0 {
        total := total[k := 0.0];
      }
      total := total[k := total[k] + adds[i].value];
      i := i + 1;
    }
    assert adds[..i] == adds;
  }

  /** The loop over the multiplicative effects. */
  method MultLoop(start: map<string, real>, mults: seq<Effect>) returns (total: map<string, real>)
    ensures total == MultPhase(start, mults)
  {
    total := start;
    var i := 0;
    while i < |mults|
      invariant 0 <= i <= |mults|
      invariant total == MultPhase(start, mults[..i])
    {
      assert mults[..i + 1][..i] == mults[..i];
      var m := mults[i];
      if Scoped(m) {
        var k := m.resource.value;
        if k in total && total[k] != 0.0 {
          total := total[k := Scaled(total[k], m.value)];
        }
      } else {
        total := ScaleAll(total, m.value);
      }
      i := i + 1;
    }
    assert mults[..i] == mults;
  }

  /** The loop over the `set` effects. */
  method SetLoop(start: map<string, real>, sets: seq<Effect>) returns (total: map<string, real>)
    ensures total == SetPhase(start, sets)
  {
    total := start;
    var i := 0;
    while i < |sets|
      invariant 0 <= i <= |sets|
      invariant total == SetPhase(start, sets[..i])
    {
      assert sets[..i + 1][..i] == sets[..i];
      total := total[KeyOf(sets[i].resource) := sets[i].value];
      i := i + 1;
    }
    assert sets[..i] == sets;
  }

  /** `for (const res in totalProduction) totalProduction[res] *= value`. */
  method ScaleAll(m: map<string, real>, factor: real) returns (r: map<string, real>)
    ensures r.Keys == m.Keys
    ensures forall k :: k in m ==> r[k] == Scaled(m[k], factor)
  {
    r := m;
    var todo := m.Keys;
    while todo != {}
      invariant todo <= m.Keys && r.Keys == m.Keys
      invariant forall k :: k in r ==> r[k] == if k in todo then m[k] else Scaled(m[k], factor)
      decreases todo
    {
      var k :| k in todo;
      r := r[k := Scaled(r[k], factor)];
      todo := todo - {k};
    }
  }
}
