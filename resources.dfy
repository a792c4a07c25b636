/** `flattenDefs` and the `RESOURCES` table (assets/js/resources.js): a table of layers, each a table
    of definitions, becomes one table keyed by `layer.key`. A JavaScript object is modelled by the
    sequence of its entries in `for...in` order. */
module Resources {

  /** The id of definition `key` of layer `layer`: `${layer}.${key}`. */
  function Id(layer: string, key: string): (id: string)
    ensures |id| == |layer| + 1 + |key|
    ensures id[..|layer|] == layer && id[|layer|] == '.' && id[|layer| + 1..] == key
  {
    layer + "." + key
  }

  /** The `(id, definition)` pairs of one layer, in entry order. */
  function LayerPairs<V>(layer: string, entries: seq<(string, V)>): (ps: seq<(string, V)>)
    ensures |ps| == |entries|
    ensures forall t :: 0 <= t < |entries| ==> ps[t] == (Id(layer, entries[t].0), entries[t].1)
  {
    if entries == [] then []
    else LayerPairs(layer, entries[..|entries| - 1]) + [(Id(layer, entries[|entries| - 1].0), entries[|entries| - 1].1)]
  }

  /** Every `(id, definition)` pair the nested loops visit, in visiting order. */
  function Pairs<V>(raw: seq<(string, seq<(string, V)>)>): seq<(string, V)> {
    if raw == [] then []
    else Pairs(raw[..|raw| - 1]) + LayerPairs(raw[|raw| - 1].0, raw[|raw| - 1].1)
  }

  /** The table the assignments `flat[id] = ...` build, one pair after the other. */
  function FromPairs<V>(ps: seq<(string, V)>): map<string, V> {
    if ps == [] then map[] else FromPairs(ps[..|ps| - 1])[ps[|ps| - 1].0 := ps[|ps| - 1].1]
  }

  /** The result of `flattenDefs(raw)`. */
  function Flatten<V>(raw: seq<(string, seq<(string, V)>)>): map<string, V> {
    FromPairs(Pairs(raw))
  }

  /** The number of definitions over all layers. */
  function EntryCount<V>(raw: seq<(string, seq<(string, V)>)>): nat {
    if raw == [] then 0 else EntryCount(raw[..|raw| - 1]) + |raw[|raw| - 1].1|
  }

  /** `flattenDefs(raw)`: the nested `for...in` loops writing into a fresh table. */
  method FlattenDefs<V>(raw: seq<(string, seq<(string, V)>)>) returns (flat: map<string, V>)
    ensures flat == Flatten(raw)
  {
    flat := map[];
    var i := 0;
    while i < |raw|
      invariant 0 <= i <= |raw|
      invariant flat == FromPairs(Pairs(raw[..i]))
    {
      var (layer, entries) := raw[i];
      ghost var visited := Pairs(raw[..i]);
      assert visited + LayerPairs(layer, entries[..0]) == visited;
      var j := 0;
      while j < |entries|
        invariant 0 <= j <= |entries|
        invariant flat == FromPairs(visited + LayerPairs(layer, entries[..j]))
      {
        var id := layer + "." + entries[j].0;
        LayerPairsSnoc(visited, layer, entries, j);
        flat := flat[id := entries[j].1];
        j := j + 1;
      }
      assert entries[..j] == entries;
      assert raw[..i + 1][..i] == raw[..i];
      i := i + 1;
    }
    assert raw[..i] == raw;
  }

  /** One more definition of the current layer is one more assignment. */
  lemma LayerPairsSnoc<V>(visited: seq<(string, V)>, layer: string, entries: seq<(string, V)>, j: int)
    requires 0 <= j < |entries|
    ensures FromPairs(visited + LayerPairs(layer, entries[..j + 1])) ==
      FromPairs(visited + LayerPairs(layer, entries[..j]))[Id(layer, entries[j].0) := entries[j].1]
  {
    assert entries[..j + 1][..j] == entries[..j];
    var ps := visited + LayerPairs(layer, entries[..j + 1]);
    assert ps[..|ps| - 1] == visited + LayerPairs(layer, entries[..j]);
  }

  // ---------------------------------------------------------------------------
  // Properties of the assignments
  // ---------------------------------------------------------------------------

  /** The table holds exactly the ids of the pairs. */
  lemma {:induction false} FromPairsKeys<V>(ps: seq<(string, V)>)
    ensures forall id :: id in FromPairs(ps) <==> exists t :: 0 <= t < |ps| && ps[t].0 == id
    decreases |ps|
  {
    if ps != [] {
      var prefix := ps[..|ps| - 1];
      FromPairsKeys(prefix);
      forall id | id in FromPairs(ps)
        ensures exists t :: 0 <= t < |ps| && ps[t].0 == id
      {
        assert FromPairs(ps) == FromPairs(prefix)[ps[|ps| - 1].0 := ps[|ps| - 1].1];
        if id != ps[|ps| - 1].0 {
          var t :| 0 <= t < |prefix| && prefix[t].0 == id;
          assert ps[t] == prefix[t];
        }
      }
      forall id | exists t :: 0 <= t < |ps| && ps[t].0 == id
        ensures id in FromPairs(ps)
      {
        var t :| 0 <= t < |ps| && ps[t].0 == id;
        if t < |prefix| {
          assert prefix[t] == ps[t];
        }
      }
    }
  }

  /** An id maps to the definition of the last pair that carries it: later assignments win. */
  lemma {:induction false} FromPairsLastWins<V>(ps: seq<(string, V)>, t: int)
    requires 0 <= t < |ps|
    requires forall u :: t < u < |ps| ==> ps[u].0 != ps[t].0
    ensures ps[t].0 in FromPairs(ps) && FromPairs(ps)[ps[t].0] == ps[t].1
    decreases |ps|
  {
    if t < |ps| - 1 {
      var prefix := ps[..|ps| - 1];
      assert prefix[t] == ps[t];
      FromPairsLastWins(prefix, t);
    }
  }

  /** The table never has more entries than there are pairs, and has exactly as many when the ids are
      pairwise distinct. */
  lemma {:induction false} FromPairsSize<V>(ps: seq<(string, V)>)
    ensures |FromPairs(ps)| <= |ps|
    ensures (forall s, t :: 0 <= s < t < |ps| ==> ps[s].0 != ps[t].0) ==> |FromPairs(ps)| == |ps|
    decreases |ps|
  {
    if ps != [] {
      var prefix := ps[..|ps| - 1];
      var last := ps[|ps| - 1];
      FromPairsSize(prefix);
      FromPairsKeys(prefix);
      if forall s, t :: 0 <= s < t < |ps| ==> ps[s].0 != ps[t].0 {
        assert forall s, t :: 0 <= s < t < |prefix| ==> prefix[s].0 != prefix[t].0 by {
          forall s, t | 0 <= s < t < |prefix|
            ensures prefix[s].0 != prefix[t].0
          {
            assert prefix[s] == ps[s] && prefix[t] == ps[t];
          }
        }
        assert last.0 !in FromPairs(prefix);
        assert FromPairs(ps).Keys == FromPairs(prefix).Keys + {last.0};
      }
    }
  }

  /** The visited pairs are the layers' pairs, so there are as many as there are definitions. */
  lemma {:induction false} PairsCount<V>(raw: seq<(string, seq<(string, V)>)>)
    ensures |Pairs(raw)| == EntryCount(raw)
    decreases |raw|
  {
    if raw != [] {
      PairsCount(raw[..|raw| - 1]);
    }
  }

  /** Pair `t` of layer `i` sits at a known position of the visited pairs. */
  lemma {:induction false} PairsPosition<V>(raw: seq<(string, seq<(string, V)>)>, i: int, j: int)
    requires 0 <= i < |raw| && 0 <= j < |raw[i].1|
    ensures EntryCount(raw[..i]) + j < |Pairs(raw)|
    ensures Pairs(raw)[EntryCount(raw[..i]) + j] == (Id(raw[i].0, raw[i].1[j].0), raw[i].1[j].1)
    decreases |raw|
  {
    var prefix := raw[..|raw| - 1];
    PairsCount(prefix);
    PairsCount(raw[..i]);
    if i < |raw| - 1 {
      assert prefix[..i] == raw[..i] && prefix[i] == raw[i];
      PairsPosition(prefix, i, j);
    } else {
      assert prefix == raw[..i];
    }
  }

  /** Every visited pair comes from some definition of some layer. */
  lemma {:induction false} PairsOrigin<V>(raw: seq<(string, seq<(string, V)>)>, t: int)
    requires 0 <= t < |Pairs(raw)|
    ensures exists i, j ::
      0 <= i < |raw| && 0 <= j < |raw[i].1| && Pairs(raw)[t] == (Id(raw[i].0, raw[i].1[j].0), raw[i].1[j].1)
    decreases |raw|
  {
    var prefix := raw[..|raw| - 1];
    var last := raw[|raw| - 1];
    if t < |Pairs(prefix)| {
      PairsOrigin(prefix, t);
      var i, j :| 0 <= i < |prefix| && 0 <= j < |prefix[i].1| &&
        Pairs(prefix)[t] == (Id(prefix[i].0, prefix[i].1[j].0), prefix[i].1[j].1);
      assert raw[i] == prefix[i];
    } else {
      var j := t - |Pairs(prefix)|;
      assert Pairs(raw)[t] == LayerPairs(last.0, last.1)[j];
    }
  }

  // ---------------------------------------------------------------------------
  // Properties of flattenDefs
  // ---------------------------------------------------------------------------

  /** Every id of the result is `layer.key` for a definition of the input, and every definition of
      the input has its id in the result. */
  lemma FlattenKeys<V>(raw: seq<(string, seq<(string, V)>)>, id: string)
    ensures id in Flatten(raw) <==>
      exists i, j :: 0 <= i < |raw| && 0 <= j < |raw[i].1| && id == Id(raw[i].0, raw[i].1[j].0)
  {
    var ps := Pairs(raw);
    FromPairsKeys(ps);
    if id in Flatten(raw) {
      var t :| 0 <= t < |ps| && ps[t].0 == id;
      PairsOrigin(raw, t);
    }
    if exists i, j :: 0 <= i < |raw| && 0 <= j < |raw[i].1| && id == Id(raw[i].0, raw[i].1[j].0) {
      var i, j :| 0 <= i < |raw| && 0 <= j < |raw[i].1| && id == Id(raw[i].0, raw[i].1[j].0);
      PairsPosition(raw, i, j);
    }
  }

  /** Every value of the result is the definition of the last visited pair with that id. In
      particular, when no later definition produces the same id, `layer.key` maps to
      `raw[layer][key]`. */
  lemma FlattenValue<V>(raw: seq<(string, seq<(string, V)>)>, i: int, j: int)
    requires 0 <= i < |raw| && 0 <= j < |raw[i].1|
    requires forall u :: EntryCount(raw[..i]) + j < u < |Pairs(raw)| ==>
      Pairs(raw)[u].0 != Id(raw[i].0, raw[i].1[j].0)
    ensures Id(raw[i].0, raw[i].1[j].0) in Flatten(raw)
    ensures Flatten(raw)[Id(raw[i].0, raw[i].1[j].0)] == raw[i].1[j].1
  {
    PairsPosition(raw, i, j);
    FromPairsLastWins(Pairs(raw), EntryCount(raw[..i]) + j);
  }

  /** The result has at most as many entries as the input has definitions, and exactly as many when
      the ids are pairwise distinct. */
  lemma FlattenSize<V>(raw: seq<(string, seq<(string, V)>)>)
    ensures |Flatten(raw)| <= EntryCount(raw)
    ensures (forall s, t :: 0 <= s < t < |Pairs(raw)| ==> Pairs(raw)[s].0 != Pairs(raw)[t].0) ==>
      |Flatten(raw)| == EntryCount(raw)
  {
    FromPairsSize(Pairs(raw));
    PairsCount(raw);
  }

  /** Two single-definition layers whose ids coincide leave one entry, holding the later definition. */
  lemma CollidingIds<V>(l1: string, k1: string, v1: V, l2: string, k2: string, v2: V)
    requires Id(l1, k1) == Id(l2, k2)
    ensures Flatten([(l1, [(k1, v1)]), (l2, [(k2, v2)])]) == map[Id(l2, k2) := v2]
  {
    TwoLayers(l1, k1, v1, l2, k2, v2);
    var ps := [(Id(l1, k1), v1), (Id(l2, k2), v2)];
    assert ps[..1] == [(Id(l1, k1), v1)] && ps[..1][..0] == [];
    assert FromPairs(ps[..1]) == map[Id(l1, k1) := v1];
  }

  /** Two single-definition layers yield their two ids in visiting order. */
  lemma TwoLayers<V>(l1: string, k1: string, v1: V, l2: string, k2: string, v2: V)
    ensures Pairs([(l1, [(k1, v1)]), (l2, [(k2, v2)])]) == [(Id(l1, k1), v1), (Id(l2, k2), v2)]
  {
    var raw: seq<(string, seq<(string, V)>)> := [(l1, [(k1, v1)]), (l2, [(k2, v2)])];
    assert raw[..1] == [(l1, [(k1, v1)])] && raw[..1][..0] == [];
    assert LayerPairs(l1, [(k1, v1)]) == [(Id(l1, k1), v1)];
    assert LayerPairs(l2, [(k2, v2)]) == [(Id(l2, k2), v2)];
    assert Pairs(raw[..1]) == [(Id(l1, k1), v1)];
  }

  /** Dotted names collide: layer "a.b" with key "c" and layer "a" with key "b.c" share the id
      "a.b.c", and the definition visited later is the one kept. */
  lemma DottedNamesCollide()
    ensures Flatten([("a.b", [("c", 1)]), ("a", [("b.c", 2)])]) == map["a.b.c" := 2]
  {
    assert Id("a.b", "c") == "a.b.c";
    assert Id("a", "b.c") == "a.b.c";
    CollidingIds("a.b", "c", 1, "a", "b.c", 2);
  }

  // ---------------------------------------------------------------------------
  // RESOURCES
  // ---------------------------------------------------------------------------

  /** A resource definition. The only layer of `RESOURCES_RAW` has no definitions, so no field of a
      definition is read anywhere. */
  datatype ResourceDef = ResourceDef

  /** `RESOURCES_RAW`: the single layer `cell`, with no definitions. */
  function ResourcesRaw(): seq<(string, seq<(string, ResourceDef)>)> {
    [("cell", [])]
  }

  /** `RESOURCES = flattenDefs(RESOURCES_RAW)` is empty. */
  lemma ResourcesEmpty()
    ensures Flatten(ResourcesRaw()) == map[]
  {
    assert ResourcesRaw()[..0] == [];
  }
}
