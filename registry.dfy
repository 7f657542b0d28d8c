/** The geometry-identifier swap that runs when a wall's mesh has been regenerated: the value a
    type-owned map holds under the wall's old geometry id moves to the new id. */
module Registry {
  import opened Values

  /** An opaque handle to an object the model does not look into (a fragment, or a geometry
      such as a wall's body). */
  datatype Ref = Ref(handle: int)

  /** A type-owned map from geometry id to object. JavaScript maps may hold `undefined`
      (None), which is what `get` returns for a missing key. */
  type Slots = map<int, Option<Ref>>

  /** Map.get with a key that may itself be `undefined`. */
  function Lookup(m: Slots, key: Option<int>): (r: Option<Ref>)
    ensures r.Some? ==> key.Some? && key.value in m && m[key.value] == r
    ensures key.Some? && key.value in m ==> r == m[key.value]
  {
    if key.Some? && key.value in m then m[key.value] else None
  }

  /** Map.delete with a key that may itself be `undefined` (then nothing is deleted). */
  function Delete(m: Slots, key: Option<int>): (r: Slots)
    ensures key.Some? ==> key.value !in r
    ensures forall k :: Some(k) != key ==> (k in r <==> k in m) && (k in r ==> r[k] == m[k])
  {
    if key.Some? then m - {key.value} else m
  }

  /** `v = m.get(from); m.delete(from); m.set(to, v)`: the value stored under the old id (or
      undefined) moves to the new id, the old id is no longer a key, and every other entry stays. */
  function Rekey(m: Slots, from: Option<int>, to: int): (r: Slots)
    ensures to in r && r[to] == Lookup(m, from)
    ensures from.Some? && from.value != to ==> from.value !in r
    ensures forall k :: k != to && Some(k) != from ==> (k in r <==> k in m)
    ensures forall k :: k in r && k != to ==> k in m && r[k] == m[k]
  {
    Delete(m, from)[to := Lookup(m, from)]
  }

  /** When the old id was a key and the new id was not, the swap keeps the number of entries. */
  lemma RekeyKeepsSize(m: Slots, from: int, to: int)
    requires from in m && to !in m
    ensures |Rekey(m, Some(from), to)| == |m|
  {
    var r := Rekey(m, Some(from), to);
    var removed := m - {from};
    assert removed.Keys == m.Keys - {from};
    assert |removed.Keys| == |m.Keys| - 1;
    assert r.Keys == removed.Keys + {to};
    assert to !in removed.Keys;
    assert |r.Keys| == |removed.Keys| + 1;
  }

  /** Swapping the same pair of ids back restores the map when both swaps find their key. */
  lemma RekeyBack(m: Slots, from: int, to: int)
    requires from in m && to !in m
    ensures Rekey(Rekey(m, Some(from), to), Some(to), from) == m
  {
    var r := Rekey(Rekey(m, Some(from), to), Some(to), from);
    assert r.Keys == m.Keys;
    forall k | k in m
      ensures r[k] == m[k]
    {
    }
  }
}
