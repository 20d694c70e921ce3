/**
 * The documents the handler hands to `json_encode`. A PHP associative array is
 * an ordered map: it is modelled by the order of its keys together with the
 * key-to-value map, so a key bound to `null` is present, not omitted.
 */
module Json {
  import opened Wrappers

  datatype Json =
    | JNull
    | JInt(n: int)
    | JString(s: string)
    | JArray(items: seq<Json>)
    | JObject(keys: seq<string>, values: map<string, Json>)

  /** No key occurs twice in `keys`. */
  predicate Distinct(keys: seq<string>)
  {
    forall i, j :: 0 <= i < j < |keys| ==> keys[i] != keys[j]
  }

  /** `j` is an object whose keys are exactly `keys`, in that order, none of them twice. */
  predicate IsObject(j: Json, keys: seq<string>)
  {
    j.JObject? && j.keys == keys && Distinct(keys) && j.values.Keys == set k | k in keys
  }

  /** `$array[$key]` on a decoded document: `None` when the key is absent. */
  function Get(j: Json, key: string): Option<Json>
  {
    if j.JObject? && key in j.values then Some(j.values[key]) else None
  }

  /** A nested lookup `$array[$k0][$k1]...`. */
  function Path(j: Json, keys: seq<string>): Option<Json>
    decreases |keys|
  {
    if keys == [] then Some(j)
    else match Get(j, keys[0])
      case None => None
      case Some(child) => Path(child, keys[1..])
  }

  /** A two-step path is a lookup in the value found at the first key. */
  lemma PathOfTwo(j: Json, first: string, second: string)
    ensures Path(j, [first, second]) ==
      if Get(j, first).Some? then Get(Get(j, first).value, second) else None
  {
    assert [first, second][0] == first && [first, second][1..] == [second];
    if Get(j, first).Some? {
      var child := Get(j, first).value;
      assert [second][0] == second && [second][1..] == [];
      assert Path(child, [second]) == Get(child, second);
    }
  }
}
