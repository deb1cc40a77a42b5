/**
 * The Python values a schema is checked against: None, int, float, str,
 * bool, list and dict with string keys, in insertion order.  Every other
 * object (tuples, sets, subclasses of list or dict) fails every exact
 * `type(...) is` check alike and is `PyOther`.  Dicts with keys that are
 * not strings are outside the model.
 */
module Values {
  import opened Wrappers

  datatype Value =
    | PyNone
    | PyInt(i: int)
    | PyFloat(x: real)
    | PyStr(s: string)
    | PyBool(b: bool)
    | PyList(items: seq<Value>)
    | PyDict(entries: seq<(string, Value)>)
    | PyOther

  /** The keys of a dict, in insertion order (`for key in d`). */
  function Keys<V>(entries: seq<(string, V)>): (keys: seq<string>)
    ensures |keys| == |entries|
    ensures forall i :: 0 <= i < |entries| ==> keys[i] == entries[i].0
  {
    if entries == [] then [] else [entries[0].0] + Keys(entries[1..])
  }

  /**
   * `d[key]` guarded by `key in d`: the value stored under `key`, taken from
   * the first entry with that key (a Python dict has only one).
   */
  function Lookup<V>(entries: seq<(string, V)>, key: string): (r: Option<V>)
    ensures r.None? <==> key !in Keys(entries)
    ensures r.Some? ==> exists i :: 0 <= i < |entries| && entries[i] == (key, r.value)
  {
    if entries == [] then None
    else if entries[0].0 == key then Some(entries[0].1)
    else Lookup(entries[1..], key)
  }

  /** No key occurs twice, as in every Python dict. */
  predicate DistinctKeys<V>(entries: seq<(string, V)>)
  {
    forall i, j :: 0 <= i < j < |entries| ==> entries[i].0 != entries[j].0
  }

  /** In a dict without repeated keys, `d[key]` is the value of the one entry holding `key`. */
  lemma {:induction false} LookupDistinct<V>(entries: seq<(string, V)>, i: nat)
    requires DistinctKeys(entries) && i < |entries|
    decreases i
    ensures Lookup(entries, entries[i].0) == Some(entries[i].1)
  {
    if i > 0 {
      assert entries[0].0 != entries[i].0;
      assert entries[1..][i - 1] == entries[i];
      assert DistinctKeys(entries[1..]) by {
        forall a, b | 0 <= a < b < |entries[1..]|
          ensures entries[1..][a].0 != entries[1..][b].0
        {
          assert entries[1..][a] == entries[a + 1] && entries[1..][b] == entries[b + 1];
        }
      }
      LookupDistinct(entries[1..], i - 1);
    }
  }
}
