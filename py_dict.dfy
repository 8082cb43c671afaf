/** Python's insertion-ordered `dict`, as a sequence of (key, value) pairs
    with distinct keys: assigning to a present key keeps its position,
    assigning to a new key appends it, iteration follows the sequence. */
module PyDict {
  import opened Wrappers

  predicate DistinctKeys<K(==), V>(d: seq<(K, V)>)
  {
    forall i, j | 0 <= i < j < |d| :: d[i].0 != d[j].0
  }

  predicate HasKey<K(==), V>(d: seq<(K, V)>, k: K)
  {
    exists i | 0 <= i < |d| :: d[i].0 == k
  }

  /** Position of a present key. */
  function IndexOf<K(==), V>(d: seq<(K, V)>, k: K): (i: nat)
    requires HasKey(d, k)
    ensures i < |d| && d[i].0 == k
    ensures forall j | 0 <= j < i :: d[j].0 != k
  {
    if d[0].0 == k then 0
    else
      assert HasKey(d[1..], k) by {
        var i :| 0 <= i < |d| && d[i].0 == k;
        assert d[1..][i - 1] == d[i];
      }
      1 + IndexOf(d[1..], k)
  }

  /** `d.get(k)`. */
  function Get<K(==), V>(d: seq<(K, V)>, k: K): (r: Option<V>)
    ensures r.None? <==> !HasKey(d, k)
    ensures r.Some? ==> exists i | 0 <= i < |d| :: d[i] == (k, r.value)
  {
    if HasKey(d, k) then Some(d[IndexOf(d, k)].1) else None
  }

  /** `d[k] = v`. */
  function Put<K(==), V>(d: seq<(K, V)>, k: K, v: V): (r: seq<(K, V)>)
    ensures HasKey(d, k) ==>
      |r| == |d| && r[IndexOf(d, k)] == (k, v) &&
      forall j | 0 <= j < |d| && j != IndexOf(d, k) :: r[j] == d[j]
    ensures !HasKey(d, k) ==> r == d + [(k, v)]
    ensures DistinctKeys(d) ==> DistinctKeys(r)
    ensures forall j | 0 <= j < |r| :: r[j].0 == (if j < |d| then d[j].0 else k)
  {
    if HasKey(d, k) then d[IndexOf(d, k) := (k, v)] else d + [(k, v)]
  }

  /** In a dict with distinct keys, a key's position is the one holding it. */
  lemma IndexOfDistinct<K, V>(d: seq<(K, V)>, i: nat)
    requires DistinctKeys(d) && i < |d|
    ensures HasKey(d, d[i].0) && IndexOf(d, d[i].0) == i
  {
  }
}
