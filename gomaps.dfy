/** Go leaves the order in which `range` visits a map unspecified. The model
    makes that order an explicit parameter: a sequence that lists every key of
    the map exactly once. */
module GoMaps {

  /** `order` is one of the orders in which ranging over `m` may visit its keys. */
  predicate Enumerates(order: seq<string>, m: map<string, string>) {
    && (forall k :: k in order ==> k in m)
    && (forall k :: k in m ==> k in order)
    && (forall i, j :: 0 <= i < j < |order| ==> order[i] != order[j])
  }

  lemma {:induction false} DistinctCard(order: seq<string>)
    requires forall i, j :: 0 <= i < j < |order| ==> order[i] != order[j]
    ensures |set k | k in order| == |order|
    decreases |order|
  {
    if order != [] {
      var n := |order| - 1;
      var front := order[..n];
      DistinctCard(front);
      assert (set k | k in order) == (set k | k in front) + {order[n]};
      assert order[n] !in front;
    }
  }

  /** A range over a map visits exactly as many keys as the map holds. */
  lemma EnumerationLength(order: seq<string>, m: map<string, string>)
    requires Enumerates(order, m)
    ensures |order| == |m|
  {
    DistinctCard(order);
    assert (set k | k in order) == m.Keys;
  }
}
