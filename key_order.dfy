/**
 * The order in which a Swift `Dictionary` is iterated is unspecified. The model
 * describes one such iteration as a sequence that lists every key exactly once.
 */
module KeyOrder {

  /** `order` lists every element of `keys` exactly once. */
  ghost predicate Enumerates<K>(order: seq<K>, keys: set<K>) {
    && (forall k :: k in keys ==> k in order)
    && (forall i :: 0 <= i < |order| ==> order[i] in keys)
    && (forall i, j :: 0 <= i < j < |order| ==> order[i] != order[j])
  }

  /** An iteration visits as many keys as the dictionary holds. */
  lemma {:induction false} EnumerationLength<K>(order: seq<K>, keys: set<K>)
    requires Enumerates(order, keys)
    ensures |order| == |keys|
  {
    if |order| == 0 {
      assert keys == {};
    } else {
      var last := order[|order| - 1];
      var front := order[..|order| - 1];
      forall k | k in keys - {last} ensures k in front {
        assert k in order;
        var i :| 0 <= i < |order| && order[i] == k;
        assert i != |order| - 1;
        assert front[i] == k;
      }
      forall i | 0 <= i < |front| ensures front[i] in keys - {last} {
        assert front[i] == order[i];
      }
      EnumerationLength(front, keys - {last});
    }
  }

  /**
   * The keys of a dictionary, in the order iteration visits them. Swift leaves
   * that order unspecified, so each pick is a free choice among the keys left.
   */
  method IterationOrder<K>(keys: set<K>) returns (order: seq<K>)
    ensures Enumerates(order, keys)
  {
    order := [];
    var remaining := keys;
    while remaining != {}
      invariant remaining <= keys
      invariant forall k :: k in keys && k !in remaining ==> k in order
      invariant forall i :: 0 <= i < |order| ==> order[i] in keys && order[i] !in remaining
      invariant forall i, j :: 0 <= i < j < |order| ==> order[i] != order[j]
      decreases remaining
    {
      var k :| k in remaining;
      order := order + [k];
      remaining := remaining - {k};
    }
  }

  /** Every finite key set has at least one iteration order. */
  lemma EnumerationExists<K>(keys: set<K>) returns (order: seq<K>)
    ensures Enumerates(order, keys)
    decreases keys
  {
    if keys == {} {
      order := [];
    } else {
      var k :| k in keys;
      var rest := EnumerationExists(keys - {k});
      order := rest + [k];
      forall i, j | 0 <= i < j < |order| ensures order[i] != order[j] {
        if j == |rest| { assert order[i] == rest[i] && rest[i] in keys - {k}; }
      }
    }
  }

  /** A dictionary with a single key is iterated in exactly one way. */
  lemma {:induction false} SingletonEnumeration<K>(order: seq<K>, k: K)
    requires Enumerates(order, {k})
    ensures order == [k]
  {
    EnumerationLength(order, {k});
    assert order[0] in {k};
  }
}
