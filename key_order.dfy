/**
 * Ascending key order of a finite set of integer keys. A std::map walk visits its keys from the
 * smallest up; the model picks the smallest remaining key at every step.
 */
module KeyOrder {

  predicate IsSmallest(k: int, keys: set<int>)
  {
    k in keys && forall j :: j in keys ==> k <= j
  }

  lemma NonEmptyHasElement(keys: set<int>)
    requires keys != {}
    ensures exists x :: x in keys
  {
    if forall x :: x !in keys {
      assert false;
    }
  }

  lemma {:induction false} SmallestExists(keys: set<int>)
    requires keys != {}
    ensures exists k :: IsSmallest(k, keys)
  {
    NonEmptyHasElement(keys);
    var x :| x in keys;
    var rest := keys - {x};
    if rest == {} {
      forall j | j in keys ensures x <= j {
        assert j !in rest;
      }
      assert IsSmallest(x, keys);
    } else {
      SmallestExists(rest);
      var k :| IsSmallest(k, rest);
      var m := if x < k then x else k;
      forall j | j in keys ensures m <= j {
        if j != x {
          assert j in rest;
        }
      }
      assert IsSmallest(m, keys);
    }
  }

  /** The key a std::map iterator reaches first among keys. */
  function SmallestKey(keys: set<int>): (k: int)
    requires keys != {}
    ensures k in keys
    ensures forall j :: j in keys ==> k <= j
  {
    SmallestExists(keys);
    var k :| IsSmallest(k, keys);
    k
  }

  /** The keys in the order a std::map iterator visits them. */
  function SortedKeys(keys: set<int>): seq<int>
    decreases keys
  {
    if keys == {} then [] else
      var k := SmallestKey(keys);
      [k] + SortedKeys(keys - {k})
  }

  /** The visit order is strictly ascending and visits every key exactly once. */
  lemma {:induction false} SortedKeysSpec(keys: set<int>)
    ensures |SortedKeys(keys)| == |keys|
    ensures forall k :: k in SortedKeys(keys) <==> k in keys
    ensures forall i, j :: 0 <= i < j < |SortedKeys(keys)| ==> SortedKeys(keys)[i] < SortedKeys(keys)[j]
    decreases keys
  {
    if keys != {} {
      var k := SmallestKey(keys);
      var rest := SortedKeys(keys - {k});
      SortedKeysSpec(keys - {k});
      assert SortedKeys(keys) == [k] + rest;
      forall i, j | 0 <= i < j < |SortedKeys(keys)|
        ensures SortedKeys(keys)[i] < SortedKeys(keys)[j]
      {
        if i > 0 {
          assert SortedKeys(keys)[i] == rest[i - 1];
        } else {
          assert rest[j - 1] in keys - {k};
        }
      }
    }
  }
}
