/**
 * Ordering a finite set of row keys by a numeric sort key, as an
 * `orderBy` clause of a database query does. Rows with equal sort keys
 * come out in some unspecified order.
 */
module Sorting {

  /** Every key of `s` is listed, once, and sort keys never decrease along `s`. */
  ghost predicate IsSortedListing<K>(s: seq<K>, ks: set<K>, key: K -> int)
  {
    && |s| == |ks|
    && (forall i :: 0 <= i < |s| ==> s[i] in ks)
    && (forall k :: k in ks ==> k in s)
    && (forall i, j :: 0 <= i < j < |s| ==> s[i] != s[j])
    && (forall i, j :: 0 <= i < j < |s| ==> key(s[i]) <= key(s[j]))
  }

  /** A nonempty finite set has an element whose sort key is least. */
  lemma {:induction false} LeastExists<K>(ks: set<K>, key: K -> int)
    requires ks != {}
    ensures exists m :: m in ks && forall k :: k in ks ==> key(m) <= key(k)
    decreases ks
  {
    var x :| x in ks;
    if ks - {x} != {} {
      LeastExists(ks - {x}, key);
      var m :| m in ks - {x} && forall k :: k in ks - {x} ==> key(m) <= key(k);
      if key(x) < key(m) {
        assert forall k :: k in ks ==> key(x) <= key(k);
      } else {
        assert forall k :: k in ks ==> key(m) <= key(k);
      }
    } else {
      assert ks == {x};
    }
  }

  /** The keys of `ks` in ascending order of `key`. */
  ghost function SortedBy<K>(ks: set<K>, key: K -> int): (s: seq<K>)
    ensures IsSortedListing(s, ks, key)
    decreases ks
  {
    if ks == {} then []
    else
      LeastExists(ks, key);
      var m :| m in ks && forall k :: k in ks ==> key(m) <= key(k);
      var rest := SortedBy(ks - {m}, key);
      assert forall k :: k in ks ==> k == m || k in ks - {m};
      [m] + rest
  }
}
