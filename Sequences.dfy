/** Facts about duplicate-free sequences used by the packet and session modules. */
module Sequences {

  /** No element occurs twice. */
  predicate Distinct<T(==)>(s: seq<T>) {
    forall k, l :: 0 <= k < l < |s| ==> s[k] != s[l]
  }

  /** A duplicate-free sequence has as many distinct elements as entries. */
  lemma {:induction false} DistinctCard<T>(s: seq<T>)
    requires Distinct(s)
    ensures |set x | x in s| == |s|
  {
    if s != [] {
      DistinctCard(s[1..]);
      assert (set x | x in s) == {s[0]} + (set x | x in s[1..]);
      assert s[0] !in (set x | x in s[1..]);
    }
  }

  /**
   * A duplicate-free sequence drawn from a set and as long as the set is an
   * enumeration of it: every member of the set occurs.
   */
  lemma DistinctCovers<T>(s: seq<T>, all: set<T>)
    requires Distinct(s) && |s| == |all|
    requires forall k :: 0 <= k < |s| ==> s[k] in all
    ensures forall x :: x in all ==> x in s
  {
    var elems := set x | x in s;
    DistinctCard(s);
    assert elems <= all;
    var missing := all - elems;
    assert all == elems + missing;
    assert |missing| == 0;
  }
}
