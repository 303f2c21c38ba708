/** General facts about finite sets and maps that the ledger's queries rely on. */
module Collections {

  /** A subset is no larger than the set that contains it. */
  lemma {:induction false} SubsetCardinality(a: set<nat>, b: set<nat>)
    requires a <= b
    ensures |a| <= |b|
    decreases |a|
  {
    if a != {} {
      var x :| x in a;
      SubsetCardinality(a - {x}, b - {x});
    }
  }

  /** A map whose values are told apart by their keys has as many values as keys. */
  lemma {:induction false} DistinctValuesCount<V>(m: map<nat, V>)
    requires forall a, b :: a in m && b in m && m[a] == m[b] ==> a == b
    ensures |m.Values| == |m|
    decreases |m|
  {
    if m != map[] {
      var k :| k in m;
      var rest := m - {k};
      DistinctValuesCount(rest);
      forall v | v in m.Values ensures v in rest.Values + {m[k]} {
        var j :| j in m && m[j] == v;
        if j != k { assert rest[j] == v; }
      }
      assert m.Values == rest.Values + {m[k]};
      assert m[k] !in rest.Values;
      assert |rest| == |m| - 1;
    }
  }
}
