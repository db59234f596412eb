// Facts about finite sets that several modules use.
module Sets {

  lemma SubsetSize<T>(a: set<T>, b: set<T>)
    requires a <= b
    ensures |a| <= |b|
  {
    assert b == a + (b - a);
  }

  // A number above all of a set, to stand for a generated id that is in no use.
  ghost function Beyond(ids: set<nat>): (m: nat)
    ensures m !in ids && forall i <- ids :: i < m
  {
    if ids == {} then 0
    else
      var i :| i in ids;
      var m := Beyond(ids - {i});
      assert forall x <- ids :: x == i || x in ids - {i};
      if i < m then m else i + 1
  }
}
