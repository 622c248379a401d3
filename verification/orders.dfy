/** Least elements of finite sets under a strict total order. */
module Orders {

  ghost predicate StrictTotal<T(!new)>(less: (T, T) -> bool) {
    && (forall a, b {:trigger less(a, b)} :: a == b || less(a, b) || less(b, a))
    && (forall a, b {:trigger less(a, b)} :: less(a, b) ==> !less(b, a))
    && (forall a, b, c {:trigger less(a, b), less(b, c)} :: less(a, b) && less(b, c) ==> less(a, c))
  }

  predicate IsLeast<T(==)>(less: (T, T) -> bool, s: set<T>, k: T) {
    k in s && forall j | j in s && j != k :: less(k, j)
  }

  lemma {:induction false} LeastExists<T(!new)>(less: (T, T) -> bool, s: set<T>)
    requires StrictTotal(less) && s != {}
    ensures exists k :: IsLeast(less, s, k)
    decreases |s|
  {
    var k :| k in s;
    var rest := s - {k};
    assert forall j | j in s && j != k :: j in rest;
    if rest == {} {
      assert IsLeast(less, s, k);
    } else {
      LeastExists(less, rest);
      var m :| IsLeast(less, rest, m);
      if less(k, m) {
        assert IsLeast(less, s, k);
      } else {
        assert less(m, k);
        assert IsLeast(less, s, m);
      }
    }
  }
}
