/** Choosing elements of finite sets. Python iterates a set in an arbitrary
    order; `Choose` leaves that order open in the same way. */
module Sets {

  lemma Member<T>(s: set<T>) returns (x: T)
    requires s != {}
    ensures x in s
  {
    x :| x in s;
  }

  ghost function AnyOf<T>(s: set<T>): (x: T)
    requires s != {}
    ensures x in s
  {
    var x :| x in s;
    x
  }

  lemma Outside<T>(a: set<T>, b: set<T>) returns (x: T)
    requires !(a <= b)
    ensures x in a && x !in b
  {
    assert a <= b + (a - b);
    x := Member(a - b);
  }

  lemma SubsetSize<T>(a: set<T>, b: set<T>)
    requires a <= b
    ensures |a| <= |b| && (|a| == |b| ==> a == b)
  {
    assert b == a + (b - a);
    assert a != b ==> b - a != {};
  }

  lemma FreshAbove(s: set<int>) returns (x: int)
    ensures forall y | y in s :: y < x
  {
    if s == {} {
      x := 0;
    } else {
      var y := Member(s);
      var rest := FreshAbove(s - {y});
      x := if y < rest then rest else y + 1;
      forall z | z in s ensures z < x {
        assert z == y || z in s - {y};
      }
    }
  }

  method Choose<T(==)>(s: set<T>) returns (x: T)
    requires s != {}
    ensures x in s
  {
    x :| x in s;
  }
}
