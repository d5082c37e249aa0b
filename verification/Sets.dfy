/** Counting facts about finite sets. */
module Sets {
  lemma Pick<T>(a: set<T>) returns (x: T)
    requires a != {}
    ensures x in a
  {
    x :| x in a;
  }

  lemma {:induction false} Subset<T>(a: set<T>, b: set<T>)
    requires a <= b
    ensures |a| <= |b|
  {
    if a != {} {
      var x := Pick(a);
      Subset(a - {x}, b - {x});
    }
  }

  /** A set that maps one to one into another is no larger. */
  lemma {:induction false} Injection(a: set<int>, b: set<int>, f: map<int, int>)
    requires forall x :: x in a ==> x in f && f[x] in b
    requires forall x, y :: x in a && y in a && x != y ==> f[x] != f[y]
    ensures |a| <= |b|
  {
    if a != {} {
      var x := Pick(a);
      Injection(a - {x}, b - {f[x]}, f);
    }
  }

  lemma {:induction false} Largest(w: set<int>) returns (m: int)
    requires w != {}
    ensures m in w && forall i :: i in w ==> i <= m
  {
    var x := Pick(w);
    m := x;
    if w - {x} != {} {
      var k := Largest(w - {x});
      m := if k > x then k else x;
    }
    assert forall i :: i in w ==> i == x || i in w - {x};
  }

  method Take<T(==)>(s: set<T>) returns (x: T)
    requires s != {}
    ensures x in s
  {
    x :| x in s;
  }
}
