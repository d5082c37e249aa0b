/** Sorted sequences, and relations that hold between every two elements whatever their order. */
module Sorting {
  import Sets

  /** The relation holds between every two positions. */
  predicate Pairwise<T>(s: seq<T>, r: (T, T) -> bool) {
    forall i, j :: 0 <= i < j < |s| ==> r(s[i], s[j])
  }

  lemma {:induction false} TwoPositions<T>(s: seq<T>, x: T) returns (i: nat, j: nat)
    requires multiset(s)[x] >= 2
    ensures i < j < |s| && s[i] == x == s[j]
  {
    var n := |s| - 1;
    assert s == s[..n] + [s[n]];
    if s[n] == x {
      assert x in multiset(s[..n]);
      i :| 0 <= i < n && s[i] == x;
      j := n;
    } else {
      i, j := TwoPositions(s[..n], x);
    }
  }

  lemma {:induction false} TwiceCounted<T>(s: seq<T>, i: nat, j: nat)
    requires i < j < |s| && s[i] == s[j]
    ensures multiset(s)[s[i]] >= 2
  {
    assert s == s[..j] + [s[j]] + s[j + 1..];
    assert s[i] in s[..j];
  }

  /** A symmetric relation that nothing has to itself does not depend on the order of the elements. */
  lemma PairwisePermutes<T>(s: seq<T>, t: seq<T>, r: (T, T) -> bool)
    requires multiset(s) == multiset(t) && Pairwise(s, r)
    requires forall x, y :: x in s && y in s && r(x, y) ==> r(y, x)
    requires forall x :: x in s ==> !r(x, x)
    ensures Pairwise(t, r)
  {
    forall i, j | 0 <= i < j < |t| ensures r(t[i], t[j]) {
      assert t[i] in multiset(s) && t[j] in multiset(s);
      if t[i] == t[j] {
        TwiceCounted(t, i, j);
        var a, b := TwoPositions(s, t[i]);
        assert r(s[a], s[b]);
      } else {
        var a :| 0 <= a < |s| && s[a] == t[i];
        var b :| 0 <= b < |s| && s[b] == t[j];
        assert r(s[if a < b then a else b], s[if a < b then b else a]);
      }
    }
  }

  predicate Ascending(s: seq<int>) {
    forall i, j :: 0 <= i < j < |s| ==> s[i] <= s[j]
  }

  /** The integers in ascending order. */
  function Sorted(s: seq<int>): (r: seq<int>)
    ensures Ascending(r) && multiset(r) == multiset(s)
  {
    if s == [] then []
    else
      assert s == s[..|s| - 1] + [s[|s| - 1]];
      Insert(Sorted(s[..|s| - 1]), s[|s| - 1])
  }

  function Insert(s: seq<int>, x: int): (r: seq<int>)
    requires Ascending(s)
    ensures Ascending(r) && multiset(r) == multiset(s) + multiset{x}
  {
    if s == [] || x <= s[0] then [x] + s
    else
      var rest := Insert(s[1..], x);
      InsertKeeps(s, x, rest);
      [s[0]] + rest
  }

  lemma InsertKeeps(s: seq<int>, x: int, rest: seq<int>)
    requires s != [] && Ascending(s) && s[0] < x && Ascending(rest) && multiset(rest) == multiset(s[1..]) + multiset{x}
    ensures Ascending([s[0]] + rest) && multiset([s[0]] + rest) == multiset(s) + multiset{x}
  {
    assert s == [s[0]] + s[1..];
    forall y | y in rest ensures s[0] <= y {
      assert y in multiset(rest);
      if y != x {
        assert y in multiset(s[1..]);
      }
    }
    var r := [s[0]] + rest;
    forall i, j | 0 <= i < j < |r| ensures r[i] <= r[j] {
      assert r[j] in rest;
      if i > 0 {
        assert r[i] == rest[i - 1] && r[j] == rest[j - 1];
      }
    }
  }

  lemma LeastFirst(s: seq<int>, t: seq<int>)
    requires Ascending(s) && s != [] && multiset(s) == multiset(t)
    ensures forall y :: y in t ==> s[0] <= y
  {
    forall y | y in t ensures s[0] <= y {
      assert y in multiset(s);
    }
  }

  lemma SameHead(s: seq<int>, t: seq<int>)
    requires Ascending(s) && Ascending(t) && s != [] && t != [] && multiset(s) == multiset(t)
    ensures s[0] == t[0] && multiset(s[1..]) == multiset(t[1..])
  {
    hide Ascending;
    LeastFirst(s, t);
    LeastFirst(t, s);
    assert t[0] in t && s[0] in s;
    WithoutFirst(s);
    WithoutFirst(t);
  }

  /** Sorting forgets the order of its input. */
  lemma {:induction false} AscendingUnique(s: seq<int>, t: seq<int>)
    requires Ascending(s) && Ascending(t) && multiset(s) == multiset(t)
    ensures s == t
  {
    assert |s| == |multiset(s)| == |multiset(t)| == |t|;
    if s != [] {
      SameHead(s, t);
      AscendingUnique(s[1..], t[1..]);
    }
  }

  // ---------------------------------------------------------------- sorting by a string key

  /** Lexicographic order of strings. */
  predicate Leq(a: string, b: string) {
    a == [] || (b != [] && (a[0] < b[0] || (a[0] == b[0] && Leq(a[1..], b[1..]))))
  }

  lemma {:induction false} LeqTotal(a: string, b: string)
    ensures Leq(a, b) || Leq(b, a)
  {
    if a != [] && b != [] && a[0] == b[0] {
      LeqTotal(a[1..], b[1..]);
    }
  }

  lemma {:induction false} LeqAntisymmetric(a: string, b: string)
    requires Leq(a, b) && Leq(b, a)
    ensures a == b
  {
    if a != [] {
      LeqAntisymmetric(a[1..], b[1..]);
      assert a == [a[0]] + a[1..] && b == [b[0]] + b[1..];
    }
  }

  lemma {:induction false} LeqTransitive(a: string, b: string, c: string)
    requires Leq(a, b) && Leq(b, c)
    ensures Leq(a, c)
  {
    if a != [] && a[0] == b[0] == c[0] {
      LeqTransitive(a[1..], b[1..], c[1..]);
    }
  }

  predicate SortedBy<T>(s: seq<T>, key: T -> string) {
    forall i, j :: 0 <= i < j < |s| ==> Leq(key(s[i]), key(s[j]))
  }

  /** Some sorted rearrangement; which one, where keys are equal, is left open. */
  predicate Sorts<T(==)>(s: seq<T>, r: seq<T>, key: T -> string) {
    SortedBy(r, key) && multiset(r) == multiset(s)
  }

  lemma InsertedAt<T>(s: seq<T>, n: nat, x: T, key: T -> string)
    requires SortedBy(s, key) && n <= |s|
    requires n > 0 ==> Leq(key(s[n - 1]), key(x))
    requires forall k :: n <= k < |s| ==> Leq(key(x), key(s[k]))
    ensures SortedBy(s[..n] + [x] + s[n..], key)
  {
    var r := s[..n] + [x] + s[n..];
    forall i, j | 0 <= i < j < |r| ensures Leq(key(r[i]), key(r[j])) {
      if i < n == j {
        if i < n - 1 {
          LeqTransitive(key(s[i]), key(s[n - 1]), key(x));
        }
      } else if n < j {
        assert r[j] == s[j - 1];
        if n < i {
          assert r[i] == s[i - 1];
        }
      }
    }
  }

  /** An element goes behind the elements that are not greater. */
  method InsertBy<T(==)>(s: seq<T>, x: T, key: T -> string) returns (r: seq<T>)
    requires SortedBy(s, key)
    ensures Sorts(s + [x], r, key)
  {
    var n := |s|;
    while n > 0 && !Leq(key(s[n - 1]), key(x))
      invariant 0 <= n <= |s|
      invariant forall k :: n <= k < |s| ==> Leq(key(x), key(s[k]))
    {
      LeqTotal(key(s[n - 1]), key(x));
      n := n - 1;
    }
    InsertedAt(s, n, x, key);
    r := s[..n] + [x] + s[n..];
    assert s == s[..n] + s[n..];
  }

  method SortBy<T(==)>(s: seq<T>, key: T -> string) returns (r: seq<T>)
    ensures Sorts(s, r, key)
  {
    r := [];
    for i := 0 to |s|
      invariant Sorts(s[..i], r, key)
    {
      assert s[..i + 1] == s[..i] + [s[i]];
      r := InsertBy(r, s[i], key);
    }
    assert s[..|s|] == s;
  }

  /** Every sequence has a sorted rearrangement. */
  lemma {:induction false} SortingExists<T>(s: seq<T>, key: T -> string) returns (r: seq<T>)
    ensures Sorts(s, r, key)
  {
    if s == [] {
      r := [];
    } else {
      r := SortingExists(s[..|s| - 1], key);
      r := SortedWith(s[..|s| - 1], r, s[|s| - 1], key);
      assert s == s[..|s| - 1] + [s[|s| - 1]];
    }
  }

  lemma SortedWith<T>(s: seq<T>, q: seq<T>, x: T, key: T -> string) returns (r: seq<T>)
    requires Sorts(s, q, key)
    ensures Sorts(s + [x], r, key)
  {
    hide Leq;
    var n := Place(q, x, key);
    InsertedAt(q, n, x, key);
    r := q[..n] + [x] + q[n..];
    assert q == q[..n] + q[n..];
  }

  /** Where an element goes: behind those that are not greater. */
  lemma Place<T>(q: seq<T>, x: T, key: T -> string) returns (n: nat)
    requires SortedBy(q, key)
    ensures n <= |q| && (n > 0 ==> Leq(key(q[n - 1]), key(x))) && forall k :: n <= k < |q| ==> Leq(key(x), key(q[k]))
  {
    n := |q|;
    while n > 0 && !Leq(key(q[n - 1]), key(x))
      invariant 0 <= n <= |q|
      invariant forall k :: n <= k < |q| ==> Leq(key(x), key(q[k]))
    {
      LeqTotal(key(q[n - 1]), key(x));
      n := n - 1;
    }
  }

  lemma KeyFirst<T>(s: seq<T>, t: seq<T>, key: T -> string)
    requires SortedBy(s, key) && s != [] && multiset(s) == multiset(t)
    ensures forall y :: y in t ==> Leq(key(s[0]), key(y))
  {
    LeqTotal(key(s[0]), key(s[0]));
    forall y | y in t ensures Leq(key(s[0]), key(y)) {
      assert y in multiset(s);
    }
  }

  /** Elements with equal keys are equal. */
  predicate KeyDecides<T(==)>(s: seq<T>, key: T -> string) {
    forall x, y :: x in s && y in s && key(x) == key(y) ==> x == y
  }

  lemma WithoutFirst<T>(s: seq<T>)
    requires s != []
    ensures multiset(s[1..]) == multiset(s) - multiset{s[0]}
  {
    assert s == [s[0]] + s[1..];
  }

  lemma SameFirst<T>(s: seq<T>, t: seq<T>, key: T -> string)
    requires SortedBy(s, key) && SortedBy(t, key) && s != [] && t != [] && multiset(s) == multiset(t)
        && KeyDecides(s, key)
    ensures s[0] == t[0] && multiset(s[1..]) == multiset(t[1..])
  {
    hide SortedBy, Leq;
    KeyFirst(s, t, key);
    KeyFirst(t, s, key);
    assert t[0] in multiset(s);
    LeqAntisymmetric(key(s[0]), key(t[0]));
    assert s[0] == t[0];
    WithoutFirst(s);
    WithoutFirst(t);
  }

  /** Where keys decide, sorting has one result, whatever the order of the input. */
  lemma {:induction false} SortedUnique<T>(s: seq<T>, t: seq<T>, key: T -> string)
    requires SortedBy(s, key) && SortedBy(t, key) && multiset(s) == multiset(t) && KeyDecides(s, key)
    ensures s == t
  {
    assert |s| == |multiset(s)| == |multiset(t)| == |t|;
    if s != [] {
      SameFirst(s, t, key);
      SortedUnique(s[1..], t[1..], key);
    }
  }

  lemma Exchanged<T>(q: seq<T>, i: nat, j: nat)
    requires i < |q| && j < |q|
    ensures multiset(q[i := q[j]][j := q[i]]) == multiset(q)
  {
  }

  /** Where they do not, every result has an alternative. */
  lemma SortedAmbiguous<T>(s: seq<T>, q: seq<T>, key: T -> string) returns (r: seq<T>)
    requires !KeyDecides(s, key) && Sorts(s, q, key)
    ensures Sorts(s, r, key) && r != q
  {
    hide Leq;
    var x, y :| x in s && y in s && key(x) == key(y) && x != y;
    assert x in multiset(q) && y in multiset(q);
    var i :| 0 <= i < |q| && q[i] == x;
    var j :| 0 <= j < |q| && q[j] == y;
    r := ExchangedSorted(q, i, j, key);
  }

  lemma ExchangedSorted<T>(q: seq<T>, i: nat, j: nat, key: T -> string) returns (r: seq<T>)
    requires i < |q| && j < |q| && key(q[i]) == key(q[j]) && q[i] != q[j] && SortedBy(q, key)
    ensures SortedBy(r, key) && multiset(r) == multiset(q) && r != q
  {
    hide Leq;
    r := q[i := q[j]][j := q[i]];
    Exchanged(q, i, j);
    assert r[i] != q[i];
    assert forall k :: 0 <= k < |r| ==> key(r[k]) == key(q[k]);
  }

  /** An element can be exchanged for another with the same key. */
  lemma SortsSwapped<T>(s: seq<T>, r: seq<T>, key: T -> string, k: nat, y: T) returns (q: seq<T>)
    requires Sorts(s, r, key) && k < |s| && y != s[k] && key(y) == key(s[k])
    ensures Sorts(s[k := y], q, key) && q != r
  {
    assert s[k] in multiset(r);
    var j :| 0 <= j < |r| && r[j] == s[k];
    q := r[j := y];
    assert multiset(s[k := y]) == multiset(s) - multiset{s[k]} + multiset{y};
    assert multiset(q) == multiset(r) - multiset{s[k]} + multiset{y};
    assert q[j] != r[j];
  }

  /** Applying a function to every element respects rearrangement. */
  function Mapped<T, U>(s: seq<T>, g: T -> U): (r: seq<U>)
    ensures |r| == |s| && forall i :: 0 <= i < |s| ==> r[i] == g(s[i])
  {
    seq(|s|, i requires 0 <= i < |s| => g(s[i]))
  }

  lemma RemovedAt<T>(t: seq<T>, k: nat)
    requires k < |t|
    ensures multiset(t[..k] + t[k + 1..]) == multiset(t) - multiset{t[k]}
  {
    assert t == t[..k] + [t[k]] + t[k + 1..];
  }

  lemma MappedAt<T, U>(t: seq<T>, k: nat, g: T -> U)
    requires k < |t|
    ensures multiset(Mapped(t, g)) == multiset(Mapped(t[..k] + t[k + 1..], g)) + multiset{g(t[k])}
  {
    var m := Mapped(t, g);
    assert m == m[..k] + [m[k]] + m[k + 1..];
    assert Mapped(t[..k] + t[k + 1..], g) == m[..k] + m[k + 1..];
  }

  lemma WithoutHead<T>(s: seq<T>, t: seq<T>) returns (k: nat)
    requires multiset(s) == multiset(t) && s != []
    ensures k < |t| && t[k] == s[0] && multiset(s[1..]) == multiset(t[..k] + t[k + 1..])
  {
    assert s[0] in multiset(t);
    k :| 0 <= k < |t| && t[k] == s[0];
    assert s[..0] + s[0 + 1..] == s[1..];
    RemovedAt(s, 0);
    RemovedAt(t, k);
  }

  lemma {:induction false} MappedPermutes<T, U>(s: seq<T>, t: seq<T>, g: T -> U)
    requires multiset(s) == multiset(t)
    ensures multiset(Mapped(s, g)) == multiset(Mapped(t, g))
    decreases |s|
  {
    hide Mapped;
    if s == [] {
      assert |multiset(t)| == |t|;
      assert s == t;
    } else {
      var k := WithoutHead(s, t);
      MappedPermutes(s[1..], t[..k] + t[k + 1..], g);
      MappedAt(t, k, g);
      MappedHead(s, g);
    }
  }

  lemma MappedHead<T, U>(s: seq<T>, g: T -> U)
    requires s != []
    ensures multiset(Mapped(s, g)) == multiset(Mapped(s[1..], g)) + multiset{g(s[0])}
  {
    hide Mapped;
    assert s[..0] + s[0 + 1..] == s[1..];
    MappedAt(s, 0, g);
  }

  // ---------------------------------------------------------------- correspondences

  /** Every position of the first is matched with a position of the second, no two with the same one, and matched
      elements are related. */
  predicate Matches<S, T>(s: seq<S>, t: seq<T>, at: seq<int>, r: (S, T) -> bool) {
    && |at| == |s| == |t|
    && (forall i :: 0 <= i < |at| ==> 0 <= at[i] < |t| && r(s[i], t[at[i]]))
    && (forall i, j :: 0 <= i < j < |at| ==> at[i] != at[j])
  }

  /** Rearrangements can be matched element by element. */
  lemma {:induction false} Rearrangement<T(!new)>(s: seq<T>, t: seq<T>) returns (at: seq<int>)
    requires multiset(s) == multiset(t)
    ensures Matches(s, t, at, (x: T, y: T) => x == y)
    decreases |s|
  {
    assert |s| == |multiset(s)| == |multiset(t)| == |t|;
    at := [];
    if s != [] {
      var k := WithoutHead(s, t);
      var rest := Rearrangement(s[1..], t[..k] + t[k + 1..]);
      at := [k] + seq(|rest|, i requires 0 <= i < |rest| => if rest[i] >= k then rest[i] + 1 else rest[i]);
      MatchedWith(s, t, k, rest, at);
    }
  }

  lemma MatchedWith<T(!new)>(s: seq<T>, t: seq<T>, k: nat, rest: seq<int>, at: seq<int>)
    requires s != [] && k < |t| && s[0] == t[k]
    requires Matches(s[1..], t[..k] + t[k + 1..], rest, (x: T, y: T) => x == y)
    requires at == [k] + seq(|rest|, i requires 0 <= i < |rest| => if rest[i] >= k then rest[i] + 1 else rest[i])
    ensures Matches(s, t, at, (x: T, y: T) => x == y)
  {
    forall i | 0 <= i < |at| ensures 0 <= at[i] < |t| && s[i] == t[at[i]] {
      if i > 0 {
        assert s[1..][i - 1] == (t[..k] + t[k + 1..])[rest[i - 1]];
      }
    }
    forall i, j | 0 <= i < j < |at| ensures at[i] != at[j] {
      if i > 0 {
        assert rest[i - 1] != rest[j - 1];
      }
    }
  }

  function Range(n: nat): (r: set<int>)
    ensures |r| == n && forall x :: x in r <==> 0 <= x < n
  {
    if n == 0 then {} else Range(n - 1) + {n - 1}
  }

  lemma {:induction false} DistinctSize(at: seq<int>)
    requires forall i, j :: 0 <= i < j < |at| ==> at[i] != at[j]
    ensures |set x | x in at| == |at|
  {
    if at != [] {
      var n := |at| - 1;
      DistinctSize(at[..n]);
      assert at == at[..n] + [at[n]];
      assert (set x | x in at) == (set x | x in at[..n]) + {at[n]};
      assert at[n] !in at[..n];
    }
  }

  /** Different positions, as many as there are, leave none out. */
  lemma Onto(at: seq<int>, k: nat) returns (i: nat)
    requires k < |at| && forall i :: 0 <= i < |at| ==> 0 <= at[i] < |at|
    requires forall i, j :: 0 <= i < j < |at| ==> at[i] != at[j]
    ensures i < |at| && at[i] == k
  {
    var values := set x | x in at;
    DistinctSize(at);
    if k !in values {
      Sets.Subset(values, Range(|at|) - {k});
    }
    i :| 0 <= i < |at| && at[i] == k;
  }

  /** A correspondence read backwards. */
  lemma Inverse(at: seq<int>) returns (back: seq<int>)
    requires forall i :: 0 <= i < |at| ==> 0 <= at[i] < |at|
    requires forall i, j :: 0 <= i < j < |at| ==> at[i] != at[j]
    ensures |back| == |at| && forall k :: 0 <= k < |at| ==> 0 <= back[k] < |at| && at[back[k]] == k && back[at[k]] == k
  {
    back := [];
    while |back| < |at|
      invariant |back| <= |at| && forall k :: 0 <= k < |back| ==> 0 <= back[k] < |at| && at[back[k]] == k
    {
      var i := Onto(at, |back|);
      back := back + [i];
    }
  }

  /** Matched elements make the same collection. */
  lemma {:induction false} MatchedSame<T(!new)>(s: seq<T>, t: seq<T>, at: seq<int>)
    requires Matches(s, t, at, (x: T, y: T) => x == y)
    ensures multiset(s) == multiset(t)
    decreases |s|
  {
    if s != [] {
      var k := at[0];
      var u := t[..k] + t[k + 1..];
      var rest := seq(|at| - 1, i requires 0 <= i < |at| - 1 => if at[i + 1] > k then at[i + 1] - 1 else at[i + 1]);
      MatchedWithout(s, t, at, rest);
      MatchedSame(s[1..], u, rest);
      assert s == [s[0]] + s[1..] && t == t[..k] + [t[k]] + t[k + 1..];
      assert multiset(t) == multiset(u) + multiset{t[k]};
      assert s[0] == t[k];
    }
  }

  lemma MatchedWithout<T(!new)>(s: seq<T>, t: seq<T>, at: seq<int>, rest: seq<int>)
    requires Matches(s, t, at, (x: T, y: T) => x == y) && s != []
    requires rest == seq(|at| - 1, i requires 0 <= i < |at| - 1 => if at[i + 1] > at[0] then at[i + 1] - 1 else at[i + 1])
    ensures Matches(s[1..], t[..at[0]] + t[at[0] + 1..], rest, (x: T, y: T) => x == y)
  {
    var k, u := at[0], t[..at[0]] + t[at[0] + 1..];
    forall i | 0 <= i < |rest| ensures 0 <= rest[i] < |u| && s[1..][i] == u[rest[i]] {
      assert at[i + 1] != k && s[i + 1] == t[at[i + 1]];
    }
    forall i, j | 0 <= i < j < |rest| ensures rest[i] != rest[j] {
      assert at[0] != at[i + 1] && at[0] != at[j + 1] && at[i + 1] != at[j + 1];
    }
  }
}
