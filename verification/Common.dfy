/** Facts about modular arithmetic and counting shared by the other modules. */
module Common {

  datatype Option<+T> = None | Some(value: T)

  /** Number of occurrences of x in s. */
  function Count(s: seq<nat>, x: nat): (n: nat)
    ensures n <= |s|
    ensures n > 0 <==> x in s
  {
    if s == [] then 0 else (if s[0] == x then 1 else 0) + Count(s[1..], x)
  }

  lemma CountPrepend(s: seq<nat>, x: nat, y: nat)
    ensures Count([y] + s, x) == (if x == y then 1 else 0) + Count(s, x)
  {
  }

  lemma {:induction false} CountAppend(s: seq<nat>, x: nat, y: nat)
    ensures Count(s + [y], x) == Count(s, x) + if x == y then 1 else 0
  {
    if s != [] {
      assert (s + [y])[1..] == s[1..] + [y];
      CountAppend(s[1..], x, y);
    }
  }

  lemma {:induction false} CountConcat(a: seq<nat>, b: seq<nat>, x: nat)
    ensures Count(a + b, x) == Count(a, x) + Count(b, x)
  {
    if a == [] {
      assert a + b == b;
    } else {
      assert (a + b)[1..] == a[1..] + b;
      CountConcat(a[1..], b, x);
    }
  }

  lemma CountRemove(b: seq<nat>, k: nat, x: nat)
    requires k < |b|
    ensures Count(b, x) == Count(b[..k] + b[k + 1..], x) + if x == b[k] then 1 else 0
  {
    assert b == b[..k] + ([b[k]] + b[k + 1..]);
    CountConcat(b[..k], [b[k]] + b[k + 1..], x);
    CountPrepend(b[k + 1..], x, b[k]);
    CountConcat(b[..k], b[k + 1..], x);
  }

  /** A list that has no element more often than another is no longer than it; if it is as
      long, it has every element equally often. */
  lemma {:induction false} CountsBound(a: seq<nat>, b: seq<nat>)
    requires forall x: nat :: Count(a, x) <= Count(b, x)
    ensures |a| <= |b|
    ensures |a| == |b| ==> forall x: nat :: Count(a, x) == Count(b, x)
    decreases |a|
  {
    if a == [] {
      assert |b| == 0 ==> b == [];
    } else {
      assert Count(b, a[0]) > 0;
      var k :| 0 <= k < |b| && b[k] == a[0];
      var c := b[..k] + b[k + 1..];
      forall x: nat ensures Count(a[1..], x) <= Count(c, x)
          && Count(b, x) - Count(c, x) == Count(a, x) - Count(a[1..], x) {
        CountRemove(b, k, x);
        assert Count(a, x) <= Count(b, x);
      }
      CountsBound(a[1..], c);
    }
  }

  ghost predicate Distinct(s: seq<nat>) {
    forall i, j :: 0 <= i < j < |s| ==> s[i] != s[j]
  }

  lemma DistinctAppend(s: seq<nat>, x: nat)
    requires Distinct(s) && x !in s
    ensures Distinct(s + [x])
  {
  }

  lemma DistinctPrepend(s: seq<nat>, x: nat)
    requires Distinct(s) && x !in s
    ensures Distinct([x] + s)
  {
  }

  lemma DistinctSplit(a: seq<nat>, b: seq<nat>)
    requires Distinct(a + b)
    ensures Distinct(a) && Distinct(b)
    ensures forall x :: x in b ==> x !in a
  {
    var s := a + b;
    assert forall i :: 0 <= i < |a| ==> s[i] == a[i];
    assert forall j :: 0 <= j < |b| ==> s[|a| + j] == b[j];
    forall x | x in b ensures x !in a {
      var j :| 0 <= j < |b| && b[j] == x;
      forall i | 0 <= i < |a| ensures a[i] != x {
        assert s[i] != s[|a| + j];
      }
    }
    forall i, j | 0 <= i < j < |b| ensures b[i] != b[j] {
      assert s[|a| + i] != s[|a| + j];
    }
  }

  /** Pigeonhole: distinct numbers drawn from [lo, hi) are at most hi - lo many. */
  lemma {:induction false} DistinctBounded(s: seq<nat>, lo: nat, hi: nat)
    requires lo <= hi && Distinct(s)
    requires forall i :: 0 <= i < |s| ==> lo <= s[i] < hi
    ensures |s| <= hi - lo
  {
    DistinctElements(s);
    SubsetSize(Elements(s), Range(lo, hi));
  }

  function Elements(s: seq<nat>): set<nat> {
    set x | x in s
  }

  lemma {:induction false} DistinctElements(s: seq<nat>)
    requires Distinct(s)
    ensures |Elements(s)| == |s|
  {
    if s != [] {
      var front, x := s[..|s| - 1], s[|s| - 1];
      DistinctElements(front);
      assert s == front + [x];
      assert Elements(s) == Elements(front) + {x};
    }
  }

  /** The numbers from lo up to, but not including, hi. */
  ghost function Range(lo: nat, hi: nat): (r: set<nat>)
    requires lo <= hi
    ensures |r| == hi - lo
    ensures forall k: nat :: k in r <==> lo <= k < hi
    decreases hi
  {
    if lo == hi then {} else Range(lo, hi - 1) + {hi - 1}
  }

  lemma Pick<T>(s: set<T>) returns (x: T)
    requires s != {}
    ensures x in s
  {
    x :| x in s;
  }

  lemma {:induction false} SubsetSize<T>(a: set<T>, b: set<T>)
    requires a <= b
    ensures |a| <= |b|
  {
    if a != {} {
      var x :| x in a;
      SubsetSize(a - {x}, b - {x});
    }
  }

  lemma MulGrows(m: nat, d: int)
    ensures d >= 1 ==> m * d >= m
    ensures d <= -1 ==> m * d + m <= 0
  {
  }

  /** Euclidean division is unique. */
  lemma DivModUnique(n: nat, q: nat, r: nat, m: nat)
    requires r < m && n == m * q + r
    ensures n / m == q && n % m == r
  {
    var d := n / m - q;
    assert n == m * (n / m) + n % m;
    assert m * (n / m) == m * q + m * d by {
      Distribute(m, q, d);
    }
    assert m * d == r - n % m;
    MulGrows(m, d);
  }

  lemma Distribute(m: nat, q: int, d: int)
    ensures m * (q + d) == m * q + m * d
  {
  }

  /** Numbers less than m apart have different remainders modulo m. */
  lemma ModInjective(p: nat, q: nat, m: nat)
    requires p < q < p + m
    ensures p % m != q % m
  {
    var d := q - p;
    var a, r := p / m, p % m;
    assert p == m * a + r;
    if r + d < m {
      DivModUnique(q, a, r + d, m);
    } else {
      Distribute(m, a, 1);
      DivModUnique(q, a + 1, r + d - m, m);
    }
  }
}
