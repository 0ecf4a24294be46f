/** Small facts about finite collections shared by the models. */
module Collections {

  datatype Option<+T> = None | Some(value: T)

  /** The numbers below `n`. */
  function Below(n: nat): (s: set<nat>)
    ensures forall i: nat :: i in s <==> i < n
  {
    set i: nat {:trigger i as int} | 0 <= i < n
  }

  lemma {:induction false} BelowSize(n: nat)
    ensures |Below(n)| == n
  {
    if n > 0 {
      BelowSize(n - 1);
      assert Below(n) == Below(n - 1) + {n - 1};
    }
  }

  /** A subset is no larger, and equally large only when it is the whole set. */
  lemma {:induction false} SubsetSize<T>(a: set<T>, b: set<T>)
    requires a <= b
    ensures |a| <= |b|
    ensures |a| == |b| ==> a == b
  {
    assert b == a + (b - a);
    assert |b| == |a| + |b - a|;
  }

  /** Two majorities of the same finite universe share an element. */
  lemma {:induction false} MajoritiesMeet<T>(a: set<T>, b: set<T>, universe: set<T>)
    requires a <= universe && b <= universe
    requires |a| > |universe| / 2 && |b| > |universe| / 2
    ensures exists x :: x in a && x in b
  {
    if a * b == {} {
      assert |a + b| == |a| + |b|;
      SubsetSize(a + b, universe);
    } else {
      var x :| x in a * b;
      assert x in a && x in b;
    }
  }

  /** What holds at one state of a run and is kept by every later step holds at every later state. */
  lemma {:induction false} HoldsAlong<S>(run: seq<S>, holds: S -> bool, i: nat, k: nat)
    requires i <= k < |run| && holds(run[i])
    requires forall j: nat | i <= j < k && holds(run[j]) :: holds(run[j + 1])
    ensures holds(run[k])
  {
    if i < k {
      HoldsAlong(run, holds, i, k - 1);
    }
  }

  function Sum(s: seq<int>): int
  {
    if s == [] then 0 else s[0] + Sum(s[1..])
  }

  lemma {:induction false} SumUpdate(s: seq<int>, i: nat, v: int)
    requires i < |s|
    ensures Sum(s[i := v]) == Sum(s) - s[i] + v
  {
    if i == 0 {
      assert s[i := v][1..] == s[1..];
    } else {
      SumUpdate(s[1..], i - 1, v);
      assert s[i := v][1..] == s[1..][i - 1 := v];
    }
  }

  lemma {:induction false} SumConstant(s: seq<int>, c: int)
    requires forall i :: 0 <= i < |s| ==> s[i] == c
    ensures Sum(s) == |s| * c
  {
    if s != [] {
      SumConstant(s[1..], c);
    }
  }

  predicate Distinct<T(==)>(s: seq<T>) {
    forall i, j | 0 <= i < j < |s| :: s[i] != s[j]
  }

  lemma DistinctConcat<T>(a: seq<T>, b: seq<T>)
    requires Distinct(a) && Distinct(b)
    requires forall x :: x in a ==> x !in b
    ensures Distinct(a + b)
  {
    forall i, j | 0 <= i < j < |a + b|
      ensures (a + b)[i] != (a + b)[j]
    {
      if i < |a| <= j {
        assert a[i] in a && b[j - |a|] in b;
      }
    }
  }

  /** How often a value occurs in a sequence without repetition. */
  lemma {:induction false} CountInDistinct<T>(s: seq<T>, x: T)
    requires Distinct(s)
    ensures multiset(s)[x] == if x in s then 1 else 0
  {
    if s != [] {
      assert s == [s[0]] + s[1..];
      CountInDistinct(s[1..], x);
    }
  }

  lemma {:induction false} DistinctSize<T>(s: seq<T>)
    requires Distinct(s)
    ensures |set x | x in s| == |s|
  {
    if s != [] {
      DistinctSize(s[1..]);
      assert (set x | x in s) == {s[0]} + set x | x in s[1..];
    }
  }
}

/** Quotients and remainders by a variable divisor. */
module Arithmetic {

  lemma PositiveMultiple(a: int, d: nat)
    requires a >= 1
    ensures a * d >= d
  {
  }

  lemma MultipleGap(q: nat, p: nat, d: nat)
    ensures q > p ==> q * d >= p * d + d
  {
    assert (q - p) * d == q * d - p * d;
    if q > p {
      PositiveMultiple(q - p, d);
    }
  }

  lemma DivModOf(q: nat, d: nat, r: nat)
    requires r < d
    ensures (q * d + r) / d == q && (q * d + r) % d == r
  {
    var x := q * d + r;
    assert x == (x / d) * d + x % d;
    MultipleGap(q, x / d, d);
    MultipleGap(x / d, q, d);
  }

  lemma QuotientBelow(x: nat, d: nat, b: nat)
    requires d > 0 && x < b * d
    ensures x / d < b && x % d < d && x == (x / d) * d + x % d
  {
    MultipleGap(x / d, b, d);
  }

  lemma NextRemainder(k: nat, d: nat)
    requires d > 0
    ensures (k + 1) % d == if k % d == d - 1 then 0 else k % d + 1
  {
    var q := k / d;
    assert k == q * d + k % d;
    if k % d == d - 1 {
      assert k + 1 == (q + 1) * d + 0;
      DivModOf(q + 1, d, 0);
    } else {
      DivModOf(q, d, k % d + 1);
    }
  }
}
