/** Medians as the windower computes them, and as order statistics. */
module Medians {
  import opened Collections

  const MinI64: int := -0x8000_0000_0000_0000
  const MaxI64: int := 0x7FFF_FFFF_FFFF_FFFF

  function CheckedAdd(x: int, y: int): Option<int> {
    if MinI64 <= x + y <= MaxI64 then Some(x + y) else None
  }

  // Sorting.

  predicate IsSorted(s: seq<int>) {
    forall i, j | 0 <= i < j < |s| :: s[i] <= s[j]
  }

  function Insert(x: int, s: seq<int>): (t: seq<int>)
    ensures |t| == |s| + 1
  {
    if s == [] || x <= s[0] then [x] + s else [s[0]] + Insert(x, s[1..])
  }

  function Sort(s: seq<int>): (t: seq<int>)
    ensures |t| == |s|
  {
    if s == [] then [] else Insert(s[0], Sort(s[1..]))
  }

  // Order statistics.

  function CountBelow(s: seq<int>, x: int): nat {
    if s == [] then 0 else (if s[0] < x then 1 else 0) + CountBelow(s[1..], x)
  }

  function CountAtMost(s: seq<int>, x: int): nat {
    if s == [] then 0 else (if s[0] <= x then 1 else 0) + CountAtMost(s[1..], x)
  }

  /** `x` is the element with `k` others before it, however equal elements are ordered. */
  predicate HasRank(s: seq<int>, k: nat, x: int) {
    CountBelow(s, x) <= k < CountAtMost(s, x)
  }

  lemma {:induction false} InsertCounts(x: int, s: seq<int>, y: int)
    ensures CountBelow(Insert(x, s), y) == (if x < y then 1 else 0) + CountBelow(s, y)
    ensures CountAtMost(Insert(x, s), y) == (if x <= y then 1 else 0) + CountAtMost(s, y)
  {
    assert ([x] + s)[1..] == s;
    if s != [] && x > s[0] {
      InsertCounts(x, s[1..], y);
      assert ([s[0]] + Insert(x, s[1..]))[1..] == Insert(x, s[1..]);
    }
  }

  lemma {:induction false} InsertSorts(x: int, s: seq<int>)
    requires IsSorted(s)
    ensures IsSorted(Insert(x, s))
    ensures forall y | y in Insert(x, s) :: y == x || y in s
  {
    if s != [] && x > s[0] {
      InsertSorts(x, s[1..]);
      forall i | 0 <= i < |Insert(x, s[1..])| ensures s[0] <= Insert(x, s[1..])[i] {
        assert Insert(x, s[1..])[i] in Insert(x, s[1..]);
      }
    }
  }

  lemma {:induction false} SortSorts(s: seq<int>)
    ensures IsSorted(Sort(s))
    ensures forall y :: CountBelow(Sort(s), y) == CountBelow(s, y) && CountAtMost(Sort(s), y) == CountAtMost(s, y)
  {
    if s != [] {
      SortSorts(s[1..]);
      InsertSorts(s[0], Sort(s[1..]));
      forall y
        ensures CountBelow(Sort(s), y) == CountBelow(s, y) && CountAtMost(Sort(s), y) == CountAtMost(s, y)
      {
        InsertCounts(s[0], Sort(s[1..]), y);
      }
    }
  }

  lemma {:induction false} CountsOfSorted(t: seq<int>, x: int)
    requires IsSorted(t)
    ensures forall i | 0 <= i < |t| :: t[i] < x <==> i < CountBelow(t, x)
    ensures forall i | 0 <= i < |t| :: t[i] <= x <==> i < CountAtMost(t, x)
    ensures CountBelow(t, x) <= |t| && CountAtMost(t, x) <= |t|
  {
    if t != [] {
      CountsOfSorted(t[1..], x);
      if t[0] >= x && t[1..] != [] {
        assert !(t[1..][0] < x);
      }
      if t[0] > x && t[1..] != [] {
        assert !(t[1..][0] <= x);
      }
    }
  }

  /** Sorting puts at index `k` the one element of rank `k`. */
  lemma SortedByRank(s: seq<int>, k: nat, x: int)
    ensures HasRank(s, k, x) <==> k < |s| && Sort(s)[k] == x
  {
    SortSorts(s);
    CountsOfSorted(Sort(s), x);
  }

  // Medians.

  /** The two middle elements, which coincide when the length is odd. */
  predicate AreMiddle(s: seq<int>, lower: int, upper: int)
    requires s != []
  {
    HasRank(s, (|s| - 1) / 2, lower) && HasRank(s, |s| / 2, upper)
  }

  ghost predicate IsMedian(s: seq<int>, m: real)
    requires s != []
  {
    exists lower, upper :: AreMiddle(s, lower, upper) && m == (lower + upper) as real / 2.0
  }

  /** The windower's way of taking the mean of the middle elements. */
  function MiddleMean(lower: int, upper: int): real {
    match CheckedAdd(lower, upper)
    case Some(sum) => sum as real / 2.0
    case None => lower as real / 2.0 + upper as real / 2.0
  }

  /** The median of a sorted window. */
  function MiddleOf(t: seq<int>): real
    requires t != []
  {
    if |t| % 2 == 0 then MiddleMean(t[|t| / 2 - 1], t[|t| / 2]) else t[|t| / 2] as real
  }

  function Median(s: seq<int>): real
    requires s != []
  {
    MiddleOf(Sort(s))
  }

  /** The windower computes the median, for odd and even lengths and whether or not the sum of the middle elements overflows. */
  lemma MedianIsMedian(s: seq<int>, m: real)
    requires s != []
    ensures IsMedian(s, m) <==> Median(s) == m
  {
    SortSorts(s);
    var lower, upper := Sort(s)[(|s| - 1) / 2], Sort(s)[|s| / 2];
    SortedByRank(s, (|s| - 1) / 2, lower);
    SortedByRank(s, |s| / 2, upper);
    assert AreMiddle(s, lower, upper);
    forall x, y | AreMiddle(s, x, y) ensures x == lower && y == upper {
      SortedByRank(s, (|s| - 1) / 2, x);
      SortedByRank(s, |s| / 2, y);
    }
    assert (lower + upper) as real / 2.0 == Median(s);
  }

  // Amplification.

  function Repeat(x: int, times: nat): seq<int> {
    seq(times, _ => x)
  }

  /** Every value `times` times. */
  function Amplify(s: seq<int>, times: nat): seq<int> {
    if s == [] then [] else Amplify(s[..|s| - 1], times) + Repeat(s[|s| - 1], times)
  }

  lemma {:induction false} CountsConcat(a: seq<int>, b: seq<int>, x: int)
    ensures CountBelow(a + b, x) == CountBelow(a, x) + CountBelow(b, x)
    ensures CountAtMost(a + b, x) == CountAtMost(a, x) + CountAtMost(b, x)
  {
    if a == [] {
      assert a + b == b;
    } else {
      assert (a + b)[1..] == a[1..] + b;
      CountsConcat(a[1..], b, x);
    }
  }

  lemma {:induction false} CountsRepeat(y: int, times: nat, x: int)
    ensures CountBelow(Repeat(y, times), x) == if y < x then times else 0
    ensures CountAtMost(Repeat(y, times), x) == if y <= x then times else 0
  {
    if times > 0 {
      assert Repeat(y, times)[1..] == Repeat(y, times - 1);
      CountsRepeat(y, times - 1, x);
    }
  }

  /** The length of `n` elements repeated `times` times. */
  function Copies(times: nat, n: nat): nat {
    if n == 0 then 0 else Copies(times, n - 1) + times
  }

  lemma {:induction false} CopiesAdd(times: nat, m: nat, n: nat)
    ensures Copies(times, m + n) == Copies(times, m) + Copies(times, n)
  {
    if n > 0 {
      CopiesAdd(times, m, n - 1);
    }
  }

  lemma {:induction false} CountsAmplified(s: seq<int>, times: nat, x: int)
    ensures CountBelow(Amplify(s, times), x) == Copies(times, CountBelow(s, x))
    ensures CountAtMost(Amplify(s, times), x) == Copies(times, CountAtMost(s, x))
    ensures |Amplify(s, times)| == Copies(times, |s|)
  {
    if s != [] {
      var front, last := s[..|s| - 1], s[|s| - 1];
      CountsAmplified(front, times, x);
      CountsRepeat(last, times, x);
      CountsConcat(Amplify(front, times), Repeat(last, times), x);
      assert s == front + [last];
      CountsConcat(front, [last], x);
    }
  }

  lemma CopiesMonotone(times: nat, m: nat, n: nat)
    requires m <= n
    ensures Copies(times, m) <= Copies(times, n)
  {
    CopiesAdd(times, m, n - m);
  }

  lemma RankAmplified(s: seq<int>, times: nat, k: nat, rank: nat, x: int)
    requires HasRank(s, k, x) && Copies(times, k) <= rank < Copies(times, k + 1)
    ensures HasRank(Amplify(s, times), rank, x)
  {
    CountsAmplified(s, times, x);
    CopiesMonotone(times, CountBelow(s, x), k);
    CopiesMonotone(times, k + 1, CountAtMost(s, x));
  }

  lemma MiddleAmplified(n: nat, times: nat)
    requires n >= 1 && times >= 1
    ensures Copies(times, n) >= 1
    ensures Copies(times, (n - 1) / 2) <= (Copies(times, n) - 1) / 2 < Copies(times, (n - 1) / 2 + 1)
    ensures Copies(times, n / 2) <= Copies(times, n) / 2 < Copies(times, n / 2 + 1)
  {
    CopiesAdd(times, n / 2, n / 2);
    assert n == n / 2 + n / 2 || n == n / 2 + n / 2 + 1;
    assert (n - 1) / 2 + 1 == n / 2 || (n - 1) / 2 == n / 2;
  }

  lemma MiddlesAmplified(s: seq<int>, times: nat, lower: int, upper: int)
    requires s != [] && times >= 1 && AreMiddle(s, lower, upper)
    ensures Amplify(s, times) != [] && AreMiddle(Amplify(s, times), lower, upper)
  {
    CountsAmplified(s, times, 0);
    MiddleAmplified(|s|, times);
    RankAmplified(s, times, (|s| - 1) / 2, (|Amplify(s, times)| - 1) / 2, lower);
    RankAmplified(s, times, |s| / 2, |Amplify(s, times)| / 2, upper);
  }

  /** Repeating every value the same number of times does not change the median. */
  lemma AmplifyKeepsMedian(s: seq<int>, times: nat)
    requires s != [] && times >= 1
    ensures Amplify(s, times) != [] && Median(Amplify(s, times)) == Median(s)
  {
    MedianIsMedian(s, Median(s));
    var lower, upper :| AreMiddle(s, lower, upper) && Median(s) == (lower + upper) as real / 2.0;
    MiddlesAmplified(s, times, lower, upper);
    MedianIsMedian(Amplify(s, times), Median(s));
  }
}
