/**
 * Edge weights as `generate_graph` produces them: non-negative numbers and
 * +infinity, with the two operations the algorithm uses, `+` and `>`.
 */
module Weights {

  type Length = r: real | r >= 0.0 witness 0.0

  datatype Weight = Finite(length: Length) | Infinite {

    function Plus(other: Weight): Weight {
      if Finite? && other.Finite? then Finite(length + other.length) else Infinite
    }

    /** `this > other`; infinity does not exceed itself. */
    predicate Exceeds(other: Weight) {
      match (this, other)
      case (Finite(a), Finite(b)) => a > b
      case (Infinite, Finite(_)) => true
      case (_, Infinite) => false
    }

    predicate AtMost(other: Weight) {
      !Exceeds(other)
    }
  }

  function Min(a: Weight, b: Weight): Weight {
    if a.Exceeds(b) then b else a
  }
}

/** The sequential algorithm of graphs.rs, phase by phase, and what it computes. */
module FloydWarshall {
  import opened Weights

  predicate IsSquare(m: seq<seq<Weight>>) {
    forall i :: 0 <= i < |m| ==> |m[i]| == |m|
  }

  type Matrix = m: seq<seq<Weight>> | IsSquare(m) witness []

  /** All entries relaxed at once through vertex `k`, from the values before the phase. */
  function Relax(m: Matrix, k: nat): (r: Matrix)
    requires k < |m|
    ensures |r| == |m|
  {
    seq(|m|, i requires 0 <= i < |m| =>
      seq(|m|, j requires 0 <= j < |m| => Min(m[i][j], m[i][k].Plus(m[k][j]))))
  }

  /** The matrix after the first `phases` pivots. */
  function After(m: Matrix, phases: nat): (r: Matrix)
    requires phases <= |m|
    ensures |r| == |m|
  {
    if phases == 0 then m else Relax(After(m, phases - 1), phases - 1)
  }

  // Walks and their weights: the specification of shortest distances.

  /** A walk of at least one edge from `from` to `to` in a graph of `n` vertices. */
  predicate IsWalk(n: nat, walk: seq<nat>, from: nat, to: nat) {
    && |walk| >= 2
    && walk[0] == from && walk[|walk| - 1] == to
    && forall i :: 0 <= i < |walk| ==> walk[i] < n
  }

  /** A walk all of whose edges exist. */
  predicate IsFiniteWalk(m: Matrix, walk: seq<nat>, from: nat, to: nat) {
    && IsWalk(|m|, walk, from, to)
    && forall i :: 0 <= i < |walk| - 1 ==> m[walk[i]][walk[i + 1]].Finite?
  }

  /** The sum of the lengths of the walk's edges. */
  function WalkLength(m: Matrix, walk: seq<nat>): real
    requires |walk| >= 2 && IsFiniteWalk(m, walk, walk[0], walk[|walk| - 1])
  {
    m[walk[0]][walk[1]].length + if |walk| == 2 then 0.0 else WalkLength(m, walk[1..])
  }

  /** A finite distance is the length of a shortest walk; an infinite one means that there is none. */
  ghost predicate IsDistance(d: Weight, m: Matrix, i: nat, j: nat) {
    match d
    case Finite(length) =>
      && (forall walk | IsFiniteWalk(m, walk, i, j) :: length <= WalkLength(m, walk))
      && (exists walk :: IsFiniteWalk(m, walk, i, j) && WalkLength(m, walk) == length)
    case Infinite => forall walk :: !IsFiniteWalk(m, walk, i, j)
  }

  ghost predicate HoldsShortestDistances(d: Matrix, m: Matrix) {
    && |d| == |m|
    && forall i: nat, j: nat | i < |m| && j < |m| :: IsDistance(d[i][j], m, i, j)
  }

  // The same in the operations of the algorithm.

  function WalkWeight(m: Matrix, walk: seq<nat>): Weight
    requires |walk| >= 2
    requires forall i :: 0 <= i < |walk| ==> walk[i] < |m|
  {
    if |walk| == 2 then m[walk[0]][walk[1]]
    else m[walk[0]][walk[1]].Plus(WalkWeight(m, walk[1..]))
  }

  /** Adding weights along a walk adds up the lengths, unless an edge is missing. */
  lemma {:induction false} WalkWeightIsSum(m: Matrix, walk: seq<nat>, from: nat, to: nat)
    requires IsWalk(|m|, walk, from, to)
    ensures IsFiniteWalk(m, walk, from, to) ==> WalkWeight(m, walk).Finite? && WalkWeight(m, walk).length == WalkLength(m, walk)
    ensures !IsFiniteWalk(m, walk, from, to) ==> WalkWeight(m, walk) == Infinite
  {
    if |walk| > 2 {
      var rest := walk[1..];
      WalkWeightIsSum(m, rest, walk[1], to);
      assert forall i :: 0 <= i < |rest| - 1 ==> m[rest[i]][rest[i + 1]] == m[walk[i + 1]][walk[i + 2]];
      assert IsFiniteWalk(m, walk, from, to) <==> m[walk[0]][walk[1]].Finite? && IsFiniteWalk(m, rest, walk[1], to) by {
        forall i | IsFiniteWalk(m, rest, walk[1], to) && 1 <= i < |walk| - 1 ensures m[walk[i]][walk[i + 1]].Finite? {
          assert m[rest[i - 1]][rest[i - 1 + 1]].Finite?;
        }
      }
    }
  }

  ghost predicate IsLowerBound(d: Weight, m: Matrix, i: nat, j: nat) {
    forall walk | IsWalk(|m|, walk, i, j) :: d.AtMost(WalkWeight(m, walk))
  }

  ghost predicate IsAttained(d: Weight, m: Matrix, i: nat, j: nat) {
    exists walk :: IsWalk(|m|, walk, i, j) && WalkWeight(m, walk) == d
  }

  lemma LeastWeightIsDistance(d: Weight, m: Matrix, i: nat, j: nat)
    requires IsLowerBound(d, m, i, j) && IsAttained(d, m, i, j)
    ensures IsDistance(d, m, i, j)
  {
    forall walk | IsFiniteWalk(m, walk, i, j) ensures d.Finite? && d.length <= WalkLength(m, walk) {
      WalkWeightIsSum(m, walk, i, j);
      assert d.AtMost(WalkWeight(m, walk));
    }
    var walk :| IsWalk(|m|, walk, i, j) && WalkWeight(m, walk) == d;
    WalkWeightIsSum(m, walk, i, j);
  }

  /** Every detour through one of the first `pivots` vertices is already accounted for. */
  ghost predicate Triangle(m: Matrix, pivots: nat)
    requires pivots <= |m|
  {
    forall i, j, k | 0 <= i < |m| && 0 <= j < |m| && 0 <= k < pivots ::
      m[i][j].AtMost(m[i][k].Plus(m[k][j]))
  }

  ghost predicate NowhereAbove(a: Matrix, b: Matrix) {
    |a| == |b| && forall i, j | 0 <= i < |b| && 0 <= j < |b| :: a[i][j].AtMost(b[i][j])
  }

  lemma RelaxLowers(m: Matrix, k: nat)
    requires k < |m|
    ensures NowhereAbove(Relax(m, k), m)
  {
  }

  lemma {:induction false} TriangleStep(m: Matrix, q: nat)
    requires q < |m| && Triangle(m, q)
    ensures Triangle(Relax(m, q), q + 1)
  {
    var r := Relax(m, q);
    forall i, j, k | 0 <= i < |m| && 0 <= j < |m| && 0 <= k < q + 1
      ensures r[i][j].AtMost(r[i][k].Plus(r[k][j]))
    {
      if k < q {
        assert m[i][j].AtMost(m[i][k].Plus(m[k][j]));
        assert m[i][q].AtMost(m[i][k].Plus(m[k][q]));
        assert m[q][j].AtMost(m[q][k].Plus(m[k][j]));
      }
    }
  }

  lemma NowhereAboveTransitive(a: Matrix, b: Matrix, c: Matrix)
    requires NowhereAbove(a, b) && NowhereAbove(b, c)
    ensures NowhereAbove(a, c)
  {
  }

  lemma {:induction false} NoWalkBeatsTriangle(d: Matrix, m: Matrix, walk: seq<nat>, i: nat, j: nat)
    requires |d| == |m| && Triangle(d, |m|)
    requires NowhereAbove(d, m)
    requires i < |m| && j < |m| && IsWalk(|m|, walk, i, j)
    ensures d[i][j].AtMost(WalkWeight(m, walk))
    decreases |walk|
  {
    if |walk| > 2 {
      NoWalkBeatsTriangle(d, m, walk[1..], walk[1], j);
      assert d[i][j].AtMost(d[i][walk[1]].Plus(d[walk[1]][j]));
    }
  }

  lemma {:induction false} JoinWalks(m: Matrix, a: seq<nat>, b: seq<nat>, i: nat, k: nat, j: nat)
    requires IsWalk(|m|, a, i, k) && IsWalk(|m|, b, k, j)
    ensures IsWalk(|m|, a + b[1..], i, j)
    ensures WalkWeight(m, a + b[1..]) == WalkWeight(m, a).Plus(WalkWeight(m, b))
    decreases |a|
  {
    if |a| == 2 {
      assert (a + b[1..])[1..] == b;
    } else {
      JoinWalks(m, a[1..], b, a[1], k, j);
      assert (a + b[1..])[1..] == a[1..] + b[1..];
    }
  }

  ghost predicate AllAttained(d: Matrix, m: Matrix) {
    |d| == |m| && forall i: nat, j: nat {:trigger IsAttained(d[i][j], m, i, j)} | i < |m| && j < |m| ::
      IsAttained(d[i][j], m, i, j)
  }

  lemma {:induction false} RelaxAttained(m: Matrix, d: Matrix, q: nat, i: nat, j: nat)
    requires q < |m| && i < |m| && j < |m| && AllAttained(d, m)
    ensures IsAttained(Relax(d, q)[i][j], m, i, j)
  {
    assert IsAttained(d[i][j], m, i, j) && IsAttained(d[i][q], m, i, q) && IsAttained(d[q][j], m, q, j);
    var a :| IsWalk(|m|, a, i, q) && WalkWeight(m, a) == d[i][q];
    var b :| IsWalk(|m|, b, q, j) && WalkWeight(m, b) == d[q][j];
    JoinWalks(m, a, b, i, q, j);
  }

  lemma EdgeAttained(m: Matrix, i: nat, j: nat)
    requires i < |m| && j < |m|
    ensures IsAttained(m[i][j], m, i, j)
  {
    assert IsWalk(|m|, [i, j], i, j) && WalkWeight(m, [i, j]) == m[i][j];
  }

  /** What every prefix of the pivots achieves. */
  ghost predicate PivotsDone(d: Matrix, m: Matrix, p: nat)
    requires p <= |d|
  {
    NowhereAbove(d, m) && Triangle(d, p) && AllAttained(d, m)
  }

  // The two facts below are stated as equations, so that they are compared as a whole, not unfolded.

  lemma NextPivot(d: Matrix, m: Matrix, p: nat)
    requires p < |d| && PivotsDone(d, m, p) == true
    ensures PivotsDone(Relax(d, p), m, p + 1)
  {
    TriangleStep(d, p);
    RelaxLowers(d, p);
    NowhereAboveTransitive(Relax(d, p), d, m);
    forall i: nat, j: nat | i < |m| && j < |m|
      ensures IsAttained(Relax(d, p)[i][j], m, i, j)
    {
      RelaxAttained(m, d, p, i, j);
    }
  }

  lemma NoPivotDone(m: Matrix)
    ensures PivotsDone(m, m, 0)
  {
    forall i: nat, j: nat | i < |m| && j < |m| ensures IsAttained(m[i][j], m, i, j) {
      EdgeAttained(m, i, j);
    }
  }

  lemma AfterNext(m: Matrix, p: nat)
    requires p < |m|
    ensures After(m, p + 1) == Relax(After(m, p), p)
  {
  }

  lemma {:induction false} PivotsDoneAfter(m: Matrix, p: nat)
    requires p <= |m|
    ensures PivotsDone(After(m, p), m, p) == true
  {
    if p == 0 {
      NoPivotDone(m);
    } else {
      PivotsDoneAfter(m, p - 1);
      NextPivot(After(m, p - 1), m, p - 1);
      AfterNext(m, p - 1);
    }
  }

  /** What the algorithm computes is the matrix of shortest distances. */
  lemma {:induction false} ShortestDistances(m: Matrix)
    ensures HoldsShortestDistances(After(m, |m|), m)
  {
    var d := After(m, |m|);
    PivotsDoneAfter(m, |m|);
    forall i: nat, j: nat | i < |m| && j < |m|
      ensures IsDistance(d[i][j], m, i, j)
    {
      forall walk | IsWalk(|m|, walk, i, j)
        ensures d[i][j].AtMost(WalkWeight(m, walk))
      {
        NoWalkBeatsTriangle(d, m, walk, i, j);
      }
      assert IsAttained(d[i][j], m, i, j);
      LeastWeightIsDistance(d[i][j], m, i, j);
    }
  }

  /** The specification leaves no freedom: only one matrix holds the shortest distances. */
  lemma ShortestDistancesUnique(a: Matrix, b: Matrix, m: Matrix)
    requires HoldsShortestDistances(a, m) && HoldsShortestDistances(b, m)
    ensures a == b
  {
    forall i: nat, j: nat | i < |m| && j < |m|
      ensures a[i][j] == b[i][j]
    {
      assert IsDistance(a[i][j], m, i, j) && IsDistance(b[i][j], m, i, j);
    }
    forall i: nat | i < |m| ensures a[i] == b[i] {
      assert |a[i]| == |b[i]|;
    }
  }

  // The in-place loops.

  /** Entries before position (i, j), in row-major order, already belong to `after`. */
  ghost predicate Relaxed(data: Matrix, before: Matrix, after: Matrix, i: int, j: int) {
    && |data| == |before| == |after|
    && forall a, b | 0 <= a < |data| && 0 <= b < |data| ::
         data[a][b] == if a < i || (a == i && b < j) then after[a][b] else before[a][b]
  }

  lemma NothingRelaxed(before: Matrix, after: Matrix)
    requires |before| == |after|
    ensures Relaxed(before, before, after, 0, 0) == true
  {
  }

  lemma RelaxedRow(data: Matrix, before: Matrix, after: Matrix, i: nat)
    requires i < |data| && Relaxed(data, before, after, i, |data|)
    ensures Relaxed(data, before, after, i + 1, 0) == true
  {
  }

  lemma FullyRelaxed(data: Matrix, before: Matrix, after: Matrix)
    requires Relaxed(data, before, after, |data|, 0)
    ensures data == after
  {
    forall i | 0 <= i < |data| ensures data[i] == after[i] {
      assert |data[i]| == |after[i]|;
    }
  }

  /** Row k and column k are stable while vertex k is the pivot. */
  lemma RelaxKeepsPivot(m: Matrix, k: nat, i: nat, j: nat)
    requires k < |m| && i < |m| && j < |m|
    ensures Relax(m, k)[i][k] == m[i][k] && Relax(m, k)[k][j] == m[k][j]
    ensures Relax(m, k)[i][j] == Min(m[i][j], m[i][k].Plus(m[k][j]))
  {
  }

  function Put(m: Matrix, i: nat, j: nat, v: Weight): (r: Matrix)
    requires i < |m| && j < |m|
  {
    m[i := m[i][j := v]]
  }

  /** One in-place update moves the boundary of the relaxed part by one entry. */
  lemma RelaxedStep(data: Matrix, before: Matrix, k: nat, i: nat, j: nat)
    requires k < |before| && i < |before| && j < |before|
    requires Relaxed(data, before, Relax(before, k), i, j)
    ensures
      var v := data[i][k].Plus(data[k][j]);
      Relaxed(if data[i][j].Exceeds(v) then Put(data, i, j, v) else data, before, Relax(before, k), i, j + 1) == true
  {
    RelaxKeepsPivot(before, k, i, j);
  }
}
