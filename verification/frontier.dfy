/**
  Furthest-reaching frontiers of the linear-space search: what an entry means, how one
  pass extends it, and when a forward and a reverse entry prove a shortest split.
 */
module Frontier {
  import opened EditGraph

  /** f is the furthest x on diagonal k that d edits reach. */
  ghost predicate Reached(p: Lines, q: Lines, f: int, k: int, d: int) {
    f >= 0 && f - k >= 0 && Cost(p, q, f, f - k) <= d < Cost(p, q, f + 1, f + 1 - k)
  }

  /** Index i of a frontier stands for diagonal i - offset; pass d fills every second one. */
  predicate OnPass(i: int, offset: int, d: int) { (i - offset - d) % 2 == 0 }

  ghost predicate Row(p: Lines, q: Lines, frontier: seq<int>, offset: int, d: int, lo: int, hi: int)
    requires 0 <= lo && hi < |frontier|
  {
    forall i :: lo <= i <= hi && OnPass(i, offset, d) ==> Reached(p, q, frontier[i], i - offset, d)
  }

  /** Everything up to the entry, and nothing beyond, is within d edits on its diagonal. */
  lemma ReachedIsFurthest(p: Lines, q: Lines, f: int, k: int, d: int, x: int)
    requires Reached(p, q, f, k, d) && x >= 0 && x - k >= 0
    ensures Cost(p, q, x, x - k) <= d <==> x <= f
  {
    if x <= f {
      DiagonalMonotone(p, q, x, x - k, f - x);
    } else {
      DiagonalMonotone(p, q, f + 1, f + 1 - k, x - f - 1);
    }
  }

  /** Where pass d enters diagonal k, from the two neighbours of pass d - 1. */
  function Entry(left: int, right: int, k: int, d: int): int {
    if k == -d || (k != d && left < right) then right else left + 1
  }

  ghost predicate Neighbours(p: Lines, q: Lines, left: int, right: int, k: int, d: int) {
    && -d <= k <= d
    && (d == 0 ==> right == 0)
    && (d > 0 && k != -d ==> Reached(p, q, left, k - 1, d - 1))
    && (d > 0 && k != d ==> Reached(p, q, right, k + 1, d - 1))
  }

  lemma EntryReachable(p: Lines, q: Lines, left: int, right: int, k: int, d: int)
    requires Neighbours(p, q, left, right, k, d)
    ensures var x := Entry(left, right, k, d);
      x >= 0 && x - k >= 0 && Cost(p, q, x, x - k) <= d
  {
    var x := Entry(left, right, k, d);
    if d > 0 {
      if x == right && (k == -d || (k != d && left < right)) {
        Lipschitz(p, q, right, right - (k + 1));
      } else {
        Lipschitz(p, q, left, left - (k - 1));
      }
    }
  }

  /** Past the end of the run of matches from the entry, pass d reaches nothing. */
  lemma RunEndIsFurthest(p: Lines, q: Lines, left: int, right: int, k: int, d: int, x: int)
    requires Neighbours(p, q, left, right, k, d)
    requires x >= Entry(left, right, k, d) && x >= 0 && x - k >= 0
    requires Cost(p, q, x, x - k) <= d && !Match(p, q, x, x - k)
    ensures Reached(p, q, x, k, d)
  {
    CostStep(p, q, x + 1, x + 1 - k);
    hide Cost;
    PastLeft(p, q, left, right, k, d, x);
    PastRight(p, q, left, right, k, d, x);
    hide Neighbours, Entry, Match;
  }

  /** Pass d - 1 reaches nothing past the left neighbour, and nothing further on the right one. */
  lemma PastLeft(p: Lines, q: Lines, left: int, right: int, k: int, d: int, x: int)
    requires Neighbours(p, q, left, right, k, d) && x >= Entry(left, right, k, d) && x >= 0 && x - k >= 0
    ensures Cost(p, q, x, x + 1 - k) >= d
  {
    hide Cost;
    if d > 0 {
      if k == -d {
        AtLeastDiagonal(p, q, x, x + 1 - k);
      } else {
        ReachedIsFurthest(p, q, left, k - 1, d - 1, x);
      }
    }
  }

  lemma PastRight(p: Lines, q: Lines, left: int, right: int, k: int, d: int, x: int)
    requires Neighbours(p, q, left, right, k, d) && x >= Entry(left, right, k, d) && x >= 0 && x - k >= 0
    ensures Cost(p, q, x + 1, x - k) >= d
  {
    hide Cost;
    if d > 0 {
      if k == d {
        AtLeastDiagonal(p, q, x + 1, x - k);
      } else {
        ReachedIsFurthest(p, q, right, k + 1, d - 1, x + 1);
      }
    }
  }

  lemma RowAt(p: Lines, q: Lines, frontier: seq<int>, offset: int, d: int, i: int)
    requires 0 <= d <= offset && |frontier| == 2 * offset + 1 && OnPass(i, offset, d) && offset - d <= i <= offset + d
    requires Row(p, q, frontier, offset, d, offset - d, offset + d)
    ensures Reached(p, q, frontier[i], i - offset, d)
  {}

  // ----- meeting -----

  /** Running off the end of a wastes two edits a step for opposite points on one diagonal. */
  lemma OffTheRight(a: Lines, b: Lines, x: nat, y: nat, r: nat, s: nat)
    requires x >= |a| && y <= |b| && r - s == |a| - |b| - (x - y)
    ensures Cost(a, b, x, y) + Cost(Rev(a), Rev(b), r, s) >= Dist(a, b) + 2 * (x - |a|)
  {
    hide Cost;
    BeyondA(a, b, x - |a|, y);
    Upward(a, b, |a|, y, |b| - y);
    AtLeastDiagonal(Rev(a), Rev(b), r, s);
  }

  lemma OffTheBottom(a: Lines, b: Lines, x: nat, y: nat, r: nat, s: nat)
    requires x <= |a| && y >= |b| && r - s == |a| - |b| - (x - y)
    ensures Cost(a, b, x, y) + Cost(Rev(a), Rev(b), r, s) >= Dist(a, b) + 2 * (y - |b|)
  {
    hide Cost;
    BeyondB(a, b, x, y - |b|);
    Upward(a, b, x, |b|, |a| - x);
    AtLeastDiagonal(Rev(a), Rev(b), r, s);
  }

  lemma OffBoth(a: Lines, b: Lines, x: nat, y: nat)
    requires x >= |a| && y >= |b|
    ensures Cost(a, b, x, y) == Dist(a, b) + x - |a| + y - |b|
  {
    hide Cost;
    BeyondA(a, b, x - |a|, y);
    BeyondB(a, b, |a|, y - |b|);
  }

  /** A frontier entry that overlaps the opposite one is inside both sequences. */
  lemma MeetingInside(a: Lines, b: Lines, x: int, k: int, d: int, r: int, e: int)
    requires Reached(a, b, x, k, d) && Reached(Rev(a), Rev(b), r, |a| - |b| - k, e)
    requires Dist(a, b) >= d + e
    ensures x <= |a| && x - k <= |b|
  {
    hide Cost, Dist, Rev;
    InsideWithin(a, b, x, x - k, r, r - (|a| - |b| - k), d + e);
  }

  lemma InsideWithin(a: Lines, b: Lines, x: nat, y: nat, r: nat, s: nat, total: int)
    requires r - s == |a| - |b| - (x - y)
    requires Cost(a, b, x, y) + Cost(Rev(a), Rev(b), r, s) <= total <= Dist(a, b)
    ensures x <= |a| && y <= |b|
  {
    hide *;
    if x > |a| && y <= |b| {
      OffTheRight(a, b, x, y, r, s);
    } else if x <= |a| && y > |b| {
      OffTheBottom(a, b, x, y, r, s);
    } else if x > |a| {
      OffBoth(a, b, x, y);
    }
  }

  /** Overlapping entries prove the forward one is a split of a shortest path. */
  lemma Meeting(a: Lines, b: Lines, x: int, k: int, d: int, r: int, e: int)
    requires Reached(a, b, x, k, d) && Reached(Rev(a), Rev(b), r, |a| - |b| - k, e)
    requires x + r >= |a| && Dist(a, b) >= d + e
    ensures 0 <= x <= |a| && 0 <= x - k <= |b|
    ensures Cost(a, b, x, x - k) == d && Rest(a, b, x, x - k) == e && Dist(a, b) == d + e
  {
    MeetingInside(a, b, x, k, d, r, e);
    ThroughPoint(a, b, x, x - k);
    ReachedIsFurthest(Rev(a), Rev(b), r, |a| - |b| - k, e, |a| - x);
  }

  /** No entry of a finished pair of rows overlaps its opposite. */
  ghost predicate Apart(forward: seq<int>, reverse: seq<int>, offset: int, delta: int, n: int, d: int, e: int)
    requires 0 <= d < offset && -1 <= e < offset && |forward| == |reverse| == 2 * offset + 1
  {
    forall i :: offset - d <= i <= offset + d && OnPass(i, offset, d) && -e <= delta - (i - offset) <= e
      ==> forward[i] + reverse[offset + delta - (i - offset)] < n
  }

  lemma ApartAt(forward: seq<int>, reverse: seq<int>, offset: int, delta: int, n: int, d: int, e: int, i: int)
    requires 0 <= d < offset && -1 <= e < offset && |forward| == |reverse| == 2 * offset + 1
    requires Apart(forward, reverse, offset, delta, n, d, e)
    requires offset - d <= i <= offset + d && OnPass(i, offset, d) && -e <= delta - (i - offset) <= e
    ensures forward[i] + reverse[offset + delta - (i - offset)] < n
  {}

  /** Rows that stay apart rule out a path of exactly d + e edits. */
  lemma ApartIsLonger(a: Lines, b: Lines, forward: seq<int>, reverse: seq<int>, offset: int, d: int, e: int)
    requires 0 <= d < offset && d - 1 <= e <= d && |forward| == |reverse| == 2 * offset + 1
    requires Row(a, b, forward, offset, d, offset - d, offset + d)
    requires Row(Rev(a), Rev(b), reverse, offset, e, offset - e, offset + e)
    requires Apart(forward, reverse, offset, |a| - |b|, |a|, d, e)
    requires Dist(a, b) >= d + e
    ensures Dist(a, b) > d + e
  {
    if Dist(a, b) == d + e {
      RestAtEdge(a, b, |a|, |b|);
      var x, y := PointOnPath(a, b, d, |a|, |b|);
      MeetAtPoint(a, b, forward, reverse, offset, d, e, x, y);
    }
  }

  /** At a point d edits from the start and e from the end, the two rows overlap. */
  lemma MeetAtPoint(a: Lines, b: Lines, forward: seq<int>, reverse: seq<int>, offset: int, d: int, e: int, x: nat, y: nat)
    requires 0 <= d < offset && 0 <= e < offset && |forward| == |reverse| == 2 * offset + 1
    requires Row(a, b, forward, offset, d, offset - d, offset + d)
    requires Row(Rev(a), Rev(b), reverse, offset, e, offset - e, offset + e)
    requires x <= |a| && y <= |b| && Cost(a, b, x, y) == d && Cost(Rev(a), Rev(b), |a| - x, |b| - y) == e
    ensures !Apart(forward, reverse, offset, |a| - |b|, |a|, d, e)
  {
    hide *;
    OnRow(a, b, forward, offset, d, x, y);
    OnRow(Rev(a), Rev(b), reverse, offset, e, |a| - x, |b| - y);
    if Apart(forward, reverse, offset, |a| - |b|, |a|, d, e) {
      ApartAt(forward, reverse, offset, |a| - |b|, |a|, d, e, offset + x - y);
    }
  }

  /** A point of cost exactly d lies under pass d's entry for its diagonal. */
  lemma OnRow(p: Lines, q: Lines, frontier: seq<int>, offset: int, d: int, x: nat, y: nat)
    requires 0 <= d < offset && |frontier| == 2 * offset + 1
    requires Row(p, q, frontier, offset, d, offset - d, offset + d)
    requires Cost(p, q, x, y) == d
    ensures -d <= x - y <= d && OnPass(offset + x - y, offset, d)
    ensures x <= frontier[offset + x - y]
  {
    AtLeastDiagonal(p, q, x, y);
    Parity(p, q, x, y);
    hide Cost;
    assert OnPass(offset + x - y, offset, d);
    ReachedIsFurthest(p, q, frontier[offset + x - y], x - y, d, x);
  }
}
