/**
  bisectLines (internal/adapter/tool/file/diff.go): forward and reverse frontiers in two
  arrays, advanced in turn until they overlap on a shortest path.
 */
module Bisect {
  import opened EditGraph
  import opened Frontier

  const MAX_DIFF_WORK: nat := 0x10_0000

  /** The work budget and the caller's context, which may be cancelled at any moment. */
  class DiffWork {
    var used: nat
    var canceled: bool
    ghost var short: bool  // some request exceeded what was left

    constructor ()
      ensures Valid() && used == 0 && !Ended()
    {
      used, canceled, short := 0, false, false;
    }

    /** What alone may leave a diff incomplete. */
    ghost predicate Ended() reads this { canceled || short }

    ghost predicate Valid() reads this { used <= MAX_DIFF_WORK }

    /** Spends units, unless the context ended or they exceed what is left. */
    method Take(units: nat) returns (ok: bool)
      requires Valid()
      modifies this
      ensures Valid()
      ensures ok ==> !canceled && used == old(used) + units
      ensures !ok ==> used == old(used) && (canceled || units > MAX_DIFF_WORK - used) && Ended()
      ensures old(canceled) ==> canceled
      ensures ok ==> short == old(short)
    {
      var ended: bool := *;
      canceled := canceled || ended;
      if canceled || units > MAX_DIFF_WORK - used {
        short := short || units > MAX_DIFF_WORK - used;
        return false;
      }
      used := used + units;
      return true;
    }
  }

  /** A point on a shortest path between the two sequences. */
  ghost predicate OnShortestPath(a: Lines, b: Lines, x: int, y: int) {
    0 <= x <= |a| && 0 <= y <= |b| && Cost(a, b, x, y) + Rest(a, b, x, y) == Dist(a, b)
  }

  function Longer(s: Line, t: Line): nat { if |s.text| > |t.text| then |s.text| else |t.text| }

  /** The sequences as one side walks them. */
  ghost function Side(reversed: bool, a: Lines): Lines { if reversed then Rev(a) else a }

  lemma SideMatch(reversed: bool, a: Lines, b: Lines, x: nat, y: nat)
    ensures |Side(reversed, a)| == |a| && |Side(reversed, b)| == |b|
    ensures Match(Side(reversed, a), Side(reversed, b), x, y) <==>
            x < |a| && y < |b| && (if reversed then a[|a| - 1 - x] == b[|b| - 1 - y] else a[x] == b[y])
  {}

  datatype Swept = Exhausted | Passed | Met(x: int, y: int)

  /** One diagonal of one side: its entry point, then the run of equal lines from there. */
  method Advance(work: DiffWork, a: Lines, b: Lines, reversed: bool, left: int, right: int, k: int, d: int)
    returns (x: int, ok: bool)
    requires work.Valid()
    requires Neighbours(Side(reversed, a), Side(reversed, b), left, right, k, d)
    modifies work
    ensures work.Valid()
    ensures ok ==> Reached(Side(reversed, a), Side(reversed, b), x, k, d)
    ensures !ok ==> work.Ended()
  {
    ghost var p, q := Side(reversed, a), Side(reversed, b);
    hide Cost, Side, Reached, Neighbours, Match, Rev;
    var n, m := |a|, |b|;
    x := left + 1;
    if k == -d || (k != d && left < right) {
      x := right;
    }
    EntryReachable(p, q, left, right, k, d);
    var y := x - k;
    while x < n && y < m
      invariant x >= Entry(left, right, k, d) && x >= 0 && y == x - k >= 0
      invariant Cost(p, q, x, y) <= d && work.Valid()
    {
      var i, j := x, y;
      if reversed {
        i, j := n - x - 1, m - y - 1;
      }
      ok := work.Take(1 + Longer(a[i], b[j]));
      if !ok {
        return;
      }
      SideMatch(reversed, a, b, x, y);
      if a[i] != b[j] {
        break;
      }
      CostStep(p, q, x + 1, y + 1);
      x, y := x + 1, y + 1;
    }
    SideMatch(reversed, a, b, x, y);
    RunEndIsFurthest(p, q, left, right, k, d, x);
    ok := true;
  }

  /** The diagonals one side still has to compare with the opposite frontier. */
  ghost predicate ApartSoFar(frontier: seq<int>, opposite: seq<int>, offset: int, delta: int, n: int, d: int, e: int, hi: int)
    requires 0 <= d < offset && -1 <= e < offset && |frontier| == |opposite| == 2 * offset + 1
    requires hi <= offset + d + 2
  {
    forall i :: offset - d <= i < hi && i <= offset + d && OnPass(i, offset, d) && -e <= delta - (i - offset) <= e
      ==> frontier[i] + opposite[offset + delta - (i - offset)] < n
  }

  /** Before pass d: the entries of pass d - 1, or the seed of the first pass. */
  ghost predicate Before(p: Lines, q: Lines, frontier: seq<int>, offset: int, d: int)
    requires 0 <= d < offset && |frontier| == 2 * offset + 1
  {
    if d == 0 then frontier[offset + 1] == 0
    else Row(p, q, frontier, offset, d - 1, offset - d + 1, offset + d - 1)
  }

  lemma PassParity(i: int, offset: int, d: int)
    ensures OnPass(i, offset, d) ==> OnPass(i - 1, offset, d - 1) && OnPass(i + 1, offset, d - 1) && OnPass(i + 2, offset, d)
    ensures OnPass(i, offset, d) ==> !OnPass(i, offset, d - 1) && !OnPass(i + 1, offset, d)
  {}

  /** The state of one pass before diagonal k: its own entries so far, the last pass intact. */
  ghost predicate Sweeping(p: Lines, q: Lines, frontier: seq<int>, offset: int, d: int, k: int)
    requires 0 <= d < offset && |frontier| == 2 * offset + 1 && -d <= k <= d + 2
  {
    && OnPass(offset + k, offset, d)
    && Row(p, q, frontier, offset, d, offset - d, offset + k - 2)
    && (d > 0 || k == -d ==> Before(p, q, frontier, offset, d))
  }

  lemma NeighboursKnown(p: Lines, q: Lines, frontier: seq<int>, offset: int, d: int, k: int)
    requires 0 <= d < offset && |frontier| == 2 * offset + 1 && -d <= k <= d
    requires Sweeping(p, q, frontier, offset, d, k)
    ensures Neighbours(p, q, frontier[offset + k - 1], frontier[offset + k + 1], k, d)
  {
    PassParity(offset + k, offset, d);
    hide OnPass, Reached;
  }

  lemma Swept1(p: Lines, q: Lines, frontier: seq<int>, offset: int, d: int, k: int, x: int)
    requires 0 <= d < offset && |frontier| == 2 * offset + 1 && -d <= k <= d
    requires Sweeping(p, q, frontier, offset, d, k) && Reached(p, q, x, k, d)
    ensures Sweeping(p, q, frontier[offset + k := x], offset, d, k + 2)
  {
    PassParity(offset + k, offset, d);
    hide Reached;
    forall i | offset - d <= i <= offset + k && OnPass(i, offset, d)
      ensures Reached(p, q, frontier[offset + k := x][i], i - offset, d)
    {
      if i == offset + k - 1 {
        PassParity(i, offset, d);
      }
    }
  }

  lemma ApartNext(frontier: seq<int>, opposite: seq<int>, offset: int, delta: int, n: int, d: int, e: int, k: int, x: int)
    requires 0 <= d < offset && -1 <= e < offset && |frontier| == |opposite| == 2 * offset + 1 && -d <= k <= d
    requires OnPass(offset + k, offset, d)
    requires ApartSoFar(frontier, opposite, offset, delta, n, d, e, offset + k)
    requires -e <= delta - k <= e ==> x + opposite[offset + delta - k] < n
    ensures ApartSoFar(frontier[offset + k := x], opposite, offset, delta, n, d, e, offset + k + 2)
  {
    PassParity(offset + k, offset, d);
    hide OnPass;
  }

  /** One side's pass over its diagonals at this distance, looking for the opposite frontier. */
  method Sweep(work: DiffWork, a: Lines, b: Lines, reversed: bool,
               frontier: array<int>, opposite: array<int>, offset: int, d: int)
    returns (r: Swept)
    requires work.Valid() && frontier != opposite && 0 <= d < offset
    requires frontier.Length == opposite.Length == 2 * offset + 1
    requires Before(Side(reversed, a), Side(reversed, b), frontier[..], offset, d)
    requires var e := if reversed then d else d - 1;
      && Row(Side(!reversed, a), Side(!reversed, b), opposite[..], offset, e, offset - e, offset + e)
      && Dist(a, b) >= d + e
    modifies work, frontier
    ensures work.Valid() && (r.Exhausted? ==> work.Ended())
    ensures r.Passed? ==>
      && Row(Side(reversed, a), Side(reversed, b), frontier[..], offset, d, offset - d, offset + d)
      && Dist(a, b) > d + if reversed then d else d - 1
    ensures r.Met? ==>
      && OnShortestPath(a, b, r.x, r.y)
      && Cost(a, b, r.x, r.y) == d && Rest(a, b, r.x, r.y) == if reversed then d else d - 1
  {
    ghost var p, q := Side(reversed, a), Side(reversed, b);
    ghost var e := if reversed then d else d - 1;
    var n, delta := |a|, |a| - |b|;
    var parity := if reversed then 0 else 1;
    hide Cost, Rest, Side, Reached, Row, Before, Sweeping, ApartSoFar, OnPass, Dist;
    SweepStarts(p, q, frontier[..], opposite[..], offset, delta, n, d, e);
    var k := -d;
    while k <= d
      invariant -d <= k <= d + 2 && work.Valid()
      invariant Sweeping(p, q, frontier[..], offset, d, k)
      invariant delta % 2 == parity ==> ApartSoFar(frontier[..], opposite[..], offset, delta, n, d, e, offset + k)
    {
      var ok := work.Take(1);
      if !ok {
        return Exhausted;
      }
      NeighboursKnown(p, q, frontier[..], offset, d, k);
      var x;
      x, ok := Advance(work, a, b, reversed, frontier[offset + k - 1], frontier[offset + k + 1], k, d);
      if !ok {
        return Exhausted;
      }
      ghost var row := frontier[..];
      SweepOnPass(p, q, row, offset, d, k);
      Swept1(p, q, row, offset, d, k, x);
      frontier[offset + k] := x;
      assert frontier[..] == row[offset + k := x];
      var other := delta - k;
      if !reversed && delta % 2 != 0 && 1 - d <= other <= d - 1 && x + opposite[offset + other] >= n {
        MetForward(a, b, opposite[..], offset, k, d, x);
        return Met(x, x - k);
      }
      if reversed && delta % 2 == 0 && -d <= other <= d && opposite[offset + other] + x >= n {
        MetReverse(a, b, opposite[..], offset, k, other, d, x);
        return Met(opposite[offset + other], opposite[offset + other] - other);
      }
      if delta % 2 == parity {
        ApartNext(row, opposite[..], offset, delta, n, d, e, k, x);
      }
      k := k + 2;
    }
    SweepEnds(a, b, reversed, frontier[..], opposite[..], offset, d, e, k);
    return Passed;
  }

  lemma SweepStarts(p: Lines, q: Lines, frontier: seq<int>, opposite: seq<int>, offset: int, delta: int, n: int, d: int, e: int)
    requires 0 <= d < offset && -1 <= e < offset && |frontier| == |opposite| == 2 * offset + 1
    requires Before(p, q, frontier, offset, d)
    ensures Sweeping(p, q, frontier, offset, d, -d)
    ensures ApartSoFar(frontier, opposite, offset, delta, n, d, e, offset - d)
  {}

  lemma SweepOnPass(p: Lines, q: Lines, frontier: seq<int>, offset: int, d: int, k: int)
    requires 0 <= d < offset && |frontier| == 2 * offset + 1 && -d <= k <= d + 2
    requires Sweeping(p, q, frontier, offset, d, k)
    ensures OnPass(offset + k, offset, d)
  {}

  lemma MetForward(a: Lines, b: Lines, reverse: seq<int>, offset: int, k: int, d: int, x: int)
    requires 0 <= d < offset && |reverse| == 2 * offset + 1 && OnPass(offset + k, offset, d)
    requires (|a| - |b|) % 2 != 0 && 1 - d <= |a| - |b| - k <= d - 1
    requires Reached(Side(false, a), Side(false, b), x, k, d)
    requires Row(Side(true, a), Side(true, b), reverse, offset, d - 1, offset - d + 1, offset + d - 1)
    requires x + reverse[offset + |a| - |b| - k] >= |a| && Dist(a, b) >= 2 * d - 1
    ensures OnShortestPath(a, b, x, x - k) && Cost(a, b, x, x - k) == d && Rest(a, b, x, x - k) == d - 1
  {
    hide Cost, Rest, Dist, Rev;
    var i := offset + |a| - |b| - k;
    assert OnPass(i, offset, d - 1);
    assert Reached(Rev(a), Rev(b), reverse[i], |a| - |b| - k, d - 1);
    MeetingPoint(a, b, x, k, d, reverse[i], d - 1);
  }

  lemma MeetingPoint(a: Lines, b: Lines, x: int, k: int, d: int, r: int, e: int)
    requires Reached(a, b, x, k, d) && Reached(Rev(a), Rev(b), r, |a| - |b| - k, e)
    requires x + r >= |a| && Dist(a, b) >= d + e
    ensures OnShortestPath(a, b, x, x - k) && Cost(a, b, x, x - k) == d && Rest(a, b, x, x - k) == e
  {
    hide Cost, Reached, Rest, Dist, Rev;
    Meeting(a, b, x, k, d, r, e);
  }

  lemma PassFlip(offset: int, delta: int, k: int, d: int)
    requires OnPass(offset + k, offset, d) && delta % 2 == 0
    ensures OnPass(offset + delta - k, offset, d)
  {
    var half := delta / 2;
    assert offset + delta - k - offset - d == 2 * half - (k - d) - 2 * d;
  }

  lemma MetReverse(a: Lines, b: Lines, forward: seq<int>, offset: int, k: int, other: int, d: int, x: int)
    requires 0 <= d < offset && |forward| == 2 * offset + 1 && OnPass(offset + k, offset, d)
    requires (|a| - |b|) % 2 == 0 && other == |a| - |b| - k && -d <= other <= d
    requires Reached(Side(true, a), Side(true, b), x, k, d)
    requires Row(Side(false, a), Side(false, b), forward, offset, d, offset - d, offset + d)
    requires forward[offset + other] + x >= |a| && Dist(a, b) >= 2 * d
    ensures var f := forward[offset + other];
      OnShortestPath(a, b, f, f - other) && Cost(a, b, f, f - other) == d && Rest(a, b, f, f - other) == d
  {
    hide *;
    PassFlip(offset, |a| - |b|, k, d);
    MetAt(a, b, forward, offset, k, other, d, x);
  }

  lemma MetAt(a: Lines, b: Lines, forward: seq<int>, offset: int, k: int, other: int, d: int, x: int)
    requires 0 <= d < offset && |forward| == 2 * offset + 1 && OnPass(offset + other, offset, d)
    requires k == |a| - |b| - other && -d <= other <= d
    requires Reached(Side(true, a), Side(true, b), x, k, d)
    requires Row(Side(false, a), Side(false, b), forward, offset, d, offset - d, offset + d)
    requires forward[offset + other] + x >= |a| && Dist(a, b) >= 2 * d
    ensures var f := forward[offset + other];
      OnShortestPath(a, b, f, f - other) && Cost(a, b, f, f - other) == d && Rest(a, b, f, f - other) == d
  {
    hide *;
    RowAt(Side(false, a), Side(false, b), forward, offset, d, offset + other);
    Sides(a);
    Sides(b);
    MeetingPoint(a, b, forward[offset + other], other, d, x, d);
  }

  lemma Sides(a: Lines)
    ensures Side(false, a) == a && Side(true, a) == Rev(a)
  {}

  lemma SweepEnds(a: Lines, b: Lines, reversed: bool, frontier: seq<int>, opposite: seq<int>, offset: int, d: int, e: int, k: int)
    requires 0 <= d < offset && |frontier| == |opposite| == 2 * offset + 1 && d < k <= d + 2
    requires e == if reversed then d else d - 1
    requires Sweeping(Side(reversed, a), Side(reversed, b), frontier, offset, d, k)
    requires Row(Side(!reversed, a), Side(!reversed, b), opposite, offset, e, offset - e, offset + e)
    requires (|a| - |b|) % 2 == (if reversed then 0 else 1) ==>
      ApartSoFar(frontier, opposite, offset, |a| - |b|, |a|, d, e, offset + k)
    requires Dist(a, b) >= d + e
    ensures Row(Side(reversed, a), Side(reversed, b), frontier, offset, d, offset - d, offset + d)
    ensures Dist(a, b) > d + e
  {
    hide Cost, Reached, Rev;
    var p, q := Side(reversed, a), Side(reversed, b);
    assert k == d + 2 by {
      assert (k - d) % 2 == 0;
    }
    if (|a| - |b|) % 2 == (if reversed then 0 else 1) {
      RevRev(a);
      RevRev(b);
      DistRev(a, b);
      assert Rev(p) == Side(!reversed, a) && Rev(q) == Side(!reversed, b) && Dist(p, q) == Dist(a, b);
      SideMatch(reversed, a, b, 0, 0);
      ApartIsLonger(p, q, frontier, opposite, offset, d, e);
    } else {
      Parity(a, b, |a|, |b|);
    }
  }

  /** The two sequences start and end with different lines, as callers arrange. */
  predicate EndsDiffer(a: Lines, b: Lines) {
    a != [] && b != [] && a[0] != b[0] && a[|a| - 1] != b[|b| - 1]
  }

  lemma SplitProgresses(a: Lines, b: Lines, x: int, y: int, d: int, e: int)
    requires EndsDiffer(a, b) && OnShortestPath(a, b, x, y)
    requires Cost(a, b, x, y) == d && Rest(a, b, x, y) == e && d - 1 <= e <= d
    ensures 0 < x + y < |a| + |b|
  {
    TwoEditsApart(a, b);
    RestAtEdge(a, b, |a|, |b|);
  }

  /** Both sides at one distance: forward first, then reverse. */
  method Round(work: DiffWork, a: Lines, b: Lines, forward: array<int>, reverse: array<int>, offset: int, d: int)
    returns (r: Swept)
    requires work.Valid() && forward != reverse && 0 <= d < offset
    requires forward.Length == reverse.Length == 2 * offset + 1
    requires Before(Side(false, a), Side(false, b), forward[..], offset, d)
    requires Before(Side(true, a), Side(true, b), reverse[..], offset, d)
    requires Dist(a, b) >= 2 * d - 1
    modifies work, forward, reverse
    ensures work.Valid() && (r.Exhausted? ==> work.Ended())
    ensures r.Met? ==> OnShortestPath(a, b, r.x, r.y)
    ensures r.Met? && EndsDiffer(a, b) ==> 0 < r.x + r.y < |a| + |b|
    ensures r.Passed? ==> Dist(a, b) >= 2 * d + 1
    ensures r.Passed? && d + 1 < offset ==>
      && Before(Side(false, a), Side(false, b), forward[..], offset, d + 1)
      && Before(Side(true, a), Side(true, b), reverse[..], offset, d + 1)
  {
    PriorRow(Side(true, a), Side(true, b), reverse[..], offset, d);
    hide Cost, Rest, Reached, Row, OnPass, OnShortestPath, EndsDiffer, Before, Dist, Side;
    r := Sweep(work, a, b, false, forward, reverse, offset, d);
    if r.Passed? {
      r := Sweep(work, a, b, true, reverse, forward, offset, d);
      if r.Passed? && d + 1 < offset {
        NextBefore(Side(false, a), Side(false, b), forward[..], offset, d);
        NextBefore(Side(true, a), Side(true, b), reverse[..], offset, d);
      }
    }
    if r.Met? && EndsDiffer(a, b) {
      SplitProgresses(a, b, r.x, r.y, Cost(a, b, r.x, r.y), Rest(a, b, r.x, r.y));
    }
  }

  lemma PriorRow(p: Lines, q: Lines, frontier: seq<int>, offset: int, d: int)
    requires 0 <= d < offset && |frontier| == 2 * offset + 1 && Before(p, q, frontier, offset, d)
    ensures Row(p, q, frontier, offset, d - 1, offset - d + 1, offset + d - 1)
  {}

  lemma NextBefore(p: Lines, q: Lines, frontier: seq<int>, offset: int, d: int)
    requires 0 <= d && d + 1 < offset && |frontier| == 2 * offset + 1
    requires Row(p, q, frontier, offset, d, offset - d, offset + d)
    ensures Before(p, q, frontier, offset, d + 1)
  {}

  /** Both frontiers, every entry paid for and unreached. */
  method NewFrontiers(work: DiffWork, size: nat) returns (forward: array<int>, reverse: array<int>, ok: bool)
    requires work.Valid()
    modifies work
    ensures work.Valid() && fresh(forward) && fresh(reverse) && forward != reverse
    ensures forward.Length == reverse.Length == size
    ensures !ok ==> work.Ended()
  {
    forward, reverse, ok := new int[size], new int[size], true;
    for i := 0 to size
      invariant work.Valid() && ok
    {
      ok := work.Take(1);
      if !ok {
        return;
      }
      forward[i], reverse[i] := -1, -1;
    }
  }

  /**
    The frontiers always meet within half the sum of the lengths, whatever the input,
    so only the budget or the context ends the search without a split.
   */
  method BisectLines(work: DiffWork, a: Lines, b: Lines) returns (x: int, y: int, ok: bool)
    requires work.Valid()
    modifies work
    ensures work.Valid()
    ensures !ok ==> work.Ended()
    ensures ok ==> OnShortestPath(a, b, x, y)
    ensures ok && EndsDiffer(a, b) ==> 0 < x + y < |a| + |b|
  {
    hide Cost, Rest, Reached, Row, OnPass, OnShortestPath, EndsDiffer;
    x, y, ok := 0, 0, false;
    var n, m := |a|, |b|;
    var offset := (n + m + 1) / 2 + 1;
    if 2 * offset + 1 > MAX_DIFF_WORK - work.used {
      work.short := true;
      return;
    }
    var forward, reverse, paid := NewFrontiers(work, 2 * offset + 1);
    if !paid {
      return;
    }
    forward[offset + 1], reverse[offset + 1] := 0, 0;
    var distance := 0;
    while true
      invariant 0 <= distance <= offset && work.Valid() && Dist(a, b) >= 2 * distance - 1
      invariant distance < offset ==> Before(Side(false, a), Side(false, b), forward[..], offset, distance)
      invariant distance < offset ==> Before(Side(true, a), Side(true, b), reverse[..], offset, distance)
      decreases offset - distance
    {
      AtMostSum(a, b, n, m);
      hide Dist, Before, Side;
      var swept := Round(work, a, b, forward, reverse, offset, distance);
      match swept {
        case Exhausted => return;
        case Met(u, v) => return u, v, true;
        case Passed =>
      }
      distance := distance + 1;
    }
  }
}
