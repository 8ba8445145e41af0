/**
  Shortest edit paths between two sequences of lines, counting deleted plus inserted
  lines. Points (x, y) range over the whole quadrant: beyond either sequence no line
  matches, which is where the frontiers of the linear-space search may run.
 */
module EditGraph {

  /** One line with its terminator. */
  datatype Line = Line(text: string)

  type Lines = seq<Line>

  predicate Match(a: Lines, b: Lines, x: nat, y: nat) {
    x < |a| && y < |b| && a[x] == b[y]
  }

  /** The fewest deletions and insertions on a path from the origin to (x, y). */
  function Cost(a: Lines, b: Lines, x: nat, y: nat): nat
    decreases x + y
  {
    if x == 0 then y
    else if y == 0 then x
    else if Match(a, b, x - 1, y - 1) then Cost(a, b, x - 1, y - 1)
    else
      var left, up := Cost(a, b, x - 1, y), Cost(a, b, x, y - 1);
      1 + if left <= up then left else up
  }

  function Dist(a: Lines, b: Lines): nat { Cost(a, b, |a|, |b|) }

  function Rev(a: Lines): (r: Lines)
    ensures |r| == |a| && forall i :: 0 <= i < |a| ==> r[i] == a[|a| - 1 - i]
  {
    if a == [] then [] else Rev(a[1..]) + [a[0]]
  }

  // ----- local facts -----

  /** Neighbouring points differ by at most one edit. */
  lemma {:induction false} Lipschitz(a: Lines, b: Lines, x: nat, y: nat)
    ensures Cost(a, b, x, y) - 1 <= Cost(a, b, x + 1, y) <= Cost(a, b, x, y) + 1
    ensures Cost(a, b, x, y) - 1 <= Cost(a, b, x, y + 1) <= Cost(a, b, x, y) + 1
    decreases x + y
  {
    if y > 0 {
      Lipschitz(a, b, x, y - 1);
    }
    if x > 0 {
      Lipschitz(a, b, x - 1, y);
    }
  }

  lemma {:induction false} Parity(a: Lines, b: Lines, x: nat, y: nat)
    ensures (x + y - Cost(a, b, x, y)) % 2 == 0
    decreases x + y
  {
    if x == 0 || y == 0 {
    } else if Match(a, b, x - 1, y - 1) {
      Parity(a, b, x - 1, y - 1);
    } else if Cost(a, b, x - 1, y) <= Cost(a, b, x, y - 1) {
      Parity(a, b, x - 1, y);
    } else {
      Parity(a, b, x, y - 1);
    }
  }

  /** Cost never decreases along a diagonal. */
  lemma {:induction false} DiagonalMonotone(a: Lines, b: Lines, x: nat, y: nat, k: nat)
    ensures Cost(a, b, x, y) <= Cost(a, b, x + k, y + k)
  {
    if k > 0 {
      DiagonalMonotone(a, b, x, y, k - 1);
      Lipschitz(a, b, x + k - 1, y + k - 1);
    }
  }

  lemma {:induction false} AtLeastDiagonal(a: Lines, b: Lines, x: nat, y: nat)
    ensures Cost(a, b, x, y) >= x - y && Cost(a, b, x, y) >= y - x
    decreases x + y
  {
    if x > 0 && y > 0 {
      AtLeastDiagonal(a, b, x - 1, y - 1);
      AtLeastDiagonal(a, b, x - 1, y);
      AtLeastDiagonal(a, b, x, y - 1);
    }
  }

  lemma {:induction false} AtMostSum(a: Lines, b: Lines, x: nat, y: nat)
    ensures Cost(a, b, x, y) <= x + y
    decreases x + y
  {
    if x > 0 {
      AtMostSum(a, b, x - 1, y);
      Lipschitz(a, b, x - 1, y);
    }
  }

  lemma {:induction false} Upward(a: Lines, b: Lines, x: nat, y: nat, k: nat)
    ensures Cost(a, b, x, y + k) <= Cost(a, b, x, y) + k
    ensures Cost(a, b, x + k, y) <= Cost(a, b, x, y) + k
  {
    if k > 0 {
      Upward(a, b, x, y, k - 1);
      Lipschitz(a, b, x, y + k - 1);
      Lipschitz(a, b, x + k - 1, y);
    }
  }

  /** Past the end of a every step right costs one edit. */
  lemma {:induction false} BeyondA(a: Lines, b: Lines, k: nat, y: nat)
    ensures Cost(a, b, |a| + k, y) == Cost(a, b, |a|, y) + k
    decreases k + y
  {
    if k > 0 && y > 0 {
      BeyondA(a, b, k - 1, y);
      BeyondA(a, b, k, y - 1);
      Lipschitz(a, b, |a|, y - 1);
    }
  }

  lemma {:induction false} BeyondB(a: Lines, b: Lines, x: nat, k: nat)
    ensures Cost(a, b, x, |b| + k) == Cost(a, b, x, |b|) + k
    decreases k + x
  {
    if k > 0 && x > 0 {
      BeyondB(a, b, x, k - 1);
      BeyondB(a, b, x - 1, k);
      Lipschitz(a, b, x - 1, |b|);
    }
  }

  /** Cost depends only on the prefixes it walks over. */
  lemma {:induction false} CostOfPrefix(a: Lines, b: Lines, x: nat, y: nat, i: nat, j: nat)
    requires x <= i <= |a| && y <= j <= |b|
    ensures Cost(a, b, x, y) == Cost(a[..i], b[..j], x, y)
    decreases x + y
  {
    if x > 0 && y > 0 {
      CostOfPrefix(a, b, x - 1, y - 1, i, j);
      CostOfPrefix(a, b, x - 1, y, i, j);
      CostOfPrefix(a, b, x, y - 1, i, j);
    }
  }

  // ----- paths through a point -----

  /** The fewest edits from (x, y) to the end, read from the back. */
  ghost function Rest(a: Lines, b: Lines, x: nat, y: nat): nat
    requires x <= |a| && y <= |b|
  {
    Cost(Rev(a), Rev(b), |a| - x, |b| - y)
  }

  lemma RestStep(a: Lines, b: Lines, x: nat, y: nat)
    requires x < |a| && y < |b|
    ensures Rest(a, b, x, y) ==
      if Match(a, b, x, y) then Rest(a, b, x + 1, y + 1)
      else 1 + if Rest(a, b, x + 1, y) <= Rest(a, b, x, y + 1) then Rest(a, b, x + 1, y) else Rest(a, b, x, y + 1)
  {
    assert Match(Rev(a), Rev(b), |a| - x - 1, |b| - y - 1) <==> Match(a, b, x, y);
  }

  lemma RestNear(a: Lines, b: Lines, x: nat, y: nat)
    requires x <= |a| && y <= |b|
    ensures x < |a| ==> Rest(a, b, x, y) <= Rest(a, b, x + 1, y) + 1
    ensures y < |b| ==> Rest(a, b, x, y) <= Rest(a, b, x, y + 1) + 1
  {
    if x < |a| {
      Lipschitz(Rev(a), Rev(b), |a| - x - 1, |b| - y);
    }
    if y < |b| {
      Lipschitz(Rev(a), Rev(b), |a| - x, |b| - y - 1);
    }
  }

  lemma RestAtEdge(a: Lines, b: Lines, x: nat, y: nat)
    requires x <= |a| && y <= |b| && (x == |a| || y == |b|)
    ensures Rest(a, b, x, y) == |a| - x + |b| - y
  {}

  lemma CostStep(a: Lines, b: Lines, x: nat, y: nat)
    requires x > 0 && y > 0
    ensures Cost(a, b, x, y) ==
      if Match(a, b, x - 1, y - 1) then Cost(a, b, x - 1, y - 1)
      else 1 + if Cost(a, b, x - 1, y) <= Cost(a, b, x, y - 1) then Cost(a, b, x - 1, y) else Cost(a, b, x, y - 1)
  {}

  lemma CostAtEdge(a: Lines, b: Lines, x: nat, y: nat)
    requires x == 0 || y == 0
    ensures Cost(a, b, x, y) == x + y
  {}

  /** Going through any point costs at least the whole distance. */
  lemma {:induction false} ThroughPoint(a: Lines, b: Lines, x: nat, y: nat)
    requires x <= |a| && y <= |b|
    ensures Dist(a, b) <= Cost(a, b, x, y) + Rest(a, b, x, y)
    decreases |a| - x + |b| - y
  {
    hide Cost, Rest;
    Lipschitz(a, b, x, y);
    if x < |a| && y < |b| {
      RestStep(a, b, x, y);
      CostStep(a, b, x + 1, y + 1);
      ThroughPoint(a, b, x + 1, y + 1);
      ThroughPoint(a, b, x + 1, y);
      ThroughPoint(a, b, x, y + 1);
    } else {
      RestAtEdge(a, b, x, y);
      if x < |a| {
        RestAtEdge(a, b, x + 1, y);
        ThroughPoint(a, b, x + 1, y);
      } else if y < |b| {
        RestAtEdge(a, b, x, y + 1);
        ThroughPoint(a, b, x, y + 1);
      }
    }
  }

  lemma RevRev(a: Lines)
    ensures Rev(Rev(a)) == a
  {}

  /** The distance is the same read backwards. */
  lemma DistRev(a: Lines, b: Lines)
    ensures Dist(Rev(a), Rev(b)) == Dist(a, b)
  {
    RevRev(a);
    RevRev(b);
    ThroughPoint(a, b, 0, 0);
    ThroughPoint(Rev(a), Rev(b), 0, 0);
  }

  /** A shortest path through (x, y) comes from one edit less, or along a match. */
  lemma BackOnPath(a: Lines, b: Lines, x: nat, y: nat) returns (u: nat, v: nat)
    requires x <= |a| && y <= |b| && Cost(a, b, x, y) > 0
    requires Cost(a, b, x, y) + Rest(a, b, x, y) == Dist(a, b)
    ensures u <= x && v <= y && u + v < x + y
    ensures Cost(a, b, x, y) - 1 <= Cost(a, b, u, v) <= Cost(a, b, x, y)
    ensures Cost(a, b, u, v) + Rest(a, b, u, v) == Dist(a, b)
  {
    hide Cost, Rest;
    if x == 0 || y == 0 {
      CostAtEdge(a, b, x, y);
      u, v := if x > 0 then x - 1 else x, if x > 0 then y else y - 1;
      CostAtEdge(a, b, u, v);
      RestNear(a, b, u, v);
    } else {
      CostStep(a, b, x, y);
      if Match(a, b, x - 1, y - 1) {
        u, v := x - 1, y - 1;
        RestStep(a, b, u, v);
      } else {
        var left := Cost(a, b, x - 1, y) <= Cost(a, b, x, y - 1);
        u, v := if left then x - 1 else x, if left then y else y - 1;
        RestNear(a, b, u, v);
      }
    }
    ThroughPoint(a, b, u, v);
  }

  /** Some shortest path has a point with any given number of edits behind it. */
  lemma {:induction false} PointOnPath(a: Lines, b: Lines, edits: nat, x: nat, y: nat) returns (px: nat, py: nat)
    requires x <= |a| && y <= |b| && edits <= Cost(a, b, x, y)
    requires Cost(a, b, x, y) + Rest(a, b, x, y) == Dist(a, b)
    ensures px <= |a| && py <= |b| && Cost(a, b, px, py) == edits
    ensures Rest(a, b, px, py) == Dist(a, b) - edits
    decreases x + y
  {
    hide Cost, Rest;
    if Cost(a, b, x, y) == edits {
      return x, y;
    }
    var u, v := BackOnPath(a, b, x, y);
    px, py := PointOnPath(a, b, edits, u, v);
  }

  // ----- distances of whole sequences -----

  lemma RevConcat(a: Lines, c: Lines)
    ensures Rev(a + c) == Rev(c) + Rev(a)
  {
    var left, right := Rev(a + c), Rev(c) + Rev(a);
    forall i | 0 <= i < |left| ensures left[i] == right[i] {}
  }

  /** The cost of the rest of the way is the distance of the two suffixes. */
  lemma CostOfSuffix(a: Lines, b: Lines, x: nat, y: nat)
    requires x <= |a| && y <= |b|
    ensures Rest(a, b, x, y) == Dist(a[x..], b[y..])
  {
    assert a == a[..x] + a[x..] && b == b[..y] + b[y..];
    RevConcat(a[..x], a[x..]);
    RevConcat(b[..y], b[y..]);
    CostOfPrefix(Rev(a), Rev(b), |a| - x, |b| - y, |a| - x, |b| - y);
    assert Rev(a)[..|a| - x] == Rev(a[x..]) && Rev(b)[..|b| - y] == Rev(b[y..]);
    DistRev(a[x..], b[y..]);
  }

  lemma DistOfPrefix(a: Lines, b: Lines, x: nat, y: nat)
    requires x <= |a| && y <= |b|
    ensures Cost(a, b, x, y) == Dist(a[..x], b[..y])
  {
    CostOfPrefix(a, b, x, y, x, y);
  }

  lemma DistConcat(a: Lines, b: Lines, c: Lines, d: Lines)
    ensures Dist(a + c, b + d) <= Dist(a, b) + Dist(c, d)
  {
    ThroughPoint(a + c, b + d, |a|, |b|);
    DistOfPrefix(a + c, b + d, |a|, |b|);
    CostOfSuffix(a + c, b + d, |a|, |b|);
    assert (a + c)[..|a|] == a && (b + d)[..|b|] == b && (a + c)[|a|..] == c && (b + d)[|b|..] == d;
  }

  lemma StripLast(a: Lines, b: Lines)
    requires a != [] && b != [] && a[|a| - 1] == b[|b| - 1]
    ensures Dist(a, b) == Dist(a[..|a| - 1], b[..|b| - 1])
  {
    DistOfPrefix(a, b, |a| - 1, |b| - 1);
  }

  lemma StripFirst(a: Lines, b: Lines)
    requires a != [] && b != [] && a[0] == b[0]
    ensures Dist(a, b) == Dist(a[1..], b[1..])
  {
    DistRev(a, b);
    StripLast(Rev(a), Rev(b));
    DistRev(a[1..], b[1..]);
    assert Rev(a)[..|a| - 1] == Rev(a[1..]) && Rev(b)[..|b| - 1] == Rev(b[1..]);
  }

  lemma {:induction false} DistSame(a: Lines)
    ensures Dist(a, a) == 0
  {
    if a != [] {
      StripFirst(a, a);
      DistSame(a[1..]);
    }
  }

  /** With no line in common, everything is deleted and inserted. */
  lemma {:induction false} NothingShared(a: Lines, b: Lines, x: nat, y: nat)
    requires forall i, j :: 0 <= i < |a| && 0 <= j < |b| ==> a[i] != b[j]
    ensures Cost(a, b, x, y) == x + y
    decreases x + y
  {
    if x > 0 && y > 0 {
      NothingShared(a, b, x - 1, y);
      NothingShared(a, b, x, y - 1);
    }
  }

  lemma {:induction false} ZeroMatchesFirst(a: Lines, b: Lines, x: nat, y: nat)
    requires Cost(a, b, x, y) == 0 && (x > 0 || y > 0)
    ensures Match(a, b, 0, 0)
    decreases x + y
  {
    if x > 1 || y > 1 {
      ZeroMatchesFirst(a, b, x - 1, y - 1);
    }
  }

  /** Sequences that differ at both ends are at least two edits apart. */
  lemma TwoEditsApart(a: Lines, b: Lines)
    requires a != [] && b != [] && a[0] != b[0] && a[|a| - 1] != b[|b| - 1]
    ensures Dist(a, b) >= 2
  {
    if Cost(a, b, |a| - 1, |b|) == 0 {
      ZeroMatchesFirst(a, b, |a| - 1, |b|);
    }
    if Cost(a, b, |a|, |b| - 1) == 0 {
      ZeroMatchesFirst(a, b, |a|, |b| - 1);
    }
  }
}
