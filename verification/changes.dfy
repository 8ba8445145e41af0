/**
  Line changes between two files (internal/adapter/tool/file/diff.go): what it means for
  a list of changes to turn one file into the other, changedLines, which finds a list
  with the fewest deleted plus inserted lines.
 */
module Changes {
  import opened EditGraph
  import opened Bisect

  /** One change: a[startA..endA] becomes b[startB..endB]. */
  datatype LineChange = LineChange(startA: nat, endA: nat, startB: nat, endB: nat)

  /**
    The changes are ordered, disjoint, and inside the files, and every line outside
    them is common to both; a and b start at lines offA and offB of the two files.
   */
  ghost predicate Edits(a: Lines, b: Lines, changes: seq<LineChange>, offA: nat, offB: nat)
    decreases |changes|
  {
    if changes == [] then a == b
    else
      var c := changes[0];
      && offA <= c.startA <= c.endA <= offA + |a| && offB <= c.startB <= c.endB <= offB + |b|
      && a[..c.startA - offA] == b[..c.startB - offB]
      && Edits(a[c.endA - offA..], b[c.endB - offB..], changes[1..], c.endA, c.endB)
  }

  /** Replaces the changed ranges of a by the ranges of b. */
  function Replace(a: Lines, b: Lines, changes: seq<LineChange>, offA: nat, offB: nat): Lines
    decreases |changes|
  {
    if changes == [] then a
    else
      var c := changes[0];
      if offA <= c.startA <= c.endA <= offA + |a| && offB <= c.startB <= c.endB <= offB + |b| then
        a[..c.startA - offA] + b[c.startB - offB..c.endB - offB]
        + Replace(a[c.endA - offA..], b[c.endB - offB..], changes[1..], c.endA, c.endB)
      else a
  }

  /** Deleted plus inserted lines. */
  function Size(changes: seq<LineChange>): int {
    if changes == [] then 0
    else changes[0].endA - changes[0].startA + changes[0].endB - changes[0].startB + Size(changes[1..])
  }

  /** Replacing the changed ranges yields the other file. */
  lemma {:induction false} ReplaceYields(a: Lines, b: Lines, changes: seq<LineChange>, offA: nat, offB: nat)
    requires Edits(a, b, changes, offA, offB)
    ensures Replace(a, b, changes, offA, offB) == b
    decreases |changes|
  {
    if changes != [] {
      var c := changes[0];
      EditsHead(a, b, changes, offA, offB);
      hide Edits;
      ReplaceYields(a[c.endA - offA..], b[c.endB - offB..], changes[1..], c.endA, c.endB);
      ThreeParts(b, c.startB - offB, c.endB - offB);
    }
  }

  lemma ThreeParts(b: Lines, j: nat, v: nat)
    requires j <= v <= |b|
    ensures b == b[..j] + b[j..v] + b[v..]
  {}

  /** No list of changes between the files is smaller than their distance. */
  lemma {:induction false} DistIsLeast(a: Lines, b: Lines, changes: seq<LineChange>, offA: nat, offB: nat)
    requires Edits(a, b, changes, offA, offB)
    ensures Size(changes) >= Dist(a, b)
    decreases |changes|
  {
    hide Cost;
    if changes == [] {
      DistSame(a);
    } else {
      var c := changes[0];
      var i, u := c.startA - offA, c.endA - offA;
      var j, v := c.startB - offB, c.endB - offB;
      DistIsLeast(a[u..], b[v..], changes[1..], c.endA, c.endB);
      assert a == a[..i] + (a[i..u] + a[u..]) && b == b[..j] + (b[j..v] + b[v..]);
      DistConcat(a[..i], b[..j], a[i..u] + a[u..], b[j..v] + b[v..]);
      DistConcat(a[i..u], b[j..v], a[u..], b[v..]);
      DistSame(a[..i]);
      AtMostSum(a[i..u], b[j..v], u - i, v - j);
    }
  }

  lemma {:induction false} SizeConcat(left: seq<LineChange>, right: seq<LineChange>)
    ensures Size(left + right) == Size(left) + Size(right)
  {
    if left == [] {
      assert left + right == right;
    } else {
      assert (left + right)[1..] == left[1..] + right;
      SizeConcat(left[1..], right);
    }
  }

  /** Changes after a common head are changes of the whole. */
  lemma EditsAfterHead(head: Lines, a: Lines, b: Lines, changes: seq<LineChange>, offA: nat, offB: nat)
    requires Edits(a, b, changes, offA + |head|, offB + |head|)
    ensures Edits(head + a, head + b, changes, offA, offB)
  {
    if changes == [] {
      assert a == b;
    } else {
      hide *;
      EditsAfterHeadRest(head, a, b, changes[0], changes[1..], changes, offA, offB);
    }
  }

  lemma EditsAfterHeadRest(head: Lines, a: Lines, b: Lines, c: LineChange, rest: seq<LineChange>, changes: seq<LineChange>,
                           offA: nat, offB: nat)
    requires Edits(a, b, changes, offA + |head|, offB + |head|) && changes != [] && c == changes[0] && rest == changes[1..]
    ensures Edits(head + a, head + b, changes, offA, offB)
  {
    hide *;
    var n := |head|;
    assert changes == [c] + rest;
    EditsHead(a, b, changes, offA + n, offB + n);
    SliceHead(head, a, c.startA - offA, c.endA - offA);
    SliceHead(head, b, c.startB - offB, c.endB - offB);
    EditsCons(head + a, head + b, c, rest, offA, offB);
  }

  lemma SliceHead(head: Lines, a: Lines, i: int, u: int)
    requires |head| <= i <= u <= |head| + |a|
    ensures (head + a)[..i] == head + a[..i - |head|] && (head + a)[u..] == a[u - |head|..]
  {}

  lemma EditsCons(a: Lines, b: Lines, c: LineChange, rest: seq<LineChange>, offA: nat, offB: nat)
    requires offA <= c.startA <= c.endA <= offA + |a| && offB <= c.startB <= c.endB <= offB + |b|
    requires a[..c.startA - offA] == b[..c.startB - offB]
    requires Edits(a[c.endA - offA..], b[c.endB - offB..], rest, c.endA, c.endB)
    ensures Edits(a, b, [c] + rest, offA, offB)
  {
    assert ([c] + rest)[1..] == rest;
  }

  lemma EditsHead(a: Lines, b: Lines, changes: seq<LineChange>, offA: nat, offB: nat)
    requires Edits(a, b, changes, offA, offB) && changes != []
    ensures var c := changes[0];
      && offA <= c.startA <= c.endA <= offA + |a| && offB <= c.startB <= c.endB <= offB + |b|
      && a[..c.startA - offA] == b[..c.startB - offB]
      && Edits(a[c.endA - offA..], b[c.endB - offB..], changes[1..], c.endA, c.endB)
  {}

  lemma NoEdits(a: Lines, b: Lines, offA: nat, offB: nat)
    requires Edits(a, b, [], offA, offB)
    ensures a == b
  {}

  lemma SliceConcat(a: Lines, c: Lines, i: int, u: int)
    requires 0 <= i <= u <= |a|
    ensures (a + c)[..i] == a[..i] && (a + c)[u..] == a[u..] + c
  {}

  /** Changes of two adjoining parts, one list after the other, are changes of the whole. */
  lemma {:induction false} EditsConcat(a: Lines, b: Lines, left: seq<LineChange>, c: Lines, d: Lines, right: seq<LineChange>,
                                       offA: nat, offB: nat)
    requires Edits(a, b, left, offA, offB) && Edits(c, d, right, offA + |a|, offB + |b|)
    ensures Edits(a + c, b + d, left + right, offA, offB)
    decreases |left|, 1
  {
    hide *;
    if left == [] {
      NoEdits(a, b, offA, offB);
      assert left + right == right;
      EditsAfterHead(a, c, d, right, offA, offB);
    } else {
      EditsHead(a, b, left, offA, offB);
      EditsConcatRest(a, b, left[0], left[1..], c, d, right, offA, offB);
      assert left + right == [left[0]] + (left[1..] + right);
    }
  }

  lemma {:induction false} EditsConcatRest(a: Lines, b: Lines, l: LineChange, rest: seq<LineChange>,
                                           c: Lines, d: Lines, right: seq<LineChange>, offA: nat, offB: nat)
    requires offA <= l.startA <= l.endA <= offA + |a| && offB <= l.startB <= l.endB <= offB + |b|
    requires a[..l.startA - offA] == b[..l.startB - offB]
    requires Edits(a[l.endA - offA..], b[l.endB - offB..], rest, l.endA, l.endB)
    requires Edits(c, d, right, offA + |a|, offB + |b|)
    ensures Edits(a + c, b + d, [l] + (rest + right), offA, offB)
    decreases |rest| + 1, 0
  {
    hide *;
    EditsConcat(a[l.endA - offA..], b[l.endB - offB..], rest, c, d, right, l.endA, l.endB);
    SliceConcat(a, c, l.startA - offA, l.endA - offA);
    SliceConcat(b, d, l.startB - offB, l.endB - offB);
    EditsCons(a + c, b + d, l, rest + right, offA, offB);
  }

  lemma DistAfterHead(head: Lines, a: Lines, b: Lines)
    ensures Dist(head + a, head + b) == Dist(a, b)
    decreases |head|
  {
    hide Cost;
    if head == [] {
      assert head + a == a && head + b == b;
    } else {
      StripFirst(head + a, head + b);
      assert (head + a)[1..] == head[1..] + a && (head + b)[1..] == head[1..] + b;
      DistAfterHead(head[1..], a, b);
    }
  }

  lemma DistBeforeTail(a: Lines, b: Lines, tail: Lines)
    ensures Dist(a + tail, b + tail) == Dist(a, b)
    decreases |tail|
  {
    hide Cost;
    if tail == [] {
      assert a + tail == a && b + tail == b;
    } else {
      var front := tail[..|tail| - 1];
      StripLast(a + tail, b + tail);
      assert (a + tail)[..|a + tail| - 1] == a + front && (b + tail)[..|b + tail| - 1] == b + front;
      DistBeforeTail(a, b, front);
    }
  }

  /** The changes are a smallest list turning a into b. */
  ghost predicate Smallest(a: Lines, b: Lines, changes: seq<LineChange>, offA: nat, offB: nat) {
    Edits(a, b, changes, offA, offB) && Size(changes) == Dist(a, b)
  }

  /** Common lines at either end change nothing. */
  lemma SmallestAfterHead(head: Lines, a: Lines, b: Lines, changes: seq<LineChange>, offA: nat, offB: nat)
    requires Smallest(a, b, changes, offA + |head|, offB + |head|)
    ensures Smallest(head + a, head + b, changes, offA, offB)
  {
    hide Dist, Edits;
    EditsAfterHead(head, a, b, changes, offA, offB);
    DistAfterHead(head, a, b);
  }

  lemma SmallestBeforeTail(a: Lines, b: Lines, tail: Lines, changes: seq<LineChange>, offA: nat, offB: nat)
    requires Smallest(a, b, changes, offA, offB)
    ensures Smallest(a + tail, b + tail, changes, offA, offB)
  {
    assert Edits(tail, tail, [], offA + |a|, offB + |b|);
    hide Dist, Edits;
    EditsConcat(a, b, changes, tail, tail, [], offA, offB);
    assert changes + [] == changes;
    DistBeforeTail(a, b, tail);
  }

  lemma SmallestJoin(a: Lines, b: Lines, left: seq<LineChange>, c: Lines, d: Lines, right: seq<LineChange>, offA: nat, offB: nat)
    requires Dist(a + c, b + d) == Dist(a, b) + Dist(c, d)
    requires Smallest(a, b, left, offA, offB) && Smallest(c, d, right, offA + |a|, offB + |b|)
    ensures Smallest(a + c, b + d, left + right, offA, offB)
  {
    EditsConcat(a, b, left, c, d, right, offA, offB);
    SizeConcat(left, right);
  }

  lemma DistSplit(a: Lines, b: Lines, x: nat, y: nat)
    requires OnShortestPath(a, b, x, y)
    ensures Dist(a[..x] + a[x..], b[..y] + b[y..]) == Dist(a[..x], b[..y]) + Dist(a[x..], b[y..])
  {
    DistOfPrefix(a, b, x, y);
    CostOfSuffix(a, b, x, y);
    assert a == a[..x] + a[x..] && b == b[..y] + b[y..];
  }

  /** Smallest changes on both sides of a split of a shortest path are smallest together. */
  lemma SmallestSplit(a: Lines, b: Lines, x: nat, y: nat, left: seq<LineChange>, right: seq<LineChange>, offA: nat, offB: nat)
    requires OnShortestPath(a, b, x, y)
    requires Smallest(a[..x], b[..y], left, offA, offB) && Smallest(a[x..], b[y..], right, offA + x, offB + y)
    ensures Smallest(a, b, left + right, offA, offB)
  {
    hide *;
    PathInside(a, b, x, y);
    DistSplit(a, b, x, y);
    Glue(a, x);
    Glue(b, y);
    SmallestParts(a, b, a[..x], b[..y], left, a[x..], b[y..], right, offA, offB);
  }

  lemma PathInside(a: Lines, b: Lines, x: int, y: int)
    requires OnShortestPath(a, b, x, y)
    ensures 0 <= x <= |a| && 0 <= y <= |b|
  {}

  lemma SmallestParts(a: Lines, b: Lines, a1: Lines, b1: Lines, left: seq<LineChange>, a2: Lines, b2: Lines,
                      right: seq<LineChange>, offA: nat, offB: nat)
    requires a == a1 + a2 && b == b1 + b2 && Dist(a1 + a2, b1 + b2) == Dist(a1, b1) + Dist(a2, b2)
    requires Smallest(a1, b1, left, offA, offB) && Smallest(a2, b2, right, offA + |a1|, offB + |b1|)
    ensures Smallest(a, b, left + right, offA, offB)
  {
    hide *;
    SmallestJoin(a1, b1, left, a2, b2, right, offA, offB);
  }

  lemma Glue(a: Lines, x: nat)
    requires x <= |a|
    ensures a[..x] + a[x..] == a
  {}

  /** With no line in common the whole range is one change. */
  lemma SmallestReplacement(a: Lines, b: Lines, offA: nat, offB: nat)
    requires forall i, j :: 0 <= i < |a| && 0 <= j < |b| ==> a[i] != b[j]
    ensures Smallest(a, b, [LineChange(offA, offA + |a|, offB, offB + |b|)], offA, offB)
  {
    NothingShared(a, b, |a|, |b|);
    var changes := [LineChange(offA, offA + |a|, offB, offB + |b|)];
    assert changes[1..] == [];
  }

  lemma AddHeadLine(head: Lines, a0: Lines, a: Lines)
    requires a0 == head + a && a != []
    ensures a0 == head + [a[0]] + a[1..]
  {}

  lemma AddTailLine(a0: Lines, a: Lines, tail: Lines)
    requires a0 == a + tail && a != []
    ensures a0 == a[..|a| - 1] + ([a[|a| - 1]] + tail)
  {}

  /**
    Common edges first, then a split of a shortest path while a line is still shared.
    A complete answer is a smallest list of changes; only budget or context prevent one.
   */
  method ChangedLines(work: DiffWork, a0: Lines, b0: Lines, startA0: nat, startB0: nat)
    returns (changes: seq<LineChange>, complete: bool)
    requires work.Valid()
    modifies work
    ensures work.Valid()
    ensures complete ==> Smallest(a0, b0, changes, startA0, startB0)
    ensures !complete ==> work.Ended()
    decreases |a0| + |b0|, 2
  {
    hide Smallest;
    changes, complete := [], false;
    var a, b, startA, startB := a0, b0, startA0, startB0;
    ghost var head := [];
    while |a| > 0 && |b| > 0
      invariant work.Valid() && a0 == head + a && b0 == head + b
      invariant startA == startA0 + |head| && startB == startB0 + |head|
      decreases |a|
    {
      var ok := work.Take(1 + Longer(a[0], b[0]));
      if !ok {
        return;
      }
      if a[0] != b[0] {
        break;
      }
      AddHeadLine(head, a0, a);
      AddHeadLine(head, b0, b);
      head := head + [a[0]];
      a, b, startA, startB := a[1..], b[1..], startA + 1, startB + 1;
    }
    ghost var a1, b1, tail := a, b, [];
    while |a| > 0 && |b| > 0
      invariant work.Valid() && a1 == a + tail && b1 == b + tail
      invariant a != [] && b != [] ==> a[0] != b[0]
      decreases |a|
    {
      var ok := work.Take(1 + Longer(a[|a| - 1], b[|b| - 1]));
      if !ok {
        return;
      }
      if a[|a| - 1] != b[|b| - 1] {
        break;
      }
      AddTailLine(a1, a, tail);
      AddTailLine(b1, b, tail);
      tail := [a[|a| - 1]] + tail;
      a, b := a[..|a| - 1], b[..|b| - 1];
    }
    changes, complete := InnerLines(work, a, b, startA, startB);
    if complete {
      SmallestBeforeTail(a, b, tail, changes, startA, startB);
      SmallestAfterHead(head, a1, b1, changes, startA0, startB0);
    }
  }

  /** The ranges left between the common edges. */
  method InnerLines(work: DiffWork, a: Lines, b: Lines, startA: nat, startB: nat)
    returns (changes: seq<LineChange>, complete: bool)
    requires work.Valid() && (a != [] && b != [] ==> EndsDiffer(a, b))
    modifies work
    ensures work.Valid()
    ensures complete ==> Smallest(a, b, changes, startA, startB)
    ensures !complete ==> work.Ended()
    decreases |a| + |b|, 1
  {
    changes, complete := [], false;
    if |a| == 0 && |b| == 0 {
      DistSame([]);
      return [], true;
    }
    hide Smallest, EndsDiffer;
    var shared: set<Line> := {};
    for i := 0 to |a|
      invariant work.Valid() && forall j :: 0 <= j < i ==> a[j] in shared
      invariant forall line :: line in shared ==> line in a
    {
      var ok := work.Take(1 + |a[i].text|);
      if !ok {
        return;
      }
      shared := shared + {a[i]};
    }
    for i := 0 to |b|
      invariant work.Valid() && forall j :: 0 <= j < i ==> b[j] !in shared
    {
      var ok := work.Take(1 + |b[i].text|);
      if !ok {
        return;
      }
      if b[i] in shared {
        assert a != [];
        changes, complete := SplitLines(work, a, b, startA, startB);
        return;
      }
    }
    SmallestReplacement(a, b, startA, startB);
    return [LineChange(startA, startA + |a|, startB, startB + |b|)], true;
  }

  /** The parts on either side of a split of a shortest path, each on its own. */
  method SplitLines(work: DiffWork, a: Lines, b: Lines, startA: nat, startB: nat)
    returns (changes: seq<LineChange>, complete: bool)
    requires work.Valid() && EndsDiffer(a, b)
    modifies work
    ensures work.Valid()
    ensures complete ==> Smallest(a, b, changes, startA, startB)
    ensures !complete ==> work.Ended()
    decreases |a| + |b|, 0
  {
    hide *;
    changes, complete := [], false;
    var x, y, found := BisectLines(work, a, b);
    if !found {
      return;
    }
    PathInside(a, b, x, y);
    var left, leftDone := ChangedLines(work, a[..x], b[..y], startA, startB);
    if !leftDone {
      return;
    }
    var right, rightDone := ChangedLines(work, a[x..], b[y..], startA + x, startB + y);
    if rightDone {
      SmallestSplit(a, b, x, y, left, right, startA, startB);
    }
    return left + right, rightDone;
  }
}
