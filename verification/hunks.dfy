/**
  The hunks shown for a list of line changes (contextualDiffs in
  internal/adapter/tool/file/diff.go): three lines of context on each side, hunks
  whose contexts touch merged into one.
 */
module Hunks {
  import opened EditGraph
  import opened Changes

  const CONTEXT: nat := 3

  function Max(i: int, j: int): int { if i > j then i else j }
  function Min(i: int, j: int): int { if i < j then i else j }

  /** A change with its context, clipped to the files. */
  function Widen(a: Lines, b: Lines, c: LineChange): LineChange {
    LineChange(Max(0, c.startA - CONTEXT), Max(0, Min(|a|, c.endA + CONTEXT)),
               Max(0, c.startB - CONTEXT), Max(0, Min(|b|, c.endB + CONTEXT)))
  }

  predicate Contains(hunk: LineChange, c: LineChange) {
    hunk.startA <= c.startA && c.endA <= hunk.endA && hunk.startB <= c.startB && c.endB <= hunk.endB
  }

  ghost predicate Inside(hunks: seq<LineChange>, c: LineChange) {
    exists h :: 0 <= h < |hunks| && Contains(hunks[h], c)
  }

  ghost predicate Covered(hunks: seq<LineChange>, changes: seq<LineChange>) {
    forall i :: 0 <= i < |changes| ==> Inside(hunks, changes[i])
  }

  /** Some change with its context holds this line of the old file, or of the new one. */
  ghost predicate NearOld(changes: seq<LineChange>, x: int) {
    exists i :: 0 <= i < |changes| && changes[i].startA <= x < changes[i].endA
  }

  ghost predicate NearNew(changes: seq<LineChange>, y: int) {
    exists i :: 0 <= i < |changes| && changes[i].startB <= y < changes[i].endB
  }

  /** No line is shown but within three lines of a change. */
  ghost predicate Close(hunk: LineChange, changes: seq<LineChange>) {
    && (forall x :: hunk.startA <= x < hunk.endA ==> NearOld(changes, x))
    && (forall y :: hunk.startB <= y < hunk.endB ==> NearNew(changes, y))
  }

  ghost predicate AllClose(hunks: seq<LineChange>, changes: seq<LineChange>) {
    forall h :: 0 <= h < |hunks| ==> Close(hunks[h], changes)
  }

  lemma CloseGrows(hunk: LineChange, changes: seq<LineChange>, d: LineChange)
    requires Close(hunk, changes)
    ensures Close(hunk, changes + [d])
  {
    var all := changes + [d];
    forall x | hunk.startA <= x < hunk.endA ensures NearOld(all, x) {
      assert NearOld(changes, x);
      var i :| 0 <= i < |changes| && changes[i].startA <= x < changes[i].endA;
      assert all[i] == changes[i];
    }
    forall y | hunk.startB <= y < hunk.endB ensures NearNew(all, y) {
      assert NearNew(changes, y);
      var i :| 0 <= i < |changes| && changes[i].startB <= y < changes[i].endB;
      assert all[i] == changes[i];
    }
  }

  lemma CloseItself(changes: seq<LineChange>, d: LineChange)
    ensures Close(d, changes + [d])
  {
    assert (changes + [d])[|changes|] == d;
  }

  lemma CloseMerged(last: LineChange, changes: seq<LineChange>, d: LineChange)
    requires Close(last, changes) && Touches(last, d)
    ensures Close(Extend(last, d), changes + [d])
  {
    CloseGrows(last, changes, d);
    CloseItself(changes, d);
    hide NearOld, NearNew;
  }

  lemma AllCloseMerged(hunks: seq<LineChange>, changes: seq<LineChange>, d: LineChange)
    requires hunks != [] && AllClose(hunks, changes) && Touches(hunks[|hunks| - 1], d)
    ensures AllClose(hunks[|hunks| - 1 := Extend(hunks[|hunks| - 1], d)], changes + [d])
  {
    CloseMerged(hunks[|hunks| - 1], changes, d);
    forall h | 0 <= h < |hunks| - 1 ensures Close(hunks[h], changes + [d]) {
      CloseGrows(hunks[h], changes, d);
    }
    hide Close;
  }

  lemma AllCloseAppended(hunks: seq<LineChange>, changes: seq<LineChange>, d: LineChange)
    requires AllClose(hunks, changes)
    ensures AllClose(hunks + [d], changes + [d])
  {
    CloseItself(changes, d);
    forall h | 0 <= h < |hunks| ensures Close(hunks[h], changes + [d]) {
      CloseGrows(hunks[h], changes, d);
    }
    hide Close;
  }

  /** Hunks that follow each other have lines of both files between them. */
  ghost predicate Separated(hunks: seq<LineChange>) {
    forall h :: 0 < h < |hunks| ==> hunks[h - 1].endA < hunks[h].startA && hunks[h - 1].endB < hunks[h].startB
  }

  /** Where the hunks before the last one end. */
  function Settled(hunks: seq<LineChange>): (nat, nat)
    requires hunks != []
  {
    if |hunks| == 1 then (0, 0) else (hunks[|hunks| - 2].endA, hunks[|hunks| - 2].endB)
  }

  /** The lines between positions of the two files are the same. */
  ghost predicate Common(a: Lines, b: Lines, i: int, u: int, j: int, v: int) {
    0 <= i <= u <= |a| && 0 <= j <= v <= |b| && a[i..u] == b[j..v]
  }

  /** Every hunk but the last is final; the last one is the widened change c, perhaps with more before it. */
  ghost predicate Building(a: Lines, b: Lines, hunks: seq<LineChange>, c: LineChange) {
    && hunks != []
    && var last, from := hunks[|hunks| - 1], Settled(hunks);
    && from.0 <= |a| && from.1 <= |b|
    && Edits(a[..from.0], b[..from.1], hunks[..|hunks| - 1], 0, 0)
    && Common(a, b, from.0, last.startA, from.1, last.startB)
    && last.startA <= Max(0, c.startA - CONTEXT) && c.startA <= c.endA <= |a|
    && last.startB <= Max(0, c.startB - CONTEXT) && c.startB <= c.endB <= |b|
    && last.endA == Min(|a|, c.endA + CONTEXT) && last.endB == Min(|b|, c.endB + CONTEXT)
  }

  lemma Narrow(a: Lines, i: nat, u: nat, from: nat, to: nat)
    requires i <= u <= |a| && from <= to <= u - i
    ensures a[i..u][from..to] == a[i + from..i + to]
  {
    forall k: nat | k < to - from ensures a[i..u][from..to][k] == a[i + from..i + to][k] {
      assert a[i..u][from + k] == a[i + from + k];
    }
  }

  lemma SubCommon(a: Lines, b: Lines, i: int, u: int, j: int, v: int, skip: nat, drop: nat)
    requires Common(a, b, i, u, j, v) && skip + drop <= u - i
    ensures Common(a, b, i + skip, u - drop, j + skip, v - drop)
  {
    assert |a[i..u]| == |b[j..v]|;
    Narrow(a, i, u, skip, u - i - drop);
    Narrow(b, j, v, skip, v - j - drop);
  }

  /** A single hunk after a common gap, up to its own end. */
  lemma LastHunk(a: Lines, b: Lines, i: nat, j: nat, last: LineChange)
    requires Common(a, b, i, last.startA, j, last.startB)
    requires last.startA <= last.endA <= |a| && last.startB <= last.endB <= |b|
    ensures Edits(a[i..last.endA], b[j..last.endB], [last], i, j)
  {
    var p, q := a[i..last.endA], b[j..last.endB];
    assert p[..last.startA - i] == a[i..last.startA] && q[..last.startB - j] == b[j..last.startB];
    assert p[last.endA - i..] == [] && q[last.endB - j..] == [];
    assert Edits(p[last.endA - i..], q[last.endB - j..], [], last.endA, last.endB);
    EditsCons(p, q, last, [], i, j);
  }

  /** The last hunk may be closed wherever it ends. */
  lemma CloseLast(a: Lines, b: Lines, hunks: seq<LineChange>, c: LineChange)
    requires Building(a, b, hunks, c)
    ensures var last := hunks[|hunks| - 1];
      && last.endA <= |a| && last.endB <= |b| && Edits(a[..last.endA], b[..last.endB], hunks, 0, 0)
  {
    var last, from := hunks[|hunks| - 1], Settled(hunks);
    assert hunks[..|hunks| - 1] + [last] == hunks;
    hide Edits;
    JoinLast(a, b, hunks[..|hunks| - 1], last, from.0, from.1);
  }

  lemma JoinLast(a: Lines, b: Lines, closed: seq<LineChange>, last: LineChange, i: nat, j: nat)
    requires i <= |a| && j <= |b| && Edits(a[..i], b[..j], closed, 0, 0)
    requires Common(a, b, i, last.startA, j, last.startB)
    requires last.startA <= last.endA <= |a| && last.startB <= last.endB <= |b|
    ensures Edits(a[..last.endA], b[..last.endB], closed + [last], 0, 0)
  {
    assert i <= last.startA && j <= last.startB;
    hide *;
    LastHunk(a, b, i, j, last);
    EditsConcat(a[..i], b[..j], closed, a[i..last.endA], b[j..last.endB], [last], 0, 0);
    GlueUpTo(a, i, last.endA);
    GlueUpTo(b, j, last.endB);
  }

  lemma GlueUpTo(a: Lines, i: nat, u: nat)
    requires i <= u <= |a|
    ensures a[..i] + a[i..u] == a[..u]
  {}

  lemma FirstHunk(a: Lines, b: Lines, c: LineChange)
    requires c.startA <= c.endA <= |a| && c.startB <= c.endB <= |b| && Common(a, b, 0, c.startA, 0, c.startB)
    ensures Building(a, b, [Widen(a, b, c)], c)
  {
    SubCommon(a, b, 0, c.startA, 0, c.startB, 0, Min(CONTEXT, c.startA));
  }

  predicate Touches(last: LineChange, next: LineChange) {
    next.startA <= last.endA && next.startB <= last.endB
  }

  function Extend(last: LineChange, next: LineChange): LineChange {
    last.(endA := Max(last.endA, next.endA), endB := Max(last.endB, next.endB))
  }

  lemma MergeHunk(a: Lines, b: Lines, hunks: seq<LineChange>, c: LineChange, d: LineChange)
    requires Building(a, b, hunks, c) && c.endA <= d.startA <= d.endA <= |a| && c.endB <= d.startB <= d.endB <= |b|
    ensures Building(a, b, hunks[|hunks| - 1 := Extend(hunks[|hunks| - 1], Widen(a, b, d))], d)
  {
    hide Edits;
    var next := hunks[|hunks| - 1 := Extend(hunks[|hunks| - 1], Widen(a, b, d))];
    assert next[..|next| - 1] == hunks[..|hunks| - 1];
  }

  /** Contexts that do not touch leave more than six common lines between the changes. */
  lemma AppendHunk(a: Lines, b: Lines, hunks: seq<LineChange>, c: LineChange, d: LineChange)
    requires Building(a, b, hunks, c) && d.startA <= d.endA <= |a| && d.startB <= d.endB <= |b|
    requires Common(a, b, c.endA, d.startA, c.endB, d.startB)
    requires !Touches(hunks[|hunks| - 1], Widen(a, b, d))
    ensures Building(a, b, hunks + [Widen(a, b, d)], d)
    ensures hunks[|hunks| - 1].endA < Widen(a, b, d).startA && hunks[|hunks| - 1].endB < Widen(a, b, d).startB
  {
    hide Edits;
    var next := hunks + [Widen(a, b, d)];
    assert |a[c.endA..d.startA]| == |b[c.endB..d.startB]|;
    SubCommon(a, b, c.endA, d.startA, c.endB, d.startB, CONTEXT, CONTEXT);
    CloseLast(a, b, hunks, c);
    assert next[..|next| - 1] == hunks;
  }

  lemma CoverMerged(hunks: seq<LineChange>, changes: seq<LineChange>, last: LineChange, d: LineChange)
    requires hunks != [] && Covered(hunks, changes)
    requires Contains(last, hunks[|hunks| - 1]) && Contains(last, d)
    ensures Covered(hunks[|hunks| - 1 := last], changes + [d])
  {
    var next := hunks[|hunks| - 1 := last];
    assert next[|next| - 1] == last;
    forall i | 0 <= i < |changes| ensures Inside(next, changes[i]) {
      assert Inside(hunks, changes[i]);
      var h :| 0 <= h < |hunks| && Contains(hunks[h], changes[i]);
      assert Contains(next[h], changes[i]);
    }
  }

  lemma CoverAppended(hunks: seq<LineChange>, changes: seq<LineChange>, next: LineChange, d: LineChange)
    requires Covered(hunks, changes) && Contains(next, d)
    ensures Covered(hunks + [next], changes + [d])
  {
    var after := hunks + [next];
    assert after[|hunks|] == next;
    forall i | 0 <= i < |changes| ensures Inside(after, changes[i]) {
      assert Inside(hunks, changes[i]);
      var h :| 0 <= h < |hunks| && Contains(hunks[h], changes[i]);
      assert after[h] == hunks[h];
    }
  }

  /** Where the changes before position k leave the two files. */
  function EndOf(changes: seq<LineChange>, k: nat): (nat, nat)
    requires k <= |changes|
  {
    if k == 0 then (0, 0) else (changes[k - 1].endA, changes[k - 1].endB)
  }

  ghost predicate Remaining(a: Lines, b: Lines, changes: seq<LineChange>, k: nat)
    requires k <= |changes|
  {
    var at := EndOf(changes, k);
    at.0 <= |a| && at.1 <= |b| && Edits(a[at.0..], b[at.1..], changes[k..], at.0, at.1)
  }

  lemma NextChange(a: Lines, b: Lines, changes: seq<LineChange>, k: nat)
    requires k < |changes| && Remaining(a, b, changes, k)
    ensures var at, d := EndOf(changes, k), changes[k];
      && Common(a, b, at.0, d.startA, at.1, d.startB) && d.startA <= d.endA <= |a| && d.startB <= d.endB <= |b|
    ensures Remaining(a, b, changes, k + 1)
  {
    var at, d := EndOf(changes, k), changes[k];
    EditsHead(a[at.0..], b[at.1..], changes[k..], at.0, at.1);
    hide Edits;
    assert changes[k..][0] == d && changes[k..][1..] == changes[k + 1..];
    assert a[at.0..][d.endA - at.0..] == a[d.endA..] && b[at.1..][d.endB - at.1..] == b[d.endB..];
    assert a[at.0..][..d.startA - at.0] == a[at.0..d.startA] && b[at.1..][..d.startB - at.1] == b[at.1..d.startB];
  }

  lemma FinishHunks(a: Lines, b: Lines, hunks: seq<LineChange>, c: LineChange)
    requires Building(a, b, hunks, c) && a[c.endA..] == b[c.endB..]
    ensures Edits(a, b, hunks, 0, 0)
  {
    var last := hunks[|hunks| - 1];
    CloseLast(a, b, hunks, c);
    assert |a[c.endA..]| == |b[c.endB..]|;
    assert a[last.endA..] == a[c.endA..][last.endA - c.endA..];
    assert b[last.endB..] == b[c.endB..][last.endB - c.endB..];
    assert Edits(a[last.endA..], b[last.endB..], [], last.endA, last.endB);
    hide Edits;
    EditsConcat(a[..last.endA], b[..last.endB], hunks, a[last.endA..], b[last.endB..], [], 0, 0);
    Glue(a, last.endA);
    Glue(b, last.endB);
    assert hunks + [] == hunks;
  }

  ghost function WidenAll(a: Lines, b: Lines, changes: seq<LineChange>): (wide: seq<LineChange>)
    ensures |wide| == |changes|
  {
    seq(|changes|, i requires 0 <= i < |changes| => Widen(a, b, changes[i]))
  }

  /** The hunks after k changes: contexts merged, nothing touching, every context inside. */
  ghost predicate Merged(a: Lines, b: Lines, changes: seq<LineChange>, k: nat, hunks: seq<LineChange>)
    requires k <= |changes|
  {
    && Separated(hunks) && Covered(hunks, WidenAll(a, b, changes[..k])) && |hunks| <= k
    && AllClose(hunks, WidenAll(a, b, changes[..k]))
    && if k == 0 then hunks == [] else Building(a, b, hunks, changes[k - 1])
  }

  lemma WidenNext(a: Lines, b: Lines, changes: seq<LineChange>, k: nat)
    requires k < |changes|
    ensures WidenAll(a, b, changes[..k + 1]) == WidenAll(a, b, changes[..k]) + [Widen(a, b, changes[k])]
  {}

  lemma MergedByExtension(a: Lines, b: Lines, changes: seq<LineChange>, k: nat, hunks: seq<LineChange>)
    requires 0 < k < |changes| && Remaining(a, b, changes, k) && Merged(a, b, changes, k, hunks)
    requires hunks != [] && Touches(hunks[|hunks| - 1], Widen(a, b, changes[k]))
    ensures var last := Extend(hunks[|hunks| - 1], Widen(a, b, changes[k]));
      Merged(a, b, changes, k + 1, hunks[|hunks| - 1 := last])
  {
    hide Edits, Covered, WidenAll, AllClose;
    NextChange(a, b, changes, k);
    var change := Widen(a, b, changes[k]);
    var last := Extend(hunks[|hunks| - 1], change);
    BuildingStart(a, b, hunks, changes[k - 1], changes[k]);
    MergeHunk(a, b, hunks, changes[k - 1], changes[k]);
    CoverMerged(hunks, WidenAll(a, b, changes[..k]), last, change);
    AllCloseMerged(hunks, WidenAll(a, b, changes[..k]), change);
    WidenNext(a, b, changes, k);
  }

  lemma MergedByAppending(a: Lines, b: Lines, changes: seq<LineChange>, k: nat, hunks: seq<LineChange>)
    requires k < |changes| && Remaining(a, b, changes, k) && Merged(a, b, changes, k, hunks)
    requires hunks != [] ==> !Touches(hunks[|hunks| - 1], Widen(a, b, changes[k]))
    ensures Merged(a, b, changes, k + 1, hunks + [Widen(a, b, changes[k])])
  {
    hide Edits, Covered, WidenAll, AllClose;
    NextChange(a, b, changes, k);
    var change := Widen(a, b, changes[k]);
    if k > 0 {
      AppendHunk(a, b, hunks, changes[k - 1], changes[k]);
    } else {
      FirstHunk(a, b, changes[k]);
    }
    CoverAppended(hunks, WidenAll(a, b, changes[..k]), change, change);
    AllCloseAppended(hunks, WidenAll(a, b, changes[..k]), change);
    WidenNext(a, b, changes, k);
  }

  /**
    The merged hunks still turn a into b, hold every change with its context and no line
    further away, and never touch each other.
   */
  method MergeContexts(a: Lines, b: Lines, changes: seq<LineChange>) returns (hunks: seq<LineChange>)
    requires Edits(a, b, changes, 0, 0)
    ensures Edits(a, b, hunks, 0, 0)
    ensures Separated(hunks)
    ensures Covered(hunks, WidenAll(a, b, changes)) && AllClose(hunks, WidenAll(a, b, changes))
    ensures |hunks| <= |changes|
  {
    hunks := [];
    MergedNone(a, b, changes);
    hide *;
    for k := 0 to |changes|
      invariant Remaining(a, b, changes, k) && Merged(a, b, changes, k, hunks)
    {
      var change := Widen(a, b, changes[k]);
      if |hunks| > 0 && Touches(hunks[|hunks| - 1], change) {
        MergedStarted(a, b, changes, k, hunks);
        MergedByExtension(a, b, changes, k, hunks);
        hunks := hunks[|hunks| - 1 := Extend(hunks[|hunks| - 1], change)];
      } else {
        MergedByAppending(a, b, changes, k, hunks);
        hunks := hunks + [change];
      }
      NextChange(a, b, changes, k);
    }
    MergedDone(a, b, changes, hunks);
  }

  lemma MergedNone(a: Lines, b: Lines, changes: seq<LineChange>)
    requires Edits(a, b, changes, 0, 0)
    ensures Remaining(a, b, changes, 0) && Merged(a, b, changes, 0, [])
  {
    assert a[0..] == a && b[0..] == b && changes[0..] == changes && changes[..0] == [];
    NothingToCover(a, b);
    hide Edits, Covered, AllClose, WidenAll;
  }

  lemma MergedStarted(a: Lines, b: Lines, changes: seq<LineChange>, k: nat, hunks: seq<LineChange>)
    requires k <= |changes| && Merged(a, b, changes, k, hunks) && hunks != []
    ensures k > 0
  {}

  lemma MergedDone(a: Lines, b: Lines, changes: seq<LineChange>, hunks: seq<LineChange>)
    requires Remaining(a, b, changes, |changes|) && Merged(a, b, changes, |changes|, hunks)
    ensures Edits(a, b, hunks, 0, 0) && Separated(hunks) && |hunks| <= |changes|
    ensures Covered(hunks, WidenAll(a, b, changes)) && AllClose(hunks, WidenAll(a, b, changes))
  {
    assert changes[..|changes|] == changes;
    LastRemaining(a, b, changes);
    hide Edits, Covered, AllClose, WidenAll, Building;
    if changes != [] {
      FinishHunks(a, b, hunks, changes[|changes| - 1]);
    }
  }

  lemma NothingToCover(a: Lines, b: Lines)
    ensures Covered([], WidenAll(a, b, [])) && AllClose([], WidenAll(a, b, []))
  {}

  /** A merged change starts no earlier than the hunk it joins. */
  lemma BuildingStart(a: Lines, b: Lines, hunks: seq<LineChange>, c: LineChange, d: LineChange)
    requires Building(a, b, hunks, c)
    requires Common(a, b, c.endA, d.startA, c.endB, d.startB) && d.startA <= d.endA <= |a| && d.startB <= d.endB <= |b|
    ensures var last := Extend(hunks[|hunks| - 1], Widen(a, b, d));
      Contains(last, hunks[|hunks| - 1]) && Contains(last, Widen(a, b, d))
  {}

  lemma LastRemaining(a: Lines, b: Lines, changes: seq<LineChange>)
    requires Remaining(a, b, changes, |changes|)
    ensures var at := EndOf(changes, |changes|); a[at.0..] == b[at.1..]
    ensures changes == [] ==> Edits(a, b, [], 0, 0)
  {}
}
