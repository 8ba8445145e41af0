/**
  Context compaction (internal/app/compaction/service.go): pruning of oversized tool
  results, the prefix a summary replaces, and Maybe as one transaction on the log.
  Token estimates and thresholds are given: any weight of a node, any integer limits.
 */
module Compaction {
  import opened Records
  import opened Surfaces
  import opened NodeFacts
  import opened Live
  import Order

  /** An error, and whether it wraps a context cancellation. */
  datatype Failure = NoError | Failed | ContextCanceled

  datatype Request = Request(turn: nat, force: bool, manual: bool)

  datatype Limits = Limits(windowKnown: bool, threshold: int, retain: int, retries: nat)

  /** What a party left, and only messages that others added after it. */
  predicate Grown(turns: bool, x: seq<Node>, y: seq<Node>) { x <= y && (!turns ==> y == x) }

  lemma AsideOn(v: View, w: View, x: View)
    requires Aside(v, w) && Aside(w, x)
    ensures Aside(v, x)
  {}

  method AnyFailure() returns (failure: Failure)
    ensures failure != NoError
  {
    if * {
      return Failed;
    }
    return ContextCanceled;
  }

  // ----- estimates and the prefix to summarize -----

  function Total(weight: Node -> nat, nodes: seq<Node>): nat {
    if nodes == [] then 0 else weight(nodes[0]) + Total(weight, nodes[1..])
  }

  /** The latest position from which the transcript still weighs what must be retained. */
  ghost predicate IsBoundary(weight: Node -> nat, nodes: seq<Node>, retain: int, b: nat) {
    && b <= |nodes| && (b > 0 ==> Total(weight, nodes[b..]) >= retain)
    && forall c :: b < c <= |nodes| ==> Total(weight, nodes[c..]) < retain
  }

  /** A cut between a call and the result right after it. */
  predicate SplitsPair(nodes: seq<Node>, k: nat) {
    0 < k < |nodes| && nodes[k].ResultNode? && nodes[k - 1].CallNode? && nodes[k - 1].call.id == nodes[k].result.callId
  }

  /** k leading nodes are the prefix to summarize; 0 means there is none. */
  ghost predicate Selects(weight: Node -> nat, nodes: seq<Node>, retain: int, force: bool, k: nat) {
    if |nodes| < 3 then k == 0
    else exists b :: IsBoundary(weight, nodes, retain, b) && k == Aligned(nodes, if force && b == 0 then |nodes| / 2 else b)
  }

  function Aligned(nodes: seq<Node>, cut: nat): nat { if SplitsPair(nodes, cut) then cut - 1 else cut }

  /**
    selectPrefix: how many leading nodes to summarize. The cut is the boundary, or half
    of the transcript when compaction is forced and the boundary is its start, moved
    back by one where it would part a call from the result next to it.
   */
  method SelectPrefix(weight: Node -> nat, nodes: seq<Node>, retain: int, force: bool) returns (k: nat)
    ensures k <= |nodes| && Selects(weight, nodes, retain, force, k)
    ensures !SplitsPair(nodes, k)
    ensures !force && k > 0 ==> Total(weight, nodes[k..]) >= retain
  {
    if |nodes| < 3 {
      return 0;
    }
    var boundary := FindBoundary(weight, nodes, retain);
    ghost var b: nat := boundary;
    hide Total, IsBoundary;
    assert b <= |nodes| by { BoundaryInside(weight, nodes, retain, b); }
    if b > 0 { BoundaryRetains(weight, nodes, retain, b); }
    if force && boundary == 0 {
      boundary := |nodes| / 2;
    }
    if SplitsPair(nodes, boundary) {
      boundary := boundary - 1;
      TotalFrom(weight, nodes, boundary);
    }
    k := boundary;
  }

  lemma BoundaryInside(weight: Node -> nat, nodes: seq<Node>, retain: int, b: nat)
    requires IsBoundary(weight, nodes, retain, b)
    ensures b <= |nodes|
  {}

  lemma BoundaryRetains(weight: Node -> nat, nodes: seq<Node>, retain: int, b: nat)
    requires IsBoundary(weight, nodes, retain, b) && b > 0
    ensures b <= |nodes| && Total(weight, nodes[b..]) >= retain
  {}

  /** The loop that moves the boundary back from the end. */
  method FindBoundary(weight: Node -> nat, nodes: seq<Node>, retain: int) returns (boundary: nat)
    ensures IsBoundary(weight, nodes, retain, boundary)
  {
    var retained := 0;
    boundary := |nodes|;
    assert nodes[boundary..] == [];
    assert retained == Total(weight, nodes[boundary..]);
    hide Total;
    while boundary > 0 && retained < retain
      invariant boundary <= |nodes| && retained == Total(weight, nodes[boundary..])
      invariant forall c :: boundary < c <= |nodes| ==> Total(weight, nodes[c..]) < retain
    {
      TotalFrom(weight, nodes, boundary - 1);
      boundary := boundary - 1;
      retained := retained + weight(nodes[boundary]);
    }
  }

  lemma TotalFrom(weight: Node -> nat, nodes: seq<Node>, k: nat)
    requires k < |nodes|
    ensures Total(weight, nodes[k..]) == weight(nodes[k]) + Total(weight, nodes[k + 1..])
  {
    assert nodes[k..][1..] == nodes[k + 1..];
  }

  // ----- pruning -----

  /** The first i nodes pruned, the others as they were. */
  function PrunedTo(nodes: seq<Node>, i: nat): (pruned: seq<Node>)
    requires i <= |nodes|
    ensures |pruned| == |nodes|
  {
    PruneAll(nodes[..i]) + nodes[i..]
  }

  lemma PrunedToNext(nodes: seq<Node>, i: nat)
    requires i < |nodes|
    ensures PrunedTo(nodes, i)[i] == nodes[i]
    ensures PrunedTo(nodes, i + 1) == PrunedTo(nodes, i)[i := PruneNode(nodes[i])]
    ensures !Prunable(nodes[i]) ==> PrunedTo(nodes, i + 1) == PrunedTo(nodes, i)
  {}

  lemma PrunedToDistinct(nodes: seq<Node>, i: nat)
    requires Distinct(nodes) && i <= |nodes|
    ensures Distinct(PrunedTo(nodes, i))
  {
    assert forall j :: 0 <= j < |nodes| ==> PrunedTo(nodes, i)[j].seqNo == nodes[j].seqNo;
  }

  ghost predicate PruneAllowed(v: View, turn: nat) {
    turn == v.at.turn && v.at.step == 0 && v.at.compaction == ""
  }

  lemma PruneCertain(v: View, turn: nat, i: nat)
    requires i < |v.nodes| && Prunable(v.nodes[i]) && Distinct(v.nodes) && v.nodes[i].seqNo > 0
    ensures var record := CompactionPrune(turn, v.nodes[i].seqNo, Prune(v.nodes[i].result.output).value);
      && (PruneAllowed(v, turn) ==> Certain(v, record))
      && forall seqNo :: After(v, record, seqNo) == v.(nodes := v.nodes[i := PruneNode(v.nodes[i])])
  {
    PruneReplaces(v.nodes, i);
  }

  /**
    prune: one record for every visible result over the budget. A finished pass leaves
    nothing to prune, and unless others compacted meanwhile the surface the caller keeps in
    memory is the one the log folds to.
   */
  method PruneSurface(s: Session, turn: nat, before: seq<Node>) returns (surface: seq<Node>, pruned: bool, err: Failure, canceled: bool)
    requires s.Valid() && before == s.View().nodes && !s.turns && s.View().at.compaction != s.mine
    modifies s`touched, s.log
    ensures s.Valid() && old(s.log.records) <= s.log.records && s.touched >= old(s.touched)
    ensures Aside(old(s.View()), s.View()) && s.View().at.compaction != s.mine
    ensures |surface| == |before| && (pruned <==> surface != before)
    ensures err == NoError ==> surface == PruneAll(before)
    ensures s.touched == old(s.touched) ==>
      && s.View() == old(s.View()).(nodes := surface)
      && (err == NoError || canceled || !PruneAllowed(old(s.View()), turn))
  {
    surface, pruned, err, canceled := before, false, NoError, false;
    ghost var v := s.View();
    assert Distinct(before) && Within(before, |s.log.records|) by { NodesAreEvents(s.log.records); }
    assert PrunedTo(before, 0) == before;
    hide Order.Valid, Order.Fold, ViewOf, After, Certain, Possible, Live.Session.Valid, Live.Session.View, PrunedTo, Distinct;
    hide Prunable, PruneNode, Prune, PruneAllowed, Aside;
    AsideSelf(v);
    for i := 0 to |before|
      invariant s.Valid() && old(s.log.records) <= s.log.records && s.touched >= old(s.touched)
      invariant Aside(v, s.View()) && s.View().at.compaction != s.mine
      invariant s.touched == old(s.touched) ==> s.View() == v.(nodes := surface)
      invariant surface == PrunedTo(before, i) && (pruned <==> surface != before)
    {
      PrunedToNext(before, i);
      if !Prunable(before[i]) {
        continue;
      }
      PrunedToDistinct(before, i);
      var ok;
      ghost var w := s.View();
      ok, canceled := PruneOne(s, turn, surface, i);
      AsideOn(v, w, s.View());
      if !ok {
        err := AnyFailure();
        SameAllowed(v, surface, turn);
        return;
      }
      PrunedDiffers(before[i]);
      surface := surface[i := PruneNode(before[i])];
      assert surface[i] != before[i];
      pruned := true;
    }
    PrunedToEnd(before);
  }

  lemma AsideSelf(v: View)
    ensures Aside(v, v)
  {}

  lemma SameAllowed(v: View, surface: seq<Node>, turn: nat)
    ensures PruneAllowed(v.(nodes := surface), turn) <==> PruneAllowed(v, turn)
  {}

  /** The record for one visible result. */
  method PruneOne(s: Session, turn: nat, surface: seq<Node>, i: nat) returns (ok: bool, canceled: bool)
    requires s.Valid() && !s.turns && s.View().at.compaction != s.mine
    requires Distinct(surface) && i < |surface| && Prunable(surface[i]) && surface[i].seqNo > 0
    modifies s`touched, s.log
    ensures s.Valid() && old(s.log.records) <= s.log.records && s.touched >= old(s.touched)
    ensures Aside(old(s.View()), s.View()) && s.View().at.compaction != s.mine
    ensures s.touched == old(s.touched) && surface == old(s.View()).nodes ==>
      && s.View() == (if ok then old(s.View()).(nodes := surface[i := PruneNode(surface[i])]) else old(s.View()))
      && (ok || canceled || !PruneAllowed(old(s.View()), turn))
  {
    hide Order.Valid, Order.Fold, ViewOf, After, Certain, Possible, Live.Session.Valid, Live.Session.View, PruneAllowed, Distinct, Aside;
    ghost var v := s.View();
    if surface == v.nodes {
      PruneCertain(v, turn, i);
    }
    var output := Prune(surface[i].result.output).value;
    hide Prunable, PruneNode, Prune;
    ghost var met;
    ok, canceled, met := Try(s, CompactionPrune(turn, surface[i].seqNo, output));
    BesideAside(s.mine, v, ViewOf(met));
    PruneAside(ViewOf(met), turn, surface[i].seqNo, output, |met| + 1);
    AsideOn(v, ViewOf(met), s.View());
  }

  lemma BesideAside(mine: string, v: View, w: View)
    requires Beside(mine, false, v, w)
    ensures Aside(v, w) && (v.at.compaction == mine <==> w.at.compaction == mine)
    ensures Calm(false, v, w) ==> w == v
  {}

  lemma PruneAside(v: View, turn: nat, target: nat, output: string, seqNo: nat)
    ensures var w := After(v, CompactionPrune(turn, target, output), seqNo);
      Aside(v, v) && Aside(v, w) && w.at.compaction == v.at.compaction
  {}

  lemma PrunedDiffers(node: Node)
    requires Prunable(node)
    ensures PruneNode(node) != node
  {
    PrunedIsSmall(node);
  }

  lemma PrunedToEnd(nodes: seq<Node>)
    ensures PrunedTo(nodes, |nodes|) == PruneAll(nodes)
  {
    assert nodes[..|nodes|] == nodes;
  }

  /** An append under a context that may be cancelled at any moment. */
  method Try(s: Session, record: Record) returns (ok: bool, canceled: bool, ghost met: seq<Record>)
    requires s.Valid()
    modifies s`touched, s.log
    ensures s.Valid() && old(s.log.records) <= met && Order.Valid(met) && s.touched >= old(s.touched)
    ensures s.log.records == if ok then met + [record] else met
    ensures Beside(s.mine, s.turns, old(s.View()), ViewOf(met))
    ensures s.touched == old(s.touched) ==> Calm(s.turns, old(s.View()), ViewOf(met))
    ensures s.View() == if ok then After(ViewOf(met), record, |met| + 1) else ViewOf(met)
    ensures ok ==> Possible(ViewOf(met), record)
    ensures ok || canceled || !Certain(ViewOf(met), record)
  {
    ViewIs(s);
    BesideSelf(s.mine, s.turns, s.View());
    hide *;
    canceled := *;
    if canceled {
      return false, true, s.log.records;
    }
    ok, met := s.Append(record);
  }

  lemma ViewIs(s: Session)
    requires s.Valid()
    ensures Order.Valid(s.log.records) && s.View() == ViewOf(s.log.records)
  {}

  // ----- Maybe -----

  /** One newer summary in place of the first k nodes, the rest untouched. */
  ghost predicate Summarized(turns: bool, base: seq<Node>, k: nat, after: seq<Node>) {
    exists seqNo, text :: 0 < k <= |base| && Newer(base, seqNo) && Grown(turns, [SummaryNode(seqNo, text)] + base[k..], after)
  }

  ghost predicate Newer(base: seq<Node>, seqNo: nat) {
    forall i :: 0 <= i < |base| ==> base[i].seqNo < seqNo
  }

  lemma SummaryDiffers(turns: bool, before: seq<Node>, base: seq<Node>, k: nat, after: seq<Node>)
    requires Summarized(turns, base, k, after) && |before| == |base|
    requires forall i :: 0 <= i < |before| ==> before[i].seqNo == base[i].seqNo
    ensures !(before <= after)
  {
    var seqNo, text :| 0 < k <= |base| && Newer(base, seqNo) && Grown(turns, [SummaryNode(seqNo, text)] + base[k..], after);
    assert after[0] == ([SummaryNode(seqNo, text)] + base[k..])[0];
    assert after[0].seqNo == seqNo && before[0].seqNo < seqNo;
  }

  /** Forced, or under pressure of the request's window. */
  predicate Needed(request: Request, limits: Limits, weight: Node -> nat, nodes: seq<Node>) {
    request.force || (limits.windowKnown && Total(weight, nodes) >= limits.threshold)
  }

  function Base(manual: bool, before: seq<Node>): seq<Node> { if manual then before else PruneAll(before) }

  /**
    The transcript after a successful request: untouched when nothing is needed, pruned when
    that relieves the pressure, and otherwise with the selected prefix, if any, summarized;
    beside a turn, followed by what the turn added meanwhile.
   */
  ghost predicate Reduced(request: Request, limits: Limits, weight: Node -> nat, before: seq<Node>, after: seq<Node>) {
    var turns, base := request.manual, Base(request.manual, before);
    if !Needed(request, limits, weight, before) then Grown(turns, before, after)
    else if base != before && !request.force && Total(weight, base) < limits.threshold then Grown(turns, base, after)
    else exists k :: Selects(weight, base, limits.retain, request.force, k) &&
                     if k == 0 then Grown(turns, base, after) else Summarized(turns, base, k, after)
  }

  lemma StartView(v: View, turn: nat, id: string, seqNo: nat)
    requires Possible(v, CompactionStart(turn, id))
    ensures var w := After(v, CompactionStart(turn, id), seqNo);
      v.at.compaction == "" && w == v.(at := v.at.(compaction := id))
  {}

  lemma EndView(v: View, turn: nat, id: string, failure: string, seqNo: nat)
    requires id != "" && v.at.compaction == id
    ensures Certain(v, CompactionEnd(turn, id, failure))
    ensures After(v, CompactionEnd(turn, id, failure), seqNo) == v.(at := v.at.(compaction := ""))
  {}

  lemma NonZero(nodes: seq<Node>, count: nat, sequences: seq<nat>)
    requires Within(nodes, count) && multiset(sequences) == multiset(SeqNos(nodes))
    ensures 0 !in sequences && |sequences| == |nodes|
  {
    assert |multiset(sequences)| == |sequences| && |multiset(SeqNos(nodes))| == |nodes|;
    assert 0 in sequences <==> 0 in multiset(sequences);
    assert 0 in SeqNos(nodes) <==> 0 in multiset(SeqNos(nodes));
  }

  /** The summary of a prefix is accepted and replaces exactly that prefix. */
  lemma SummaryView(v: View, turn: nat, id: string, k: nat, text: string, seqNo: nat, count: nat)
    requires id != "" && v.at.compaction == id && text != "" && 0 < k <= |v.nodes|
    requires Distinct(v.nodes) && Within(v.nodes, count)
    ensures var record := CompactionSummary(turn, id, Sort(SeqNos(v.nodes[..k])), text);
      && Certain(v, record)
      && After(v, record, seqNo) == v.(nodes := [SummaryNode(seqNo, text)] + v.nodes[k..])
  {
    var sequences := Sort(SeqNos(v.nodes[..k]));
    NonZero(v.nodes[..k], count, sequences);
    Shadows(v.nodes, k, sequences);
    assert v.nodes[0].seqNo in sequences;
    hide Distinct, Within, Sort, SeqNos, ReplaceWithSummary;
    SummaryOfPrefix(v.nodes, k, sequences, SummaryNode(seqNo, text));
    SummaryAfter(v, turn, id, sequences, text, seqNo);
  }

  lemma SummaryAfter(v: View, turn: nat, id: string, sequences: seq<nat>, text: string, seqNo: nat)
    requires ReplaceWithSummary(v.nodes, sequences, SummaryNode(seqNo, text)).Some?
    ensures After(v, CompactionSummary(turn, id, sequences, text), seqNo)
         == v.(nodes := ReplaceWithSummary(v.nodes, sequences, SummaryNode(seqNo, text)).value)
  {
    hide ReplaceWithSummary;
  }

  /**
    A request, manual or of a turn, with others writing beside it. It leaves its own
    transaction open only when the provider panics; and unless others compacted or pruned
    meanwhile it reports truly whether it changed the transcript, and on success reduced it.
   */
  method Maybe(s: Session, request: Request, limits: Limits, weight: Node -> nat)
    returns (changed: bool, err: Failure, panicked: bool)
    requires s.Valid() && s.View().at.compaction != s.mine && (request.manual <==> s.turns)
    modifies s`touched, s.log
    ensures s.Valid() && old(s.log.records) <= s.log.records && s.touched >= old(s.touched)
    ensures panicked <==> s.View().at.compaction == s.mine
    ensures !s.turns ==> Aside(old(s.View()), s.View())
    ensures s.touched == old(s.touched) && !panicked ==>
      && s.View().at.compaction == old(s.View()).at.compaction
      && (changed <==> !(old(s.View()).nodes <= s.View().nodes))
      && (!changed ==> Grown(s.turns, old(s.View()).nodes, s.View().nodes))
      && (err == NoError ==> Reduced(request, limits, weight, old(s.View()).nodes, s.View().nodes))
    ensures s.steady && !request.force && !limits.windowKnown ==>
      !changed && err == NoError && !panicked && s.log.records == old(s.log.records) && s.touched == old(s.touched)
  {
    changed, err, panicked := false, NoError, false;
    ghost var v := s.View();
    AsideSelf(v);
    GrownSelf(s.turns, v.nodes);
    var fails: bool := *;
    if fails && !s.steady {
      err := AnyFailure();
      return;
    }
    var surface := Surfaces.Surface(s.log.records).value;
    assert surface == v.nodes;
    hide Order.Valid, Order.Fold, ViewOf, After, Certain, Possible, Live.Session.Valid, Live.Session.View, Aside;
    hide Summarized, PruneAll, Selects, Total, Reduced, Grown, Base;
    if !request.force && (!limits.windowKnown || Total(weight, surface) < limits.threshold) {
      Untouched(request, limits, weight, surface);
      return;
    }
    if !request.manual {
      var canceled;
      surface, changed, err, canceled := PruneSurface(s, request.turn, surface);
      PrefixMeansSame(v.nodes, surface);
      if err != NoError {
        GrownSelf(false, surface);
        return;
      }
      if changed && !request.force && Total(weight, surface) < limits.threshold {
        Relieved(request, limits, weight, v.nodes);
        return;
      }
    }
    assert surface == Base(request.manual, v.nodes) by { BaseIs(request.manual, v.nodes); }
    changed, err, panicked := Replace(s, request, limits, weight, v, surface, changed);
  }

  /** The rest of a request on its surface in memory: a prefix is chosen and summarized. */
  method Replace(s: Session, request: Request, limits: Limits, weight: Node -> nat, ghost v: View, surface: seq<Node>, pruned: bool)
    returns (changed: bool, err: Failure, panicked: bool)
    requires s.Valid() && s.View().at.compaction != s.mine && (request.manual <==> s.turns)
    requires !s.turns ==> Aside(v, s.View())
    requires surface == Base(request.manual, v.nodes) && (pruned <==> surface != v.nodes)
    requires Needed(request, limits, weight, v.nodes)
    requires !(surface != v.nodes && !request.force && Total(weight, surface) < limits.threshold)
    modifies s`touched, s.log
    ensures s.Valid() && old(s.log.records) <= s.log.records && s.touched >= old(s.touched)
    ensures panicked <==> s.View().at.compaction == s.mine
    ensures !s.turns ==> Aside(v, s.View())
    ensures s.touched == old(s.touched) && old(s.View()) == v.(nodes := surface) && !panicked ==>
      && s.View().at.compaction == v.at.compaction
      && (changed <==> !(v.nodes <= s.View().nodes))
      && (!changed ==> Grown(s.turns, v.nodes, s.View().nodes))
      && (err == NoError ==> Reduced(request, limits, weight, v.nodes, s.View().nodes))
  {
    changed, err, panicked := pruned, NoError, false;
    BaseIs(request.manual, v.nodes);
    BaseNumbers(request.manual, v.nodes);
    hide Order.Valid, Order.Fold, ViewOf, After, Certain, Possible, Live.Session.Valid, Live.Session.View, Aside;
    hide Summarized, PruneAll, Selects, Total, Reduced, Base, Needed;
    var k := SelectPrefix(weight, surface, limits.retain, request.force);
    if k == 0 {
      PrefixMeansSame(v.nodes, surface);
      GrownSelf(s.turns, surface);
      Selected(request, limits, weight, v.nodes, surface, 0, surface);
      return;
    }
    ghost var w := s.View();
    var summarized;
    summarized, err, panicked := Summarize(s, request.turn, limits, surface, k);
    if !s.turns {
      AsideOn(v, w, s.View());
    }
    if !panicked && s.touched == old(s.touched) && w == v.(nodes := surface) {
      if summarized {
        SummaryDiffers(s.turns, v.nodes, surface, k, s.View().nodes);
        Selected(request, limits, weight, v.nodes, surface, k, s.View().nodes);
      } else {
        GrownDiffers(s.turns, v.nodes, surface, s.View().nodes);
      }
    }
    changed := pruned || summarized;
  }

  lemma GrownSelf(turns: bool, nodes: seq<Node>)
    ensures Grown(turns, nodes, nodes)
  {}

  /** A surface pruned in place is a continuation of the old one only when nothing was pruned. */
  lemma PrefixMeansSame(x: seq<Node>, y: seq<Node>)
    requires |x| == |y|
    ensures x <= y <==> x == y
  {}

  lemma GrownDiffers(turns: bool, before: seq<Node>, base: seq<Node>, after: seq<Node>)
    requires |before| == |base| && Grown(turns, base, after)
    ensures before <= after <==> before == base
    ensures before == base ==> Grown(turns, before, after)
  {
    assert base == after[..|base|];
  }

  lemma BaseIs(manual: bool, before: seq<Node>)
    ensures Base(manual, before) == if manual then before else PruneAll(before)
  {}

  lemma BaseNumbers(manual: bool, nodes: seq<Node>)
    ensures |Base(manual, nodes)| == |nodes|
    ensures forall i :: 0 <= i < |nodes| ==> Base(manual, nodes)[i].seqNo == nodes[i].seqNo
  {}

  lemma Untouched(request: Request, limits: Limits, weight: Node -> nat, nodes: seq<Node>)
    requires !Needed(request, limits, weight, nodes)
    ensures Reduced(request, limits, weight, nodes, nodes)
  {}

  lemma Relieved(request: Request, limits: Limits, weight: Node -> nat, before: seq<Node>)
    requires Needed(request, limits, weight, before) && !request.manual && !request.force
    requires PruneAll(before) != before && Total(weight, PruneAll(before)) < limits.threshold
    ensures Reduced(request, limits, weight, before, PruneAll(before))
  {}

  lemma Selected(request: Request, limits: Limits, weight: Node -> nat, before: seq<Node>, base: seq<Node>, k: nat, after: seq<Node>)
    requires Needed(request, limits, weight, before) && base == Base(request.manual, before)
    requires !(base != before && !request.force && Total(weight, base) < limits.threshold)
    requires Selects(weight, base, limits.retain, request.force, k)
    requires if k == 0 then Grown(request.manual, base, after) else Summarized(request.manual, base, k, after)
    ensures Reduced(request, limits, weight, before, after)
  {}

  /** The start of a transaction, accepted only while none is open. */
  method OpenTransaction(s: Session, turn: nat) returns (ok: bool)
    requires s.Valid() && s.View().at.compaction != s.mine
    modifies s`touched, s.log
    ensures s.Valid() && old(s.log.records) <= s.log.records && s.touched >= old(s.touched)
    ensures ok <==> s.View().at.compaction == s.mine
    ensures !s.turns ==> Aside(old(s.View()), s.View())
    ensures s.touched == old(s.touched) ==>
      && Grown(s.turns, old(s.View()).nodes, s.View().nodes)
      && old(s.View()).at.compaction == if ok then "" else s.View().at.compaction
  {
    hide Order.Valid, Order.Fold, ViewOf, After, Certain, Possible, Live.Session.Valid, Live.Session.View;
    OwnId(s);
    var canceled;
    ghost var met;
    ok, canceled, met := Try(s, CompactionStart(turn, s.mine));
    if ok {
      StartView(ViewOf(met), turn, s.mine, |met| + 1);
    }
  }

  /** From compaction/start on: the prefix of k nodes gives way to a summary, or stays. */
  method Summarize(s: Session, turn: nat, limits: Limits, surface: seq<Node>, k: nat)
    returns (summarized: bool, err: Failure, panicked: bool)
    requires s.Valid() && s.View().at.compaction != s.mine && 0 < k <= |surface|
    modifies s`touched, s.log
    ensures s.Valid() && old(s.log.records) <= s.log.records && s.touched >= old(s.touched)
    ensures panicked <==> s.View().at.compaction == s.mine
    ensures !s.turns ==> Aside(old(s.View()), s.View())
    ensures err == NoError && !panicked ==> summarized
    ensures s.touched == old(s.touched) && surface == old(s.View()).nodes && !panicked ==>
      && s.View().at.compaction == old(s.View()).at.compaction
      && if summarized then Summarized(s.turns, surface, k, s.View().nodes) else Grown(s.turns, surface, s.View().nodes)
  {
    hide Order.Valid, Order.Fold, ViewOf, Live.Session.Valid, Live.Session.View, Summarized;
    summarized, err, panicked := false, NoError, false;
    OwnId(s);
    var ok := OpenTransaction(s, turn);
    if !ok {
      err := AnyFailure();
      return;
    }
    var text;
    text, err, panicked := Complete(limits.retries);
    if panicked {
      return;
    }
    if err != NoError {
      CloseFailed(s, turn);
      return;
    }
    summarized, err := CommitSummary(s, turn, surface, k, text);
  }

  /** The summary and the end of the transaction; a refused summary ends it with the failure. */
  method CommitSummary(s: Session, turn: nat, surface: seq<Node>, k: nat, text: string)
    returns (summarized: bool, err: Failure)
    requires s.Valid() && text != "" && 0 < k <= |surface| && s.View().at.compaction == s.mine
    modifies s`touched, s.log
    ensures s.Valid() && old(s.log.records) <= s.log.records && s.touched >= old(s.touched)
    ensures s.View().at.compaction == "" && (!s.turns ==> Aside(old(s.View()), s.View()))
    ensures err == NoError <==> summarized
    ensures Grown(s.turns, surface, old(s.View()).nodes) ==>
      if summarized then Summarized(s.turns, surface, k, s.View().nodes) else Grown(s.turns, surface, s.View().nodes)
  {
    summarized, err := false, NoError;
    ghost var v := s.View();
    OwnId(s);
    hide Order.Valid, Order.Fold, ViewOf, After, Certain, Possible, Live.Session.Valid, Live.Session.View, Distinct, Within;
    hide Summarized, Sort, SeqNos;
    var sequences := Sort(SeqNos(surface[..k]));
    var ok, canceled;
    ghost var met;
    ok, canceled, met := Try(s, CompactionSummary(turn, s.mine, sequences, text));
    ghost var w := ViewOf(met);
    if !ok {
      err := AnyFailure();
      CloseFailed(s, turn);
      return;
    }
    summarized := true;
    SummaryKeepsPlace(w, turn, s.mine, sequences, text, |met| + 1);
    ghost var x := s.View();
    CloseTransaction(s, turn, "");
    if Grown(s.turns, surface, v.nodes) {
      SummaryHere(met, s.turns, surface, k, turn, s.mine, text, s.View().nodes);
    }
  }

  /** The summary of what is still the prefix of the transcript it met. */
  lemma SummaryHere(met: seq<Record>, turns: bool, surface: seq<Node>, k: nat, turn: nat, mine: string, text: string, after: seq<Node>)
    requires Order.Valid(met) && mine != "" && text != "" && ViewOf(met).at.compaction == mine
    requires Grown(turns, surface, ViewOf(met).nodes) && 0 < k <= |surface|
    requires var record := CompactionSummary(turn, mine, Sort(SeqNos(surface[..k])), text);
      Grown(turns, After(ViewOf(met), record, |met| + 1).nodes, after)
    ensures Summarized(turns, surface, k, after)
  {
    MetNodes(met);
    var w := ViewOf(met);
    var summary := [SummaryNode(|met| + 1, text)];
    hide Order.Valid, Order.Fold, ViewOf, After, Certain, Distinct, Within, Sort, SeqNos, Summarized, SummaryNode;
    SummaryView(w, turn, mine, k, text, |met| + 1, |met|);
    WithinPrefix(surface, w.nodes, |met|);
    RestGrown(turns, summary, surface, w.nodes, k);
    hide Grown;
    SummarizedBy(turns, surface, k, |met| + 1, text, summary + w.nodes[k..], after);
  }

  lemma RestGrown(turns: bool, head: seq<Node>, base: seq<Node>, nodes: seq<Node>, k: nat)
    requires Grown(turns, base, nodes) && k <= |base|
    ensures base[..k] == nodes[..k] && base <= nodes && Grown(turns, head + base[k..], head + nodes[k..])
  {
    assert nodes[k..] == base[k..] + nodes[|base|..];
  }

  lemma MetNodes(met: seq<Record>)
    requires Order.Valid(met)
    ensures Distinct(ViewOf(met).nodes) && Within(ViewOf(met).nodes, |met|)
  {
    NodesAreEvents(met);
  }

  lemma SummaryKeepsPlace(v: View, turn: nat, id: string, sequences: seq<nat>, text: string, seqNo: nat)
    ensures var w := After(v, CompactionSummary(turn, id, sequences, text), seqNo); w == v.(nodes := w.nodes)
  {}

  lemma WithinPrefix(base: seq<Node>, nodes: seq<Node>, count: nat)
    requires Within(nodes, count) && base <= nodes
    ensures Newer(base, count + 1)
  {}

  lemma SummarizedBy(turns: bool, base: seq<Node>, k: nat, seqNo: nat, text: string, middle: seq<Node>, after: seq<Node>)
    requires 0 < k <= |base| && Newer(base, seqNo)
    requires Grown(turns, [SummaryNode(seqNo, text)] + base[k..], middle) && Grown(turns, middle, after)
    ensures Summarized(turns, base, k, after)
  {
    assert Grown(turns, [SummaryNode(seqNo, text)] + base[k..], after);
  }

  /** The provider's answer, with the service's own retries; every other answer is a failure. */
  method Complete(retries: nat) returns (text: string, err: Failure, panicked: bool)
    ensures !panicked && err == NoError ==> text != ""
  {
    text, err, panicked := "", NoError, false;
    for attempt := 0 to retries + 1
    {
      panicked := *;
      text := *;
      if panicked {
        return;
      }
      if * {
        err := NoError;
        break;
      }
      err := AnyFailure();
      if * {
        break;
      }
    }
    var truncated: bool := *;
    if err == NoError && (truncated || text == "") {
      err := Failed;
    }
  }

  /** finishError: the transaction is closed with the failure. */
  method CloseFailed(s: Session, turn: nat)
    requires s.Valid() && s.View().at.compaction == s.mine
    modifies s`touched, s.log
    ensures s.Valid() && old(s.log.records) <= s.log.records && s.touched >= old(s.touched)
    ensures s.View().at.compaction == "" && Grown(s.turns, old(s.View()).nodes, s.View().nodes)
    ensures !s.turns ==> Aside(old(s.View()), s.View())
  {
    var failure: string := *;
    CloseTransaction(s, turn, failure);
  }

  /** The end of a party's own transaction is always accepted: nobody else can end it. */
  method CloseTransaction(s: Session, turn: nat, failure: string)
    requires s.Valid() && s.View().at.compaction == s.mine
    modifies s`touched, s.log
    ensures s.Valid() && old(s.log.records) <= s.log.records && s.touched >= old(s.touched)
    ensures s.View().at.compaction == "" && Grown(s.turns, old(s.View()).nodes, s.View().nodes)
    ensures !s.turns ==> Aside(old(s.View()), s.View())
  {
    ghost var v := s.View();
    OwnId(s);
    hide Order.Valid, Order.Fold, ViewOf, After, Certain, Possible, Live.Session.Valid, Live.Session.View;
    var ok;
    ghost var met;
    ok, met := s.Append(CompactionEnd(turn, s.mine, failure));
    EndView(ViewOf(met), turn, s.mine, failure, |met| + 1);
  }

  lemma OwnId(s: Session)
    requires s.Valid()
    ensures s.mine != ""
  {}
}
