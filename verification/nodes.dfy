/**
  Facts about the visible transcript of a valid log: every node keeps the sequence
  number of its own event, so no two share one, and what pruning and summarizing do
  to it (internal/core/session/surface.go, prune.go).
 */
module NodeFacts {
  import opened Records
  import opened Surfaces
  import opened Order
  import opened OrderFacts

  ghost predicate Distinct(nodes: seq<Node>) {
    forall i, j :: 0 <= i < j < |nodes| ==> nodes[i].seqNo != nodes[j].seqNo
  }

  ghost predicate Within(nodes: seq<Node>, count: nat) {
    forall i :: 0 <= i < |nodes| ==> 0 < nodes[i].seqNo <= count
  }

  lemma {:induction false} KeepFacts(nodes: seq<Node>, shadowed: seq<nat>)
    requires Distinct(nodes)
    ensures var kept := Keep(nodes, shadowed);
      Distinct(kept) && forall n :: n in kept <==> n in nodes && n.seqNo !in shadowed
  {
    if nodes != [] {
      var rest := Keep(nodes[1..], shadowed);
      KeepFacts(nodes[1..], shadowed);
      assert nodes == [nodes[0]] + nodes[1..];
      forall n | n in rest ensures n.seqNo != nodes[0].seqNo {
        var i :| 0 <= i < |nodes[1..]| && nodes[1..][i] == n;
        assert nodes[i + 1] == n;
      }
      assert forall i :: 0 <= i < |rest| ==> rest[i] in rest;
    }
  }

  lemma SnocNode(nodes: seq<Node>, seqNo: nat, node: Node)
    requires Distinct(nodes) && Within(nodes, seqNo) && node.seqNo == seqNo + 1
    ensures Distinct(nodes + [node]) && Within(nodes + [node], seqNo + 1)
  {}

  lemma InsertedNode(kept: seq<Node>, at: nat, node: Node, seqNo: nat)
    requires Distinct(kept) && Within(kept, seqNo) && at <= |kept| && node.seqNo == seqNo + 1
    ensures var next := kept[..at] + [node] + kept[at..];
      Distinct(next) && Within(next, seqNo + 1)
  {
    var next := kept[..at] + [node] + kept[at..];
    assert |next| == |kept| + 1 && next[at] == node;
    assert forall i :: 0 <= i < at ==> next[i] == kept[i];
    assert forall i :: at < i < |next| ==> next[i] == kept[i - 1];
  }

  lemma SummaryFacts(nodes: seq<Node>, seqNo: nat, shadowed: seq<nat>, summary: Node)
    requires Distinct(nodes) && Within(nodes, seqNo) && summary.seqNo == seqNo + 1
    requires ReplaceWithSummary(nodes, shadowed, summary).Some?
    ensures var next := ReplaceWithSummary(nodes, shadowed, summary).value;
      Distinct(next) && Within(next, seqNo + 1)
  {
    KeepFacts(nodes, shadowed);
    var kept, at := Keep(nodes, shadowed), Position(nodes, shadowed);
    assert Within(kept, seqNo) by {
      assert forall i :: 0 <= i < |kept| ==> kept[i] in kept;
    }
    InsertedNode(kept, at, summary, seqNo);
    hide Keep, Position, Distinct, Within;
  }

  lemma PruneFacts(nodes: seq<Node>, target: nat, output: string)
    requires Distinct(nodes) && ApplyPrune(nodes, target, output).Some?
    ensures var next := ApplyPrune(nodes, target, output).value;
      |next| == |nodes| && forall i :: 0 <= i < |nodes| ==> next[i].seqNo == nodes[i].seqNo
  {}

  lemma VisibleStep(nodes: seq<Node>, seqNo: nat, record: Record)
    requires Distinct(nodes) && Within(nodes, seqNo) && Visible(nodes, seqNo + 1, record).Some?
    ensures var next := Visible(nodes, seqNo + 1, record).value;
      Distinct(next) && Within(next, seqNo + 1)
  {
    match record {
      case CompactionSummary(_, _, shadowed, summary) =>
        SummaryFacts(nodes, seqNo, shadowed, SummaryNode(seqNo + 1, summary));
      case CompactionPrune(_, target, output) =>
        PruneFacts(nodes, target, output);
      case UserMessage(_, _, message) => SnocNode(nodes, seqNo, MessageNode(seqNo + 1, message));
      case AssistantMessage(_, _, message) => SnocNode(nodes, seqNo, MessageNode(seqNo + 1, message));
      case CallMade(_, _, call) => SnocNode(nodes, seqNo, CallNode(seqNo + 1, call));
      case CallResult(_, _, result) => SnocNode(nodes, seqNo, ResultNode(seqNo + 1, result));
      case _ =>
    }
  }

  /** The visible nodes of a valid log carry distinct event numbers of that log. */
  lemma {:induction false} NodesAreEvents(log: seq<Record>)
    requires Order.Valid(log)
    ensures Distinct(Surface(log).value) && Within(Surface(log).value, |log|)
  {
    if log != [] {
      var front, last := log[..|log| - 1], log[|log| - 1];
      hide Order.Valid, Visible, Order.Step;
      ValidLast(log);
      NodesAreEvents(front);
      VisibleStep(Surface(front).value, |front|, last);
    }
  }

  // ----- pruning -----

  predicate Prunable(node: Node) { node.ResultNode? && Prune(node.result.output).Some? }

  function PruneNode(node: Node): Node {
    if Prunable(node) then node.(result := node.result.(output := Prune(node.result.output).value)) else node
  }

  function PruneAll(nodes: seq<Node>): (pruned: seq<Node>)
    ensures |pruned| == |nodes| && forall i :: 0 <= i < |nodes| ==> pruned[i] == PruneNode(nodes[i])
  {
    seq(|nodes|, i requires 0 <= i < |nodes| => PruneNode(nodes[i]))
  }

  lemma MarkerLength()
    ensures |PRUNE_MARKER| < 64
  {}

  /** Which text is pruned, and what is left of it: its first 4096 and its last 1024 characters around a marker. */
  lemma PruneKeepsEnds(text: string)
    ensures Prune(text).Some? <==> |text| > 8192
    ensures Prune(text).Some? ==>
      var short, marker := Prune(text).value, "\n\n[... tool result middle pruned ...]\n\n";
      && |short| == 4096 + |marker| + 1024
      && short[..4096] == text[..4096]
      && short[4096..4096 + |marker|] == marker
      && short[4096 + |marker|..] == text[|text| - 1024..]
  {}

  /** A pruned result is never pruned again, and pruning always shortens. */
  lemma PrunedIsSmall(node: Node)
    ensures !Prunable(PruneNode(node))
    ensures Prunable(node) ==> |PruneNode(node).result.output| < |node.result.output|
  {
    MarkerLength();
  }

  lemma {:induction false} FindsItself(nodes: seq<Node>, i: nat)
    requires Distinct(nodes) && i < |nodes| && nodes[i].ResultNode?
    ensures FindResult(nodes, nodes[i].seqNo) == i
  {}

  /** The record pruning one visible node replaces exactly that node. */
  lemma PruneReplaces(nodes: seq<Node>, i: nat)
    requires Distinct(nodes) && i < |nodes| && Prunable(nodes[i])
    ensures ApplyPrune(nodes, nodes[i].seqNo, Prune(nodes[i].result.output).value) == Some(nodes[i := PruneNode(nodes[i])])
  {
    FindsItself(nodes, i);
  }

  // ----- summaries -----

  function SeqNos(nodes: seq<Node>): (numbers: seq<nat>)
    ensures |numbers| == |nodes| && forall i :: 0 <= i < |nodes| ==> numbers[i] == nodes[i].seqNo
  {
    seq(|nodes|, i requires 0 <= i < |nodes| => nodes[i].seqNo)
  }

  lemma {:induction false} KeepNone(nodes: seq<Node>, shadowed: seq<nat>)
    requires forall i :: 0 <= i < |nodes| ==> nodes[i].seqNo in shadowed
    ensures Keep(nodes, shadowed) == []
  {
    if nodes != [] {
      KeepNone(nodes[1..], shadowed);
    }
  }

  lemma {:induction false} KeepEvery(nodes: seq<Node>, shadowed: seq<nat>)
    requires forall i :: 0 <= i < |nodes| ==> nodes[i].seqNo !in shadowed
    ensures Keep(nodes, shadowed) == nodes
  {
    if nodes != [] {
      KeepEvery(nodes[1..], shadowed);
    }
  }

  lemma {:induction false} KeepConcat(left: seq<Node>, right: seq<Node>, shadowed: seq<nat>)
    ensures Keep(left + right, shadowed) == Keep(left, shadowed) + Keep(right, shadowed)
  {
    if left == [] {
      assert left + right == right;
    } else {
      assert (left + right)[1..] == left[1..] + right;
      KeepConcat(left[1..], right, shadowed);
    }
  }

  lemma Shadows(nodes: seq<Node>, k: nat, shadowed: seq<nat>)
    requires Distinct(nodes) && k <= |nodes|
    requires multiset(shadowed) == multiset(SeqNos(nodes[..k]))
    ensures forall i :: 0 <= i < |nodes| ==> (nodes[i].seqNo in shadowed <==> i < k)
  {
    var numbers := SeqNos(nodes[..k]);
    forall i | 0 <= i < |nodes| ensures nodes[i].seqNo in shadowed <==> i < k {
      var v := nodes[i].seqNo;
      assert v in shadowed <==> v in multiset(shadowed);
      assert v in numbers <==> v in multiset(numbers);
      if i < k {
        assert numbers[i] == v;
      }
    }
  }

  /** With the first node shadowed the summary comes first. */
  lemma SummaryFirst(nodes: seq<Node>, shadowed: seq<nat>, summary: Node)
    requires nodes != [] && nodes[0].seqNo in shadowed
    ensures ReplaceWithSummary(nodes, shadowed, summary) == Some([summary] + Keep(nodes, shadowed))
  {
    assert Position(nodes, shadowed) == 0;
    var kept := Keep(nodes, shadowed);
    hide Keep, Position;
    assert kept[..0] + [summary] + kept[0..] == [summary] + kept;
  }

  /** A summary of a visible prefix leaves itself and the untouched suffix, in any listing order. */
  lemma SummaryOfPrefix(nodes: seq<Node>, k: nat, shadowed: seq<nat>, summary: Node)
    requires Distinct(nodes) && 0 < k <= |nodes|
    requires multiset(shadowed) == multiset(SeqNos(nodes[..k]))
    ensures ReplaceWithSummary(nodes, shadowed, summary) == Some([summary] + nodes[k..])
  {
    Shadows(nodes, k, shadowed);
    hide *;
    KeepNone(nodes[..k], shadowed);
    KeepEvery(nodes[k..], shadowed);
    KeepConcat(nodes[..k], nodes[k..], shadowed);
    assert nodes[..k] + nodes[k..] == nodes;
    SummaryFirst(nodes, shadowed, summary);
    assert [] + nodes[k..] == nodes[k..];
  }

  predicate SortedFrom(low: nat, values: seq<nat>) { Sorted(values) && (values != [] ==> low <= values[0]) }

  lemma SortedCons(low: nat, values: seq<nat>)
    requires SortedFrom(low, values)
    ensures Sorted([low] + values)
  {}

  function Insert(value: nat, values: seq<nat>): (all: seq<nat>)
    requires Sorted(values)
    ensures Sorted(all) && multiset(all) == multiset(values) + multiset{value}
    ensures all != [] && (all[0] == value || (values != [] && all[0] == values[0]))
  {
    if values == [] || value <= values[0] then
      SortedCons(value, values);
      [value] + values
    else
      assert values == [values[0]] + values[1..];
      var rest := Insert(value, values[1..]);
      SortedCons(values[0], rest);
      [values[0]] + rest
  }

  /** slices.Sort on event numbers. */
  function Sort(values: seq<nat>): (sorted: seq<nat>)
    ensures Sorted(sorted) && multiset(sorted) == multiset(values)
  {
    if values == [] then []
    else
      assert values == [values[0]] + values[1..];
      Insert(values[0], Sort(values[1..]))
  }
}
