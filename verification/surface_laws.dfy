/**
  The replayed transcript over the indices of the log (internal/core/session/surface.go,
  prune.go): which events are visible, as what, and in which order.
 */
module SurfaceLaws {
  import opened Records
  import opened Surfaces
  import opened NodeFacts
  import opened Order
  import opened OrderFacts

  /** Messages, calls, results and summaries are what the model may see. */
  predicate Presents(record: Record) {
    record.UserMessage? || record.AssistantMessage? || record.CallMade? || record.CallResult? || record.CompactionSummary?
  }

  predicate Hides(record: Record, n: nat) { record.CompactionSummary? && n in record.shadowed }

  predicate Prunes(record: Record, n: nat) { record.CompactionPrune? && record.seqNo == n }

  /** Event n is visible: it presents something, and no later summary lists it. */
  ghost predicate Shown(log: seq<Record>, n: nat) {
    1 <= n <= |log| && Presents(log[n - 1]) && forall j :: n <= j < |log| ==> !Hides(log[j], n)
  }

  ghost predicate NotPruned(log: seq<Record>, n: nat) { forall j :: n <= j < |log| ==> !Prunes(log[j], n) }

  ghost predicate PrunedTo(log: seq<Record>, n: nat, output: string) {
    exists j :: n <= j < |log| && Prunes(log[j], n) && log[j].output == output
  }

  /** What an event looks like: a result keeps its output until a prune names it. */
  ghost predicate Pictures(log: seq<Record>, n: nat, node: Node)
    requires 1 <= n <= |log|
  {
    match log[n - 1]
    case UserMessage(_, _, message) => node == MessageNode(n, message)
    case AssistantMessage(_, _, message) => node == MessageNode(n, message)
    case CallMade(_, _, call) => node == CallNode(n, call)
    case CallResult(_, _, result) =>
      && node.ResultNode? && node == ResultNode(n, result.(output := node.result.output))
      && if NotPruned(log, n) then node.result.output == result.output
         else PrunedTo(log, n, node.result.output) && Prune(result.output) == Some(node.result.output)
    case CompactionSummary(_, _, _, summary) => node == MessageNode(n, Message(Source("compaction", "", 0, 0, ""), summary))
    case _ => false
  }

  /** Everything but summaries keeps the order of the log. */
  predicate InOrder(log: seq<Record>, a: Node, b: Node) {
    1 <= a.seqNo <= |log| && 1 <= b.seqNo <= |log| && !log[a.seqNo - 1].CompactionSummary? && !log[b.seqNo - 1].CompactionSummary?
    ==> a.seqNo < b.seqNo
  }

  ghost predicate Visibles(log: seq<Record>, nodes: seq<Node>) {
    && (forall i :: 0 <= i < |nodes| ==> Shown(log, nodes[i].seqNo) && Pictures(log, nodes[i].seqNo, nodes[i]))
    && (forall n :: Shown(log, n) ==> exists i :: 0 <= i < |nodes| && nodes[i].seqNo == n)
  }

  ghost predicate Ordered(log: seq<Record>, nodes: seq<Node>) {
    forall i, j :: 0 <= i < j < |nodes| ==> InOrder(log, nodes[i], nodes[j])
  }

  lemma ShownSnoc(log: seq<Record>, record: Record, n: nat)
    ensures Shown(log + [record], n) <==> (n == |log| + 1 && Presents(record)) || (Shown(log, n) && !Hides(record, n))
  {
    var next := log + [record];
    hide Presents, Hides;
    assert next[|log|] == record && forall j :: 0 <= j < |log| ==> next[j] == log[j];
  }

  lemma PrunedSnoc(log: seq<Record>, record: Record, n: nat)
    requires 1 <= n <= |log|
    ensures NotPruned(log + [record], n) <==> NotPruned(log, n) && !Prunes(record, n)
    ensures forall o :: PrunedTo(log + [record], n, o) <==> PrunedTo(log, n, o) || (Prunes(record, n) && record.output == o)
  {
    var next := log + [record];
    assert next[|log|] == record && forall j :: 0 <= j < |log| ==> next[j] == log[j];
    forall o ensures PrunedTo(next, n, o) <==> PrunedTo(log, n, o) || (Prunes(record, n) && record.output == o) {
      if PrunedTo(log, n, o) {
        var j :| n <= j < |log| && Prunes(log[j], n) && log[j].output == o;
        assert Prunes(next[j], n);
      }
      if Prunes(record, n) && record.output == o {
        assert Prunes(next[|log|], n);
      }
    }
  }

  /** An event looks the same after another record, unless that record prunes it. */
  lemma PicturesSnoc(log: seq<Record>, record: Record, n: nat, node: Node)
    requires 1 <= n <= |log| && Pictures(log, n, node) && !Prunes(record, n)
    ensures Pictures(log + [record], n, node)
  {
    PrunedSnoc(log, record, n);
    hide Prune, NotPruned, PrunedTo, Prunes;
    assert (log + [record])[n - 1] == log[n - 1];
  }

  lemma InOrderSnoc(log: seq<Record>, record: Record, a: Node, b: Node)
    requires InOrder(log, a, b) && 1 <= a.seqNo <= |log| && 1 <= b.seqNo <= |log|
    ensures InOrder(log + [record], a, b)
  {}

  lemma SnocOrdered(log: seq<Record>, record: Record, nodes: seq<Node>)
    requires Ordered(log, nodes) && Within(nodes, |log|)
    ensures Ordered(log + [record], nodes)
  {
    forall i, j | 0 <= i < j < |nodes| ensures InOrder(log + [record], nodes[i], nodes[j]) {
      InOrderSnoc(log, record, nodes[i], nodes[j]);
    }
  }

  // ----- one record -----

  lemma Appended(log: seq<Record>, record: Record, nodes: seq<Node>, node: Node)
    requires Visibles(log, nodes) && Ordered(log, nodes) && Within(nodes, |log|)
    requires Presents(record) && !record.CompactionSummary? && node.seqNo == |log| + 1
    requires Pictures(log + [record], |log| + 1, node)
    ensures Visibles(log + [record], nodes + [node]) && Ordered(log + [record], nodes + [node])
  {
    var next, after := log + [record], nodes + [node];
    assert !record.CompactionPrune?;
    hide Presents, Pictures, InOrder;
    forall i | 0 <= i < |after| ensures Shown(next, after[i].seqNo) && Pictures(next, after[i].seqNo, after[i]) {
      ShownSnoc(log, record, after[i].seqNo);
      if i < |nodes| {
        assert after[i] == nodes[i];
        PicturesSnoc(log, record, nodes[i].seqNo, nodes[i]);
      }
    }
    forall n | Shown(next, n) ensures exists i :: 0 <= i < |after| && after[i].seqNo == n {
      ShownSnoc(log, record, n);
      if n == |log| + 1 {
        assert after[|nodes|].seqNo == n;
      } else {
        var i :| 0 <= i < |nodes| && nodes[i].seqNo == n;
        assert after[i].seqNo == n;
      }
    }
    SnocOrdered(log, record, nodes);
    forall i, j | 0 <= i < j < |after| ensures InOrder(next, after[i], after[j]) {
      assert after[i] == nodes[i];
    }
  }

  lemma Unseen(log: seq<Record>, record: Record, nodes: seq<Node>)
    requires Visibles(log, nodes) && Ordered(log, nodes) && Within(nodes, |log|)
    requires !Presents(record) && !record.CompactionPrune?
    ensures Visibles(log + [record], nodes) && Ordered(log + [record], nodes)
  {
    var next := log + [record];
    hide Pictures;
    forall i | 0 <= i < |nodes| ensures Shown(next, nodes[i].seqNo) && Pictures(next, nodes[i].seqNo, nodes[i]) {
      ShownSnoc(log, record, nodes[i].seqNo);
      PicturesSnoc(log, record, nodes[i].seqNo, nodes[i]);
    }
    forall n | Shown(next, n) ensures exists i :: 0 <= i < |nodes| && nodes[i].seqNo == n {
      ShownSnoc(log, record, n);
    }
    SnocOrdered(log, record, nodes);
  }

  lemma OrderedTail(log: seq<Record>, nodes: seq<Node>)
    requires nodes != [] && Ordered(log, nodes)
    ensures Ordered(log, nodes[1..]) && forall m :: m in nodes[1..] ==> InOrder(log, nodes[0], m)
  {
    hide InOrder;
    var tail := nodes[1..];
    assert forall i :: 0 <= i < |tail| ==> tail[i] == nodes[i + 1];
    forall i, j | 0 <= i < j < |tail| ensures InOrder(log, tail[i], tail[j]) {
      assert InOrder(log, nodes[i + 1], nodes[j + 1]);
    }
    forall m | m in tail ensures InOrder(log, nodes[0], m) {
      var i :| 0 <= i < |tail| && tail[i] == m;
      assert InOrder(log, nodes[0], nodes[i + 1]);
    }
  }

  lemma OrderedCons(log: seq<Record>, head: Node, rest: seq<Node>)
    requires Ordered(log, rest) && forall m :: m in rest ==> InOrder(log, head, m)
    ensures Ordered(log, [head] + rest)
  {
    hide InOrder;
    var all := [head] + rest;
    forall i, j | 0 <= i < j < |all| ensures InOrder(log, all[i], all[j]) {
      assert all[j] == rest[j - 1] && all[j] in rest;
    }
  }

  lemma {:induction false} KeepOrdered(log: seq<Record>, nodes: seq<Node>, shadowed: seq<nat>)
    requires Ordered(log, nodes)
    ensures Ordered(log, Keep(nodes, shadowed))
  {
    hide InOrder, Ordered;
    if nodes == [] {
    } else {
      OrderedTail(log, nodes);
      KeepOrdered(log, nodes[1..], shadowed);
      KeepMembers(nodes[1..], shadowed);
      var rest := Keep(nodes[1..], shadowed);
      OrderedCons(log, nodes[0], rest);
      assert [] + rest == rest;
    }
  }

  lemma {:induction false} KeepMembers(nodes: seq<Node>, shadowed: seq<nat>)
    ensures forall m :: m in Keep(nodes, shadowed) <==> m in nodes && m.seqNo !in shadowed
  {
    if nodes != [] {
      KeepMembers(nodes[1..], shadowed);
      assert nodes == [nodes[0]] + nodes[1..];
    }
  }

  /** A summary takes the place of the first event it lists, and the others it lists disappear. */
  lemma {:induction false} SummaryPlace(nodes: seq<Node>, shadowed: seq<nat>, summary: Node) returns (p: nat)
    requires ReplaceWithSummary(nodes, shadowed, summary).Some?
    ensures p < |nodes| && nodes[p].seqNo in shadowed && forall i :: 0 <= i < p ==> nodes[i].seqNo !in shadowed
    ensures ReplaceWithSummary(nodes, shadowed, summary).value == nodes[..p] + [summary] + Keep(nodes[p..], shadowed)
  {
    p := FirstListed(nodes, shadowed);
    KeepEvery(nodes[..p], shadowed);
    KeepConcat(nodes[..p], nodes[p..], shadowed);
    assert nodes[..p] + nodes[p..] == nodes;
    var kept := Keep(nodes, shadowed);
    assert kept[..p] == nodes[..p] && kept[p..] == Keep(nodes[p..], shadowed);
  }

  lemma {:induction false} FirstListed(nodes: seq<Node>, shadowed: seq<nat>) returns (p: nat)
    requires exists i :: 0 <= i < |nodes| && nodes[i].seqNo in shadowed
    ensures p < |nodes| && nodes[p].seqNo in shadowed && forall i :: 0 <= i < p ==> nodes[i].seqNo !in shadowed
    ensures p == Position(nodes, shadowed)
  {
    if nodes[0].seqNo in shadowed {
      p := 0;
    } else {
      var tail := nodes[1..];
      var i :| 0 <= i < |nodes| && nodes[i].seqNo in shadowed;
      assert tail[i - 1].seqNo in shadowed;
      var q := FirstListed(tail, shadowed);
      p := q + 1;
      assert forall i :: 0 < i < p ==> nodes[i] == tail[i - 1];
    }
  }

  lemma Inserted(log: seq<Record>, record: Record, nodes: seq<Node>, kept: seq<Node>, at: nat, summary: Node)
    requires Visibles(log, nodes) && Ordered(log, kept) && Within(kept, |log|) && at <= |kept| && record.CompactionSummary?
    requires forall m :: m in kept <==> m in nodes && m.seqNo !in record.shadowed
    requires summary == SummaryNode(|log| + 1, record.summary)
    ensures var next := kept[..at] + [summary] + kept[at..];
      Visibles(log + [record], next) && Ordered(log + [record], next)
  {
    hide Pictures, InOrder, Within, Visibles, Ordered;
    var next := kept[..at] + [summary] + kept[at..];
    assert next[at] == summary && forall i :: 0 <= i < |next| && i != at ==> next[i] == kept[if i < at then i else i - 1];
    InsertedVisibles(log, record, nodes, kept, at, summary, next);
    InsertedOrdered(log, record, kept, at, summary, next);
  }

  lemma InsertedVisibles(log: seq<Record>, record: Record, nodes: seq<Node>, kept: seq<Node>, at: nat, summary: Node, next: seq<Node>)
    requires Visibles(log, nodes) && at <= |kept| && record.CompactionSummary? && |next| == |kept| + 1
    requires forall m :: m in kept <==> m in nodes && m.seqNo !in record.shadowed
    requires summary == SummaryNode(|log| + 1, record.summary) && next[at] == summary
    requires forall i :: 0 <= i < |next| && i != at ==> next[i] == kept[if i < at then i else i - 1]
    ensures Visibles(log + [record], next)
  {
    var longer := log + [record];
    assert Pictures(longer, |log| + 1, summary) by {
      assert longer[|log|] == record;
    }
    hide Pictures;
    forall i | 0 <= i < |next| ensures Shown(longer, next[i].seqNo) && Pictures(longer, next[i].seqNo, next[i]) {
      ShownSnoc(log, record, next[i].seqNo);
      if i != at {
        var k := if i < at then i else i - 1;
        assert kept[k] in kept && next[i] in nodes;
        PicturesSnoc(log, record, next[i].seqNo, next[i]);
      }
    }
    forall n | Shown(longer, n) ensures exists i :: 0 <= i < |next| && next[i].seqNo == n {
      ShownSnoc(log, record, n);
      if n == |log| + 1 {
        assert next[at].seqNo == n;
      } else {
        var i :| 0 <= i < |nodes| && nodes[i].seqNo == n;
        assert nodes[i] in kept;
        var k :| 0 <= k < |kept| && kept[k] == nodes[i];
        assert next[if k < at then k else k + 1].seqNo == n;
      }
    }
  }

  lemma InsertedOrdered(log: seq<Record>, record: Record, kept: seq<Node>, at: nat, summary: Node, next: seq<Node>)
    requires Ordered(log, kept) && Within(kept, |log|) && at <= |kept| && record.CompactionSummary? && |next| == |kept| + 1
    requires summary.seqNo == |log| + 1 && next[at] == summary
    requires forall i :: 0 <= i < |next| && i != at ==> next[i] == kept[if i < at then i else i - 1]
    ensures Ordered(log + [record], next)
  {
    hide InOrder;
    var longer := log + [record];
    SnocOrdered(log, record, kept);
    forall i, j | 0 <= i < j < |next| ensures InOrder(longer, next[i], next[j]) {
      if i == at || j == at {
        SummaryInOrder(longer, next[i], next[j]);
      } else {
        var k, l := if i < at then i else i - 1, if j < at then j else j - 1;
        assert InOrder(longer, kept[k], kept[l]);
      }
    }
  }

  lemma SummaryInOrder(log: seq<Record>, a: Node, b: Node)
    requires log != [] && log[|log| - 1].CompactionSummary? && (a.seqNo == |log| || b.seqNo == |log|)
    ensures InOrder(log, a, b)
  {}

  lemma Pruned(log: seq<Record>, record: Record, nodes: seq<Node>)
    requires Visibles(log, nodes) && Ordered(log, nodes) && Distinct(nodes) && Within(nodes, |log|)
    requires record.CompactionPrune? && ApplyPrune(nodes, record.seqNo, record.output).Some?
    ensures var after := ApplyPrune(nodes, record.seqNo, record.output).value;
      Visibles(log + [record], after) && Ordered(log + [record], after)
  {
    var p := FindResult(nodes, record.seqNo);
    PruneOnce(log, record, nodes[p]);
    var after := nodes[p := nodes[p].(result := nodes[p].result.(output := record.output))];
    hide Pictures, InOrder, Within, Visibles, Ordered;
    PrunedVisibles(log, record, nodes, p, after);
    PrunedOrdered(log, record, nodes, after);
  }

  lemma PrunedVisibles(log: seq<Record>, record: Record, nodes: seq<Node>, p: nat, after: seq<Node>)
    requires Visibles(log, nodes) && Distinct(nodes) && record.CompactionPrune? && p < |nodes| && nodes[p].seqNo == record.seqNo
    requires 1 <= record.seqNo <= |log| && |after| == |nodes| && after[p].seqNo == record.seqNo
    requires Pictures(log + [record], record.seqNo, after[p])
    requires forall i :: 0 <= i < |nodes| && i != p ==> after[i] == nodes[i]
    ensures Visibles(log + [record], after)
  {
    hide Pictures;
    var next := log + [record];
    forall i | 0 <= i < |after| ensures Shown(next, after[i].seqNo) && Pictures(next, after[i].seqNo, after[i]) {
      ShownSnoc(log, record, after[i].seqNo);
      if i != p {
        PicturesSnoc(log, record, nodes[i].seqNo, nodes[i]);
      }
    }
    forall n | Shown(next, n) ensures exists i :: 0 <= i < |after| && after[i].seqNo == n {
      ShownSnoc(log, record, n);
      var i :| 0 <= i < |nodes| && nodes[i].seqNo == n;
      assert after[i].seqNo == n;
    }
  }

  lemma PrunedOrdered(log: seq<Record>, record: Record, nodes: seq<Node>, after: seq<Node>)
    requires Ordered(log, nodes) && Within(nodes, |log|) && |after| == |nodes|
    requires forall i :: 0 <= i < |nodes| ==> after[i].seqNo == nodes[i].seqNo
    ensures Ordered(log + [record], after)
  {
    hide InOrder;
    SnocOrdered(log, record, nodes);
    forall i, j | 0 <= i < j < |after| ensures InOrder(log + [record], after[i], after[j]) {
      assert InOrder(log + [record], nodes[i], nodes[j]);
      SameNumbers(log + [record], nodes[i], nodes[j], after[i], after[j]);
    }
  }

  lemma SameNumbers(log: seq<Record>, a: Node, b: Node, c: Node, d: Node)
    requires InOrder(log, a, b) && c.seqNo == a.seqNo && d.seqNo == b.seqNo
    ensures InOrder(log, c, d)
  {}

  /** A prune record names a result that was not pruned before. */
  lemma PruneOnce(log: seq<Record>, record: Record, node: Node)
    requires 1 <= node.seqNo <= |log| && Pictures(log, node.seqNo, node) && node.ResultNode?
    requires record.CompactionPrune? && record.seqNo == node.seqNo && Prune(node.result.output) == Some(record.output)
    ensures NotPruned(log, node.seqNo) && log[node.seqNo - 1].CallResult?
    ensures Pictures(log + [record], node.seqNo, node.(result := node.result.(output := record.output)))
  {
    var n := node.seqNo;
    PrunedSnoc(log, record, n);
    var result := log[n - 1].result;
    PrunedIsSmall(ResultNode(n, result));
    assert (log + [record])[n - 1] == log[n - 1];
    hide Prune, NotPruned, PrunedTo;
  }

  lemma SurfaceStep(log: seq<Record>, record: Record, nodes: seq<Node>)
    requires Visibles(log, nodes) && Ordered(log, nodes) && Distinct(nodes) && Within(nodes, |log|)
    requires Visible(nodes, |log| + 1, record).Some?
    ensures var after := Visible(nodes, |log| + 1, record).value; Visibles(log + [record], after) && Ordered(log + [record], after)
  {
    hide Visibles, Ordered, Distinct, Within, Shown;
    var n := |log| + 1;
    assert (log + [record])[n - 1] == record;
    if record.UserMessage? || record.AssistantMessage? {
      Appended(log, record, nodes, MessageNode(n, record.message));
    } else if record.CallMade? {
      Appended(log, record, nodes, CallNode(n, record.call));
    } else if record.CallResult? {
      assert NotPruned(log + [record], n);
      Appended(log, record, nodes, ResultNode(n, record.result));
    } else if record.CompactionSummary? {
      Summarized(log, record, nodes);
    } else if record.CompactionPrune? {
      Pruned(log, record, nodes);
    } else {
      Unseen(log, record, nodes);
    }
  }

  lemma Summarized(log: seq<Record>, record: Record, nodes: seq<Node>)
    requires Visibles(log, nodes) && Ordered(log, nodes) && Distinct(nodes) && Within(nodes, |log|)
    requires record.CompactionSummary? && Visible(nodes, |log| + 1, record).Some?
    ensures var after := Visible(nodes, |log| + 1, record).value; Visibles(log + [record], after) && Ordered(log + [record], after)
  {
    hide Visibles, Ordered, Distinct, Within, Keep, Position;
    var kept, at := Keep(nodes, record.shadowed), Position(nodes, record.shadowed);
    KeepMembers(nodes, record.shadowed);
    KeepOrdered(log, nodes, record.shadowed);
    KeepWithin(nodes, record.shadowed, |log|);
    Inserted(log, record, nodes, kept, at, SummaryNode(|log| + 1, record.summary));
  }

  lemma KeepWithin(nodes: seq<Node>, shadowed: seq<nat>, n: nat)
    requires Within(nodes, n)
    ensures Within(Keep(nodes, shadowed), n)
  {
    hide Keep;
    KeepMembers(nodes, shadowed);
    var kept := Keep(nodes, shadowed);
    assert forall i :: 0 <= i < |kept| ==> kept[i] in kept;
  }

  /**
    The transcript of every valid log: each message, call and result, and each summary, has
    exactly one node, under its own number and with its own content, until a later summary
    lists that number; a result's output is the recorded one until a prune names it, and the
    pruned form of it from then on. Nothing else is visible, and everything but the summaries
    keeps the order of the log.
   */
  lemma {:induction false} SurfaceIs(log: seq<Record>)
    requires Order.Valid(log)
    ensures var nodes := Surface(log).value; Visibles(log, nodes) && Ordered(log, nodes) && Distinct(nodes)
  {
    NodesAreEvents(log);
    if log != [] {
      hide Visibles, Ordered, Distinct, Within, Visible, Order.Valid, Step, WellFormed, Inv;
      var front, last := log[..|log| - 1], log[|log| - 1];
      assert log == front + [last];
      ValidLast(log);
      SurfaceIs(front);
      NodesAreEvents(front);
      SurfaceStep(front, last, Surface(front).value);
    }
  }

  // ----- which records the transcript accepts -----

  /** A summary must list something visible; a prune must give the pruned form of a visible oversized result. */
  ghost predicate Displayable(log: seq<Record>, record: Record) {
    match record
    case CompactionSummary(_, _, shadowed, _) => exists n :: n in shadowed && Shown(log, n)
    case CompactionPrune(_, n, output) =>
      Shown(log, n) && log[n - 1].CallResult? && NotPruned(log, n) && Prune(log[n - 1].result.output) == Some(output)
    case _ => true
  }

  lemma DisplayedExactly(log: seq<Record>, record: Record, nodes: seq<Node>)
    requires Visibles(log, nodes) && Distinct(nodes)
    ensures Visible(nodes, |log| + 1, record).Some? <==> Displayable(log, record)
  {
    hide Visibles, Distinct, FindResult, Prune, Shown, NotPruned, Keep, Position;
    match record {
      case CompactionSummary(_, _, shadowed, _) => SummaryDisplayed(log, shadowed, nodes);
      case CompactionPrune(_, _, _) => PruneDisplayed(log, record, nodes);
      case _ =>
    }
  }

  lemma SummaryDisplayed(log: seq<Record>, shadowed: seq<nat>, nodes: seq<Node>)
    requires Visibles(log, nodes)
    ensures (exists i :: 0 <= i < |nodes| && nodes[i].seqNo in shadowed) <==> exists n :: n in shadowed && Shown(log, n)
  {
    hide Pictures, Shown;
    if n: nat :| n in shadowed && Shown(log, n) {
      var i :| 0 <= i < |nodes| && nodes[i].seqNo == n;
    }
    if i: nat :| i < |nodes| && nodes[i].seqNo in shadowed {
      assert Shown(log, nodes[i].seqNo);
    }
  }

  lemma PruneDisplayed(log: seq<Record>, record: Record, nodes: seq<Node>)
    requires Visibles(log, nodes) && Distinct(nodes) && record.CompactionPrune?
    ensures ApplyPrune(nodes, record.seqNo, record.output).Some? <==> Displayable(log, record)
  {
    hide Prune, NotPruned, PrunedTo, FindResult;
    var n, p := record.seqNo, FindResult(nodes, record.seqNo);
    if p < |nodes| && Prune(nodes[p].result.output) == Some(record.output) {
      PruneOnce(log, record, nodes[p]);
    }
    if Displayable(log, record) {
      var i :| 0 <= i < |nodes| && nodes[i].seqNo == n;
      assert Pictures(log, n, nodes[i]);
      assert nodes[p] == nodes[i];
    }
  }
}
