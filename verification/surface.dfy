/**
  The model-visible transcript folded from a log (internal/core/session/surface.go,
  prune.go). Text is a sequence of code points, an invalid byte counting as one,
  so the cut positions of PruneToolOutput are indices.
 */
module Surfaces {
  import opened Records

  datatype Node =
    | MessageNode(seqNo: nat, message: Message)
    | CallNode(seqNo: nat, call: ToolCall)
    | ResultNode(seqNo: nat, result: ToolResult)

  const PRUNE_THRESHOLD: nat := 8192
  const PRUNE_HEAD: nat := 4096
  const PRUNE_TAIL: nat := 1024
  const PRUNE_MARKER := "\n\n[... tool result middle pruned ...]\n\n"

  /** PruneToolOutput: bounded head and tail, None when the text is kept whole. */
  function Prune(text: string): Option<string> {
    if |text| <= PRUNE_THRESHOLD then None
    else Some(text[..PRUNE_HEAD] + PRUNE_MARKER + text[|text| - PRUNE_TAIL..])
  }

  /** The position of the tool result a prune names, or |nodes|. */
  function FindResult(nodes: seq<Node>, seqNo: nat): (index: nat)
    ensures index <= |nodes|
    ensures index < |nodes| ==> nodes[index].ResultNode? && nodes[index].seqNo == seqNo
    ensures forall j :: 0 <= j < index ==> !(nodes[j].ResultNode? && nodes[j].seqNo == seqNo)
  {
    if nodes == [] then 0
    else if nodes[0].ResultNode? && nodes[0].seqNo == seqNo then 0
    else 1 + FindResult(nodes[1..], seqNo)
  }

  function ApplyPrune(nodes: seq<Node>, seqNo: nat, output: string): Option<seq<Node>> {
    var index := FindResult(nodes, seqNo);
    if index == |nodes| || Prune(nodes[index].result.output) != Some(output) then None
    else Some(nodes[index := nodes[index].(result := nodes[index].result.(output := output))])
  }

  /** The nodes a summary leaves visible, in order. */
  function Keep(nodes: seq<Node>, shadowed: seq<nat>): seq<Node> {
    if nodes == [] then []
    else (if nodes[0].seqNo in shadowed then [] else [nodes[0]]) + Keep(nodes[1..], shadowed)
  }

  /** The number of kept nodes before the first shadowed one. */
  function Position(nodes: seq<Node>, shadowed: seq<nat>): (position: nat)
    ensures position <= |Keep(nodes, shadowed)|
  {
    if nodes == [] || nodes[0].seqNo in shadowed then 0 else 1 + Position(nodes[1..], shadowed)
  }

  /** replaceWithSummary: the summary takes the place of the first shadowed node. */
  function ReplaceWithSummary(nodes: seq<Node>, shadowed: seq<nat>, summary: Node): Option<seq<Node>> {
    if forall i :: 0 <= i < |nodes| ==> nodes[i].seqNo !in shadowed then None
    else
      var kept, position := Keep(nodes, shadowed), Position(nodes, shadowed);
      Some(kept[..position] + [summary] + kept[position..])
  }

  function SummaryNode(seqNo: nat, summary: string): Node {
    MessageNode(seqNo, Message(Source("compaction", "", 0, 0, ""), summary))
  }

  /** One event of the fold; seqNo is the event's sequence number. */
  function Visible(nodes: seq<Node>, seqNo: nat, record: Record): Option<seq<Node>> {
    match record
    case UserMessage(_, _, message) => Some(nodes + [MessageNode(seqNo, message)])
    case AssistantMessage(_, _, message) => Some(nodes + [MessageNode(seqNo, message)])
    case CallMade(_, _, call) => Some(nodes + [CallNode(seqNo, call)])
    case CallResult(_, _, result) => Some(nodes + [ResultNode(seqNo, result)])
    case CompactionSummary(_, _, shadowed, summary) => ReplaceWithSummary(nodes, shadowed, SummaryNode(seqNo, summary))
    case CompactionPrune(_, target, output) => ApplyPrune(nodes, target, output)
    case _ => Some(nodes)
  }

  function Surface(log: seq<Record>): Option<seq<Node>> {
    if log == [] then Some([])
    else match Surface(log[..|log| - 1])
      case None => None
      case Some(nodes) => Visible(nodes, |log|, log[|log| - 1])
  }
}
