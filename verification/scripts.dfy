/**
  What reaches a turn from outside, step by step, and the transcript and outcome that follow
  when nothing goes wrong (the loop of runTurn, internal/app/agent/engine.go).
 */
module Scripts {
  import opened Records
  import opened Live
  import Surfaces

  // ----- what joins a transcript -----

  datatype Item = Said(message: Message) | Called(call: ToolCall) | Returned(result: ToolResult)

  function Shown(node: Surfaces.Node): Item {
    match node
    case MessageNode(_, message) => Said(message)
    case CallNode(_, call) => Called(call)
    case ResultNode(_, result) => Returned(result)
  }

  function Saying(messages: seq<Message>): seq<Item> {
    seq(|messages|, i requires 0 <= i < |messages| => Said(messages[i]))
  }

  function Calling(calls: seq<ToolCall>): seq<Item> {
    seq(|calls|, i requires 0 <= i < |calls| => Called(calls[i]))
  }

  function Returning(results: seq<ToolResult>): seq<Item> {
    seq(|results|, i requires 0 <= i < |results| => Returned(results[i]))
  }

  /** The transcript was kept and these joined it, in order. */
  ghost predicate Grew(before: seq<Surfaces.Node>, after: seq<Surfaces.Node>, items: seq<Item>) {
    && |after| == |before| + |items| && before <= after
    && forall k :: |before| <= k < |after| ==> Shown(after[k]) == items[k - |before|]
  }

  lemma GrewNot(nodes: seq<Surfaces.Node>)
    ensures Grew(nodes, nodes, [])
  {}

  lemma GrewOn(before: seq<Surfaces.Node>, middle: seq<Surfaces.Node>, after: seq<Surfaces.Node>, items: seq<Item>, more: seq<Item>)
    requires Grew(before, middle, items) && Grew(middle, after, more)
    ensures Grew(before, after, items + more)
  {
    forall k | |before| <= k < |after| ensures Shown(after[k]) == (items + more)[k - |before|] {
      if k < |middle| {
        assert after[k] == middle[k];
      }
    }
  }

  lemma SayingSplit(messages: seq<Message>, more: seq<Message>)
    ensures Saying(messages + more) == Saying(messages) + Saying(more)
    ensures Saying([]) == []
  {}

  lemma SayingOne(message: Message)
    ensures Saying([message]) == [Said(message)]
  {}

  lemma Prefixes(messages: seq<Message>, calls: seq<ToolCall>, results: seq<ToolResult>, i: nat)
    ensures i < |messages| ==> Saying(messages[..i + 1]) == Saying(messages[..i]) + [Said(messages[i])]
    ensures i < |calls| ==> Calling(calls[..i + 1]) == Calling(calls[..i]) + [Called(calls[i])]
    ensures i < |results| ==> Returning(results[..i + 1]) == Returning(results[..i]) + [Returned(results[i])]
  {}

  // ----- the calls of one answer and their results -----

  /** Calls that can be made beside those pending: named, and with new IDs. */
  ghost predicate Callable(pending: map<string, ToolCall>, calls: seq<ToolCall>) {
    && (forall i :: 0 <= i < |calls| ==> calls[i].id != "" && calls[i].name != "" && calls[i].id !in pending)
    && (forall i, j :: 0 <= i < j < |calls| ==> calls[i].id != calls[j].id)
  }

  function Made(pending: map<string, ToolCall>, calls: seq<ToolCall>): map<string, ToolCall> {
    if calls == [] then pending
    else Made(pending, calls[..|calls| - 1])[calls[|calls| - 1].id := calls[|calls| - 1]]
  }

  lemma MadeNext(pending: map<string, ToolCall>, calls: seq<ToolCall>, i: nat)
    requires i < |calls|
    ensures Made(pending, calls[..i + 1]) == Made(pending, calls[..i])[calls[i].id := calls[i]]
  {
    assert calls[..i + 1][..i] == calls[..i];
  }

  lemma {:induction false} MadeIs(pending: map<string, ToolCall>, calls: seq<ToolCall>)
    ensures forall id :: id in Made(pending, calls) <==> id in pending || exists i :: 0 <= i < |calls| && calls[i].id == id
  {
    if calls != [] {
      var n := |calls| - 1;
      MadeIs(pending, calls[..n]);
      forall id ensures id in Made(pending, calls) <==> id in pending || exists i :: 0 <= i < |calls| && calls[i].id == id {
        if i :| 0 <= i < n && calls[..n][i].id == id {
          assert calls[i].id == id;
        }
        if i :| 0 <= i < |calls| && calls[i].id == id {
          assert i < n ==> calls[..n][i].id == id;
        }
      }
    }
  }

  /** One admissible result for each pending call and nothing else, in any order. */
  ghost predicate Answered(pending: map<string, ToolCall>, results: seq<ToolResult>) {
    && (forall i :: 0 <= i < |results| ==> Answers(pending, results[i]))
    && (forall i, j :: 0 <= i < j < |results| ==> results[i].callId != results[j].callId)
    && (forall id :: id in pending ==> exists i :: 0 <= i < |results| && results[i].callId == id)
  }

  ghost function Answering(results: seq<ToolResult>): set<string> {
    set i | 0 <= i < |results| :: results[i].callId
  }

  lemma AnswersNext(pending: map<string, ToolCall>, results: seq<ToolResult>, i: nat)
    requires Answered(pending, results) && i < |results|
    ensures Answers(pending - Answering(results[..i]), results[i])
    ensures pending - Answering(results[..i]) - {results[i].callId} == pending - Answering(results[..i + 1])
  {
    var some, more := Answering(results[..i]), Answering(results[..i + 1]);
    assert results[i].callId !in some;
    assert more == some + {results[i].callId} by {
      assert results[..i + 1][i] == results[i];
      forall id | id in some ensures id in more {
        var j :| 0 <= j < i && results[..i][j].callId == id;
        assert results[..i + 1][j].callId == id;
      }
      forall id | id in more ensures id in some + {results[i].callId} {
        var j :| 0 <= j < i + 1 && results[..i + 1][j].callId == id;
        assert j < i ==> results[..i][j].callId == id;
      }
    }
  }

  lemma AllAnswered(pending: map<string, ToolCall>, results: seq<ToolResult>)
    requires Answered(pending, results)
    ensures pending - Answering(results) == map[]
  {
    forall id | id in pending ensures id in Answering(results) {
      var i :| 0 <= i < |results| && results[i].callId == id;
    }
  }

  // ----- messages to deliver -----

  /** Each message can be delivered, and no notice twice. */
  ghost predicate Delivery(owed: map<string, Message>, messages: seq<Message>) {
    && (forall i :: 0 <= i < |messages| ==> Deliverable(owed, messages[i]))
    && (forall i, j :: 0 <= i < j < |messages| && messages[i].source.noticeId != "" ==>
          messages[i].source.noticeId != messages[j].source.noticeId)
  }

  /** The notices these messages deliver. */
  ghost function Ids(messages: seq<Message>): set<string> {
    set i | 0 <= i < |messages| :: messages[i].source.noticeId
  }

  lemma IdsSplit(messages: seq<Message>, more: seq<Message>)
    ensures Ids(messages + more) == Ids(messages) + Ids(more)
    ensures Ids([]) == {}
  {
    forall id | id in Ids(messages) ensures id in Ids(messages + more) {
      var i :| 0 <= i < |messages| && messages[i].source.noticeId == id;
      assert (messages + more)[i] == messages[i];
    }
    forall id | id in Ids(more) ensures id in Ids(messages + more) {
      var i :| 0 <= i < |more| && more[i].source.noticeId == id;
      assert (messages + more)[|messages| + i] == more[i];
    }
    forall id | id in Ids(messages + more) ensures id in Ids(messages) + Ids(more) {
      var i :| 0 <= i < |messages| + |more| && (messages + more)[i].source.noticeId == id;
      assert (messages + more)[i] == if i < |messages| then messages[i] else more[i - |messages|];
    }
  }

  lemma IdsOne(message: Message)
    ensures Ids([message]) == {message.source.noticeId}
  {
    assert [message][0] == message;
  }

  lemma DeliverySplit(owed: map<string, Message>, messages: seq<Message>, more: seq<Message>)
    requires Delivery(owed, messages + more)
    ensures Delivery(owed, messages)
  {
    assert forall i :: 0 <= i < |messages| ==> (messages + more)[i] == messages[i];
  }

  /** Delivering some messages leaves the rest deliverable. */
  lemma DeliveryRest(owed: map<string, Message>, later: map<string, Message>, messages: seq<Message>, more: seq<Message>)
    requires Delivery(owed, messages + more) && Keeps(owed, later, Ids(messages))
    ensures Delivery(later, more)
  {
    forall i | 0 <= i < |more| ensures Deliverable(later, more[i]) {
      assert (messages + more)[|messages| + i] == more[i];
      var id := more[i].source.noticeId;
      forall j | 0 <= j < |messages| ensures id == "" || messages[j].source.noticeId != id {
        assert (messages + more)[j] == messages[j];
      }
    }
    forall i, j | 0 <= i < j < |more| && more[i].source.noticeId != ""
      ensures more[i].source.noticeId != more[j].source.noticeId
    {
      assert (messages + more)[|messages| + i] == more[i] && (messages + more)[|messages| + j] == more[j];
    }
  }

  /** The message at i can be delivered once those before it were. */
  lemma DeliverableNext(owed: map<string, Message>, later: map<string, Message>, messages: seq<Message>, i: nat)
    requires i < |messages| && Delivery(owed, messages) && Keeps(owed, later, Ids(messages[..i]))
    ensures Deliverable(later, messages[i])
  {
    assert messages == messages[..i] + messages[i..];
    DeliveryRest(owed, later, messages[..i], messages[i..]);
    assert messages[i..][0] == messages[i];
  }

  // ----- the script of a turn -----

  /**
    One step as the turn meets it: the context contributed before it, the model's answer, cut
    off or with its calls, what the tools return, and the steers and notices waiting at its end.
   */
  datatype Round = Round(
    context: seq<Message>, answer: Message, truncated: bool, calls: seq<ToolCall>,
    results: seq<ToolResult>, steers: seq<Message>, notices: seq<Message>)

  /** Answers and results the log admits. */
  ghost predicate Fair(r: Round) {
    && WellFormedMessage(r.answer, false)
    && (!r.truncated ==> Callable(map[], r.calls) && Answered(Made(map[], r.calls), r.results))
  }

  /** The input a step takes at its end: steers after a batch only, notices unless it is the last step. */
  function Taken(r: Round, last: bool): seq<Message> {
    if r.truncated then []
    else (if r.calls == [] then [] else r.steers) + (if last then [] else r.notices)
  }

  /** The calls made and what they returned. */
  function Worked(r: Round): seq<Item> {
    if r.truncated then [] else Calling(r.calls) + Returning(r.results)
  }

  /** A step that ends its turn: cut off, or an answer without calls that no notice follows. */
  predicate Final(r: Round, last: bool) { r.truncated || (r.calls == [] && (last || r.notices == [])) }

  /** What one step adds to the transcript. */
  function StepItems(r: Round, last: bool): seq<Item> {
    Saying(r.context) + [Said(r.answer)] + Worked(r) + Saying(Taken(r, last))
  }

  /** All that joins the transcript in the steps from this one on. */
  function Played(script: nat -> Round, step: nat, maxSteps: nat): seq<Item>
    decreases maxSteps + 1 - step
  {
    if step > maxSteps then []
    else
      var r, last := script(step), step == maxSteps;
      StepItems(r, last) + if Final(r, last) then [] else Played(script, step + 1, maxSteps)
  }

  /** How a turn ends that plays these steps. */
  function Ending(script: nat -> Round, step: nat, maxSteps: nat): Outcome
    decreases maxSteps + 1 - step
  {
    if step > maxSteps then StepLimit
    else if script(step).truncated then MaxTokens
    else if Final(script(step), step == maxSteps) then Completed
    else Ending(script, step + 1, maxSteps)
  }

  /** The messages delivered in the steps from this one on. */
  function Input(script: nat -> Round, step: nat, maxSteps: nat): seq<Message>
    decreases maxSteps + 1 - step
  {
    if step > maxSteps then []
    else
      var r, last := script(step), step == maxSteps;
      r.context + Taken(r, last) + if Final(r, last) then [] else Input(script, step + 1, maxSteps)
  }

  ghost predicate FairScript(script: nat -> Round, maxSteps: nat) {
    forall step :: 1 <= step <= maxSteps ==> Fair(script(step))
  }
}
