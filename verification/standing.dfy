/**
  Facts a log establishes and later takes back, over its indices alone: a fact holds when
  some record began it and none after that record ended it. What the validator, the replay
  surface and the projections compute step by step is stated in these terms elsewhere.
 */
module Standing {
  import opened Records

  datatype Fact =
    | TurnOpen(turn: nat)                      // the turn started and did not end
    | StepOpen(turn: nat, step: nat)           // the step started and did not end
    | LatestTurn(turn: nat)                    // the turn that started last
    | LatestStep(step: nat)                    // the step that started last, since the last turn start
    | Answered                                 // an assistant message since the last turn or step start
    | Compacting(compactionId: string)
    | LatestMode(active: bool)                 // the plan mode recorded last
    | Called(call: ToolCall)                   // the call was made and has no result
    | Asking(approvalId: string, callId: string)
    | Asked(approvalId: string)                // the question was asked at any time
    | TodoWritten(callId: string)
    | Searched(callId: string, index: nat)     // the search request recorded last for a call
    | Owing(message: Message)                  // the notice was queued and not delivered
    | Queued(noticeId: string)                 // the notice was queued at any time
    | Catalogued(sessionId: string)
    | GoalSet(change: GoalChange)              // the goal change recorded last
    | LatestRound(round: nat)                  // the rounds counted by the last goal change or round
    | Created(goalId: string)                  // the goal was created at any time

  predicate IsRound(record: Record) { record.UserMessage? && record.message.source.kind == GOAL_SOURCE }

  predicate Begins(fact: Fact, record: Record) {
    match fact
    case TurnOpen(turn) => record == TurnStart(turn)
    case StepOpen(turn, step) => record == StepStart(turn, step)
    case LatestTurn(turn) => record == TurnStart(turn)
    case LatestStep(step) => record.StepStart? && record.step == step
    case Answered => record.AssistantMessage?
    case Compacting(id) => record.CompactionStart? && record.compactionId == id
    case LatestMode(active) => record.PlanMode? && record.active == active
    case Called(call) => record.CallMade? && record.call == call
    case Asking(id, callId) => record.ApprovalAsked? && record.approvalId == id && record.callId == callId
    case Asked(id) => record.ApprovalAsked? && record.approvalId == id
    case TodoWritten(callId) => record.TodoWrite? && record.callId == callId
    case Searched(callId, index) => record.WebSearchRequest? && record.callId == callId && record.index == index
    case Owing(message) => record == NoticeQueued(message)
    case Queued(id) => record.NoticeQueued? && record.message.source.noticeId == id
    case Catalogued(id) => record.SubagentCatalog? && record.sessionId == id
    case GoalSet(change) => record == GoalChanged(change)
    case LatestRound(round) =>
      || (IsRound(record) && record.message.source.goalRound == round)
      || (record.GoalChanged? && record.change.Change? && record.change.roundsStarted == round)
    case Created(id) =>
      record.GoalChanged? && record.change.Change? && record.change.operation == OpCreate && record.change.snapshot.id == id
  }

  predicate Ends(fact: Fact, record: Record) {
    match fact
    case TurnOpen(_) => record.TurnEnd?
    case StepOpen(_, _) => record.StepEnd?
    case LatestTurn(_) => record.TurnStart?
    case LatestStep(_) => record.TurnStart? || record.StepStart?
    case Answered => record.TurnStart? || record.StepStart?
    case Compacting(_) => record.CompactionEnd?
    case LatestMode(_) => record.PlanMode?
    case Called(call) => record.CallResult? && record.result.callId == call.id
    case Asking(id, _) => record.ApprovalDecided? && record.approvalId == id
    case TodoWritten(callId) => record.CallResult? && record.result.callId == callId
    case Searched(callId, _) =>
      || (record.CallResult? && record.result.callId == callId)
      || (record.WebSearchRequest? && record.callId == callId)
    case Owing(message) =>
      record.UserMessage? && record.message.source.noticeId != "" && record.message.source.noticeId == message.source.noticeId
    case GoalSet(_) => record.GoalChanged?
    case LatestRound(_) => record.GoalChanged? || IsRound(record)
    case Asked(_) => false
    case Queued(_) => false
    case Catalogued(_) => false
    case Created(_) => false
  }

  ghost predicate Lasts(log: seq<Record>, i: nat, fact: Fact) {
    forall j :: i < j < |log| ==> !Ends(fact, log[j])
  }

  ghost predicate Holds(log: seq<Record>, fact: Fact) {
    exists i: nat :: i < |log| && Begins(fact, log[i]) && Lasts(log, i, fact)
  }

  /** The facts of a log, and those after one more record. */
  ghost function Facts(log: seq<Record>): iset<Fact> { iset fact | Holds(log, fact) }

  ghost function Next(facts: iset<Fact>, record: Record): iset<Fact> {
    iset fact | Begins(fact, record) || (fact in facts && !Ends(fact, record))
  }

  lemma HoldsSnoc(log: seq<Record>, record: Record, fact: Fact)
    ensures Holds(log + [record], fact) <==> Begins(fact, record) || (Holds(log, fact) && !Ends(fact, record))
  {
    var next, n := log + [record], |log|;
    hide Begins, Ends;
    assert next[n] == record && forall i :: 0 <= i < n ==> next[i] == log[i];
    forall i: nat | i < n ensures Lasts(next, i, fact) <==> Lasts(log, i, fact) && !Ends(fact, record) {
      assert Lasts(next, i, fact) ==> !Ends(fact, next[n]);
      assert Lasts(next, i, fact) ==> forall j :: i < j < n ==> !Ends(fact, next[j]);
    }
    if Begins(fact, record) {
      assert Begins(fact, next[n]) && Lasts(next, n, fact);
    }
    if Holds(log, fact) && !Ends(fact, record) {
      var i: nat :| i < n && Begins(fact, log[i]) && Lasts(log, i, fact);
      assert Begins(fact, next[i]) && Lasts(next, i, fact);
    }
    if Holds(next, fact) {
      var i: nat :| i < n + 1 && Begins(fact, next[i]) && Lasts(next, i, fact);
      assert i < n ==> Begins(fact, log[i]) && Lasts(log, i, fact);
    }
  }

  lemma FactsSnoc(log: seq<Record>, record: Record)
    ensures Facts(log + [record]) == Next(Facts(log), record)
  {
    forall fact ensures fact in Facts(log + [record]) <==> fact in Next(Facts(log), record) {
      HoldsSnoc(log, record, fact);
    }
  }

  lemma NoFacts()
    ensures Facts([]) == iset{}
  {}
}
