/**
  What the order automaton guarantees of every valid log: the relations between its
  variables after every record, how one more record changes validity, and the
  validity of prefixes.
 */
module OrderFacts {
  import opened Records
  import opened Order
  import Goals
  import Surfaces

  ghost predicate NoDup(values: seq<string>) {
    forall i, j :: 0 <= i < j < |values| ==> values[i] != values[j]
  }

  /** Turns, steps, and what may be open inside them. */
  ghost predicate PlaceInv(s: State) {
    var at := s.at;
    && (at.turn != 0 ==> at.turn == at.lastTurn)
    && (at.step != 0 ==> at.step == at.lastStep && at.turn != 0)
    && (at.step == 0 ==> s.work.calls == [] && s.work.approvals == [])
    && (s.work.calls != [] ==> at.assistant)
  }

  /** The ordered list of pending calls and the map of them agree. */
  ghost predicate CallInv(work: Work) {
    && NoDup(work.calls) && (forall id :: id in work.calls <==> id in work.pendingCalls)
    && (forall id :: id in work.pendingCalls ==> id != "" && work.pendingCalls[id].id == id)
    && (forall id :: id in work.todoCalls ==> id in work.pendingCalls)
    && (forall id :: id in work.searchIndices ==> id in work.pendingCalls)
  }

  /** Open questions are listed once, were seen, and name pending calls. */
  ghost predicate ApprovalInv(work: Work) {
    && NoDup(work.approvals) && (forall id :: id in work.approvals <==> id in work.approvalCalls)
    && (forall id :: id in work.approvalCalls ==>
          id != "" && id in work.seenApprovals && work.approvalCalls[id] in work.pendingCalls)
  }

  ghost predicate NoticeInv(inbox: Inbox) {
    forall id :: id in inbox.notices ==> id in inbox.noticeIds && inbox.notices[id].source.noticeId == id && id != ""
  }

  /** The relations between the validator's variables after every accepted record. */
  ghost predicate Inv(s: State) {
    PlaceInv(s) && CallInv(s.work) && ApprovalInv(s.work) && NoticeInv(s.inbox)
  }

  lemma {:induction false} RemoveOnce(values: seq<string>, target: string)
    requires NoDup(values)
    ensures NoDup(Remove(values, target))
    ensures forall v :: v in Remove(values, target) <==> v in values && v != target
  {
    if values != [] && values[0] != target {
      var rest := Remove(values[1..], target);
      RemoveOnce(values[1..], target);
      assert values == [values[0]] + values[1..];
      assert forall v :: v in values[1..] ==> v != values[0];
      assert NoDup([values[0]] + rest) by {
        forall i, j | 0 <= i < j < |rest| + 1 ensures ([values[0]] + rest)[i] != ([values[0]] + rest)[j] {
          assert rest[j - 1] in rest;
        }
      }
    } else if values != [] {
      assert values == [values[0]] + values[1..];
    }
  }

  lemma NoDupSnoc(values: seq<string>, value: string)
    requires NoDup(values) && value !in values
    ensures NoDup(values + [value])
  {}

  /** Where an accepted record leads. */
  function Move(at: Place, record: Record): Place {
    match record
    case TurnStart(turn) => at.(turn := turn, lastTurn := turn, lastStep := 0, assistant := false)
    case StepStart(_, step) => at.(step := step, lastStep := step, assistant := false)
    case AssistantMessage(_, _, _) => at.(assistant := true)
    case CompactionStart(_, id) => at.(compaction := id)
    case CompactionEnd(_, _, _) => at.(compaction := "")
    case PlanMode(_, active) => at.(plan := active)
    case StepEnd(_, _) => at.(step := 0)
    case TurnEnd(_, _) => at.(turn := 0)
    case _ => at
  }

  lemma MoveAgrees(log: seq<Record>, s: State, record: Record)
    requires Step(log, s, record).Some?
    ensures Step(log, s, record).value.at == Move(s.at, record)
  {}

  lemma PlaceStep(log: seq<Record>, s: State, record: Record)
    requires PlaceInv(s) && WellFormed(record) && Lifecycle(log, s, record).Some?
    ensures PlaceInv(Lifecycle(log, s, record).value)
  {}

  lemma CallStep(log: seq<Record>, s: State, record: Record)
    requires CallInv(s.work) && WellFormed(record) && Lifecycle(log, s, record).Some?
    ensures CallInv(Lifecycle(log, s, record).value.work)
  {
    match record {
      case CallMade(_, _, call) =>
        assert call.id !in s.work.calls;
        NoDupSnoc(s.work.calls, call.id);
      case CallResult(_, _, result) => RemoveOnce(s.work.calls, result.callId);
      case _ =>
    }
  }

  lemma ApprovalStep(log: seq<Record>, s: State, record: Record)
    requires ApprovalInv(s.work) && WellFormed(record) && Lifecycle(log, s, record).Some?
    ensures ApprovalInv(Lifecycle(log, s, record).value.work)
  {
    match record {
      case ApprovalAsked(_, _, id, _, _) =>
        assert id !in s.work.approvals;
        NoDupSnoc(s.work.approvals, id);
      case ApprovalDecided(_, _, id) => RemoveOnce(s.work.approvals, id);
      case _ =>
    }
  }

  lemma NoticeStep(log: seq<Record>, s: State, record: Record)
    requires NoticeInv(s.inbox) && WellFormed(record) && Lifecycle(log, s, record).Some?
    ensures NoticeInv(Lifecycle(log, s, record).value.inbox)
  {
    match record {
      case UserMessage(_, _, _) =>
      case NoticeQueued(_) =>
      case _ =>
        OtherInbox(log, s, record);
        hide Lifecycle, WellFormed;
    }
  }

  lemma OtherInbox(log: seq<Record>, s: State, record: Record)
    requires Lifecycle(log, s, record).Some? && !record.NoticeQueued? && !record.UserMessage?
    ensures Lifecycle(log, s, record).value.inbox == s.inbox
  {}

  lemma InvStep(log: seq<Record>, s: State, record: Record)
    requires Inv(s) && WellFormed(record) && Step(log, s, record).Some?
    ensures Inv(Step(log, s, record).value)
  {
    hide Lifecycle, WellFormed, Goals.Apply;
    var t := s.(goals := Goals.Apply(s.goals, record).value);
    PlaceStep(log, t, record);
    CallStep(log, t, record);
    ApprovalStep(log, t, record);
    NoticeStep(log, t, record);
  }

  /** The records that open or settle a call or an approval question. */
  predicate WorkRecord(record: Record) {
    record.CallMade? || record.CallResult? || record.ApprovalAsked? || record.ApprovalDecided?
  }

  /** Every other record leaves the pending calls and questions alone. */
  lemma OtherWork(log: seq<Record>, s: State, record: Record)
    requires Lifecycle(log, s, record).Some? && !WorkRecord(record)
    ensures var next := Lifecycle(log, s, record).value.work;
      && next.calls == s.work.calls && next.approvals == s.work.approvals
      && next.pendingCalls == s.work.pendingCalls && next.approvalCalls == s.work.approvalCalls
  {}

  lemma {:induction false} InvHolds(log: seq<Record>)
    requires AllWellFormed(log) && Fold(log).Some?
    ensures Inv(Fold(log).value)
  {
    if log != [] {
      var last := |log| - 1;
      InvHolds(log[..last]);
      InvStep(log[..last], Fold(log[..last]).value, log[last]);
    }
  }

  lemma ValidSnoc(log: seq<Record>, record: Record)
    ensures Valid(log + [record]) <==>
            && Valid(log) && WellFormed(record)
            && Step(log, StateOf(log), record).Some?
            && Surfaces.Visible(Surfaces.Surface(log).value, |log| + 1, record).Some?
    ensures Valid(log + [record]) ==> Fold(log + [record]) == Step(log, StateOf(log), record)
    ensures Valid(log + [record]) ==>
      Surfaces.Surface(log + [record]) == Surfaces.Visible(Surfaces.Surface(log).value, |log| + 1, record)
  {
    hide Lifecycle, WellFormed, Step, Surfaces.Visible;
    assert (log + [record])[..|log|] == log;
    assert AllWellFormed(log + [record]) <==> AllWellFormed(log) && WellFormed(record) by {
      assert forall i :: 0 <= i < |log| ==> (log + [record])[i] == log[i];
      assert (log + [record])[|log|] == record;
    }
  }

  /** The last record of a valid log, and the valid log before it. */
  lemma ValidLast(log: seq<Record>)
    requires Valid(log) && log != []
    ensures var front, last := log[..|log| - 1], log[|log| - 1];
      && Valid(front) && WellFormed(last) && Inv(StateOf(front))
      && Step(front, StateOf(front), last) == Some(StateOf(log))
      && Surfaces.Visible(Surfaces.Surface(front).value, |log|, last) == Surfaces.Surface(log)
  {
    hide Step, Lifecycle, WellFormed, AllWellFormed, Surfaces.Visible, Inv;
    var front, last := log[..|log| - 1], log[|log| - 1];
    assert log == front + [last];
    ValidSnoc(front, last);
    InvHolds(front);
  }

  /** Every prefix of a valid log is valid. */
  lemma {:induction false} ValidPrefix(log: seq<Record>, n: nat)
    requires Valid(log) && n <= |log|
    ensures Valid(log[..n])
    decreases |log|
  {
    if n == |log| {
      assert log[..n] == log;
    } else {
      var front := log[..|log| - 1];
      assert log == front + [log[|log| - 1]];
      ValidSnoc(front, log[|log| - 1]);
      assert front[..n] == log[..n];
      ValidPrefix(front, n);
    }
  }
}
