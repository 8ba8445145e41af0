/**
  What a log leaves unsettled, over its indices alone: the questions, calls and notices that
  are open, in which order, and from that the whole of what resume repair appends
  (internal/adapter/session/jsonl/jsonl.go, repairInterrupted) and of what a session still
  has to deliver (internal/core/session/notice.go).
 */
module OpenLaws {
  import opened Records
  import opened Standing
  import opened Order
  import opened OrderFacts
  import opened OrderLaws
  import opened Journal
  import Goals
  import Notices

  datatype Kind = Questions | Calls | Owed

  /** The question, call or notice a record opens, and the one it settles. */
  function Opens(kind: Kind, record: Record): Option<string> {
    if kind == Calls && record.CallMade? then Some(record.call.id)
    else if kind == Questions && record.ApprovalAsked? then Some(record.approvalId)
    else if kind == Owed && record.NoticeQueued? then Some(record.message.source.noticeId)
    else None
  }

  function Settles(kind: Kind, record: Record): Option<string> {
    if kind == Calls && record.CallResult? then Some(record.result.callId)
    else if kind == Questions && record.ApprovalDecided? then Some(record.approvalId)
    else if kind == Owed && record.UserMessage? && record.message.source.noticeId != "" then Some(record.message.source.noticeId)
    else None
  }

  /** Opened here and not settled since. */
  ghost predicate OpenAt(kind: Kind, log: seq<Record>, p: nat, id: string) {
    && p < |log| && Opens(kind, log[p]) == Some(id)
    && forall k :: p < k < |log| ==> Settles(kind, log[k]) != Some(id)
  }

  /** The open ones, each once, in the order they were opened. */
  ghost predicate Listed(kind: Kind, log: seq<Record>, ids: seq<string>) {
    && NoDup(ids)
    && (forall id :: id in ids <==> exists p :: OpenAt(kind, log, p, id))
    && (forall i, j :: 0 <= i < j < |ids| ==> Before(kind, log, ids[i], ids[j]))
  }

  ghost predicate Before(kind: Kind, log: seq<Record>, a: string, b: string) {
    exists p, q :: p < q && OpenAt(kind, log, p, a) && OpenAt(kind, log, q, b)
  }

  lemma OpenSnoc(kind: Kind, log: seq<Record>, record: Record, p: nat, id: string)
    ensures OpenAt(kind, log + [record], p, id) <==>
      if p == |log| then Opens(kind, record) == Some(id) else OpenAt(kind, log, p, id) && Settles(kind, record) != Some(id)
  {
    var next := log + [record];
    hide Opens, Settles;
    assert next[|log|] == record && forall k :: 0 <= k < |log| ==> next[k] == log[k];
    if OpenAt(kind, next, p, id) && p < |log| {
      assert Settles(kind, next[|log|]) != Some(id);
      assert forall k :: p < k < |log| ==> Settles(kind, next[k]) != Some(id);
    }
  }

  lemma BeforeSnoc(kind: Kind, log: seq<Record>, record: Record, a: string, b: string)
    requires Before(kind, log, a, b) && Settles(kind, record) != Some(a) && Settles(kind, record) != Some(b)
    ensures Before(kind, log + [record], a, b)
  {
    hide OpenAt;
    var p: nat, q: nat :| p < q && OpenAt(kind, log, p, a) && OpenAt(kind, log, q, b);
    assert q < |log| by { OpenInside(kind, log, q, b); }
    OpenSnoc(kind, log, record, p, a);
    OpenSnoc(kind, log, record, q, b);
  }

  lemma OpenInside(kind: Kind, log: seq<Record>, p: nat, id: string)
    requires OpenAt(kind, log, p, id)
    ensures p < |log|
  {}

  /** How a record changes the list. */
  function ListAfter(kind: Kind, ids: seq<string>, record: Record): seq<string> {
    if Opens(kind, record).Some? then ids + [Opens(kind, record).value]
    else if Settles(kind, record).Some? then Remove(ids, Settles(kind, record).value)
    else ids
  }

  lemma MembersSnoc(kind: Kind, log: seq<Record>, record: Record, ids: seq<string>, id: string)
    requires Listed(kind, log, ids) && (Opens(kind, record).Some? ==> Settles(kind, record).None?)
    ensures id in ListAfter(kind, ids, record) <==> exists p :: OpenAt(kind, log + [record], p, id)
  {
    hide OpenAt, Opens, Settles, Before;
    if Settles(kind, record).Some? {
      RemoveOnce(ids, Settles(kind, record).value);
    }
    OpenSnoc(kind, log, record, |log|, id);
    if p :| OpenAt(kind, log, p, id) {
      OpenInside(kind, log, p, id);
      OpenSnoc(kind, log, record, p, id);
    }
    if p :| OpenAt(kind, log + [record], p, id) {
      OpenSnoc(kind, log, record, p, id);
    }
  }

  /** Removing an element keeps the order of the others. */
  lemma {:induction false} RemoveKeepsOrder(ids: seq<string>, target: string, i: nat, j: nat)
    requires NoDup(ids) && i < j < |Remove(ids, target)|
    ensures exists k, l :: 0 <= k < l < |ids| && ids[k] == Remove(ids, target)[i] && ids[l] == Remove(ids, target)[j]
  {
    var rest := Remove(ids, target);
    if ids[0] == target {
      assert ids[i + 1] == rest[i] && ids[j + 1] == rest[j];
    } else if i == 0 {
      RemoveOnce(ids, target);
      assert rest[j] in ids;
      var l :| 0 <= l < |ids| && ids[l] == rest[j];
      RemoveOnce(ids[1..], target);
      assert rest[j] == Remove(ids[1..], target)[j - 1] && rest[j] in ids[1..];
      var m :| 0 <= m < |ids| - 1 && ids[1..][m] == rest[j];
      assert ids[0] == rest[0] && ids[m + 1] == rest[j];
    } else {
      assert forall a, b :: 0 <= a < b < |ids[1..]| ==> ids[1..][a] == ids[a + 1] && ids[1..][b] == ids[b + 1];
      RemoveKeepsOrder(ids[1..], target, i - 1, j - 1);
      var k, l :| 0 <= k < l < |ids[1..]| && ids[1..][k] == rest[i] && ids[1..][l] == rest[j];
      assert ids[k + 1] == rest[i] && ids[l + 1] == rest[j];
    }
  }

  lemma ListedSnoc(kind: Kind, log: seq<Record>, record: Record, ids: seq<string>)
    requires Listed(kind, log, ids) && (Opens(kind, record).Some? ==> Settles(kind, record).None?)
    requires Opens(kind, record).Some? ==> Opens(kind, record).value !in ids
    ensures Listed(kind, log + [record], ListAfter(kind, ids, record))
  {
    hide OpenAt, Opens, Settles, Before;
    var next, after := log + [record], ListAfter(kind, ids, record);
    forall id ensures id in after <==> exists p :: OpenAt(kind, next, p, id) {
      MembersSnoc(kind, log, record, ids, id);
    }
    if Settles(kind, record).Some? {
      RemoveOnce(ids, Settles(kind, record).value);
    }
    forall i, j | 0 <= i < j < |after| ensures Before(kind, next, after[i], after[j]) {
      assert after[i] in after && after[j] in after;
      if Opens(kind, record).Some? && j == |ids| {
        LastOpened(kind, log, record, ids[i], after[j]);
      } else if Opens(kind, record).None? && Settles(kind, record).Some? {
        RemoveKeepsOrder(ids, Settles(kind, record).value, i, j);
        BeforeSnoc(kind, log, record, after[i], after[j]);
      } else {
        BeforeSnoc(kind, log, record, after[i], after[j]);
      }
    }
  }

  lemma LastOpened(kind: Kind, log: seq<Record>, record: Record, a: string, b: string)
    requires Opens(kind, record) == Some(b) && Settles(kind, record).None? && exists p :: OpenAt(kind, log, p, a)
    ensures Before(kind, log + [record], a, b)
  {
    hide OpenAt, Opens, Settles;
    var p :| OpenAt(kind, log, p, a);
    OpenInside(kind, log, p, a);
    OpenSnoc(kind, log, record, p, a);
    OpenSnoc(kind, log, record, |log|, b);
  }

  lemma NotListed(kind: Kind, ids: seq<string>, record: Record)
    requires !WorkRecord(record) && kind != Owed
    ensures ListAfter(kind, ids, record) == ids && Opens(kind, record).None?
  {}

  lemma WorkListed(log: seq<Record>, s: State, record: Record)
    requires CallInv(s.work) && ApprovalInv(s.work) && WorkRecord(record) && Lifecycle(log, s, record).Some?
    ensures var next := Lifecycle(log, s, record).value.work;
      next.calls == ListAfter(Calls, s.work.calls, record) && next.approvals == ListAfter(Questions, s.work.approvals, record)
    ensures Opens(Calls, record).Some? ==> Opens(Calls, record).value !in s.work.calls
    ensures Opens(Questions, record).Some? ==> Opens(Questions, record).value !in s.work.approvals
  {
    hide NoDup;
    match record {
      case CallMade(_, _, _) =>
      case CallResult(_, _, _) =>
      case ApprovalAsked(_, _, _, _, _) =>
      case ApprovalDecided(_, _, _) =>
    }
  }

  lemma WorkLists(log: seq<Record>, s: State, record: Record)
    requires CallInv(s.work) && ApprovalInv(s.work) && Lifecycle(log, s, record).Some?
    ensures var next := Lifecycle(log, s, record).value.work;
      next.calls == ListAfter(Calls, s.work.calls, record) && next.approvals == ListAfter(Questions, s.work.approvals, record)
    ensures Opens(Calls, record).Some? ==> Opens(Calls, record).value !in s.work.calls
    ensures Opens(Questions, record).Some? ==> Opens(Questions, record).value !in s.work.approvals
  {
    hide Lifecycle, CallInv, ApprovalInv, ListAfter, Opens;
    if WorkRecord(record) {
      WorkListed(log, s, record);
    } else {
      OtherWork(log, s, record);
      NotListed(Calls, s.work.calls, record);
      NotListed(Questions, s.work.approvals, record);
    }
  }

  lemma OneOrOther(kind: Kind, record: Record)
    ensures Opens(kind, record).Some? ==> Settles(kind, record).None?
  {}

  lemma NothingListed(kind: Kind)
    ensures Listed(kind, [], []) && (Order.Valid([]) ==> StateOf([]) == INIT)
  {}

  /** The automaton lists exactly the open questions and the open calls, in order. */
  lemma {:induction false} ListsAreOpen(log: seq<Record>)
    requires Order.Valid(log)
    ensures Listed(Calls, log, StateOf(log).work.calls) && Listed(Questions, log, StateOf(log).work.approvals)
  {
    hide Listed, Order.Valid, Order.Fold, Step, Lifecycle, ListAfter, Inv, Opens, Settles;
    NothingListed(Calls);
    NothingListed(Questions);
    if log != [] {
      var front, last := log[..|log| - 1], log[|log| - 1];
      assert log == front + [last];
      ValidLast(log);
      ListsAreOpen(front);
      GoalsSeparate(front, StateOf(front), last);
      var t := StateOf(front).(goals := Goals.Apply(StateOf(front).goals, last).value);
      WorkInv(StateOf(front), t);
      WorkLists(front, t, last);
      OneOrOther(Calls, last);
      OneOrOther(Questions, last);
      ListedSnoc(Calls, front, last, t.work.calls);
      ListedSnoc(Questions, front, last, t.work.approvals);
    }
  }

  lemma WorkInv(s: State, t: State)
    requires Inv(s) && t.work == s.work
    ensures CallInv(t.work) && ApprovalInv(t.work)
  {}

  lemma InvIgnoresGoals(s: State, t: State)
    requires Inv(s) && t == s.(goals := t.goals)
    ensures Inv(t)
  {}

  // ----- the notices owed -----

  function IdsOf(pending: seq<Message>): seq<string> {
    seq(|pending|, i requires 0 <= i < |pending| => pending[i].source.noticeId)
  }

  lemma IdsApart(pending: seq<Message>)
    requires pending != []
    ensures IdsOf(pending) == [pending[0].source.noticeId] + IdsOf(pending[1..])
  {}

  lemma StrikeApart(pending: seq<Message>, id: string)
    requires pending != []
    ensures Notices.Strike(pending, id)
         == if pending[0].source.noticeId == id then pending[1..] else [pending[0]] + Notices.Strike(pending[1..], id)
  {
    var rest, k := pending[1..], Notices.Index(pending[1..], id);
    if pending[0].source.noticeId != id {
      assert Notices.Index(pending, id) == 1 + k;
      assert pending == [pending[0]] + rest;
      if k < |rest| {
        assert pending[..1 + k] == [pending[0]] + rest[..k];
        assert pending[2 + k..] == rest[k + 1..];
      }
    }
  }

  lemma {:induction false} StrikeIds(pending: seq<Message>, id: string)
    ensures IdsOf(Notices.Strike(pending, id)) == Remove(IdsOf(pending), id)
  {
    if pending == [] {
      assert IdsOf(pending) == [];
    } else {
      hide IdsOf, Notices.Strike;
      var rest := Notices.Strike(pending[1..], id);
      StrikeIds(pending[1..], id);
      StrikeApart(pending, id);
      IdsApart(pending);
      IdsApart([pending[0]] + rest);
      assert ([pending[0]] + rest)[1..] == rest;
    }
  }

  lemma PendingIds(pending: seq<Message>, record: Record)
    ensures IdsOf(Notices.PendingStep(pending, record)) == ListAfter(Owed, IdsOf(pending), record)
  {
    hide Notices.Strike;
    match record {
      case UserMessage(_, _, message) => StrikeIds(pending, message.source.noticeId);
      case _ =>
    }
  }

  lemma QueuedIsNew(log: seq<Record>, s: State, record: Record, pending: seq<Message>)
    requires Inv(s) && Lifecycle(log, s, record).Some? && Notices.Owed(pending, s.inbox)
    ensures Opens(Owed, record).Some? ==> Opens(Owed, record).value !in IdsOf(pending)
  {}

  /**
    The notices a session's own records leave pending are exactly those they queued and did
    not deliver since, each once, in the order they were queued.
   */
  lemma {:induction false} PendingInOrder(log: seq<Record>, own: nat)
    requires Order.Valid(log) && own <= |log|
    ensures Listed(Owed, log[own..], IdsOf(Notices.Pending(log[own..])))
  {
    if own == |log| {
      assert log[own..] == [];
    } else {
      var front, last := log[..|log| - 1], log[|log| - 1];
      hide Listed, Order.Valid, Step, Lifecycle, ListAfter, Inv, Notices.PendingStep, Notices.Owed, IdsOf, Opens, Settles;
      assert log == front + [last];
      ValidLast(log);
      PendingInOrder(front, own);
      Notices.PendingIsOwed(front, own);
      GoalsSeparate(front, StateOf(front), last);
      var t := StateOf(front).(goals := Goals.Apply(StateOf(front).goals, last).value);
      InvIgnoresGoals(StateOf(front), t);
      assert log[own..] == front[own..] + [last];
      assert log[own..][..|log| - own - 1] == front[own..];
      QueuedIsNew(front, t, last, Notices.Pending(front[own..]));
      PendingIds(Notices.Pending(front[own..]), last);
      OneOrOther(Owed, last);
      ListedSnoc(Owed, front[own..], last, IdsOf(Notices.Pending(front[own..])));
    }
  }

  // ----- the records of a repair -----

  function Decisions(turn: nat, step: nat, questions: seq<string>): seq<Record> {
    seq(|questions|, i requires 0 <= i < |questions| => ApprovalDecided(turn, step, questions[i]))
  }

  function Interruptions(turn: nat, step: nat, calls: seq<string>): seq<Record> {
    seq(|calls|, i requires 0 <= i < |calls| =>
      CallResult(turn, step, ToolResult(calls[i], "Error: interrupted before a result was committed", true, None)))
  }

  function Closing(turn: nat, step: nat, compaction: string): seq<Record> {
    (if compaction == "" then [] else [CompactionEnd(turn, compaction, "interrupted")])
    + (if step == 0 then [] else [StepEnd(turn, step)])
    + (if turn == 0 then [] else [TurnEnd(turn, Interrupted)])
  }

  lemma FirstPlanned(at: Place, questions: seq<string>, calls: seq<string>)
    ensures questions != [] ==>
      Plan(at, questions, calls) == [ApprovalDecided(at.turn, at.step, questions[0])] + Plan(at, questions[1..], calls)
    ensures questions == [] && calls != [] ==>
      Plan(at, [], calls) == [CallResult(at.turn, at.step, InterruptedToolResult(calls[0]))] + Plan(at, [], calls[1..])
  {
    hide Plan;
    var plan := Plan(at, questions, calls);
    PlanUnfolds(at, questions, calls);
    assert plan != [] ==> plan == [plan[0]] + plan[1..];
  }

  lemma {:induction false} DecisionsPlanned(at: Place, questions: seq<string>, calls: seq<string>)
    ensures Plan(at, questions, calls) == Decisions(at.turn, at.step, questions) + Plan(at, [], calls)
  {
    hide Plan;
    if questions == [] {
      assert Decisions(at.turn, at.step, []) == [];
    } else {
      DecisionsPlanned(at, questions[1..], calls);
      FirstPlanned(at, questions, calls);
      assert Decisions(at.turn, at.step, questions)
          == [ApprovalDecided(at.turn, at.step, questions[0])] + Decisions(at.turn, at.step, questions[1..]);
    }
  }

  lemma {:induction false} InterruptionsPlanned(at: Place, calls: seq<string>)
    ensures Plan(at, [], calls) == Interruptions(at.turn, at.step, calls) + Plan(at, [], [])
  {
    hide Plan;
    if calls == [] {
      assert Interruptions(at.turn, at.step, []) == [];
    } else {
      InterruptionsPlanned(at, calls[1..]);
      FirstPlanned(at, [], calls);
      assert Interruptions(at.turn, at.step, calls)
          == [CallResult(at.turn, at.step, InterruptedToolResult(calls[0]))] + Interruptions(at.turn, at.step, calls[1..]);
    }
  }

  lemma ClosingPlanned(at: Place)
    ensures Plan(at, [], []) == Closing(at.turn, at.step, at.compaction)
  {
    PlanUnfolds(at, [], []);
    PlanUnfolds(at.(compaction := ""), [], []);
    PlanUnfolds(at.(compaction := "", step := 0), [], []);
  }

  /**
    What repairs a log: a cancellation for each open question and an error result for each
    open call, in the order they were opened and inside the open step, then the ends of the
    open compaction, the open step and the open turn, each if there is one.
   */
  ghost predicate IsRepair(log: seq<Record>, repair: seq<Record>) {
    exists turn, step, compaction, questions, calls ::
      && AtTurn(log, turn) && (if step == 0 then NoStep(log) else Holds(log, StepOpen(turn, step)))
      && (if compaction == "" then NoCompaction(log) else Holds(log, Compacting(compaction)))
      && Listed(Questions, log, questions) && Listed(Calls, log, calls)
      && repair == Decisions(turn, step, questions) + Interruptions(turn, step, calls) + Closing(turn, step, compaction)
  }

  /** The whole effect of repair on any valid log, without the automaton. */
  lemma RepairIs(log: seq<Record>)
    requires Order.Valid(log)
    ensures Repaired(log)[..|log|] == log && IsRepair(log, Repaired(log)[|log|..])
  {
    hide Listed, Order.Valid, Inv, Plan, Decisions, Interruptions, Closing, Holds, Agrees;
    var s := StateOf(log);
    var at := s.at;
    FactsAgree(log);
    InvAt(log);
    OpenThings(log, s);
    FactsOfPlace(log, s);
    ListsAreOpen(log);
    DecisionsPlanned(at, s.work.approvals, s.work.calls);
    InterruptionsPlanned(at, s.work.calls);
    ClosingPlanned(at);
    var repair := Repaired(log)[|log|..];
    assert repair == RepairRecords(s);
    assert repair == Decisions(at.turn, at.step, s.work.approvals) + Interruptions(at.turn, at.step, s.work.calls)
                     + Closing(at.turn, at.step, at.compaction);
  }

  lemma FactsOfPlace(log: seq<Record>, s: State)
    requires Agrees(Facts(log), s)
    ensures s.at.compaction != "" ==> Holds(log, Compacting(s.at.compaction))
  {
    hide Holds, Begins, Ends;
    FactsAre(log);
  }
}
