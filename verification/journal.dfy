/**
  The exclusively written log (internal/adapter/session/jsonl/jsonl.go) and the
  ownership of a forked log (internal/core/session/subagent.go, jsonl/sandbox.go).
  An append fails only when the schema or a validator rejects the record.
 */
module Journal {
  import opened Records
  import opened Order
  import opened OrderFacts
  import Surfaces

  // ----- ownership -----

  /** How many leading events a session inherited: its last descriptor says. */
  function Inherited(log: seq<Record>): (count: nat)
    requires Fold(log).Some?
    ensures count <= |log|
  {
    if log == [] then 0
    else if log[|log| - 1].SubagentDescriptor? then log[|log| - 1].inherited
    else Inherited(log[..|log| - 1])
  }

  function OwnEvents(log: seq<Record>): seq<Record>
    requires Fold(log).Some?
  {
    log[Inherited(log)..]
  }

  method FindOwnEvents(log: seq<Record>) returns (own: seq<Record>)
    requires Fold(log).Some?
    ensures own == OwnEvents(log)
  {
    var n := |log|;
    assert log[..n] == log;
    while n > 0
      invariant 0 <= n <= |log| && Fold(log[..n]).Some? && Inherited(log) == Inherited(log[..n])
    {
      assert log[..n][..n - 1] == log[..n - 1];
      if log[n - 1].SubagentDescriptor? {
        return log[log[n - 1].inherited..];
      }
      n := n - 1;
    }
    own := log;
  }

  /** What a session owns grows with each record but a descriptor. */
  lemma OwnGrows(log: seq<Record>, record: Record)
    requires Order.Valid(log + [record]) && !record.SubagentDescriptor?
    ensures Fold(log).Some? && Fold(log + [record]).Some?
    ensures OwnEvents(log + [record]) == OwnEvents(log) + [record]
  {
    hide Step, WellFormed, AllWellFormed, Surfaces.Visible;
    ValidSnoc(log, record);
    var next := log + [record];
    assert next[..|log|] == log;
  }

  /** Sandbox switches a session wrote itself are delegated exactly in a child. */
  predicate SandboxOwned(child: bool, log: seq<Record>)
    requires Fold(log).Some?
  {
    forall i :: Inherited(log) <= i < |log| && log[i].SandboxMode? ==> log[i].delegated == child
  }

  /** A root session writes no delegated switch of its own, and a child no other. */
  lemma SwitchesOwned(child: bool, log: seq<Record>)
    requires Fold(log).Some?
    ensures SandboxOwned(child, log) <==>
      forall record :: record in OwnEvents(log) ==> record != SandboxMode(!child)
  {
    var n, own := Inherited(log), OwnEvents(log);
    hide Inherited;
    if SandboxOwned(child, log) {
      forall record | record in own ensures record != SandboxMode(!child) {
        var i :| 0 <= i < |own| && own[i] == record;
        assert log[n + i] == record;
      }
    }
    if forall record :: record in own ==> record != SandboxMode(!child) {
      forall i | n <= i < |log| && log[i].SandboxMode? ensures log[i].delegated == child {
        assert own[i - n] == log[i] && log[i] in own;
      }
    }
  }

  /** So an append to an owned log stays owned exactly when it is no switch of the other kind. */
  lemma SwitchAccepted(child: bool, log: seq<Record>, record: Record)
    requires Order.Valid(log + [record]) && Fold(log).Some? && SandboxOwned(child, log)
    ensures SandboxOwned(child, log + [record]) <==> record != SandboxMode(!child)
  {
    assert (log + [record])[..|log|] == log;
    if record.SubagentDescriptor? {
      ValidSnoc(log, record);
    }
  }

  // ----- append -----

  /** The candidate log with this record is one the store publishes. */
  ghost predicate Accepts(child: bool, log: seq<Record>, record: Record) {
    Order.Valid(log + [record]) && SandboxOwned(child, log + [record])
  }

  /** One open session; child tells whether its header names a parent. */
  class Log {
    const child: bool
    var records: seq<Record>

    ghost predicate Valid() reads this { Order.Valid(records) }

    /** Opens a created session on a seed, or refuses an inconsistent one. */
    constructor (child: bool, seed: seq<Record>)
      requires Order.ValidClosed(seed)
      ensures Valid() && records == seed && this.child == child
    {
      this.child, this.records := child, seed;
    }

    method Append(record: Record) returns (ok: bool)
      requires Valid()
      modifies this
      ensures Valid()
      ensures ok <==> Accepts(child, old(records), record)
      ensures records == if ok then old(records) + [record] else old(records)
    {
      if !WellFormed(record) {
        ValidSnoc(records, record);
        return false;
      }
      ValidSnoc(records, record);
      var candidate := records + [record];
      var state := ValidateOrder(candidate, false);
      if state.None? || !SandboxOwned(child, candidate) {
        return false;
      }
      records := candidate;
      return true;
    }

    /** records has done repair records of before appended, and rest remains planned. */
    ghost predicate Repairing(before: seq<Record>, done: nat, rest: seq<Record>)
      reads this
    {
      && Order.Valid(before) && SandboxOwned(child, before)
      && var repair := RepairRecords(StateOf(before));
      && done <= |repair| && records == before + repair[..done] && repair[done..] == rest
    }

    /** One append of repairInterrupted: the next planned record is always accepted. */
    method AppendNext(record: Record, ghost before: seq<Record>, ghost done: nat, ghost rest: seq<Record>)
      returns (ok: bool)
      requires Valid() && Repairing(before, done, rest) && rest != [] && rest[0] == record
      modifies this
      ensures ok && Valid() && Repairing(before, done + 1, rest[1..])
    {
      RepairAppends(child, before, done);
      hide Order.Valid, SandboxOwned, Plan;
      ok := Append(record);
    }

    lemma RepairStarts(before: seq<Record>)
      requires Order.Valid(before) && SandboxOwned(child, before) && records == before
      ensures Repairing(before, 0, RepairRecords(StateOf(before)))
    {}

    lemma RepairDone(before: seq<Record>, done: nat)
      requires Repairing(before, done, [])
      ensures Order.Valid(before) && records == Repaired(before)
    {
      var repair := RepairRecords(StateOf(before));
      assert repair == repair[..done] + repair[done..];
    }

    /** The loop over the open questions: each is cancelled. */
    method CancelQuestions(at: Place, approvals: seq<string>, ghost calls: seq<string>, ghost before: seq<Record>)
      returns (ghost done: nat)
      requires Valid() && Repairing(before, 0, Plan(at, approvals, calls))
      modifies this
      ensures Valid() && Repairing(before, done, Plan(at, [], calls))
    {
      hide Order.Valid, SandboxOwned, Plan, Repairing;
      done := 0;
      assert approvals[0..] == approvals;
      for i := 0 to |approvals|
        invariant Valid() && Repairing(before, done, Plan(at, approvals[i..], calls))
      {
        PlanUnfolds(at, approvals[i..], calls);
        var ok := AppendNext(ApprovalDecided(at.turn, at.step, approvals[i]), before, done, Plan(at, approvals[i..], calls));
        done := done + 1;
        assert approvals[i..][1..] == approvals[i + 1..];
      }
      assert approvals[|approvals|..] == [];
    }

    /** The loop over the calls without a result: each may have run and gets an error result. */
    method InterruptCalls(at: Place, calls: seq<string>, ghost before: seq<Record>, ghost from: nat)
      returns (ghost done: nat)
      requires Valid() && Repairing(before, from, Plan(at, [], calls))
      modifies this
      ensures Valid() && Repairing(before, done, Plan(at, [], []))
    {
      hide Order.Valid, SandboxOwned, Plan, Repairing;
      done := from;
      assert calls[0..] == calls;
      for i := 0 to |calls|
        invariant Valid() && Repairing(before, done, Plan(at, [], calls[i..]))
      {
        PlanUnfolds(at, [], calls[i..]);
        var ok := AppendNext(CallResult(at.turn, at.step, InterruptedToolResult(calls[i])), before, done, Plan(at, [], calls[i..]));
        done := done + 1;
        assert calls[i..][1..] == calls[i + 1..];
      }
      assert calls[|calls|..] == [];
    }

    /** Closes an interrupted tail: questions, calls, compaction, step, turn, in that order. */
    method RepairInterrupted()
      requires Valid() && SandboxOwned(child, records)
      modifies this
      ensures Valid() && ValidClosed(records)
      ensures records == Repaired(old(records))
    {
      ghost var before := records;
      var result := ValidateOrder(records, false);
      var at, approvals, calls := result.value.at, result.value.work.approvals, result.value.work.calls;
      RepairCloses(child, before);
      RepairStarts(before);
      if at.turn == 0 && at.compaction == "" {
        StatesOfValid(before);
        NothingToRepair(result.value);
        return;
      }
      hide Order.Valid, SandboxOwned, Plan, Repairing, Repaired;
      ghost var done := CancelQuestions(at, approvals, calls, before);
      done := InterruptCalls(at, calls, before, done);
      CloseTail(at, before, done);
    }

    method CloseTail(at: Place, ghost before: seq<Record>, ghost from: nat)
      requires Valid() && Repairing(before, from, Plan(at, [], []))
      modifies this
      ensures Valid() && Order.Valid(before) && records == Repaired(before)
    {
      hide Order.Valid, SandboxOwned, Plan, Repairing, Repaired;
      ghost var done := from;
      PlanUnfolds(at, [], []);
      if at.compaction != "" {
        var ok := AppendNext(CompactionEnd(at.turn, at.compaction, "interrupted"), before, done, Plan(at, [], []));
        done := done + 1;
      }
      ghost var at1 := at.(compaction := "");
      PlanUnfolds(at1, [], []);
      if at.step != 0 {
        var ok := AppendNext(StepEnd(at.turn, at.step), before, done, Plan(at1, [], []));
        done := done + 1;
      }
      ghost var at2 := at1.(step := 0);
      PlanUnfolds(at2, [], []);
      if at.turn != 0 {
        var ok := AppendNext(TurnEnd(at.turn, Interrupted), before, done, Plan(at2, [], []));
        done := done + 1;
      }
      PlanUnfolds(at2.(turn := 0), [], []);
      RepairDone(before, done);
    }
  }

  // ----- repair -----

  function InterruptedToolResult(callId: string): ToolResult {
    ToolResult(callId, "Error: interrupted before a result was committed", true, None)
  }

  /** What repair still has to append with these questions and calls open. */
  function Plan(at: Place, approvals: seq<string>, calls: seq<string>): seq<Record>
    decreases |approvals| + |calls|, at.compaction != "", at.step != 0, at.turn != 0
  {
    if approvals != [] then
      [ApprovalDecided(at.turn, at.step, approvals[0])] + Plan(at, approvals[1..], calls)
    else if calls != [] then
      [CallResult(at.turn, at.step, InterruptedToolResult(calls[0]))] + Plan(at, [], calls[1..])
    else if at.compaction != "" then
      [CompactionEnd(at.turn, at.compaction, "interrupted")] + Plan(at.(compaction := ""), [], [])
    else if at.step != 0 then
      [StepEnd(at.turn, at.step)] + Plan(at.(step := 0), [], [])
    else if at.turn != 0 then
      [TurnEnd(at.turn, Interrupted)] + Plan(at.(turn := 0), [], [])
    else []
  }

  /** The first planned record, and the plan after it. */
  lemma PlanUnfolds(at: Place, approvals: seq<string>, calls: seq<string>)
    ensures var plan := Plan(at, approvals, calls);
      if approvals != [] then
        plan != [] && plan[0] == ApprovalDecided(at.turn, at.step, approvals[0]) && plan[1..] == Plan(at, approvals[1..], calls)
      else if calls != [] then
        plan != [] && plan[0] == CallResult(at.turn, at.step, InterruptedToolResult(calls[0]))
        && plan[1..] == Plan(at, [], calls[1..])
      else if at.compaction != "" then
        plan != [] && plan[0] == CompactionEnd(at.turn, at.compaction, "interrupted")
        && plan[1..] == Plan(at.(compaction := ""), [], [])
      else if at.step != 0 then
        plan != [] && plan[0] == StepEnd(at.turn, at.step) && plan[1..] == Plan(at.(step := 0), [], [])
      else if at.turn != 0 then
        plan != [] && plan[0] == TurnEnd(at.turn, Interrupted) && plan[1..] == Plan(at.(turn := 0), [], [])
      else plan == []
  {}

  function RepairRecords(s: State): seq<Record> { Plan(s.at, s.work.approvals, s.work.calls) }

  ghost function Repaired(log: seq<Record>): seq<Record>
    requires Order.Valid(log)
  {
    log + RepairRecords(StateOf(log))
  }

  /** This record is accepted, leaves this plan, and replaces nothing visible. */
  ghost predicate Repairs(log: seq<Record>, s: State, first: Record, rest: seq<Record>) {
    && WellFormed(first) && Step(log, s, first).Some?
    && RepairRecords(Step(log, s, first).value) == rest
    && !first.SandboxMode? && !first.SubagentDescriptor? && !first.CompactionSummary? && !first.CompactionPrune?
  }

  lemma CancelStep(log: seq<Record>, s: State)
    requires Inv(s) && s.work.approvals != []
    ensures Repairs(log, s, ApprovalDecided(s.at.turn, s.at.step, s.work.approvals[0]),
                    Plan(s.at, s.work.approvals[1..], s.work.calls))
  {
    var id := s.work.approvals[0];
    assert id in s.work.approvals && id in s.work.approvalCalls && id != "" && s.at.step != 0 && s.at.turn != 0;
    hide Plan, Inv, PlaceInv, CallInv, ApprovalInv, NoticeInv;
  }

  lemma InterruptedFacts(id: string)
    ensures var result := InterruptedToolResult(id); result.callId == id && result.isError && result.metaTool.None?
  {}

  lemma ErrorResultStep(log: seq<Record>, s: State, result: ToolResult)
    requires s.at.turn != 0 && s.at.step != 0 && s.work.calls != [] && s.work.approvals == [] && s.work.approvalCalls == map[]
    requires s.work.calls[0] == result.callId && result.callId in s.work.pendingCalls && result.callId != ""
    requires result.isError && result.metaTool.None?
    ensures var record := CallResult(s.at.turn, s.at.step, result);
      && WellFormed(record) && Step(log, s, record).Some?
      && var next := Step(log, s, record).value;
      && next.at == s.at && next.work.approvals == [] && next.work.calls == s.work.calls[1..]
  {}

  lemma InterruptStep(log: seq<Record>, s: State)
    requires Inv(s) && s.work.approvals == [] && s.work.calls != []
    ensures Repairs(log, s, CallResult(s.at.turn, s.at.step, InterruptedToolResult(s.work.calls[0])),
                    Plan(s.at, [], s.work.calls[1..]))
  {
    var id := s.work.calls[0];
    assert id in s.work.calls && id in s.work.pendingCalls && id != "" && s.at.step != 0 && s.at.turn != 0;
    assert forall other :: other in s.work.approvalCalls ==> other in s.work.approvals;
    assert s.work.approvalCalls == map[];
    InterruptedFacts(id);
    hide Inv, PlaceInv, CallInv, ApprovalInv, NoticeInv, InterruptedToolResult, Step, WellFormed, Plan;
    ErrorResultStep(log, s, InterruptedToolResult(id));
  }

  lemma CloseStep(log: seq<Record>, s: State)
    requires Inv(s) && s.work.approvals == [] && s.work.calls == []
    ensures s.at.compaction != "" ==>
      Repairs(log, s, CompactionEnd(s.at.turn, s.at.compaction, "interrupted"), Plan(s.at.(compaction := ""), [], []))
    ensures s.at.compaction == "" && s.at.step != 0 ==>
      Repairs(log, s, StepEnd(s.at.turn, s.at.step), Plan(s.at.(step := 0), [], []))
    ensures s.at.compaction == "" && s.at.step == 0 && s.at.turn != 0 ==>
      Repairs(log, s, TurnEnd(s.at.turn, Interrupted), Plan(s.at.(turn := 0), [], []))
  {
    hide Plan;
  }

  /** The first repair record is accepted and leaves exactly the others to append. */
  lemma RepairStep(log: seq<Record>, s: State)
    requires Inv(s) && RepairRecords(s) != []
    ensures Repairs(log, s, RepairRecords(s)[0], RepairRecords(s)[1..])
  {
    PlanUnfolds(s.at, s.work.approvals, s.work.calls);
    hide Plan, Inv, Repairs;
    if s.work.approvals != [] {
      CancelStep(log, s);
    } else if s.work.calls != [] {
      InterruptStep(log, s);
    } else {
      CloseStep(log, s);
    }
  }

  lemma OwnershipKept(child: bool, log: seq<Record>, record: Record)
    requires Order.Valid(log + [record]) && !record.SandboxMode? && !record.SubagentDescriptor?
    requires Fold(log).Some? && SandboxOwned(child, log)
    ensures SandboxOwned(child, log + [record])
  {
    assert (log + [record])[..|log|] == log;
  }

  /** Stopping after any number of repair records leaves the rest to append. */
  lemma {:induction false} RepairPrefix(child: bool, log: seq<Record>, n: nat)
    requires Order.Valid(log) && SandboxOwned(child, log)
    requires n <= |RepairRecords(StateOf(log))|
    ensures var repair := RepairRecords(StateOf(log));
      && Order.Valid(log + repair[..n])
      && SandboxOwned(child, log + repair[..n])
      && RepairRecords(StateOf(log + repair[..n])) == repair[n..]
    decreases n
  {
    hide Lifecycle, Step, WellFormed, Surfaces.Visible, Order.Valid, Plan, SandboxOwned;
    var repair := RepairRecords(StateOf(log));
    if n == 0 {
      assert log + repair[..0] == log;
    } else {
      RepairPrefix(child, log, n - 1);
      var sofar := log + repair[..n - 1];
      assert Order.Valid(sofar);
      StatesOfValid(sofar);
      RepairStep(sofar, StateOf(sofar));
      assert repair[n - 1..][0] == repair[n - 1];
      SnocVisible(sofar, repair[n - 1]);
      OwnershipKept(child, sofar, repair[n - 1]);
      assert log + repair[..n] == sofar + [repair[n - 1]];
    }
  }

  lemma StatesOfValid(log: seq<Record>)
    requires Order.Valid(log)
    ensures Inv(StateOf(log))
  {
    InvHolds(log);
  }

  /** Acceptance by the order rules suffices for records that replace nothing visible. */
  lemma SnocVisible(log: seq<Record>, record: Record)
    requires Order.Valid(log) && WellFormed(record) && Step(log, StateOf(log), record).Some?
    requires !record.CompactionSummary? && !record.CompactionPrune?
    ensures Order.Valid(log + [record])
    ensures StateOf(log + [record]) == Step(log, StateOf(log), record).value
  {
    hide Lifecycle, Step, WellFormed;
    ValidSnoc(log, record);
  }

  /** Each record repair appends is accepted where it is appended. */
  lemma RepairAppends(child: bool, log: seq<Record>, n: nat)
    requires Order.Valid(log) && SandboxOwned(child, log)
    requires n < |RepairRecords(StateOf(log))|
    ensures var repair := RepairRecords(StateOf(log));
      Accepts(child, log + repair[..n], repair[n])
  {
    var repair := RepairRecords(StateOf(log));
    RepairPrefix(child, log, n + 1);
    assert log + repair[..n + 1] == log + repair[..n] + [repair[n]];
  }

  /** Repair has nothing to do exactly on a closed log. */
  lemma NothingToRepair(s: State)
    requires Inv(s)
    ensures RepairRecords(s) == [] <==> s.Closed()
  {
    PlanUnfolds(s.at, s.work.approvals, s.work.calls);
  }

  /** A repaired log passes the closed check, and a second repair appends nothing. */
  lemma RepairCloses(child: bool, log: seq<Record>)
    requires Order.Valid(log) && SandboxOwned(child, log)
    ensures ValidClosed(Repaired(log)) && SandboxOwned(child, Repaired(log))
    ensures Repaired(Repaired(log)) == Repaired(log)
  {
    var repair := RepairRecords(StateOf(log));
    RepairPrefix(child, log, |repair|);
    assert repair[..|repair|] == repair;
    StatesOfValid(Repaired(log));
    NothingToRepair(StateOf(Repaired(log)));
  }

  /** A crash after any repair record is itself repaired to the same closed log. */
  lemma RepairSurvivesCrash(child: bool, log: seq<Record>, n: nat)
    requires Order.Valid(log) && SandboxOwned(child, log)
    requires n <= |RepairRecords(StateOf(log))|
    ensures var stopped := log + RepairRecords(StateOf(log))[..n];
      Order.Valid(stopped) && Repaired(stopped) == Repaired(log)
  {
    hide Order.Valid, Plan, SandboxOwned;
    var repair := RepairRecords(StateOf(log));
    RepairPrefix(child, log, n);
    assert repair == repair[..n] + repair[n..];
  }
}
