/**
  Scans of the log the turn engine makes on its own, nextTurn and unresolved
  (internal/app/agent/engine.go), and their agreement with the validator on every
  valid log.
 */
module Scans {
  import opened Records
  import opened Order
  import opened OrderFacts
  import Surfaces

  // ----- nextTurn -----

  function LastTurn(log: seq<Record>): nat {
    if log == [] then 0
    else
      var before, last := LastTurn(log[..|log| - 1]), log[|log| - 1];
      if last.TurnStart? && last.turn > before then last.turn else before
  }

  method NextTurn(log: seq<Record>) returns (turn: nat)
    ensures turn == LastTurn(log) + 1
  {
    var highest := 0;
    for i := 0 to |log|
      invariant highest == LastTurn(log[..i])
    {
      assert log[..i + 1][..i] == log[..i];
      if log[i].TurnStart? && log[i].turn > highest {
        highest := log[i].turn;
      }
    }
    assert log[..|log|] == log;
    turn := highest + 1;
  }

  /** The turn the engine opens next is the only one the validator accepts next. */
  lemma {:induction false} NextTurnAgrees(log: seq<Record>)
    requires Valid(log)
    ensures LastTurn(log) == StateOf(log).at.lastTurn
  {
    if log != [] {
      var front, last := log[..|log| - 1], log[|log| - 1];
      hide Valid, Step, Lifecycle;
      ValidLast(log);
      NextTurnAgrees(front);
      LastTurnStep(front, StateOf(front), last);
    }
  }

  lemma LastTurnStep(log: seq<Record>, s: State, record: Record)
    requires Step(log, s, record).Some?
    ensures Step(log, s, record).value.at.lastTurn
         == if record.TurnStart? && record.turn > s.at.lastTurn then record.turn else s.at.lastTurn
  {}

  // ----- unresolved -----

  function Without(values: seq<string>, target: string): seq<string> {
    if values == [] then []
    else (if values[0] == target then [] else [values[0]]) + Without(values[1..], target)
  }

  datatype Open = Open(approvals: seq<string>, calls: seq<string>)

  function UnresolvedStep(before: Open, record: Record): Open {
    match record
    case ApprovalAsked(_, _, id, _, _) => before.(approvals := before.approvals + [id])
    case ApprovalDecided(_, _, id) => before.(approvals := Without(before.approvals, id))
    case CallMade(_, _, call) => before.(calls := before.calls + [call.id])
    case CallResult(_, _, result) => before.(calls := Without(before.calls, result.callId))
    case _ => before
  }

  function Unresolved(log: seq<Record>): Open {
    if log == [] then Open([], []) else UnresolvedStep(Unresolved(log[..|log| - 1]), log[|log| - 1])
  }

  method FindUnresolved(log: seq<Record>) returns (approvals: seq<string>, calls: seq<string>)
    ensures Open(approvals, calls) == Unresolved(log)
  {
    approvals, calls := [], [];
    for i := 0 to |log|
      invariant Open(approvals, calls) == Unresolved(log[..i])
    {
      assert log[..i + 1][..i] == log[..i];
      match log[i] {
        case ApprovalAsked(_, _, id, _, _) => approvals := approvals + [id];
        case ApprovalDecided(_, _, id) => approvals := Without(approvals, id);
        case CallMade(_, _, call) => calls := calls + [call.id];
        case CallResult(_, _, result) => calls := Without(calls, result.callId);
        case _ =>
      }
    }
    assert log[..|log|] == log;
  }

  lemma {:induction false} WithoutIsRemove(values: seq<string>, target: string)
    requires NoDup(values)
    ensures Without(values, target) == Remove(values, target)
  {
    if values != [] {
      WithoutIsRemove(values[1..], target);
      if values[0] == target {
        RemoveAbsent(values[1..], target);
      }
    }
  }

  lemma {:induction false} RemoveAbsent(values: seq<string>, target: string)
    requires target !in values
    ensures Remove(values, target) == values
  {
    if values != [] {
      RemoveAbsent(values[1..], target);
    }
  }

  lemma UnresolvedStepAgrees(log: seq<Record>, s: State, record: Record)
    requires NoDup(s.work.calls) && NoDup(s.work.approvals) && Lifecycle(log, s, record).Some?
    ensures var next := Lifecycle(log, s, record).value.work;
      Open(next.approvals, next.calls) == UnresolvedStep(Open(s.work.approvals, s.work.calls), record)
  {
    match record {
      case ApprovalDecided(_, _, id) => WithoutIsRemove(s.work.approvals, id);
      case CallResult(_, _, result) => WithoutIsRemove(s.work.calls, result.callId);
      case ApprovalAsked(_, _, _, _, _) =>
      case CallMade(_, _, _) =>
      case _ =>
        OtherWork(log, s, record);
        hide Lifecycle;
    }
  }

  /** The engine's scan of a valid log is the validator's ordered bookkeeping. */
  lemma {:induction false} UnresolvedAgrees(log: seq<Record>)
    requires Valid(log)
    ensures Unresolved(log) == Open(StateOf(log).work.approvals, StateOf(log).work.calls)
  {
    if log == [] {
      assert StateOf(log) == INIT;
    } else {
      var front, last := log[..|log| - 1], log[|log| - 1];
      hide Valid, StateOf, Step, Lifecycle, UnresolvedStep;
      ValidLast(log);
      UnresolvedAgrees(front);
      GoalsOnly(front, StateOf(front), last);
      UnresolvedStepAgrees(front, StateOf(front).(goals := StateOf(log).goals), last);
    }
  }

  /** The lifecycle rules run on the folded goals and do not change them. */
  lemma GoalsOnly(log: seq<Record>, s: State, record: Record)
    requires Step(log, s, record).Some?
    ensures Step(log, s, record) == Lifecycle(log, s.(goals := Step(log, s, record).value.goals), record)
  {}

  lemma WithoutFirst(values: seq<string>, i: nat)
    requires NoDup(values) && i < |values|
    ensures values[i] in values[i..] && Without(values[i..], values[i]) == values[i + 1..]
  {
    assert values[i..] == [values[i]] + values[i + 1..];
    assert forall j :: i < j < |values| ==> values[j] != values[i];
    assert values[i] !in values[i + 1..];
    WithoutAbsent(values[i + 1..], values[i]);
    assert values[i..][1..] == values[i + 1..];
  }

  lemma {:induction false} WithoutAbsent(values: seq<string>, target: string)
    requires target !in values
    ensures Without(values, target) == values
  {
    if values != [] {
      WithoutAbsent(values[1..], target);
    }
  }
}
