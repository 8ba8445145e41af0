/**
  What the goal fold guarantees of every accepted history: rounds and revisions of
  each goal count up from one without gap or repeat, and no goal ID comes back.
 */
module GoalFacts {
  import opened Records
  import opened Goals
  import Order
  import OrderFacts

  /** 1, 2, ..., k. */
  function UpTo(k: nat): (numbers: seq<nat>)
    ensures |numbers| == k
  {
    if k == 0 then [] else UpTo(k - 1) + [k]
  }

  /** The rounds of this goal the history admitted, in order. */
  function Rounds(events: seq<Record>, id: string): seq<nat> {
    if events == [] then []
    else
      var last := events[|events| - 1];
      Rounds(events[..|events| - 1], id)
      + if last.UserMessage? && last.message.source.kind == GOAL_SOURCE && last.message.source.goalId == id
        then [last.message.source.goalRound] else []
  }

  function ChangeRef(change: GoalChange): GoalRef {
    match change
    case Clear(cleared, _) => cleared
    case Change(_, snapshot, _, _, _) => snapshot.Ref()
  }

  /** The revisions of this goal the history recorded, the clearing one included. */
  function Revisions(events: seq<Record>, id: string): seq<nat> {
    if events == [] then []
    else
      var last := events[|events| - 1];
      Revisions(events[..|events| - 1], id)
      + if last.GoalChanged? && ChangeRef(last.change).id == id then [ChangeRef(last.change).revision] else []
  }

  /** The whole recorded history of one goal, and where the current goal stands in it. */
  lemma {:induction false} GoalHistory(events: seq<Record>, id: string)
    requires Project(events).Some?
    ensures Rounds(events, id) == UpTo(|Rounds(events, id)|)
    ensures Revisions(events, id) == UpTo(|Revisions(events, id)|)
    ensures var s := Project(events).value;
      && (id !in s.seen ==> Rounds(events, id) == [] && Revisions(events, id) == [])
      && (s.goal.Some? && s.goal.value.id == id ==>
            && id in s.seen && |Rounds(events, id)| == s.roundsStarted
            && |Revisions(events, id)| == s.goal.value.revision)
  {
    if events != [] {
      var front, last := events[..|events| - 1], events[|events| - 1];
      GoalHistory(front, id);
      HistoryStep(Project(front).value, last, id, Rounds(front, id), Revisions(front, id));
    }
  }

  lemma HistoryStep(s: GoalState, record: Record, id: string, rounds: seq<nat>, revisions: seq<nat>)
    requires Apply(s, record).Some?
    requires rounds == UpTo(|rounds|) && revisions == UpTo(|revisions|)
    requires id !in s.seen ==> rounds == [] && revisions == []
    requires s.goal.Some? && s.goal.value.id == id ==>
      id in s.seen && |rounds| == s.roundsStarted && |revisions| == s.goal.value.revision
    ensures var t := Apply(s, record).value;
      var rounds' := rounds + if record.UserMessage? && record.message.source.kind == GOAL_SOURCE && record.message.source.goalId == id
                              then [record.message.source.goalRound] else [];
      var revisions' := revisions + if record.GoalChanged? && ChangeRef(record.change).id == id
                                    then [ChangeRef(record.change).revision] else [];
      && rounds' == UpTo(|rounds'|) && revisions' == UpTo(|revisions'|)
      && (id !in t.seen ==> rounds' == [] && revisions' == [])
      && (t.goal.Some? && t.goal.value.id == id ==>
            id in t.seen && |rounds'| == t.roundsStarted && |revisions'| == t.goal.value.revision)
  {}

  lemma {:induction false} UpToAt(k: nat, i: nat)
    requires i < k
    ensures UpTo(k)[i] == i + 1
  {
    if i < k - 1 {
      UpToAt(k - 1, i);
    }
  }

  predicate Creates(record: Record) {
    record.GoalChanged? && record.change.Change? && record.change.operation == OpCreate
  }

  lemma {:induction false} CreatedIsSeen(events: seq<Record>, i: nat)
    requires Project(events).Some? && i < |events| && Creates(events[i])
    ensures events[i].change.snapshot.id in Project(events).value.seen
  {
    var front := events[..|events| - 1];
    if i < |front| {
      CreatedIsSeen(front, i);
    }
  }

  lemma {:induction false} ProjectPrefix(events: seq<Record>, n: nat)
    requires Project(events).Some? && n <= |events|
    ensures Project(events[..n]).Some?
    decreases |events|
  {
    if n == |events| {
      assert events[..n] == events;
    } else {
      assert events[..|events| - 1][..n] == events[..n];
      ProjectPrefix(events[..|events| - 1], n);
    }
  }

  /** Two creates never share a goal ID. */
  lemma IdsNeverReused(events: seq<Record>, i: nat, j: nat)
    requires Project(events).Some? && i < j < |events| && Creates(events[i]) && Creates(events[j])
    ensures events[i].change.snapshot.id != events[j].change.snapshot.id
  {
    ProjectPrefix(events, j);
    ProjectPrefix(events, j + 1);
    assert events[..j + 1][..j] == events[..j];
    CreatedIsSeen(events[..j], i);
  }

  /** Round numbers and revisions of one goal occur once each, so a goal has a single round k. */
  lemma RoundsNumbered(events: seq<Record>, id: string, i: nat)
    requires Project(events).Some? && i < |Rounds(events, id)|
    ensures Rounds(events, id)[i] == i + 1
  {
    GoalHistory(events, id);
    UpToAt(|Rounds(events, id)|, i);
  }

  /** The validator's goal state is the projection of the whole log. */
  lemma {:induction false} FoldGoals(log: seq<Record>)
    requires Order.Fold(log).Some?
    ensures Project(log) == Some(Order.Fold(log).value.goals)
  {
    if log != [] {
      FoldGoals(log[..|log| - 1]);
      SameGoals(log[..|log| - 1], Order.Fold(log[..|log| - 1]).value, log[|log| - 1]);
    }
  }

  lemma SameGoals(log: seq<Record>, s: Order.State, record: Record)
    requires Order.Step(log, s, record).Some?
    ensures Apply(s.goals, record) == Some(Order.Step(log, s, record).value.goals)
  {}

  // ----- well-formed states -----

  /** The current goal is one the schema allows. */
  ghost predicate Sound(s: GoalState) {
    s.goal.Some? ==>
      && var g := s.goal.value;
      && g.id != "" && g.id in s.seen && g.revision > 0 && g.objective != ""
      && 0 < g.maxRounds <= MAX_GOAL_ROUNDS && (g.blockedReason.Some? <==> g.phase == Blocked)
      && 0 < s.createdAt <= s.updatedAt
  }

  lemma {:induction false} ProjectSound(events: seq<Record>)
    requires AllWellFormed(events) && Project(events).Some?
    ensures Sound(Project(events).value)
  {
    if events != [] {
      ProjectSound(events[..|events| - 1]);
      assert WellFormed(events[|events| - 1]);
    }
  }
}
