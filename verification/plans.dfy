/**
  What a session's own records say of plan mode (internal/core/session/plan.go)
  and its agreement with the plan mode the order automaton tracks over the whole log.
 */
module Plans {
  import opened Records
  import opened Order
  import opened OrderFacts
  import opened Journal
  import opened Standing
  import Forks
  import Surfaces

  /** The recorded mode, and what the latest request told the model. */
  datatype PlanView = PlanView(active: bool, requested: bool, told: bool)

  const NO_PLAN := PlanView(false, false, false)

  function PlanStep(before: PlanView, record: Record): PlanView {
    match record
    case PlanMode(_, active) => before.(active := active)
    case RequestHeader(_, _) => before.(requested := true, told := before.active)
    case _ => before
  }

  function Project(own: seq<Record>): PlanView {
    if own == [] then NO_PLAN else PlanStep(Project(own[..|own| - 1]), own[|own| - 1])
  }

  // ----- the projection over the indices of the events -----

  /** Event h is the latest request. */
  ghost predicate LatestRequest(own: seq<Record>, h: nat) {
    h < |own| && own[h].RequestHeader? && forall j :: h < j < |own| ==> !own[j].RequestHeader?
  }

  /** The mode recorded last before event h, which is outside plan mode when none was. */
  ghost predicate PlanningAt(own: seq<Record>, h: nat)
    requires h <= |own|
  {
    Holds(own[..h], LatestMode(true))
  }

  /** The latest request was made in the other mode. */
  ghost predicate ToldOther(own: seq<Record>, mode: bool) {
    exists h: nat :: LatestRequest(own, h) && PlanningAt(own, h) != mode
  }

  lemma LatestRequestSnoc(own: seq<Record>, record: Record, h: nat)
    ensures LatestRequest(own + [record], h) <==>
            if record.RequestHeader? then h == |own| else LatestRequest(own, h)
  {
    var next := own + [record];
    assert next[|own|] == record && forall j :: 0 <= j < |own| ==> next[j] == own[j];
    if LatestRequest(next, h) && h < |own| {
      assert !next[|own|].RequestHeader?;
    }
  }

  lemma {:induction false} OneLatestRequest(own: seq<Record>, h: nat, k: nat)
    requires LatestRequest(own, h) && LatestRequest(own, k)
    ensures h == k
  {}

  /**
    What the projection says of a session's own events: the mode recorded last; whether any
    request was made; and, once one was, whether plan mode was on as the last one was made.
   */
  lemma {:induction false} ProjectIs(own: seq<Record>)
    ensures var view := Project(own);
      && (view.active <==> Holds(own, LatestMode(true)))
      && (view.requested <==> exists h: nat :: LatestRequest(own, h))
      && (view.told <==> exists h: nat :: LatestRequest(own, h) && PlanningAt(own, h))
  {
    if own != [] {
      var n := |own| - 1;
      var front, last := own[..n], own[n];
      assert own == front + [last];
      hide Holds, Begins, Ends, LatestRequest;
      ProjectIs(front);
      HoldsSnoc(front, last, LatestMode(true));
      ModeFact(last);
      forall h: nat ensures LatestRequest(own, h) <==> if last.RequestHeader? then h == n else LatestRequest(front, h) {
        LatestRequestSnoc(front, last, h);
      }
      forall h: nat | LatestRequest(front, h) ensures h < n && PlanningAt(own, h) == PlanningAt(front, h) {
        RequestInRange(front, h);
        assert own[..h] == front[..h];
      }
      if last.RequestHeader? {
        assert LatestRequest(own, n);
      }
    } else {
      NoRequest();
    }
  }

  lemma ModeFact(record: Record)
    ensures Begins(LatestMode(true), record) <==> record.PlanMode? && record.active
    ensures Ends(LatestMode(true), record) <==> record.PlanMode?
  {}

  lemma RequestInRange(own: seq<Record>, h: nat)
    requires LatestRequest(own, h)
    ensures h < |own|
  {}

  lemma NoRequest()
    ensures !Holds([], LatestMode(true)) && forall h: nat :: !LatestRequest([], h)
  {}

  /** So the mode the model was told differs exactly when the latest request was made in the other mode. */
  lemma ToldOtherIs(own: seq<Record>, mode: bool)
    ensures ToldOther(own, mode) <==> Project(own).requested && Project(own).told != mode
  {
    ProjectIs(own);
    hide Project, PlanningAt, LatestRequest;
    if h: nat :| LatestRequest(own, h) {
      forall k: nat | LatestRequest(own, k) ensures k == h {
        OneLatestRequest(own, h, k);
      }
    }
  }

  method ProjectPlan(log: seq<Record>) returns (view: PlanView)
    requires Fold(log).Some?
    ensures view == Project(OwnEvents(log))
  {
    var own := FindOwnEvents(log);
    view := NO_PLAN;
    for i := 0 to |own|
      invariant view == Project(own[..i])
    {
      assert own[..i + 1][..i] == own[..i];
      match own[i] {
        case PlanMode(_, active) => view := view.(active := active);
        case RequestHeader(_, _) => view := view.(requested := true, told := view.active);
        case _ =>
      }
    }
    assert own[..|own|] == own;
  }

  /** A record extends what the session owns; a descriptor starts it over. */
  lemma ProjectSnoc(log: seq<Record>, record: Record)
    requires Order.Valid(log + [record])
    ensures Fold(log).Some?
    ensures Project(OwnEvents(log + [record]))
         == if record.SubagentDescriptor? then NO_PLAN else PlanStep(Project(OwnEvents(log)), record)
  {
    hide Step, WellFormed, AllWellFormed, Surfaces.Visible;
    ValidSnoc(log, record);
    var next := log + [record];
    assert next[..|log|] == log;
    if record.SubagentDescriptor? {
      DescriptorHere(log, record);
      assert next[|log|..] == [record];
      assert Project([record]) == PlanStep(Project([]), record);
    } else {
      var from := Inherited(log);
      assert next[from..] == log[from..] + [record];
      var own := log[from..] + [record];
      assert own[..|own| - 1] == log[from..] && own[|own| - 1] == record;
    }
  }

  lemma DescriptorHere(log: seq<Record>, record: Record)
    requires Order.Valid(log + [record]) && record.SubagentDescriptor?
    ensures record.inherited == |log|
  {
    ValidSnoc(log, record);
  }

  ghost predicate Planned(own: seq<Record>) {
    exists i :: 0 <= i < |own| && own[i].PlanMode?
  }

  lemma PlanAfter(log: seq<Record>, s: State, record: Record)
    requires Step(log, s, record).Some?
    ensures Step(log, s, record).value.at.plan == if record.PlanMode? then record.active else s.at.plan
  {}

  /** The validator's mode is the latest record's after position n, or else the mode at n. */
  lemma {:induction false} ModeSince(log: seq<Record>, n: nat)
    requires Order.Valid(log) && n <= |log|
    ensures Order.Valid(log[..n])
    ensures StateOf(log).at.plan == if Planned(log[n..]) then Project(log[n..]).active else StateOf(log[..n]).at.plan
    ensures !Planned(log[n..]) ==> !Project(log[n..]).active
    decreases |log|
  {
    hide Step, Order.Valid;
    ValidPrefix(log, n);
    if n == |log| {
      assert log[..n] == log && log[n..] == [];
    } else {
      var front, last := log[..|log| - 1], log[|log| - 1];
      ValidLast(log);
      ModeSince(front, n);
      PlanAfter(front, StateOf(front), last);
      assert front[..n] == log[..n];
      var own := log[n..];
      assert own[..|own| - 1] == front[n..] && own[|own| - 1] == last;
      assert forall i :: 0 <= i < |front[n..]| ==> own[i] == front[n..][i];
    }
  }

  /**
    The session's own projection and the validator's mode agree exactly when the session
    has recorded a mode itself or inherited a prefix outside plan mode; always without one.
   */
  lemma ModesAgree(log: seq<Record>)
    requires Order.Valid(log)
    ensures var n := Inherited(log);
      && Order.Valid(log[..n])
      && (Project(OwnEvents(log)).active == StateOf(log).at.plan
          <==> Planned(OwnEvents(log)) || !StateOf(log[..n]).at.plan)
    ensures Inherited(log) == 0 ==> Project(OwnEvents(log)).active == StateOf(log).at.plan
  {
    ModeSince(log, Inherited(log));
    assert log[..0] == [];
  }

  /**
    A child forked from completed turns that end in plan mode: its own view is outside plan
    mode, yet the validator refuses the record that would enter it, whatever the parent.
   */
  lemma InheritedModeRefused(parent: seq<Record>, sandbox: bool)
    requires Order.Valid(parent)
    ensures var seed := Forks.CompletedTurns(parent);
      var log := seed + Forks.Opening(seed, Fork, sandbox);
      && ValidClosed(seed) && ValidClosed(log) && !Project(OwnEvents(log)).active
      && (StateOf(seed).at.plan <==> Project(OwnEvents(log)).active != StateOf(log).at.plan)
      && (StateOf(seed).at.plan <==> !Order.Valid(log + [PlanMode(0, true)]))
  {
    var seed := Forks.CompletedTurns(parent);
    var opening := Forks.Opening(seed, Fork, sandbox);
    var log := seed + opening;
    Forks.CompletedTurnsIsSeed(parent);
    Forks.ForkOwnsItsOpening(parent, sandbox);
    NoPlanIn(opening);
    ModeSince(log, |seed|);
    assert log[..|seed|] == seed && log[|seed|..] == opening;
    InvHolds(log);
    EnteringPlan(log, StateOf(log));
    hide Step, WellFormed, AllWellFormed, Fold, Forks.CompletedTurns, Forks.Opening, Surfaces.Surface;
    ValidSnoc(log, PlanMode(0, true));
  }

  lemma NoPlanIn(own: seq<Record>)
    requires forall i :: 0 <= i < |own| ==> !own[i].PlanMode?
    ensures !Planned(own)
  {}

  lemma EnteringPlan(log: seq<Record>, s: State)
    requires s.Closed() && Inv(s)
    ensures WellFormed(PlanMode(0, true)) && (Step(log, s, PlanMode(0, true)).Some? <==> !s.at.plan)
    ensures forall nodes: seq<Surfaces.Node>, seqNo: nat :: Surfaces.Visible(nodes, seqNo, PlanMode(0, true)) == Some(nodes)
  {}

  /** Such parents exist: plan mode entered while idle, then one completed turn. */
  lemma PlanningParent()
    ensures var parent := [PlanMode(0, true), TurnStart(1), TurnEnd(1, Completed)];
      && ValidClosed(parent) && Forks.CompletedTurns(parent) == parent && StateOf(parent).at.plan
  {
    var parent := [PlanMode(0, true), TurnStart(1), TurnEnd(1, Completed)];
    var s1 := INIT.(at := INIT.at.(plan := true));
    var s2 := s1.(at := s1.at.(turn := 1, lastTurn := 1));
    var s3 := s2.(at := s2.at.(turn := 0));
    NothingYet();
    PlanningSteps();
    WholePrefix(parent);
    assert s3.Closed() && s3.at.plan;
    assert [] + [PlanMode(0, true)] == [PlanMode(0, true)];
    assert [PlanMode(0, true)] + [TurnStart(1)] == [PlanMode(0, true), TurnStart(1)];
    assert [PlanMode(0, true), TurnStart(1)] + [TurnEnd(1, Completed)] == parent;
    hide *;
    Grow([], INIT, PlanMode(0, true), s1);
    Grow([PlanMode(0, true)], s1, TurnStart(1), s2);
    Grow([PlanMode(0, true), TurnStart(1)], s2, TurnEnd(1, Completed), s3);
    ClosedState(parent);
  }

  lemma ClosedState(log: seq<Record>)
    requires Order.Valid(log) && StateOf(log).Closed()
    ensures ValidClosed(log)
  {}

  lemma NothingYet()
    ensures Order.Valid([]) && StateOf([]) == INIT
  {}

  lemma WholePrefix(log: seq<Record>)
    requires log != [] && log[|log| - 1].TurnEnd?
    ensures Forks.CompletedTurns(log) == log
  {}

  lemma PlanningSteps()
    ensures WellFormed(PlanMode(0, true)) && WellFormed(TurnStart(1)) && WellFormed(TurnEnd(1, Completed))
    ensures var s1 := INIT.(at := INIT.at.(plan := true));
      var s2 := s1.(at := s1.at.(turn := 1, lastTurn := 1));
      && Step([], INIT, PlanMode(0, true)) == Some(s1) && Step([PlanMode(0, true)], s1, TurnStart(1)) == Some(s2)
      && Step([PlanMode(0, true), TurnStart(1)], s2, TurnEnd(1, Completed)) == Some(s2.(at := s2.at.(turn := 0)))
  {}

  /** One more record that shows nothing. */
  lemma Grow(log: seq<Record>, s: State, record: Record, next: State)
    requires Order.Valid(log) && StateOf(log) == s && WellFormed(record) && Step(log, s, record) == Some(next)
    requires record.PlanMode? || record.TurnStart? || record.TurnEnd?
    ensures Order.Valid(log + [record]) && StateOf(log + [record]) == next
  {
    assert forall nodes: seq<Surfaces.Node>, seqNo: nat :: Surfaces.Visible(nodes, seqNo, record) == Some(nodes);
    hide Step, WellFormed, AllWellFormed, Surfaces.Visible;
    ValidSnoc(log, record);
  }
}
