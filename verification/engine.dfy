/**
  The turn engine (internal/app/agent/engine.go): runTurn with its deferred closeout.
  Providers, tools, admissions, configuration and cancellation are arbitrary choices, and so
  is what others commit beside the turn, whole manual compactions included; an append fails
  when the validator rejects it, or its context was cancelled.
 */
module Engine {
  import opened Records
  import opened Scans
  import opened Journal
  import opened Live
  import opened Compaction
  import opened Scripts
  import PlanModes
  import Order
  import OrderFacts
  import Surfaces

  /** The variables of one run that its closeout reads. */
  datatype Progress = Progress(
    turnOpen: bool, stepOpen: bool, openStep: nat, begun: bool,
    outcome: Option<Outcome>, failure: Failure, panicked: bool)

  const NOT_STARTED := Progress(false, false, 0, false, None, NoError, false)

  datatype TurnResult = TurnResult(turn: nat, begun: bool, outcome: Option<Outcome>, failure: Failure)

  datatype Reply = Stopped | Overflow | Replied

  datatype Next = Again | Done

  /** The turn marks a run has committed. */
  function MarksOf(p: Progress, turn: nat): seq<Record> {
    if p.turnOpen then [TurnStart(turn)]
    else if p.begun then [TurnStart(turn), TurnEnd(turn, Completed)]
    else []
  }

  /**
    The run's flags say where the log stands, first being the log the run found. Its own
    compaction stays open only after a panic; calm means that nobody else compacted so far.
   */
  ghost predicate Consistent(p: Progress, turn: nat, mine: string, first: View, v: View, calm: bool) {
    && turn == first.at.lastTurn + 1 && (first.at.turn == 0 ==> first.at.step == 0 && NothingOpen(first))
    && (p.turnOpen ==> p.begun) && (p.begun ==> first.at.turn == 0) && (p.stepOpen ==> p.turnOpen && p.openStep > 0)
    && v.marks == first.marks + MarksOf(p, turn)
    && v.at.turn == (if p.turnOpen then turn else first.at.turn)
    && v.at.step == (if p.stepOpen then p.openStep else first.at.step)
    && (!p.stepOpen ==> v.open == first.open && v.pending == first.pending)
    && (p.outcome in {Some(MaxTokens), Some(Completed)} ==> v.at.assistant)
    && (p.outcome in {Some(MaxTokens), Some(Completed), Some(StepLimit)} ==> p.begun)
    && (v.at.compaction == mine ==> p.panicked && p.turnOpen && !p.stepOpen)
    && (calm ==> v.at.compaction in {first.at.compaction, mine})
    && (p.begun && !p.turnOpen ==> p.outcome == Some(Completed) && !p.panicked && v.at.compaction == "")
    && (!p.begun ==> v.at.lastTurn == first.at.lastTurn)
  }

  /** No question and no call is open. */
  predicate NothingOpen(v: View) { v.open == Open([], []) && v.pending == map[] }

  /** The latest request of the session was made in its present mode. */
  predicate Requested(v: View) { v.plan.requested && v.plan.told == v.plan.active }

  /** What is known at a step boundary. */
  ghost predicate Between(p: Progress, v: View, step: nat) {
    p.turnOpen && !p.stepOpen && !p.panicked && p.outcome == None && p.failure == NoError && v.at.lastStep == step
  }

  ghost predicate Within(p: Progress, v: View, step: nat) {
    && p.turnOpen && p.stepOpen && p.openStep == step && !p.panicked && p.outcome == None && p.failure == NoError
    && v.at.lastStep == step
  }

  /** Recording an outcome or a failure, or panicking, keeps the flags consistent. */
  lemma Ends(p: Progress, q: Progress, turn: nat, mine: string, first: View, v: View, calm: bool)
    requires Consistent(p, turn, mine, first, v, calm) && (p.turnOpen || !p.begun)
    requires q == p.(outcome := q.outcome, failure := q.failure, panicked := q.panicked)
    requires (q.outcome in {Some(MaxTokens), Some(Completed)} ==> q.outcome == p.outcome) && (p.panicked ==> q.panicked)
    requires q.outcome == Some(StepLimit) ==> p.begun
    ensures Consistent(q, turn, mine, first, v, calm)
  {}

  /** Only the transcript, the plan mode, what the model was told and others' compactions may have changed. */
  ghost predicate SamePlace(mine: string, v: View, w: View) {
    && w.open == v.open && w.pending == v.pending && w.marks == v.marks
    && w.at == v.at.(plan := w.at.plan, compaction := w.at.compaction)
    && (v.at.compaction == mine <==> w.at.compaction == mine)
  }

  lemma SamePlaceOn(mine: string, v: View, w: View, x: View)
    requires SamePlace(mine, v, w) && SamePlace(mine, w, x)
    ensures SamePlace(mine, v, x)
  {}

  lemma Elsewhere(p: Progress, turn: nat, mine: string, first: View, v: View, w: View, calm: bool, calmNow: bool)
    requires Consistent(p, turn, mine, first, v, calm) && SamePlace(mine, v, w) && (p.turnOpen || !p.begun)
    requires calmNow ==> calm && w.at.compaction == v.at.compaction
    ensures Consistent(p, turn, mine, first, w, calmNow)
    ensures forall step :: Between(p, v, step) ==> Between(p, w, step)
    ensures forall step :: Within(p, v, step) ==> Within(p, w, step)
    ensures w.at.assistant == v.at.assistant
  {}

  /** A closeout's last records met no open compaction, if they were offered at all. */
  ghost predicate Unblocked(met: Option<seq<Record>>) {
    met.Some? ==> Order.Valid(met.value) && Order.StateOf(met.value).at.compaction == ""
  }

  /** The logs that a closeout's step end and turn end met, for those it had to commit. */
  datatype Closing = Closing(step: Option<seq<Record>>, turn: Option<seq<Record>>)

  class Run {
    const s: Session
    const turn: nat
    ghost const start: seq<Record>
    ghost const first: View
    ghost const touched: nat
    var p: Progress
    var canceled: bool

    ghost predicate Live() reads s`touched, s.log {
      s.Valid() && !s.turns && start <= s.log.records && s.touched >= touched
    }

    ghost predicate Valid() reads this`p, this`canceled, s`touched, s.log {
      && Live() && Consistent(p, turn, s.mine, first, s.View(), s.touched == touched)
      && (p.outcome == Some(Canceled) ==> canceled || p.failure == ContextCanceled) && (s.steady ==> !canceled)
    }

    constructor (s: Session)
      requires s.Valid() && !s.turns && s.View().at.compaction != s.mine
      ensures Valid() && this.s == s && p == NOT_STARTED && first == s.View() && touched == s.touched
      ensures turn == s.View().at.lastTurn + 1 && start == s.log.records
    {
      NextTurnAgrees(s.log.records);
      StatesOfValid(s.log.records);
      var next := NextTurn(s.log.records);
      this.s, this.turn, this.p, this.canceled := s, next, NOT_STARTED, false;
      this.start, this.first, this.touched := s.log.records, s.View(), s.touched;
    }

    /** Nobody else compacted since the run began. */
    ghost predicate Alone() reads s`touched { s.touched == touched }

    /** Nothing went wrong, and nobody else compacted. */
    ghost predicate Smooth() reads s`touched { s.steady && Alone() }

    /** These joined the transcript, and no notices but those of the messages were delivered. */
    ghost predicate Gained(nodes: seq<Surfaces.Node>, owed: map<string, Message>, items: seq<Item>, messages: seq<Message>)
      requires s.Valid()
      reads s.log
    {
      Grew(nodes, s.View().nodes, items) && Keeps(owed, s.Owed(), Ids(messages))
    }

    /** An append of the run's own; met is the view it found. */
    method Commit(record: Record) returns (ok: bool, ghost met: View)
      requires Live() && !record.NoticeQueued?
      modifies s`touched, s.log
      ensures Live() && s.touched >= old(s.touched) && old(s.log.records) <= s.log.records
      ensures SamePlace(s.mine, old(s.View()), met) && Aside(old(s.View()), met)
      ensures s.touched == old(s.touched) ==> met == old(s.View())
      ensures s.View() == if ok then After(met, record, |s.log.records|) else met
      ensures Certain(met, record) ==> ok
      ensures Delivers(met, old(s.Owed()), record) ==> ok
      ensures ok ==> Possible(met, record)
      ensures Keeps(old(s.Owed()), s.Owed(), Spent(record))
      ensures Adds(old(s.log.records), s.log.records, ok, record)
    {
      hide Order.Valid, Order.Fold, ViewOf, OwedBy, OwedStep, Keeps, Delivers, After, Certain, Possible, Beside, Calm, SamePlace;
      hide Session.Valid, Session.View, Session.Owed, Spent, Foreign, Adds;
      ghost var v, owed := s.View(), s.Owed();
      ghost var log;
      ok, log := s.Append(record);
      met := ViewOf(log);
      BesidePlace(s.mine, v, met);
      Spending(owed, OwedBy(log), record);
      DeliversLater(met, owed, OwedBy(log), record);
      ForeignAdds(s.mine, old(s.log.records), log, record);
    }

    /** ctx.Err(): a cancellation may have arrived, and stays. */
    method Poll() returns (c: bool)
      modifies this`canceled
      ensures c == canceled && (old(canceled) ==> c) && (s.steady ==> c == old(canceled))
    {
      var arrived: bool := *;
      canceled := canceled || (arrived && !s.steady);
      c := canceled;
    }

    /** outcomeFor. */
    method OutcomeFor(failure: Failure) returns (outcome: Outcome)
      modifies this`canceled
      ensures (old(canceled) ==> canceled) && (s.steady ==> canceled == old(canceled))
      ensures outcome == if canceled || failure == ContextCanceled then Canceled else Errored
    {
      var c := Poll();
      outcome := if c || failure == ContextCanceled then Canceled else Errored;
    }

    /** result.Err, result.Outcome = err, OutcomeError. */
    method Fail()
      requires Valid() && (p.turnOpen || !p.begun)
      modifies this`p
      ensures Valid()
      ensures p == old(p).(outcome := Some(Errored), failure := p.failure) && p.failure != NoError
    {
      var failure := AnyFailure();
      Ends(p, p.(outcome := Some(Errored), failure := failure), turn, s.mine, first, s.View(), Alone());
      p := p.(outcome := Some(Errored), failure := failure);
    }

    /** result.Err, result.Outcome = err, outcomeFor(ctx, err). */
    method Settle(failure: Failure)
      requires Valid() && (p.turnOpen || !p.begun)
      modifies this`p, this`canceled
      ensures Valid() && p == old(p).(outcome := p.outcome, failure := failure)
      ensures p.outcome == Some(if canceled || failure == ContextCanceled then Canceled else Errored)
    {
      var outcome := OutcomeFor(failure);
      Ends(p, p.(outcome := Some(outcome), failure := failure), turn, s.mine, first, s.View(), Alone());
      p := p.(outcome := Some(outcome), failure := failure);
    }

    /** A boundary that stops a cancelled turn. */
    method StopIfCanceled() returns (go: bool)
      requires Valid() && p.turnOpen
      modifies this`p, this`canceled
      ensures Valid()
      ensures (go <==> !canceled) && (old(canceled) ==> canceled)
      ensures if go then p == old(p) else p == old(p).(outcome := Some(Canceled), failure := ContextCanceled)
    {
      var c := Poll();
      if c {
        Ends(p, p.(outcome := Some(Canceled), failure := ContextCanceled), turn, s.mine, first, s.View(), Alone());
        p := p.(outcome := Some(Canceled), failure := ContextCanceled);
      }
      go := !c;
    }

    /** Anything the engine calls may panic. */
    method Panics() returns (panics: bool)
      requires Valid() && (p.turnOpen || !p.begun)
      modifies this`p
      ensures Valid()
      ensures p == old(p).(panicked := panics || old(p).panicked) && (s.steady ==> !panics)
    {
      panics := *;
      panics := panics && !s.steady;
      if panics {
        Ends(p, p.(panicked := true), turn, s.mine, first, s.View(), Alone());
        p := p.(panicked := true);
      }
    }

    // ----- opening -----

    /** The opening callback: a cancellation before it commits nothing, a later one does not undo it. */
    method CommitOpening(message: Message) returns (failure: Failure)
      requires Valid() && p == NOT_STARTED
      modifies this`p, this`canceled, s`touched, s.log
      ensures Valid() && s.touched >= old(s.touched) && (p == NOT_STARTED || Between(p, s.View(), 0))
      ensures p == NOT_STARTED ==> failure != NoError
      ensures first.at.turn != 0 ==> p == NOT_STARTED
      ensures first.at.turn == 0 && !canceled && Deliverable(old(s.Owed()), message) ==> failure == NoError
      ensures failure == NoError && s.touched == old(s.touched) ==> Grew(old(s.View()).nodes, s.View().nodes, [Said(message)])
      ensures failure == NoError ==> Keeps(old(s.Owed()), s.Owed(), Ids([message]))
    {
      hide Order.Valid, Order.Fold, ViewOf, Session.Valid, Session.View, Session.Owed, SamePlace, Consistent, Between;
      hide Keeps, Deliverable, Grew, Ids;
      ghost var nodes, owed := s.View().nodes, s.Owed();
      var c := Poll();
      if c {
        return ContextCanceled;
      }
      var started := Start();
      if !started {
        failure := AnyFailure();
        return;
      }
      ghost var later := s.Owed();
      DeliverableLater(owed, later, message);
      TurnIsOpen(0);
      failure := AddUser(message, 0);
      KeepsOn(owed, later, s.Owed(), {}, Ids([message]));
      NoneSpent(owed, s.Owed(), Ids([message]));
    }

    /** turn/start, which an abandoned turn refuses and nothing else. */
    method Start() returns (ok: bool)
      requires Valid() && p == NOT_STARTED
      modifies this`p, s`touched, s.log
      ensures Valid() && s.touched >= old(s.touched) && Keeps(old(s.Owed()), s.Owed(), {})
      ensures if ok then Between(p, s.View(), 0) else p == NOT_STARTED
      ensures ok <==> first.at.turn == 0
      ensures s.touched == old(s.touched) ==> s.View().nodes == old(s.View()).nodes
    {
      hide Order.Valid, Order.Fold, ViewOf, Session.Valid, Session.View, Session.Owed, SamePlace, Keeps;
      ghost var v, calm := s.View(), Alone();
      ghost var met;
      ok, met := Commit(TurnStart(turn));
      Elsewhere(p, turn, s.mine, first, v, met, calm, Alone());
      if ok {
        p := p.(turnOpen := true, begun := true);
      }
    }

    /** One user message of this turn; a refusal is an error of the turn. */
    method AppendUser(message: Message) returns (failure: Failure)
      requires Live()
      modifies s`touched, s.log
      ensures Live() && s.touched >= old(s.touched) && SamePlace(s.mine, old(s.View()), s.View())
      ensures s.touched == old(s.touched) ==> s.View().at.compaction == old(s.View()).at.compaction
      ensures s.touched == old(s.touched) && failure == NoError ==> Grew(old(s.View()).nodes, s.View().nodes, [Said(message)])
      ensures s.View().plan == old(s.View()).plan
      ensures Keeps(old(s.Owed()), s.Owed(), Ids([message]))
      ensures turn > 0 && old(s.View()).at.turn == turn && Deliverable(old(s.Owed()), message) ==> failure == NoError
    {
      hide Order.Valid, Order.Fold, ViewOf, After, Certain, Possible, SamePlace, Session.Valid, Session.View, Session.Owed;
      hide Keeps, Deliverable, Grew, Ids;
      ghost var v, owed := s.View(), s.Owed();
      var ok;
      ghost var met;
      ok, met := Commit(UserMessage(turn, 0, message));
      PlaceTurn(s.mine, v, met);
      UserView(s.mine, met, turn, message, |s.log.records|);
      SamePlaceOn(s.mine, v, met, s.View());
      IdsOne(message);
      failure := NoError;
      if !ok {
        failure := AnyFailure();
      }
    }

    /** The same, at a step boundary. */
    method AddUser(message: Message, ghost step: nat) returns (failure: Failure)
      requires Valid() && Between(p, s.View(), step)
      modifies s`touched, s.log
      ensures Valid() && Between(p, s.View(), step) && s.touched >= old(s.touched)
      ensures s.touched == old(s.touched) && failure == NoError ==> Grew(old(s.View()).nodes, s.View().nodes, [Said(message)])
      ensures s.View().plan == old(s.View()).plan
      ensures Keeps(old(s.Owed()), s.Owed(), Ids([message]))
      ensures Deliverable(old(s.Owed()), message) ==> failure == NoError
    {
      hide Order.Valid, Order.Fold, ViewOf, Session.Valid, Session.View, Session.Owed, Consistent, SamePlace, Between;
      hide Keeps, Deliverable, Grew, Ids;
      TurnIsOpen(step);
      InThisTurn(step);
      ghost var v, calm := s.View(), Alone();
      failure := AppendUser(message);
      Elsewhere(p, turn, s.mine, first, v, s.View(), calm, Alone());
    }

    /** Opens the turn through the admission of its source kind, if one is registered. */
    method OpenTurn(message: Message, notices: seq<Message>) returns (go: bool)
      requires Valid() && p == NOT_STARTED
      modifies this`p, this`canceled, s`touched, s.log
      ensures Valid() && s.touched >= old(s.touched) && (go ==> Between(p, s.View(), 0))
      ensures !go ==> (p.turnOpen || !p.begun) && p.outcome in {None, Some(Canceled), Some(Errored)}
      ensures !go && p.begun && !p.panicked ==> p.outcome == Some(Canceled) || p.outcome == Some(Errored)
      ensures first.at.turn != 0 ==> !p.begun
      ensures s.steady && first.at.turn == 0 && Delivery(old(s.Owed()), [message] + notices) ==> go
      ensures go && s.touched == old(s.touched) ==>
        Gained(old(s.View()).nodes, old(s.Owed()), Saying([message] + notices), [message] + notices)
    {
      hide Order.Valid, Order.Fold, ViewOf, Session.Valid, Session.View, Session.Owed, Consistent, Keeps, Delivery, Grew, Ids;
      ghost var nodes, owed := s.View().nodes, s.Owed();
      var unavailable: bool := *;
      if unavailable && !s.steady {
        var failure := AnyFailure();
        Settle(failure);
        return false;
      }
      var admission: bool := *;
      var unopened: bool := *;
      if admission && unopened && !s.steady {
        // Admit dropped the turn as stale, or failed, without opening it.
        if * {
          Ends(p, p.(failure := Failed), turn, s.mine, first, s.View(), Alone());
          p := p.(failure := Failed);
          return false;
        }
        var failure := AnyFailure();
        Settle(failure);
        return false;
      }
      FirstDelivered(owed, message, notices);
      var failure := CommitOpening(message);
      var panics := Panics();
      if panics {
        return false;
      }
      var refused: bool := *;
      if admission && failure == NoError && refused && !s.steady {
        failure := AnyFailure();
      }
      if failure != NoError {
        Settle(failure);
        return false;
      }
      go := StopIfCanceled();
      if !go {
        return;
      }
      ghost var middle, later := s.View().nodes, s.Owed();
      RestDelivered(owed, later, [message], notices);
      go := TakeInput(notices, 0);
      SayingOne(message);
      Onward(nodes, middle, s.View().nodes, owed, later, s.Owed(), [message], notices);
    }

    /** Messages that left their queues, in order; a refusal ends the turn with an error. */
    method TakeInput(messages: seq<Message>, ghost step: nat) returns (go: bool)
      requires Valid() && Between(p, s.View(), step)
      modifies this`p, s`touched, s.log
      ensures Valid() && s.touched >= old(s.touched) && p.turnOpen
      ensures if go then Between(p, s.View(), step) else p.outcome == Some(Errored) && !p.panicked
      ensures messages == [] ==> s.View() == old(s.View())
      ensures Delivery(old(s.Owed()), messages) ==> go
      ensures go && s.touched == old(s.touched) ==> Grew(old(s.View()).nodes, s.View().nodes, Saying(messages))
      ensures go ==> Keeps(old(s.Owed()), s.Owed(), Ids(messages))
    {
      hide Order.Valid, Order.Fold, ViewOf, Session.Valid, Session.View, Session.Owed, Consistent, SamePlace, Between;
      hide Keeps, Delivery, Grew, Ids;
      ghost var nodes, owed := s.View().nodes, s.Owed();
      NothingYet(nodes, owed, messages);
      TurnIsOpen(step);
      for i := 0 to |messages|
        invariant Valid() && Between(p, s.View(), step) && p.turnOpen && s.touched >= old(s.touched)
        invariant i == 0 ==> s.View() == old(s.View())
        invariant s.touched == old(s.touched) ==> Grew(nodes, s.View().nodes, Saying(messages[..i]))
        invariant Keeps(owed, s.Owed(), Ids(messages[..i]))
      {
        ghost var middle, later := s.View().nodes, s.Owed();
        NextDeliverable(owed, later, messages, i);
        var failure := AddUser(messages[i], step);
        TurnIsOpen(step);
        if failure != NoError {
          Fail();
          return false;
        }
        OneMore(nodes, middle, s.View().nodes, owed, later, s.Owed(), messages, i);
      }
      assert messages[..|messages|] == messages;
      go := true;
    }

    lemma TurnIsOpen(step: nat)
      requires s.Valid() && Between(p, s.View(), step)
      ensures p.turnOpen && !p.stepOpen && p.outcome == None && !p.panicked && p.failure == NoError
    {}

    lemma InThisTurn(step: nat)
      requires Valid() && Between(p, s.View(), step)
      ensures turn > 0 && InTurn(s.View(), turn)
    {}

    lemma LastStepIs(step: nat)
      requires s.Valid() && Between(p, s.View(), step)
      ensures s.View().at.lastStep == step
    {}

    // ----- one step -----

    /**
      Compaction, plan mode and context, then the step opens; a turn cancelled by then commits
      nothing and opens none.
     */
    method BeforeStep(step: nat, limits: Limits, weight: Surfaces.Node -> nat, plan: PlanModes.Selection, context: seq<Message>)
      returns (go: bool)
      requires Valid() && step > 0 && Between(p, s.View(), step - 1) && plan.Valid(s.View())
      modifies this`p, this`canceled, s`touched, s.log, plan
      ensures Valid() && s.touched >= old(s.touched) && p.turnOpen && if go then Within(p, s.View(), step) else Ended(p)
      ensures go ==> NothingOpen(s.View()) && !s.View().at.assistant
      ensures old(canceled) ==> !go && p.outcome == Some(Canceled) && s.log.records == old(s.log.records)
      ensures go ==> !plan.pending && !plan.notify && s.View().plan.active == old(plan.Desired(s.View()))
      ensures go && s.touched == old(s.touched) ==>
        Prepared(turn, limits, weight, context, old(s.View()).nodes, s.View().nodes)
      ensures Smooth() && !old(plan.pending) && !old(plan.notify) && !limits.windowKnown && Delivery(old(s.Owed()), context) ==>
        go && Gained(old(s.View()).nodes, old(s.Owed()), Saying(context), context)
    {
      hide Order.Valid, Order.Fold, ViewOf, Session.Valid, Session.View, Session.Owed;
      hide Consistent, SamePlace, Between, Within, Keeps, Delivery, Grew, Ids, Prepared;
      go := Boundary(step - 1);
      if !go {
        return;
      }
      go := Approach(step - 1, limits, weight, plan, context);
      if !go {
        return;
      }
      go := Boundary(step - 1);
      if !go {
        return;
      }
      ghost var later := s.Owed();
      go := OpenStep(step);
      KeepsFurther(old(s.Owed()), later, s.Owed(), Ids(context));
    }

    /** What comes before a step: compaction, the plan-mode boundary, and the step's context. */
    method Approach(ghost step: nat, limits: Limits, weight: Surfaces.Node -> nat, plan: PlanModes.Selection, context: seq<Message>)
      returns (go: bool)
      requires Valid() && Between(p, s.View(), step) && plan.Valid(s.View())
      modifies this`p, this`canceled, s`touched, s.log, plan
      ensures Valid() && s.touched >= old(s.touched) && p.turnOpen && if go then Between(p, s.View(), step) else Ended(p)
      ensures go ==> !plan.pending && !plan.notify && s.View().plan.active == old(plan.Desired(s.View()))
      ensures go && s.touched == old(s.touched) ==>
        Prepared(turn, limits, weight, context, old(s.View()).nodes, s.View().nodes)
      ensures Smooth() && !old(plan.pending) && !old(plan.notify) && !limits.windowKnown && Delivery(old(s.Owed()), context) ==>
        go && Gained(old(s.View()).nodes, old(s.Owed()), Saying(context), context)
    {
      hide Order.Valid, Order.Fold, ViewOf, Session.Valid, Session.View, Session.Owed, Session.Own;
      hide Consistent, SamePlace, Between, Keeps, Delivery, Grew, Ids, PlanModes.Told, Reduced, Prepared, Announced;
      s.FromLog();
      TurnIsOpen(step);
      go := Compact(step, false, limits, weight);
      if !go {
        return;
      }
      ghost var compacted, own, notify := s.View().nodes, s.Own(), plan.notify;
      go := SwitchPlan(step, plan);
      if !go {
        return;
      }
      s.FromLog();
      ghost var told, mode := s.View().nodes, s.View().plan.active;
      go := TakeContext(context, step);
      if go && s.touched == old(s.touched) {
        AnnouncedIf(own, notify, mode, compacted, told);
        PreparedIs(turn, limits, weight, context, old(s.View()).nodes, compacted, told, s.View().nodes);
      }
    }

    /** A cancellation observed between steps. */
    method Boundary(ghost step: nat) returns (go: bool)
      requires Valid() && Between(p, s.View(), step)
      modifies this`p, this`canceled
      ensures Valid() && p.turnOpen && if go then Between(p, s.View(), step) else p.outcome == Some(Canceled)
      ensures (go <==> !canceled) && (old(canceled) ==> canceled) && (s.steady ==> go)
    {
      go := StopIfCanceled();
    }

    /** A compaction request of this turn; forced, it must change the transcript. */
    method Compact(ghost step: nat, force: bool, limits: Limits, weight: Surfaces.Node -> nat) returns (go: bool)
      requires Valid() && Between(p, s.View(), step)
      modifies this`p, s`touched, s.log
      ensures Valid() && s.touched >= old(s.touched) && p.turnOpen && if go then Between(p, s.View(), step) else Ended(p)
      ensures go ==> s.View().plan == old(s.View()).plan
      ensures go && s.touched == old(s.touched) ==>
        && Reduced(Compaction.Request(turn, force, false), limits, weight, old(s.View()).nodes, s.View().nodes)
        && (force ==> !(old(s.View()).nodes <= s.View().nodes))
      ensures s.steady && !force && !limits.windowKnown ==> go && s.log.records == old(s.log.records)
    {
      hide Order.Valid, Order.Fold, ViewOf, Session.Valid, Session.View, Session.Owed, Consistent, SamePlace, Between;
      TurnIsOpen(step);
      OwnClosed();
      ghost var v, calm := s.View(), Alone();
      var changed, failure, panicked := Maybe(s, Compaction.Request(turn, force, false), limits, weight);
      if panicked {
        BrokenCompaction(p, turn, s.mine, first, v, s.View(), calm, Alone());
        p := p.(panicked := true);
        return false;
      }
      AsidePlace(s.mine, v, s.View());
      Elsewhere(p, turn, s.mine, first, v, s.View(), calm, Alone());
      if failure != NoError || (force && !changed) {
        Fail();
        return false;
      }
      go := true;
    }

    /** While the run has not panicked no compaction of its own is open. */
    lemma OwnClosed()
      requires Valid() && !p.panicked
      ensures s.View().at.compaction != s.mine
    {}

    /** The plan-mode boundary. */
    method SwitchPlan(ghost step: nat, plan: PlanModes.Selection) returns (go: bool)
      requires Valid() && Between(p, s.View(), step) && plan.Valid(s.View())
      modifies this`p, this`canceled, s`touched, s.log, plan
      ensures Valid() && s.touched >= old(s.touched) && p.turnOpen && if go then Between(p, s.View(), step) else Ended(p)
      ensures go ==>
        && !plan.pending && !plan.notify && s.View().plan.active == old(plan.Desired(s.View()))
        && (s.touched == old(s.touched) ==>
              PlanModes.Told(old(s.Own()), old(plan.notify), s.View().plan.active, old(s.View()).nodes, s.View().nodes))
      ensures s.steady && !old(plan.pending) && !old(plan.notify) ==> go && s.log.records == old(s.log.records)
    {
      hide Order.Valid, Order.Fold, ViewOf, Session.Valid, Session.View, Session.Owed, Session.Own;
      hide Consistent, SamePlace, Between, PlanModes.Told;
      TurnIsOpen(step);
      ghost var v, calm := s.View(), Alone();
      var policy, failure := plan.Step(s, turn);
      BoundaryElsewhere(s.mine, v, s.View());
      Elsewhere(p, turn, s.mine, first, v, s.View(), calm, Alone());
      var panics := Panics();
      if panics {
        return false;
      }
      if failure != NoError {
        Settle(failure);
        return false;
      }
      go := true;
    }

    /** Whatever the user selected meanwhile. */
    method AnySelection() returns (selection: PlanModes.Selection)
      requires Valid()
      ensures fresh(selection) && selection.Valid(s.View())
      ensures s.steady ==> !selection.pending && !selection.notify
    {
      selection := new PlanModes.Selection();
      var known: bool := *;
      if known && !s.steady {
        var plan := s.RecordedPlan();
        selection.active, selection.notify := plan.active, *;
        if * {
          selection.pending, selection.target := true, !plan.active;
        }
      }
    }

    /** stepContext: the runtime snapshot and independent messages; a contributor may panic. */
    method TakeContext(context: seq<Message>, ghost step: nat) returns (go: bool)
      requires Valid() && Between(p, s.View(), step)
      modifies this`p, this`canceled, s`touched, s.log
      ensures Valid() && s.touched >= old(s.touched) && p.turnOpen && if go then Between(p, s.View(), step) else Ended(p)
      ensures s.View().plan == old(s.View()).plan
      ensures s.steady && Delivery(old(s.Owed()), context) ==> go
      ensures go && s.touched == old(s.touched) ==> Grew(old(s.View()).nodes, s.View().nodes, Saying(context))
      ensures go ==> Keeps(old(s.Owed()), s.Owed(), Ids(context))
    {
      hide Order.Valid, Order.Fold, ViewOf, Session.Valid, Session.View, Session.Owed;
      hide Consistent, SamePlace, Between, Keeps, Delivery, Grew, Ids;
      ghost var nodes, owed := s.View().nodes, s.Owed();
      NothingYet(nodes, owed, context);
      TurnIsOpen(step);
      var panics := Panics();
      if panics {
        return false;
      }
      var failure := NoError;
      var fails: bool := *;
      if fails && !s.steady {
        failure := AnyFailure();
      }
      var i := 0;
      while i < |context| && failure == NoError
        invariant i <= |context| && Valid() && Between(p, s.View(), step) && p.turnOpen && s.touched >= old(s.touched)
        invariant failure == NoError && s.touched == old(s.touched) ==> Grew(nodes, s.View().nodes, Saying(context[..i]))
        invariant failure == NoError ==> Keeps(owed, s.Owed(), Ids(context[..i]))
        invariant s.View().plan == old(s.View()).plan
        invariant s.steady && Delivery(owed, context) ==> failure == NoError
        decreases |context| - i, failure == NoError
      {
        ghost var middle, later := s.View().nodes, s.Owed();
        NextDeliverable(owed, later, context, i);
        failure := AddUser(context[i], step);
        OneMore(nodes, middle, s.View().nodes, owed, later, s.Owed(), context, i);
        i := i + 1;
      }
      TurnIsOpen(step);
      if failure != NoError {
        Settle(failure);
        return false;
      }
      assert context[..|context|] == context;
      go := true;
    }

    method OpenStep(step: nat) returns (go: bool)
      requires Valid() && step > 0 && Between(p, s.View(), step - 1)
      modifies this`p, this`canceled, s`touched, s.log
      ensures Valid() && s.touched >= old(s.touched) && p.turnOpen && if go then Within(p, s.View(), step) else Ended(p)
      ensures go ==> NothingOpen(s.View()) && !s.View().at.assistant
      ensures s.steady ==> go
      ensures s.View().plan == old(s.View()).plan
      ensures s.touched == old(s.touched) ==> s.View().nodes == old(s.View()).nodes
      ensures Keeps(old(s.Owed()), s.Owed(), {})
    {
      hide Order.Valid, Order.Fold, ViewOf, Session.Valid, Session.View, Session.Owed, SamePlace, Keeps;
      ghost var v, calm := s.View(), Alone();
      var ok;
      ghost var met;
      ok, met := TryRecord(StepStart(turn, step));
      Elsewhere(p, turn, s.mine, first, v, met, calm, Alone());
      if !ok {
        var failure := AnyFailure();
        Settle(failure);
        return false;
      }
      p := p.(stepOpen := true, openStep := step);
      go := true;
    }

    /** An append under the turn's own context. */
    method TryRecord(record: Record) returns (ok: bool, ghost met: View)
      requires Live() && !record.NoticeQueued? && !record.UserMessage?
      modifies this`canceled, s`touched, s.log
      ensures Live() && s.touched >= old(s.touched) && SamePlace(s.mine, old(s.View()), met) && met.plan == old(s.View()).plan
      ensures (old(canceled) ==> canceled) && (s.steady ==> canceled == old(canceled))
      ensures s.touched == old(s.touched) ==> met == old(s.View())
      ensures s.View() == if ok then After(met, record, |s.log.records|) else met
      ensures ok ==> Possible(met, record)
      ensures ok || canceled || !Certain(met, record)
      ensures Keeps(old(s.Owed()), s.Owed(), {})
      ensures Adds(old(s.log.records), s.log.records, ok, record)
    {
      AddsNothing(s.log.records, record);
      SelfPlace(s.mine, s.View());
      KeepsSelf(s.Owed());
      hide *;
      ghost var v := s.View();
      var c := Poll();
      if c {
        return false, v;
      }
      ok, met := Commit(record);
      SpentNone(record);
    }

    // ----- the model's answer -----

    /** The request, its retries, and the assistant message, or the forced compaction of an overflow. */
    method Ask(step: nat, maxRetries: nat, limits: Limits, weight: Surfaces.Node -> nat, answer: Message)
      returns (reply: Reply)
      requires Valid() && step > 0 && Within(p, s.View(), step)
      modifies this`p, this`canceled, s`touched, s.log
      ensures Valid() && s.touched >= old(s.touched) && p.turnOpen
      ensures match reply
        case Stopped => Ended(p)
        case Overflow => Between(p, s.View(), step)
        case Replied => Within(p, s.View(), step) && s.View().at.assistant
      ensures reply == Overflow && s.touched == old(s.touched) ==>
        && Reduced(Compaction.Request(turn, true, false), limits, weight, old(s.View()).nodes, s.View().nodes)
        && !(old(s.View()).nodes <= s.View().nodes)
      ensures reply == Replied && NothingOpen(old(s.View())) ==> NothingOpen(s.View())
      ensures Smooth() && !old(s.View()).at.assistant && WellFormedMessage(answer, false) ==>
        reply == Replied && Gained(old(s.View()).nodes, old(s.Owed()), [Said(answer)], [])
    {
      hide Order.Valid, Order.Fold, ViewOf, Session.Valid, Session.View, Session.Owed, Consistent, SamePlace;
      hide Keeps, Grew, Ids;
      ghost var v0, owed := s.View(), s.Owed();
      NoIds();
      var ready := Prepare(step);
      if !ready {
        return Stopped;
      }
      StepIsOpen(step);
      ghost var v, calm, later := s.View(), Alone(), s.Owed();
      PlaceTurn(s.mine, v0, v);
      var failure, overflow := Attempts(step, maxRetries);
      Elsewhere(p, turn, s.mine, first, v, s.View(), calm, Alone());
      PlaceTurn(s.mine, v, s.View());
      KeepsOn(owed, later, s.Owed(), {}, {});
      var panics := Panics();
      if panics {
        return Stopped;
      }
      if failure != NoError {
        if overflow {
          var ended := CloseStep(step);
          if !ended {
            return Stopped;
          }
          var go := Compact(step, true, limits, weight);
          return if go then Overflow else Stopped;
        }
        Settle(failure);
        return Stopped;
      }
      later := s.Owed();
      reply := Answer(step, answer);
      KeepsOn(owed, later, s.Owed(), {}, {});
    }

    /** The assistant message of a completion. */
    method Answer(step: nat, answer: Message) returns (reply: Reply)
      requires Valid() && step > 0 && Within(p, s.View(), step)
      modifies this`p, this`canceled, s`touched, s.log
      ensures Valid() && s.touched >= old(s.touched) && p.turnOpen && !reply.Overflow?
      ensures match reply
        case Stopped => Ended(p)
        case Overflow => true
        case Replied => Within(p, s.View(), step) && s.View().at.assistant
      ensures reply == Replied ==> s.View().open == old(s.View()).open && s.View().pending == old(s.View()).pending
      ensures s.steady && !old(s.View()).at.assistant && WellFormedMessage(answer, false) ==> reply == Replied
      ensures reply == Replied && s.touched == old(s.touched) ==> Grew(old(s.View()).nodes, s.View().nodes, [Said(answer)])
      ensures Keeps(old(s.Owed()), s.Owed(), {})
    {
      hide Order.Valid, Order.Fold, ViewOf, Session.Valid, Session.View, Session.Owed, SamePlace, Keeps;
      ghost var v, calm := s.View(), Alone();
      var ok;
      ghost var met;
      ok, met := TryRecord(AssistantMessage(turn, step, answer));
      PlaceTurn(s.mine, v, met);
      Elsewhere(p, turn, s.mine, first, v, met, calm, Alone());
      if !ok {
        Fail();
        return Stopped;
      }
      reply := Replied;
    }

    lemma StepIsOpen(step: nat)
      requires Valid() && step > 0 && Within(p, s.View(), step)
      ensures turn > 0 && InStep(s.View(), turn, step) && p.turnOpen && !p.panicked && p.outcome == None
    {}

    /** Settings, tools, prompt and provider, and the request header. */
    method Prepare(step: nat) returns (ready: bool)
      requires Valid() && step > 0 && Within(p, s.View(), step)
      modifies this`p, this`canceled, s`touched, s.log
      ensures Valid() && s.touched >= old(s.touched) && p.turnOpen && if ready then Within(p, s.View(), step) else Ended(p)
      ensures ready ==> SamePlace(s.mine, old(s.View()), s.View()) && Requested(s.View())
      ensures s.steady ==> ready
      ensures s.touched == old(s.touched) ==> s.View().nodes == old(s.View()).nodes
      ensures Keeps(old(s.Owed()), s.Owed(), {})
    {
      hide Order.Valid, Order.Fold, ViewOf, Session.Valid, Session.View, Session.Owed, SamePlace, Keeps, Consistent, Within;
      KeepsSelf(s.Owed());
      StepIsOpen(step);
      var panics := Panics();
      if panics {
        return false;
      }
      var misconfigured: bool := *;
      if misconfigured && !s.steady {
        Fail();
        return false;
      }
      ready := SendHeader(step);
      if !ready {
        Fail();
        return;
      }
      StepIsOpen(step);
      var unavailable: bool := *;
      if unavailable && !s.steady {
        var failure := AnyFailure();
        Settle(failure);
        return false;
      }
    }

    method SendHeader(step: nat) returns (ok: bool)
      requires Valid() && step > 0 && Within(p, s.View(), step)
      modifies this`canceled, s`touched, s.log
      ensures Valid() && s.touched >= old(s.touched) && Within(p, s.View(), step)
      ensures SamePlace(s.mine, old(s.View()), s.View()) && (ok ==> Requested(s.View()))
      ensures s.steady ==> ok
      ensures s.touched == old(s.touched) ==> s.View().nodes == old(s.View()).nodes
      ensures Keeps(old(s.Owed()), s.Owed(), {})
    {
      hide Order.Valid, Order.Fold, ViewOf, Session.Valid, Session.View, Session.Owed, SamePlace, Keeps, Consistent, Within;
      hide After, Certain;
      StepIsOpen(step);
      ghost var v, calm := s.View(), Alone();
      ghost var met;
      ok, met := TryRecord(RequestHeader(turn, step));
      HeaderView(s.mine, v, met, turn, step, |s.log.records|);
      Elsewhere(p, turn, s.mine, first, v, s.View(), calm, Alone());
    }

    /** retry.Do: chunks stream as they arrive, and only an attempt that emitted none is retried. */
    method Attempts(step: nat, maxRetries: nat) returns (failure: Failure, overflow: bool)
      requires Live()
      modifies this`canceled, s`touched, s.log
      ensures Live() && s.touched >= old(s.touched) && SamePlace(s.mine, old(s.View()), s.View())
      ensures (old(canceled) ==> canceled) && (s.steady ==> canceled == old(canceled))
      ensures s.touched == old(s.touched) ==> s.View() == old(s.View())
      ensures Keeps(old(s.Owed()), s.Owed(), {})
      ensures s.steady && !old(canceled) && InStep(old(s.View()), turn, step) ==> failure == NoError
      ensures forall i, j :: |old(s.log.records)| <= i < j < |s.log.records| && s.log.records[i].AssistantChunk? ==>
        !Retries(s.log.records[j])
    {
      hide Order.Valid, Order.Fold, ViewOf, Session.Valid, Session.View, Session.Owed, SamePlace, Keeps, InStep, NoChunkSince, NoRetrySince, Retries;
      ghost var v, owed, n := s.View(), s.Owed(), |s.log.records|;
      SelfPlace(s.mine, v);
      KeepsSelf(owed);
      NothingSince(s.log.records);
      overflow := false;
      for retryNumber := 0 to maxRetries + 1
        invariant Live() && s.touched >= old(s.touched) && SamePlace(s.mine, v, s.View())
        invariant (old(canceled) ==> canceled) && (s.steady ==> canceled == old(canceled))
        invariant s.touched == old(s.touched) ==> s.View() == v
        invariant Keeps(owed, s.Owed(), {})
        invariant n <= |s.log.records| && NoChunkSince(s.log.records, n)
        invariant s.steady && !old(canceled) && InStep(v, turn, step) ==> retryNumber == 0
      {
        var emitted;
        ghost var before := s.log.records;
        ghost var w, later := s.View(), s.Owed();
        InStepStill(s.mine, v, w, turn, step);
        failure, emitted := Stream(step);
        NoRetryYet(before, s.log.records, n);
        SamePlaceOn(s.mine, v, w, s.View());
        KeepsOn(owed, later, s.Owed(), {}, {});
        if failure == NoError {
          return;
        }
        overflow := *;
        if emitted || overflow || retryNumber == maxRetries {
          return;
        }
        w, later := s.View(), s.Owed();
        before := s.log.records;
        var ok := NoteRetry(step);
        StillUnspoken(before, s.log.records, n);
        SamePlaceOn(s.mine, v, w, s.View());
        KeepsOn(owed, later, s.Owed(), {}, {});
        if !ok {
          return;
        }
      }
      Unspoken(s.log.records, n);
      failure := AnyFailure();
    }

    /** The records around the wait before another attempt. */
    method NoteRetry(step: nat) returns (ok: bool)
      requires Live()
      modifies this`canceled, s`touched, s.log
      ensures Live() && s.touched >= old(s.touched) && SamePlace(s.mine, old(s.View()), s.View())
      ensures (old(canceled) ==> canceled) && (s.steady ==> canceled == old(canceled))
      ensures s.touched == old(s.touched) ==> s.View() == old(s.View())
      ensures Keeps(old(s.Owed()), s.Owed(), {})
      ensures old(s.log.records) <= s.log.records && NoChunkSince(s.log.records, |old(s.log.records)|)
    {
      hide Order.Valid, Order.Fold, ViewOf, Session.Valid, Session.View, Session.Owed, SamePlace, Keeps;
      hide Adds;
      ok := Note(Retry(turn, step));
      ghost var middle := s.log.records;
      OneNoted(old(s.log.records), middle, ok, Retry(turn, step));
      if ok {
        ghost var w, later := s.View(), s.Owed();
        ok := Note(RetryStarted(turn, step));
        OneNoted(middle, s.log.records, ok, RetryStarted(turn, step));
        StillUnspoken(middle, s.log.records, |old(s.log.records)|);
        SamePlaceOn(s.mine, old(s.View()), w, s.View());
        KeepsOn(old(s.Owed()), later, s.Owed(), {}, {});
      }
    }

    method Stream(step: nat) returns (failure: Failure, emitted: bool)
      requires Live()
      modifies this`canceled, s`touched, s.log
      ensures Live() && s.touched >= old(s.touched) && SamePlace(s.mine, old(s.View()), s.View())
      ensures (old(canceled) ==> canceled) && (s.steady ==> canceled == old(canceled))
      ensures s.touched == old(s.touched) ==> s.View() == old(s.View())
      ensures Keeps(old(s.Owed()), s.Owed(), {})
      ensures s.steady && !old(canceled) && InStep(old(s.View()), turn, step) ==> failure == NoError
      ensures old(s.log.records) <= s.log.records && NoRetrySince(s.log.records, |old(s.log.records)|)
      ensures !emitted ==> NoChunkSince(s.log.records, |old(s.log.records)|)
    {
      hide Order.Valid, Order.Fold, ViewOf, Session.Valid, Session.View, Session.Owed, SamePlace, Keeps, InStep;
      hide NoChunkSince, NoRetrySince, Adds;
      ghost var v, owed := s.View(), s.Owed();
      SelfPlace(s.mine, v);
      KeepsSelf(owed);
      ghost var log := s.log.records;
      NothingSince(log);
      emitted, failure := false, NoError;
      var chunks :| 0 <= chunks;
      for i := 0 to chunks
        invariant Live() && s.touched >= old(s.touched) && SamePlace(s.mine, v, s.View())
        invariant (old(canceled) ==> canceled) && (s.steady ==> canceled == old(canceled))
        invariant s.touched == old(s.touched) ==> s.View() == v
        invariant Keeps(owed, s.Owed(), {})
        invariant log <= s.log.records && NoRetrySince(s.log.records, |log|)
        invariant i > 0 ==> emitted
        invariant i == 0 ==> !emitted && NoChunkSince(s.log.records, |log|)
      {
        emitted := true;
        ghost var w, later := s.View(), s.Owed();
        InStepStill(s.mine, v, w, turn, step);
        ghost var before := s.log.records;
        var ok := Note(AssistantChunk(turn, step));
        ChunkNoted(log, before, s.log.records, ok, AssistantChunk(turn, step));
        SamePlaceOn(s.mine, v, w, s.View());
        KeepsOn(owed, later, s.Owed(), {}, {});
        if !ok {
          failure := AnyFailure();
          return;
        }
      }
      var broken: bool := *;
      if broken && !s.steady {
        failure := AnyFailure();
      }
    }

    /** A record that changes nothing the run looks at. */
    method Note(record: Record) returns (ok: bool)
      requires Live() && (record.AssistantChunk? || record.Retry? || record.RetryStarted?)
      modifies this`canceled, s`touched, s.log
      ensures Live() && s.touched >= old(s.touched) && SamePlace(s.mine, old(s.View()), s.View())
      ensures (old(canceled) ==> canceled) && (s.steady ==> canceled == old(canceled))
      ensures s.touched == old(s.touched) ==> s.View() == old(s.View())
      ensures Keeps(old(s.Owed()), s.Owed(), {})
      ensures Adds(old(s.log.records), s.log.records, ok, record)
      ensures record.AssistantChunk? && InStep(old(s.View()), record.turn, record.step) ==> ok || canceled
    {
      hide Order.Valid, Order.Fold, ViewOf, Session.Valid, Session.View, Session.Owed, SamePlace, Keeps, Adds;
      ghost var v := s.View();
      ghost var met;
      ok, met := TryRecord(record);
      PlaceTurn(s.mine, v, met);
      assert After(met, record, |s.log.records|) == met;
    }

    /**
      The step end, committed whatever the context. It is refused exactly while a question, a
      call or a compaction, possibly another party's, is open; then the turn fails with its
      step still open.
     */
    method CloseStep(step: nat) returns (ok: bool)
      requires Valid() && p.stepOpen && p.openStep == step && !p.panicked
      requires s.View().at.lastStep == step && p.outcome in {None, Some(MaxTokens)}
      modifies this`p, s`touched, s.log
      ensures Valid() && s.touched >= old(s.touched) && p.turnOpen && s.View().at.assistant == old(s.View()).at.assistant
      ensures ok <==> s.View().open == Open([], []) && s.View().at.compaction == ""
      ensures if ok then p == old(p).(stepOpen := false, openStep := 0) && s.View().at.lastStep == step
              else p == old(p).(outcome := Some(Errored), failure := p.failure)
      ensures s.View().open == old(s.View()).open
      ensures s.touched == old(s.touched) ==>
        s.View().nodes == old(s.View()).nodes && s.View().at.compaction == old(s.View()).at.compaction
      ensures Keeps(old(s.Owed()), s.Owed(), {})
    {
      hide Order.Valid, Order.Fold, ViewOf, Session.Valid, Session.View, Session.Owed, Keeps;
      ghost var v, calm := s.View(), Alone();
      ghost var met;
      ok, met := Commit(StepEnd(turn, step));
      SpentNone(StepEnd(turn, step));
      Elsewhere(p, turn, s.mine, first, v, met, calm, Alone());
      if !ok {
        Fail();
        return;
      }
      p := p.(stepOpen := false, openStep := 0);
    }

    /**
      What follows the assistant message: a truncated end, calls, notices, or the end of the turn.
      Calls, results and input join the transcript in that order, a cancellation only keeping
      the input waiting; tools is the view the batch returned to.
     */
    method Follow(step: nat, round: Round, last: bool) returns (next: Next, ghost tools: View)
      requires Valid() && step > 0 && Within(p, s.View(), step) && s.View().at.assistant && NothingOpen(s.View())
      modifies this`p, this`canceled, s`touched, s.log
      ensures Valid() && s.touched >= old(s.touched) && (next == Again ==> Between(p, s.View(), step))
      ensures next == Done ==> Ended(p) || p.outcome in {Some(MaxTokens), Some(Completed)}
      ensures Fair(round) && !p.panicked && s.touched == old(s.touched) && old(s.View()).at.compaction == "" && tools.open.approvals == [] ==>
        if canceled then p.outcome == Some(Canceled) && Grew(old(s.View()).nodes, s.View().nodes, Worked(round))
        else Delivery(old(s.Owed()), Taken(round, last)) ==>
          && Gained(old(s.View()).nodes, old(s.Owed()), Worked(round) + Saying(Taken(round, last)), Taken(round, last))
          && p.failure == NoError
          && if !Final(round, last) then next == Again
             else next == Done && p.outcome == Some(if round.truncated then MaxTokens else Completed) && !p.stepOpen
      ensures s.steady ==> !canceled && !p.panicked && tools.open.approvals == []
    {
      hide Order.Valid, Order.Fold, ViewOf, Session.Valid, Session.View, Session.Owed, SamePlace;
      hide Keeps, Delivery, Grew, Ids, Callable, Answered, Made;
      tools := s.View();
      ghost var nodes, owed := s.View().nodes, s.Owed();
      GrewNot(nodes);
      SayingSplit([], []);
      NoIds();
      assert Saying([]) + Saying([]) == Saying([]);
      if round.truncated {
        p := p.(outcome := Some(MaxTokens));
        var ended := CloseStep(step);
        if ended {
          var go := StopIfCanceled();
        }
        return Done, tools;
      }
      hide Consistent;
      StepIsOpen(step);
      var made := RecordCalls(step, round.calls);
      if !made {
        return Done, tools;
      }
      ghost var middle, later := s.View().nodes, s.Owed();
      DeliveryLater(owed, later, Taken(round, last));
      if |round.calls| == 0 {
        NoCalls(round);
        NoneMade(s);
        assert [] + round.notices == round.notices && [] + Saying(Taken(round, last)) == Saying(Taken(round, last));
        next := Complete(step, last, round.notices);
        GrewFurther(nodes, middle, s.View().nodes, Calling(round.calls), Saying(Taken(round, last)));
      } else {
        assert round.steers + [] == round.steers;
        next, tools := RunBatch(step, last, round.results, round.steers, round.notices);
        AfterCalls(nodes, middle, s.View().nodes, round, last);
      }
      KeepsFrom(owed, later, s.Owed(), Ids(Taken(round, last)));
    }

    /** The calls of one answer, committed as one unit: all that can be made are accepted. */
    method RecordCalls(step: nat, calls: seq<ToolCall>) returns (made: bool)
      requires Valid() && step > 0 && Within(p, s.View(), step)
      modifies this`p, s`touched, s.log
      ensures Valid() && s.touched >= old(s.touched) && p.turnOpen && !p.panicked
      ensures if made then Within(p, s.View(), step) else Ended(p)
      ensures s.View().at.assistant == old(s.View()).at.assistant
      ensures old(s.View()).at.assistant && Callable(old(s.View()).pending, calls) ==> made
      ensures made ==>
        s.View().pending == Made(old(s.View()).pending, calls) && s.View().open.approvals == old(s.View()).open.approvals
      ensures made && s.touched == old(s.touched) ==>
        s.View().at == old(s.View()).at && Grew(old(s.View()).nodes, s.View().nodes, Calling(calls))
      ensures Keeps(old(s.Owed()), s.Owed(), {})
    {
      hide Order.Valid, Order.Fold, ViewOf, Session.Valid, Session.View, Session.Owed, SamePlace, Consistent;
      hide Keeps, Grew, Callable, Made, Certain, Within;
      ghost var v, owed := s.View(), s.Owed();
      KeepsSelf(owed);
      NoneYet(v.nodes, v.pending, calls);
      for i := 0 to |calls|
        invariant Valid() && Within(p, s.View(), step) && s.touched >= old(s.touched)
        invariant s.View().at.assistant == v.at.assistant && s.View().open.approvals == v.open.approvals
        invariant s.View().pending == Made(v.pending, calls[..i])
        invariant s.touched == old(s.touched) ==>
          s.View().at == v.at && Grew(v.nodes, s.View().nodes, Calling(calls[..i]))
        invariant Keeps(owed, s.Owed(), {})
      {
        ghost var w, later := s.View(), s.Owed();
        StepIsOpen(step);
        NextCall(w, turn, step, v.pending, calls, i);
        var ok := InStepRecord(CallMade(turn, step, calls[i]), step);
        KeepsOn(owed, later, s.Owed(), {}, {});
        if !ok {
          Fail();
          return false;
        }
        OneMoreCall(v.nodes, w.nodes, s.View().nodes, v.pending, calls, i);
      }
      assert calls[..|calls|] == calls;
      InTurnStill(step);
      made := true;
    }

    lemma InTurnStill(step: nat)
      requires s.Valid() && Within(p, s.View(), step)
      ensures p.turnOpen && !p.panicked
    {}

    /** A call or a result of the open step. */
    method InStepRecord(record: Record, ghost step: nat) returns (ok: bool)
      requires Valid() && Within(p, s.View(), step) && (record.CallMade? || record.CallResult?)
      modifies s`touched, s.log
      ensures Valid() && Within(p, s.View(), step) && s.touched >= old(s.touched)
      ensures s.View().at.assistant == old(s.View()).at.assistant && s.View().open.approvals == old(s.View()).open.approvals
      ensures Certain(old(s.View()), record) ==> ok
      ensures s.View().pending == if ok then PendingStep(old(s.View()).pending, record) else old(s.View()).pending
      ensures s.touched == old(s.touched) ==> s.View().at == old(s.View()).at
      ensures ok && s.touched == old(s.touched) ==> Grew(old(s.View()).nodes, s.View().nodes, [ItemOf(record)])
      ensures Keeps(old(s.Owed()), s.Owed(), {})
    {
      hide Order.Valid, Order.Fold, ViewOf, Session.Valid, Session.View, Session.Owed, SamePlace, Consistent;
      hide Keeps, Grew, After, Certain;
      ghost var v, calm := s.View(), Alone();
      ghost var met;
      ok, met := Commit(record);
      SpentNone(record);
      PlaceTurn(s.mine, v, met);
      Elsewhere(p, turn, s.mine, first, v, met, calm, Alone());
      WorkInside(p, turn, s.mine, first, met, After(met, record, |s.log.records|), record, |s.log.records|, Alone(), step);
      WorkCertain(v, met, record);
    }

    /** An answer without calls completes the turn, unless notices arrived to be answered. */
    method Complete(step: nat, last: bool, notices: seq<Message>) returns (next: Next)
      requires Valid() && step > 0 && Within(p, s.View(), step) && s.View().at.assistant
      modifies this`p, this`canceled, s`touched, s.log
      ensures Valid() && s.touched >= old(s.touched) && (next == Again ==> Between(p, s.View(), step))
      ensures next == Done ==> Ended(p) || p.outcome == Some(Completed)
      ensures !p.panicked && (s.steady ==> !canceled)
      ensures s.touched == old(s.touched) && old(s.View()).open == Open([], []) && old(s.View()).at.compaction == "" ==>
        var input := if last then [] else notices;
        if canceled then p.outcome == Some(Canceled) && s.View().nodes == old(s.View()).nodes
        else Delivery(old(s.Owed()), input) ==>
          && Gained(old(s.View()).nodes, old(s.Owed()), Saying(input), input) && p.failure == NoError
          && if input != [] then next == Again else next == Done && p.outcome == Some(Completed) && !p.stepOpen
    {
      hide Order.Valid, Order.Fold, ViewOf, Session.Valid, Session.View, Session.Owed, SamePlace, Consistent;
      hide Keeps, Delivery, Grew, Ids;
      ghost var nodes, owed := s.View().nodes, s.Owed();
      GrewNot(nodes);
      SayingSplit([], []);
      NoIds();
      var ended := CloseStep(step);
      if !ended {
        return Done;
      }
      var go := StopIfCanceled();
      if !go {
        return Done;
      }
      ghost var later := s.Owed();
      if !last {
        DeliveryLater(owed, later, notices);
        go := TakeInput(notices, step);
        if !go {
          return Done;
        }
        KeepsOn(owed, later, s.Owed(), {}, Ids(notices));
        NoneSpent(owed, s.Owed(), Ids(notices));
        if |notices| > 0 {
          return Again;
        }
      }
      later := s.Owed();
      CompleteTurn(step);
      KeepsOn(owed, later, s.Owed(), {}, {});
      next := Done;
    }

    /** The completed turn's own end, accepted unless another party is compacting. */
    method CompleteTurn(ghost step: nat)
      requires Valid() && Between(p, s.View(), step) && s.View().at.assistant
      modifies this`p, s`touched, s.log
      ensures Valid() && s.touched >= old(s.touched) && (Ended(p) || p.outcome == Some(Completed)) && !p.panicked
      ensures s.touched == old(s.touched) ==> s.View().nodes == old(s.View()).nodes
      ensures s.touched == old(s.touched) && old(s.View()).at.compaction == "" ==>
        p.outcome == Some(Completed) && p.failure == NoError && !p.stepOpen
      ensures Keeps(old(s.Owed()), s.Owed(), {})
    {
      hide Order.Valid, Order.Fold, ViewOf, Session.Valid, Session.View, Session.Owed, SamePlace, Keeps;
      ghost var v, calm := s.View(), Alone();
      var ok;
      ghost var met;
      ok, met := Commit(TurnEnd(turn, Completed));
      SpentNone(TurnEnd(turn, Completed));
      PlaceTurn(s.mine, v, met);
      Elsewhere(p, turn, s.mine, first, v, met, calm, Alone());
      if !ok {
        Fail();
        return;
      }
      p := p.(turnOpen := false, outcome := Some(Completed));
    }

    /**
      Runs the calls and records what they returned, then takes steers and notices. Whether
      cancelled or not, results that answer the open calls are committed and the step ends;
      tools is the view the batch returned to.
     */
    method RunBatch(step: nat, last: bool, results: seq<ToolResult>, steers: seq<Message>, notices: seq<Message>)
      returns (next: Next, ghost tools: View)
      requires Valid() && step > 0 && Within(p, s.View(), step)
      modifies this`p, this`canceled, s`touched, s.log
      ensures Valid() && s.touched >= old(s.touched) && p.turnOpen
      ensures if next == Again then Between(p, s.View(), step) else Ended(p)
      ensures Batch(s.mine, old(s.View()), tools)
      ensures s.steady ==> !canceled && !p.panicked && tools.open.approvals == []
      ensures
        && !p.panicked && s.touched == old(s.touched) && old(s.View()).at.compaction == ""
        && tools.open.approvals == [] && Answered(old(s.View()).pending, results) ==>
        var input := if last then steers else steers + notices;
        if canceled then p.outcome == Some(Canceled) && Grew(old(s.View()).nodes, s.View().nodes, Returning(results))
        else Delivery(old(s.Owed()), input) ==>
          && Gained(old(s.View()).nodes, old(s.Owed()), Returning(results) + Saying(input), input)
          && next == Again && p.failure == NoError
    {
      hide Order.Valid, Order.Fold, ViewOf, Session.Valid, Session.View, Session.Owed, SamePlace, Consistent;
      hide Keeps, Delivery, Grew, Ids, Answered, Within, Between;
      ghost var v, calm, owed := s.View(), Alone(), s.Owed();
      StepIsOpen(step);
      s.RunTools(turn, step);
      tools := s.View();
      BatchInside(p, turn, s.mine, first, v, tools, calm, Alone(), step);
      InTurnStill(step);
      var panics := Panics();
      if panics {
        return Done, tools;
      }
      ghost var later := s.Owed();
      var ended := ReturnResults(step, results);
      KeepsOn(owed, later, s.Owed(), {}, {});
      if !ended {
        return Done, tools;
      }
      TurnIsOpen(step);
      var go := StopIfCanceled();
      if !go {
        return Done, tools;
      }
      var input := if last then steers else steers + notices;
      ghost var middle := s.View().nodes;
      later := s.Owed();
      DeliveryLater(owed, later, input);
      go := TakeInput(input, step);
      if go {
        TurnIsOpen(step);
        KeepsOn(owed, later, s.Owed(), {}, Ids(input));
        NoneSpent(owed, s.Owed(), Ids(input));
        GrewFurther(v.nodes, middle, s.View().nodes, Returning(results), Saying(input));
      }
      next := if go then Again else Done;
    }

    /** What the calls returned, and the step's end. */
    method ReturnResults(step: nat, results: seq<ToolResult>) returns (ended: bool)
      requires Valid() && step > 0 && Within(p, s.View(), step)
      modifies this`p, s`touched, s.log
      ensures Valid() && s.touched >= old(s.touched) && p.turnOpen
      ensures if ended then Between(p, s.View(), step) else Ended(p) && !p.panicked
      ensures
        s.touched == old(s.touched) && old(s.View()).at.compaction == "" && old(s.View()).open.approvals == [] ==>
        Answered(old(s.View()).pending, results) ==> ended
      ensures ended && s.touched == old(s.touched) ==> Grew(old(s.View()).nodes, s.View().nodes, Returning(results))
      ensures Keeps(old(s.Owed()), s.Owed(), {})
    {
      hide Order.Valid, Order.Fold, ViewOf, Session.Valid, Session.View, Session.Owed, SamePlace, Consistent;
      hide Keeps, Grew, Answered, Certain;
      ghost var v, owed := s.View(), s.Owed();
      KeepsSelf(owed);
      NoneReturned(v.nodes, v.pending, results);
      for i := 0 to |results|
        invariant Valid() && Within(p, s.View(), step) && s.touched >= old(s.touched)
        invariant s.View().open.approvals == v.open.approvals
        invariant Answered(v.pending, results) && v.open.approvals == [] ==>
          s.View().pending == v.pending - Answering(results[..i])
        invariant s.touched == old(s.touched) ==>
          s.View().at == v.at && Grew(v.nodes, s.View().nodes, Returning(results[..i]))
        invariant Keeps(owed, s.Owed(), {})
      {
        ghost var w, later := s.View(), s.Owed();
        StepIsOpen(step);
        NextResult(w, turn, step, v.pending, results, i);
        var ok := InStepRecord(CallResult(turn, step, results[i]), step);
        KeepsOn(owed, later, s.Owed(), {}, {});
        if !ok {
          Fail();
          return false;
        }
        OneMoreResult(v.nodes, w.nodes, s.View().nodes, results, i);
      }
      assert results[..|results|] == results;
      if Answered(v.pending, results) {
        AllAnswered(v.pending, results);
      }
      NoneMade(s);
      ghost var later := s.Owed();
      ended := CloseStep(step);
      KeepsOn(owed, later, s.Owed(), {}, {});
    }

    /** One step of the loop. */
    method OneStep(step: nat, last: bool, maxRetries: nat, limits: Limits, weight: Surfaces.Node -> nat, round: Round)
      returns (next: Next)
      requires Valid() && step > 0 && Between(p, s.View(), step - 1)
      modifies this`p, this`canceled, s`touched, s.log
      ensures Valid() && s.touched >= old(s.touched) && (next == Again ==> Between(p, s.View(), step))
      ensures next == Done ==> Ended(p) || p.outcome in {Some(MaxTokens), Some(Completed)}
      ensures
        && Smooth() && first.at.compaction == "" && !limits.windowKnown && Fair(round)
        && Delivery(old(s.Owed()), round.context + Taken(round, last)) ==>
        && Gained(old(s.View()).nodes, old(s.Owed()), StepItems(round, last), round.context + Taken(round, last))
        && p.failure == NoError && !p.panicked
        && if !Final(round, last) then next == Again
           else next == Done && p.outcome == Some(if round.truncated then MaxTokens else Completed) && !p.stepOpen
    {
      hide Order.Valid, Order.Fold, ViewOf, Session.Valid, Session.View, Session.Owed, Consistent, Within, Between, SamePlace;
      hide Keeps, Delivery, Grew, Ids, Fair, Taken, Worked, Final, NothingOpen;
      ghost var nodes, owed := s.View().nodes, s.Owed();
      DeliveredFirst(owed, round.context, Taken(round, last));
      FairAnswer(round);
      NoIds();
      var plan := AnySelection();
      var go := BeforeStep(step, limits, weight, plan, round.context);
      if !go {
        return Done;
      }
      ghost var asked, later := s.View().nodes, s.Owed();
      var reply := Ask(step, maxRetries, limits, weight, round.answer);
      if reply != Replied {
        return if reply == Stopped then Done else Again;
      }
      ghost var answered, last0 := s.View().nodes, s.Owed();
      StepIsOpen(step);
      if Alone() && first.at.compaction == "" {
        CalmHere();
      }
      StepInput(owed, later, last0, round.context, Taken(round, last));
      ghost var tools;
      next, tools := Follow(step, round, last);
      StepOn(nodes, asked, answered, s.View().nodes, owed, later, last0, s.Owed(), round, last);
    }

    /** Nobody else having compacted, no compaction is open. */
    lemma CalmHere()
      requires Valid() && Alone() && first.at.compaction == "" && !p.panicked
      ensures s.View().at.compaction == ""
    {}

    /** The step loop: a turn nothing disturbs plays its script to the end. */
    method Steps(maxSteps: nat, maxRetries: nat, limits: Limits, weight: Surfaces.Node -> nat, script: nat -> Round)
      requires Valid() && Between(p, s.View(), 0)
      modifies this`p, this`canceled, s`touched, s.log
      ensures Valid() && s.touched >= old(s.touched)
      ensures Ended(p) || p.outcome in {Some(MaxTokens), Some(Completed), Some(StepLimit)}
      ensures p.outcome == Some(StepLimit) ==> s.View().at.lastStep == maxSteps
      ensures
        && Smooth() && first.at.compaction == "" && !limits.windowKnown
        && FairScript(script, maxSteps) && Delivery(old(s.Owed()), Input(script, 1, maxSteps)) ==>
        && p.outcome == Some(Ending(script, 1, maxSteps)) && p.failure == NoError && !p.panicked && !p.stepOpen
        && Grew(old(s.View()).nodes, s.View().nodes, Played(script, 1, maxSteps))
    {
      hide Order.Valid, Order.Fold, ViewOf, Session.Valid, Session.View, Session.Owed, Consistent, Within, Between;
      hide Keeps, Delivery, Grew, Ids, FairScript, Fair, Played, Ending, Input, SamePlace, StepItems, Taken, Final, OnScript;
      ghost var nodes, done := s.View().nodes, [];
      ghost var fair := !limits.windowKnown && first.at.compaction == "" && FairScript(script, maxSteps)
                        && Delivery(s.Owed(), Input(script, 1, maxSteps));
      ScriptBegins(nodes, s.Owed(), script, maxSteps);
      for step := 1 to maxSteps + 1
        invariant Valid() && s.touched >= old(s.touched) && Between(p, s.View(), step - 1)
        invariant Smooth() && fair ==> OnScript(nodes, s.View().nodes, s.Owed(), done, script, step, maxSteps)
      {
        ghost var here, owed := s.View().nodes, s.Owed();
        var last := step == maxSteps;
        StepDeliverable(nodes, here, owed, done, script, step, maxSteps);
        var next := OneStep(step, last, maxRetries, limits, weight, script(step));
        ScriptGoesOn(nodes, here, s.View().nodes, owed, s.Owed(), done, script, step, maxSteps);
        if next == Done {
          return;
        }
        done := done + StepItems(script(step), last);
      }
      ScriptEnds(nodes, s.View().nodes, s.Owed(), done, script, maxSteps);
      TurnIsOpen(maxSteps);
      BegunBetween(maxSteps);
      assert s.View().at.lastStep == maxSteps by { LastStepIs(maxSteps); }
      Ends(p, p.(outcome := Some(StepLimit)), turn, s.mine, first, s.View(), Alone());
      p := p.(outcome := Some(StepLimit));
    }

    // ----- closeout -----

    /** Where a turn stands that its closeout could not end. */
    ghost predicate Abandoned(closing: Closing) reads s.log
      requires s.Valid()
    {
      && s.View().marks == first.marks + [TurnStart(turn)] && s.View().at.turn == turn
      && (s.View().at.step != 0 <==> !Unblocked(closing.step))
    }

    /** A turn that ended: nothing is open. */
    ghost predicate Closed() reads this`p, s.log
      requires s.Valid()
    {
      p.outcome.Some? && Idle(s.View()) && s.View().marks == first.marks + [TurnStart(turn), TurnEnd(turn, p.outcome.value)]
    }

    /**
      The deferred closeout: each open question is cancelled, each call without a result gets
      one, the step ends, and a failure is settled just before the turn does. The turn ends
      exactly when no compaction, of whatever party, was open at its step end and turn end.
     */
    method CloseOut() returns (ghost closing: Closing)
      requires Valid()
      requires Ended(p) || !p.begun || p.outcome in {Some(MaxTokens), Some(Completed), Some(StepLimit)}
      modifies this`p, this`canceled, s`touched, s.log
      ensures Live() && p == old(p).(outcome := p.outcome, failure := p.failure) && (old(canceled) ==> canceled)
      ensures !p.begun ==> s.View().marks == first.marks && s.View().at.turn == first.at.turn
      ensures closing.step.Some? <==> old(p).stepOpen
      ensures closing.turn.Some? <==> old(p).turnOpen
      ensures Met(old(s.log.records), closing)
      ensures closing.turn.Some? ==>
        && p.outcome.Some?
        && s.log.records == closing.turn.value + if s.View().at.turn == 0 then [TurnEnd(turn, p.outcome.value)] else []
      ensures p.begun ==>
        if Unblocked(closing.step) && Unblocked(closing.turn) then Closed() else Abandoned(closing)
      ensures p.outcome == if old(p).panicked then Some(Errored)
                           else if old(p).outcome == Some(Errored) then
                             Some(if canceled || old(p).failure == ContextCanceled then Canceled else Errored)
                           else old(p).outcome
      ensures p.failure == if old(p).panicked then Failed else old(p).failure
      ensures s.View().at.lastStep == old(s.View()).at.lastStep && s.View().at.assistant == old(s.View()).at.assistant
      ensures s.View().at.compaction == s.mine <==> old(s.View()).at.compaction == s.mine
      ensures p.begun && s.touched == touched && first.at.compaction == "" && s.View().at.turn != 0 ==>
        s.View().at.compaction == s.mine
      ensures s.touched >= old(s.touched)
      ensures s.touched == old(s.touched) ==>
        if old(p).stepOpen then Grew(old(s.View()).nodes, s.View().nodes, Interruptions(old(s.View()).open.calls))
        else s.View().nodes == old(s.View()).nodes
    {
      hide Order.Valid, Order.Fold, ViewOf, Session.Valid, Session.View, Consistent, Met, Unblocked, Abandoned;
      NothingMet(s.log.records);
      Standing();
      if p.panicked {
        p := p.(outcome := Some(Errored), failure := Failed);
      }
      closing := Closing(None, None);
      if p.turnOpen {
        closing := CloseTurn();
      } else {
        SettleFailure();
      }
    }

    /** A failure that was no panic is settled as cancelled or not, once. */
    method SettleFailure()
      modifies this`p, this`canceled
      ensures old(canceled) ==> canceled
      ensures p == old(p).(outcome := if !old(p).panicked && old(p).outcome == Some(Errored) then
                                        Some(if canceled || old(p).failure == ContextCanceled then Canceled else Errored)
                                      else old(p).outcome)
    {
      if !p.panicked && p.outcome == Some(Errored) {
        var outcome := OutcomeFor(p.failure);
        p := p.(outcome := Some(outcome));
      }
    }

    /** The closeout of an open turn. */
    method CloseTurn() returns (ghost closing: Closing)
      requires Live() && p.turnOpen && turn > 0 && s.View().at.turn == turn && s.View().marks == first.marks + [TurnStart(turn)]
      requires if p.stepOpen then InStep(s.View(), turn, p.openStep) && s.View().at.compaction != s.mine
               else s.View().at.step == 0 && s.View().open == Open([], [])
      requires p.outcome.Some? && (p.outcome == Some(MaxTokens) ==> s.View().at.assistant)
      modifies this`p, this`canceled, s`touched, s.log
      ensures Live() && p == old(p).(outcome := p.outcome) && (old(canceled) ==> canceled) && s.touched >= old(s.touched)
      ensures closing.step.Some? <==> p.stepOpen
      ensures closing.turn.Some? && Met(old(s.log.records), closing) && p.outcome.Some?
      ensures s.log.records == closing.turn.value + if s.View().at.turn == 0 then [TurnEnd(turn, p.outcome.value)] else []
      ensures if Unblocked(closing.step) && Unblocked(closing.turn) then Closed() else Abandoned(closing)
      ensures p.outcome == if !p.panicked && old(p).outcome == Some(Errored) then
                             Some(if canceled || p.failure == ContextCanceled then Canceled else Errored)
                           else old(p).outcome
      ensures s.View().at.lastStep == old(s.View()).at.lastStep && s.View().at.assistant == old(s.View()).at.assistant
      ensures s.View().at.compaction == s.mine <==> old(s.View()).at.compaction == s.mine
      ensures s.touched == old(s.touched) && s.View().at.turn != 0 ==>
        s.View().at.compaction == old(s.View()).at.compaction != ""
      ensures s.touched == old(s.touched) ==>
        if p.stepOpen then Grew(old(s.View()).nodes, s.View().nodes, Interruptions(old(s.View()).open.calls))
        else s.View().nodes == old(s.View()).nodes
    {
      hide Grew, Interruptions;
      hide Order.Valid, Order.Fold, ViewOf, Session.Valid, Session.View, Met, Unblocked;
      ghost var stepMet: Option<seq<Record>> := None;
      if p.stepOpen {
        ghost var met := CloseOpenStep();
        stepMet := Some(met);
      }
      UnblockedIs(stepMet);
      SettleFailure();
      ghost var turnMet := EndTurn(p.outcome.value);
      UnblockedIs(Some(turnMet));
      closing := Closing(stepMet, Some(turnMet));
      MetIs(old(s.log.records), closing);
    }

    /** Where an open turn stands when its closeout begins. */
    lemma Standing()
      requires Valid()
      ensures !p.begun ==> !p.turnOpen && s.View().marks == first.marks && s.View().at.turn == first.at.turn
      ensures p.begun && !p.turnOpen ==> Closed() && !p.stepOpen && !p.panicked && p.outcome == Some(Completed)
      ensures p.turnOpen ==> p.begun && turn > 0 && s.View().marks == first.marks + [TurnStart(turn)] && s.View().at.turn == turn
      ensures p.stepOpen ==> p.turnOpen && InStep(s.View(), turn, p.openStep) && s.View().at.compaction != s.mine
      ensures p.turnOpen && !p.stepOpen ==> InTurn(s.View(), turn) && s.View().open == Open([], [])
      ensures p.outcome == Some(MaxTokens) ==> s.View().at.assistant
      ensures s.touched == touched && first.at.compaction == "" ==> s.View().at.compaction in {"", s.mine}
    {}

    /** Pairs whatever the step left open, every record being accepted, and offers the step end to the log it meets. */
    method CloseOpenStep() returns (ghost met: seq<Record>)
      requires Live() && p.stepOpen && InStep(s.View(), turn, p.openStep) && s.View().at.compaction != s.mine
      modifies s`touched, s.log
      ensures Live() && s.touched >= old(s.touched) && old(s.log.records) <= met && Order.Valid(met)
      ensures Order.StateOf(met).In(turn, p.openStep)
      ensures Order.StateOf(met).work.calls == [] && Order.StateOf(met).work.approvals == []
      ensures s.log.records == met + if Order.StateOf(met).at.compaction == "" then [StepEnd(turn, p.openStep)] else []
      ensures s.View().marks == old(s.View()).marks && s.View().open == Open([], [])
      ensures s.View().at.compaction == Order.StateOf(met).at.compaction != s.mine
      ensures s.View().at == old(s.View()).at.(compaction := s.View().at.compaction,
                                               step := if Order.StateOf(met).at.compaction == "" then 0 else p.openStep)
      ensures s.touched == old(s.touched) ==>
        && s.View().at.compaction == old(s.View()).at.compaction
        && Grew(old(s.View()).nodes, s.View().nodes, Interruptions(old(s.View()).open.calls))
    {
      hide Order.Valid, Order.Fold, ViewOf, Session.Valid, Session.View, Unresolved, Grew, Interruptions;
      var approvals, calls := Unpaired();
      CancelQuestions(approvals, calls);
      InterruptCalls(calls);
      met := EndStep();
    }

    /** The step end is accepted exactly while no compaction is open. */
    method EndStep() returns (ghost met: seq<Record>)
      requires Live() && p.openStep > 0 && InStep(s.View(), turn, p.openStep) && s.View().open == Open([], [])
      requires s.View().at.compaction != s.mine
      modifies s`touched, s.log
      ensures Live() && s.touched >= old(s.touched) && old(s.log.records) <= met && Order.Valid(met)
      ensures Order.StateOf(met).In(turn, p.openStep)
      ensures Order.StateOf(met).work.calls == [] && Order.StateOf(met).work.approvals == []
      ensures s.log.records == met + if Order.StateOf(met).at.compaction == "" then [StepEnd(turn, p.openStep)] else []
      ensures s.View().marks == old(s.View()).marks && s.View().open == Open([], [])
      ensures s.View().at.compaction == Order.StateOf(met).at.compaction != s.mine
      ensures s.View().at == old(s.View()).at.(compaction := s.View().at.compaction,
                                               step := if Order.StateOf(met).at.compaction == "" then 0 else p.openStep)
      ensures s.touched == old(s.touched) ==>
        s.View().at.compaction == old(s.View()).at.compaction && s.View().nodes == old(s.View()).nodes
    {
      hide Order.Valid, Order.Fold, ViewOf, Session.Valid, Session.View;
      ghost var v := s.View();
      var ok;
      ok, met := s.Append(StepEnd(turn, p.openStep));
      BesideAside(s.mine, v, ViewOf(met));
      MetState(met);
    }

    /** The turn end is accepted exactly while its step is closed and no compaction is open. */
    method EndTurn(outcome: Outcome) returns (ghost met: seq<Record>)
      requires Live() && turn > 0 && s.View().at.turn == turn && (outcome == MaxTokens ==> s.View().at.assistant)
      modifies s`touched, s.log
      ensures Live() && s.touched >= old(s.touched) && old(s.log.records) <= met && Order.Valid(met)
      ensures var ended := old(s.View()).at.step == 0 && Order.StateOf(met).at.compaction == "";
        && s.log.records == met + (if ended then [TurnEnd(turn, outcome)] else [])
        && s.View().at == old(s.View()).at.(compaction := Order.StateOf(met).at.compaction, turn := if ended then 0 else turn)
        && s.View().marks == old(s.View()).marks + (if ended then [TurnEnd(turn, outcome)] else [])
        && s.View().open == old(s.View()).open
      ensures s.View().at.compaction == s.mine <==> old(s.View()).at.compaction == s.mine
      ensures s.touched == old(s.touched) ==> s.View().at.compaction == old(s.View()).at.compaction
      ensures s.touched == old(s.touched) ==> s.View().nodes == old(s.View()).nodes
    {
      hide Order.Valid, Order.Fold, ViewOf, Session.Valid, Session.View;
      ghost var v := s.View();
      var ok;
      ok, met := s.Append(TurnEnd(turn, outcome));
      BesideAside(s.mine, v, ViewOf(met));
      MetState(met);
    }

    /** The body of the run and its deferred closeout. */
    method All(message: Message, maxSteps: nat, maxRetries: nat, limits: Limits, weight: Surfaces.Node -> nat,
               notices: seq<Message>, script: nat -> Round)
      returns (ghost closing: Closing)
      requires Valid() && p == NOT_STARTED
      modifies this`p, this`canceled, s`touched, s.log
      ensures Live() && (first.at.turn != 0 ==> !p.begun)
      ensures !p.begun ==> s.View().marks == first.marks && s.View().at.turn == first.at.turn
      ensures p.begun ==>
        && p.outcome.Some?
        && if Unblocked(closing.step) && Unblocked(closing.turn) then Closed() else Abandoned(closing)
      ensures Met(start, closing)
      ensures closing.turn.Some? ==>
        && p.outcome.Some?
        && s.log.records == closing.turn.value + if s.View().at.turn == 0 then [TurnEnd(turn, p.outcome.value)] else []
      ensures p.begun && closing.turn.None? ==> p.outcome == Some(Completed)
      ensures p.outcome in {Some(MaxTokens), Some(Completed)} ==> s.View().at.assistant
      ensures p.outcome == Some(StepLimit) ==> s.View().at.lastStep == maxSteps
      ensures p.outcome == Some(Errored) ==> p.panicked || (!canceled && p.failure != ContextCanceled)
      ensures p.outcome == Some(Canceled) ==> canceled || p.failure == ContextCanceled
      ensures p.begun && s.touched == touched && first.at.compaction == "" && s.View().at.turn != 0 ==>
        p.panicked && s.View().at.compaction == s.mine
      ensures s.touched >= old(s.touched)
      ensures
        && Smooth() && first.at.turn == 0 && first.at.compaction == "" && !limits.windowKnown
        && FairScript(script, maxSteps) && Delivery(old(s.Owed()), [message] + notices + Input(script, 1, maxSteps)) ==>
        && p.begun && p.outcome == Some(Ending(script, 1, maxSteps)) && p.failure == NoError && !p.panicked
        && Grew(old(s.View()).nodes, s.View().nodes, Saying([message] + notices) + Played(script, 1, maxSteps))
    {
      hide Order.Valid, Order.Fold, ViewOf, Session.Valid, Session.View, Between, Consistent, Abandoned, Closed, Met, Unblocked;
      hide Session.Owed, Keeps, Delivery, Grew, Ids, FairScript, Played, Ending, Input;
      ghost var nodes, owed := s.View().nodes, s.Owed();
      DeliveredFirst(owed, [message] + notices, Input(script, 1, maxSteps));
      var go := OpenTurn(message, notices);
      if go {
        ghost var middle, later := s.View().nodes, s.Owed();
        BegunBetween(0);
        RestDelivered(owed, later, [message] + notices, Input(script, 1, maxSteps));
        Steps(maxSteps, maxRetries, limits, weight, script);
        GrewFurther(nodes, middle, s.View().nodes, Saying([message] + notices), Played(script, 1, maxSteps));
        EndingIs(script, 1, maxSteps);
      }
      Finished();
      ghost var body := s.log.records;
      closing := CloseOut();
      MetLater(start, body, closing);
    }

    /** What a finished body leaves to the closeout. */
    lemma Finished()
      requires Valid()
      ensures p.outcome in {Some(MaxTokens), Some(Completed)} ==> s.View().at.assistant
      ensures p.outcome == Some(Canceled) ==> canceled || p.failure == ContextCanceled
      ensures p.begun ==> first.at.turn == 0
      ensures p.begun && !p.turnOpen ==> p.outcome == Some(Completed) && !p.panicked
      ensures p.outcome in {Some(MaxTokens), Some(Completed), Some(StepLimit)} ==> p.begun
      ensures s.View().at.compaction == s.mine ==> p.panicked
    {}

    lemma BegunBetween(step: nat)
      requires Valid() && Between(p, s.View(), step)
      ensures p.begun
    {}

    /** The engine's own scan of the committed log. */
    method Unpaired() returns (approvals: seq<string>, calls: seq<string>)
      requires Live()
      ensures Open(approvals, calls) == s.View().open
      ensures OrderFacts.NoDup(approvals) && OrderFacts.NoDup(calls)
    {
      approvals, calls := FindUnresolved(s.log.records);
      UnresolvedAgrees(s.log.records);
      StatesOfValid(s.log.records);
    }

    method CancelQuestions(approvals: seq<string>, ghost calls: seq<string>)
      requires Live() && p.openStep > 0 && InStep(s.View(), turn, p.openStep) && s.View().at.compaction != s.mine
      requires s.View().open == Open(approvals, calls) && OrderFacts.NoDup(approvals)
      modifies s`touched, s.log
      ensures Live() && s.touched >= old(s.touched) && old(s.log.records) <= s.log.records
      ensures Paired(s.mine, old(s.View()), s.View(), calls)
      ensures s.touched == old(s.touched) ==>
        s.View().at.compaction == old(s.View()).at.compaction && s.View().nodes == old(s.View()).nodes
    {
      hide Order.Valid, Order.Fold, ViewOf, Session.Valid, Session.View, OrderFacts.NoDup;
      ghost var v := s.View();
      assert approvals[0..] == approvals;
      for i := 0 to |approvals|
        invariant Live() && s.touched >= old(s.touched) && old(s.log.records) <= s.log.records
        invariant Pairing(s.mine, v, s.View(), Open(approvals[i..], calls))
        invariant s.touched == old(s.touched) ==> s.View().at.compaction == v.at.compaction && s.View().nodes == v.nodes
      {
        WithoutFirst(approvals, i);
        ghost var w, met := s.View(), s.View();
        var ok;
        ok, met := Commit(ApprovalDecided(turn, p.openStep, approvals[i]));
        DecisionView(s.mine, v, w, met, turn, p.openStep, approvals[i], approvals[i..], calls, |s.log.records|);
      }
      assert approvals[|approvals|..] == [];
    }

    method InterruptCalls(calls: seq<string>)
      requires Live() && p.openStep > 0 && InStep(s.View(), turn, p.openStep) && s.View().at.compaction != s.mine
      requires s.View().open == Open([], calls) && OrderFacts.NoDup(calls)
      modifies s`touched, s.log
      ensures Live() && s.touched >= old(s.touched) && old(s.log.records) <= s.log.records
      ensures Paired(s.mine, old(s.View()), s.View(), [])
      ensures s.touched == old(s.touched) ==>
        && s.View().at.compaction == old(s.View()).at.compaction
        && Grew(old(s.View()).nodes, s.View().nodes, Interruptions(calls))
    {
      hide Order.Valid, Order.Fold, ViewOf, Session.Valid, Session.View, OrderFacts.NoDup;
      hide Grew, Interruptions;
      ghost var v := s.View();
      NoInterruption(v.nodes, calls);
      assert calls[0..] == calls;
      for i := 0 to |calls|
        invariant Live() && s.touched >= old(s.touched) && old(s.log.records) <= s.log.records
        invariant Pairing(s.mine, v, s.View(), Open([], calls[i..]))
        invariant s.touched == old(s.touched) ==>
          s.View().at.compaction == v.at.compaction && Grew(v.nodes, s.View().nodes, Interruptions(calls[..i]))
      {
        WithoutFirst(calls, i);
        ghost var w, met := s.View(), s.View();
        var ok;
        ok, met := Commit(CallResult(turn, p.openStep, InterruptedToolResult(calls[i])));
        ResultView(s.mine, v, w, met, turn, p.openStep, calls[i], calls[i..], |s.log.records|);
        OneMoreInterruption(v.nodes, w.nodes, s.View().nodes, calls, i);
      }
      assert calls[..|calls|] == calls;
      assert calls[|calls|..] == [];
    }
  }

  /** The open questions and calls are these now; otherwise only the transcript and others' compactions changed. */
  ghost predicate Pairing(mine: string, v: View, w: View, open: Open) {
    w == v.(open := open, pending := w.pending, nodes := w.nodes, at := v.at.(compaction := w.at.compaction)) && w.at.compaction != mine
  }

  ghost predicate Paired(mine: string, v: View, w: View, calls: seq<string>) { Pairing(mine, v, w, Open([], calls)) }

  lemma MetState(log: seq<Record>)
    requires Order.Valid(log)
    ensures ViewOf(log).at == Order.StateOf(log).at
    ensures ViewOf(log).open == Open(Order.StateOf(log).work.approvals, Order.StateOf(log).work.calls)
  {}

  /** The logs a closeout met extend the one it began with; the step's end, if accepted, came right after the first. */
  ghost predicate Met(before: seq<Record>, closing: Closing) {
    && (closing.step.Some? ==>
          && before <= closing.step.value && Order.Valid(closing.step.value)
          && Order.StateOf(closing.step.value).at.step != 0)
    && (closing.turn.Some? ==> before <= closing.turn.value && Order.Valid(closing.turn.value))
    && (closing.step.Some? && closing.turn.Some? ==>
          var at := Order.StateOf(closing.step.value).at;
          closing.step.value + (if at.compaction == "" then [StepEnd(at.turn, at.step)] else []) <= closing.turn.value)
  }

  lemma NothingMet(before: seq<Record>)
    ensures Met(before, Closing(None, None)) && Unblocked(None)
  {}

  lemma UnblockedIs(met: Option<seq<Record>>)
    ensures met.Some? && Order.Valid(met.value) ==> (Unblocked(met) <==> Order.StateOf(met.value).at.compaction == "")
    ensures met.None? ==> Unblocked(met)
  {}

  lemma MetIs(before: seq<Record>, closing: Closing)
    requires closing.turn.Some? && before <= closing.turn.value && Order.Valid(closing.turn.value)
    requires closing.step.Some? ==>
      && before <= closing.step.value && Order.Valid(closing.step.value)
      && var at := Order.StateOf(closing.step.value).at;
      && at.step != 0
      && closing.step.value + (if at.compaction == "" then [StepEnd(at.turn, at.step)] else []) <= closing.turn.value
    ensures Met(before, closing)
  {}

  lemma MetLater(before: seq<Record>, later: seq<Record>, closing: Closing)
    requires before <= later && Met(later, closing)
    ensures Met(before, closing)
  {}

  /**
    runTurn, on any log and beside any manual compactions. A turn that did not start leaves no
    mark, and on a log with an abandoned turn none starts. A turn whose start committed ends,
    with exactly one turn end carrying the returned outcome, exactly when its closeout's step
    end and turn end met no open compaction; otherwise it stays open for good. Alone on its
    log it is left open only by a provider panicking inside a compaction of its own. And where
    nothing goes wrong, on a closed log without pressure, the turn ends as its script does and
    the transcript gains exactly the opening, and then each step's context, answer, calls,
    results and input in order.
   */
  method RunTurn(s: Session, message: Message, maxSteps: nat, maxRetries: nat, limits: Limits, weight: Surfaces.Node -> nat,
                 notices: seq<Message>, script: nat -> Round)
    returns (result: TurnResult, ghost closing: Closing, ghost panicked: bool, ghost canceled: bool)
    requires s.Valid() && !s.turns && s.View().at.compaction != s.mine
    modifies s`touched, s.log
    ensures s.Valid() && old(s.log.records) <= s.log.records
    ensures !result.begun ==>
      Marks(s.log.records) == Marks(old(s.log.records)) && s.View().at.turn == old(s.View()).at.turn
    ensures result.begun ==>
      old(s.View()).at.turn == 0 && result.outcome.Some? && result.turn == LastTurn(old(s.log.records)) + 1
    ensures Met(old(s.log.records), closing)
    ensures closing.turn.Some? && result.begun ==>
      var end := if Order.ValidClosed(s.log.records) then [TurnEnd(result.turn, result.outcome.value)] else [];
      s.log.records == closing.turn.value + end
    ensures result.begun ==> (Order.ValidClosed(s.log.records) <==> Unblocked(closing.step) && Unblocked(closing.turn))
    ensures result.begun && Order.ValidClosed(s.log.records) ==>
      Marks(s.log.records) == Marks(old(s.log.records)) + [TurnStart(result.turn), TurnEnd(result.turn, result.outcome.value)]
    ensures result.begun && !Order.ValidClosed(s.log.records) ==>
      && Marks(s.log.records) == Marks(old(s.log.records)) + [TurnStart(result.turn)]
      && s.View().at.turn == result.turn && (s.View().at.step != 0 <==> !Unblocked(closing.step))
    ensures result.begun && s.touched == old(s.touched) && old(s.View()).at.compaction == "" && !Order.ValidClosed(s.log.records) ==>
      panicked && s.View().at.compaction == s.mine
    ensures result.outcome in {Some(MaxTokens), Some(Completed)} ==> s.View().at.assistant
    ensures result.outcome == Some(StepLimit) ==> s.View().at.lastStep == maxSteps
    ensures result.outcome == Some(Errored) ==> panicked || (!canceled && result.failure != ContextCanceled)
    ensures result.outcome == Some(Canceled) ==> canceled || result.failure == ContextCanceled
    ensures
      && s.steady && s.touched == old(s.touched) && !limits.windowKnown
      && old(s.View()).at.turn == 0 && old(s.View()).at.compaction == ""
      && FairScript(script, maxSteps) && Delivery(old(s.Owed()), [message] + notices + Input(script, 1, maxSteps)) ==>
      && result == TurnResult(LastTurn(old(s.log.records)) + 1, true, Some(Ending(script, 1, maxSteps)), NoError)
      && Grew(old(s.View()).nodes, s.View().nodes, Saying([message] + notices) + Played(script, 1, maxSteps))
  {
    ViewFacts(s);
    hide Order.Valid, Order.Fold, ViewOf, Session.Valid, Session.View, Marks, Order.ValidClosed, Ended, Between, Consistent, Met, Unblocked;
    hide Session.Owed, Keeps, Delivery, Grew, Ids, FairScript, Played, Ending, Input;
    var run := new Run(s);
    closing := run.All(message, maxSteps, maxRetries, limits, weight, notices, script);
    ViewFacts(s);
    panicked, canceled := run.p.panicked, run.canceled;
    result := TurnResult(run.turn, run.p.begun, run.p.outcome, run.p.failure);
  }

  /** A closed log is one whose view shows no open turn and no open compaction. */
  lemma ViewFacts(s: Session)
    requires s.Valid()
    ensures s.View().marks == Marks(s.log.records)
    ensures s.View().at.lastTurn == LastTurn(s.log.records)
    ensures Order.ValidClosed(s.log.records) <==> s.View().at.turn == 0 && s.View().at.compaction == ""
  {
    NextTurnAgrees(s.log.records);
  }

  // ----- an abandoned turn -----

  /** From an open turn on, as long as it does not end, no turn starts: whatever else is committed. */
  lemma {:induction false} AbandonedForGood(log: seq<Record>, more: seq<Record>)
    requires Order.Valid(log) && Order.StateOf(log).at.turn != 0 && Order.Valid(log + more)
    requires forall i :: 0 <= i < |more| ==> !more[i].TurnEnd?
    ensures Order.StateOf(log + more).at.turn == Order.StateOf(log).at.turn
    ensures forall i :: 0 <= i < |more| ==> !more[i].TurnStart?
    decreases |more|
  {
    hide *;
    if more == [] {
      assert log + more == log;
    } else {
      var n := |more| - 1;
      var front, last := more[..n], more[n];
      assert log + more == (log + front) + [last];
      OrderFacts.ValidSnoc(log + front, last);
      AbandonedForGood(log, front);
      TurnStays(log + front, Order.StateOf(log + front), last);
      SnocState(log + front, last);
    }
  }

  lemma SnocState(log: seq<Record>, record: Record)
    requires Order.Valid(log) && Order.Valid(log + [record])
    ensures Order.Step(log, Order.StateOf(log), record) == Some(Order.StateOf(log + [record]))
  {
    hide Order.Valid, Order.Fold, Order.Step;
    OrderFacts.ValidSnoc(log, record);
  }

  lemma TurnStays(log: seq<Record>, s: Order.State, record: Record)
    requires s.at.turn != 0 && !record.TurnEnd? && Order.Step(log, s, record).Some?
    ensures !record.TurnStart? && Order.Step(log, s, record).value.at.turn == s.at.turn
  {}

  /**
    The race on a log: a manual compaction opened inside a step makes the step's end refused,
    and once it ended the turn's end is refused too, because the step is still open.
   */
  lemma CompactionInsideStep(outcome: Outcome)
    ensures var log := [TurnStart(1), StepStart(1, 1), CompactionStart(0, "compact-1")];
      && Order.Valid(log) && !Order.Valid(log + [StepEnd(1, 1)])
      && Order.Valid(log + [CompactionEnd(0, "compact-1", "")])
      && !Order.Valid(log + [CompactionEnd(0, "compact-1", "")] + [TurnEnd(1, outcome)])
  {
    var r1, r2, r3, r4 := TurnStart(1), StepStart(1, 1), CompactionStart(0, "compact-1"), CompactionEnd(0, "compact-1", "");
    StepRaceOpens();
    StepRaceRefuses();
    TurnRaceRefuses([r1, r2, r3, r4], outcome);
    StepRaceGoesOn();
    RaceUnseen();
    assert [] + [r1] == [r1] && [r1] + [r2] == [r1, r2] && [r1, r2] + [r3] == [r1, r2, r3];
    assert [r1, r2, r3] + [r4] == [r1, r2, r3, r4];
    assert Order.Valid([]) && Order.StateOf([]) == Order.INIT;
    hide *;
    OrderFacts.ValidSnoc([], r1);
    OrderFacts.ValidSnoc([r1], r2);
    OrderFacts.ValidSnoc([r1, r2], r3);
    OrderFacts.ValidSnoc([r1, r2, r3], StepEnd(1, 1));
    OrderFacts.ValidSnoc([r1, r2, r3], r4);
    OrderFacts.ValidSnoc([r1, r2, r3, r4], TurnEnd(1, outcome));
  }

  function Racing(step: nat, compaction: string): Order.State {
    Order.INIT.(at := Order.INIT.at.(turn := 1, lastTurn := 1, step := step, lastStep := step, compaction := compaction))
  }

  lemma StepRaceOpens()
    ensures var r1, r2 := TurnStart(1), StepStart(1, 1);
      && Order.Step([], Order.INIT, r1) == Some(Racing(0, "")) && Order.Step([r1], Racing(0, ""), r2) == Some(Racing(1, ""))
      && WellFormed(r1) && WellFormed(r2)
  {}

  lemma StepRaceRefuses()
    ensures var r1, r2, r3, r4 := TurnStart(1), StepStart(1, 1), CompactionStart(0, "compact-1"), CompactionEnd(0, "compact-1", "");
      && Order.Step([r1, r2], Racing(1, ""), r3) == Some(Racing(1, "compact-1"))
      && Order.Step([r1, r2, r3], Racing(1, "compact-1"), StepEnd(1, 1)).None? && WellFormed(r3) && WellFormed(r4)
  {}

  lemma TurnRaceRefuses(log: seq<Record>, outcome: Outcome)
    ensures Order.Step(log, Racing(1, ""), TurnEnd(1, outcome)).None?
  {}

  lemma StepRaceGoesOn()
    ensures var r1, r2, r3, r4 := TurnStart(1), StepStart(1, 1), CompactionStart(0, "compact-1"), CompactionEnd(0, "compact-1", "");
      Order.Step([r1, r2, r3], Racing(1, "compact-1"), r4) == Some(Racing(1, ""))
  {}

  lemma RaceUnseen()
    ensures forall nodes: seq<Surfaces.Node>, n: nat :: Surfaces.Visible(nodes, n, TurnStart(1)) == Some(nodes)
    ensures forall nodes: seq<Surfaces.Node>, n: nat :: Surfaces.Visible(nodes, n, StepStart(1, 1)) == Some(nodes)
    ensures forall nodes: seq<Surfaces.Node>, n: nat :: Surfaces.Visible(nodes, n, CompactionStart(0, "compact-1")) == Some(nodes)
    ensures forall nodes: seq<Surfaces.Node>, n: nat :: Surfaces.Visible(nodes, n, CompactionEnd(0, "compact-1", "")) == Some(nodes)
  {}

  /** The same race between steps: only the turn's end is refused, and no later turn starts. */
  lemma CompactionInsideTurn(later: nat)
    ensures var log := [TurnStart(1), CompactionStart(0, "compact-1")];
      && Order.Valid(log) && !Order.Valid(log + [TurnEnd(1, Errored)])
      && Order.Valid(log + [CompactionEnd(0, "compact-1", "")])
      && !Order.Valid(log + [CompactionEnd(0, "compact-1", "")] + [TurnStart(later)])
  {
    var r1, r2, r3 := TurnStart(1), CompactionStart(0, "compact-1"), CompactionEnd(0, "compact-1", "");
    var s1 := Order.INIT.(at := Order.INIT.at.(turn := 1, lastTurn := 1));
    var s2 := s1.(at := s1.at.(compaction := "compact-1"));
    assert Order.Step([], Order.INIT, r1) == Some(s1);
    assert Order.Step([r1], s1, r2) == Some(s2);
    assert Order.Step([r1, r2], s2, r3) == Some(s1);
    assert Order.Step([r1, r2], s2, TurnEnd(1, Errored)).None?;
    assert Order.Step([r1, r2, r3], s1, TurnStart(later)).None?;
    assert WellFormed(r1) && WellFormed(r2) && WellFormed(r3);
    assert Order.Valid([]);
    assert [] + [r1] == [r1] && [r1] + [r2] == [r1, r2] && [r1, r2] + [r3] == [r1, r2, r3];
    hide Order.Step, WellFormed;
    OrderFacts.ValidSnoc([], r1);
    OrderFacts.ValidSnoc([r1], r2);
    OrderFacts.ValidSnoc([r1, r2], r3);
    OrderFacts.ValidSnoc([r1, r2], TurnEnd(1, Errored));
    OrderFacts.ValidSnoc([r1, r2, r3], TurnStart(later));
  }

  /** No turn, step, question, call or compaction is open. */
  ghost predicate Idle(v: View) {
    v.at.turn == 0 && v.at.step == 0 && v.at.compaction == "" && v.open == Open([], [])
  }

  lemma DecisionView(mine: string, v: View, w: View, met: View, turn: nat, step: nat, id: string, approvals: seq<string>,
                     calls: seq<string>, seqNo: nat)
    requires turn > 0 && step > 0 && InStep(v, turn, step) && Pairing(mine, v, w, Open(approvals, calls)) && id in approvals
    requires Aside(w, met) && (w.at.compaction == mine <==> met.at.compaction == mine)
    ensures Certain(met, ApprovalDecided(turn, step, id))
    ensures Pairing(mine, v, After(met, ApprovalDecided(turn, step, id), seqNo), Open(Without(approvals, id), calls))
    ensures After(met, ApprovalDecided(turn, step, id), seqNo).at == met.at
    ensures After(met, ApprovalDecided(turn, step, id), seqNo).nodes == met.nodes
  {}

  lemma ResultView(mine: string, v: View, w: View, met: View, turn: nat, step: nat, id: string, calls: seq<string>, seqNo: nat)
    requires turn > 0 && step > 0 && InStep(v, turn, step) && Pairing(mine, v, w, Open([], calls)) && id in calls
    requires Aside(w, met) && (w.at.compaction == mine <==> met.at.compaction == mine)
    ensures Certain(met, CallResult(turn, step, InterruptedToolResult(id)))
    ensures Pairing(mine, v, After(met, CallResult(turn, step, InterruptedToolResult(id)), seqNo), Open([], Without(calls, id)))
    ensures After(met, CallResult(turn, step, InterruptedToolResult(id)), seqNo).at == met.at
    ensures Grew(met.nodes, After(met, CallResult(turn, step, InterruptedToolResult(id)), seqNo).nodes,
                 [Returned(InterruptedToolResult(id))])
  {}

  /** A way out of the run: an outcome is set, or it panicked. */
  predicate Ended(p: Progress) {
    (p.panicked && p.outcome == None) || p.outcome == Some(Canceled) || p.outcome == Some(Errored)
  }

  lemma SelfPlace(mine: string, v: View)
    ensures SamePlace(mine, v, v) && Aside(v, v)
  {}

  lemma BesidePlace(mine: string, v: View, w: View)
    requires Beside(mine, false, v, w)
    ensures SamePlace(mine, v, w) && Aside(v, w)
    ensures Calm(false, v, w) ==> w == v
  {}

  lemma AsidePlace(mine: string, v: View, w: View)
    requires Aside(v, w) && (v.at.compaction == mine <==> w.at.compaction == mine)
    ensures SamePlace(mine, v, w)
  {}

  lemma BoundaryElsewhere(mine: string, v: View, w: View)
    requires PlanModes.Boundary(mine, v, w)
    ensures SamePlace(mine, v, w)
  {}

  lemma BrokenCompaction(p: Progress, turn: nat, mine: string, first: View, v: View, w: View, calm: bool, calmNow: bool)
    requires Consistent(p, turn, mine, first, v, calm) && Aside(v, w) && w.at.compaction == mine && (calmNow ==> calm)
    requires p.turnOpen && !p.stepOpen
    ensures Consistent(p.(panicked := true), turn, mine, first, w, calmNow)
  {}

  // ----- calls and results of one answer -----

  function ItemOf(record: Record): Item
    requires record.CallMade? || record.CallResult?
  {
    if record.CallMade? then Called(record.call) else Returned(record.result)
  }

  /** Whether a call or a result is accepted does not depend on what others did. */
  lemma WorkCertain(v: View, w: View, record: Record)
    requires w.at == v.at.(plan := w.at.plan, compaction := w.at.compaction) && w.open == v.open && w.pending == v.pending
    requires record.CallMade? || record.CallResult?
    ensures Certain(v, record) <==> Certain(w, record)
  {}

  lemma NoneYet(nodes: seq<Surfaces.Node>, pending: map<string, ToolCall>, calls: seq<ToolCall>)
    ensures Grew(nodes, nodes, Calling(calls[..0])) && Made(pending, calls[..0]) == pending
  {}

  lemma NextCall(v: View, turn: nat, step: nat, pending: map<string, ToolCall>, calls: seq<ToolCall>, i: nat)
    requires i < |calls| && InStep(v, turn, step) && v.pending == Made(pending, calls[..i])
    ensures v.at.assistant && Callable(pending, calls) ==> Certain(v, CallMade(turn, step, calls[i]))
  {
    MadeIs(pending, calls[..i]);
    if Callable(pending, calls) {
      forall j | 0 <= j < i ensures calls[..i][j].id != calls[i].id {}
    }
  }

  lemma OneMoreCall(before: seq<Surfaces.Node>, middle: seq<Surfaces.Node>, after: seq<Surfaces.Node>,
                    pending: map<string, ToolCall>, calls: seq<ToolCall>, i: nat)
    requires i < |calls|
    ensures Made(pending, calls[..i + 1]) == Made(pending, calls[..i])[calls[i].id := calls[i]]
    ensures Grew(before, middle, Calling(calls[..i])) && Grew(middle, after, [Called(calls[i])]) ==>
      Grew(before, after, Calling(calls[..i + 1]))
  {
    MadeNext(pending, calls, i);
    Prefixes([], calls, [], i);
    GrewFurther(before, middle, after, Calling(calls[..i]), [Called(calls[i])]);
  }

  lemma GrewFurther(before: seq<Surfaces.Node>, middle: seq<Surfaces.Node>, after: seq<Surfaces.Node>, items: seq<Item>, more: seq<Item>)
    ensures Grew(before, middle, items) && Grew(middle, after, more) ==> Grew(before, after, items + more)
  {
    if Grew(before, middle, items) && Grew(middle, after, more) {
      GrewOn(before, middle, after, items, more);
    }
  }

  lemma NoneReturned(nodes: seq<Surfaces.Node>, pending: map<string, ToolCall>, results: seq<ToolResult>)
    ensures Grew(nodes, nodes, Returning(results[..0])) && pending - Answering(results[..0]) == pending
  {}

  lemma NextResult(v: View, turn: nat, step: nat, pending: map<string, ToolCall>, results: seq<ToolResult>, i: nat)
    requires i < |results| && InStep(v, turn, step)
    ensures Answered(pending, results) && v.open.approvals == [] && v.pending == pending - Answering(results[..i]) ==>
      && Certain(v, CallResult(turn, step, results[i]))
      && v.pending - {results[i].callId} == pending - Answering(results[..i + 1])
  {
    if Answered(pending, results) {
      AnswersNext(pending, results, i);
    }
  }

  lemma OneMoreResult(before: seq<Surfaces.Node>, middle: seq<Surfaces.Node>, after: seq<Surfaces.Node>, results: seq<ToolResult>, i: nat)
    requires i < |results|
    ensures Grew(before, middle, Returning(results[..i])) && Grew(middle, after, [Returned(results[i])]) ==>
      Grew(before, after, Returning(results[..i + 1]))
  {
    Prefixes([], [], results, i);
    GrewFurther(before, middle, after, Returning(results[..i]), [Returned(results[i])]);
  }

  /** The results that calls left open get. */
  function Interruptions(calls: seq<string>): seq<Item> {
    seq(|calls|, i requires 0 <= i < |calls| => Returned(InterruptedToolResult(calls[i])))
  }

  lemma NoInterruption(nodes: seq<Surfaces.Node>, calls: seq<string>)
    ensures Grew(nodes, nodes, Interruptions(calls[..0]))
  {}

  lemma OneMoreInterruption(before: seq<Surfaces.Node>, middle: seq<Surfaces.Node>, after: seq<Surfaces.Node>, calls: seq<string>, i: nat)
    requires i < |calls|
    ensures Grew(before, middle, Interruptions(calls[..i])) && Grew(middle, after, [Returned(InterruptedToolResult(calls[i]))]) ==>
      Grew(before, after, Interruptions(calls[..i + 1]))
  {
    assert Interruptions(calls[..i + 1]) == Interruptions(calls[..i]) + [Returned(InterruptedToolResult(calls[i]))];
    GrewFurther(before, middle, after, Interruptions(calls[..i]), [Returned(InterruptedToolResult(calls[i]))]);
  }

  lemma DeliveryLater(owed: map<string, Message>, later: map<string, Message>, messages: seq<Message>)
    requires Keeps(owed, later, {})
    ensures Delivery(owed, messages) ==> Delivery(later, messages)
  {}

  // ----- the script -----

  lemma NoCalls(r: Round)
    requires r.calls == []
    ensures Made(map[], r.calls) == map[]
    ensures Fair(r) && !r.truncated ==> Worked(r) == [] && Calling(r.calls) == []
  {
    if Fair(r) && !r.truncated {
      assert |r.results| > 0 ==> Answers(map[], r.results[0]);
    }
  }

  /** What follows the calls of an answer, after them. */
  lemma AfterCalls(before: seq<Surfaces.Node>, middle: seq<Surfaces.Node>, after: seq<Surfaces.Node>, r: Round, last: bool)
    requires !r.truncated
    ensures Grew(before, middle, Calling(r.calls)) && Grew(middle, after, Returning(r.results)) ==> Grew(before, after, Worked(r))
    ensures Grew(before, middle, Calling(r.calls)) && Grew(middle, after, Returning(r.results) + Saying(Taken(r, last))) ==>
      Grew(before, after, Worked(r) + Saying(Taken(r, last)))
  {
    hide Grew;
    var input := Saying(Taken(r, last));
    GrewFurther(before, middle, after, Calling(r.calls), Returning(r.results));
    GrewFurther(before, middle, after, Calling(r.calls), Returning(r.results) + input);
    assert Calling(r.calls) + (Returning(r.results) + input) == Worked(r) + input;
  }

  lemma KeepsFurther(owed: map<string, Message>, later: map<string, Message>, last: map<string, Message>, spent: set<string>)
    requires Keeps(later, last, {})
    ensures Keeps(owed, later, spent) ==> Keeps(owed, last, spent)
  {}

  lemma KeepsFrom(owed: map<string, Message>, later: map<string, Message>, last: map<string, Message>, spent: set<string>)
    requires Keeps(owed, later, {})
    ensures Keeps(later, last, spent) ==> Keeps(owed, last, spent)
  {}

  lemma FairAnswer(r: Round)
    ensures Fair(r) ==> WellFormedMessage(r.answer, false)
  {}

  lemma DeliveredFirst(owed: map<string, Message>, messages: seq<Message>, more: seq<Message>)
    ensures Delivery(owed, messages + more) ==> Delivery(owed, messages)
  {
    if Delivery(owed, messages + more) {
      DeliverySplit(owed, messages, more);
    }
  }

  /** What precedes a step: the transcript reduced where it had to be, then a switch's notice if one is due, then the context. */
  ghost predicate Prepared(turn: nat, limits: Limits, weight: Surfaces.Node -> nat, context: seq<Message>,
                           before: seq<Surfaces.Node>, after: seq<Surfaces.Node>) {
    exists compacted, told ::
      && Reduced(Compaction.Request(turn, false, false), limits, weight, before, compacted)
      && Announced(compacted, told) && Grew(told, after, Saying(context))
  }

  ghost predicate Announced(before: seq<Surfaces.Node>, after: seq<Surfaces.Node>) {
    after == before || exists n, mode :: after == before + [Surfaces.MessageNode(n, PlanModes.Notice(mode))]
  }

  lemma AnnouncedIf(own: seq<Record>, notify: bool, mode: bool, before: seq<Surfaces.Node>, after: seq<Surfaces.Node>)
    requires PlanModes.Told(own, notify, mode, before, after)
    ensures Announced(before, after)
  {}

  lemma PreparedIs(turn: nat, limits: Limits, weight: Surfaces.Node -> nat, context: seq<Message>,
                   before: seq<Surfaces.Node>, compacted: seq<Surfaces.Node>, told: seq<Surfaces.Node>, after: seq<Surfaces.Node>)
    requires Reduced(Compaction.Request(turn, false, false), limits, weight, before, compacted)
    requires Announced(compacted, told) && Grew(told, after, Saying(context))
    ensures Prepared(turn, limits, weight, context, before, after)
  {
    hide Reduced, Announced, Grew;
  }

  /** The input at the end of a step can be delivered after its context was. */
  lemma StepInput(owed: map<string, Message>, later: map<string, Message>, last: map<string, Message>,
                  context: seq<Message>, taken: seq<Message>)
    ensures Keeps(owed, later, Ids(context)) && Keeps(later, last, {}) && Delivery(owed, context + taken) ==> Delivery(last, taken)
  {
    hide Keeps, Delivery, Ids;
    if Keeps(owed, later, Ids(context)) && Keeps(later, last, {}) {
      KeepsOn(owed, later, last, Ids(context), {});
      RestDelivered(owed, last, context, taken);
    }
  }

  /** A step's four stretches of transcript in a row. */
  lemma StepOn(before: seq<Surfaces.Node>, asked: seq<Surfaces.Node>, answered: seq<Surfaces.Node>, after: seq<Surfaces.Node>,
               owed: map<string, Message>, later: map<string, Message>, last0: map<string, Message>, end: map<string, Message>,
               r: Round, last: bool)
    ensures Grew(before, asked, Saying(r.context)) && Grew(asked, answered, [Said(r.answer)]) ==>
      Grew(answered, after, Worked(r) + Saying(Taken(r, last))) ==> Grew(before, after, StepItems(r, last))
    ensures Keeps(owed, later, Ids(r.context)) && Keeps(later, last0, {}) && Keeps(last0, end, Ids(Taken(r, last))) ==>
      Keeps(owed, end, Ids(r.context + Taken(r, last)))
  {
    hide Taken, Worked, Grew, Keeps, Ids;
    var first, middle, rest := Saying(r.context), [Said(r.answer)], Worked(r) + Saying(Taken(r, last));
    GrewFurther(before, asked, answered, first, middle);
    GrewFurther(before, answered, after, first + middle, rest);
    assert first + middle + rest == StepItems(r, last);
    IdsSplit(r.context, Taken(r, last));
    if Keeps(owed, later, Ids(r.context)) && Keeps(later, last0, {}) && Keeps(last0, end, Ids(Taken(r, last))) {
      KeepsOn(owed, later, last0, Ids(r.context), {});
      KeepsOn(owed, last0, end, Ids(r.context), Ids(Taken(r, last)));
    }
  }

  lemma {:induction false} EndingIs(script: nat -> Round, step: nat, maxSteps: nat)
    ensures Ending(script, step, maxSteps) in {StepLimit, MaxTokens, Completed}
    decreases maxSteps + 1 - step
  {
    if step <= maxSteps {
      EndingIs(script, step + 1, maxSteps);
    }
  }

  /** What is done is what the script's steps before this one add; the rest can still be played. */
  ghost predicate OnScript(before: seq<Surfaces.Node>, here: seq<Surfaces.Node>, owed: map<string, Message>, done: seq<Item>,
                           script: nat -> Round, step: nat, maxSteps: nat) {
    && FairScript(script, maxSteps) && Grew(before, here, done) && Delivery(owed, Input(script, step, maxSteps))
    && done + Played(script, step, maxSteps) == Played(script, 1, maxSteps)
    && Ending(script, step, maxSteps) == Ending(script, 1, maxSteps)
  }

  lemma ScriptBegins(nodes: seq<Surfaces.Node>, owed: map<string, Message>, script: nat -> Round, maxSteps: nat)
    ensures FairScript(script, maxSteps) && Delivery(owed, Input(script, 1, maxSteps)) ==>
      OnScript(nodes, nodes, owed, [], script, 1, maxSteps)
  {
    hide FairScript, Delivery, Input, Played, Ending;
    assert [] + Played(script, 1, maxSteps) == Played(script, 1, maxSteps);
  }

  /** One step of the script apart from the rest. */
  lemma ScriptStep(script: nat -> Round, step: nat, maxSteps: nat)
    requires step <= maxSteps
    ensures var r, last := script(step), step == maxSteps;
      && Played(script, step, maxSteps) == StepItems(r, last) + (if Final(r, last) then [] else Played(script, step + 1, maxSteps))
      && Input(script, step, maxSteps)
         == r.context + Taken(r, last) + (if Final(r, last) then [] else Input(script, step + 1, maxSteps))
      && Ending(script, step, maxSteps)
         == if !Final(r, last) then Ending(script, step + 1, maxSteps) else if r.truncated then MaxTokens else Completed
  {
    hide StepItems, Taken;
  }

  lemma StepDeliverable(before: seq<Surfaces.Node>, here: seq<Surfaces.Node>, owed: map<string, Message>, done: seq<Item>,
                        script: nat -> Round, step: nat, maxSteps: nat)
    requires 1 <= step <= maxSteps
    ensures OnScript(before, here, owed, done, script, step, maxSteps) ==>
      var r, last := script(step), step == maxSteps;
      Fair(r) && Delivery(owed, r.context + Taken(r, last))
  {
    hide Fair, Delivery, Played, Ending, Input, StepItems, Taken, Final, Grew;
    var r, last := script(step), step == maxSteps;
    ScriptStep(script, step, maxSteps);
    DeliveredFirst(owed, r.context + Taken(r, last), if Final(r, last) then [] else Input(script, step + 1, maxSteps));
  }

  lemma ScriptGoesOn(before: seq<Surfaces.Node>, here: seq<Surfaces.Node>, after: seq<Surfaces.Node>,
                     owed: map<string, Message>, later: map<string, Message>, done: seq<Item>,
                     script: nat -> Round, step: nat, maxSteps: nat)
    requires 1 <= step <= maxSteps
    ensures var r, last := script(step), step == maxSteps;
      OnScript(before, here, owed, done, script, step, maxSteps)
      && Grew(here, after, StepItems(r, last)) && Keeps(owed, later, Ids(r.context + Taken(r, last))) ==>
        if Final(r, last) then
          Grew(before, after, Played(script, 1, maxSteps))
          && Ending(script, 1, maxSteps) == if r.truncated then MaxTokens else Completed
        else OnScript(before, after, later, done + StepItems(r, last), script, step + 1, maxSteps)
  {
    hide FairScript, Delivery, Played, Ending, Input, StepItems, Taken, Final, Grew, Keeps, Ids;
    var r, last := script(step), step == maxSteps;
    var items, rest := StepItems(r, last), if Final(r, last) then [] else Played(script, step + 1, maxSteps);
    ScriptStep(script, step, maxSteps);
    GrewFurther(before, here, after, done, items);
    assert done + (items + rest) == done + items + rest;
    assert items + [] == items && done + items + [] == done + items;
    if !Final(r, last) {
      RestDelivered(owed, later, r.context + Taken(r, last), Input(script, step + 1, maxSteps));
    }
  }

  lemma ScriptEnds(before: seq<Surfaces.Node>, here: seq<Surfaces.Node>, owed: map<string, Message>, done: seq<Item>,
                   script: nat -> Round, maxSteps: nat)
    ensures OnScript(before, here, owed, done, script, maxSteps + 1, maxSteps) ==>
      Grew(before, here, Played(script, 1, maxSteps)) && Ending(script, 1, maxSteps) == StepLimit
  {
    hide FairScript, Delivery, Input, Grew;
    assert done + [] == done;
  }

  /** A call or a result of the open step keeps the run where it is. */
  lemma WorkInside(p: Progress, turn: nat, mine: string, first: View, v: View, w: View, record: Record, seqNo: nat, calm: bool, step: nat)
    requires Consistent(p, turn, mine, first, v, calm) && Within(p, v, step)
    requires (record.CallMade? || record.CallResult?) && w == After(v, record, seqNo)
    ensures Consistent(p, turn, mine, first, w, calm) && Within(p, w, step) && w.at == v.at
    ensures Grew(v.nodes, w.nodes, [ItemOf(record)])
    ensures w.pending == PendingStep(v.pending, record) && w.open.approvals == v.open.approvals
  {}

  lemma BatchInside(p: Progress, turn: nat, mine: string, first: View, v: View, w: View, calm: bool, calmNow: bool, step: nat)
    requires Consistent(p, turn, mine, first, v, calm) && Within(p, v, step) && Batch(mine, v, w)
    requires calmNow ==> calm && w.at.compaction == v.at.compaction
    ensures Consistent(p, turn, mine, first, w, calmNow) && Within(p, w, step)
  {}

  /** The notice a record delivers. */
  function Spent(record: Record): set<string> {
    if record.UserMessage? then {record.message.source.noticeId} else {}
  }

  /** Without calls nothing is open. */
  lemma NoneMade(s: Session)
    requires s.Valid()
    ensures s.View().pending == map[] ==> s.View().open.calls == []
  {
    var calls := s.View().open.calls;
    s.PendingListed();
    assert |calls| > 0 ==> calls[0] in calls;
  }

  predicate Retries(record: Record) { record.Retry? || record.RetryStarted? }

  /** One log extends another by this record, if accepted, after records of others, none of them a chunk or a retry. */
  ghost predicate Adds(before: seq<Record>, after: seq<Record>, ok: bool, record: Record) {
    && before <= after && (ok ==> |after| > |before| && after[|after| - 1] == record)
    && forall i :: |before| <= i < |after| - (if ok then 1 else 0) ==> !after[i].AssistantChunk? && !Retries(after[i])
  }

  ghost predicate NoChunkSince(log: seq<Record>, n: nat) { forall i :: n <= i < |log| ==> !log[i].AssistantChunk? }

  ghost predicate NoRetrySince(log: seq<Record>, n: nat) { forall i :: n <= i < |log| ==> !Retries(log[i]) }

  lemma ForeignAdds(mine: string, before: seq<Record>, met: seq<Record>, record: Record)
    requires before <= met && forall i :: |before| <= i < |met| ==> Foreign(mine, false, met[i])
    ensures Adds(before, met, false, record) && Adds(before, met + [record], true, record)
  {}

  lemma AddsNothing(log: seq<Record>, record: Record)
    ensures Adds(log, log, false, record)
  {}

  lemma NothingSince(log: seq<Record>)
    ensures NoRetrySince(log, |log|) && NoChunkSince(log, |log|)
  {}

  lemma OneNoted(before: seq<Record>, after: seq<Record>, ok: bool, record: Record)
    requires Adds(before, after, ok, record)
    ensures before <= after
    ensures Retries(record) ==> NoChunkSince(after, |before|)
    ensures record.AssistantChunk? ==> NoRetrySince(after, |before|)
  {}

  lemma ChunkNoted(first: seq<Record>, before: seq<Record>, after: seq<Record>, ok: bool, record: Record)
    requires first <= before && NoRetrySince(before, |first|) && Adds(before, after, ok, record) && record.AssistantChunk?
    ensures first <= after && NoRetrySince(after, |first|)
  {
    assert before <= after && forall i :: 0 <= i < |before| ==> after[i] == before[i];
  }

  /** A stream adds no retry after the chunks it adds, nor before them. */
  lemma NoRetryYet(before: seq<Record>, after: seq<Record>, n: nat)
    requires n <= |before| && before <= after && NoChunkSince(before, n) && NoRetrySince(after, |before|)
    ensures forall i, j :: n <= i < j < |after| && after[i].AssistantChunk? ==> !Retries(after[j])
    ensures NoChunkSince(after, |before|) ==> NoChunkSince(after, n)
  {
    assert forall i :: 0 <= i < |before| ==> after[i] == before[i];
  }

  lemma Unspoken(log: seq<Record>, n: nat)
    requires NoChunkSince(log, n)
    ensures forall i, j :: n <= i < j < |log| && log[i].AssistantChunk? ==> !Retries(log[j])
  {}

  lemma StillUnspoken(before: seq<Record>, after: seq<Record>, n: nat)
    requires n <= |before| && before <= after && NoChunkSince(before, n) && NoChunkSince(after, |before|)
    ensures NoChunkSince(after, n)
    ensures forall i, j :: n <= i < j < |after| && after[i].AssistantChunk? ==> !Retries(after[j])
  {
    assert forall i :: 0 <= i < |before| ==> after[i] == before[i];
  }

  lemma SpentNone(record: Record)
    requires !record.UserMessage?
    ensures Spent(record) == {}
  {}

  lemma NoIds()
    ensures Ids([]) == {}
  {}

  lemma Spending(owed: map<string, Message>, later: map<string, Message>, record: Record)
    requires Keeps(owed, later, {}) && !record.NoticeQueued?
    ensures Keeps(owed, later, Spent(record)) && Keeps(owed, OwedStep(later, record), Spent(record))
  {}

  lemma NoneSpent(owed: map<string, Message>, later: map<string, Message>, spent: set<string>)
    ensures Keeps(owed, later, {} + spent) <==> Keeps(owed, later, spent)
  {
    assert {} + spent == spent;
  }

  lemma DeliverableLater(owed: map<string, Message>, later: map<string, Message>, message: Message)
    requires Keeps(owed, later, {})
    ensures Deliverable(owed, message) ==> Deliverable(later, message)
  {}

  lemma DeliversLater(v: View, owed: map<string, Message>, later: map<string, Message>, record: Record)
    requires Keeps(owed, later, {})
    ensures Delivers(v, owed, record) ==> Delivers(v, later, record)
  {}

  lemma InStepStill(mine: string, v: View, w: View, turn: nat, step: nat)
    requires SamePlace(mine, v, w)
    ensures InStep(v, turn, step) <==> InStep(w, turn, step)
  {}

  lemma HeaderView(mine: string, v: View, w: View, turn: nat, step: nat, seqNo: nat)
    requires SamePlace(mine, v, w)
    ensures SamePlace(mine, v, After(w, RequestHeader(turn, step), seqNo))
    ensures After(w, RequestHeader(turn, step), seqNo).nodes == w.nodes
    ensures After(w, RequestHeader(turn, step), seqNo).at == w.at && Requested(After(w, RequestHeader(turn, step), seqNo))
    ensures InStep(v, turn, step) ==> Certain(w, RequestHeader(turn, step))
  {}

  lemma PlaceTurn(mine: string, v: View, w: View)
    requires SamePlace(mine, v, w)
    ensures w.at.turn == v.at.turn && w.at.step == v.at.step && w.at.lastStep == v.at.lastStep
    ensures w.at.assistant == v.at.assistant && w.open == v.open && w.pending == v.pending
  {}

  lemma FirstDelivered(owed: map<string, Message>, message: Message, messages: seq<Message>)
    ensures Delivery(owed, [message] + messages) ==> Deliverable(owed, message)
  {
    assert ([message] + messages)[0] == message;
  }

  lemma RestDelivered(owed: map<string, Message>, later: map<string, Message>, messages: seq<Message>, more: seq<Message>)
    ensures Delivery(owed, messages + more) && Keeps(owed, later, Ids(messages)) ==> Delivery(later, more)
  {
    if Delivery(owed, messages + more) && Keeps(owed, later, Ids(messages)) {
      DeliveryRest(owed, later, messages, more);
    }
  }

  lemma NextDeliverable(owed: map<string, Message>, later: map<string, Message>, messages: seq<Message>, i: nat)
    requires i < |messages| && Keeps(owed, later, Ids(messages[..i]))
    ensures Delivery(owed, messages) ==> Deliverable(later, messages[i])
  {
    if Delivery(owed, messages) {
      DeliverableNext(owed, later, messages, i);
    }
  }

  lemma NothingYet(nodes: seq<Surfaces.Node>, owed: map<string, Message>, messages: seq<Message>)
    ensures Grew(nodes, nodes, Saying(messages[..0])) && Keeps(owed, owed, Ids(messages[..0]))
  {
    assert messages[..0] == [];
  }

  /** Two stretches of delivered messages in a row. */
  lemma Onward(before: seq<Surfaces.Node>, middle: seq<Surfaces.Node>, after: seq<Surfaces.Node>,
               owed: map<string, Message>, later: map<string, Message>, last: map<string, Message>,
               messages: seq<Message>, more: seq<Message>)
    ensures Grew(before, middle, Saying(messages)) && Grew(middle, after, Saying(more)) ==>
      Grew(before, after, Saying(messages + more))
    ensures Keeps(owed, later, Ids(messages)) && Keeps(later, last, Ids(more)) ==> Keeps(owed, last, Ids(messages + more))
  {
    SayingSplit(messages, more);
    IdsSplit(messages, more);
    if Grew(before, middle, Saying(messages)) && Grew(middle, after, Saying(more)) {
      GrewOn(before, middle, after, Saying(messages), Saying(more));
    }
  }

  lemma OneMore(before: seq<Surfaces.Node>, middle: seq<Surfaces.Node>, after: seq<Surfaces.Node>,
                owed: map<string, Message>, later: map<string, Message>, last: map<string, Message>,
                messages: seq<Message>, i: nat)
    requires i < |messages|
    ensures Grew(before, middle, Saying(messages[..i])) && Grew(middle, after, [Said(messages[i])]) ==>
      Grew(before, after, Saying(messages[..i + 1]))
    ensures Keeps(owed, later, Ids(messages[..i])) && Keeps(later, last, Ids([messages[i]])) ==>
      Keeps(owed, last, Ids(messages[..i + 1]))
  {
    assert messages[..i + 1] == messages[..i] + [messages[i]];
    SayingOne(messages[i]);
    Onward(before, middle, after, owed, later, last, messages[..i], [messages[i]]);
  }

  lemma UserView(mine: string, v: View, turn: nat, message: Message, seqNo: nat)
    ensures SamePlace(mine, v, v) && SamePlace(mine, v, After(v, UserMessage(turn, 0, message), seqNo))
    ensures After(v, UserMessage(turn, 0, message), seqNo).at == v.at
    ensures After(v, UserMessage(turn, 0, message), seqNo).plan == v.plan
    ensures Grew(v.nodes, After(v, UserMessage(turn, 0, message), seqNo).nodes, [Said(message)])
  {}
}
