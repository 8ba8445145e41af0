/**
  The goal service (internal/app/goal/goal.go): compare-and-set mutations of one session's
  goal, the process-local activation that goes with the current revision, and the
  admission of goal rounds. Objectives and block reasons arrive trimmed.
 */
module GoalService {
  import opened Records
  import opened Goals
  import opened GoalFacts
  import opened Settlement
  import opened Journal
  import Order
  import OrderFacts
  import Plans
  import Surfaces

  datatype Code =
    | AlreadyExists | NotFound | StaleRevision | InvalidEdit | InvalidTransition
    | InvalidObjective | InvalidMaxRounds | InvalidBlockReason | NotRunning | Unavailable

  /** now is the wall clock in milliseconds when the operation builds its change. */
  datatype Request =
    | Create(objective: string, maxRounds: Option<real>, id: string, now: int)
    | Edit(ref: GoalRef, edited: Option<string>, cap: Option<real>, now: int)
    | Pause(ref: GoalRef, now: int)
    | Resume(ref: GoalRef, now: int)
    | Finish(ref: GoalRef, now: int)
    | Block(ref: GoalRef, reason: BlockReason, now: int)
    | Drop(ref: GoalRef, now: int)

  datatype Built = Refuse(code: Code) | Build(change: GoalChange, arm: bool)

  /** RoundCap: a real number, if it is whole and in range. */
  function RoundCap(value: real): (rounds: Option<nat>)
    ensures rounds.Some? <==> value == value.Floor as real && 1 <= value.Floor <= MAX_GOAL_ROUNDS
    ensures rounds.Some? ==> rounds.value as real == value
  {
    if value < 1.0 || value > MAX_GOAL_ROUNDS as real || value != value.Floor as real then None
    else Some(value.Floor)
  }

  function CapOr(value: Option<real>, otherwise: nat): Option<nat> {
    if value.Some? then RoundCap(value.value) else Some(otherwise)
  }

  function Timestamp(state: GoalState, now: int): int { if now > state.updatedAt then now else state.updatedAt }

  /** advance: one revision further, unblocked. */
  function Advance(current: GoalSnapshot, phase: GoalPhase): GoalSnapshot {
    GoalSnapshot(current.id, current.revision + 1, current.objective, phase, None, current.maxRounds)
  }

  function Successor(state: GoalState, operation: GoalOperation, next: GoalSnapshot, now: int): GoalChange {
    Change(operation, next, state.roundsStarted, state.createdAt, Timestamp(state, now))
  }

  /** What an operation commits from the current state, or why it is refused. */
  function BuildChange(request: Request, state: GoalState, armed: bool, defaultRounds: nat): Built {
    if request.Create? then
      var cap := CapOr(request.maxRounds, defaultRounds);
      if request.objective == "" then Refuse(InvalidObjective)
      else if cap.None? then Refuse(InvalidMaxRounds)
      else if state.goal.Some? && state.goal.value.phase != Complete then Refuse(AlreadyExists)
      else
        var now := if request.now > 1 then request.now else 1;
        Build(Change(OpCreate, GoalSnapshot(request.id, 1, request.objective, Active, None, cap.value), 0, now, now), true)
    else if state.goal.None? then Refuse(NotFound)
    else if request.ref != state.goal.value.Ref() then Refuse(StaleRevision)
    else BuildNext(request, state, state.goal.value, armed)
  }

  function BuildNext(request: Request, state: GoalState, current: GoalSnapshot, armed: bool): Built
    requires !request.Create?
  {
    match request
    case Edit(_, edited, cap, now) =>
      var rounds := CapOr(cap, current.maxRounds);
      if edited.None? && cap.None? then Refuse(InvalidEdit)
      else if edited == Some("") then Refuse(InvalidObjective)
      else if rounds.None? then Refuse(InvalidMaxRounds)
      else
        var next := Advance(current, current.phase).(
          blockedReason := current.blockedReason, maxRounds := rounds.value,
          objective := if edited.Some? then edited.value else current.objective);
        Build(Successor(state, OpEdit, next, now), armed)
    case Pause(_, now) =>
      if current.phase != Active then Refuse(InvalidTransition)
      else Build(Successor(state, OpPause, Advance(current, Paused), now), false)
    case Resume(_, now) =>
      if current.phase == Complete || (current.phase == Active && armed) || state.roundsStarted >= current.maxRounds
      then Refuse(InvalidTransition)
      else Build(Successor(state, OpResume, Advance(current, Active), now), true)
    case Finish(_, now) =>
      if current.phase == Complete then Refuse(InvalidTransition)
      else Build(Successor(state, OpComplete, Advance(current, Complete), now), false)
    case Block(_, reason, now) =>
      if current.phase != Active then Refuse(InvalidTransition)
      else if reason.code == "" || reason.message == "" then Refuse(InvalidBlockReason)
      else Build(Successor(state, OpBlock, Advance(current, Blocked).(blockedReason := Some(reason)), now), false)
    case Drop(_, now) =>
      Build(Clear(GoalRef(current.id, current.revision + 1), Timestamp(state, now)), false)
  }

  /** Every change a builder returns is well formed and accepted by the goal fold, a create under a fresh ID. */
  lemma BuiltIsAccepted(request: Request, state: GoalState, armed: bool, defaultRounds: nat)
    requires Sound(state) && 0 < defaultRounds <= MAX_GOAL_ROUNDS
    requires request.Create? ==> request.id != "" && request.id !in state.seen
    requires armed ==> state.goal.Some? && state.goal.value.phase == Active
    requires BuildChange(request, state, armed, defaultRounds).Build?
    ensures var built := BuildChange(request, state, armed, defaultRounds);
      && WellFormedChange(built.change) && ApplyChange(state, built.change).Some?
      && var next := ApplyChange(state, built.change).value;
      && CurrentRef(next) == (if built.change.Clear? then None else Some(ChangeRef(built.change)))
      && (built.arm ==> next.goal.Some? && next.goal.value.phase == Active)
      && (state.goal.Some? ==> CurrentRef(next) != CurrentRef(state))
  {}

  // ----- what a request asks for -----

  /** A cap the caller may give: a whole number in range. */
  predicate ValidCap(cap: Option<real>) {
    cap.Some? ==> cap.value == cap.value.Floor as real && 1 <= cap.value.Floor <= MAX_GOAL_ROUNDS
  }

  /** The goal after an accepted request, from the goal before and what the request gives. */
  ghost predicate Effect(request: Request, before: GoalState, after: GoalState, defaultRounds: nat)
    requires ValidCap(if request.Create? then request.maxRounds else if request.Edit? then request.cap else None)
    requires request.Create? || before.goal.Some?
  {
    if request.Create? then
      && after.goal == Some(GoalSnapshot(request.id, 1, request.objective, Active, None,
                                         if request.maxRounds.Some? then request.maxRounds.value.Floor else defaultRounds))
      && after.roundsStarted == 0 && after.createdAt == after.updatedAt >= 1 && after.updatedAt >= request.now
      && after.updatedAt in {1, request.now}
    else if request.Drop? then
      after.goal.None?
    else
      var was := before.goal.value;
      && after.goal.Some? && after.roundsStarted == before.roundsStarted && after.createdAt == before.createdAt
      && after.updatedAt >= before.updatedAt && after.updatedAt >= request.now
      && after.updatedAt in {before.updatedAt, request.now}
      && var now := after.goal.value;
      && now.id == was.id && now.revision == was.revision + 1
      && match request
         case Edit(_, objective, cap, _) =>
           && now.objective == (if objective.Some? then objective.value else was.objective)
           && now.maxRounds == (if cap.Some? then cap.value.Floor else was.maxRounds)
           && now.phase == was.phase && now.blockedReason == was.blockedReason
         case Pause(_, _) => now == was.(revision := now.revision, phase := Paused, blockedReason := None)
         case Resume(_, _) => now == was.(revision := now.revision, phase := Active, blockedReason := None)
         case Finish(_, _) => now == was.(revision := now.revision, phase := Complete, blockedReason := None)
         case Block(_, reason, _) => now == was.(revision := now.revision, phase := Blocked, blockedReason := Some(reason))
         case _ => true
  }

  /** Why a request on the current goal is refused before anything is committed. */
  ghost predicate Denied(code: Code, request: Request, state: GoalState, armed: bool) {
    if request.Create? then
      match code
      case InvalidObjective => request.objective == ""
      case InvalidMaxRounds => request.objective != "" && !ValidCap(request.maxRounds)
      case AlreadyExists =>
        request.objective != "" && ValidCap(request.maxRounds) && state.goal.Some? && state.goal.value.phase != Complete
      case _ => false
    else if state.goal.None? then code == NotFound
    else if request.ref != GoalRef(state.goal.value.id, state.goal.value.revision) then code == StaleRevision
    else
      var phase := state.goal.value.phase;
      match request
      case Edit(_, objective, cap, _) =>
        || (code == InvalidEdit && objective.None? && cap.None?)
        || (code == InvalidObjective && objective == Some(""))
        || (code == InvalidMaxRounds && objective != Some("") && !ValidCap(cap))
      case Pause(_, _) => code == InvalidTransition && phase != Active
      case Resume(_, _) =>
        && code == InvalidTransition
        && (phase == Complete || (phase == Active && armed) || state.roundsStarted >= state.goal.value.maxRounds)
      case Finish(_, _) => code == InvalidTransition && phase == Complete
      case Block(_, reason, _) =>
        || (code == InvalidTransition && phase != Active)
        || (code == InvalidBlockReason && phase == Active && (reason.code == "" || reason.message == ""))
      case _ => false
  }

  /** A request arms the goal it creates or resumes; an edit keeps it armed, and any other disarms it. */
  predicate Arms(request: Request, armed: bool) { request.Create? || request.Resume? || (request.Edit? && armed) }

  lemma BuiltOrRefused(request: Request, state: GoalState, armed: bool, defaultRounds: nat)
    ensures var built := BuildChange(request, state, armed, defaultRounds);
      && (built.Build? <==> forall code :: !Denied(code, request, state, armed))
      && (built.Refuse? ==> forall code :: Denied(code, request, state, armed) <==> code == built.code)
      && (built.Build? ==> built.arm == Arms(request, armed))
  {
    var built := BuildChange(request, state, armed, defaultRounds);
    if built.Refuse? {
      assert Denied(built.code, request, state, armed);
    }
  }

  lemma BuiltEffect(request: Request, state: GoalState, armed: bool, defaultRounds: nat)
    requires BuildChange(request, state, armed, defaultRounds).Build?
    requires ApplyChange(state, BuildChange(request, state, armed, defaultRounds).change).Some?
    ensures ValidCap(if request.Create? then request.maxRounds else if request.Edit? then request.cap else None)
    ensures request.Create? || state.goal.Some?
    ensures Effect(request, state, ApplyChange(state, BuildChange(request, state, armed, defaultRounds).change).value, defaultRounds)
  {}

  // ----- spent revisions -----

  /** This revision was current once and no longer is. */
  predicate Spent(s: GoalState, ref: GoalRef) {
    Known(s, ref) && CurrentRef(s) != Some(ref) && (s.goal.Some? ==> s.goal.value.id in s.seen)
  }

  lemma SpentStep(s: GoalState, record: Record, ref: GoalRef)
    requires Spent(s, ref) && Apply(s, record).Some?
    ensures Spent(Apply(s, record).value, ref)
  {}

  /** A revision given up is refused for good: no continuation of the history makes it current again. */
  lemma {:induction false} SpentForGood(events: seq<Record>, more: seq<Record>, ref: GoalRef)
    requires Project(events).Some? && Spent(Project(events).value, ref) && Project(events + more).Some?
    ensures Spent(Project(events + more).value, ref)
    ensures forall request: Request, armed: bool, rounds: nat :: !request.Create? && request.ref == ref ==>
      BuildChange(request, Project(events + more).value, armed, rounds) in {Refuse(NotFound), Refuse(StaleRevision)}
  {
    if more == [] {
      assert events + more == events;
    } else {
      assert (events + more)[..|events + more| - 1] == events + more[..|more| - 1];
      SpentForGood(events, more[..|more| - 1], ref);
      SpentStep(Project(events + more[..|more| - 1]).value, more[|more| - 1], ref);
    }
  }

  // ----- the session's own history -----

  lemma OwnSnoc(log: seq<Record>, record: Record)
    requires Order.Valid(log + [record]) && !record.SubagentDescriptor?
    ensures Order.Fold(log).Some? && OwnEvents(log + [record]) == OwnEvents(log) + [record]
    ensures Project(OwnEvents(log + [record])) ==
      match Project(OwnEvents(log)) { case None => None case Some(s) => Apply(s, record) }
  {
    hide Order.Valid;
    OwnGrows(log, record);
    var own := OwnEvents(log);
    assert (own + [record])[..|own|] == own;
  }

  /** While the session has a goal of its own, the whole log's fold stands on the same goal. */
  ghost predicate Agrees(own: Option<GoalState>, whole: GoalState) {
    own.Some? ==>
      && own.value.seen <= whole.seen
      && (own.value.goal.Some? ==> whole == own.value.(seen := whole.seen))
  }

  lemma AgreesStep(s: GoalState, whole: GoalState, record: Record)
    requires Agrees(Some(s), whole) && Apply(whole, record).Some?
    ensures Agrees(Apply(s, record), Apply(whole, record).value)
    ensures s.goal.Some? ==> Apply(s, record).Some?
  {}

  lemma {:induction false} OwnGoalAgrees(log: seq<Record>)
    requires Order.Valid(log)
    ensures Agrees(Project(OwnEvents(log)), Order.StateOf(log).goals)
  {
    if log != [] {
      var front, last := log[..|log| - 1], log[|log| - 1];
      assert log == front + [last];
      hide Order.Step, WellFormed, AllWellFormed, Surfaces.Visible, Apply;
      OrderFacts.ValidSnoc(front, last);
      if last.SubagentDescriptor? {
        OwnIsDescriptor(front, last);
      } else {
        OwnGoalAgrees(front);
        OwnSnoc(front, last);
        SameGoals(front, Order.StateOf(front), last);
        if Project(OwnEvents(front)).Some? {
          AgreesStep(Project(OwnEvents(front)).value, Order.StateOf(front).goals, last);
        }
      }
    }
  }

  lemma OwnIsDescriptor(log: seq<Record>, record: Record)
    requires Order.Valid(log + [record]) && record.SubagentDescriptor?
    ensures Project(OwnEvents(log + [record])) == Some(NO_GOALS)
  {
    Plans.DescriptorHere(log, record);
    assert OwnEvents(log + [record]) == [record];
    assert [record][..0] == [];
    assert Project([record]) == Apply(NO_GOALS, record);
  }

  /**
    When the store accepts a change the service built: always, except that a create also
    needs the goal of an inherited prefix to be absent or complete and its ID unused there.
   */
  lemma ChangeAcceptedExactly(child: bool, log: seq<Record>, request: Request, armed: bool, defaultRounds: nat)
    requires Order.Valid(log) && SandboxOwned(child, log) && 0 < defaultRounds <= MAX_GOAL_ROUNDS
    requires Project(OwnEvents(log)).Some?
    requires request.Create? ==> request.id != "" && request.id !in Project(OwnEvents(log)).value.seen
    requires var s := Project(OwnEvents(log)).value;
      && (armed ==> s.goal.Some? && s.goal.value.phase == Active)
      && BuildChange(request, s, armed, defaultRounds).Build?
    ensures var change := BuildChange(request, Project(OwnEvents(log)).value, armed, defaultRounds).change;
      var whole := Order.StateOf(log).goals;
      Accepts(child, log, GoalChanged(change)) <==>
        (request.Create? ==> (whole.goal.None? || whole.goal.value.phase == Complete) && request.id !in whole.seen)
  {
    var s, whole := Project(OwnEvents(log)).value, Order.StateOf(log).goals;
    var change := BuildChange(request, s, armed, defaultRounds).change;
    OwnGoalAgrees(log);
    OwnWellFormed(log);
    ProjectSound(OwnEvents(log));
    BuiltIsAccepted(request, s, armed, defaultRounds);
    assert ApplyChange(whole, change).Some? <==>
      (request.Create? ==> (whole.goal.None? || whole.goal.value.phase == Complete) && request.id !in whole.seen);
    hide BuildChange, ApplyChange, Project, SandboxOwned;
    ChangeAccepted(child, log, change);
  }

  /** The store asks of a well-formed goal change only what the goal fold does. */
  lemma ChangeAccepted(child: bool, log: seq<Record>, change: GoalChange)
    requires Order.Valid(log) && SandboxOwned(child, log) && WellFormedChange(change)
    ensures Accepts(child, log, GoalChanged(change)) <==> ApplyChange(Order.StateOf(log).goals, change).Some?
  {
    var record := GoalChanged(change);
    GoalStep(log, Order.StateOf(log), change);
    hide Order.Step, WellFormed, AllWellFormed, SandboxOwned;
    OrderFacts.ValidSnoc(log, record);
    if ApplyChange(Order.StateOf(log).goals, change).Some? {
      OwnershipKept(child, log, record);
    }
  }

  lemma GoalStep(log: seq<Record>, s: Order.State, change: GoalChange)
    requires WellFormedChange(change)
    ensures Order.Step(log, s, GoalChanged(change)).Some? <==> ApplyChange(s.goals, change).Some?
    ensures WellFormed(GoalChanged(change))
  {}

  lemma FoldOf(log: seq<Record>)
    requires Order.Valid(log)
    ensures Order.Fold(log).Some?
  {}

  lemma OwnWellFormed(log: seq<Record>)
    requires Order.Valid(log)
    ensures AllWellFormed(OwnEvents(log))
  {}

  /** Continuation belongs to the current, active revision and to no other. */
  predicate Continues(armed: Option<GoalRef>, state: Option<GoalState>) {
    armed.Some? ==>
      state.Some? && CurrentRef(state.value) == armed && state.value.goal.value.phase == Active
  }

  lemma ContinuesWith(armed: Option<GoalRef>, s: GoalState, record: Record)
    requires Continues(armed, Some(s)) && Apply(s, record).Some? && !record.GoalChanged?
    ensures Continues(armed, Apply(s, record))
  {}

  /** This revision was current before, and does not continue now. */
  ghost predicate Off(own: Option<GoalState>, armed: Option<GoalRef>, ref: GoalRef) {
    armed != Some(ref) && (own.Some? ==> Known(own.value, ref))
  }

  /** From one moment to a later one: what was current stays known, and only a newer revision can become armed. */
  ghost predicate Carries(own: Option<GoalState>, armed: Option<GoalRef>, ownNow: Option<GoalState>, armedNow: Option<GoalRef>) {
    && (own.None? ==> ownNow.None?)
    && (own.Some? && ownNow.Some? ==> forall ref :: Known(own.value, ref) ==>
          Known(ownNow.value, ref) && (armedNow == Some(ref) ==> armed == Some(ref)))
  }

  lemma CarriesOn(a: Option<GoalState>, x: Option<GoalRef>, b: Option<GoalState>, y: Option<GoalRef>,
                  c: Option<GoalState>, z: Option<GoalRef>)
    requires Carries(a, x, b, y) && Carries(b, y, c, z)
    ensures Carries(a, x, c, z)
  {
    hide Known;
  }

  lemma StaysOff(own: Option<GoalState>, armed: Option<GoalRef>, ownNow: Option<GoalState>, armedNow: Option<GoalRef>, ref: GoalRef)
    requires Carries(own, armed, ownNow, armedNow) && Continues(armedNow, ownNow) && (own.Some? ==> Known(own.value, ref))
    ensures ownNow.Some? ==> Known(ownNow.value, ref)
    ensures Off(own, armed, ref) ==> Off(ownNow, armedNow, ref)
  {
    hide Known;
  }

  lemma CarriesSame(own: Option<GoalState>, armed: Option<GoalRef>)
    ensures Carries(own, armed, own, armed) && Carries(own, armed, own, None)
  {}

  lemma CarriesLess(own: Option<GoalState>, armed: Option<GoalRef>, ownNow: Option<GoalState>, armedNow: Option<GoalRef>,
                    left: Option<GoalRef>)
    requires Carries(own, armed, ownNow, armedNow) && (left == armedNow || left == None)
    ensures Carries(own, armed, ownNow, left)
  {}

  lemma CarriesNothing(own: Option<GoalState>, armed: Option<GoalRef>, ownNow: Option<GoalState>)
    requires ownNow.None?
    ensures Carries(own, armed, ownNow, armed)
  {}

  /** A record leaves known what was, and a revision it makes current is a new one. */
  lemma CarriesRecord(s: GoalState, record: Record, armed: Option<GoalRef>)
    requires Apply(s, record).Some?
    ensures Carries(Some(s), armed, Apply(s, record), armed) && Carries(Some(s), armed, Apply(s, record), None)
    ensures record.GoalChanged? ==> Carries(Some(s), armed, Apply(s, record), CurrentRef(Apply(s, record).value))
  {}

  lemma CarriesChange(s: GoalState, change: GoalChange, armed: Option<GoalRef>)
    requires ApplyChange(s, change).Some?
    ensures Carries(Some(s), armed, ApplyChange(s, change), CurrentRef(ApplyChange(s, change).value))
    ensures Carries(Some(s), armed, ApplyChange(s, change), None)
  {
    CarriesRecord(s, GoalChanged(change), armed);
  }

  /** One session's part of the service; every method but SettleTurns and Others is one critical section of its lock. */
  class Service {
    const log: Log
    const defaultRounds: nat
    var running: bool
    var armed: Option<GoalRef>
    ghost var moves: nat   // the steps that others took inside SettleTurns

    ghost predicate Valid() reads this`armed, log {
      && log.Valid() && SandboxOwned(log.child, log.records) && 0 < defaultRounds <= MAX_GOAL_ROUNDS
      && Continues(armed, Own())
    }

    /** The session's own goal state. */
    ghost function Own(): Option<GoalState>
      requires log.Valid()
      reads log
    {
      Project(OwnEvents(log.records))
    }

    constructor (log: Log, defaultRounds: nat)
      requires log.Valid() && SandboxOwned(log.child, log.records) && 0 < defaultRounds <= MAX_GOAL_ROUNDS
      ensures Valid() && this.log == log && armed == None && this.defaultRounds == defaultRounds
    {
      this.log, this.defaultRounds, this.armed, this.running := log, defaultRounds, None, true;
    }

    /** Any record another component commits, rounds included. */
    method Commit(record: Record) returns (ok: bool)
      requires Valid() && !record.GoalChanged? && !record.SubagentDescriptor?
      modifies log
      ensures Valid()
      ensures log.records == if ok then old(log.records) + [record] else old(log.records)
      ensures ok <==> Accepts(log.child, old(log.records), record)
      ensures Carries(old(Own()), armed, Own(), armed)
    {
      ghost var before := log.records;
      hide Order.Valid, Order.Fold, SandboxOwned, Apply, Continues, Project, Carries;
      CarriesSame(Own(), armed);
      ok := log.Append(record);
      if ok {
        RecordKept(before, record, armed);
        OwnSnoc(before, record);
        if old(Own()).Some? && Own().Some? {
          CarriesRecord(old(Own()).value, record, armed);
        } else {
          CarriesNothing(old(Own()), armed, Own());
        }
      }
    }

    /** mutate: a refusal leaves log and activation alone; otherwise both move on together. */
    method Mutate(request: Request) returns (refused: Option<Code>)
      requires Valid()
      modifies this`armed, log
      ensures Valid()
      ensures refused.Some? ==> log.records == old(log.records) && armed == old(armed)
      ensures refused.None? ==>
        && old(Own()).Some? && Own().Some?
        && var built := BuildChange(request, old(Own()).value, old(armed).Some?, defaultRounds);
        && built.Build? && log.records == old(log.records) + [GoalChanged(built.change)]
        && Own() == ApplyChange(old(Own()).value, built.change)
        && armed == if built.arm then CurrentRef(Own().value) else None
      ensures refused.None? ==>
        && ValidCap(if request.Create? then request.maxRounds else if request.Edit? then request.cap else None)
        && old(Own()).Some? && Own().Some? && (request.Create? || old(Own()).value.goal.Some?)
        && Effect(request, old(Own()).value, Own().value, defaultRounds)
        && (armed == if Arms(request, old(armed).Some?) && Own().value.goal.Some?
                     then Some(GoalRef(Own().value.goal.value.id, Own().value.goal.value.revision)) else None)
      ensures old(Own()).Some? ==>
        && (refused.None? ==> forall code :: !Denied(code, request, old(Own()).value, old(armed).Some?))
        && (refused.Some? ==>
              || Denied(refused.value, request, old(Own()).value, old(armed).Some?)
              || (refused.value == NotRunning && !running)
              || (refused.value == Unavailable && request.Create?))
      ensures !running ==> refused.Some?
      ensures running && old(Own()).Some? && !request.Create? ==>
        var built := BuildChange(request, old(Own()).value, old(armed).Some?, defaultRounds);
        refused == if built.Refuse? then Some(built.code) else None
      ensures Carries(old(Own()), old(armed), Own(), armed)
    {
      hide Denied, Effect, Carries, Order.Fold, Order.Valid, SandboxOwned, Known;
      CarriesSame(Own(), armed);
      FoldOf(log.records);
      if Own().Some? {
        BuiltOrRefused(request, Own().value, armed.Some?, defaultRounds);
      }
      if request.Create? && (request.objective == "" || CapOr(request.maxRounds, defaultRounds).None?) {
        return Some(if request.objective == "" then InvalidObjective else InvalidMaxRounds);
      }
      if !running {
        return Some(NotRunning);
      }
      var own := FindOwnEvents(log.records);
      var state := Project(own);
      if state.None? {
        return Some(Unavailable);
      }
      var built := BuildChange(request, state.value, armed.Some?, defaultRounds);
      if built.Refuse? {
        return Some(built.code);
      }
      refused := CommitBuilt(request, state.value, built.change, built.arm);
    }

    /** The append of a built change, and the activation that goes with it. */
    method CommitBuilt(request: Request, state: GoalState, change: GoalChange, arm: bool) returns (refused: Option<Code>)
      requires Valid() && Own() == Some(state) && BuildChange(request, state, armed.Some?, defaultRounds) == Build(change, arm)
      modifies this`armed, log
      ensures Valid()
      ensures refused.Some? ==> refused.value == Unavailable && request.Create?
      ensures refused.Some? ==> log.records == old(log.records) && armed == old(armed)
      ensures refused.None? ==>
        && log.records == old(log.records) + [GoalChanged(change)]
        && Own().Some? && Own() == ApplyChange(state, change)
        && ValidCap(if request.Create? then request.maxRounds else if request.Edit? then request.cap else None)
        && (request.Create? || state.goal.Some?) && Effect(request, state, Own().value, defaultRounds)
        && armed == (if arm then CurrentRef(Own().value) else None)
        && (arm ==> Own().value.goal.Some?)
      ensures Carries(old(Own()), old(armed), Own(), armed)
    {
      hide Order.Valid, Order.Fold, SandboxOwned, Apply, Project, BuildChange, ApplyChange, Carries, Effect, Known, Continues;
      CarriesSame(Own(), armed);
      FoldOf(log.records);
      ghost var before := log.records;
      if !request.Create? {
        NextAccepted(log.child, before, request, armed, defaultRounds);
      }
      var ok := log.Append(GoalChanged(change));
      if !ok {
        return Some(Unavailable);
      }
      ChangeKept(before, request, armed, defaultRounds);
      var next := ApplyChange(state, change).value;
      CarriesChange(state, change, armed);
      BuiltEffect(request, state, armed.Some?, defaultRounds);
      if arm {
        armed := Some(next.goal.value.Ref());
      } else {
        armed := None;
      }
      refused := None;
    }

    /** Disarm: the log is left alone, so nothing tells a later reopening of it. */
    method Disarm()
      requires Valid()
      modifies this`armed
      ensures Valid() && armed == None
    {
      armed := None;
    }

    /** The service's cleanup. */
    method Stop()
      requires Valid()
      modifies this`armed, this`running
      ensures Valid() && armed == None && !running
    {
      armed, running := None, false;
    }

    /** DisarmRevision: another revision's activation survives. */
    method DisarmRevision(ref: GoalRef)
      requires Valid()
      modifies this`armed
      ensures Valid() && armed == if old(armed) == Some(ref) then None else old(armed)
    {
      if armed == Some(ref) {
        armed := None;
      }
    }

    /**
      Admit: a round is taken exactly while its revision is current, active and armed, the round
      is the next one, and no turn since the last create or resume stopped that revision; then
      it opens whenever the log has room for it.
     */
    method Admit(turn: nat, message: Message) returns (admission: Admission)
      requires Valid() && message.source.kind == GOAL_SOURCE
      modifies log
      ensures Valid()
      ensures admission == NotAdmitted <==>
        !running || (old(Own()).Some? && !Admissible(armed, old(OwnEvents(log.records)), message.source))
      ensures admission == NotAdmitted ==> log.records == old(log.records)
      ensures admission == Opened ==>
        && log.records == old(log.records) + [TurnStart(turn), UserMessage(turn, 0, message)]
        && old(Own()).Some? && Own() == Some(old(Own()).value.(roundsStarted := message.source.goalRound))
      ensures running && old(Own()).Some? && Admissible(armed, old(OwnEvents(log.records)), message.source) ==>
                (Opens(old(log.records), turn, message) ==> admission == Opened)
      ensures Carries(old(Own()), armed, Own(), armed)
    {
      CarriesSame(Own(), armed);
      if !running {
        return NotAdmitted;
      }
      var own := FindOwnEvents(log.records);
      var state := Project(own);
      if state.None? {
        return Unreadable;
      }
      var source := message.source;
      if !NextRound(state.value, source) || armed != CurrentRef(state.value) {
        return NotAdmitted;
      }
      var stops := Settle(own, Inherited(log.records), 0);
      RevokedExactly(own, 0, armed.value);
      if Revoked(stops, armed.value) {
        return NotAdmitted;
      }
      admission := OpenRound(turn, message);
    }

    /** The engine's opening callback, run under the service lock. */
    method OpenRound(turn: nat, message: Message) returns (admission: Admission)
      requires Valid() && Own().Some? && message.source.kind == GOAL_SOURCE && NextRound(Own().value, message.source)
      modifies log
      ensures Valid() && admission in {Opened, Refused}
      ensures admission == Opened ==>
        && log.records == old(log.records) + [TurnStart(turn), UserMessage(turn, 0, message)]
        && Own() == Some(old(Own()).value.(roundsStarted := message.source.goalRound))
      ensures Opens(old(log.records), turn, message) ==> admission == Opened
      ensures Carries(old(Own()), armed, Own(), armed)
    {
      ghost var before, own := log.records, Own();
      OpensMeansAccepted(log.child, before, turn, message);
      hide Order.Valid, Order.Fold, SandboxOwned, Carries, Opens, Accepts, Continues, Project, OwnEvents, Apply, NextRound, Known;
      CarriesSame(own, armed);
      var ok := Commit(TurnStart(turn));
      if !ok {
        return Refused;
      }
      ghost var middle := Own();
      ok := Commit(UserMessage(turn, 0, message));
      CarriesOn(own, armed, middle, armed, Own(), armed);
      if !ok {
        return Refused;
      }
      OpenedOwn(before, turn, message);
      assert before + [TurnStart(turn)] + [UserMessage(turn, 0, message)] == before + [TurnStart(turn), UserMessage(turn, 0, message)];
      return Opened;
    }

    /** Any operations, rounds and records of others, while the service lock is free. */
    method Others()
      requires Valid()
      modifies this, log
      ensures Valid() && moves >= old(moves)
      ensures Carries(old(Own()), old(armed), Own(), armed)
      ensures moves == old(moves) ==> armed == old(armed) && running == old(running) && log.records == old(log.records)
    {
      CarriesSame(Own(), armed);
      hide Order.Valid, Order.Fold, SandboxOwned, Carries, Continues, Project, OwnEvents;
      var n :| 0 <= n;
      for i := 0 to n
        invariant Valid() && moves == old(moves) + i
        invariant Carries(old(Own()), old(armed), Own(), armed)
        invariant i == 0 ==> armed == old(armed) && running == old(running) && log.records == old(log.records)
      {
        ghost var own, before := Own(), armed;
        var request: Request, message: Message, record: Record, ref: GoalRef, choice: int := *, *, *, *, *;
        var turn :| 0 <= turn;
        Other(choice, request, message, record, ref, turn);
        CarriesOn(old(Own()), old(armed), own, before, Own(), armed);
        moves := moves + 1;
      }
    }

    method Other(choice: int, request: Request, message: Message, record: Record, ref: GoalRef, turn: nat)
      requires Valid()
      modifies this`armed, this`running, log
      ensures Valid() && Carries(old(Own()), old(armed), Own(), armed)
    {
      CarriesSame(Own(), armed);
      hide *;
      if choice == 0 {
        var refused := Mutate(request);
      } else if choice == 1 && message.source.kind == GOAL_SOURCE {
        var admission := Admit(turn, message);
      } else if choice == 2 && !record.GoalChanged? && !record.SubagentDescriptor? {
        var ok := Commit(record);
      } else if choice == 3 {
        Disarm();
      } else if choice == 4 {
        DisarmRevision(ref);
      } else if choice == 5 {
        Stop();
      }
    }

    /**
      Settle: applies the turns after a sequence number, with the lock released between the
      scan, the check, the pause and each disarming. Whatever others do meanwhile, no revision
      the scan found stopped stays armed. When nothing comes between, exactly a stopped
      revision is disarmed, and a cancelled round pauses its own.
     */
    method SettleTurns(after: nat, now: int) returns (examined: nat)
      requires Valid()
      modifies this, log
      ensures Valid() && moves >= old(moves)
      ensures old(running) && old(Own()).Some? ==>
        var own, base := old(OwnEvents(log.records)), old(Inherited(log.records));
        && examined == (if own == [] then after else base + |own|)
        && (armed.Some? ==> !Revoked(Settled(own, Skip(base, after)), armed.value))
        && (moves == old(moves) ==>
              && armed == (if old(armed).Some? && StoppedSince(own, Skip(base, after), old(armed).value) then None else old(armed))
              && log.records == if old(armed).Some? && Settled(own, Skip(base, after)).pause == old(armed)
                                then old(log.records) + [PauseRecord(old(Own()).value, now)] else old(log.records))
      ensures !old(running) || old(Own()).None? ==>
        examined == after && armed == old(armed) && log.records == old(log.records)
    {
      hide *;
      examined := after;
      if !running {
        return;
      }
      var own, base, stops, state := Scan(after);
      if state.None? {
        return;
      }
      if |own| > 0 {
        examined := base + |own|;
      }
      ApplyStops(stops, state.value, now);
    }

    /** The events the session committed itself, scanned. */
    method Scan(after: nat) returns (own: seq<Record>, base: nat, stops: Stops, state: Option<GoalState>)
      requires Valid()
      ensures own == OwnEvents(log.records) && base == Inherited(log.records) && state == Own()
      ensures stops == Settled(own, Skip(base, after))
      ensures armed.Some? && state.Some? ==>
        state.value.goal.Some? && (Revoked(stops, armed.value) <==> StoppedSince(own, Skip(base, after), armed.value))
      ensures state.Some? ==> forall ref :: Revoked(stops, ref) ==> Known(state.value, ref)
    {
      own := FindOwnEvents(log.records);
      base := Inherited(log.records);
      stops := Settle(own, base, after);
      state := Project(own);
      hide Order.Valid, Order.Fold, SandboxOwned, Project, StoppedSince, Settled;
      if armed.Some? && state.Some? {
        RevokedExactly(own, Skip(base, after), armed.value);
      }
      if state.Some? {
        forall ref | Revoked(stops, ref) ensures Known(state.value, ref) {
          RevokedWasKnown(own, Skip(base, after), ref);
        }
      }
    }

    /** What the scan found, applied to the activation as it is by then. */
    method ApplyStops(stops: Stops, state: GoalState, now: int)
      requires Valid() && running && Own() == Some(state)
      requires forall ref :: Revoked(stops, ref) ==> Known(state, ref)
      modifies this, log
      ensures Valid() && moves >= old(moves)
      ensures armed.Some? ==> !Revoked(stops, armed.value)
      ensures moves == old(moves) ==>
        && armed == (if old(armed).Some? && Revoked(stops, old(armed).value) then None else old(armed))
        && log.records == if old(armed).Some? && stops.pause == old(armed)
                          then old(log.records) + [PauseRecord(state, now)] else old(log.records)
    {
      var done := PauseRound(stops, state, now);
      if done {
        DisarmAll(stops.disarm);
      }
    }

    /** The pause of a cancelled round; when it is refused its revision is only disarmed, and settling ends. */
    method PauseRound(stops: Stops, state: GoalState, now: int) returns (done: bool)
      requires Valid() && running && Own() == Some(state)
      requires forall ref :: Revoked(stops, ref) ==> Known(state, ref)
      modifies this, log
      ensures Valid() && moves >= old(moves)
      ensures forall ref :: Revoked(stops, ref) ==> KnownNow(ref)
      ensures stops.pause != None ==> armed != stops.pause
      ensures !done ==> armed.Some? ==> !Revoked(stops, armed.value)
      ensures moves == old(moves) ==>
        && done && armed == (if old(armed).Some? && old(armed) == stops.pause then None else old(armed))
        && log.records == if old(armed).Some? && stops.pause == old(armed)
                          then old(log.records) + [PauseRecord(state, now)] else old(log.records)
    {
      Others();
      hide Order.Valid, Order.Fold, SandboxOwned, Carries, Project, OwnEvents, Known;
      done := true;
      if stops.pause.Some? && CurrentRef(state) == stops.pause && state.goal.value.phase == Active && armed.Some? {
        ghost var own, before := Own(), armed;
        done := TryPause(stops.pause.value, now);
        CarriesOn(Some(state), old(armed), own, before, Own(), armed);
      }
      forall ref | Revoked(stops, ref) ensures KnownNow(ref) && (old(armed) != Some(ref) ==> armed != Some(ref)) {
        StaysOff(Some(state), old(armed), Own(), armed, ref);
      }
    }

    /** Pause through the operation itself, or DisarmRevision when that is refused. */
    method TryPause(ref: GoalRef, now: int) returns (done: bool)
      requires Valid() && (Own().Some? ==> Known(Own().value, ref))
      modifies this, log
      ensures Valid() && moves >= old(moves)
      ensures Carries(old(Own()), old(armed), Own(), armed) && armed != Some(ref)
      ensures moves == old(moves) && old(running) && old(Own()).Some? && CurrentRef(old(Own()).value) == Some(ref)
              && old(Own()).value.goal.value.phase == Active ==>
                done && armed == None && log.records == old(log.records) + [PauseRecord(old(Own()).value, now)]
    {
      hide Order.Valid, Order.Fold, SandboxOwned, Carries, Project, OwnEvents, Known;
      ghost var a, x := Own(), armed;
      Others();
      ghost var b, y := Own(), armed;
      var refused := Mutate(Pause(ref, now));
      CarriesOn(a, x, b, y, Own(), armed);
      done := refused.None?;
      if !done {
        b, y := Own(), armed;
        Others();
        CarriesOn(a, x, b, y, Own(), armed);
        y := armed;
        DisarmRevision(ref);
        CarriesLess(a, x, Own(), y, armed);
      }
    }

    ghost predicate KnownNow(ref: GoalRef)
      requires log.Valid()
      reads log
    {
      Own().Some? ==> Known(Own().value, ref)
    }

    /** The loop over the revisions to disarm. */
    method DisarmAll(refs: seq<GoalRef>)
      requires Valid() && forall ref :: ref in refs ==> KnownNow(ref)
      modifies this, log
      ensures Valid() && moves >= old(moves)
      ensures Carries(old(Own()), old(armed), Own(), armed)
      ensures armed.Some? ==> armed.value !in refs
      ensures moves == old(moves) ==>
        && armed == (if old(armed).Some? && old(armed).value in refs then None else old(armed))
        && log.records == old(log.records)
    {
      hide Order.Valid, Order.Fold, SandboxOwned, Carries, Continues, Project, OwnEvents, Known;
      CarriesSame(Own(), armed);
      for i := 0 to |refs|
        invariant Valid() && moves >= old(moves)
        invariant Carries(old(Own()), old(armed), Own(), armed)
        invariant forall ref :: ref in refs ==> KnownNow(ref)
        invariant armed.Some? ==> armed.value !in refs[..i]
        invariant moves == old(moves) ==>
          && armed == (if old(armed).Some? && old(armed).value in refs[..i] then None else old(armed))
          && log.records == old(log.records)
      {
        ghost var own, before := Own(), armed;
        Others();
        CarriesOn(old(Own()), old(armed), own, before, Own(), armed);
        forall ref | ref in refs ensures KnownNow(ref) && (before != Some(ref) ==> armed != Some(ref)) {
          StaysOff(own, before, Own(), armed, ref);
        }
        ghost var kept := armed;
        DisarmRevision(refs[i]);
        CarriesLess(old(Own()), old(armed), Own(), kept, armed);
      }
      assert refs[..|refs|] == refs;
    }
  }

  /** A record that changes no goal keeps the activation with the current revision. */
  lemma RecordKept(log: seq<Record>, record: Record, armed: Option<GoalRef>)
    requires Order.Valid(log + [record]) && !record.GoalChanged? && !record.SubagentDescriptor?
    requires Order.Fold(log).Some? && Continues(armed, Project(OwnEvents(log)))
    ensures Continues(armed, Project(OwnEvents(log + [record])))
  {
    hide Order.Step, WellFormed, AllWellFormed, Surfaces.Visible, Apply;
    OwnSnoc(log, record);
    OrderFacts.ValidSnoc(log, record);
    if armed.Some? {
      var s := Project(OwnEvents(log)).value;
      OwnGoalAgrees(log);
      SameGoals(log, Order.StateOf(log), record);
      AgreesStep(s, Order.StateOf(log).goals, record);
      ContinuesWith(armed, s, record);
    }
  }

  /** A round may open here: no turn is open, its number is next, and its message is well formed and no notice. */
  ghost predicate Opens(log: seq<Record>, turn: nat, message: Message)
    requires Order.Valid(log)
  {
    var at := Order.StateOf(log).at;
    at.turn == 0 && turn == at.lastTurn + 1 && WellFormedMessage(message, true) && message.source.noticeId == ""
  }

  /** Then the store accepts both opening records of the next round, with an inherited prefix too. */
  lemma OpeningAccepted(child: bool, log: seq<Record>, turn: nat, message: Message)
    requires Order.Valid(log) && SandboxOwned(child, log) && Opens(log, turn, message)
    requires message.source.kind == GOAL_SOURCE && Project(OwnEvents(log)).Some?
    requires NextRound(Project(OwnEvents(log)).value, message.source)
    ensures Accepts(child, log, TurnStart(turn))
    ensures Accepts(child, log + [TurnStart(turn)], UserMessage(turn, 0, message))
  {
    var started := log + [TurnStart(turn)];
    var s := Order.StateOf(log);
    OwnGoalAgrees(log);
    OpeningSteps(log, s, turn, message);
    hide Order.Step, WellFormed, AllWellFormed, SandboxOwned, NextRound, WellFormedMessage, Surfaces.Visible;
    VisibleOpening(Surfaces.Surface(log).value, |log| + 1, turn, message);
    VisibleOpening(Surfaces.Surface(log).value, |log| + 2, turn, message);
    OrderFacts.ValidSnoc(log, TurnStart(turn));
    OwnershipKept(child, log, TurnStart(turn));
    OrderFacts.ValidSnoc(started, UserMessage(turn, 0, message));
    OwnershipKept(child, started, UserMessage(turn, 0, message));
  }

  lemma OpensMeansAccepted(child: bool, log: seq<Record>, turn: nat, message: Message)
    requires Order.Valid(log) && SandboxOwned(child, log)
    requires message.source.kind == GOAL_SOURCE && Project(OwnEvents(log)).Some?
    requires NextRound(Project(OwnEvents(log)).value, message.source)
    ensures Opens(log, turn, message) ==>
      && Accepts(child, log, TurnStart(turn))
      && Accepts(child, log + [TurnStart(turn)], UserMessage(turn, 0, message))
  {
    hide Order.Valid, Order.Fold, SandboxOwned, Opens, Accepts, Project, OwnEvents, NextRound;
    if Opens(log, turn, message) {
      OpeningAccepted(child, log, turn, message);
    }
  }

  /** Both opening records, in the session's own projection. */
  lemma OpenedOwn(log: seq<Record>, turn: nat, message: Message)
    requires Order.Valid(log) && Order.Valid(log + [TurnStart(turn)])
    requires Order.Valid(log + [TurnStart(turn)] + [UserMessage(turn, 0, message)])
    requires Project(OwnEvents(log)).Some? && message.source.kind == GOAL_SOURCE
    requires NextRound(Project(OwnEvents(log)).value, message.source)
    ensures Project(OwnEvents(log + [TurnStart(turn)] + [UserMessage(turn, 0, message)]))
         == Some(Project(OwnEvents(log)).value.(roundsStarted := message.source.goalRound))
  {
    OwnSnoc(log, TurnStart(turn));
    OwnSnoc(log + [TurnStart(turn)], UserMessage(turn, 0, message));
    hide Order.Valid, Project, OwnEvents;
  }

  lemma VisibleOpening(nodes: seq<Surfaces.Node>, seqNo: nat, turn: nat, message: Message)
    ensures Surfaces.Visible(nodes, seqNo, TurnStart(turn)) == Some(nodes)
    ensures Surfaces.Visible(nodes, seqNo, UserMessage(turn, 0, message)).Some?
  {}

  lemma OpeningSteps(log: seq<Record>, s: Order.State, turn: nat, message: Message)
    requires s.at.turn == 0 && turn == s.at.lastTurn + 1 && WellFormedMessage(message, true)
    requires message.source.kind == GOAL_SOURCE && message.source.noticeId == "" && NextRound(s.goals, message.source)
    ensures WellFormed(TurnStart(turn)) && Order.Step(log, s, TurnStart(turn)).Some?
    ensures WellFormed(UserMessage(turn, 0, message))
    ensures Order.Step(log + [TurnStart(turn)], Order.Step(log, s, TurnStart(turn)).value, UserMessage(turn, 0, message)).Some?
  {}

  datatype Admission = Opened | NotAdmitted | Unreadable | Refused

  ghost predicate Admissible(armed: Option<GoalRef>, events: seq<Record>, source: Source)
    requires Project(events).Some?
  {
    var s := Project(events).value;
    && s.goal.Some? && s.goal.value.phase == Active
    && source.goalId == s.goal.value.id && source.goalRevision == s.goal.value.revision
    && source.goalRound == s.roundsStarted + 1 && source.goalRound <= s.goal.value.maxRounds
    && armed == Some(GoalRef(s.goal.value.id, s.goal.value.revision)) && !StoppedSince(events, 0, armed.value)
  }

  function PauseRecord(state: GoalState, now: int): Record
    requires state.goal.Some?
  {
    GoalChanged(Successor(state, OpPause, Advance(state.goal.value, Paused), now))
  }

  /** An operation on the current revision is never refused by the store. */
  lemma NextAccepted(child: bool, log: seq<Record>, request: Request, armed: Option<GoalRef>, defaultRounds: nat)
    requires Order.Valid(log) && SandboxOwned(child, log) && 0 < defaultRounds <= MAX_GOAL_ROUNDS && !request.Create?
    requires Continues(armed, Project(OwnEvents(log))) && Project(OwnEvents(log)).Some?
    requires BuildChange(request, Project(OwnEvents(log)).value, armed.Some?, defaultRounds).Build?
    ensures Accepts(child, log, GoalChanged(BuildChange(request, Project(OwnEvents(log)).value, armed.Some?, defaultRounds).change))
  {
    ChangeAcceptedExactly(child, log, request, armed.Some?, defaultRounds);
  }

  /** A committed change is also accepted by the session's own fold, and arms only its own revision. */
  lemma ChangeKept(log: seq<Record>, request: Request, armed: Option<GoalRef>, defaultRounds: nat)
    requires Order.Fold(log).Some? && 0 < defaultRounds <= MAX_GOAL_ROUNDS
    requires Continues(armed, Project(OwnEvents(log))) && Project(OwnEvents(log)).Some?
    requires var built := BuildChange(request, Project(OwnEvents(log)).value, armed.Some?, defaultRounds);
      built.Build? && Order.Valid(log + [GoalChanged(built.change)])
    ensures var s := Project(OwnEvents(log)).value;
      var built := BuildChange(request, s, armed.Some?, defaultRounds);
      var next := Project(OwnEvents(log + [GoalChanged(built.change)]));
      && next.Some? && next == ApplyChange(s, built.change)
      && (built.arm ==> next.value.goal.Some?)
      && Continues(if built.arm then CurrentRef(next.value) else None, next)
  {
    var s := Project(OwnEvents(log)).value;
    var built := BuildChange(request, s, armed.Some?, defaultRounds);
    CommittedChange(log, built.change);
    OwnGoalAgrees(log);
    OwnWellFormed(log);
    ProjectSound(OwnEvents(log));
    hide Order.Valid, Order.Step, Project;
    assert request.Create? ==> request.id == built.change.snapshot.id;
    BuiltIsAccepted(request, s, armed.Some?, defaultRounds);
  }

  lemma CommittedChange(log: seq<Record>, change: GoalChange)
    requires Order.Valid(log + [GoalChanged(change)])
    ensures Order.Valid(log) && WellFormedChange(change) && ApplyChange(Order.StateOf(log).goals, change).Some?
    ensures Project(OwnEvents(log + [GoalChanged(change)])) ==
      match Project(OwnEvents(log)) { case None => None case Some(s) => ApplyChange(s, change) }
    ensures change.Change? && change.operation == OpCreate ==>
      change.snapshot.id !in Order.StateOf(log).goals.seen && change.snapshot.id != ""
  {
    var record := GoalChanged(change);
    assert (log + [record])[|log|] == record;
    assert WellFormed(record);
    hide Order.Step, AllWellFormed, Surfaces.Visible;
    OrderFacts.ValidSnoc(log, record);
    SameGoals(log, Order.StateOf(log), record);
    OwnSnoc(log, record);
  }

  /** How many of a session's own events lie at or before a sequence number. */
  function Skip(base: nat, after: nat): nat { if after > base then after - base else 0 }

  /** Whatever operations, rounds and other records come in whatever order, continuation stays with the current, active revision. */
  method AnyRun(log: Log, defaultRounds: nat) returns (service: Service)
    requires log.Valid() && SandboxOwned(log.child, log.records) && 0 < defaultRounds <= MAX_GOAL_ROUNDS
    modifies log
    ensures fresh(service) && service.log == log && service.Valid()
  {
    hide Order.Valid, Order.Fold, SandboxOwned, Continues, Project, StoppedSince, Settled, BuildChange;
    service := new Service(log, defaultRounds);
    var n :| 0 <= n;
    for i := 0 to n
      invariant fresh(service) && service.log == log && service.Valid()
    {
      var request: Request, message: Message, record: Record, ref: GoalRef, now: int, choice: int := *, *, *, *, *, *;
      var number :| 0 <= number;
      AnyStep(service, choice, request, message, record, ref, now, number);
    }
  }

  method AnyStep(service: Service, choice: int, request: Request, message: Message, record: Record, ref: GoalRef, now: int,
                 number: nat)
    requires service.Valid()
    modifies service, service.log
    ensures service.Valid()
  {
    hide *;
    if choice == 6 {
      var examined := service.SettleTurns(number, now);
    } else {
      service.Other(choice, request, message, record, ref, number);
    }
  }
}
