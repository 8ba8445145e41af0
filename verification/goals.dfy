/** The strict replay fold of goal facts (internal/core/session/goal.go). */
module Goals {
  import opened Records

  datatype GoalState = GoalState(
    goal: Option<GoalSnapshot>, roundsStarted: nat, createdAt: int, updatedAt: int, seen: set<string>)

  const NO_GOALS := GoalState(None, 0, 0, 0, {})

  /** Apply: the successor state, or None when the record is rejected. */
  function Apply(state: GoalState, record: Record): Option<GoalState> {
    match record
    case GoalChanged(change) => ApplyChange(state, change)
    case UserMessage(_, _, message) =>
      if message.source.kind == GOAL_SOURCE then ApplyRound(state, message.source) else Some(state)
    case _ => Some(state)
  }

  function ApplyRound(state: GoalState, source: Source): Option<GoalState> {
    if NextRound(state, source) then Some(state.(roundsStarted := source.goalRound)) else None
  }

  /** The round continues the exact active revision and is the next one within its cap. */
  predicate NextRound(state: GoalState, source: Source) {
    && state.goal.Some?
    && state.goal.value.phase == Active
    && source.goalId == state.goal.value.id
    && source.goalRevision == state.goal.value.revision
    && source.goalRound == state.roundsStarted + 1
    && source.goalRound <= state.goal.value.maxRounds
  }

  function ApplyChange(state: GoalState, change: GoalChange): Option<GoalState> {
    match change
    case Clear(cleared, clearedAt) =>
      if state.goal.None? || cleared != GoalRef(state.goal.value.id, state.goal.value.revision + 1) || clearedAt < state.updatedAt
      then None
      else Some(NO_GOALS.(seen := state.seen))
    case Change(operation, next, rounds, createdAt, updatedAt) =>
      if operation == OpCreate then
        if next.revision != 1 || next.phase != Active || rounds != 0
           || (state.goal.Some? && state.goal.value.phase != Complete) || next.id in state.seen
        then None
        else Some(GoalState(Some(next), rounds, createdAt, updatedAt, state.seen + {next.id}))
      else if ValidTransition(state, change) then
        Some(GoalState(Some(next), rounds, createdAt, updatedAt, state.seen))
      else None
  }

  /** checkTransition: what a change other than a create may make of the current goal. */
  predicate ValidTransition(state: GoalState, change: GoalChange)
    requires change.Change? && change.operation != OpCreate
  {
    && state.goal.Some?
    && var current := state.goal.value;
    var next := change.snapshot;
    && next.id == current.id && next.revision == current.revision + 1
    && change.createdAt == state.createdAt && change.updatedAt >= state.updatedAt
    && change.roundsStarted == state.roundsStarted
    && if change.operation == OpEdit then
         next.phase == current.phase && next.blockedReason == current.blockedReason
       else
         && next.objective == current.objective && next.maxRounds == current.maxRounds
         && match change.operation
            case OpPause => current.phase == Active && next.phase == Paused
            case OpResume => current.phase != Complete && next.phase == Active && state.roundsStarted < next.maxRounds
            case OpComplete => current.phase != Complete && next.phase == Complete
            case OpBlock => current.phase == Active && next.phase == Blocked
            case _ => false
  }

  /** ProjectGoal, most recent record last. */
  function Project(log: seq<Record>): Option<GoalState> {
    if log == [] then Some(NO_GOALS)
    else match Project(log[..|log| - 1])
      case None => None
      case Some(state) => Apply(state, log[|log| - 1])
  }
}
