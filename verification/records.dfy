/**
  The durable event vocabulary of one session log (internal/core/session/types.go,
  validate.go). A record type and its one payload are a constructor here, so the
  "unrelated fields" part of the schema check holds by construction and WellFormed
  states the rest: positive turns and steps, non-empty identifiers, field ranges.
  A log is a sequence of records; the store numbers them from one, so the sequence
  number of log[i] is i + 1.
 */
module Records {

  datatype Option<+T> = None | Some(value: T)

  datatype Outcome = Completed | MaxTokens | Canceled | Errored | StepLimit | Interrupted

  const GOAL_SOURCE := "goal"
  const MAX_GOAL_ROUNDS: nat := 0x1F_FFFF_FFFF_FFFF

  /** What an operation names to say which revision of which goal it means. */
  datatype GoalRef = GoalRef(id: string, revision: nat)

  datatype GoalPhase = Active | Paused | Blocked | Complete

  datatype BlockReason = BlockReason(code: string, message: string)

  datatype GoalSnapshot = GoalSnapshot(
    id: string, revision: nat, objective: string, phase: GoalPhase,
    blockedReason: Option<BlockReason>, maxRounds: nat)
  {
    function Ref(): GoalRef { GoalRef(id, revision) }
  }

  datatype GoalOperation = OpCreate | OpEdit | OpPause | OpResume | OpComplete | OpBlock

  /** A goal/change payload: a full post-mutation snapshot, or a clear tombstone. */
  datatype GoalChange =
    | Change(operation: GoalOperation, snapshot: GoalSnapshot, roundsStarted: nat, createdAt: int, updatedAt: int)
    | Clear(cleared: GoalRef, clearedAt: int)

  /** Where a message came from; a goal round also says which goal, revision and round it is. */
  datatype Source = Source(kind: string, goalId: string, goalRevision: nat, goalRound: nat, noticeId: string)

  datatype Message = Message(source: Source, body: string)

  /** queries is what the web_search argument parser accepts, None when it fails. */
  datatype ToolCall = ToolCall(id: string, name: string, argumentsOmitted: bool, queries: Option<seq<string>>)

  /** metaTool names the tool that produced the presentation metadata, if any. */
  datatype ToolResult = ToolResult(callId: string, output: string, isError: bool, metaTool: Option<string>)

  datatype Ownership = Spawn | Fork

  datatype Record =
    | TurnStart(turn: nat)
    | UserMessage(turn: nat, step: nat, message: Message)
    | NoticeQueued(message: Message)
    | StepStart(turn: nat, step: nat)
    | RequestHeader(turn: nat, step: nat)
    | AssistantChunk(turn: nat, step: nat)
    | AssistantMessage(turn: nat, step: nat, message: Message)
    | CallMade(turn: nat, step: nat, call: ToolCall)
    | ApprovalAsked(turn: nat, step: nat, approvalId: string, toolName: string, callId: string)
    | ApprovalDecided(turn: nat, step: nat, approvalId: string)
    | ApprovalPolicy(delegated: bool)
    | CallResult(turn: nat, step: nat, result: ToolResult)
    | Retry(turn: nat, step: nat)
    | RetryStarted(turn: nat, step: nat)
    | CompactionStart(turn: nat, compactionId: string)
    | CompactionSummary(turn: nat, compactionId: string, shadowed: seq<nat>, summary: string)
    | CompactionEnd(turn: nat, compactionId: string, failure: string)
    | CompactionPrune(turn: nat, seqNo: nat, output: string)
    | SubagentDescriptor(ownership: Ownership, inherited: nat)
    | SubagentCatalog(turn: nat, step: nat, sessionId: string)
    | TodoWrite(turn: nat, step: nat, callId: string)
    | WebSearchRequest(turn: nat, step: nat, callId: string, index: nat, query: string)
    | SandboxMode(delegated: bool)
    | PlanMode(turn: nat, active: bool)
    | GoalChanged(change: GoalChange)
    | StepEnd(turn: nat, step: nat)
    | TurnEnd(turn: nat, outcome: Outcome)

  predicate WellFormedChange(change: GoalChange) {
    match change
    case Clear(cleared, clearedAt) => clearedAt > 0 && cleared.id != "" && cleared.revision > 0
    case Change(_, next, _, createdAt, updatedAt) =>
      && 0 < createdAt <= updatedAt
      && next.id != "" && next.revision > 0 && next.objective != ""
      && 0 < next.maxRounds <= MAX_GOAL_ROUNDS
      && (next.blockedReason.Some? <==> next.phase == Blocked)
  }

  predicate WellFormedMessage(message: Message, user: bool) {
    var source := message.source;
    && source.kind != ""
    && (if source.kind == GOAL_SOURCE
        then user && source.goalId != "" && source.goalRevision > 0 && 0 < source.goalRound <= MAX_GOAL_ROUNDS
        else source.goalId == "" && source.goalRevision == 0 && source.goalRound == 0)
    && (source.noticeId != "" ==> user)
  }

  predicate Sorted(values: seq<nat>) {
    forall i, j :: 0 <= i < j < |values| ==> values[i] <= values[j]
  }

  /** Record.Validate: the schema every stored or appended record satisfies. */
  predicate WellFormed(record: Record) {
    match record
    case TurnStart(turn) => turn > 0
    case UserMessage(turn, _, message) => turn > 0 && WellFormedMessage(message, true)
    case NoticeQueued(message) => WellFormedMessage(message, true) && message.source.noticeId != ""
    case AssistantMessage(turn, step, message) => turn > 0 && step > 0 && WellFormedMessage(message, false)
    case CallMade(turn, step, call) => turn > 0 && step > 0 && call.id != "" && call.name != ""
    case ApprovalAsked(turn, step, id, tool, callId) => turn > 0 && step > 0 && id != "" && tool != "" && callId != ""
    case ApprovalDecided(turn, step, id) => turn > 0 && step > 0 && id != ""
    case CallResult(turn, step, result) =>
      turn > 0 && step > 0 && result.callId != "" && (result.isError ==> result.metaTool.None?)
    case CompactionStart(_, id) => id != ""
    case CompactionSummary(_, id, shadowed, summary) =>
      id != "" && shadowed != [] && summary != "" && Sorted(shadowed) && 0 !in shadowed
    case CompactionEnd(_, id, _) => id != ""
    case CompactionPrune(_, seqNo, _) => seqNo > 0
    case SubagentDescriptor(ownership, inherited) => ownership == Spawn ==> inherited == 0
    case SubagentCatalog(turn, step, id) => turn > 0 && step > 0 && id != ""
    case TodoWrite(turn, step, callId) => turn > 0 && step > 0 && callId != ""
    case WebSearchRequest(turn, step, callId, index, query) =>
      turn > 0 && step > 0 && callId != "" && 1 <= index <= 4 && query != ""
    case GoalChanged(change) => WellFormedChange(change)
    case StepStart(turn, step) => turn > 0 && step > 0
    case RequestHeader(turn, step) => turn > 0 && step > 0
    case AssistantChunk(turn, step) => turn > 0 && step > 0
    case Retry(turn, step) => turn > 0 && step > 0
    case RetryStarted(turn, step) => turn > 0 && step > 0
    case StepEnd(turn, step) => turn > 0 && step > 0
    case TurnEnd(turn, _) => turn > 0
    case ApprovalPolicy(_) => true
    case SandboxMode(_) => true
    case PlanMode(_, _) => true
  }

  ghost predicate AllWellFormed(log: seq<Record>) {
    forall i :: 0 <= i < |log| ==> WellFormed(log[i])
  }
}
