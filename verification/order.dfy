/**
  The order automaton (internal/adapter/session/jsonl/order.go): a strict fold over
  every record kind. Step gives one iteration of its loop; Fold the whole loop;
  ValidateOrder is the loop itself, together with the replay-surface pass.
  A rejection is None: every rejection is the same corrupt-session error.
 */
module Order {
  import opened Records
  import Goals
  import Surfaces

  /** Where the log stands, and whether a compaction or plan mode is in force. */
  datatype Place = Place(
    lastTurn: nat, turn: nat, step: nat, lastStep: nat, assistant: bool, compaction: string, plan: bool)

  /** The calls and approval questions of the open step, in commit order and by ID. */
  datatype Work = Work(
    calls: seq<string>, approvals: seq<string>,
    pendingCalls: map<string, ToolCall>, approvalCalls: map<string, string>, seenApprovals: set<string>,
    todoCalls: set<string>, searchIndices: map<string, nat>)

  /** Notices owed and every notice ID ever queued. */
  datatype Inbox = Inbox(notices: map<string, Message>, noticeIds: set<string>)

  datatype State = State(at: Place, work: Work, inbox: Inbox, children: set<string>, goals: Goals.GoalState)
  {
    predicate Closed() { at.turn == 0 && at.compaction == "" }
    predicate In(turn: nat, step: nat) { turn == at.turn && step == at.step }
  }

  const NO_WORK := Work([], [], map[], map[], {}, {}, map[])
  const INIT := State(Place(0, 0, 0, 0, false, "", false), NO_WORK, Inbox(map[], {}), {}, Goals.NO_GOALS)

  /** remove: drops the first occurrence of target. */
  function Remove(values: seq<string>, target: string): seq<string> {
    if values == [] then []
    else if values[0] == target then values[1..]
    else [values[0]] + Remove(values[1..], target)
  }

  /** A pending call with this ID whose arguments were recorded, made to this tool. */
  predicate Usable(work: Work, callId: string, tool: string) {
    callId in work.pendingCalls && work.pendingCalls[callId].name == tool && !work.pendingCalls[callId].argumentsOmitted
  }

  /** One event: goal facts are folded first, then the lifecycle rules apply. */
  function Step(log: seq<Record>, s: State, record: Record): Option<State> {
    match Goals.Apply(s.goals, record)
    case None => None
    case Some(goals) => Lifecycle(log, s.(goals := goals), record)
  }

  function Guard(condition: bool, next: State): Option<State> {
    if condition then Some(next) else None
  }

  /** The lifecycle rules; log is the prefix before record. */
  function Lifecycle(log: seq<Record>, s: State, record: Record): Option<State> {
    var at, work, inbox := s.at, s.work, s.inbox;
    match record
    case TurnStart(turn) =>
      Guard(at.turn == 0 && turn == at.lastTurn + 1,
            s.(at := at.(turn := turn, lastTurn := turn, lastStep := 0, assistant := false)))
    case UserMessage(turn, step, message) =>
      var id := message.source.noticeId;
      Guard(turn == at.turn && (step == 0 || step == at.step)
            && (id == "" || (id in inbox.notices && inbox.notices[id] == message)),
            if id == "" then s else s.(inbox := inbox.(notices := inbox.notices - {id})))
    case NoticeQueued(message) =>
      var id := message.source.noticeId;
      Guard(id !in inbox.noticeIds, s.(inbox := Inbox(inbox.notices[id := message], inbox.noticeIds + {id})))
    case StepStart(turn, step) =>
      Guard(turn == at.turn && at.step == 0 && step == at.lastStep + 1,
            s.(at := at.(step := step, lastStep := step, assistant := false)))
    case RequestHeader(turn, step) => Guard(s.In(turn, step), s)
    case AssistantChunk(turn, step) => Guard(s.In(turn, step), s)
    case AssistantMessage(turn, step, _) =>
      Guard(s.In(turn, step) && !at.assistant, s.(at := at.(assistant := true)))
    case CallMade(turn, step, call) =>
      Guard(s.In(turn, step) && at.assistant && call.id !in work.pendingCalls,
            s.(work := work.(pendingCalls := work.pendingCalls[call.id := call], calls := work.calls + [call.id])))
    case ApprovalAsked(turn, step, id, tool, callId) =>
      Guard(s.In(turn, step) && Usable(work, callId, tool) && id !in work.seenApprovals,
            s.(work := work.(seenApprovals := work.seenApprovals + {id},
                             approvalCalls := work.approvalCalls[id := callId], approvals := work.approvals + [id])))
    case ApprovalDecided(turn, step, id) =>
      Guard(s.In(turn, step) && id in work.approvalCalls,
            s.(work := work.(approvalCalls := work.approvalCalls - {id}, approvals := Remove(work.approvals, id))))
    case CallResult(turn, step, result) =>
      var id := result.callId;
      Guard(s.In(turn, step) && id in work.pendingCalls
            && (work.pendingCalls[id].argumentsOmitted ==> result.isError)
            && (result.metaTool.Some? ==> result.metaTool.value == work.pendingCalls[id].name)
            && id !in work.approvalCalls.Values,
            s.(work := work.(pendingCalls := work.pendingCalls - {id}, todoCalls := work.todoCalls - {id},
                             searchIndices := work.searchIndices - {id}, calls := Remove(work.calls, id))))
    case TodoWrite(turn, step, callId) =>
      Guard(s.In(turn, step) && Usable(work, callId, "todo_write") && callId !in work.todoCalls,
            s.(work := work.(todoCalls := work.todoCalls + {callId})))
    case WebSearchRequest(turn, step, callId, index, query) =>
      var previous := if callId in work.searchIndices then work.searchIndices[callId] else 0;
      Guard(s.In(turn, step) && at.step != 0 && Usable(work, callId, "web_search")
            && work.pendingCalls[callId].queries.Some?
            && index == previous + 1 && index <= |work.pendingCalls[callId].queries.value|
            && query == work.pendingCalls[callId].queries.value[index - 1],
            s.(work := work.(searchIndices := work.searchIndices[callId := index])))
    case Retry(turn, step) => Guard(s.In(turn, step) && !at.assistant, s)
    case RetryStarted(turn, step) => Guard(s.In(turn, step) && !at.assistant, s)
    case CompactionStart(turn, id) =>
      Guard(at.compaction == "" && (turn == 0 || turn == at.turn), s.(at := at.(compaction := id)))
    case CompactionSummary(_, id, _, _) => Guard(id == at.compaction, s)
    case CompactionEnd(_, id, _) => Guard(id == at.compaction, s.(at := at.(compaction := "")))
    case CompactionPrune(turn, _, _) => Guard(turn == at.turn && at.step == 0 && at.compaction == "", s)
    case StepEnd(turn, step) =>
      Guard(s.In(turn, step) && work.calls == [] && work.approvals == [] && at.compaction == "",
            s.(at := at.(step := 0)))
    case TurnEnd(turn, outcome) =>
      Guard(turn == at.turn && at.step == 0 && at.compaction == "" && (outcome == MaxTokens ==> at.assistant),
            s.(at := at.(turn := 0)))
    case SandboxMode(delegated) =>
      Guard(delegated ==> log != [] && log[|log| - 1].SubagentDescriptor?, s)
    case PlanMode(turn, active) =>
      Guard(turn == at.turn && at.step == 0 && active != at.plan, s.(at := at.(plan := active)))
    case SubagentDescriptor(_, inherited) => Guard(at.turn == 0 && inherited == |log|, s)
    case SubagentCatalog(turn, step, id) =>
      Guard(s.In(turn, step) && id !in s.children, s.(children := s.children + {id}))
    case ApprovalPolicy(_) => Some(s)
    case GoalChanged(_) => Some(s)
  }

  function Fold(log: seq<Record>): Option<State> {
    if log == [] then Some(INIT)
    else match Fold(log[..|log| - 1])
      case None => None
      case Some(s) => Step(log[..|log| - 1], s, log[|log| - 1])
  }

  /** validateOrder(log, false) succeeds on a log of schema-valid records. */
  ghost predicate Valid(log: seq<Record>) {
    AllWellFormed(log) && Fold(log).Some? && Surfaces.Surface(log).Some?
  }

  /** validateOrder(log, true) succeeds. */
  ghost predicate ValidClosed(log: seq<Record>) {
    Valid(log) && Fold(log).value.Closed()
  }

  /** The final state of a valid log. */
  ghost function StateOf(log: seq<Record>): State
    requires Valid(log)
  {
    Fold(log).value
  }

  /** The validator's loop over the events, then the replay-surface pass. */
  method ValidateOrder(log: seq<Record>, requireClosed: bool) returns (result: Option<State>)
    ensures result.Some? <==> Fold(log).Some? && Surfaces.Surface(log).Some? && (requireClosed ==> Fold(log).value.Closed())
    ensures result.Some? ==> result == Fold(log)
  {
    hide Step, Surfaces.Visible;
    var state := INIT;
    for i := 0 to |log|
      invariant Fold(log[..i]) == Some(state)
    {
      assert log[..i + 1][..i] == log[..i];
      match Step(log[..i], state, log[i]) {
        case None =>
          RejectedPrefix(log, i + 1);
          return None;
        case Some(next) => state := next;
      }
    }
    assert log[..|log|] == log;
    var nodes := [];
    for i := 0 to |log|
      invariant Surfaces.Surface(log[..i]) == Some(nodes)
    {
      assert log[..i + 1][..i] == log[..i];
      match Surfaces.Visible(nodes, i + 1, log[i]) {
        case None =>
          HiddenPrefix(log, i + 1);
          return None;
        case Some(next) => nodes := next;
      }
    }
    if requireClosed && (state.at.turn != 0 || state.at.compaction != "") {
      return None;
    }
    return Some(state);
  }

  lemma {:induction false} RejectedPrefix(log: seq<Record>, i: nat)
    requires i <= |log| && Fold(log[..i]).None?
    ensures Fold(log).None?
    decreases |log|
  {
    if i == |log| {
      assert log[..i] == log;
    } else {
      assert log[..|log| - 1][..i] == log[..i];
      RejectedPrefix(log[..|log| - 1], i);
    }
  }

  lemma {:induction false} HiddenPrefix(log: seq<Record>, i: nat)
    requires i <= |log| && Surfaces.Surface(log[..i]).None?
    ensures Surfaces.Surface(log).None?
    decreases |log|
  {
    if i == |log| {
      assert log[..i] == log;
    } else {
      assert log[..|log| - 1][..i] == log[..i];
      HiddenPrefix(log[..|log| - 1], i);
    }
  }
}
