/**
  The order rules without the automaton: when a valid log accepts a record, for every kind,
  said over the indices of the log as facts that hold there (jsonl/order.go,
  internal/core/session/goal.go). The automaton's variables are exactly those facts.
 */
module OrderLaws {
  import opened Records
  import opened Standing
  import opened Order
  import opened OrderFacts
  import opened SurfaceLaws
  import Goals
  import Surfaces

  // ----- the automaton's variables are facts of the log -----

  ghost predicate PlaceAgrees(facts: iset<Fact>, at: Place) {
    && (forall t :: TurnOpen(t) in facts <==> t != 0 && at.turn == t)
    && (forall t, k :: StepOpen(t, k) in facts <==> k != 0 && at.turn == t && at.step == k)
    && (forall t :: LatestTurn(t) in facts <==> t != 0 && at.lastTurn == t)
    && (forall k :: LatestStep(k) in facts <==> k != 0 && at.lastStep == k)
    && (Answered in facts <==> at.assistant)
    && (forall id :: Compacting(id) in facts <==> id != "" && at.compaction == id)
    && (LatestMode(true) in facts <==> at.plan)
  }

  ghost predicate WorkAgrees(facts: iset<Fact>, work: Work) { CallsAgree(facts, work) && QuestionsAgree(facts, work) }

  ghost predicate PendingAgree(facts: iset<Fact>, work: Work) {
    forall c: ToolCall :: Called(c) in facts <==> c.id in work.pendingCalls && work.pendingCalls[c.id] == c
  }

  ghost predicate TodosAgree(facts: iset<Fact>, work: Work) {
    forall id :: TodoWritten(id) in facts <==> id in work.todoCalls
  }

  ghost predicate SearchesAgree(facts: iset<Fact>, work: Work) {
    && (forall id, n :: Searched(id, n) in facts <==> id in work.searchIndices && work.searchIndices[id] == n)
    && (forall id :: id in work.searchIndices ==> work.searchIndices[id] > 0)
  }

  ghost predicate CallsAgree(facts: iset<Fact>, work: Work) {
    PendingAgree(facts, work) && TodosAgree(facts, work) && SearchesAgree(facts, work)
  }

  ghost predicate QuestionsAgree(facts: iset<Fact>, work: Work) {
    && (forall id, callId :: Asking(id, callId) in facts <==> id in work.approvalCalls && work.approvalCalls[id] == callId)
    && (forall id :: Asked(id) in facts <==> id in work.seenApprovals)
  }

  ghost predicate InboxAgrees(facts: iset<Fact>, inbox: Inbox, children: set<string>) {
    && (forall m: Message :: Owing(m) in facts <==>
          m.source.noticeId in inbox.notices && inbox.notices[m.source.noticeId] == m)
    && (forall id :: Queued(id) in facts <==> id in inbox.noticeIds)
    && (forall id :: Catalogued(id) in facts <==> id in children)
  }

  ghost predicate GoalAgrees(facts: iset<Fact>, goals: Goals.GoalState) {
    && (forall c :: GoalSet(c) in facts ==>
          if c.Clear? then goals.goal.None?
          else goals.goal == Some(c.snapshot) && goals.createdAt == c.createdAt && goals.updatedAt == c.updatedAt)
    && (goals.goal.Some? ==> exists c :: GoalSet(c) in facts)
    && (goals.goal.Some? ==> forall n :: LatestRound(n) in facts <==> n == goals.roundsStarted)
    && (forall id :: Created(id) in facts <==> id in goals.seen)
  }

  ghost predicate Agrees(facts: iset<Fact>, s: State) {
    && PlaceAgrees(facts, s.at) && WorkAgrees(facts, s.work)
    && InboxAgrees(facts, s.inbox, s.children) && GoalAgrees(facts, s.goals)
  }

  /** How one record changes each kind of fact. */
  lemma NextPlace(facts: iset<Fact>, r: Record)
    ensures forall t :: TurnOpen(t) in Next(facts, r) <==> r == TurnStart(t) || (TurnOpen(t) in facts && !r.TurnEnd?)
    ensures forall t, k :: StepOpen(t, k) in Next(facts, r) <==> r == StepStart(t, k) || (StepOpen(t, k) in facts && !r.StepEnd?)
    ensures forall t :: LatestTurn(t) in Next(facts, r) <==> r == TurnStart(t) || (LatestTurn(t) in facts && !r.TurnStart?)
    ensures forall k :: LatestStep(k) in Next(facts, r) <==>
      (r.StepStart? && r.step == k) || (LatestStep(k) in facts && !r.TurnStart? && !r.StepStart?)
    ensures Answered in Next(facts, r) <==> r.AssistantMessage? || (Answered in facts && !r.TurnStart? && !r.StepStart?)
    ensures forall id :: Compacting(id) in Next(facts, r) <==>
      (r.CompactionStart? && r.compactionId == id) || (Compacting(id) in facts && !r.CompactionEnd?)
    ensures LatestMode(true) in Next(facts, r) <==> if r.PlanMode? then r.active else LatestMode(true) in facts
  {}

  lemma NextPending(facts: iset<Fact>, r: Record)
    ensures forall c :: Called(c) in Next(facts, r) <==>
      (r.CallMade? && r.call == c) || (Called(c) in facts && !(r.CallResult? && r.result.callId == c.id))
  {}

  lemma NextTodos(facts: iset<Fact>, r: Record)
    ensures forall id :: TodoWritten(id) in Next(facts, r) <==>
      (r.TodoWrite? && r.callId == id) || (TodoWritten(id) in facts && !(r.CallResult? && r.result.callId == id))
  {}

  lemma NextSearches(facts: iset<Fact>, r: Record)
    ensures forall id, n :: Searched(id, n) in Next(facts, r) <==>
      || (r.WebSearchRequest? && r.callId == id && r.index == n)
      || (Searched(id, n) in facts && !(r.CallResult? && r.result.callId == id) && !(r.WebSearchRequest? && r.callId == id))
  {}

  lemma NextQuestions(facts: iset<Fact>, r: Record)
    ensures forall id, callId :: Asking(id, callId) in Next(facts, r) <==>
      || (r.ApprovalAsked? && r.approvalId == id && r.callId == callId)
      || (Asking(id, callId) in facts && !(r.ApprovalDecided? && r.approvalId == id))
    ensures forall id :: Asked(id) in Next(facts, r) <==> (r.ApprovalAsked? && r.approvalId == id) || Asked(id) in facts
  {}

  lemma NextInbox(facts: iset<Fact>, r: Record)
    ensures forall m :: Owing(m) in Next(facts, r) <==>
      || r == NoticeQueued(m)
      || (Owing(m) in facts
          && !(r.UserMessage? && r.message.source.noticeId != "" && r.message.source.noticeId == m.source.noticeId))
    ensures forall id :: Queued(id) in Next(facts, r) <==> (r.NoticeQueued? && r.message.source.noticeId == id) || Queued(id) in facts
    ensures forall id :: Catalogued(id) in Next(facts, r) <==> (r.SubagentCatalog? && r.sessionId == id) || Catalogued(id) in facts
  {}

  lemma NextGoals(facts: iset<Fact>, r: Record)
    ensures forall c :: GoalSet(c) in Next(facts, r) <==> r == GoalChanged(c) || (GoalSet(c) in facts && !r.GoalChanged?)
    ensures forall n :: LatestRound(n) in Next(facts, r) <==>
      || (IsRound(r) && r.message.source.goalRound == n)
      || (r.GoalChanged? && r.change.Change? && r.change.roundsStarted == n)
      || (LatestRound(n) in facts && !r.GoalChanged? && !IsRound(r))
    ensures forall id :: Created(id) in Next(facts, r) <==>
      || (r.GoalChanged? && r.change.Change? && r.change.operation == OpCreate && r.change.snapshot.id == id)
      || Created(id) in facts
  {}

  /** What an accepted record says of the place it meets. */
  predicate Fits(at: Place, record: Record) {
    match record
    case TurnStart(turn) => turn > 0 && at.turn == 0
    case StepStart(turn, step) => step > 0 && turn == at.turn && at.turn != 0 && at.step == 0
    case TurnEnd(_, _) => at.step == 0
    case CompactionStart(_, id) => id != "" && at.compaction == ""
    case _ => true
  }

  lemma AcceptedFits(log: seq<Record>, s: State, record: Record)
    requires WellFormed(record) && Lifecycle(log, s, record).Some?
    ensures Fits(s.at, record) && Lifecycle(log, s, record).value.at == Move(s.at, record)
  {}

  lemma PlaceMoves(at: Place, record: Record, facts: iset<Fact>)
    requires PlaceAgrees(facts, at) && Fits(at, record) && (at.turn == 0 ==> at.step == 0)
    ensures PlaceAgrees(Next(facts, record), Move(at, record))
  {
    hide Next, Begins, Ends;
    NextPlace(facts, record);
  }

  lemma PlaceFollows(log: seq<Record>, s: State, record: Record, facts: iset<Fact>)
    requires PlaceAgrees(facts, s.at) && PlaceInv(s) && WellFormed(record) && Lifecycle(log, s, record).Some?
    ensures PlaceAgrees(Next(facts, record), Lifecycle(log, s, record).value.at)
  {
    AcceptedFits(log, s, record);
    hide Lifecycle, WellFormed, PlaceAgrees, Fits, Move;
    PlaceMoves(s.at, record, facts);
  }

  /** How an accepted record changes the open work. */
  predicate WorkChanges(w: Work, next: Work, record: Record) {
    match record
    case CallMade(_, _, call) =>
      call.id !in w.pendingCalls && next == w.(pendingCalls := w.pendingCalls[call.id := call], calls := next.calls)
    case ApprovalAsked(_, _, id, _, callId) =>
      && id !in w.seenApprovals
      && next == w.(seenApprovals := w.seenApprovals + {id}, approvalCalls := w.approvalCalls[id := callId], approvals := next.approvals)
    case ApprovalDecided(_, _, id) => next == w.(approvalCalls := w.approvalCalls - {id}, approvals := next.approvals)
    case CallResult(_, _, result) =>
      next == w.(pendingCalls := w.pendingCalls - {result.callId}, todoCalls := w.todoCalls - {result.callId},
                 searchIndices := w.searchIndices - {result.callId}, calls := next.calls)
    case TodoWrite(_, _, callId) => next == w.(todoCalls := w.todoCalls + {callId})
    case WebSearchRequest(_, _, callId, index, _) => next == w.(searchIndices := w.searchIndices[callId := index])
    case _ => next == w
  }

  lemma AcceptedWork(log: seq<Record>, s: State, record: Record)
    requires Lifecycle(log, s, record).Some?
    ensures WorkChanges(s.work, Lifecycle(log, s, record).value.work, record)
  {}

  lemma PendingMoves(w: Work, next: Work, record: Record, facts: iset<Fact>)
    requires PendingAgree(facts, w) && CallInv(w) && WorkChanges(w, next, record)
    ensures PendingAgree(Next(facts, record), next)
  {
    hide Next, Begins, Ends, NoDup;
    NextPending(facts, record);
  }

  lemma TodosMove(w: Work, next: Work, record: Record, facts: iset<Fact>)
    requires TodosAgree(facts, w) && WorkChanges(w, next, record)
    ensures TodosAgree(Next(facts, record), next)
  {
    hide Next, Begins, Ends, NoDup;
    NextTodos(facts, record);
  }

  lemma SearchesMove(w: Work, next: Work, record: Record, facts: iset<Fact>)
    requires SearchesAgree(facts, w) && WorkChanges(w, next, record)
    requires record.WebSearchRequest? ==> record.index > 0
    ensures SearchesAgree(Next(facts, record), next)
  {
    hide Next, Begins, Ends, NoDup;
    NextSearches(facts, record);
  }

  lemma CallsMove(w: Work, next: Work, record: Record, facts: iset<Fact>)
    requires CallsAgree(facts, w) && CallInv(w) && WorkChanges(w, next, record)
    requires record.WebSearchRequest? ==> record.index > 0
    ensures CallsAgree(Next(facts, record), next)
  {
    hide Next, WorkChanges, CallInv, PendingAgree, TodosAgree, SearchesAgree;
    PendingMoves(w, next, record, facts);
    TodosMove(w, next, record, facts);
    SearchesMove(w, next, record, facts);
  }

  lemma QuestionsMove(w: Work, next: Work, record: Record, facts: iset<Fact>)
    requires QuestionsAgree(facts, w) && ApprovalInv(w) && WorkChanges(w, next, record)
    ensures QuestionsAgree(Next(facts, record), next)
  {
    hide Next, Begins, Ends, NoDup;
    NextQuestions(facts, record);
  }

  lemma WorkFollows(log: seq<Record>, s: State, record: Record, facts: iset<Fact>)
    requires WorkAgrees(facts, s.work) && CallInv(s.work) && ApprovalInv(s.work)
    requires WellFormed(record) && Lifecycle(log, s, record).Some?
    ensures WorkAgrees(Next(facts, record), Lifecycle(log, s, record).value.work)
  {
    AcceptedWork(log, s, record);
    assert record.WebSearchRequest? ==> record.index > 0;
    hide WellFormed, Lifecycle, CallsAgree, QuestionsAgree, WorkChanges, CallInv, ApprovalInv;
    CallsMove(s.work, Lifecycle(log, s, record).value.work, record, facts);
    QuestionsMove(s.work, Lifecycle(log, s, record).value.work, record, facts);
  }

  /** How an accepted record changes what is owed, and the children. */
  predicate InboxChanges(s: State, next: State, record: Record) {
    match record
    case UserMessage(_, _, message) =>
      var id := message.source.noticeId;
      && next.children == s.children
      && next.inbox == if id == "" then s.inbox else s.inbox.(notices := s.inbox.notices - {id})
    case NoticeQueued(message) =>
      var id := message.source.noticeId;
      && id !in s.inbox.noticeIds && next.children == s.children
      && next.inbox == Inbox(s.inbox.notices[id := message], s.inbox.noticeIds + {id})
    case SubagentCatalog(_, _, id) => next.children == s.children + {id} && next.inbox == s.inbox
    case _ => next.children == s.children && next.inbox == s.inbox
  }

  lemma AcceptedInbox(log: seq<Record>, s: State, record: Record)
    requires Lifecycle(log, s, record).Some?
    ensures InboxChanges(s, Lifecycle(log, s, record).value, record)
  {}

  lemma InboxMoves(s: State, next: State, record: Record, facts: iset<Fact>)
    requires InboxAgrees(facts, s.inbox, s.children) && NoticeInv(s.inbox) && InboxChanges(s, next, record)
    requires record.NoticeQueued? ==> record.message.source.noticeId != ""
    ensures InboxAgrees(Next(facts, record), next.inbox, next.children)
  {
    hide Next, Begins, Ends;
    NextInbox(facts, record);
  }

  lemma InboxFollows(log: seq<Record>, s: State, record: Record, facts: iset<Fact>)
    requires InboxAgrees(facts, s.inbox, s.children) && NoticeInv(s.inbox) && WellFormed(record)
    requires Lifecycle(log, s, record).Some?
    ensures var next := Lifecycle(log, s, record).value; InboxAgrees(Next(facts, record), next.inbox, next.children)
  {
    AcceptedInbox(log, s, record);
    assert record.NoticeQueued? ==> record.message.source.noticeId != "";
    hide Lifecycle, WellFormed, InboxAgrees, InboxChanges, NoticeInv;
    InboxMoves(s, Lifecycle(log, s, record).value, record, facts);
  }

  lemma GoalFollows(goals: Goals.GoalState, record: Record, facts: iset<Fact>)
    requires GoalAgrees(facts, goals) && Goals.Apply(goals, record).Some?
    ensures GoalAgrees(Next(facts, record), Goals.Apply(goals, record).value)
  {
    hide Next, Begins, Ends;
    NextGoals(facts, record);
    if record.GoalChanged? {
      assert GoalSet(record.change) in Next(facts, record);
    } else if goals.goal.Some? {
      var c :| GoalSet(c) in facts;
      assert GoalSet(c) in Next(facts, record);
    }
  }

  lemma GoalsSeparate(log: seq<Record>, s: State, record: Record)
    requires Step(log, s, record).Some?
    ensures Goals.Apply(s.goals, record).Some?
    ensures var t := s.(goals := Goals.Apply(s.goals, record).value);
      Lifecycle(log, t, record) == Step(log, s, record) && Step(log, s, record).value.goals == t.goals
  {}

  lemma AgreesStep(log: seq<Record>, s: State, record: Record, facts: iset<Fact>)
    requires Agrees(facts, s) && Inv(s) && WellFormed(record) && Step(log, s, record).Some?
    ensures Agrees(Next(facts, record), Step(log, s, record).value)
  {
    GoalsSeparate(log, s, record);
    var t := s.(goals := Goals.Apply(s.goals, record).value);
    hide Lifecycle, WellFormed, Goals.Apply, Step, Next, PlaceAgrees, WorkAgrees, InboxAgrees, GoalAgrees;
    hide CallInv, ApprovalInv, NoticeInv, PlaceInv;
    PlaceInvKept(s, t);
    PlaceFollows(log, t, record, facts);
    WorkFollows(log, t, record, facts);
    InboxFollows(log, t, record, facts);
    GoalFollows(s.goals, record, facts);
  }

  lemma PlaceInvKept(s: State, t: State)
    requires PlaceInv(s) && t == s.(goals := t.goals)
    ensures PlaceInv(t)
  {}

  /** On every valid log. */
  lemma {:induction false} FactsAgree(log: seq<Record>)
    requires Order.Valid(log)
    ensures Agrees(Facts(log), StateOf(log))
  {
    if log == [] {
      NoFacts();
    } else {
      var front, last := log[..|log| - 1], log[|log| - 1];
      ValidLast(log);
      hide Agrees, Step, WellFormed, Order.Valid, Inv, Next, Facts;
      assert log == front + [last];
      FactsAgree(front);
      FactsSnoc(front, last);
      AgreesStep(front, StateOf(front), last, Facts(front));
    }
  }

  // ----- what is open, over the indices of the log -----

  ghost predicate NoTurn(log: seq<Record>) { forall t :: !Holds(log, TurnOpen(t)) }
  ghost predicate NoStep(log: seq<Record>) { forall t, k :: !Holds(log, StepOpen(t, k)) }
  ghost predicate NoCompaction(log: seq<Record>) { forall id :: !Holds(log, Compacting(id)) }
  ghost predicate NoCall(log: seq<Record>) { forall c :: !Holds(log, Called(c)) }
  ghost predicate NoQuestion(log: seq<Record>) { forall id, callId :: !Holds(log, Asking(id, callId)) }

  /** Turn 0 stands for the time between turns. */
  ghost predicate AtTurn(log: seq<Record>, turn: nat) { if turn == 0 then NoTurn(log) else Holds(log, TurnOpen(turn)) }

  /** A call with this ID, made to this tool with recorded arguments, has no result yet. */
  ghost predicate UsableCall(log: seq<Record>, callId: string, tool: string) {
    exists c :: Holds(log, Called(c)) && c.id == callId && c.name == tool && !c.argumentsOmitted
  }

  /** The lifecycle rules for every kind of record. */
  ghost predicate Allowed(log: seq<Record>, record: Record) {
    match record
    case TurnStart(turn) =>
      NoTurn(log) && if turn == 1 then forall t :: !Holds(log, LatestTurn(t)) else turn > 1 && Holds(log, LatestTurn(turn - 1))
    case UserMessage(turn, step, message) =>
      && Holds(log, TurnOpen(turn)) && (step == 0 || Holds(log, StepOpen(turn, step)))
      && (message.source.noticeId == "" || Holds(log, Owing(message)))
    case NoticeQueued(message) => !Holds(log, Queued(message.source.noticeId))
    case StepStart(turn, step) =>
      && Holds(log, TurnOpen(turn)) && NoStep(log)
      && if step == 1 then forall k :: !Holds(log, LatestStep(k)) else step > 1 && Holds(log, LatestStep(step - 1))
    case RequestHeader(turn, step) => Holds(log, StepOpen(turn, step))
    case AssistantChunk(turn, step) => Holds(log, StepOpen(turn, step))
    case AssistantMessage(turn, step, _) => Holds(log, StepOpen(turn, step)) && !Holds(log, Answered)
    case CallMade(turn, step, call) =>
      Holds(log, StepOpen(turn, step)) && Holds(log, Answered) && forall c :: Holds(log, Called(c)) ==> c.id != call.id
    case ApprovalAsked(turn, step, id, tool, callId) =>
      Holds(log, StepOpen(turn, step)) && UsableCall(log, callId, tool) && !Holds(log, Asked(id))
    case ApprovalDecided(turn, step, id) => Holds(log, StepOpen(turn, step)) && exists callId :: Holds(log, Asking(id, callId))
    case CallResult(turn, step, result) =>
      && Holds(log, StepOpen(turn, step))
      && (exists c :: && Holds(log, Called(c)) && c.id == result.callId && (c.argumentsOmitted ==> result.isError)
                      && (result.metaTool.Some? ==> result.metaTool.value == c.name))
      && forall id :: !Holds(log, Asking(id, result.callId))
    case TodoWrite(turn, step, callId) =>
      Holds(log, StepOpen(turn, step)) && UsableCall(log, callId, "todo_write") && !Holds(log, TodoWritten(callId))
    case WebSearchRequest(turn, step, callId, index, query) =>
      && Holds(log, StepOpen(turn, step))
      && (exists c :: && Holds(log, Called(c)) && c.id == callId && c.name == "web_search" && !c.argumentsOmitted
                      && c.queries.Some? && 1 <= index <= |c.queries.value| && query == c.queries.value[index - 1])
      && if index == 1 then forall n :: !Holds(log, Searched(callId, n)) else index > 1 && Holds(log, Searched(callId, index - 1))
    case Retry(turn, step) => Holds(log, StepOpen(turn, step)) && !Holds(log, Answered)
    case RetryStarted(turn, step) => Holds(log, StepOpen(turn, step)) && !Holds(log, Answered)
    case CompactionStart(turn, _) => NoCompaction(log) && (turn == 0 || Holds(log, TurnOpen(turn)))
    case CompactionSummary(_, id, _, _) => Holds(log, Compacting(id))
    case CompactionEnd(_, id, _) => Holds(log, Compacting(id))
    case CompactionPrune(turn, _, _) => AtTurn(log, turn) && NoStep(log) && NoCompaction(log)
    case StepEnd(turn, step) => Holds(log, StepOpen(turn, step)) && NoCall(log) && NoQuestion(log) && NoCompaction(log)
    case TurnEnd(turn, outcome) =>
      Holds(log, TurnOpen(turn)) && NoStep(log) && NoCompaction(log) && (outcome == MaxTokens ==> Holds(log, Answered))
    case SandboxMode(delegated) => delegated ==> log != [] && log[|log| - 1].SubagentDescriptor?
    case PlanMode(turn, active) => AtTurn(log, turn) && NoStep(log) && (active <==> !Holds(log, LatestMode(true)))
    case SubagentDescriptor(_, inherited) => NoTurn(log) && inherited == |log|
    case SubagentCatalog(turn, step, id) => Holds(log, StepOpen(turn, step)) && !Holds(log, Catalogued(id))
    case ApprovalPolicy(_) => true
    case GoalChanged(_) => true
  }

  /** The goal change that set the current goal. */
  ghost predicate SetBy(log: seq<Record>, c: GoalChange) { c.Change? && Holds(log, GoalSet(c)) }

  /** What each operation may make of the goal that c set. */
  predicate Succeeds(c: GoalChange, next: GoalChange)
    requires c.Change? && next.Change?
  {
    var was, now := c.snapshot, next.snapshot;
    && now.id == was.id && now.revision == was.revision + 1
    && next.createdAt == c.createdAt && next.updatedAt >= c.updatedAt
    && (next.operation != OpEdit ==> now.objective == was.objective && now.maxRounds == was.maxRounds)
    && (next.operation == OpEdit ==> now.phase == was.phase && now.blockedReason == was.blockedReason)
    && (next.operation == OpPause ==> was.phase == Active && now.phase == Paused)
    && (next.operation == OpBlock ==> was.phase == Active && now.phase == Blocked)
    && (next.operation == OpComplete ==> was.phase != Complete && now.phase == Complete)
    && (next.operation == OpResume ==> was.phase != Complete && now.phase == Active && next.roundsStarted < now.maxRounds)
  }

  /** The goal rules. */
  ghost predicate GoalAllowed(log: seq<Record>, record: Record) {
    match record
    case UserMessage(_, _, message) =>
      var source := message.source;
      source.kind == GOAL_SOURCE ==>
        exists c :: && SetBy(log, c) && c.snapshot.phase == Active
                    && source.goalId == c.snapshot.id && source.goalRevision == c.snapshot.revision
                    && 1 <= source.goalRound <= c.snapshot.maxRounds && Holds(log, LatestRound(source.goalRound - 1))
    case GoalChanged(change) =>
      if change.Clear? then
        exists c :: && SetBy(log, c) && change.cleared == GoalRef(c.snapshot.id, c.snapshot.revision + 1)
                    && change.clearedAt >= c.updatedAt
      else if change.operation == OpCreate then
        && change.snapshot.revision == 1 && change.snapshot.phase == Active && change.roundsStarted == 0
        && (forall c :: SetBy(log, c) ==> c.snapshot.phase == Complete) && !Holds(log, Created(change.snapshot.id))
      else exists c :: SetBy(log, c) && Holds(log, LatestRound(change.roundsStarted)) && Succeeds(c, change)
    case _ => true
  }

  // ----- acceptance -----

  lemma FactsAre(log: seq<Record>)
    ensures forall fact :: fact in Facts(log) <==> Holds(log, fact)
  {}

  /** The open things, read off the automaton's variables. */
  lemma OpenThings(log: seq<Record>, s: State)
    requires Agrees(Facts(log), s) && Inv(s)
    ensures NoTurn(log) <==> s.at.turn == 0
    ensures NoStep(log) <==> s.at.step == 0
    ensures NoCompaction(log) <==> s.at.compaction == ""
    ensures NoCall(log) <==> s.work.calls == []
    ensures NoQuestion(log) <==> s.work.approvals == []
    ensures forall t :: AtTurn(log, t) <==> s.at.turn == t
    ensures forall t, k :: Holds(log, StepOpen(t, k)) <==> k != 0 && s.at.turn == t && s.at.step == k
  {
    FactsAre(log);
    hide Holds, Facts;
    assert TurnOpen(s.at.turn) in Facts(log) <==> s.at.turn != 0;
    assert StepOpen(s.at.turn, s.at.step) in Facts(log) <==> s.at.step != 0;
    assert Compacting(s.at.compaction) in Facts(log) <==> s.at.compaction != "";
    if s.work.calls != [] {
      var id := s.work.calls[0];
      assert id in s.work.calls;
      assert Called(s.work.pendingCalls[id]) in Facts(log);
    }
    if s.work.approvals != [] {
      var id := s.work.approvals[0];
      assert id in s.work.approvals;
      assert Asking(id, s.work.approvalCalls[id]) in Facts(log);
    }
    if c: ToolCall :| Called(c) in Facts(log) {
      assert c.id in s.work.calls;
    }
  }

  /** The calls and questions a record may refer to, read off the automaton's variables. */
  lemma OpenCalls(log: seq<Record>, s: State, callId: string)
    requires Agrees(Facts(log), s) && Inv(s)
    ensures callId in s.work.pendingCalls ==>
      s.work.pendingCalls[callId].id == callId && Holds(log, Called(s.work.pendingCalls[callId]))
    ensures forall c :: Holds(log, Called(c)) && c.id == callId ==> callId in s.work.pendingCalls && s.work.pendingCalls[callId] == c
    ensures Holds(log, TodoWritten(callId)) <==> callId in s.work.todoCalls
    ensures (forall id :: !Holds(log, Asking(id, callId))) <==> callId !in s.work.approvalCalls.Values
    ensures forall n :: Holds(log, Searched(callId, n)) <==> callId in s.work.searchIndices && s.work.searchIndices[callId] == n
    ensures (forall n :: !Holds(log, Searched(callId, n))) <==> callId !in s.work.searchIndices
    ensures callId in s.work.searchIndices ==> s.work.searchIndices[callId] > 0
  {
    FactsAre(log);
    hide Holds, Facts;
    if callId in s.work.pendingCalls {
      assert Called(s.work.pendingCalls[callId]) in Facts(log);
    }
    if callId in s.work.approvalCalls.Values {
      var id :| id in s.work.approvalCalls && s.work.approvalCalls[id] == callId;
      assert Asking(id, callId) in Facts(log);
    }
    if id: string :| Holds(log, Asking(id, callId)) {
      assert Asking(id, callId) in Facts(log);
      assert s.work.approvalCalls[id] == callId;
    }
    if callId in s.work.searchIndices {
      assert Searched(callId, s.work.searchIndices[callId]) in Facts(log);
    }
  }

  lemma Questions(log: seq<Record>, s: State, id: string)
    requires Agrees(Facts(log), s)
    ensures Holds(log, Asked(id)) <==> id in s.work.seenApprovals
    ensures (exists callId :: Holds(log, Asking(id, callId))) <==> id in s.work.approvalCalls
  {
    FactsAre(log);
    hide Holds, Facts;
    if id in s.work.approvalCalls {
      assert Asking(id, s.work.approvalCalls[id]) in Facts(log);
    }
    if callId: string :| Holds(log, Asking(id, callId)) {
      assert Asking(id, callId) in Facts(log);
    }
  }

  lemma Marks(log: seq<Record>, s: State)
    requires Agrees(Facts(log), s)
    ensures (forall t :: !Holds(log, LatestTurn(t))) <==> s.at.lastTurn == 0
    ensures forall t :: t > 0 ==> (Holds(log, LatestTurn(t)) <==> s.at.lastTurn == t)
    ensures (forall k :: !Holds(log, LatestStep(k))) <==> s.at.lastStep == 0
    ensures forall k :: k > 0 ==> (Holds(log, LatestStep(k)) <==> s.at.lastStep == k)
    ensures forall t :: Holds(log, TurnOpen(t)) <==> t != 0 && s.at.turn == t
    ensures forall id :: Holds(log, Compacting(id)) <==> id != "" && s.at.compaction == id
    ensures (Holds(log, Answered) <==> s.at.assistant) && (Holds(log, LatestMode(true)) <==> s.at.plan)
    ensures forall m: Message :: Holds(log, Owing(m)) <==>
      m.source.noticeId in s.inbox.notices && s.inbox.notices[m.source.noticeId] == m
    ensures forall id :: Holds(log, Queued(id)) <==> id in s.inbox.noticeIds
    ensures forall id :: Holds(log, Catalogued(id)) <==> id in s.children
  {
    FactsAre(log);
    hide Holds, Facts;
    assert LatestTurn(s.at.lastTurn) in Facts(log) <==> s.at.lastTurn != 0;
    assert LatestStep(s.at.lastStep) in Facts(log) <==> s.at.lastStep != 0;
  }

  /** Records about calls and questions. */
  predicate OfCalls(record: Record) {
    || record.CallMade? || record.CallResult? || record.ApprovalAsked? || record.ApprovalDecided?
    || record.TodoWrite? || record.WebSearchRequest?
  }

  lemma PlaceAllowed(log: seq<Record>, s: State, record: Record)
    requires Agrees(Facts(log), s) && Inv(s) && WellFormed(record) && !OfCalls(record)
    ensures Lifecycle(log, s, record).Some? <==> Allowed(log, record)
  {
    hide Holds, Next, Begins, Ends, Facts, NoTurn, NoStep, NoCompaction, NoCall, NoQuestion, AtTurn, Agrees, UsableCall, CallInv, ApprovalInv, NoticeInv;
    OpenThings(log, s);
    Marks(log, s);
  }

  lemma QuestionAllowed(log: seq<Record>, s: State, record: Record)
    requires Agrees(Facts(log), s) && Inv(s) && WellFormed(record) && (record.ApprovalAsked? || record.ApprovalDecided?)
    ensures Lifecycle(log, s, record).Some? <==> Allowed(log, record)
  {
    hide Holds, Next, Begins, Ends, Facts, NoTurn, NoStep, NoCompaction, NoCall, NoQuestion, AtTurn, Agrees, Inv;
    OpenThings(log, s);
    Questions(log, s, record.approvalId);
    if record.ApprovalAsked? {
      OpenCalls(log, s, record.callId);
    }
  }

  lemma CallAllowed(log: seq<Record>, s: State, record: Record)
    requires Agrees(Facts(log), s) && Inv(s) && WellFormed(record) && (record.CallMade? || record.CallResult? || record.TodoWrite?)
    ensures Lifecycle(log, s, record).Some? <==> Allowed(log, record)
  {
    hide Holds, Next, Begins, Ends, Facts, NoTurn, NoStep, NoCompaction, NoCall, NoQuestion, AtTurn, Agrees, Inv;
    OpenThings(log, s);
    Marks(log, s);
    OpenCalls(log, s, if record.CallMade? then record.call.id else if record.CallResult? then record.result.callId else record.callId);
  }

  lemma SearchAllowed(log: seq<Record>, s: State, turn: nat, step: nat, callId: string, index: nat, query: string)
    requires Agrees(Facts(log), s) && Inv(s) && WellFormed(WebSearchRequest(turn, step, callId, index, query))
    ensures var r := WebSearchRequest(turn, step, callId, index, query);
      Lifecycle(log, s, r).Some? <==> Allowed(log, r)
  {
    hide Holds, Next, Begins, Ends, Facts, NoTurn, NoStep, NoCompaction, NoCall, NoQuestion, AtTurn, Agrees, Inv;
    OpenThings(log, s);
    OpenCalls(log, s, callId);
    var calls := s.work.pendingCalls;
    var r := WebSearchRequest(turn, step, callId, index, query);
    if Lifecycle(log, s, r).Some? {
      assert Holds(log, Called(calls[callId]));
      assert Allowed(log, r);
    }
    if Allowed(log, r) {
      assert Lifecycle(log, s, r).Some?;
    }
  }

  lemma AllowedExactly(log: seq<Record>, s: State, record: Record)
    requires Agrees(Facts(log), s) && Inv(s) && WellFormed(record)
    ensures Lifecycle(log, s, record).Some? <==> Allowed(log, record)
  {
    hide Lifecycle, Allowed, Agrees, Inv, WellFormed;
    match record {
      case CallMade(_, _, _) => CallAllowed(log, s, record);
      case CallResult(_, _, _) => CallAllowed(log, s, record);
      case TodoWrite(_, _, _) => CallAllowed(log, s, record);
      case ApprovalAsked(_, _, _, _, _) => QuestionAllowed(log, s, record);
      case ApprovalDecided(_, _, _) => QuestionAllowed(log, s, record);
      case WebSearchRequest(turn, step, callId, index, query) => SearchAllowed(log, s, turn, step, callId, index, query);
      case _ => PlaceAllowed(log, s, record);
    }
  }

  lemma GoalAllowedExactly(log: seq<Record>, goals: Goals.GoalState, record: Record)
    requires GoalAgrees(Facts(log), goals) && WellFormed(record)
    ensures Goals.Apply(goals, record).Some? <==> GoalAllowed(log, record)
  {
    FactsAre(log);
    hide Holds, Facts;
    if goals.goal.Some? {
      var c :| GoalSet(c) in Facts(log);
      assert SetBy(log, c);
      assert LatestRound(goals.roundsStarted) in Facts(log);
    }
  }

  lemma StepExactly(log: seq<Record>, s: State, record: Record)
    requires Agrees(Facts(log), s) && Inv(s) && WellFormed(record)
    ensures Step(log, s, record).Some? <==> Allowed(log, record) && GoalAllowed(log, record)
  {
    hide Lifecycle, Goals.Apply, Allowed, GoalAllowed, WellFormed, WorkAgrees, PlaceAgrees, InboxAgrees, GoalAgrees;
    hide CallInv, ApprovalInv, NoticeInv, PlaceInv, Facts, Holds, Next;
    GoalAllowedExactly(log, s.goals, record);
    if Goals.Apply(s.goals, record).Some? {
      var goals := Goals.Apply(s.goals, record).value;
      LifecycleIgnoresGoals(log, s, s.(goals := goals), record);
    }
    AllowedExactly(log, s, record);
  }

  lemma LifecycleIgnoresGoals(log: seq<Record>, s: State, t: State, record: Record)
    requires t == s.(goals := t.goals)
    ensures Lifecycle(log, s, record).Some? <==> Lifecycle(log, t, record).Some?
  {}

  /**
    A valid log accepts a record exactly when the schema does and the facts that hold at its
    end allow it: the lifecycle rules, the goal rules and the transcript's. So the valid logs
    are those in which every record was allowed where it stands.
   */
  lemma AcceptedExactly(log: seq<Record>, record: Record)
    requires Order.Valid(log)
    ensures Order.Valid(log + [record]) <==>
            WellFormed(record) && Allowed(log, record) && GoalAllowed(log, record) && Displayable(log, record)
  {
    hide *;
    FactsAgree(log);
    InvAt(log);
    SurfaceIs(log);
    ValidSnoc(log, record);
    DisplayedExactly(log, record, Surfaces.Surface(log).value);
    if WellFormed(record) {
      StepExactly(log, StateOf(log), record);
    }
  }

  lemma InvAt(log: seq<Record>)
    requires Order.Valid(log)
    ensures Inv(StateOf(log)) && Surfaces.Surface(log).Some?
  {
    InvHolds(log);
  }

  lemma {:induction false} ValidExactly(log: seq<Record>)
    ensures Order.Valid(log) <==> forall i :: 0 <= i < |log| ==>
      WellFormed(log[i]) && Allowed(log[..i], log[i]) && GoalAllowed(log[..i], log[i]) && Displayable(log[..i], log[i])
  {
    if log == [] {
      assert Order.Valid([]);
    } else {
      var n := |log| - 1;
      var front, last := log[..n], log[n];
      assert log == front + [last];
      hide *;
      ValidExactly(front);
      assert forall i :: 0 <= i < n ==> front[i] == log[i] && front[..i] == log[..i];
      ValidSnoc(front, last);
      if Order.Valid(front) {
        AcceptedExactly(front, last);
      }
    }
  }
}
