/**
  A live session as one of the parties that write to it sees it: the party's own appends,
  and between any two of them whatever the others commit. Beside a turn engine these are
  notices, goal changes, policy and sandbox switches, and whole manual compactions; beside
  a manual compaction they are anything a turn commits.
 */
module Live {
  import opened Records
  import opened Order
  import opened OrderFacts
  import opened Journal
  import opened Scans
  import Plans
  import Surfaces

  /** Records committed beside a running turn; none depends on where the turn stands. */
  predicate Ambient(record: Record) {
    record.NoticeQueued? || record.GoalChanged? || record.ApprovalPolicy? || record.SandboxMode?
  }

  /** Records a batch of running tools may commit. */
  predicate FromTools(record: Record) {
    || record.ApprovalAsked? || record.ApprovalDecided? || record.TodoWrite? || record.WebSearchRequest?
    || record.SubagentCatalog? || Ambient(record)
  }

  predicate TurnMark(record: Record) { record.TurnStart? || record.TurnEnd? }

  /** The turn starts and ends of a log, in order. */
  function Marks(log: seq<Record>): seq<Record> {
    if log == [] then []
    else Marks(log[..|log| - 1]) + (if TurnMark(log[|log| - 1]) then [log[|log| - 1]] else [])
  }

  /** pending holds the open calls themselves, by ID. */
  datatype View = View(at: Place, open: Open, pending: map<string, ToolCall>, nodes: seq<Surfaces.Node>, marks: seq<Record>,
                       plan: Plans.PlanView)

  ghost function ViewOf(log: seq<Record>): View
    requires Order.Valid(log)
  {
    View(StateOf(log).at, Open(StateOf(log).work.approvals, StateOf(log).work.calls), StateOf(log).work.pendingCalls,
         Surfaces.Surface(log).value, Marks(log), Plans.Project(OwnEvents(log)))
  }

  function PendingStep(pending: map<string, ToolCall>, record: Record): map<string, ToolCall> {
    match record
    case CallMade(_, _, call) => pending[call.id := call]
    case CallResult(_, _, result) => pending - {result.callId}
    case _ => pending
  }

  lemma PendingAgrees(log: seq<Record>, s: State, record: Record)
    requires Step(log, s, record).Some?
    ensures Step(log, s, record).value.work.pendingCalls == PendingStep(s.work.pendingCalls, record)
  {
    GoalsOnly(log, s, record);
    var t := s.(goals := Step(log, s, record).value.goals);
    if !WorkRecord(record) {
      OtherWork(log, t, record);
    }
  }

  /** The view after an accepted record with this sequence number. */
  function After(v: View, record: Record, seqNo: nat): View {
    View(Move(v.at, record), UnresolvedStep(v.open, record), PendingStep(v.pending, record),
         match Surfaces.Visible(v.nodes, seqNo, record) { case Some(nodes) => nodes case None => v.nodes },
         v.marks + (if TurnMark(record) then [record] else []),
         if record.SubagentDescriptor? then Plans.NO_PLAN else Plans.PlanStep(v.plan, record))
  }

  lemma WorkAgrees(log: seq<Record>, s: State, record: Record)
    requires Step(log, s, record).Some? && NoDup(s.work.calls) && NoDup(s.work.approvals)
    ensures var work := Step(log, s, record).value.work;
      Open(work.approvals, work.calls) == UnresolvedStep(Open(s.work.approvals, s.work.calls), record)
  {
    GoalsOnly(log, s, record);
    var t := s.(goals := Step(log, s, record).value.goals);
    hide Lifecycle;
    UnresolvedStepAgrees(log, t, record);
  }

  lemma ViewStep(log: seq<Record>, record: Record)
    requires Order.Valid(log + [record])
    ensures Order.Valid(log) && ViewOf(log + [record]) == After(ViewOf(log), record, |log| + 1)
  {
    hide Step, WellFormed, AllWellFormed, Surfaces.Visible, UnresolvedStep, Lifecycle, Move, Plans.PlanStep, PendingStep;
    ValidSnoc(log, record);
    InvHolds(log);
    MoveAgrees(log, StateOf(log), record);
    WorkAgrees(log, StateOf(log), record);
    PendingAgrees(log, StateOf(log), record);
    Plans.ProjectSnoc(log, record);
    assert (log + [record])[..|log|] == log;
  }

  // ----- what others do to a view -----

  /** Only the transcript and the open compaction may differ. */
  predicate Aside(v: View, w: View) { w == v.(at := v.at.(compaction := w.at.compaction), nodes := w.nodes) }

  /**
    What others may commit beside a party whose own compactions go by the ID mine: beside a
    turn engine no records of a turn, and never a compaction record under that ID.
   */
  predicate Foreign(mine: string, turns: bool, record: Record) {
    match record
    case CompactionStart(turn, id) => id != mine && (turns || turn == 0)
    case CompactionSummary(turn, id, _, _) => id != mine && (turns || turn == 0)
    case CompactionEnd(turn, id, _) => id != mine && (turns || turn == 0)
    case _ => turns || Ambient(record)
  }

  /** These change the transcript other than by adding to it, or the open compaction. */
  predicate Disturbs(record: Record) {
    record.CompactionStart? || record.CompactionSummary? || record.CompactionEnd? || record.CompactionPrune?
  }

  /** What others can do to a view: a compaction of this party's own stays as it is, and so does the transcript under it. */
  predicate Beside(mine: string, turns: bool, v: View, w: View) {
    && (v.at.compaction == mine <==> w.at.compaction == mine)
    && (v.at.compaction == mine ==> v.nodes <= w.nodes)
    && (!turns ==> Aside(v, w) && (v.at.compaction == mine ==> w == v))
  }

  /** Nobody else compacted or pruned meanwhile. */
  predicate Calm(turns: bool, v: View, w: View) {
    v.nodes <= w.nodes && w.at.compaction == v.at.compaction && (!turns ==> w == v)
  }

  lemma ForeignView(mine: string, turns: bool, v: View, record: Record, seqNo: nat)
    requires mine != "" && Foreign(mine, turns, record) && Possible(v, record)
    ensures Beside(mine, turns, v, After(v, record, seqNo))
    ensures !Disturbs(record) ==> Calm(turns, v, After(v, record, seqNo))
  {}

  lemma BesideOn(mine: string, turns: bool, v: View, w: View, x: View)
    requires Beside(mine, turns, v, w) && Beside(mine, turns, w, x)
    ensures Beside(mine, turns, v, x)
    ensures Calm(turns, v, w) && Calm(turns, w, x) ==> Calm(turns, v, x)
  {}

  lemma BesideSelf(mine: string, turns: bool, v: View)
    ensures Beside(mine, turns, v, v) && Calm(turns, v, v)
  {}

  /** What a batch of tools and others do to a view: the calls stay open. */
  predicate Batch(mine: string, v: View, w: View) {
    && w == v.(open := w.open, at := v.at.(compaction := w.at.compaction), nodes := w.nodes)
    && w.open.calls == v.open.calls && (v.at.compaction == mine <==> w.at.compaction == mine)
  }

  lemma ToolsView(mine: string, v: View, w: View, record: Record, seqNo: nat)
    requires FromTools(record) && Batch(mine, v, w)
    ensures Batch(mine, v, After(w, record, seqNo)) && After(w, record, seqNo).nodes == w.nodes
    ensures After(w, record, seqNo).at == w.at && !record.UserMessage?
  {}

  lemma BatchInStep(mine: string, v: View, w: View, turn: nat, step: nat)
    requires Batch(mine, v, w)
    ensures InStep(v, turn, step) <==> InStep(w, turn, step)
  {}

  lemma BatchOn(mine: string, v: View, w: View, x: View)
    requires Batch(mine, v, w) && Batch(mine, w, x)
    ensures Batch(mine, v, x)
  {}

  /** A decision offered to the log it met. */
  lemma DecisionOf(mine: string, v: View, w: View, met: View, record: Record, seqNo: nat)
    requires record.ApprovalDecided? && Batch(mine, v, w) && Beside(mine, false, w, met)
    ensures Batch(mine, v, met) && Batch(mine, v, After(met, record, seqNo))
    ensures After(met, record, seqNo) == met.(open := Open(Without(met.open.approvals, record.approvalId), met.open.calls))
    ensures met.open == w.open
    ensures InStep(v, record.turn, record.step) && record.approvalId in w.open.approvals ==> Certain(met, record)
    ensures Calm(false, w, met) ==> met == w
  {}

  lemma BatchOthers(mine: string, v: View, w: View, x: View)
    requires Batch(mine, v, w) && Beside(mine, false, w, x)
    ensures Batch(mine, v, x)
  {}

  // ----- acceptance decided by the view -----

  predicate InTurn(v: View, turn: nat) { turn > 0 && v.at.turn == turn && v.at.step == 0 }
  predicate InStep(v: View, turn: nat, step: nat) { turn > 0 && step > 0 && v.at.turn == turn && v.at.step == step }

  /** A result the call it answers admits: an error where its arguments were omitted, metadata of its own tool only. */
  predicate Answers(pending: map<string, ToolCall>, result: ToolResult) {
    && result.callId in pending && result.callId != ""
    && (pending[result.callId].argumentsOmitted ==> result.isError)
    && (result.metaTool.Some? ==> !result.isError && result.metaTool.value == pending[result.callId].name)
  }

  /** A message that does not open a goal round and whose notice, if it is one, is owed. */
  predicate Deliverable(owed: map<string, Message>, message: Message) {
    && WellFormedMessage(message, true) && message.source.kind != GOAL_SOURCE
    && (message.source.noticeId == "" || (message.source.noticeId in owed && owed[message.source.noticeId] == message))
  }

  /** Records a view alone suffices to accept. */
  predicate Certain(v: View, record: Record) {
    match record
    case TurnStart(turn) => v.at.turn == 0 && turn == v.at.lastTurn + 1
    case StepStart(turn, step) => InTurn(v, turn) && step == v.at.lastStep + 1
    case RequestHeader(turn, step) => InStep(v, turn, step)
    case AssistantChunk(turn, step) => InStep(v, turn, step)
    case Retry(turn, step) => InStep(v, turn, step) && !v.at.assistant
    case RetryStarted(turn, step) => InStep(v, turn, step) && !v.at.assistant
    case ApprovalDecided(turn, step, id) => InStep(v, turn, step) && id in v.open.approvals
    case AssistantMessage(turn, step, message) =>
      InStep(v, turn, step) && !v.at.assistant && WellFormedMessage(message, false)
    case CallMade(turn, step, call) =>
      InStep(v, turn, step) && v.at.assistant && call.id !in v.pending && call.id != "" && call.name != ""
    case CallResult(turn, step, result) =>
      InStep(v, turn, step) && v.open.approvals == []
      && (Answers(v.pending, result) || (result == InterruptedToolResult(result.callId) && result.callId in v.open.calls))
    case StepEnd(turn, step) => InStep(v, turn, step) && v.open == Open([], []) && v.at.compaction == ""
    case TurnEnd(turn, outcome) =>
      InTurn(v, turn) && v.at.compaction == "" && (outcome == MaxTokens ==> v.at.assistant)
    case CompactionStart(turn, id) => id != "" && v.at.compaction == "" && (turn == 0 || turn == v.at.turn)
    case CompactionSummary(_, id, shadowed, summary) =>
      && id != "" && id == v.at.compaction && shadowed != [] && summary != "" && Sorted(shadowed) && 0 !in shadowed
      && exists i :: 0 <= i < |v.nodes| && v.nodes[i].seqNo in shadowed
    case CompactionEnd(_, id, _) => id != "" && id == v.at.compaction
    case CompactionPrune(turn, target, output) =>
      turn == v.at.turn && v.at.step == 0 && v.at.compaction == "" && target > 0
      && Surfaces.ApplyPrune(v.nodes, target, output).Some?
    case PlanMode(turn, active) => turn == v.at.turn && v.at.step == 0 && active != v.at.plan
    case _ => false
  }

  /** What an accepted record says about the place it was committed at. */
  predicate Possible(v: View, record: Record) {
    match record
    case TurnStart(turn) => v.at.turn == 0 && turn == v.at.lastTurn + 1
    case StepStart(turn, step) => turn == v.at.turn && v.at.step == 0 && step == v.at.lastStep + 1
    case StepEnd(turn, step) => turn == v.at.turn && step == v.at.step && v.open == Open([], []) && v.at.compaction == ""
                               && v.pending == map[]
    case TurnEnd(turn, outcome) =>
      turn == v.at.turn && v.at.step == 0 && v.at.compaction == "" && (outcome == MaxTokens ==> v.at.assistant)
    case CompactionStart(_, _) => v.at.compaction == ""
    case CompactionSummary(_, id, _, _) => v.at.compaction == id
    case CompactionEnd(_, id, _) => v.at.compaction == id
    case CompactionPrune(_, _, _) => v.at.compaction == ""
    case _ => true
  }

  lemma PossibleStep(log: seq<Record>, s: State, v: View, record: Record)
    requires v.at == s.at && v.open == Open(s.work.approvals, s.work.calls) && v.pending == s.work.pendingCalls
    requires Inv(s) && Step(log, s, record).Some?
    ensures Possible(v, record)
  {
    if s.work.calls == [] {
      assert forall id :: id in s.work.pendingCalls ==> id in s.work.calls;
    }
  }

  lemma CertainStep(log: seq<Record>, s: State, v: View, record: Record)
    requires Inv(s) && v.at == s.at && v.open == Open(s.work.approvals, s.work.calls) && v.pending == s.work.pendingCalls
    requires Certain(v, record)
    ensures WellFormed(record) && Step(log, s, record).Some?
  {
    match record {
      case CallResult(_, _, result) =>
        assert forall id :: id in s.work.approvalCalls ==> id in s.work.approvals;
        assert s.work.approvalCalls.Values == {};
      case _ =>
    }
  }

  lemma AcceptedPossible(log: seq<Record>, record: Record)
    requires Order.Valid(log) && Order.Valid(log + [record])
    ensures Possible(ViewOf(log), record)
  {
    hide Step, WellFormed, AllWellFormed, Surfaces.Visible, Possible, Inv;
    ValidSnoc(log, record);
    InvHolds(log);
    PossibleStep(log, StateOf(log), ViewOf(log), record);
  }

  lemma CertainVisible(v: View, record: Record, seqNo: nat)
    requires Certain(v, record)
    ensures Surfaces.Visible(v.nodes, seqNo, record).Some?
    ensures !record.SandboxMode? && !record.SubagentDescriptor?
  {}

  lemma CertainAccepted(child: bool, log: seq<Record>, record: Record)
    requires Order.Valid(log) && SandboxOwned(child, log) && Certain(ViewOf(log), record)
    ensures Accepts(child, log, record)
  {
    var v := ViewOf(log);
    StatesOfValid(log);
    CertainStep(log, StateOf(log), v, record);
    CertainVisible(v, record, |log| + 1);
    hide Step, WellFormed, AllWellFormed, Surfaces.Visible, Certain, SandboxOwned;
    ValidSnoc(log, record);
    OwnershipKept(child, log, record);
  }

  // ----- notices owed -----

  /** The notices a log owes, by ID. */
  ghost function OwedBy(log: seq<Record>): map<string, Message>
    requires Order.Valid(log)
  {
    StateOf(log).inbox.notices
  }

  function OwedStep(owed: map<string, Message>, record: Record): map<string, Message> {
    match record
    case NoticeQueued(message) => owed[message.source.noticeId := message]
    case UserMessage(_, _, message) => if message.source.noticeId == "" then owed else owed - {message.source.noticeId}
    case _ => owed
  }

  /** What was owed still is, but for the notices spent. */
  ghost predicate Keeps(owed: map<string, Message>, later: map<string, Message>, spent: set<string>) {
    forall id :: id in owed && id !in spent ==> id in later && later[id] == owed[id]
  }

  lemma KeepsSelf(owed: map<string, Message>)
    ensures Keeps(owed, owed, {})
  {}

  lemma KeepsOn(owed: map<string, Message>, later: map<string, Message>, last: map<string, Message>,
                spent: set<string>, more: set<string>)
    requires Keeps(owed, later, spent) && Keeps(later, last, more)
    ensures Keeps(owed, last, spent + more)
    ensures more == {} ==> Keeps(owed, last, spent)
  {}

  /** Beside a turn engine nobody else delivers. */
  lemma ForeignSays(mine: string, turns: bool, record: Record)
    requires Foreign(mine, turns, record)
    ensures !turns ==> !record.UserMessage?
  {}

  lemma OwedAgrees(log: seq<Record>, record: Record)
    requires Order.Valid(log) && Order.Valid(log + [record])
    ensures OwedBy(log + [record]) == OwedStep(OwedBy(log), record)
    ensures record.NoticeQueued? ==> record.message.source.noticeId !in OwedBy(log)
  {
    hide WellFormed, AllWellFormed, Surfaces.Visible, Order.Fold, Order.Valid;
    ValidSnoc(log, record);
    StatesOfValid(log);
    InboxStep(log, StateOf(log), record);
  }

  lemma InboxStep(log: seq<Record>, s: State, record: Record)
    requires NoticeInv(s.inbox) && Step(log, s, record).Some?
    ensures Step(log, s, record).value.inbox.notices == OwedStep(s.inbox.notices, record)
    ensures record.NoticeQueued? ==> record.message.source.noticeId !in s.inbox.notices
  {
    GoalsOnly(log, s, record);
    var t := s.(goals := Step(log, s, record).value.goals);
    if !record.NoticeQueued? && !record.UserMessage? {
      OtherInbox(log, t, record);
    }
  }

  lemma KeepsStep(owed: map<string, Message>, later: map<string, Message>, spent: set<string>, record: Record)
    requires Keeps(owed, later, spent) && (record.NoticeQueued? ==> record.message.source.noticeId !in later)
    ensures !record.UserMessage? ==> Keeps(owed, OwedStep(later, record), spent)
    ensures record.UserMessage? ==> Keeps(owed, OwedStep(later, record), spent + {record.message.source.noticeId})
  {}

  /** A deliverable message between the records of an open turn's steps. */
  predicate Delivers(v: View, owed: map<string, Message>, record: Record) {
    record.UserMessage? && record.turn > 0 && record.turn == v.at.turn && record.step == 0 && Deliverable(owed, record.message)
  }

  lemma DeliversAccepted(child: bool, log: seq<Record>, record: Record)
    requires Order.Valid(log) && SandboxOwned(child, log) && Delivers(ViewOf(log), OwedBy(log), record)
    ensures Accepts(child, log, record)
  {
    assert record == UserMessage(record.turn, 0, record.message) && StateOf(log).at.turn == record.turn;
    assert Deliverable(OwedBy(log), record.message);
    hide Order.Valid, Order.Fold, SandboxOwned, Accepts, Deliverable;
    DeliverableAccepted(child, log, record.turn, record.message);
  }

  /** In an open turn a deliverable message is accepted. */
  lemma DeliverableAccepted(child: bool, log: seq<Record>, turn: nat, message: Message)
    requires Order.Valid(log) && SandboxOwned(child, log) && turn > 0 && StateOf(log).at.turn == turn
    requires Deliverable(OwedBy(log), message)
    ensures Accepts(child, log, UserMessage(turn, 0, message))
  {
    var record := UserMessage(turn, 0, message);
    assert WellFormed(record) && Step(log, StateOf(log), record).Some?;
    assert Surfaces.Visible(Surfaces.Surface(log).value, |log| + 1, record).Some?;
    hide Step, WellFormed, AllWellFormed, Surfaces.Visible, SandboxOwned;
    ValidSnoc(log, record);
    OwnershipKept(child, log, record);
  }

  // ----- the session -----

  class Session {
    const log: Log
    const mine: string       // the ID this party's own compactions take
    const turns: bool        // whether the others run turns, as they do beside a manual compaction
    const steady: bool       // whether nothing this party calls fails or panics, and nobody cancels it or selects a mode
    ghost var touched: nat   // how often others changed the transcript or the open compaction

    ghost predicate Valid() reads log {
      mine != "" && log.Valid() && SandboxOwned(log.child, log.records)
    }

    ghost function View(): View
      requires Valid()
      reads log
    {
      ViewOf(log.records)
    }

    ghost function Owed(): map<string, Message>
      requires Valid()
      reads log
    {
      OwedBy(log.records)
    }

    lemma FromLog()
      requires Valid()
      ensures Order.Valid(log.records) && View() == ViewOf(log.records) && Owed() == OwedBy(log.records)
    {}

    /** The open calls are listed once each, in the order they were made. */
    lemma PendingListed()
      requires Valid()
      ensures forall id :: id in View().open.calls <==> id in View().pending
    {
      StatesOfValid(log.records);
    }

    /** The events the session committed itself. */
    ghost function Own(): seq<Record>
      requires Valid()
      reads log
    {
      OwnEvents(log.records)
    }

    lemma PlanOfOwn()
      requires Valid()
      ensures View().plan == Plans.Project(Own())
    {}

    constructor (log: Log, mine: string, turns: bool, steady: bool)
      requires log.Valid() && SandboxOwned(log.child, log.records) && mine != ""
      ensures Valid() && this.log == log && this.mine == mine && this.turns == turns && this.steady == steady
    {
      this.log, this.mine, this.turns, this.steady, this.touched := log, mine, turns, steady, 0;
    }

    /** What the session's own records say of plan mode. */
    method RecordedPlan() returns (plan: Plans.PlanView)
      requires Valid()
      ensures plan == View().plan
    {
      plan := Plans.ProjectPlan(log.records);
    }

    /** Commits one record, or leaves the log as it is. */
    method Commit(record: Record) returns (ok: bool)
      requires Valid()
      modifies log
      ensures Valid() && log.records == if ok then old(log.records) + [record] else old(log.records)
      ensures View() == if ok then After(old(View()), record, |old(log.records)| + 1) else old(View())
      ensures Certain(old(View()), record) ==> ok
      ensures Delivers(old(View()), old(Owed()), record) ==> ok
      ensures ok ==> Possible(old(View()), record)
      ensures Owed() == if ok then OwedStep(old(Owed()), record) else old(Owed())
      ensures ok && record.NoticeQueued? ==> record.message.source.noticeId !in old(Owed())
    {
      hide Order.Valid, Order.Fold, SandboxOwned, ViewOf, OwedBy, OwedStep, After, Certain, Possible, Delivers;
      if Certain(View(), record) {
        CertainAccepted(log.child, log.records, record);
      }
      if Delivers(View(), Owed(), record) {
        DeliversAccepted(log.child, log.records, record);
      }
      ghost var before := log.records;
      ok := log.Append(record);
      if ok {
        AcceptedPossible(before, record);
        ViewStep(before, record);
        OwedAgrees(before, record);
      }
    }

    /** Whatever the other parties commit meanwhile. */
    method Others()
      requires Valid()
      modifies this`touched, log
      ensures Valid() && old(log.records) <= log.records && touched >= old(touched)
      ensures Beside(mine, turns, old(View()), View())
      ensures touched == old(touched) ==> Calm(turns, old(View()), View())
      ensures !turns ==> Keeps(old(Owed()), Owed(), {})
      ensures forall i :: |old(log.records)| <= i < |log.records| ==> Foreign(mine, turns, log.records[i])
    {
      hide Order.Valid, Order.Fold, SandboxOwned, ViewOf, OwedBy, OwedStep, Keeps, After, Certain, Possible, Beside, Calm, Foreign;
      hide Delivers;
      KeepsSelf(Owed());
      var n :| 0 <= n;
      BesideSelf(mine, turns, View());
      for i := 0 to n
        invariant Valid() && old(log.records) <= log.records && touched >= old(touched)
        invariant Beside(mine, turns, old(View()), View())
        invariant touched == old(touched) ==> Calm(turns, old(View()), View())
        invariant !turns ==> Keeps(old(Owed()), Owed(), {})
        invariant forall i :: |old(log.records)| <= i < |log.records| ==> Foreign(mine, turns, log.records[i])
      {
        var record: Record := *;
        if Foreign(mine, turns, record) {
          ghost var v, owed := View(), Owed();
          var ok := Commit(record);
          if ok {
            ForeignSays(mine, turns, record);
            if !turns {
              KeepsStep(old(Owed()), owed, {}, record);
            }
            ForeignView(mine, turns, v, record, |log.records|);
            BesideOn(mine, turns, old(View()), v, View());
            touched := touched + if Disturbs(record) then 1 else 0;
          }
        }
      }
    }

    /** Commits a record to the log it meets, which is whatever others made of it by then. */
    method Append(record: Record) returns (ok: bool, ghost met: seq<Record>)
      requires Valid()
      modifies this`touched, log
      ensures Valid() && old(log.records) <= met && Order.Valid(met) && touched >= old(touched)
      ensures log.records == if ok then met + [record] else met
      ensures Beside(mine, turns, old(View()), ViewOf(met))
      ensures touched == old(touched) ==> Calm(turns, old(View()), ViewOf(met))
      ensures View() == if ok then After(ViewOf(met), record, |met| + 1) else ViewOf(met)
      ensures Certain(ViewOf(met), record) ==> ok
      ensures Delivers(ViewOf(met), OwedBy(met), record) ==> ok
      ensures ok ==> Possible(ViewOf(met), record)
      ensures !turns ==> Keeps(old(Owed()), OwedBy(met), {})
      ensures forall i :: |old(log.records)| <= i < |met| ==> Foreign(mine, turns, met[i])
      ensures Owed() == if ok then OwedStep(OwedBy(met), record) else OwedBy(met)
      ensures ok && record.NoticeQueued? ==> record.message.source.noticeId !in OwedBy(met)
    {
      hide Order.Fold, SandboxOwned, ViewOf, OwedBy, OwedStep, Keeps, After, Certain, Possible, Delivers, Beside, Calm, Foreign;
      Others();
      met := log.records;
      ok := Commit(record);
    }

    /**
      What a running batch of tools, and others beside it, may commit; the calls stay open. A
      steady batch returns with its questions decided.
     */
    method RunTools(turn: nat, step: nat)
      requires Valid() && !turns
      modifies this`touched, log
      ensures Valid() && old(log.records) <= log.records && touched >= old(touched)
      ensures Batch(mine, old(View()), View()) && Keeps(old(Owed()), Owed(), {})
      ensures touched == old(touched) ==> View() == old(View()).(open := View().open)
      ensures steady && InStep(old(View()), turn, step) ==> View().open.approvals == []
    {
      hide Order.Valid, Order.Fold, SandboxOwned, ViewOf, OwedBy, OwedStep, Keeps, After, Certain, Possible, Beside, FromTools;
      hide Delivers, InStep;
      KeepsSelf(Owed());
      var n :| 0 <= n;
      for i := 0 to n
        invariant Valid() && old(log.records) <= log.records && touched >= old(touched)
        invariant Batch(mine, old(View()), View()) && Keeps(old(Owed()), Owed(), {})
        invariant touched == old(touched) ==> View() == old(View()).(open := View().open)
      {
        ghost var v, owed := View(), Owed();
        Others();
        BatchOthers(mine, old(View()), v, View());
        KeepsOn(old(Owed()), owed, Owed(), {}, {});
        var record: Record := *;
        if FromTools(record) {
          v, owed := View(), Owed();
          var ok := Commit(record);
          ToolsView(mine, old(View()), v, record, |log.records|);
          if ok {
            KeepsStep(old(Owed()), owed, {}, record);
          }
        }
      }
      if steady {
        ghost var v, owed := View(), Owed();
        BatchInStep(mine, old(View()), v, turn, step);
        DecideAll(turn, step);
        BatchOn(mine, old(View()), v, View());
        KeepsOn(old(Owed()), owed, Owed(), {}, {});
      }
    }

    /** Every question a batch asked gets its decision. */
    method DecideAll(turn: nat, step: nat)
      requires Valid() && !turns
      modifies this`touched, log
      ensures Valid() && old(log.records) <= log.records && touched >= old(touched)
      ensures Batch(mine, old(View()), View()) && Keeps(old(Owed()), Owed(), {})
      ensures touched == old(touched) ==> View() == old(View()).(open := View().open)
      ensures InStep(old(View()), turn, step) ==> View().open.approvals == []
    {
      hide Order.Valid, Order.Fold, ViewOf, OwedBy, OwedStep, Keeps, Delivers, Valid, View, Owed, NoDup, InStep, Beside;
      ghost var v, owed := View(), Owed();
      var approvals := Questions();
      assert approvals[0..] == approvals;
      KeepsSelf(owed);
      for i := 0 to |approvals|
        invariant Valid() && old(log.records) <= log.records && touched >= old(touched)
        invariant Batch(mine, v, View()) && Keeps(owed, Owed(), {})
        invariant touched == old(touched) ==> View() == v.(open := View().open)
        invariant InStep(v, turn, step) ==> View().open.approvals == approvals[i..]
      {
        WithoutFirst(approvals, i);
        ghost var w, before := View(), Owed();
        var record := ApprovalDecided(turn, step, approvals[i]);
        var ok;
        ghost var met;
        ok, met := Append(record);
        DecisionOf(mine, v, w, ViewOf(met), record, |met| + 1);
        KeepsOn(owed, before, OwedBy(met), {}, {});
        KeepsStep(owed, OwedBy(met), {}, record);
      }
      assert approvals[|approvals|..] == [];
    }

    method Questions() returns (approvals: seq<string>)
      requires Valid()
      ensures approvals == View().open.approvals && NoDup(approvals)
    {
      var calls;
      approvals, calls := FindUnresolved(log.records);
      UnresolvedAgrees(log.records);
      StatesOfValid(log.records);
    }
  }
}
