/**
  What an agent's notice queue holds and what its session's log owes: the lists behind the
  worker (internal/app/agent/agent.go, internal/core/session/notice.go).
 */
module Queue {
  import opened Records
  import opened Notices
  import opened Journal
  import Order
  import OrderFacts
  import Surfaces

  /** The durable ones of some notices. */
  function WithIds(notices: seq<Message>): seq<Message> {
    if notices == [] then []
    else (if notices[0].source.noticeId == "" then [] else [notices[0]]) + WithIds(notices[1..])
  }

  lemma {:induction false} WithIdsConcat(a: seq<Message>, b: seq<Message>)
    ensures WithIds(a + b) == WithIds(a) + WithIds(b)
  {
    if a == [] {
      assert a + b == b;
    } else {
      assert (a + b)[1..] == a[1..] + b;
      WithIdsConcat(a[1..], b);
    }
  }

  ghost predicate AllUser(notices: seq<Message>) {
    forall i :: 0 <= i < |notices| ==> WellFormedMessage(notices[i], true)
  }

  function Ids(notices: seq<Message>): set<string> {
    set i | 0 <= i < |notices| :: notices[i].source.noticeId
  }

  /** The notices whose IDs are not in a set. */
  function Without(notices: seq<Message>, gone: set<string>): seq<Message> {
    if notices == [] then []
    else (if notices[0].source.noticeId in gone then [] else [notices[0]]) + Without(notices[1..], gone)
  }

  lemma {:induction false} WithoutConcat(a: seq<Message>, b: seq<Message>, gone: set<string>)
    ensures Without(a + b, gone) == Without(a, gone) + Without(b, gone)
  {
    if a == [] {
      assert a + b == b;
    } else {
      assert (a + b)[1..] == a[1..] + b;
      WithoutConcat(a[1..], b, gone);
    }
  }

  lemma {:induction false} WithoutStranger(notices: seq<Message>, gone: set<string>)
    requires Ids(notices) !! gone
    ensures Without(notices, gone) == notices
  {
    if notices != [] {
      assert notices[0].source.noticeId in Ids(notices);
      assert notices == [notices[0]] + notices[1..];
      forall id | id in Ids(notices[1..]) ensures id in Ids(notices) {
        var i :| 0 <= i < |notices[1..]| && notices[1..][i].source.noticeId == id;
        assert notices[i + 1].source.noticeId == id;
      }
      WithoutStranger(notices[1..], gone);
    }
  }

  lemma {:induction false} WithoutAll(notices: seq<Message>, gone: set<string>)
    requires Ids(notices) <= gone
    ensures Without(notices, gone) == []
  {
    if notices != [] {
      assert notices[0].source.noticeId in Ids(notices);
      forall id | id in Ids(notices[1..]) ensures id in Ids(notices) {
        var i :| 0 <= i < |notices[1..]| && notices[1..][i].source.noticeId == id;
        assert notices[i + 1].source.noticeId == id;
      }
      WithoutAll(notices[1..], gone);
    }
  }

  lemma WithoutHead(notices: seq<Message>, gone: set<string>)
    requires notices != []
    ensures var rest := Without(notices[1..], gone);
      if notices[0].source.noticeId in gone then Without(notices, gone) == rest
      else Without(notices, gone) == [notices[0]] + rest && Without(notices, gone)[0] == notices[0] && Without(notices, gone)[1..] == rest
  {}

  lemma {:induction false} WithoutTwice(notices: seq<Message>, gone: set<string>, more: set<string>)
    ensures Without(notices, gone + more) == Without(Without(notices, gone), more)
  {
    if notices != [] {
      WithoutTwice(notices[1..], gone, more);
      WithoutHead(notices, gone);
      if notices[0].source.noticeId !in gone {
        WithoutHead(Without(notices, gone), more);
      }
      WithoutHead(notices, gone + more);
    }
  }

  /** What is left comes from the list and is not gone. */
  lemma {:induction false} WithoutFrom(notices: seq<Message>, gone: set<string>)
    ensures forall m :: m in Without(notices, gone) <==> m in notices && m.source.noticeId !in gone
  {
    if notices != [] {
      WithoutFrom(notices[1..], gone);
      assert notices == [notices[0]] + notices[1..];
    }
  }

  lemma {:induction false} WithoutDistinct(notices: seq<Message>, gone: set<string>)
    requires DistinctIds(notices)
    ensures DistinctIds(Without(notices, gone))
  {
    if notices != [] {
      WithoutDistinct(notices[1..], gone);
      WithoutFrom(notices[1..], gone);
      var rest := Without(notices[1..], gone);
      forall m | m in rest ensures m.source.noticeId != notices[0].source.noticeId {
        var i :| 0 <= i < |notices[1..]| && notices[1..][i] == m;
        assert notices[i + 1] == m;
      }
      assert forall j :: 0 <= j < |rest| ==> rest[j] in rest;
    }
  }

  /** Striking the first notice that is left takes it off what is left. */
  lemma {:induction false} WithoutStrike(notices: seq<Message>, gone: set<string>, message: Message, rest: seq<Message>)
    requires Without(notices, gone) == [message] + rest
    ensures Without(Strike(notices, message.source.noticeId), gone) == rest
    ensures message.source.noticeId !in gone && message in notices
  {
    WithoutFrom(notices, gone);
    assert message in Without(notices, gone);
    assert ([message] + rest)[1..] == rest;
    WithoutHead(notices, gone);
    var id, head, tail := message.source.noticeId, notices[0], notices[1..];
    if head.source.noticeId in gone {
      WithoutStrike(tail, gone, message, rest);
      StrikeTail(notices, id);
      WithoutHead(Strike(notices, id), gone);
    } else {
      assert head == message && Without(tail, gone) == rest by {
        assert Without(notices, gone)[1..] == Without(tail, gone);
      }
      StrikeHead(notices);
    }
  }

  lemma StrikeHead(notices: seq<Message>)
    requires notices != []
    ensures Strike(notices, notices[0].source.noticeId) == notices[1..]
  {
    assert notices[..0] == [];
  }

  lemma StrikeTail(notices: seq<Message>, id: string)
    requires notices != [] && notices[0].source.noticeId != id
    ensures Strike(notices, id) == [notices[0]] + Strike(notices[1..], id) && Strike(notices, id)[1..] == Strike(notices[1..], id)
  {
    var tail := notices[1..];
    var index := Index(tail, id);
    assert Index(notices, id) == 1 + index;
    hide Index;
    if index < |tail| {
      assert notices[..1 + index] == [notices[0]] + tail[..index];
      assert notices[1 + index + 1..] == tail[index + 1..];
      Regroup([notices[0]], tail[..index], tail[index + 1..]);
    } else {
      assert notices == [notices[0]] + tail;
    }
  }

  lemma Regroup(a: seq<Message>, b: seq<Message>, c: seq<Message>)
    ensures (a + b) + c == a + (b + c)
    ensures (a + b)[|a|..] == b && (a + (b + c))[|a|..] == b + c
  {}

  lemma StrikeKeepsIds(notices: seq<Message>, id: string)
    ensures forall other :: other in Ids(notices) && other != id ==> other in Ids(Strike(notices, id))
  {
    var index := Index(notices, id);
    if index < |notices| {
      var after := Strike(notices, id);
      forall other | other in Ids(notices) && other != id ensures other in Ids(after) {
        var i :| 0 <= i < |notices| && notices[i].source.noticeId == other;
        assert after[if i < index then i else i - 1].source.noticeId == other;
      }
    }
  }

  /** With distinct IDs, giving up the first ones that are left leaves the others. */
  lemma GiveUpFirst(notices: seq<Message>, gone: set<string>, first: seq<Message>, others: seq<Message>)
    requires DistinctIds(notices) && Without(notices, gone) == first + others
    ensures Without(notices, gone + Ids(first)) == others && Ids(first) <= Ids(notices)
  {
    WithoutDistinct(notices, gone);
    WithoutTwice(notices, gone, Ids(first));
    WithoutConcat(first, others, Ids(first));
    WithoutAll(first, Ids(first));
    IdsApart(first, others);
    WithoutStranger(others, Ids(first));
    IdsFrom(notices, gone, first, others);
  }

  lemma IdsFrom(notices: seq<Message>, gone: set<string>, first: seq<Message>, others: seq<Message>)
    requires Without(notices, gone) == first + others
    ensures Ids(first) <= Ids(notices) && Ids(others) <= Ids(notices)
  {
    WithoutFrom(notices, gone);
    forall id | id in Ids(first) ensures id in Ids(notices) {
      var i :| 0 <= i < |first| && first[i].source.noticeId == id;
      assert (first + others)[i] in Without(notices, gone);
    }
    forall id | id in Ids(others) ensures id in Ids(notices) {
      var i :| 0 <= i < |others| && others[i].source.noticeId == id;
      assert (first + others)[|first| + i] in Without(notices, gone);
    }
  }

  lemma IdsApart(a: seq<Message>, b: seq<Message>)
    requires DistinctIds(a + b)
    ensures Ids(b) !! Ids(a)
  {
    forall id | id in Ids(a) ensures id !in Ids(b) {
      var i :| 0 <= i < |a| && a[i].source.noticeId == id;
      forall j | 0 <= j < |b| ensures b[j].source.noticeId != id {
        assert (a + b)[i].source.noticeId != (a + b)[|a| + j].source.noticeId;
      }
    }
  }

  /** Giving up the last ones that are left leaves the others. */
  lemma GiveUpLast(notices: seq<Message>, gone: set<string>, others: seq<Message>, last: seq<Message>)
    requires DistinctIds(notices) && Without(notices, gone) == others + last
    ensures Without(notices, gone + Ids(last)) == others && Ids(last) <= Ids(notices)
  {
    WithoutDistinct(notices, gone);
    WithoutTwice(notices, gone, Ids(last));
    WithoutConcat(others, last, Ids(last));
    WithoutAll(last, Ids(last));
    IdsApart(others, last);
    WithoutStranger(others, Ids(last));
    IdsFrom(notices, gone, others, last);
  }

  // ----- the log's side -----

  lemma OwnPending(log: seq<Record>, record: Record)
    requires Order.Valid(log + [record]) && !record.SubagentDescriptor?
    ensures Order.Fold(log).Some? && Order.Fold(log + [record]).Some?
    ensures Pending(OwnEvents(log + [record])) == PendingStep(Pending(OwnEvents(log)), record)
  {
    hide Order.Valid, PendingStep;
    OwnGrows(log, record);
    var own := OwnEvents(log);
    assert (own + [record])[..|own|] == own;
  }

  lemma NumberedSnoc(log: seq<Record>, record: Record)
    requires Numbered(log) && Fresh(log, record)
    ensures Numbered(log + [record])
  {
    assert (log + [record])[..|log|] == log;
  }

  /** Records that queue or deliver no notice. */
  predicate Plain(record: Record) {
    && !record.NoticeQueued? && !record.SubagentDescriptor?
    && (record.UserMessage? ==> record.message.source.noticeId == "")
  }

  lemma PlainRecord(log: seq<Record>, record: Record)
    requires Order.Valid(log + [record]) && Plain(record) && Numbered(log)
    ensures Order.Fold(log).Some? && Order.Fold(log + [record]).Some?
    ensures Numbered(log + [record]) && Pending(OwnEvents(log + [record])) == Pending(OwnEvents(log))
  {
    OwnPending(log, record);
    NumberedSnoc(log, record);
  }

  lemma DeliveryStep(log: seq<Record>, s: Order.State, turn: nat, message: Message)
    requires turn > 0 && s.at.turn == turn && WellFormedMessage(message, true) && message.source.kind != GOAL_SOURCE
    requires var id := message.source.noticeId; id == "" || (id in s.inbox.notices && s.inbox.notices[id] == message)
    ensures WellFormed(UserMessage(turn, 0, message)) && Order.Step(log, s, UserMessage(turn, 0, message)).Some?
  {}

  /** In an open turn the validator accepts every pending notice, and every notice without an ID. */
  lemma DeliveryAccepted(child: bool, log: seq<Record>, turn: nat, message: Message)
    requires Order.Valid(log) && SandboxOwned(child, log)
    requires turn > 0 && Order.StateOf(log).at.turn == turn
    requires WellFormedMessage(message, true) && message.source.kind != GOAL_SOURCE
    requires message.source.noticeId == "" || message in Pending(OwnEvents(log))
    ensures Accepts(child, log, UserMessage(turn, 0, message))
  {
    PendingIsOwed(log, Inherited(log));
    DeliveryStep(log, Order.StateOf(log), turn, message);
    hide Order.Step, WellFormed, AllWellFormed, SandboxOwned;
    SnocVisible(log, UserMessage(turn, 0, message));
    OwnershipKept(child, log, UserMessage(turn, 0, message));
  }

  lemma QueueAcceptedHere(child: bool, log: seq<Record>, message: Message)
    requires Order.Valid(log) && SandboxOwned(child, log) && Numbered(log)
    requires message.source.noticeId == NoticeName(Queued(log) + 1) && WellFormedMessage(message, true)
    ensures Accepts(child, log, NoticeQueued(message)) && Numbered(log + [NoticeQueued(message)])
    ensures Order.Fold(log).Some? && Order.Fold(log + [NoticeQueued(message)]).Some?
    ensures Pending(OwnEvents(log + [NoticeQueued(message)])) == Pending(OwnEvents(log)) + [message]
    ensures message.source.noticeId !in Ids(Pending(OwnEvents(log)))
  {
    NextNoticeAccepted(log, message);
    NewId(log, message);
    hide Order.Step, WellFormed, AllWellFormed, SandboxOwned;
    OwnershipKept(child, log, NoticeQueued(message));
    OwnPending(log, NoticeQueued(message));
  }

  lemma NewId(log: seq<Record>, message: Message)
    requires Order.Valid(log + [NoticeQueued(message)])
    ensures Order.Valid(log) && message.source.noticeId !in Ids(Pending(OwnEvents(log)))
  {
    hide Order.Step, WellFormed, AllWellFormed, Surfaces.Visible;
    OrderFacts.ValidSnoc(log, NoticeQueued(message));
    OrderFacts.InvHolds(log);
    PendingIsOwed(log, Inherited(log));
    NewInbox(log, Order.StateOf(log), message);
    var pending := Pending(OwnEvents(log));
    forall i | 0 <= i < |pending| ensures pending[i].source.noticeId != message.source.noticeId {}
  }

  lemma NewInbox(log: seq<Record>, s: Order.State, message: Message)
    requires Order.Step(log, s, NoticeQueued(message)).Some?
    ensures message.source.noticeId !in s.inbox.noticeIds
  {}

  lemma {:induction false} PendingIsDurable(events: seq<Record>)
    requires AllWellFormed(events)
    ensures AllUser(Pending(events)) && WithIds(Pending(events)) == Pending(events)
  {
    if events != [] {
      var front, last := events[..|events| - 1], events[|events| - 1];
      PendingIsDurable(front);
      assert WellFormed(last);
      var before := Pending(front);
      match last {
        case NoticeQueued(message) =>
          WithIdsConcat(before, [message]);
        case UserMessage(_, _, message) =>
          if message.source.noticeId != "" && Index(before, message.source.noticeId) < |before| {
            var index := Index(before, message.source.noticeId);
            DurableSplit(before, index);
          }
        case _ =>
      }
    }
  }

  lemma DurableSplit(pending: seq<Message>, index: nat)
    requires index < |pending| && WithIds(pending) == pending && AllUser(pending)
    ensures var rest := pending[..index] + pending[index + 1..]; WithIds(rest) == rest && AllUser(rest)
  {
    AllDurable(pending);
    DurableAll(pending[..index] + pending[index + 1..]);
  }

  lemma {:induction false} WithIdsShort(notices: seq<Message>)
    ensures |WithIds(notices)| <= |notices|
  {
    if notices != [] {
      WithIdsShort(notices[1..]);
    }
  }

  lemma {:induction false} AllDurable(notices: seq<Message>)
    requires WithIds(notices) == notices
    ensures forall i :: 0 <= i < |notices| ==> notices[i].source.noticeId != ""
  {
    if notices != [] {
      WithIdsShort(notices[1..]);
      assert notices == [notices[0]] + notices[1..];
      AllDurable(notices[1..]);
    }
  }

  lemma {:induction false} DurableAll(notices: seq<Message>)
    requires forall i :: 0 <= i < |notices| ==> notices[i].source.noticeId != ""
    ensures WithIds(notices) == notices
  {
    if notices != [] {
      DurableAll(notices[1..]);
    }
  }

  // ----- the queue against the log -----

  /**
    The notices out of the queue or in it, and one committed but not queued yet, are, in
    order, those the log owes but the given-up ones.
   */
  ghost predicate InStep(log: seq<Record>, inflight: seq<Message>, notices: seq<Message>, landing: seq<Message>, gone: set<string>) {
    && Order.Fold(log).Some?
    && WithIds(inflight + notices) + landing == Without(Pending(OwnEvents(log)), gone)
    && gone <= Ids(Pending(OwnEvents(log)))
  }

  lemma StartsInStep(log: seq<Record>)
    requires Order.Fold(log).Some? && AllWellFormed(OwnEvents(log))
    ensures InStep(log, [], Pending(OwnEvents(log)), [], {}) && AllUser(Pending(OwnEvents(log)))
  {
    var owed := Pending(OwnEvents(log));
    PendingIsDurable(OwnEvents(log));
    WithoutStranger(owed, {});
    assert [] + owed == owed && owed + [] == owed;
  }

  lemma PlainInStep(log: seq<Record>, record: Record, inflight: seq<Message>, notices: seq<Message>, landing: seq<Message>,
                    gone: set<string>)
    requires Order.Valid(log + [record]) && Plain(record) && Numbered(log) && InStep(log, inflight, notices, landing, gone)
    ensures Numbered(log + [record]) && InStep(log + [record], inflight, notices, landing, gone)
  {
    hide Order.Valid, Numbered;
    PlainRecord(log, record);
  }

  /** The oldest notice in hand is one the validator accepts in an open turn, unless it claims to be a goal round. */
  lemma HeadAccepted(child: bool, log: seq<Record>, turn: nat, message: Message, rest: seq<Message>,
                     notices: seq<Message>, landing: seq<Message>, gone: set<string>)
    requires Order.Valid(log) && SandboxOwned(child, log) && InStep(log, [message] + rest, notices, landing, gone)
    requires turn > 0 && Order.StateOf(log).at.turn == turn
    requires WellFormedMessage(message, true) && message.source.kind != GOAL_SOURCE
    ensures Accepts(child, log, UserMessage(turn, 0, message))
  {
    if message.source.noticeId != "" {
      HeadIsOwed(log, message, rest, notices, landing, gone);
    }
    hide Order.Valid, SandboxOwned, InStep;
    DeliveryAccepted(child, log, turn, message);
  }

  lemma HeldHead(message: Message, rest: seq<Message>, notices: seq<Message>, landing: seq<Message>)
    ensures WithIds([message] + rest + notices) + landing
         == (if message.source.noticeId == "" then [] else [message]) + (WithIds(rest + notices) + landing)
  {
    var tail := rest + notices;
    Regroup([message], rest, notices);
    assert ([message] + tail)[1..] == tail && ([message] + tail)[0] == message;
    var held := WithIds(tail);
    assert WithIds([message] + tail) == (if message.source.noticeId == "" then [] else [message]) + held;
    hide WithIds;
    Regroup(if message.source.noticeId == "" then [] else [message], held, landing);
  }

  lemma HeadIsOwed(log: seq<Record>, message: Message, rest: seq<Message>, notices: seq<Message>, landing: seq<Message>,
                   gone: set<string>)
    requires InStep(log, [message] + rest, notices, landing, gone) && message.source.noticeId != ""
    ensures Order.Fold(log).Some? && message in Pending(OwnEvents(log))
    ensures Without(Pending(OwnEvents(log)), gone) == [message] + (WithIds(rest + notices) + landing)
  {
    var owed := Pending(OwnEvents(log));
    HeldHead(message, rest, notices, landing);
    hide OwnEvents, Pending;
    WithoutFrom(owed, gone);
    assert message in Without(owed, gone);
  }

  /** Delivering it leaves the rest owed in order. */
  lemma HeadCommitted(log: seq<Record>, turn: nat, message: Message, rest: seq<Message>,
                      notices: seq<Message>, landing: seq<Message>, gone: set<string>)
    requires Order.Valid(log + [UserMessage(turn, 0, message)]) && Numbered(log)
    requires InStep(log, [message] + rest, notices, landing, gone)
    ensures Numbered(log + [UserMessage(turn, 0, message)])
    ensures InStep(log + [UserMessage(turn, 0, message)], rest, notices, landing, gone)
  {
    var record := UserMessage(turn, 0, message);
    OwnPending(log, record);
    NumberedSnoc(log, record);
    var owed := Pending(OwnEvents(log));
    if message.source.noticeId == "" {
      HeldHead(message, rest, notices, landing);
      hide Order.Valid, Numbered;
    } else {
      HeadIsOwed(log, message, rest, notices, landing, gone);
      hide Order.Valid, Numbered;
      WithoutStrike(owed, gone, message, WithIds(rest + notices) + landing);
      StrikeKeepsIds(owed, message.source.noticeId);
    }
  }

  /** A newly committed notice is landing. */
  lemma QueuedInStep(log: seq<Record>, message: Message, inflight: seq<Message>, notices: seq<Message>, gone: set<string>)
    requires InStep(log, inflight, notices, [], gone) && Order.Fold(log + [NoticeQueued(message)]).Some?
    requires Pending(OwnEvents(log + [NoticeQueued(message)])) == Pending(OwnEvents(log)) + [message]
    requires message.source.noticeId !in Ids(Pending(OwnEvents(log)))
    ensures InStep(log + [NoticeQueued(message)], inflight, notices, [message], gone)
  {
    var owed := Pending(OwnEvents(log));
    WithoutConcat(owed, [message], gone);
    assert [message][1..] == [];
    assert WithIds(inflight + notices) + [] == WithIds(inflight + notices);
    forall id | id in gone ensures id in Ids(owed + [message]) {
      var i :| 0 <= i < |owed| && owed[i].source.noticeId == id;
      assert (owed + [message])[i].source.noticeId == id;
    }
  }

  lemma QueueGrows(inflight: seq<Message>, notices: seq<Message>, landing: seq<Message>, message: Message)
    requires message.source.noticeId != "" ==> landing == [message]
    ensures var left := if message.source.noticeId == "" then landing else [];
      WithIds(inflight + (notices + [message])) + left == WithIds(inflight + notices) + landing
  {
    assert inflight + (notices + [message]) == (inflight + notices) + [message];
    WithIdsConcat(inflight + notices, [message]);
  }

  lemma OwnDistinct(log: seq<Record>)
    requires Order.Valid(log)
    ensures DistinctIds(Pending(OwnEvents(log)))
  {
    PendingIsOwed(log, Inherited(log));
  }

  /** What the worker holds is given up. */
  lemma InflightGone(log: seq<Record>, inflight: seq<Message>, notices: seq<Message>, landing: seq<Message>, gone: set<string>)
    requires Order.Valid(log) && InStep(log, inflight, notices, landing, gone)
    ensures InStep(log, [], notices, landing, gone + Ids(WithIds(inflight)))
  {
    OwnDistinct(log);
    WithIdsConcat(inflight, notices);
    Regroup(WithIds(inflight), WithIds(notices), landing);
    NoInflight(notices);
    hide Order.Valid, OwnEvents, Pending, WithIds, Without, Ids;
    GiveUpFirst(Pending(OwnEvents(log)), gone, WithIds(inflight), WithIds(notices) + landing);
  }

  lemma NoInflight(notices: seq<Message>)
    ensures [] + notices == notices
  {}

  /** The queue is given up. */
  lemma NoticesGone(log: seq<Record>, notices: seq<Message>, landing: seq<Message>, gone: set<string>)
    requires Order.Valid(log) && InStep(log, [], notices, landing, gone)
    ensures InStep(log, [], [], landing, gone + Ids(WithIds(notices)))
  {
    OwnDistinct(log);
    var none: seq<Message> := [];
    assert none + notices == notices && none + none == none && WithIds(none) + landing == landing;
    hide Order.Valid;
    GiveUpFirst(Pending(OwnEvents(log)), gone, WithIds(notices), landing);
  }

  /** A committed notice is declined. */
  lemma LandingGone(log: seq<Record>, inflight: seq<Message>, notices: seq<Message>, landing: seq<Message>, gone: set<string>)
    requires Order.Valid(log) && InStep(log, inflight, notices, landing, gone)
    ensures InStep(log, inflight, notices, [], gone + Ids(landing))
  {
    OwnDistinct(log);
    assert WithIds(inflight + notices) + [] == WithIds(inflight + notices);
    hide Order.Valid;
    GiveUpLast(Pending(OwnEvents(log)), gone, WithIds(inflight + notices), landing);
  }
}
