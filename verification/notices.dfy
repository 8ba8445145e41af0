/**
  Durable notices (internal/core/session/notice.go): their numbering, the notices a
  session still owes, and the validator's guarantee that each is delivered once.
 */
module Notices {
  import opened Records
  import opened Order
  import opened OrderFacts
  import Surfaces

  // ----- NoticeID -----

  function Queued(log: seq<Record>): nat {
    if log == [] then 0 else Queued(log[..|log| - 1]) + (if log[|log| - 1].NoticeQueued? then 1 else 0)
  }

  function Itoa(n: nat): (text: string)
    ensures text != []
  {
    if n < 10 then [('0' as int + n) as char] else Itoa(n / 10) + [('0' as int + n % 10) as char]
  }

  /** The number a decimal numeral denotes. */
  function Decimal(text: string): int {
    if text == [] then 0 else 10 * Decimal(text[..|text| - 1]) + (text[|text| - 1] as int - '0' as int)
  }

  predicate Digits(text: string) { forall i :: 0 <= i < |text| ==> '0' <= text[i] <= '9' }

  /** The numeral of n is made of digits, has no leading zero but its own, and denotes n. */
  lemma {:induction false} ItoaDenotes(n: nat)
    ensures Digits(Itoa(n)) && Decimal(Itoa(n)) == n && (n > 0 ==> Itoa(n)[0] != '0')
  {
    var text := Itoa(n);
    if n >= 10 {
      ItoaDenotes(n / 10);
      assert text[..|text| - 1] == Itoa(n / 10);
    } else {
      assert text[..0] == [];
    }
  }

  function NoticeName(n: nat): string { "notice-" + Itoa(n) }

  method NoticeID(log: seq<Record>) returns (id: string)
    ensures id == NoticeName(Queued(log) + 1)
  {
    var queued := 0;
    for i := 0 to |log|
      invariant queued == Queued(log[..i])
    {
      assert log[..i + 1][..i] == log[..i];
      if log[i].NoticeQueued? {
        queued := queued + 1;
      }
    }
    assert log[..|log|] == log;
    id := NoticeName(queued + 1);
  }

  lemma {:induction false} ItoaInjective(m: nat, n: nat)
    requires Itoa(m) == Itoa(n)
    ensures m == n
  {
    var s, t := Itoa(m), Itoa(n);
    assert s[|s| - 1] == t[|t| - 1];
    if m >= 10 && n >= 10 {
      assert s[..|s| - 1] == Itoa(m / 10) && t[..|t| - 1] == Itoa(n / 10);
      ItoaInjective(m / 10, n / 10);
    }
  }

  lemma NoticeNameInjective(m: nat, n: nat)
    requires NoticeName(m) == NoticeName(n)
    ensures m == n
  {
    assert NoticeName(m)[7..] == Itoa(m) && NoticeName(n)[7..] == Itoa(n);
    ItoaInjective(m, n);
  }

  predicate Fresh(log: seq<Record>, record: Record) {
    record.NoticeQueued? ==> record.message.source.noticeId == NoticeName(Queued(log) + 1)
  }

  /** Every queued notice took its ID from NoticeID at its own commit. */
  predicate Numbered(log: seq<Record>) {
    log == [] || (Numbered(log[..|log| - 1]) && Fresh(log[..|log| - 1], log[|log| - 1]))
  }

  lemma {:induction false} IdsAreNumbers(log: seq<Record>)
    requires Valid(log) && Numbered(log)
    ensures forall id :: id in StateOf(log).inbox.noticeIds <==> exists n: nat :: 1 <= n <= Queued(log) && id == NoticeName(n)
  {
    if log != [] {
      var front, last := log[..|log| - 1], log[|log| - 1];
      assert log == front + [last];
      ValidSnoc(front, last);
      IdsAreNumbers(front);
      if last.NoticeQueued? {
        assert last.message.source.noticeId == NoticeName(Queued(front) + 1);
        var ids := StateOf(front).inbox.noticeIds;
        assert StateOf(log).inbox.noticeIds == ids + {NoticeName(Queued(log))};
        forall id | id in StateOf(log).inbox.noticeIds
          ensures exists n: nat :: 1 <= n <= Queued(log) && id == NoticeName(n)
        {
          if id in ids {
            var n: nat :| 1 <= n <= Queued(front) && id == NoticeName(n);
          }
        }
      } else {
        SameIds(front, StateOf(front), last);
      }
    }
  }

  lemma SameIds(log: seq<Record>, s: State, record: Record)
    requires Step(log, s, record).Some? && !record.NoticeQueued?
    ensures Step(log, s, record).value.inbox.noticeIds == s.inbox.noticeIds
  {}

  /** Whatever the log, forks included, the next notice ID is new and its commit is accepted. */
  lemma NextNoticeAccepted(log: seq<Record>, message: Message)
    requires Valid(log) && Numbered(log)
    requires message.source.noticeId == NoticeName(Queued(log) + 1)
    requires WellFormedMessage(message, true)
    ensures Valid(log + [NoticeQueued(message)]) && Numbered(log + [NoticeQueued(message)])
  {
    IdsAreNumbers(log);
    var id := message.source.noticeId;
    assert id != "";
    if id in StateOf(log).inbox.noticeIds {
      var n: nat :| 1 <= n <= Queued(log) && id == NoticeName(n);
      NoticeNameInjective(n, Queued(log) + 1);
    }
    QueueAccepted(log, message);
    assert (log + [NoticeQueued(message)])[..|log|] == log;
  }

  lemma QueueAccepted(log: seq<Record>, message: Message)
    requires Valid(log) && WellFormedMessage(message, true) && message.source.noticeId != ""
    requires message.source.noticeId !in StateOf(log).inbox.noticeIds
    ensures Valid(log + [NoticeQueued(message)])
  {
    ValidSnoc(log, NoticeQueued(message));
  }

  // ----- PendingNotices -----

  function Index(pending: seq<Message>, id: string): (index: nat)
    ensures index <= |pending|
    ensures index < |pending| ==> pending[index].source.noticeId == id
    ensures forall j :: 0 <= j < index ==> pending[j].source.noticeId != id
  {
    if pending == [] || pending[0].source.noticeId == id then 0 else 1 + Index(pending[1..], id)
  }

  /** The delivery of a notice strikes it from the pending list. */
  function Strike(pending: seq<Message>, id: string): seq<Message> {
    var index := Index(pending, id);
    if index < |pending| then pending[..index] + pending[index + 1..] else pending
  }

  function PendingStep(before: seq<Message>, record: Record): seq<Message> {
    match record
    case NoticeQueued(message) => before + [message]
    case UserMessage(_, _, message) =>
      if message.source.noticeId == "" then before else Strike(before, message.source.noticeId)
    case _ => before
  }

  function Pending(log: seq<Record>): seq<Message> {
    if log == [] then [] else PendingStep(Pending(log[..|log| - 1]), log[|log| - 1])
  }

  method PendingNotices(log: seq<Record>) returns (pending: seq<Message>)
    ensures pending == Pending(log)
  {
    pending := [];
    for i := 0 to |log|
      invariant pending == Pending(log[..i])
    {
      assert log[..i + 1][..i] == log[..i];
      match log[i] {
        case NoticeQueued(message) =>
          pending := pending + [message];
        case UserMessage(_, _, message) =>
          if message.source.noticeId != "" {
            for index := 0 to |pending|
              invariant forall j :: 0 <= j < index ==> pending[j].source.noticeId != message.source.noticeId
              invariant pending == Pending(log[..i])
            {
              if pending[index].source.noticeId == message.source.noticeId {
                pending := pending[..index] + pending[index + 1..];
                break;
              }
            }
          }
        case _ =>
      }
    }
    assert log[..|log|] == log;
  }

  ghost predicate DistinctIds(pending: seq<Message>) {
    forall i, j :: 0 <= i < j < |pending| ==> pending[i].source.noticeId != pending[j].source.noticeId
  }

  /** Every listed notice is owed under its ID with exactly the listed message. */
  ghost predicate Owed(pending: seq<Message>, inbox: Inbox) {
    forall i :: 0 <= i < |pending| ==>
      var id := pending[i].source.noticeId;
      id != "" && id in inbox.notices && inbox.notices[id] == pending[i]
  }

  ghost predicate Listed(pending: seq<Message>, inbox: Inbox) {
    forall id :: id in inbox.notices ==> exists i :: 0 <= i < |pending| && pending[i].source.noticeId == id
  }

  lemma OwedAfterQueue(inbox: Inbox, message: Message, pending: seq<Message>)
    requires NoticeInv(inbox) && DistinctIds(pending) && Owed(pending, inbox)
    requires message.source.noticeId != "" && message.source.noticeId !in inbox.noticeIds
    ensures var next := Inbox(inbox.notices[message.source.noticeId := message], inbox.noticeIds + {message.source.noticeId});
      && DistinctIds(pending + [message]) && Owed(pending + [message], next)
      && (Listed(pending, inbox) ==> Listed(pending + [message], next))
  {
    var id, after := message.source.noticeId, pending + [message];
    assert after[|pending|] == message;
    if Listed(pending, inbox) {
      forall other | other in inbox.notices || other == id
        ensures exists i :: 0 <= i < |after| && after[i].source.noticeId == other
      {
        if other != id {
          var i :| 0 <= i < |pending| && pending[i].source.noticeId == other;
          assert after[i] == pending[i];
        }
      }
    }
  }

  lemma OwedAfterDelivery(inbox: Inbox, id: string, pending: seq<Message>)
    requires DistinctIds(pending) && Owed(pending, inbox)
    ensures var next := inbox.(notices := inbox.notices - {id});
      && DistinctIds(Strike(pending, id)) && Owed(Strike(pending, id), next)
      && (Listed(pending, inbox) ==> Listed(Strike(pending, id), next))
  {
    var after := Strike(pending, id);
    StrikeFacts(pending, id);
    forall i | 0 <= i < |after|
      ensures after[i].source.noticeId != "" && after[i].source.noticeId in inbox.notices
      ensures after[i].source.noticeId != id && inbox.notices[after[i].source.noticeId] == after[i]
    {
      assert after[i] in pending;
    }
    if Listed(pending, inbox) {
      forall other | other in inbox.notices && other != id
        ensures exists i :: 0 <= i < |after| && after[i].source.noticeId == other
      {
        var i :| 0 <= i < |pending| && pending[i].source.noticeId == other;
        assert pending[i] in after;
      }
    }
  }

  lemma OwedStep(log: seq<Record>, s: State, record: Record, pending: seq<Message>)
    requires WellFormed(record) && NoticeInv(s.inbox)
    requires Step(log, s, record).Some? && DistinctIds(pending) && Owed(pending, s.inbox)
    ensures var next := Step(log, s, record).value.inbox;
      && DistinctIds(PendingStep(pending, record))
      && Owed(PendingStep(pending, record), next)
      && (Listed(pending, s.inbox) ==> Listed(PendingStep(pending, record), next))
  {
    hide DistinctIds, Owed, Listed, NoticeInv;
    match record {
      case NoticeQueued(message) => OwedAfterQueue(s.inbox, message, pending);
      case UserMessage(_, _, message) =>
        if message.source.noticeId != "" {
          OwedAfterDelivery(s.inbox, message.source.noticeId, pending);
        }
      case _ =>
        SameInbox(log, s, record);
        hide Step;
    }
  }

  lemma SameInbox(log: seq<Record>, s: State, record: Record)
    requires Step(log, s, record).Some? && !record.NoticeQueued? && !record.UserMessage?
    ensures Step(log, s, record).value.inbox == s.inbox
  {}

  lemma StrikeFacts(pending: seq<Message>, id: string)
    requires DistinctIds(pending)
    ensures DistinctIds(Strike(pending, id))
    ensures forall m :: m in Strike(pending, id) <==> m in pending && m.source.noticeId != id
  {
    var index := Index(pending, id);
    if index < |pending| {
      RemovedAt(pending, index);
    }
  }

  lemma RemovedAt(pending: seq<Message>, index: nat)
    requires DistinctIds(pending) && index < |pending|
    ensures var rest := pending[..index] + pending[index + 1..];
      DistinctIds(rest) && forall m :: m in rest <==> m in pending && m.source.noticeId != pending[index].source.noticeId
  {
    RemovedDistinct(pending, index);
    forall m
      ensures m in pending[..index] + pending[index + 1..]
         <==> m in pending && m.source.noticeId != pending[index].source.noticeId
    {
      RemovedMember(pending, index, m);
    }
  }

  lemma RemovedDistinct(pending: seq<Message>, index: nat)
    requires DistinctIds(pending) && index < |pending|
    ensures DistinctIds(pending[..index] + pending[index + 1..])
  {}

  lemma RemovedMember(pending: seq<Message>, index: nat, m: Message)
    requires DistinctIds(pending) && index < |pending|
    ensures m in pending[..index] + pending[index + 1..]
       <==> m in pending && m.source.noticeId != pending[index].source.noticeId
  {
    var left, right := pending[..index], pending[index + 1..];
    assert pending == left + [pending[index]] + right;
    assert forall i :: 0 <= i < |left| ==> left[i].source.noticeId != pending[index].source.noticeId;
    assert forall i :: 0 <= i < |right| ==> right[i].source.noticeId != pending[index].source.noticeId;
    hide DistinctIds;
  }

  /**
    The notices a session's own records queued and did not deliver are owed by the
    validator, each under a distinct ID with the same message; without an inherited
    prefix they are all that is owed.
   */
  lemma {:induction false} PendingIsOwed(log: seq<Record>, own: nat)
    requires Valid(log) && own <= |log|
    ensures DistinctIds(Pending(log[own..])) && Owed(Pending(log[own..]), StateOf(log).inbox)
    ensures own == 0 ==> Listed(Pending(log[own..]), StateOf(log).inbox)
  {
    if own == |log| {
      assert log == [] ==> StateOf(log) == INIT;
    } else {
      var front, last := log[..|log| - 1], log[|log| - 1];
      hide Valid, StateOf, Step, DistinctIds, Owed, Listed;
      ValidLast(log);
      PendingIsOwed(front, own);
      assert log[own..][..|log| - own - 1] == front[own..];
      OwedStep(front, StateOf(front), last, Pending(front[own..]));
    }
  }

  // ----- delivery -----

  predicate Delivers(record: Record, id: string) {
    record.UserMessage? && record.message.source.noticeId == id
  }

  lemma {:induction false} DeliveredIsSettled(log: seq<Record>, i: nat)
    requires Valid(log) && i < |log| && log[i].UserMessage? && log[i].message.source.noticeId != ""
    ensures var id := log[i].message.source.noticeId;
      id !in StateOf(log).inbox.notices && id in StateOf(log).inbox.noticeIds
  {
    var front, last := log[..|log| - 1], log[|log| - 1];
    assert log == front + [last];
    ValidSnoc(front, last);
    InvHolds(front);
    if i < |front| {
      DeliveredIsSettled(front, i);
      if !last.NoticeQueued? && !last.UserMessage? {
        SameInbox(front, StateOf(front), last);
      }
    }
  }

  /** No notice is delivered twice in a valid log. */
  lemma DeliveredOnce(log: seq<Record>, i: nat, j: nat, id: string)
    requires Valid(log) && i < |log| && j < |log| && id != ""
    requires Delivers(log[i], id) && Delivers(log[j], id)
    ensures i == j
  {
    if i != j {
      var first, later := if i < j then i else j, if i < j then j else i;
      ValidPrefix(log, later);
      ValidPrefix(log, later + 1);
      assert log[..later + 1] == log[..later] + [log[later]];
      ValidSnoc(log[..later], log[later]);
      DeliveredIsSettled(log[..later], first);
    }
  }

  lemma {:induction false} OwedWasQueued(log: seq<Record>, id: string) returns (q: nat)
    requires Valid(log) && id in StateOf(log).inbox.notices
    ensures q < |log| && log[q] == NoticeQueued(StateOf(log).inbox.notices[id])
  {
    var front, last := log[..|log| - 1], log[|log| - 1];
    assert log == front + [last];
    ValidSnoc(front, last);
    if last.NoticeQueued? && last.message.source.noticeId == id {
      q := |front|;
    } else {
      if !last.NoticeQueued? && !last.UserMessage? {
        SameInbox(front, StateOf(front), last);
      }
      q := OwedWasQueued(front, id);
    }
  }

  /** Every delivery repeats, word for word, a notice queued earlier. */
  lemma DeliveryWasQueued(log: seq<Record>, i: nat) returns (q: nat)
    requires Valid(log) && i < |log| && log[i].UserMessage? && log[i].message.source.noticeId != ""
    ensures q < i && log[q] == NoticeQueued(log[i].message)
  {
    ValidPrefix(log, i);
    ValidPrefix(log, i + 1);
    assert log[..i + 1] == log[..i] + [log[i]];
    ValidSnoc(log[..i], log[i]);
    q := OwedWasQueued(log[..i], log[i].message.source.noticeId);
  }
}
