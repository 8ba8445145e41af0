/**
  The agent worker (internal/app/agent/agent.go): one sequential turn worker with its
  notice queue, wake request and idle waiters. Every method is one critical section of
  the agent's lock, or one append between two of them.
 */
module Worker {
  import opened Records
  import opened Notices
  import opened Journal
  import opened Queue
  import Order

  /**
    What the worker goroutine is doing between its critical sections. A turn is begun once its
    start committed; canceled is its settled outcome, interrupted whether its context had
    ended by then.
   */
  datatype Phase =
    | Waiting | Claimed | Received
    | Turn(submitted: bool, begun: bool)
    | Over(submitted: bool, begun: bool, canceled: bool, interrupted: bool)

  datatype Answer = Taken | NotRunning | Refused

  /** Why a notice the log still owes is no longer in memory. */
  datatype Cause =
    | RefusedDelivery   // the validator refused a delivery, which ends the batch
    | OpeningFailed     // it was to open a turn that failed before its start, and was not cancelled
    | Declined          // committed while the agent stopped or a one-shot agent's turn ended
    | Stopped           // the worker stopped

  /** The durable ones of some notices are given up. */
  function Given(gone: map<string, Cause>, notices: seq<Message>, cause: Cause): (now: map<string, Cause>)
    ensures now.Keys == gone.Keys + Ids(WithIds(notices))
  {
    gone + map id | id in Ids(WithIds(notices)) :: cause
  }

  /**
    The variables under the agent's lock besides the queue itself: pending counts requests
    not finished yet, running is a set currentCancel, aborted a closed currentDone. The
    worker's own position and who holds the pending requests come with them.
   */
  datatype Desk = Desk(
    active: bool, busy: bool, pending: nat, running: bool, aborted: bool, idleWaiters: nat, woken: bool,
    phase: Phase,
    blocked: nat,      // Submit calls waiting for room in the channel
    queue: nat,        // requests in the channel
    resumed: bool,     // no turn has run since notices were restored from the log
    stopped: bool,     // the last finished turn was cancelled or interrupted
    withdrawn: bool)   // a Submit was withdrawn since the last turn started
  {
    predicate Idle() { !busy && pending == 0 && !woken }
    predicate Submitted() { phase.Received? || ((phase.Turn? || phase.Over?) && phase.submitted) }
  }

  /**
    A wake always has a notice to deliver, a busy agent is woken only by what arrived after
    its turn was cancelled or over, an idle agent has no idle waiters, and one that holds
    notices is one-shot, resumed, last cancelled or interrupted, or follows a withdrawn Submit.
   */
  predicate Wakes(d: Desk, oneShot: bool, held: nat) {
    && (d.woken ==> held > 0)
    && (d.busy && d.woken ==> d.running && d.aborted)
    && (d.Idle() ==> d.idleWaiters == 0)
    && (d.Idle() && held > 0 ==> oneShot || d.resumed || d.stopped || d.withdrawn)
  }

  /** Who holds the pending requests, what the worker is doing, and what it may have taken. */
  predicate Counts(d: Desk, carried: nat) {
    && d.pending == d.blocked + d.queue + (if d.Submitted() then 1 else 0)
    && (d.busy <==> d.phase.Claimed? || d.phase.Turn? || d.phase.Over?)
    && (d.running <==> d.phase.Turn? || d.phase.Over?)
    && (d.phase.Waiting? || d.phase.Received? ==> carried == 0)
    && (d.phase.Claimed? ==> carried == 1)
    && (d.phase.Turn? && !d.phase.begun ==> carried == if d.phase.submitted then 0 else 1)
    && (d.phase.Over? && !d.phase.begun ==> carried <= if d.phase.submitted then 0 else 1)
    && (d.phase.Over? ==> d.aborted && (d.phase.begun ==> carried == 0))
  }

  /** Every notice given up has its reason. */
  ghost predicate Excused(gone: map<string, Cause>, active: bool, oneShot: bool, refusals: nat, failures: nat) {
    forall id :: id in gone ==>
      match gone[id]
      case RefusedDelivery => refusals > 0
      case OpeningFailed => failures > 0
      case Declined => oneShot || !active
      case Stopped => !active
  }

  lemma ExcusedGiven(gone: map<string, Cause>, notices: seq<Message>, cause: Cause, active: bool, activeNow: bool, oneShot: bool,
                     refusals: nat, refusalsNow: nat, failures: nat, failuresNow: nat)
    requires Excused(gone, active, oneShot, refusals, failures)
    requires refusalsNow >= refusals && failuresNow >= failures && (activeNow ==> active)
    requires match cause
             case RefusedDelivery => refusalsNow > 0
             case OpeningFailed => failuresNow > 0
             case Declined => oneShot || !activeNow
             case Stopped => !activeNow
    ensures Excused(Given(gone, notices, cause), activeNow, oneShot, refusalsNow, failuresNow)
    ensures Excused(gone, activeNow, oneShot, refusalsNow, failuresNow)
  {}

  class Agent {
    const log: Log
    const oneShot: bool
    var desk: Desk
    var notices: seq<Message>
    var inflight: seq<Message>         // taken from the queue by the worker and not committed yet
    var landing: seq<Message>          // a durable notice its QueueNotice call committed and has not queued yet
    ghost var gone: map<string, Cause> // the notices the log owes that are no longer in memory
    ghost var refusals: nat            // deliveries the validator refused
    ghost var failures: nat            // turns a notice was to open that failed before their start

    ghost predicate Valid() reads this, log {
      && Durable() && Excused(gone, desk.active, oneShot, refusals, failures)
      && (desk.active ==> Wakes(desk, oneShot, |notices|) && Counts(desk, |inflight|))
    }

    /** The queue and the log. */
    ghost predicate Durable()
      reads this`notices, this`inflight, this`landing, this`gone, log
    {
      && log.Valid() && SandboxOwned(log.child, log.records) && Numbered(log.records)
      && AllUser(inflight) && AllUser(notices) && AllUser(landing) && |landing| <= 1
      && (forall i :: 0 <= i < |landing| ==> landing[i].source.noticeId != "")
      && InStep(log.records, inflight, notices, landing, gone.Keys)
    }

    /** Create or resume: what the session still owes waits for its next turn. */
    constructor (log: Log, oneShot: bool)
      requires log.Valid() && SandboxOwned(log.child, log.records) && Numbered(log.records)
      ensures Valid() && this.log == log && this.oneShot == oneShot && desk.active
      ensures notices == Pending(OwnEvents(log.records)) && inflight == [] && landing == []
      ensures gone == map[] && refusals == 0 && failures == 0
    {
      this.log, this.oneShot := log, oneShot;
      desk := Desk(true, false, 0, false, false, 0, false, Waiting, 0, 0, true, false, false);
      var own := FindOwnEvents(log.records);
      var owed := PendingNotices(own);
      notices := owed;
      inflight, landing, gone, refusals, failures := [], [], map[], 0, 0;
      new;
      StartsInStep(log.records);
      assert gone.Keys == {};
    }

    // ----- the worker -----

    /** claimWake: the queue is never empty here. */
    method ClaimWake() returns (claimed: bool)
      requires Valid() && desk.active && desk.phase == Waiting
      modifies this`desk, this`notices, this`inflight
      ensures Valid() && claimed == old(desk).woken
      ensures claimed ==>
        && desk == old(desk).(woken := false, busy := true, phase := Claimed)
        && old(notices) != [] && inflight == [old(notices)[0]] && notices == old(notices)[1..]
      ensures !claimed ==> desk == old(desk) && notices == old(notices) && inflight == old(inflight)
    {
      hide Order.Valid, Order.Fold, SandboxOwned, Numbered, Excused;
      if !desk.woken {
        return false;
      }
      var notice := notices[0];
      assert inflight + notices == [notice] + notices[1..];
      notices := notices[1..];
      inflight := [notice];
      desk := desk.(woken := false, busy := true, phase := Claimed);
      return true;
    }

    /** A request arrives on the channel. */
    method Receive()
      requires Valid() && desk.active && desk.phase == Waiting && desk.queue > 0
      modifies this`desk
      ensures Valid() && desk == old(desk).(queue := old(desk).queue - 1, phase := Received)
    {
      hide Durable, Excused;
      desk := desk.(queue := desk.queue - 1, phase := Received);
    }

    /** The start of turn: whatever is queued by now needs no wake of its own any more. */
    method StartTurn()
      requires Valid() && desk.active && desk.phase in {Claimed, Received}
      modifies this`desk
      ensures Valid()
      ensures desk == old(desk).(busy := true, running := true, aborted := false, woken := false,
                                 phase := Turn(old(desk).phase == Received, false), resumed := false, withdrawn := false)
    {
      hide Durable, Excused;
      desk := desk.(busy := true, running := true, aborted := false, woken := false,
                    phase := Turn(desk.phase == Received, false), resumed := false, withdrawn := false);
    }

    /** The engine, or anyone else, commits a record that queues or delivers no notice. */
    method Commit(record: Record) returns (ok: bool)
      requires Valid() && Plain(record)
      modifies log
      ensures Valid()
      ensures log.records == if ok then old(log.records) + [record] else old(log.records)
    {
      hide Order.Valid, Order.Fold, SandboxOwned, Numbered, Plain, AllUser, InStep, Excused;
      ghost var before := log.records;
      ok := log.Append(record);
      if ok {
        PlainInStep(before, record, inflight, notices, landing, gone.Keys);
      }
    }

    /** drainNotices, in a turn that opened: a cancelled turn takes none. */
    method Drain()
      requires Valid() && desk.active && desk.phase.Turn? && desk.phase.begun && inflight == []
      modifies this`notices, this`inflight
      ensures Valid()
      ensures if desk.aborted then notices == old(notices) && inflight == [] else inflight == old(notices) && notices == []
    {
      hide Order.Valid, Order.Fold, SandboxOwned, Numbered, Excused;
      if desk.aborted {
        return;
      }
      assert inflight + notices == notices + [];
      inflight := notices;
      notices := [];
    }

    /** In the log, this turn is open. */
    ghost predicate Open(turn: nat) reads log {
      turn > 0 && Order.Fold(log.records).Some? && Order.Fold(log.records).value.at.turn == turn
    }

    /**
      The engine commits the oldest notice it holds to its open turn. The validator accepts it
      unless it claims to be a goal round; a refused one ends the batch, and what the worker
      still held leaves memory.
     */
    method Deliver(turn: nat) returns (ok: bool)
      requires Valid() && desk.active && desk.phase.Turn? && inflight != [] && Open(turn)
      modifies this`inflight, this`gone, this`refusals, this`desk, log
      ensures Valid()
      ensures old(inflight)[0].source.kind != GOAL_SOURCE ==> ok
      ensures log.records == if ok then old(log.records) + [UserMessage(turn, 0, old(inflight)[0])] else old(log.records)
      ensures ok ==> inflight == old(inflight)[1..] && gone == old(gone) && refusals == old(refusals)
      ensures !ok ==> inflight == [] && gone == Given(old(gone), old(inflight), RefusedDelivery) && refusals == old(refusals) + 1
      ensures desk == old(desk).(phase := Turn(old(desk).phase.submitted, true))
    {
      hide Durable, Excused, Given, WithIds, Ids, Open, Order.Fold;
      ok := CommitHead(turn);
      if !ok {
        ExcusedGiven(gone, inflight, RefusedDelivery, desk.active, desk.active, oneShot, refusals, refusals + 1, failures, failures);
        refusals := refusals + 1;
        GiveUp(RefusedDelivery);
      }
      desk := desk.(phase := Turn(desk.phase.submitted, true));
    }

    /** The append of a delivery. */
    method CommitHead(turn: nat) returns (ok: bool)
      requires Durable() && inflight != [] && Open(turn)
      modifies this`inflight, log
      ensures Durable()
      ensures old(inflight)[0].source.kind != GOAL_SOURCE ==> ok
      ensures log.records == if ok then old(log.records) + [UserMessage(turn, 0, old(inflight)[0])] else old(log.records)
      ensures inflight == if ok then old(inflight)[1..] else old(inflight)
    {
      hide Order.Valid, Order.Fold, SandboxOwned, Numbered, InStep, WithIds, Ids;
      var message, rest := inflight[0], inflight[1..];
      ghost var before := log.records;
      assert inflight == [message] + rest;
      if message.source.kind != GOAL_SOURCE {
        HeadAccepted(log.child, before, turn, message, rest, notices, landing, gone.Keys);
      }
      ok := log.Append(UserMessage(turn, 0, message));
      if ok {
        HeadCommitted(before, turn, message, rest, notices, landing, gone.Keys);
        inflight := rest;
      }
    }

    /** What the worker still held goes out of its memory. */
    method GiveUp(cause: Cause)
      requires Durable()
      modifies this`inflight, this`gone
      ensures Durable() && inflight == [] && gone == Given(old(gone), old(inflight), cause)
    {
      hide Order.Valid, Order.Fold, SandboxOwned, Numbered, InStep, WithIds, Ids;
      InflightGone(log.records, inflight, notices, landing, gone.Keys);
      gone := Given(gone, inflight, cause);
      inflight := [];
    }

    /** The opening of a submitted turn commits. */
    method OpenSubmitted()
      requires Valid() && desk.active && desk.phase.Turn? && desk.phase.submitted
      modifies this`desk
      ensures Valid() && desk == old(desk).(phase := Turn(true, true))
    {
      hide Durable, Excused;
      desk := desk.(phase := Turn(true, true));
    }

    /**
      runTurn returns, everything a begun turn took being committed or given up, and turn ends
      the turn's own context: from here on an arriving notice asks for a wake.
     */
    method EndTurn(canceled: bool)
      requires Valid() && desk.active && desk.phase.Turn? && (desk.phase.begun ==> inflight == [])
      modifies this`desk
      ensures Valid()
      ensures desk == old(desk).(aborted := true,
                                 phase := Over(old(desk).phase.submitted, old(desk).phase.begun, canceled, old(desk).aborted))
    {
      hide Durable, Excused;
      desk := desk.(aborted := true, phase := Over(desk.phase.submitted, desk.phase.begun, canceled, desk.aborted));
    }

    /** restoreNotice: the notice a cancelled turn never opened with goes back to the head. */
    method Restore()
      requires Valid() && desk.active && desk.phase.Over? && !desk.phase.begun && desk.phase.canceled && inflight != []
      modifies this`notices, this`inflight
      ensures Valid() && inflight == [] && notices == old(inflight) + old(notices) && |old(inflight)| == 1
    {
      hide Order.Valid, Order.Fold, SandboxOwned, Numbered, Excused;
      notices := inflight + notices;
      inflight := [];
      assert [] + notices == notices;
    }

    /**
      finishTurn. A notice that was to open a turn is still in hand only if that turn failed to
      open without being cancelled; it is not put back.
     */
    method Finish()
      requires Valid() && desk.active && desk.phase.Over?
      requires inflight != [] ==> !desk.phase.begun && !desk.phase.canceled
      modifies this`desk, this`inflight, this`gone, this`failures
      ensures Valid() && desk.phase == Waiting && !desk.busy && !desk.running && inflight == []
      ensures desk == old(desk).(running := false, busy := false, aborted := false, phase := Waiting,
                                 pending := desk.pending, woken := desk.woken, idleWaiters := desk.idleWaiters,
                                 stopped := old(desk).phase.canceled || old(desk).phase.interrupted)
      ensures gone == Given(old(gone), old(inflight), OpeningFailed)
      ensures failures == old(failures) + if old(inflight) == [] then 0 else 1
      ensures desk.pending == old(desk).pending - (if old(desk).phase.submitted then 1 else 0)
      ensures var stopped := old(desk).phase.canceled || old(desk).phase.interrupted;
        desk.woken <==> notices != [] && desk.pending == 0 && !oneShot && (!stopped || old(desk).woken)
      ensures desk.idleWaiters == if desk.pending == 0 && !desk.woken then 0 else old(desk).idleWaiters
    {
      hide Durable, Excused, Given, WithIds, Ids;
      GiveUpOpening();
      var stopped := desk.phase.canceled || desk.phase.interrupted;
      var left := if desk.phase.submitted then desk.pending - 1 else desk.pending;
      var woken := |notices| > 0 && left == 0 && (!stopped || desk.woken) && !oneShot;
      desk := desk.(running := false, busy := false, aborted := false, pending := left, phase := Waiting,
                    stopped := stopped, woken := woken,
                    idleWaiters := if left == 0 && !woken then 0 else desk.idleWaiters);
    }

    method GiveUpOpening()
      requires Durable() && Excused(gone, desk.active, oneShot, refusals, failures)
      modifies this`inflight, this`gone, this`failures
      ensures Durable() && Excused(gone, desk.active, oneShot, refusals, failures)
      ensures inflight == [] && gone == Given(old(gone), old(inflight), OpeningFailed)
      ensures failures == old(failures) + if old(inflight) == [] then 0 else 1
    {
      GivenNone(gone, OpeningFailed);
      hide Durable, Excused, WithIds, Ids, Given, Order.Fold;
      if inflight == [] {
        return;
      }
      ExcusedGiven(gone, inflight, OpeningFailed, desk.active, desk.active, oneShot, refusals, refusals, failures, failures + 1);
      failures := failures + 1;
      GiveUp(OpeningFailed);
    }

    /** The waiting worker stops: the queue goes, and the idle waiters are released. */
    method Stop()
      requires Valid() && desk.active && desk.phase == Waiting
      modifies this`desk, this`notices, this`gone
      ensures Valid() && notices == []
      ensures desk == old(desk).(active := false, busy := false, running := false, pending := 0, woken := false, idleWaiters := 0)
      ensures gone == Given(old(gone), old(notices), Stopped)
    {
      hide Order.Valid, Order.Fold, SandboxOwned, Numbered, InStep, Excused, WithIds, Ids;
      assert inflight == [];
      ExcusedGiven(gone, notices, Stopped, desk.active, false, oneShot, refusals, refusals, failures, failures);
      NoticesGone(log.records, notices, landing, gone.Keys);
      desk := desk.(active := false, busy := false, running := false, pending := 0, woken := false, idleWaiters := 0);
      gone := Given(gone, notices, Stopped);
      notices := [];
    }

    // ----- the callers -----

    /** Interrupt ends the context of the running turn, which may also end with the worker's. */
    method Interrupt()
      requires Valid()
      modifies this`desk
      ensures Valid() && desk == old(desk).(aborted := old(desk).aborted || old(desk).running)
    {
      hide Durable, Excused;
      if desk.running {
        desk := desk.(aborted := true);
      }
    }

    /** WhenIdle: returns at once when idle, or registers one waiter. */
    method WhenIdle() returns (idle: bool)
      requires Valid() && desk.active
      modifies this`desk
      ensures Valid() && (idle <==> old(desk).pending == 0 && !old(desk).busy && !old(desk).woken)
      ensures desk == old(desk).(idleWaiters := old(desk).idleWaiters + if idle then 0 else 1)
    {
      hide Durable, Excused;
      if desk.pending == 0 && !desk.busy && !desk.woken {
        return true;
      }
      desk := desk.(idleWaiters := desk.idleWaiters + 1);
      return false;
    }

    /** Submit's first critical section. */
    method Reserve(ran: bool) returns (answer: Answer)
      requires Valid()
      modifies this`desk
      ensures Valid()
      ensures answer == if !desk.active then NotRunning else if oneShot && (old(desk).pending > 0 || ran) then Refused else Taken
      ensures desk == if answer == Taken
                      then old(desk).(pending := old(desk).pending + 1, blocked := old(desk).blocked + 1) else old(desk)
    {
      hide Durable, Excused;
      if !desk.active {
        return NotRunning;
      }
      if oneShot && (desk.pending > 0 || ran) {
        return Refused;
      }
      desk := desk.(pending := desk.pending + 1, blocked := desk.blocked + 1);
      return Taken;
    }

    /** The request enters the channel. */
    method Send()
      requires Valid() && desk.active && desk.blocked > 0
      modifies this`desk
      ensures Valid() && desk == old(desk).(blocked := old(desk).blocked - 1, queue := old(desk).queue + 1)
    {
      hide Durable, Excused;
      desk := desk.(blocked := desk.blocked - 1, queue := desk.queue + 1);
    }

    /** Submit's caller gives up before there was room: the one way to leave a queued notice without a wake. */
    method Withdraw()
      requires Valid() && desk.active && desk.blocked > 0
      modifies this`desk
      ensures Valid()
      ensures var idle := old(desk).pending == 1 && !old(desk).busy && !old(desk).woken;
        desk == old(desk).(pending := old(desk).pending - 1, blocked := old(desk).blocked - 1, withdrawn := true,
                           idleWaiters := if idle then 0 else old(desk).idleWaiters)
    {
      hide Durable, Excused;
      desk := desk.(pending := desk.pending - 1, blocked := desk.blocked - 1, withdrawn := true);
      if desk.pending == 0 && !desk.busy && !desk.woken {
        desk := desk.(idleWaiters := 0);
      }
    }

    /** The queue is in step with the log once the message being taken is counted, durable or not. */
    ghost predicate Arriving(message: Message) reads this`notices, this`inflight, this`landing, this`gone, log {
      Durable() && WellFormedMessage(message, true)
      && (message.source.noticeId != "" ==> landing == [message])
    }

    /** enqueueLocked: an idle agent is woken, and a turn cancelled or over keeps the wake for its end. */
    method Enqueue(message: Message) returns (answer: Answer)
      requires Valid() && Arriving(message)
      modifies this`notices, this`desk, this`landing, this`gone
      ensures Valid() && landing == if message.source.noticeId == "" then old(landing) else []
      ensures answer == if !desk.active then NotRunning else if oneShot && !desk.busy then Refused else Taken
      ensures notices == if answer == Taken then old(notices) + [message] else old(notices)
      ensures desk == old(desk).(woken := desk.woken)
      ensures desk.woken <==>
        old(desk).woken || (answer == Taken && if desk.busy then desk.running && desk.aborted else desk.pending == 0)
      ensures gone == if answer == Taken then old(gone) else Given(old(gone), [message], Declined)
    {
      hide Durable, Excused, Given, WithIds, Ids;
      if !desk.active || (oneShot && !desk.busy) {
        Decline(message);
        return if desk.active then Refused else NotRunning;
      }
      Take(message);
      if desk.busy && desk.running && desk.aborted {
        desk := desk.(woken := true);
      }
      if !desk.busy && desk.pending == 0 && !desk.woken {
        desk := desk.(woken := true);
      }
      return Taken;
    }

    /** The queue takes the message. */
    method Take(message: Message)
      requires Arriving(message)
      modifies this`notices, this`landing
      ensures Durable() && notices == old(notices) + [message]
      ensures landing == if message.source.noticeId == "" then old(landing) else []
    {
      hide Order.Valid, Order.Fold, SandboxOwned, Numbered, Without, Ids;
      QueueGrows(inflight, notices, landing, message);
      notices := notices + [message];
      landing := if message.source.noticeId == "" then landing else [];
    }

    /** A refused notice that was already committed stays owed in the log only. */
    method Decline(message: Message)
      requires Arriving(message) && Excused(gone, desk.active, oneShot, refusals, failures) && (oneShot || !desk.active)
      modifies this`landing, this`gone
      ensures landing == if message.source.noticeId == "" then old(landing) else []
      ensures Durable() && Excused(gone, desk.active, oneShot, refusals, failures)
      ensures gone == Given(old(gone), [message], Declined)
    {
      OneDurable(message);
      assert message.source.noticeId == "" ==> Given(gone, [message], Declined) == gone;
      hide Order.Valid, Order.Fold, SandboxOwned, Numbered, InStep, Excused, WithIds, Ids;
      ExcusedGiven(gone, [message], Declined, desk.active, desk.active, oneShot, refusals, refusals, failures, failures);
      if message.source.noticeId != "" {
        LandingGone(log.records, inflight, notices, landing, gone.Keys);
        gone := Given(gone, [message], Declined);
        landing := [];
      }
    }

    /** Notify: an in-memory notice. */
    method Notify(message: Message, canceled: bool) returns (answer: Answer)
      requires Valid() && WellFormedMessage(message, true) && message.source.noticeId == ""
      modifies this`notices, this`desk, this`landing, this`gone
      ensures Valid() && landing == old(landing) && gone == old(gone)
      ensures answer == if !desk.active then NotRunning else if canceled || (oneShot && !desk.busy) then Refused else Taken
      ensures notices == if answer == Taken then old(notices) + [message] else old(notices)
      ensures desk == old(desk).(woken := desk.woken)
      ensures desk.woken <==>
        old(desk).woken || (answer == Taken && if desk.busy then desk.running && desk.aborted else desk.pending == 0)
      ensures answer == Taken ==> desk.woken || desk.busy || desk.pending > 0
    {
      hide Durable, Excused;
      if !desk.active {
        return NotRunning;
      }
      if canceled {
        return Refused;
      }
      assert Arriving(message);
      OneDurable(message);
      answer := Enqueue(message);
      assert gone == old(gone);
    }

    /** QueueNotice up to its commit: a live agent's notice is always accepted, under a new ID. */
    method CommitNotice(message: Message) returns (answer: Answer, queued: Message)
      requires Valid() && WellFormedMessage(message, true) && message.source.noticeId == ""
      requires landing == []
      modifies this`landing, log
      ensures Valid()
      ensures answer == if !desk.active then NotRunning else if oneShot && !desk.busy then Refused else Taken
      ensures answer == Taken ==>
        && queued == message.(source := message.source.(noticeId := NoticeName(Notices.Queued(old(log.records)) + 1)))
        && log.records == old(log.records) + [NoticeQueued(queued)] && landing == [queued] && Arriving(queued)
      ensures answer != Taken ==> log.records == old(log.records) && landing == []
    {
      queued := message;
      if !desk.active {
        return NotRunning, message;
      }
      if oneShot && !desk.busy {
        return Refused, message;
      }
      hide Durable, Excused;
      queued := RecordNotice(message);
      return Taken, queued;
    }

    method RecordNotice(message: Message) returns (queued: Message)
      requires Durable() && WellFormedMessage(message, true) && message.source.noticeId == "" && landing == []
      modifies this`landing, log
      ensures queued == message.(source := message.source.(noticeId := NoticeName(Notices.Queued(old(log.records)) + 1)))
      ensures log.records == old(log.records) + [NoticeQueued(queued)] && landing == [queued] && Arriving(queued)
    {
      hide Order.Valid, Order.Fold, SandboxOwned, Numbered, InStep, NoticeName;
      queued := NameNotice(message);
      var ok := log.Append(NoticeQueued(queued));
      landing := [queued];
    }

    /** The notice under the next ID of the committed log, which is sure to be accepted. */
    method NameNotice(message: Message) returns (queued: Message)
      requires Durable() && WellFormedMessage(message, true) && message.source.noticeId == "" && landing == []
      ensures queued == message.(source := message.source.(noticeId := NoticeName(Notices.Queued(log.records) + 1)))
      ensures queued.source.noticeId != "" && WellFormedMessage(queued, true)
      ensures Accepts(log.child, log.records, NoticeQueued(queued)) && Numbered(log.records + [NoticeQueued(queued)])
      ensures InStep(log.records + [NoticeQueued(queued)], inflight, notices, [queued], gone.Keys)
    {
      var id := NoticeID(log.records);
      queued := message.(source := message.source.(noticeId := id));
      NameNotEmpty(Notices.Queued(log.records) + 1);
      hide Order.Valid, Order.Fold, SandboxOwned, Numbered, InStep, NoticeName;
      QueueAcceptedHere(log.child, log.records, queued);
      QueuedInStep(log.records, queued, inflight, notices, gone.Keys);
    }

    /**
      The notices with an ID in hand, in the queue and just committed are, in order, the
      pending notices of the session's own log but those given up, each for its reason.
     */
    lemma QueueIsPending()
      requires Valid()
      ensures WithIds(inflight + notices) + landing == Without(Pending(OwnEvents(log.records)), gone.Keys)
      ensures forall id :: id in gone ==>
        match gone[id]
        case RefusedDelivery => refusals > 0
        case OpeningFailed => failures > 0
        case Declined => oneShot || !desk.active
        case Stopped => !desk.active
      ensures inflight == [] && landing == [] && gone == map[] ==> WithIds(notices) == Pending(OwnEvents(log.records))
    {
      hide Order.Valid, Order.Fold, SandboxOwned, Numbered, OwnEvents, Pending, WithIds, Ids;
      var owed := Pending(OwnEvents(log.records));
      if gone == map[] {
        assert gone.Keys == {};
        NothingGone(owed);
      }
      assert [] + notices == notices && WithIds(notices) + [] == WithIds(notices);
    }

    /** So a live agent that may open turns, no delivery refused and no opening failed, has lost none. */
    lemma NoneLost()
      requires Valid() && desk.active && !oneShot && refusals == 0 && failures == 0
      ensures gone == map[]
    {
      hide Durable, Wakes, Counts;
      assert forall id :: id !in gone;
    }
  }

  lemma GivenNone(gone: map<string, Cause>, cause: Cause)
    ensures Given(gone, [], cause) == gone
  {}

  lemma NothingGone(owed: seq<Message>)
    ensures Without(owed, {}) == owed
  {
    WithoutStranger(owed, {});
  }

  lemma OneDurable(message: Message)
    ensures WithIds([message]) == if message.source.noticeId == "" then [] else [message]
    ensures message.source.noticeId == "" ==> Ids(WithIds([message])) == {}
    ensures forall gone: map<string, Cause>, cause: Cause ::
      message.source.noticeId == "" ==> Given(gone, [message], cause) == gone
  {
    assert [message][1..] == [];
  }

  /** One step of the worker, of a caller, or of whoever else writes the log. */
  method AnyStep(agent: Agent, choice: int, message: Message, record: Record, turn: nat, flag: bool)
    requires agent.Valid()
    modifies agent, agent.log
    ensures agent.Valid()
  {
    hide Order.Valid, Order.Fold, SandboxOwned, Numbered, InStep, AllUser, Wakes, Counts, Plain, Excused;
    var d := agent.desk;
    if choice == 0 && d.active && d.phase == Waiting {
      var claimed := agent.ClaimWake();
    } else if choice == 1 && d.active && d.phase == Waiting && d.queue > 0 {
      agent.Receive();
    } else if choice == 2 && d.active && d.phase in {Claimed, Received} {
      agent.StartTurn();
    } else if choice == 3 && Plain(record) {
      var ok := agent.Commit(record);
    } else if choice == 4 && d.active && d.phase.Turn? && d.phase.begun && agent.inflight == [] {
      agent.Drain();
    } else if choice == 5 && d.active && d.phase.Turn? && agent.inflight != [] && turn > 0
              && Order.Fold(agent.log.records).Some? && Order.Fold(agent.log.records).value.at.turn == turn {
      var ok := agent.Deliver(turn);
    } else if choice == 6 && d.active && d.phase.Turn? && d.phase.submitted {
      agent.OpenSubmitted();
    } else if choice == 7 && d.active && d.phase.Turn? && (d.phase.begun ==> agent.inflight == []) {
      agent.EndTurn(flag);
    } else if choice == 8 && d.active && d.phase.Over? && !d.phase.begun && d.phase.canceled && agent.inflight != [] {
      agent.Restore();
    } else if choice == 9 && d.active && d.phase.Over? && (agent.inflight != [] ==> !d.phase.begun && !d.phase.canceled) {
      agent.Finish();
    } else {
      AnyCall(agent, choice, message, flag);
    }
  }

  method AnyCall(agent: Agent, choice: int, message: Message, flag: bool)
    requires agent.Valid()
    modifies agent, agent.log
    ensures agent.Valid()
  {
    hide Order.Valid, Order.Fold, SandboxOwned, Numbered, InStep, AllUser, Wakes, Counts, Excused;
    var d := agent.desk;
    if choice == 10 {
      agent.Interrupt();
    } else if choice == 11 && d.active {
      var idle := agent.WhenIdle();
    } else if choice == 12 {
      var answer := agent.Reserve(flag);
    } else if choice == 13 && d.active && d.blocked > 0 {
      agent.Send();
    } else if choice == 14 && d.active && d.blocked > 0 {
      agent.Withdraw();
    } else if choice == 15 && WellFormedMessage(message, true) && message.source.noticeId == "" {
      var answer := agent.Notify(message, flag);
    } else if choice == 16 && WellFormedMessage(message, true) && message.source.noticeId == "" && agent.landing == [] {
      var answer, queued := agent.CommitNotice(message);
    } else if choice == 17 && |agent.landing| == 1 {
      LandingIsArriving(agent);
      var answer := agent.Enqueue(agent.landing[0]);
    } else if choice == 18 && d.active && d.phase == Waiting {
      agent.Stop();
    }
  }

  lemma NameNotEmpty(n: nat)
    ensures NoticeName(n) != ""
  {}

  lemma LandingIsArriving(agent: Agent)
    requires agent.Valid() && |agent.landing| == 1
    ensures agent.Arriving(agent.landing[0])
  {
    assert agent.landing == [agent.landing[0]];
  }

  /**
    From its creation on, whatever happens in whatever order: every durable notice the session
    owes is in memory in its order, or was given up for a stated reason, and the wake keeps
    its promises.
   */
  method AnyRun(log: Log, oneShot: bool) returns (agent: Agent)
    requires log.Valid() && SandboxOwned(log.child, log.records) && Numbered(log.records)
    modifies log
    ensures fresh(agent) && agent.log == log && agent.oneShot == oneShot && agent.Valid()
    ensures WithIds(agent.inflight + agent.notices) + agent.landing
         == Without(Pending(OwnEvents(log.records)), agent.gone.Keys)
    ensures agent.desk.active && !oneShot && agent.refusals == 0 && agent.failures == 0 ==> agent.gone == map[]
    ensures agent.desk.active && agent.desk.Idle() ==> agent.desk.idleWaiters == 0
    ensures agent.desk.active && agent.desk.woken ==> agent.notices != []
    ensures agent.desk.active && agent.desk.Idle() && agent.notices != [] ==>
      oneShot || agent.desk.resumed || agent.desk.stopped || agent.desk.withdrawn
  {
    hide Order.Valid, Order.Fold, SandboxOwned, Numbered, InStep, AllUser, Counts, Excused, WithIds, Without, OwnEvents, Pending;
    agent := new Agent(log, oneShot);
    var n :| 0 <= n;
    for i := 0 to n
      invariant fresh(agent) && agent.log == log && agent.oneShot == oneShot && agent.Valid()
    {
      var choice: int, message: Message, record: Record, flag: bool := *, *, *, *;
      var turn :| 0 <= turn;
      AnyStep(agent, choice, message, record, turn, flag);
    }
    agent.QueueIsPending();
    if agent.desk.active && !oneShot && agent.refusals == 0 && agent.failures == 0 {
      agent.NoneLost();
    }
  }
}
