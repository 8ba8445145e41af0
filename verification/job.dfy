/**
  One background job (internal/app/job/service.go): its output as its reader consumes it,
  its lifecycle, and who learns that it settled. Every method is one critical section
  of the service lock.
 */
module Job {
  import opened Utf8
  import opened Decoder
  import opened Ring

  const LIVE_RETAIN: nat := 131072
  const SETTLED_RETAIN: nat := 16384

  datatype Status = Running | Stopping | Completed | Killed | Failed

  predicate Terminal(status: Status) { status.Completed? || status.Killed? || status.Failed? }

  datatype Cause = ByProducer | ByKill | ByTeardown

  datatype Kill = Kill(status: Status, requested: bool)

  datatype Reading = Reading(stdout: Bytes, stderr: Bytes, lossy: bool, result: string, status: Status)

  class Record {
    const ring: Tape
    const reserved: bool   // launched in the foreground
    var cursor: nat
    var status: Status
    var foreground: bool
    var waiters: nat
    var cause: Cause
    var result: string
    var resultDelivered: bool

    ghost var read: nat           // how many appends the reads so far covered
    ghost var gotOut: Bytes       // what they returned on each channel
    ghost var gotErr: Bytes
    ghost var lost: bool          // some read was lossy
    var waiting: set<nat>         // the Wait calls in progress
    ghost var owed: set<nat>      // those of them the settlement released
    ghost var told: set<nat>      // the released ones that have returned
    ghost var released: set<nat>  // the Wait calls the settlement found
    ghost var notices: nat        // completion notices attempted
    ghost var readLive: bool      // a Read came before the settlement
    ghost var stopped: bool       // a Kill or a teardown came before the settlement
    ghost var audible: bool       // the service was not stopping at the settlement

    ghost predicate Valid() reads this, ring { Readable() && Reported() }

    /** The reader's position, and what it got so far. */
    ghost predicate Readable() reads this`cursor, this`read, this`gotOut, this`gotErr, this`lost, ring {
      && ring.Valid() && read <= |ring.history|
      && cursor == Position(ring.history, ring.total, read)
      && (!lost ==> gotOut == Since(ring.history[..read], Stdout, 0) && gotErr == Since(ring.history[..read], Stderr, 0))
    }

    /** Who is told of the settlement: the Waits it found, or one notice, or neither when nobody should be. */
    ghost predicate Reported()
      reads this`status, this`foreground, this`cause, this`waiters, this`waiting, this`owed, this`told, this`released,
            this`notices, this`readLive, this`stopped, this`audible, this`resultDelivered
    {
      if Terminal(status) then
        && waiters == 0 && owed <= waiting && owed !! told && released == owed + told
        && notices == (if (!reserved || readLive) && !stopped && audible && released == {} then 1 else 0)
      else
        && waiters == |waiting| && owed == told == released == {} && notices == 0 && !resultDelivered
        && foreground == (reserved && !readLive) && (stopped <==> cause != ByProducer)
    }

    constructor (foreground: bool)
      ensures Valid() && fresh(ring) && status == Running && this.foreground == foreground
      ensures reserved == foreground && !readLive && !stopped
      ensures cause == ByProducer && waiting == {} && ring.history == [] && gotOut == [] && gotErr == [] && !lost
    {
      ring := new Tape();
      cursor, status, waiters, cause, result, resultDelivered := 0, Running, 0, ByProducer, "", false;
      this.foreground, reserved := foreground, foreground;
      read, gotOut, gotErr, lost, waiting, owed, told, released, notices := 0, [], [], false, {}, {}, {}, {}, 0;
      readLive, stopped, audible := false, false, false;
    }

    // ----- output -----

    /** A producer's decoded text; nothing is kept after settlement. */
    method Write(channel: Channel, data: Bytes)
      requires Valid()
      modifies ring
      ensures Valid()
      ensures if data == [] || Terminal(status) then ring.history == old(ring.history)
              else ring.history == old(ring.history) + [Chunk(old(ring.total), channel, data)]
      ensures if data == [] || Terminal(status) then ring.earliest == old(ring.earliest)
              else ring.retained <= 131072 && ring.earliest >= old(ring.earliest) && ring.Keeps(131072, old(ring.earliest))
    {
      if |data| == 0 || Terminal(status) {
        return;
      }
      hide Since;
      assert (ring.history + [Chunk(ring.total, channel, data)])[..read] == ring.history[..read];
      ring.Append(channel, data, LIVE_RETAIN);
    }

    /**
      What came in since the last read: per channel, in order, every byte appended since
      then but those dropped, which only a lossy read misses. A settled job's first read
      carries its result, and every one of its reads trims.
     */
    method Read() returns (r: Reading)
      requires Valid()
      modifies this, ring
      ensures Valid() && ring.history == old(ring.history) && status == old(status)
      ensures r.stdout == Since(ring.history, Stdout, Max(old(cursor), old(ring.earliest)))
      ensures r.stderr == Since(ring.history, Stderr, Max(old(cursor), old(ring.earliest)))
      ensures r.lossy <==> old(cursor) < old(ring.earliest)
      ensures cursor == ring.total && read == |ring.history| && gotOut == old(gotOut) + r.stdout && gotErr == old(gotErr) + r.stderr
      ensures lost <==> old(lost) || r.lossy
      ensures if Terminal(status) then ring.retained <= 16384 && ring.Keeps(16384, old(ring.earliest))
              else ring.earliest == old(ring.earliest)
      ensures r.status == status && r.result == (if Terminal(status) && !old(resultDelivered) then result else "")
      ensures resultDelivered <==> old(resultDelivered) || Terminal(status)
      ensures !foreground
      ensures waiting == old(waiting) && owed == old(owed) && released == old(released) && notices == old(notices)
      ensures cause == old(cause) && result == old(result) && stopped == old(stopped) && audible == old(audible)
      ensures readLive <==> old(readLive) || !Terminal(status)
    {
      hide Readable, Since, Tape.Valid, Position, Reported;
      var stdout, stderr, lossy := Consume();
      var delivered := HandOver();
      if Terminal(status) {
        TrimSettled();
      }
      r := Reading(stdout, stderr, lossy, delivered, status);
    }

    /** A read's part in who is told: a settled job's result, once, and the end of a foreground reservation. */
    method HandOver() returns (delivered: string)
      requires Reported()
      modifies this`resultDelivered, this`foreground, this`readLive
      ensures Reported() && !foreground && (readLive <==> old(readLive) || !Terminal(status))
      ensures delivered == if Terminal(status) && !old(resultDelivered) then result else ""
      ensures resultDelivered <==> old(resultDelivered) || Terminal(status)
    {
      delivered := "";
      if Terminal(status) && !resultDelivered {
        delivered, resultDelivered := result, true;
      }
      foreground, readLive := false, readLive || !Terminal(status);
    }

    /** Moves the cursor past everything appended. */
    method Consume() returns (stdout: Bytes, stderr: Bytes, lossy: bool)
      requires Readable()
      modifies this`cursor, this`read, this`gotOut, this`gotErr, this`lost
      ensures Readable()
      ensures stdout == Since(ring.history, Stdout, Max(old(cursor), ring.earliest))
      ensures stderr == Since(ring.history, Stderr, Max(old(cursor), ring.earliest))
      ensures lossy <==> old(cursor) < ring.earliest
      ensures cursor == ring.total && read == |ring.history| && gotOut == old(gotOut) + stdout && gotErr == old(gotErr) + stderr
      ensures lost <==> old(lost) || lossy
    {
      hide Since, Tape.Valid, Contiguous;
      stdout, stderr, lossy := Unread();
      WholeHistory(ring.history);
      cursor := ring.total;
      lost := lost || lossy;
      gotOut, gotErr := gotOut + stdout, gotErr + stderr;
      read := |ring.history|;
    }

    /** What the ring still holds past the cursor. */
    method Unread() returns (stdout: Bytes, stderr: Bytes, lossy: bool)
      requires Readable()
      ensures stdout == Since(ring.history, Stdout, Max(cursor, ring.earliest))
      ensures stderr == Since(ring.history, Stderr, Max(cursor, ring.earliest))
      ensures lossy <==> cursor < ring.earliest
      ensures !lost && !lossy ==> gotOut + stdout == Since(ring.history, Stdout, 0) && gotErr + stderr == Since(ring.history, Stderr, 0)
    {
      PositionBoundary(ring.history, ring.total, read);
      assert Contiguous(ring.history, ring.total);
      hide Since, Tape.Valid, Boundary, Contiguous;
      stdout, stderr, lossy := ring.ReadFrom(cursor);
      if !lost && !lossy {
        CaughtUp(ring.history, ring.total, read, ring.earliest, Stdout, gotOut, stdout);
        CaughtUp(ring.history, ring.total, read, ring.earliest, Stderr, gotErr, stderr);
      }
    }

    method TrimSettled()
      requires Readable()
      modifies ring`chunks, ring`retained, ring`earliest
      ensures Readable() && ring.retained <= 16384 && ring.Keeps(16384, old(ring.earliest))
    {
      hide Since;
      ring.Trim(SETTLED_RETAIN);
    }

    // ----- lifecycle -----

    /** The start of a Wait: a settled job is returned at once. */
    method BeginWait(w: nat) returns (settled: bool)
      requires Valid() && w !in waiting
      modifies this`waiting, this`waiters
      ensures Valid() && settled == Terminal(status)
      ensures waiting == if settled then old(waiting) else old(waiting) + {w}
    {
      if Terminal(status) {
        return true;
      }
      waiters := waiters + 1;
      waiting := waiting + {w};
      return false;
    }

    /** The end of a Wait, released, timed out or cancelled: a settled job is reported in any case. */
    method EndWait(w: nat, canceled: bool) returns (view: Status, failed: bool)
      requires Valid() && w in waiting
      modifies this`waiting, this`waiters, this`owed, this`told
      ensures Valid() && view == status
      ensures failed <==> canceled && !Terminal(status)
      ensures w in old(owed) ==> Terminal(view) && !failed
      ensures waiting == old(waiting) - {w} && owed == old(owed) - {w}
    {
      hide Readable, Reported;
      view, failed := status, canceled && !Terminal(status);
      if Terminal(status) {
        EndReleased(w);
      } else {
        EndLive(w);
      }
    }

    /** A Wait that returns before the settlement. */
    method EndLive(w: nat)
      requires Reported() && !Terminal(status) && w in waiting
      modifies this`waiting, this`waiters
      ensures Reported() && waiting == old(waiting) - {w} && owed == old(owed) - {w} && w !in old(owed)
    {
      assert waiting == (waiting - {w}) + {w};
      waiting, waiters := waiting - {w}, waiters - 1;
    }

    /** A Wait that returns after the settlement. */
    method EndReleased(w: nat)
      requires Reported() && Terminal(status) && w in waiting
      modifies this`waiting, this`owed, this`told
      ensures Reported() && waiting == old(waiting) - {w} && owed == old(owed) - {w}
    {
      Returned(owed, told, waiting, w);
      told := told + if w in owed then {w} else {};
      waiting, owed := waiting - {w}, owed - {w};
    }

    /** Kill: a live job is told to stop, a settled one is left unchanged. */
    method RequestKill() returns (kill: Kill)
      requires Valid()
      modifies this`status, this`cause, this`stopped
      ensures Valid() && kill == Kill(status, !Terminal(old(status)))
      ensures if Terminal(old(status)) then status == old(status) && cause == old(cause)
              else status == Stopping && cause == ByKill
      ensures stopped <==> old(stopped) || !Terminal(old(status))
    {
      if Terminal(status) {
        return Kill(status, false);
      }
      status, cause, stopped := Stopping, ByKill, true;
      return Kill(status, true);
    }

    /** The owner goes away, or the service stops. */
    method TearDown()
      requires Valid()
      modifies this`status, this`cause, this`stopped
      ensures Valid()
      ensures if Terminal(old(status)) then status == old(status) && cause == old(cause)
              else status == Stopping && cause == ByTeardown
      ensures stopped <==> old(stopped) || !Terminal(old(status))
    {
      if !Terminal(status) {
        status, cause, stopped := Stopping, ByTeardown, true;
      }
    }

    /** The trim at settlement keeps whatever was not read yet. */
    method KeepUnread()
      requires Readable()
      modifies ring`chunks, ring`retained, ring`earliest
      ensures Readable() && ring.earliest <= Max(cursor, old(ring.earliest))
      ensures ring.retained <= 16384 || ring.retained <= ring.total - cursor
    {
      UnreadKept(ring.history, ring.total, read);
      hide Since;
      var unread := ring.total - cursor;
      ring.Trim(if unread > SETTLED_RETAIN then unread else SETTLED_RETAIN);
    }

    /**
      settle, called once by the producer's goroutine: the job becomes terminal for good, no
      unread byte is dropped, and its owner hears of it either through the Waits in
      progress or through one completion notice, never both.
     */
    method Settle(outcome: Status, outcomeResult: string, live: bool) returns (notify: bool)
      requires Valid() && !Terminal(status)
      modifies this, ring
      ensures Valid() && ring.history == old(ring.history) && cursor == old(cursor) && gotOut == old(gotOut) && gotErr == old(gotErr)
      ensures status == if Terminal(outcome) then outcome else Failed
      ensures Terminal(status) && result == outcomeResult
      ensures ring.earliest <= Max(cursor, old(ring.earliest))
      ensures ring.retained <= 16384 || ring.retained <= ring.total - cursor
      ensures notify <==> !foreground && cause == ByProducer && live && waiting == {}
      ensures owed == released == waiting == old(waiting) && notices == (if notify then 1 else 0)
      ensures foreground == old(foreground) && cause == old(cause)
      ensures readLive == old(readLive) && stopped == old(stopped) && audible == live
    {
      hide Readable, Since, Tape.Valid, Position, Reported;
      KeepUnread();
      notify := Conclude(outcome, outcomeResult, live);
    }

    /** The job's own part of the settlement. */
    method Conclude(outcome: Status, outcomeResult: string, live: bool) returns (notify: bool)
      requires Reported() && !Terminal(status)
      modifies this`status, this`result, this`waiters, this`owed, this`released, this`notices, this`audible
      ensures Reported() && Terminal(status) && status == (if Terminal(outcome) then outcome else Failed)
      ensures result == outcomeResult && owed == released == waiting && audible == live && notices == (if notify then 1 else 0)
      ensures notify <==> !foreground && cause == ByProducer && live && waiting == {}
    {
      status, result := outcome, outcomeResult;
      if !Terminal(outcome) {
        status := Failed;
      }
      var awaited := waiters > 0;
      waiters := 0;
      owed, released, audible := waiting, waiting, live;
      notify := !foreground && !awaited && cause == ByProducer && live;
      notices := if notify then 1 else 0;
    }
  }

  /**
    Whatever writes, reads, waits, kills and teardowns come in whatever order around the one
    settlement: a settled job has sent one completion notice exactly when nobody else answers
    for it (it was in the background or read before, neither killed nor torn down, and no Wait
    was in progress), and every Wait the settlement found has returned or will with it.
   */
  method AnyRun(foreground: bool) returns (job: Record)
    ensures fresh(job) && fresh(job.ring) && job.Valid() && job.reserved == foreground
    ensures !Terminal(job.status) ==> job.notices == 0 && job.released == {}
    ensures Terminal(job.status) ==>
      && (job.notices == 1 <==> (!foreground || job.readLive) && !job.stopped && job.audible && job.released == {})
      && job.notices <= 1 && job.released == job.owed + job.told && job.owed <= job.waiting
    ensures !job.lost ==>
      && job.read <= |job.ring.history|
      && job.gotOut == Since(job.ring.history[..job.read], Stdout, 0)
      && job.gotErr == Since(job.ring.history[..job.read], Stderr, 0)
  {
    job := new Record(foreground);
    hide Since, Position;
    var n :| 0 <= n;
    for i := 0 to n
      invariant fresh(job) && fresh(job.ring) && job.Valid() && job.reserved == foreground
    {
      var choice: int, channel: Channel, data: Bytes, w: nat, flag: bool, outcome: Status, text: string := *, *, *, *, *, *, *;
      AnyStep(job, choice, channel, data, w, flag, outcome, text);
    }
  }

  method AnyStep(job: Record, choice: int, channel: Channel, data: Bytes, w: nat, flag: bool, outcome: Status, text: string)
    requires job.Valid()
    modifies job, job.ring
    ensures job.Valid()
  {
    hide *;
    if choice == 0 {
      job.Write(channel, data);
    } else if choice == 1 {
      var r := job.Read();
    } else if choice == 2 && w !in job.waiting {
      var settled := job.BeginWait(w);
    } else if choice == 3 && w in job.waiting {
      var view, failed := job.EndWait(w, flag);
    } else if choice == 4 {
      var kill := job.RequestKill();
    } else if choice == 5 {
      job.TearDown();
    } else if choice == 6 && !Terminal(job.status) {
      var notify := job.Settle(outcome, text, flag);
    }
  }

  lemma Returned(owed: set<nat>, told: set<nat>, waiting: set<nat>, w: nat)
    requires owed <= waiting && owed !! told
    ensures var left, now := owed - {w}, told + if w in owed then {w} else {};
      left <= waiting - {w} && left !! now && left + now == owed + told
  {}

  /** The offset the first k appends reach. */
  function Position(history: seq<Chunk>, total: nat, k: nat): nat
    requires k <= |history|
  {
    if k == |history| then total else history[k].at
  }

  lemma PositionBoundary(history: seq<Chunk>, total: nat, k: nat)
    requires k <= |history|
    ensures Boundary(history, total, Position(history, total, k))
  {}

  lemma WholeHistory(history: seq<Chunk>)
    ensures history[..|history|] == history
  {}

  /** A read without a loss makes what was got so far everything appended. */
  lemma CaughtUp(history: seq<Chunk>, total: nat, k: nat, earliest: nat, channel: Channel, got: Bytes, text: Bytes)
    requires Contiguous(history, total) && k <= |history| && earliest <= Position(history, total, k)
    requires got == Since(history[..k], channel, 0)
    requires text == Since(history, channel, Max(Position(history, total, k), earliest))
    ensures got + text == Since(history, channel, 0)
  {
    SinceSplits(history, total, channel, 0, k);
  }

  lemma UnreadKept(history: seq<Chunk>, total: nat, k: nat)
    requires Contiguous(history, total) && k <= |history|
    ensures Position(history, total, k) <= total
  {
    if k < |history| {
      Ends(history, total, k);
    }
  }
}
