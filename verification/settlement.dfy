/**
  settle (internal/app/goal/goal.go): one pass over a session's own events that says
  which goal revisions the turns after a checkpoint stopped, and what that means when
  stated over the events themselves.
 */
module Settlement {
  import opened Records
  import opened Goals
  import opened GoalFacts

  /** pause: the revision whose round was cancelled last; disarm: the revisions stopped in other ways. */
  datatype Stops = Stops(pause: Option<GoalRef>, disarm: seq<GoalRef>)

  const NO_STOPS := Stops(None, [])

  predicate Revoked(stops: Stops, ref: GoalRef) {
    stops.pause == Some(ref) || ref in stops.disarm
  }

  /** Where the scan stands: the current revision, and the round the open turn is. */
  datatype Cursor = Cursor(current: Option<GoalRef>, round: Option<GoalRef>, opening: bool)

  function Follow(c: Cursor, record: Record): Cursor {
    match record
    case GoalChanged(change) => c.(current := if change.Change? then Some(change.snapshot.Ref()) else None)
    case TurnStart(_) => c.(round := None, opening := true)
    case UserMessage(_, _, message) =>
      if !c.opening then c
      else if message.source.kind == GOAL_SOURCE then
        c.(opening := false, round := Some(GoalRef(message.source.goalId, message.source.goalRevision)))
      else c.(opening := false)
    case _ => c
  }

  function CursorAt(events: seq<Record>): Cursor {
    if events == [] then Cursor(None, None, false) else Follow(CursorAt(events[..|events| - 1]), events[|events| - 1])
  }

  predicate Resets(record: Record) {
    record.GoalChanged? && record.change.Change? && record.change.operation in {OpCreate, OpResume}
  }

  predicate StopsTurn(record: Record) {
    record.TurnEnd? && record.outcome in {Canceled, Errored, MaxTokens}
  }

  /** The revision a turn end stops: its own round's, or else the current one. */
  function Stopped(c: Cursor): Option<GoalRef> {
    if c.round.Some? then c.round else c.current
  }

  /** The effect of one event after the checkpoint; c already follows it. */
  function Note(stops: Stops, c: Cursor, record: Record): Stops {
    if Resets(record) then NO_STOPS
    else if !StopsTurn(record) || Stopped(c).None? then stops
    else if record.outcome == Canceled && c.round.Some? then stops.(pause := c.round)
    else
      var ref := Stopped(c).value;
      Stops(if record.outcome != Canceled && stops.pause == Some(ref) then None else stops.pause, stops.disarm + [ref])
  }

  /** The scan with the first skip events before the checkpoint. */
  function Settled(events: seq<Record>, skip: nat): Stops {
    if |events| <= skip then NO_STOPS
    else
      Note(Settled(events[..|events| - 1], skip), CursorAt(events), events[|events| - 1])
  }

  /** The loop; the k-th event of the session has sequence number base + k. */
  method Settle(events: seq<Record>, base: nat, after: nat) returns (stops: Stops)
    ensures stops == Settled(events, if after > base then after - base else 0)
  {
    stops := NO_STOPS;
    var current: Option<GoalRef>, round: Option<GoalRef>, opening := None, None, false;
    ghost var skip := if after > base then after - base else 0;
    for i := 0 to |events|
      invariant stops == Settled(events[..i], skip) && Cursor(current, round, opening) == CursorAt(events[..i])
    {
      assert events[..i + 1][..i] == events[..i];
      var record := events[i];
      match record {
        case GoalChanged(change) =>
          current := None;
          if change.Change? {
            current := Some(change.snapshot.Ref());
          }
        case TurnStart(_) => round, opening := None, true;
        case UserMessage(_, _, message) =>
          if opening {
            opening := false;
            if message.source.kind == GOAL_SOURCE {
              round := Some(GoalRef(message.source.goalId, message.source.goalRevision));
            }
          }
        case _ =>
      }
      if base + i + 1 <= after {
        continue;
      }
      if Resets(record) {
        stops := NO_STOPS;
      } else if record.TurnEnd? && record.outcome == Canceled && round.Some? {
        stops := stops.(pause := round);
      } else if record.TurnEnd? && record.outcome in {Canceled, Errored, MaxTokens} {
        var ref := current;
        if round.Some? {
          ref := round;
        }
        if ref.None? {
          continue;
        }
        if record.outcome != Canceled && stops.pause == ref {
          stops := stops.(pause := None);
        }
        stops := stops.(disarm := stops.disarm + [ref.value]);
      }
    }
    assert events[..|events|] == events;
  }

  // ----- the meaning of the scan -----

  /** Event j is a turn end that stopped this revision. */
  predicate StopsAt(events: seq<Record>, j: nat, ref: GoalRef)
    requires j < |events|
  {
    StopsTurn(events[j]) && Stopped(CursorAt(events[..j])) == Some(ref)
  }

  ghost predicate NoResetAfter(events: seq<Record>, j: nat) {
    forall k :: j < k < |events| ==> !Resets(events[k])
  }

  /** A turn after the checkpoint, with no create or resume since, that stopped this revision. */
  ghost predicate Stop(events: seq<Record>, skip: nat, j: nat, ref: GoalRef) {
    skip <= j < |events| && StopsAt(events, j, ref) && NoResetAfter(events, j)
  }

  ghost predicate StoppedSince(events: seq<Record>, skip: nat, ref: GoalRef) {
    exists j: nat :: Stop(events, skip, j, ref)
  }

  /** Event j is the end of a cancelled round, of whatever revision. */
  predicate CanceledRound(events: seq<Record>, j: nat)
    requires j < |events|
  {
    StopsTurn(events[j]) && events[j].outcome == Canceled && CursorAt(events[..j]).round.Some?
  }

  /** A later round of another revision was cancelled. */
  ghost predicate Replaced(events: seq<Record>, j: nat, ref: GoalRef) {
    exists k: nat :: j < k < |events| && CanceledRound(events, k) && !StopsAt(events, k, ref)
  }

  /** A stop that is no cancelled round, and a cancelled round of this revision that nothing replaced. */
  ghost predicate Firm(events: seq<Record>, skip: nat, ref: GoalRef) {
    exists j: nat :: Stop(events, skip, j, ref) && !CanceledRound(events, j)
  }

  ghost predicate Paused(events: seq<Record>, skip: nat, ref: GoalRef) {
    exists j: nat :: Stop(events, skip, j, ref) && CanceledRound(events, j) && !Replaced(events, j, ref)
  }

  /** An event appended later changes neither what an earlier one was nor, unless it resets, that it counts. */
  lemma Earlier(events: seq<Record>, skip: nat, j: nat, ref: GoalRef)
    requires events != [] && j < |events| - 1
    ensures var front, last := events[..|events| - 1], events[|events| - 1];
      && (Stop(events, skip, j, ref) <==> Stop(front, skip, j, ref) && !Resets(last))
      && (CanceledRound(events, j) <==> CanceledRound(front, j))
      && (StopsAt(events, j, ref) <==> StopsAt(front, j, ref))
      && (Replaced(events, j, ref) <==>
            Replaced(front, j, ref) || (CanceledRound(events, |front|) && !StopsAt(events, |front|, ref)))
  {
    hide CursorAt, Resets, StopsTurn, Stopped;
    var n := |events| - 1;
    var front, last := events[..n], events[n];
    assert forall k :: 0 <= k < n ==> front[..k] == events[..k] && front[k] == events[k];
    assert NoResetAfter(events, j) <==> NoResetAfter(front, j) && !Resets(last) by {
      assert NoResetAfter(front, j) ==> forall k :: j < k < n ==> !Resets(front[k]);
      assert NoResetAfter(events, j) ==> !Resets(events[n]);
    }
    if Replaced(front, j, ref) {
      var k: nat :| j < k < |front| && CanceledRound(front, k) && !StopsAt(front, k, ref);
      assert CanceledRound(events, k) && !StopsAt(events, k, ref);
    }
    if Replaced(events, j, ref) {
      var k: nat :| j < k < |events| && CanceledRound(events, k) && !StopsAt(events, k, ref);
      if k < n {
        assert CanceledRound(front, k) && !StopsAt(front, k, ref);
      }
    }
  }

  lemma Latest(events: seq<Record>, skip: nat, ref: GoalRef)
    requires events != []
    ensures var n := |events| - 1;
      && (Stop(events, skip, n, ref) <==> skip <= n && StopsAt(events, n, ref))
      && !Replaced(events, n, ref) && (StopsAt(events, n, ref) ==> !Resets(events[n]))
  {}

  lemma FirmStep(events: seq<Record>, skip: nat, ref: GoalRef)
    requires events != []
    ensures var n := |events| - 1;
      Firm(events, skip, ref) <==>
        && !Resets(events[n])
        && (Firm(events[..n], skip, ref) || (skip <= n && StopsAt(events, n, ref) && !CanceledRound(events, n)))
  {
    var n := |events| - 1;
    Latest(events, skip, ref);
    forall j: nat | j < n {
      Earlier(events, skip, j, ref);
    }
    hide Stop, StopsAt, CanceledRound, Replaced, Resets;
    if Firm(events, skip, ref) {
      var j: nat :| Stop(events, skip, j, ref) && !CanceledRound(events, j);
      assert j <= n by { StopInRange(events, skip, j, ref); }
    }
    if Firm(events[..n], skip, ref) && !Resets(events[n]) {
      var j: nat :| Stop(events[..n], skip, j, ref) && !CanceledRound(events[..n], j);
      assert j < n by { StopInRange(events[..n], skip, j, ref); }
      assert Stop(events, skip, j, ref) && !CanceledRound(events, j);
    }
  }

  lemma StopInRange(events: seq<Record>, skip: nat, j: nat, ref: GoalRef)
    requires Stop(events, skip, j, ref)
    ensures j < |events|
  {}

  lemma PausedStep(events: seq<Record>, skip: nat, ref: GoalRef)
    requires events != []
    ensures var n := |events| - 1;
      Paused(events, skip, ref) <==>
        && !Resets(events[n])
        && ((Paused(events[..n], skip, ref) && !(CanceledRound(events, n) && !StopsAt(events, n, ref)))
            || (skip <= n && StopsAt(events, n, ref) && CanceledRound(events, n)))
  {
    var n := |events| - 1;
    Latest(events, skip, ref);
    forall j: nat | j < n {
      Earlier(events, skip, j, ref);
    }
    hide Stop, StopsAt, CanceledRound, Replaced, Resets;
    if Paused(events, skip, ref) {
      var j: nat :| Stop(events, skip, j, ref) && CanceledRound(events, j) && !Replaced(events, j, ref);
      assert j <= n by { StopInRange(events, skip, j, ref); }
    }
    if Paused(events[..n], skip, ref) && !Resets(events[n]) {
      var j: nat :| Stop(events[..n], skip, j, ref) && CanceledRound(events[..n], j) && !Replaced(events[..n], j, ref);
      assert j < n by { StopInRange(events[..n], skip, j, ref); }
      assert Stop(events, skip, j, ref) && CanceledRound(events, j);
    }
  }

  /** One event: how the scan's two variables follow the two kinds of stop. */
  lemma NoteStep(stops: Stops, c: Cursor, record: Record, ref: GoalRef, firm: bool, paused: bool)
    requires ref in stops.disarm <==> firm
    requires stops.pause == Some(ref) ==> paused
    requires paused ==> stops.pause == Some(ref) || firm
    ensures var stopped, round := StopsTurn(record) && Stopped(c) == Some(ref), StopsTurn(record) && record.outcome == Canceled && c.round.Some?;
      var next := Note(stops, Follow(c, record), record);
      var firmNow := !Resets(record) && (firm || (stopped && !round));
      var pausedNow := !Resets(record) && ((paused && !(round && !stopped)) || (stopped && round));
      && (ref in next.disarm <==> firmNow)
      && (next.pause == Some(ref) ==> pausedNow)
      && (pausedNow ==> next.pause == Some(ref) || firmNow)
  {}

  lemma {:induction false} Scanned(events: seq<Record>, skip: nat, ref: GoalRef)
    ensures var stops := Settled(events, skip);
      && (ref in stops.disarm <==> Firm(events, skip, ref))
      && (stops.pause == Some(ref) ==> Paused(events, skip, ref))
      && (Paused(events, skip, ref) ==> stops.pause == Some(ref) || Firm(events, skip, ref))
  {
    if |events| <= skip {
      NothingCounts(events, skip, ref);
    } else {
      var n := |events| - 1;
      var front, last := events[..n], events[n];
      Scanned(front, skip, ref);
      FirmStep(events, skip, ref);
      PausedStep(events, skip, ref);
      SettledStep(events, skip);
      StopsAtLast(events, ref);
      hide Firm, Paused, Note, Follow, CursorAt, Stopped, Settled, Resets, StopsTurn, StopsAt, CanceledRound;
      NoteStep(Settled(front, skip), CursorAt(front), last, ref, Firm(front, skip, ref), Paused(front, skip, ref));
    }
  }

  lemma NothingCounts(events: seq<Record>, skip: nat, ref: GoalRef)
    requires |events| <= skip
    ensures Settled(events, skip) == NO_STOPS && !Firm(events, skip, ref) && !Paused(events, skip, ref)
  {}

  lemma StopsAtLast(events: seq<Record>, ref: GoalRef)
    requires events != []
    ensures var n := |events| - 1;
      && (StopsAt(events, n, ref) <==> StopsTurn(events[n]) && Stopped(CursorAt(events[..n])) == Some(ref))
      && (CanceledRound(events, n) <==>
            StopsTurn(events[n]) && events[n].outcome == Canceled && CursorAt(events[..n]).round.Some?)
  {}

  lemma SettledStep(events: seq<Record>, skip: nat)
    requires skip < |events|
    ensures var front, last := events[..|events| - 1], events[|events| - 1];
      Settled(events, skip) == Note(Settled(front, skip), Follow(CursorAt(front), last), last)
  {}

  /**
    What the scan revokes, for every revision and every sequence of events: the revision was
    stopped, after the checkpoint and since the last create or resume, by a turn that was no
    cancelled round, or by a cancelled round that no cancelled round of another revision
    followed.
   */
  lemma RevokedWhen(events: seq<Record>, skip: nat, ref: GoalRef)
    ensures Revoked(Settled(events, skip), ref) <==>
            exists j: nat :: Stop(events, skip, j, ref) && (CanceledRound(events, j) ==> !Replaced(events, j, ref))
  {
    Scanned(events, skip, ref);
    hide Settled, Stop, CanceledRound, Replaced;
  }

  /**
    So the scan is about every stop exactly unless this revision was stopped by cancelled
    rounds alone, and the last of them was followed by a cancelled round of another revision.
   */
  lemma StopsRevokeUnless(events: seq<Record>, skip: nat, ref: GoalRef)
    ensures (Revoked(Settled(events, skip), ref) <==> StoppedSince(events, skip, ref)) <==> !Overtaken(events, skip, ref)
  {
    RevokedWhen(events, skip, ref);
    if Overtaken(events, skip, ref) {
      var k: nat :| k < |events| && CanceledRound(events, k) && !StopsAt(events, k, ref) && AllBefore(events, skip, k, ref);
      hide Settled, Stop, CanceledRound, StopsAt;
      assert forall j: nat :: Stop(events, skip, j, ref) ==> CanceledRound(events, j) && Replaced(events, j, ref);
    }
    if StoppedSince(events, skip, ref) && !Revoked(Settled(events, skip), ref) {
      hide Settled, CanceledRound, StopsAt;
      var last := LastStop(events, skip, |events|, ref);
      assert Replaced(events, last, ref);
      var k: nat :| last < k < |events| && CanceledRound(events, k) && !StopsAt(events, k, ref);
      assert AllBefore(events, skip, k, ref);
    }
  }

  ghost predicate AllBefore(events: seq<Record>, skip: nat, k: nat, ref: GoalRef) {
    forall j: nat :: Stop(events, skip, j, ref) ==> j < k && CanceledRound(events, j)
  }

  /** Stopped, by cancelled rounds alone, all before one cancelled round of another revision. */
  ghost predicate Overtaken(events: seq<Record>, skip: nat, ref: GoalRef) {
    && StoppedSince(events, skip, ref)
    && exists k: nat :: k < |events| && CanceledRound(events, k) && !StopsAt(events, k, ref) && AllBefore(events, skip, k, ref)
  }

  lemma {:induction false} LastStop(events: seq<Record>, skip: nat, n: nat, ref: GoalRef) returns (last: nat)
    requires exists j: nat :: j < n && Stop(events, skip, j, ref)
    ensures last < n && Stop(events, skip, last, ref)
    ensures forall j: nat :: j < n && Stop(events, skip, j, ref) ==> j <= last
  {
    hide Stop;
    if Stop(events, skip, n - 1, ref) {
      last := n - 1;
    } else {
      last := LastStop(events, skip, n - 1, ref);
    }
  }

  // ----- stops without the cursor -----

  /** A turn started here and is the latest. */
  ghost predicate LatestStart(events: seq<Record>, i: nat) {
    i < |events| && events[i].TurnStart? && forall k :: i < k < |events| ==> !events[k].TurnStart?
  }

  /** The latest turn has no user message yet. */
  ghost predicate Unopened(events: seq<Record>) {
    exists i: nat :: LatestStart(events, i) && forall k :: i < k < |events| ==> !events[k].UserMessage?
  }

  /** The first user message of the turn started at i is at k and opens a round of this revision. */
  ghost predicate OpensRound(events: seq<Record>, i: nat, k: nat, ref: GoalRef) {
    && LatestStart(events, i) && i < k < |events| && events[k].UserMessage?
    && events[k].message.source.kind == GOAL_SOURCE
    && ref == GoalRef(events[k].message.source.goalId, events[k].message.source.goalRevision)
    && forall m :: i < m < k ==> !events[m].UserMessage?
  }

  /** The latest turn is a round of this revision. */
  ghost predicate RoundOf(events: seq<Record>, ref: GoalRef) {
    exists i: nat, k: nat :: OpensRound(events, i, k, ref)
  }

  ghost predicate SetAt(events: seq<Record>, i: nat, ref: GoalRef) {
    && i < |events| && events[i].GoalChanged? && events[i].change.Change? && events[i].change.snapshot.Ref() == ref
    && forall k :: i < k < |events| ==> !events[k].GoalChanged?
  }

  /** The latest goal change set this revision. */
  ghost predicate CurrentIn(events: seq<Record>, ref: GoalRef) {
    exists i: nat :: SetAt(events, i, ref)
  }

  lemma UnopenedSnoc(events: seq<Record>, record: Record)
    ensures Unopened(events + [record]) <==> record.TurnStart? || (Unopened(events) && !record.UserMessage?)
  {
    var next, n := events + [record], |events|;
    assert next[n] == record && forall i :: 0 <= i < n ==> next[i] == events[i];
    if record.TurnStart? {
      assert LatestStart(next, n);
    }
    if i: nat :| LatestStart(events, i) && forall k :: i < k < n ==> !events[k].UserMessage? {
      if !record.UserMessage? && !record.TurnStart? {
        assert LatestStart(next, i);
      }
    }
    if i: nat :| LatestStart(next, i) && forall k :: i < k < n + 1 ==> !next[k].UserMessage? {
      if i < n {
        assert LatestStart(events, i) by {
          assert forall k :: i < k < n ==> !next[k].TurnStart?;
        }
        assert forall k :: i < k < n ==> !next[k].UserMessage?;
        assert !next[n].UserMessage?;
      }
    }
  }

  /** A record that opens the latest turn with a round. */
  ghost predicate Rounds(record: Record, ref: GoalRef) {
    && record.UserMessage? && record.message.source.kind == GOAL_SOURCE
    && ref == GoalRef(record.message.source.goalId, record.message.source.goalRevision)
  }

  lemma RoundSnoc(events: seq<Record>, record: Record, ref: GoalRef)
    ensures RoundOf(events + [record], ref) <==>
      !record.TurnStart? && (RoundOf(events, ref) || (Unopened(events) && Rounds(record, ref)))
  {
    var next, n := events + [record], |events|;
    assert next[n] == record && forall i :: 0 <= i < n ==> next[i] == events[i];
    if i: nat, k: nat :| OpensRound(events, i, k, ref) {
      if !record.TurnStart? {
        assert OpensRound(next, i, k, ref);
      }
    }
    if Unopened(events) && Rounds(record, ref) {
      var i: nat :| LatestStart(events, i) && forall k :: i < k < n ==> !events[k].UserMessage?;
      assert OpensRound(next, i, n, ref);
    }
    if i: nat, k: nat :| OpensRound(next, i, k, ref) {
      assert !next[n].TurnStart?;
      assert LatestStart(events, i) by {
        assert forall m :: i < m < n ==> !next[m].TurnStart?;
      }
      assert forall m :: i < m < k ==> !next[m].UserMessage?;
      assert k < n ==> OpensRound(events, i, k, ref);
    }
  }

  lemma CurrentSnoc(events: seq<Record>, record: Record, ref: GoalRef)
    ensures CurrentIn(events + [record], ref) <==>
      if record.GoalChanged? then record.change.Change? && record.change.snapshot.Ref() == ref else CurrentIn(events, ref)
  {
    var next, n := events + [record], |events|;
    assert next[n] == record && forall i :: 0 <= i < n ==> next[i] == events[i];
    if record.GoalChanged? && record.change.Change? && record.change.snapshot.Ref() == ref {
      assert SetAt(next, n, ref);
    }
    if i: nat :| SetAt(events, i, ref) {
      assert !record.GoalChanged? ==> SetAt(next, i, ref);
    }
    if i: nat :| SetAt(next, i, ref) {
      assert i < n ==> !next[n].GoalChanged?;
      assert i < n ==> SetAt(events, i, ref) by {
        assert forall k :: i < k < n ==> !next[k].GoalChanged?;
      }
    }
  }

  lemma RoundsOpened(events: seq<Record>)
    ensures Unopened(events) ==> forall ref :: !RoundOf(events, ref)
  {
    if Unopened(events) {
      var i: nat :| LatestStart(events, i) && forall k :: i < k < |events| ==> !events[k].UserMessage?;
      forall ref, j: nat, k: nat ensures !OpensRound(events, j, k, ref) {
        assert LatestStart(events, j) ==> j == i;
      }
    }
  }

  /** What the cursor holds, over the events before it. */
  lemma {:induction false} CursorIs(events: seq<Record>)
    ensures var c := CursorAt(events);
      && (c.opening <==> Unopened(events))
      && (forall ref :: c.round == Some(ref) <==> RoundOf(events, ref))
      && (forall ref :: c.current == Some(ref) <==> CurrentIn(events, ref))
  {
    if events != [] {
      var front, last := events[..|events| - 1], events[|events| - 1];
      assert events == front + [last];
      CursorIs(front);
      RoundsOpened(front);
      UnopenedSnoc(front, last);
      hide Unopened, RoundOf, CurrentIn;
      forall ref
        ensures CursorAt(events).round == Some(ref) <==> RoundOf(events, ref)
        ensures CursorAt(events).current == Some(ref) <==> CurrentIn(events, ref)
      {
        RoundSnoc(front, last, ref);
        CurrentSnoc(front, last, ref);
      }
    }
  }

  /**
    Which turn ends stop a revision: those that end a turn cancelled, failed or truncated, when
    the turn was a round of that revision, or was no round and the latest change had set it.
   */
  lemma StopsAtIs(events: seq<Record>, j: nat, ref: GoalRef)
    requires j < |events|
    ensures StopsAt(events, j, ref) <==>
      && events[j].TurnEnd? && (events[j].outcome == Canceled || events[j].outcome == Errored || events[j].outcome == MaxTokens)
      && (RoundOf(events[..j], ref) || ((forall other :: !RoundOf(events[..j], other)) && CurrentIn(events[..j], ref)))
    ensures CanceledRound(events, j) <==> events[j].TurnEnd? && events[j].outcome == Canceled && exists other :: RoundOf(events[..j], other)
  {
    CursorIs(events[..j]);
    hide RoundOf, CurrentIn, CursorAt;
  }

  /** A turn after the checkpoint that stopped this revision, with no goal created or resumed since. */
  lemma StopIs(events: seq<Record>, skip: nat, j: nat, ref: GoalRef)
    ensures Stop(events, skip, j, ref) <==>
      && skip <= j < |events| && StopsAt(events, j, ref)
      && forall k :: j < k < |events| && events[k].GoalChanged? && events[k].change.Change? ==>
           events[k].change.operation != OpCreate && events[k].change.operation != OpResume
  {
    hide StopsAt;
  }

  // ----- the current revision -----

  /** This revision was current at some point of the history with this goal state. */
  predicate Known(s: GoalState, ref: GoalRef) {
    ref.id in s.seen && (s.goal.Some? && s.goal.value.id == ref.id ==> ref.revision <= s.goal.value.revision)
  }

  function CurrentRef(s: GoalState): Option<GoalRef> {
    if s.goal.Some? then Some(s.goal.value.Ref()) else None
  }

  /** The scan's cursor speaks of revisions that were current. */
  ghost predicate Remembers(s: GoalState, c: Cursor) {
    && c.current == CurrentRef(s) && (s.goal.Some? ==> s.goal.value.id in s.seen)
    && (c.round.Some? ==> Known(s, c.round.value))
  }

  /** A revision once current is current or gone for good. */
  lemma KnownStays(s: GoalState, record: Record, ref: GoalRef)
    requires Apply(s, record).Some? && Known(s, ref)
    ensures var t := Apply(s, record).value;
      Known(t, ref) && (CurrentRef(s) != Some(ref) ==> CurrentRef(t) != Some(ref))
  {}

  lemma RememberStep(s: GoalState, c: Cursor, record: Record)
    requires Remembers(s, c) && Apply(s, record).Some?
    ensures Remembers(Apply(s, record).value, Follow(c, record))
  {
    if c.round.Some? {
      KnownStays(s, record, c.round.value);
    }
  }

  lemma {:induction false} AlwaysRemembers(events: seq<Record>)
    requires Project(events).Some?
    ensures Remembers(Project(events).value, CursorAt(events))
  {
    if events != [] {
      var front, last := events[..|events| - 1], events[|events| - 1];
      AlwaysRemembers(front);
      hide Remembers, Follow, Apply;
      RememberStep(Project(front).value, CursorAt(front), last);
    }
  }

  /** After a turn stopped a revision, a round of another one means that the first is no longer current. */
  ghost predicate Past(s: GoalState, c: Cursor, ref: GoalRef, replaced: bool) {
    && Known(s, ref)
    && (c.round.Some? && c.round != Some(ref) ==> CurrentRef(s) != Some(ref))
    && (replaced ==> CurrentRef(s) != Some(ref))
  }

  lemma PastStep(s: GoalState, c: Cursor, ref: GoalRef, replaced: bool, record: Record)
    requires Past(s, c, ref, replaced) && Remembers(s, c) && Apply(s, record).Some?
    ensures Past(Apply(s, record).value, Follow(c, record), ref,
                 replaced || (StopsTurn(record) && c.round.Some? && Stopped(c) != Some(ref)))
  {
    KnownStays(s, record, ref);
  }

  lemma PastStart(s: GoalState, c: Cursor, ref: GoalRef, record: Record)
    requires Remembers(s, c) && Apply(s, record).Some? && StopsTurn(record) && Stopped(c) == Some(ref)
    ensures Past(Apply(s, record).value, Follow(c, record), ref, false)
  {}

  lemma {:induction false} AfterStop(events: seq<Record>, j: nat, ref: GoalRef)
    requires Project(events).Some? && j < |events| && StopsAt(events, j, ref)
    ensures Past(Project(events).value, CursorAt(events), ref, Replaced(events, j, ref))
  {
    var n := |events| - 1;
    var front, last := events[..n], events[n];
    assert Project(front).Some? && Project(events) == Apply(Project(front).value, last);
    AlwaysRemembers(front);
    StopsAtLast(events, ref);
    if j == n {
      Latest(events, 0, ref);
      hide Past, Remembers, Follow, Apply, Replaced, StopsAt, Project;
      PastStart(Project(front).value, CursorAt(front), ref, last);
    } else {
      Earlier(events, 0, j, ref);
      AfterStop(front, j, ref);
      hide Past, Remembers, Follow, Apply, Replaced, StopsAt, CanceledRound, Stop, Project, StopsTurn, Stopped;
      PastStep(Project(front).value, CursorAt(front), ref, Replaced(front, j, ref), last);
      PastWeakens(events, ref, Replaced(front, j, ref) || (StopsTurn(last) && CursorAt(front).round.Some? && Stopped(CursorAt(front)) != Some(ref)),
                  Replaced(events, j, ref));
    }
  }

  lemma PastWeakens(events: seq<Record>, ref: GoalRef, strong: bool, weak: bool)
    requires Project(events).Some? && Past(Project(events).value, CursorAt(events), ref, strong) && (weak ==> strong)
    ensures Past(Project(events).value, CursorAt(events), ref, weak)
  {
    hide Known, CursorAt, Project, CurrentRef;
  }

  /**
    On every history the goal rules accept, the scan revokes the current revision exactly
    when some turn since the last create or resume, after the checkpoint, ended cancelled,
    failed or truncated and was a round of that revision, or was no round and ended while
    that revision was current.
   */
  lemma RevokedExactly(events: seq<Record>, skip: nat, ref: GoalRef)
    requires Project(events).Some? && CurrentRef(Project(events).value) == Some(ref)
    ensures Revoked(Settled(events, skip), ref) <==> StoppedSince(events, skip, ref)
  {
    RevokedWhen(events, skip, ref);
    forall j: nat | Stop(events, skip, j, ref) ensures !Replaced(events, j, ref) {
      AfterStop(events, j, ref);
    }
  }

  /** The scan speaks only of revisions that were current. */
  lemma RevokedWasKnown(events: seq<Record>, skip: nat, ref: GoalRef)
    requires Project(events).Some? && Revoked(Settled(events, skip), ref)
    ensures Known(Project(events).value, ref)
  {
    RevokedWhen(events, skip, ref);
    var j: nat :| Stop(events, skip, j, ref) && (CanceledRound(events, j) ==> !Replaced(events, j, ref));
    AfterStop(events, j, ref);
  }

  /** Moving the checkpoint later only shrinks what is revoked, for every revision and every history. */
  lemma {:induction false} LaterCheckpoint(events: seq<Record>, early: nat, late: nat, ref: GoalRef)
    requires early <= late && Revoked(Settled(events, late), ref)
    ensures Revoked(Settled(events, early), ref)
  {
    LaterStops(events, early, late);
  }

  lemma {:induction false} LaterStops(events: seq<Record>, early: nat, late: nat)
    requires early <= late
    ensures var wide, narrow := Settled(events, early), Settled(events, late);
      && (narrow.pause.Some? ==> wide.pause == narrow.pause)
      && forall ref :: ref in narrow.disarm ==> ref in wide.disarm
  {
    if |events| > late {
      LaterStops(events[..|events| - 1], early, late);
      hide CursorAt;
    }
  }

  /** A create or resume after both checkpoints makes their difference irrelevant. */
  lemma {:induction false} ResetForgets(events: seq<Record>, early: nat, late: nat, k: nat)
    requires early <= k && late <= k < |events| && Resets(events[k])
    ensures Settled(events, early) == Settled(events, late)
  {
    if k < |events| - 1 {
      ResetForgets(events[..|events| - 1], early, late, k);
      hide CursorAt, Note;
    }
  }

  const FIRST := GoalSnapshot("goal-a", 1, "aim", Active, None, 5)
  const SECOND := FIRST.(revision := 2, objective := "better aim")

  /** Two rounds of one goal, edited between them, each cancelled. */
  const TWICE_CANCELED: seq<Record> := [
    GoalChanged(Change(OpCreate, FIRST, 0, 1, 1)),
    TurnStart(1), UserMessage(1, 0, Message(Source(GOAL_SOURCE, "goal-a", 1, 1, ""), "")), TurnEnd(1, Canceled),
    GoalChanged(Change(OpEdit, SECOND, 1, 1, 2)),
    TurnStart(2), UserMessage(2, 0, Message(Source(GOAL_SOURCE, "goal-a", 2, 2, ""), "")), TurnEnd(2, Canceled)]

  /**
    For a revision that is no longer current the statement fails: a cancelled round of a
    later revision takes the place of the pause an earlier one left.
   */
  lemma SupersededPause()
    ensures Project(TWICE_CANCELED).Some? && StoppedSince(TWICE_CANCELED, 0, FIRST.Ref())
    ensures !Revoked(Settled(TWICE_CANCELED, 0), FIRST.Ref())
  {
    var e, r1 := TWICE_CANCELED, FIRST.Ref();
    FirstCanceled();
    SecondCanceled();
    NoMoreResets();
    WholeHistory();
    hide *;
    StoppedBy(e, 3, r1);
    assert r1 != SECOND.Ref() by { Superseded(); }
    OnlyPause(SECOND.Ref(), r1);
  }

  lemma StoppedBy(events: seq<Record>, j: nat, ref: GoalRef)
    requires j < |events| && StopsAt(events, j, ref) && NoResetAfter(events, j)
    ensures StoppedSince(events, 0, ref)
  {
    assert Stop(events, 0, j, ref);
  }

  lemma NoMoreResets()
    ensures |TWICE_CANCELED| == 8 && NoResetAfter(TWICE_CANCELED, 3)
  {}

  lemma WholeHistory()
    ensures |TWICE_CANCELED| == 8 && TWICE_CANCELED[..8] == TWICE_CANCELED
  {}

  lemma Superseded()
    ensures FIRST.Ref() != SECOND.Ref()
  {}

  lemma OnlyPause(pause: GoalRef, ref: GoalRef)
    requires pause != ref
    ensures !Revoked(Stops(Some(pause), []), ref)
  {}

  lemma SecondCanceled()
    ensures var e := TWICE_CANCELED;
      Project(e[..8]).Some? && Settled(e[..8], 0) == Stops(Some(SECOND.Ref()), [])
  {
    SecondRound();
    var e, r1, r2 := TWICE_CANCELED, FIRST.Ref(), SECOND.Ref();
    hide CursorAt, StopsAt, Settled, Project;
    Unroll(e, 7, GoalState(Some(SECOND), 2, 1, 2, {"goal-a"}), Cursor(Some(r2), Some(r2), false), Stops(Some(r1), []));
  }

  lemma SecondRound()
    ensures var e, r1, r2 := TWICE_CANCELED, FIRST.Ref(), SECOND.Ref();
      && Project(e[..7]) == Some(GoalState(Some(SECOND), 2, 1, 2, {"goal-a"}))
      && CursorAt(e[..7]) == Cursor(Some(r2), Some(r2), false) && Settled(e[..7], 0) == Stops(Some(r1), [])
  {
    Edited();
    var e, r1, r2 := TWICE_CANCELED, FIRST.Ref(), SECOND.Ref();
    hide CursorAt, StopsAt, Settled, Project;
    Unroll(e, 6, GoalState(Some(SECOND), 1, 1, 2, {"goal-a"}), Cursor(Some(r2), None, true), Stops(Some(r1), []));
  }

  lemma Edited()
    ensures var e, r1, r2 := TWICE_CANCELED, FIRST.Ref(), SECOND.Ref();
      && Project(e[..6]) == Some(GoalState(Some(SECOND), 1, 1, 2, {"goal-a"}))
      && CursorAt(e[..6]) == Cursor(Some(r2), None, true) && Settled(e[..6], 0) == Stops(Some(r1), [])
  {
    FirstCanceled();
    var e, r1, r2 := TWICE_CANCELED, FIRST.Ref(), SECOND.Ref();
    hide CursorAt, StopsAt, Settled, Project;
    Unroll(e, 4, GoalState(Some(FIRST), 1, 1, 1, {"goal-a"}), Cursor(Some(r1), Some(r1), false), Stops(Some(r1), []));
    Unroll(e, 5, GoalState(Some(SECOND), 1, 1, 2, {"goal-a"}), Cursor(Some(r2), Some(r1), false), Stops(Some(r1), []));
  }

  lemma FirstCanceled()
    ensures var e, r1 := TWICE_CANCELED, FIRST.Ref();
      && Project(e[..4]) == Some(GoalState(Some(FIRST), 1, 1, 1, {"goal-a"}))
      && CursorAt(e[..4]) == Cursor(Some(r1), Some(r1), false)
      && Settled(e[..4], 0) == Stops(Some(r1), []) && StopsAt(e, 3, r1)
  {
    var e, r1 := TWICE_CANCELED, FIRST.Ref();
    var s1 := GoalState(Some(FIRST), 0, 1, 1, {"goal-a"});
    assert {} + {"goal-a"} == {"goal-a"};
    Unroll(e, 0, NO_GOALS, Cursor(None, None, false), NO_STOPS);
    Unroll(e, 1, s1, Cursor(Some(r1), None, false), NO_STOPS);
    Unroll(e, 2, s1, Cursor(Some(r1), None, true), NO_STOPS);
    Unroll(e, 3, s1.(roundsStarted := 1), Cursor(Some(r1), Some(r1), false), NO_STOPS);
  }

  /** One event of a concrete history. */
  lemma Unroll(events: seq<Record>, n: nat, s: GoalState, c: Cursor, stops: Stops)
    requires n < |events|
    requires Project(events[..n]) == Some(s) && CursorAt(events[..n]) == c && Settled(events[..n], 0) == stops
    ensures Project(events[..n + 1]) == Apply(s, events[n]) && CursorAt(events[..n + 1]) == Follow(c, events[n])
    ensures Settled(events[..n + 1], 0) == Note(stops, Follow(c, events[n]), events[n])
  {
    assert events[..n + 1][..n] == events[..n];
    hide Apply, Follow, Note;
  }
}
