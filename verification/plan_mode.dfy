/**
  The plan-mode service (internal/app/plan/plan.go): a selection that waits for the next
  step boundary, and its agreement with one variable, the mode the user last asked for.
 */
module PlanModes {
  import opened Records
  import opened Live
  import opened Compaction
  import Plans
  import Surfaces

  const NOTICE_SOURCE := "plan-mode"
  const ENTERED_NOTICE := "The user switched this session to plan mode."
  const LEFT_NOTICE := "The user switched this session back to the default mode."

  datatype Change = Committed | Queued | Cancelled | Unchanged

  function Notice(active: bool): Message {
    Message(Source(NOTICE_SOURCE, "", 0, 0, ""), if active then ENTERED_NOTICE else LEFT_NOTICE)
  }

  /** One session's process-local state; every method runs under its lock. */
  class Selection {
    var active: bool
    var pending: bool
    var target: bool
    var notify: bool

    /** A state is created on the first use, before the log was read. */
    constructor ()
      ensures !active && !pending && !notify
    {
      active, pending, target, notify := false, false, false, false;
    }

    /** The known mode is the recorded one, and a pending selection is a real change. */
    ghost predicate Synced(view: View) reads this {
      active == view.plan.active && (pending ==> target != active)
    }

    /** Nothing selected and the log not read yet, or in step with the log. */
    ghost predicate Valid(view: View) reads this {
      Synced(view) || (!active && !pending && !notify)
    }

    /** The mode the user last asked for. */
    ghost function Desired(view: View): bool reads this {
      if pending then target else view.plan.active
    }

    method Select(s: Session, wanted: bool, inTurn: bool) returns (change: Change, err: Failure)
      requires s.Valid() && !s.turns && Valid(s.View())
      modifies this, s`touched, s.log
      ensures s.Valid() && old(s.log.records) <= s.log.records && s.touched >= old(s.touched) && Valid(s.View())
      ensures err != NoError ==> Aside(old(s.View()), s.View()) && Desired(s.View()) == old(Desired(s.View()))
      ensures err == NoError ==> Synced(s.View()) && Desired(s.View()) == wanted
      ensures err == NoError ==>
        match change
        case Unchanged => old(Desired(s.View())) == wanted && s.View() == old(s.View()) && pending == old(pending)
        case Cancelled => old(pending && target != wanted) && !pending && s.View() == old(s.View())
        case Queued => inTurn && pending && notify && old(Desired(s.View())) != wanted && s.View() == old(s.View())
        case Committed =>
          && !inTurn && !pending && notify && old(Desired(s.View())) != wanted && old(s.View()).plan.active != wanted
          && Aside(After(old(s.View()), PlanMode(0, wanted), 0), s.View())
          && (s.touched == old(s.touched) ==> s.View() == After(old(s.View()), PlanMode(0, wanted), 0))
    {
      hide Order.Valid, Order.Fold, ViewOf, Certain, Possible, Live.Session.Valid, Live.Session.View, After, Beside, Calm;
      change := Unchanged;
      AsideSelf(s.View());
      if * {
        err := AnyFailure();
        return;
      }
      ghost var v := s.View();
      var recorded := s.RecordedPlan();
      err := NoError;
      active := recorded.active;
      var current := if pending then target else active;
      if wanted == current {
        return;
      }
      if wanted == active {
        pending := false;
        change := Cancelled;
      } else if inTurn {
        pending, target, notify := true, wanted, true;
        change := Queued;
      } else {
        err := Switch(s, 0, wanted);
        ModeView(v, 0, wanted, 0);
        if err != NoError {
          return;
        }
        active, pending, notify := wanted, false, true;
        change := Committed;
      }
    }

    /** A step boundary of the turn, before its step opens; returns whether the plan policy applies. */
    method Step(s: Session, turn: nat) returns (policy: bool, err: Failure)
      requires s.Valid() && !s.turns && Valid(s.View())
      modifies this, s`touched, s.log
      ensures s.Valid() && old(s.log.records) <= s.log.records && s.touched >= old(s.touched) && Valid(s.View())
      ensures Desired(s.View()) == old(Desired(s.View()))
      ensures Boundary(s.mine, old(s.View()), s.View())
      ensures s.touched == old(s.touched) ==> s.View().at.compaction == old(s.View()).at.compaction
      ensures err == NoError ==>
        && Synced(s.View()) && !pending && !notify && s.View().plan.active == old(Desired(s.View())) == policy
        && (s.touched == old(s.touched) ==>
              Told(old(s.Own()), old(notify), policy, old(s.View()).nodes, s.View().nodes))
      ensures s.steady && !old(pending) && !old(notify) ==>
        err == NoError && s.log.records == old(s.log.records) && s.touched == old(s.touched)
    {
      hide Order.Valid, Order.Fold, ViewOf, After, Certain, Possible, Live.Session.Valid, Live.Session.View, Live.Session.Own;
      hide Plans.ToldOther, Boundary;
      PlaceStays(s.mine, s.View());
      s.PlanOfOwn();
      Plans.ToldOtherIs(s.Own(), Desired(s.View()));
      policy := false;
      var fails: bool := *;
      if fails && !s.steady {
        err := AnyFailure();
        return;
      }
      ghost var v := s.View();
      var view := s.RecordedPlan();
      err := ApplyPending(s, turn);
      if err != NoError {
        return;
      }
      if notify && view.requested && view.told != active {
        ghost var w := s.View();
        err := Tell(s, turn, active);
        BoundaryTell(s.mine, v, w, s.View());
        if err != NoError {
          return;
        }
      }
      notify := false;
      policy := active;
    }

    /** A pending selection that changes the recorded mode is committed. */
    method ApplyPending(s: Session, turn: nat) returns (err: Failure)
      requires s.Valid() && !s.turns && Valid(s.View())
      modifies this`active, this`pending, s`touched, s.log
      ensures s.Valid() && old(s.log.records) <= s.log.records && s.touched >= old(s.touched) && Valid(s.View())
      ensures Desired(s.View()) == old(Desired(s.View())) && Boundary(s.mine, old(s.View()), s.View())
      ensures s.touched == old(s.touched) ==>
        s.View().at.compaction == old(s.View()).at.compaction && s.View().nodes == old(s.View()).nodes
      ensures err == NoError ==> Synced(s.View()) && !pending && active == s.View().plan.active
      ensures !old(pending) ==> err == NoError && s.log.records == old(s.log.records) && s.touched == old(s.touched)
    {
      hide Order.Valid, Order.Fold, ViewOf, After, Certain, Possible, Live.Session.Valid, Live.Session.View, Boundary;
      PlaceStays(s.mine, s.View());
      ghost var v := s.View();
      var view := s.RecordedPlan();
      err := NoError;
      active := view.active;
      if pending && target != active {
        err := Switch(s, turn, target);
        BoundarySwitch(s.mine, v, s.View(), target);
        if err != NoError {
          return;
        }
        active := target;
      }
      pending := false;
    }

    /** The record that commits a mode. */
    method Switch(s: Session, turn: nat, mode: bool) returns (err: Failure)
      requires s.Valid() && !s.turns
      modifies s`touched, s.log
      ensures s.Valid() && old(s.log.records) <= s.log.records && s.touched >= old(s.touched)
      ensures old(s.View()).at.compaction == s.mine <==> s.View().at.compaction == s.mine
      ensures var v := old(s.View());
        var w := if err == NoError then v.(at := v.at.(plan := mode), plan := v.plan.(active := mode)) else v;
        Aside(w, s.View()) && (s.touched == old(s.touched) ==> s.View() == w)
    {
      ghost var v := s.View();
      hide *;
      var ok, canceled;
      ghost var met;
      ok, canceled, met := Try(s, PlanMode(turn, mode));
      BesideAside(s.mine, v, ViewOf(met));
      ModeView(ViewOf(met), turn, mode, |met| + 1);
      ModeAside(v, ViewOf(met), mode);
      err := NoError;
      if !ok {
        err := AnyFailure();
      }
    }

    /** The notice that the user switched the mode since the last request. */
    method Tell(s: Session, turn: nat, mode: bool) returns (err: Failure)
      requires s.Valid() && !s.turns
      modifies s`touched, s.log
      ensures s.Valid() && old(s.log.records) <= s.log.records && s.touched >= old(s.touched)
      ensures Aside(old(s.View()), s.View()) && (old(s.View()).at.compaction == s.mine <==> s.View().at.compaction == s.mine)
      ensures s.touched == old(s.touched) ==>
        && s.View().at.compaction == old(s.View()).at.compaction
        && if err == NoError then exists n :: s.View().nodes == old(s.View()).nodes + [Surfaces.MessageNode(n, Notice(mode))]
           else s.View().nodes == old(s.View()).nodes
    {
      ghost var v := s.View();
      hide *;
      var ok, canceled;
      ghost var met;
      ok, canceled, met := Try(s, UserMessage(turn, 0, Notice(mode)));
      BesideAside(s.mine, v, ViewOf(met));
      MessageView(ViewOf(met), turn, Notice(mode), |met| + 1);
      MessageAside(v, ViewOf(met), s.View());
      err := NoError;
      if !ok {
        err := AnyFailure();
      }
    }

    /** An approved review: the next boundary will switch back. */
    method Exit(s: Session, created: bool) returns (ok: bool)
      requires s.Valid() && Valid(s.View()) && (!created ==> !active)
      modifies this
      ensures Valid(s.View())
      ensures ok ==> old(active) && pending && !notify && Desired(s.View()) == false
      ensures !ok ==> Desired(s.View()) == old(Desired(s.View()))
    {
      var canceled: bool := *;
      if !created || canceled || !active {
        return false;
      }
      pending, target, notify := true, false, false;
      return true;
    }
  }

  /** A user switch is announced exactly when the session's latest request was made in the other mode. */
  ghost predicate Told(own: seq<Record>, notify: bool, mode: bool, before: seq<Surfaces.Node>, after: seq<Surfaces.Node>) {
    if notify && Plans.ToldOther(own, mode)
    then exists n :: after == before + [Surfaces.MessageNode(n, Notice(mode))]
    else after == before
  }

  /** A boundary changes the mode and shows a notice, nothing else; others may compact beside it. */
  ghost predicate Boundary(mine: string, v: View, w: View) {
    && w.open == v.open && w.pending == v.pending && w.marks == v.marks
    && w.at == v.at.(plan := w.at.plan, compaction := w.at.compaction) && w.plan == v.plan.(active := w.plan.active)
    && (v.at.compaction == mine <==> w.at.compaction == mine)
  }

  lemma PlaceStays(mine: string, v: View)
    ensures Boundary(mine, v, v)
  {}

  lemma BoundarySwitch(mine: string, v: View, w: View, mode: bool)
    requires v.at.compaction == mine <==> w.at.compaction == mine
    requires Aside(v.(at := v.at.(plan := mode), plan := v.plan.(active := mode)), w) || Aside(v, w)
    ensures Boundary(mine, v, w)
  {}

  lemma BoundaryTell(mine: string, v: View, w: View, x: View)
    requires Boundary(mine, v, w) && Aside(w, x) && (w.at.compaction == mine <==> x.at.compaction == mine)
    ensures Boundary(mine, v, x)
  {}

  lemma ModeAside(v: View, w: View, mode: bool)
    requires Aside(v, w)
    ensures Aside(v.(at := v.at.(plan := mode), plan := v.plan.(active := mode)),
                  w.(at := w.at.(plan := mode), plan := w.plan.(active := mode)))
  {}

  lemma MessageAside(v: View, w: View, x: View)
    requires Aside(v, w) && x == w.(nodes := x.nodes)
    ensures Aside(v, x)
  {}

  lemma ModeView(v: View, turn: nat, active: bool, seqNo: nat)
    ensures After(v, PlanMode(turn, active), seqNo)
         == v.(at := v.at.(plan := active), plan := v.plan.(active := active))
  {}

  lemma MessageView(v: View, turn: nat, message: Message, seqNo: nat)
    ensures After(v, UserMessage(turn, 0, message), seqNo)
         == v.(nodes := v.nodes + [Surfaces.MessageNode(seqNo, message)])
  {}

  /** While the session's view of its mode is the validator's, a pending change is always accepted. */
  lemma BoundaryAccepted(v: View, turn: nat, target: bool)
    requires v.plan.active == v.at.plan && target != v.plan.active
    requires v.at.turn == turn && v.at.step == 0
    ensures Certain(v, PlanMode(turn, target))
    ensures forall n :: var w := After(v, PlanMode(turn, target), n); w.plan.active == w.at.plan == target
  {}
}
