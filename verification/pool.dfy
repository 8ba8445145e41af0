/**
  Capacity of the continuable subagent pools (internal/app/subagent/service.go): slots
  reserved by creations in flight, resident children, and placeholders of resumes.
  Every method is one critical section of the service lock.
 */
module Pool {

  const MAX_ACTIVE: nat := 8

  /** A resident child, or the closing placeholder that holds a resume's slot; pool is empty for one-shot children. */
  datatype Child = Child(parent: string, continuable: bool, pool: string, closing: bool, placeholder: bool)

  datatype Verdict = Ok | NotRunning | LimitReached | ParentClosing | Failed

  function Members(children: map<string, Child>, pool: string): set<string> {
    set id | id in children && children[id].pool == pool
  }

  lemma MembersAdd(children: map<string, Child>, id: string, child: Child, pool: string)
    requires id !in children
    ensures |Members(children[id := child], pool)| == |Members(children, pool)| + if child.pool == pool then 1 else 0
  {
    var before, after := Members(children, pool), Members(children[id := child], pool);
    if child.pool == pool {
      assert after == before + {id};
    } else {
      assert after == before;
    }
  }

  lemma MembersRemove(children: map<string, Child>, id: string, pool: string)
    requires id in children
    ensures |Members(children - {id}, pool)| == |Members(children, pool)| - if children[id].pool == pool then 1 else 0
  {
    var before, after := Members(children, pool), Members(children - {id}, pool);
    if children[id].pool == pool {
      assert before == after + {id};
    } else {
      assert after == before;
    }
  }

  lemma MembersSame(children: map<string, Child>, id: string, child: Child, pool: string)
    requires id in children && child.pool == children[id].pool
    ensures Members(children[id := child], pool) == Members(children, pool)
  {}

  function Slots(reserved: map<string, nat>, pool: string): nat {
    if pool in reserved then reserved[pool] else 0
  }

  /** What a pool uses: reservations in flight, resident children and placeholders. */
  function Load(children: map<string, Child>, reserved: map<string, nat>, pool: string): nat {
    Slots(reserved, pool) + |Members(children, pool)|
  }

  ghost predicate Bounded(children: map<string, Child>, reserved: map<string, nat>) {
    forall pool :: pool != "" ==> Load(children, reserved, pool) <= MAX_ACTIVE
  }

  /** The creations in flight that hold a slot of this pool. */
  function Holders(creating: map<nat, string>, pool: string): set<nat> {
    set ticket | ticket in creating && creating[ticket] == pool
  }

  lemma HoldersAdd(creating: map<nat, string>, ticket: nat, pool: string, other: string)
    requires ticket !in creating
    ensures |Holders(creating[ticket := pool], other)| == |Holders(creating, other)| + if other == pool then 1 else 0
  {
    var before, after := Holders(creating, other), Holders(creating[ticket := pool], other);
    if other == pool {
      assert after == before + {ticket};
    } else {
      assert after == before;
    }
  }

  lemma HoldersRemove(creating: map<nat, string>, ticket: nat, other: string)
    requires ticket in creating
    ensures |Holders(creating - {ticket}, other)| == |Holders(creating, other)| - if other == creating[ticket] then 1 else 0
  {
    var before, after := Holders(creating, other), Holders(creating - {ticket}, other);
    if other == creating[ticket] {
      assert before == after + {ticket};
    } else {
      assert after == before;
    }
  }

  /** The counters are exactly the reservations in flight, and none is kept at zero. */
  ghost predicate Exact(reserved: map<string, nat>, creating: map<nat, string>) {
    && (forall pool :: pool in reserved ==> reserved[pool] > 0)
    && (forall pool :: |Holders(creating, pool)| == Slots(reserved, pool))
  }

  /** Exactly the closing handles have an operation in flight that will remove them. */
  ghost predicate Attended(children: map<string, Child>, owner: map<string, nat>) {
    && (forall id :: id in owner <==> id in children && children[id].closing)
    && (forall id :: id in children && children[id].placeholder ==> children[id].closing)
  }

  /** The creations in flight for a pool and its resident children are never more than eight. */
  lemma AtMostEight(children: map<string, Child>, reserved: map<string, nat>, creating: map<nat, string>, pool: string)
    requires Bounded(children, reserved) && Exact(reserved, creating) && pool != ""
    ensures |set ticket | ticket in creating && creating[ticket] == pool|
          + |set id | id in children && children[id].pool == pool| <= 8
  {
    assert Load(children, reserved, pool) <= MAX_ACTIVE && |Holders(creating, pool)| == Slots(reserved, pool);
    assert (set ticket | ticket in creating && creating[ticket] == pool) == Holders(creating, pool);
    assert (set id | id in children && children[id].pool == pool) == Members(children, pool);
  }

  /** With no operation in flight nothing is reserved, and no placeholder or closing handle is left. */
  lemma NothingLeaks(children: map<string, Child>, reserved: map<string, nat>, creating: map<nat, string>, owner: map<string, nat>)
    requires Exact(reserved, creating) && Attended(children, owner)
    requires creating == map[] && owner == map[]
    ensures reserved == map[]
    ensures forall id :: id in children ==> !children[id].closing && !children[id].placeholder
    ensures forall pool :: Load(children, reserved, pool) == |Members(children, pool)|
  {
    forall pool ensures pool !in reserved {
      assert Holders(creating, pool) == {};
      assert |Holders(creating, pool)| == Slots(reserved, pool);
    }
  }

  function Plus(reserved: map<string, nat>, pool: string): map<string, nat> {
    reserved[pool := Slots(reserved, pool) + 1]
  }

  /** unreserveLocked's counter: a pool without reservations is forgotten. */
  function Minus(reserved: map<string, nat>, pool: string): map<string, nat>
    requires pool in reserved && reserved[pool] > 0
  {
    if reserved[pool] == 1 then reserved - {pool} else reserved[pool := reserved[pool] - 1]
  }

  lemma ReserveKeeps(children: map<string, Child>, reserved: map<string, nat>, creating: map<nat, string>, ticket: nat, pool: string)
    requires Bounded(children, reserved) && Exact(reserved, creating)
    requires ticket !in creating && Load(children, reserved, pool) < MAX_ACTIVE
    ensures Bounded(children, Plus(reserved, pool)) && Exact(Plus(reserved, pool), creating[ticket := pool])
  {
    forall other | other != "" ensures Load(children, Plus(reserved, pool), other) <= MAX_ACTIVE {
      assert Load(children, reserved, other) <= MAX_ACTIVE;
    }
    forall other ensures |Holders(creating[ticket := pool], other)| == Slots(Plus(reserved, pool), other) {
      HoldersAdd(creating, ticket, pool, other);
      assert |Holders(creating, other)| == Slots(reserved, other);
    }
  }

  lemma UnreserveKeeps(children: map<string, Child>, reserved: map<string, nat>, creating: map<nat, string>, ticket: nat)
    requires Bounded(children, reserved) && Exact(reserved, creating) && ticket in creating
    ensures var pool := creating[ticket];
      && pool in reserved && reserved[pool] > 0
      && Bounded(children, Minus(reserved, pool)) && Exact(Minus(reserved, pool), creating - {ticket})
      && forall other :: Load(children, Minus(reserved, pool), other)
                      == Load(children, reserved, other) - if other == pool then 1 else 0
  {
    var pool := creating[ticket];
    assert ticket in Holders(creating, pool);
    assert |Holders(creating, pool)| == Slots(reserved, pool);
    forall other
      ensures Load(children, Minus(reserved, pool), other) == Load(children, reserved, other) - if other == pool then 1 else 0
    {}
    forall other | other != "" ensures Load(children, Minus(reserved, pool), other) <= MAX_ACTIVE {
      assert Load(children, reserved, other) <= MAX_ACTIVE;
    }
    forall other ensures |Holders(creating - {ticket}, other)| == Slots(Minus(reserved, pool), other) {
      HoldersRemove(creating, ticket, other);
      assert |Holders(creating, other)| == Slots(reserved, other);
    }
  }

  /** Giving a slot back undoes taking it. */
  lemma PlusMinus(reserved: map<string, nat>, pool: string)
    requires forall other :: other in reserved ==> reserved[other] > 0
    ensures Minus(Plus(reserved, pool), pool) == reserved
  {}

  lemma AddKeeps(children: map<string, Child>, reserved: map<string, nat>, id: string, child: Child)
    requires Bounded(children, reserved) && id !in children
    requires child.pool == "" || Load(children, reserved, child.pool) < MAX_ACTIVE
    ensures Bounded(children[id := child], reserved)
    ensures forall other :: Load(children[id := child], reserved, other)
                         == Load(children, reserved, other) + if other == child.pool then 1 else 0
  {
    var after := children[id := child];
    forall other
      ensures Load(after, reserved, other)
           == Load(children, reserved, other) + if other == child.pool then 1 else 0
    {
      MembersAdd(children, id, child, other);
    }
    forall other | other != "" ensures Load(after, reserved, other) <= MAX_ACTIVE {
      assert Load(children, reserved, other) <= MAX_ACTIVE;
    }
  }

  lemma RemoveKeeps(children: map<string, Child>, reserved: map<string, nat>, id: string)
    requires Bounded(children, reserved) && id in children
    ensures Bounded(children - {id}, reserved)
    ensures forall other :: Load(children - {id}, reserved, other)
                         == Load(children, reserved, other) - if other == children[id].pool then 1 else 0
  {
    forall other
      ensures Load(children - {id}, reserved, other)
           == Load(children, reserved, other) - if other == children[id].pool then 1 else 0
    {
      MembersRemove(children, id, other);
    }
    forall other | other != "" ensures Load(children - {id}, reserved, other) <= MAX_ACTIVE {
      assert Load(children, reserved, other) <= MAX_ACTIVE;
    }
  }

  lemma SameKeeps(children: map<string, Child>, reserved: map<string, nat>, id: string, child: Child)
    requires Bounded(children, reserved) && id in children && child.pool == children[id].pool
    ensures Bounded(children[id := child], reserved)
    ensures forall other :: Load(children[id := child], reserved, other) == Load(children, reserved, other)
  {
    var after := children[id := child];
    forall other ensures Load(after, reserved, other) == Load(children, reserved, other) {
      MembersSame(children, id, child, other);
    }
    forall other | other != "" ensures Load(after, reserved, other) <= MAX_ACTIVE {
      assert Load(children, reserved, other) <= MAX_ACTIVE;
    }
  }

  /** poolLocked: the pool of a continuable parent, or one rooted at any other parent. */
  function PoolOf(children: map<string, Child>, parent: string): string {
    if parent in children && children[parent].continuable then children[parent].pool else parent
  }

  lemma AddRemove<K, V>(m: map<K, V>, key: K, value: V)
    requires key !in m
    ensures m[key := value] - {key} == m
  {}

  /** What the operation with this ticket holds: a reservation, a placeholder or a handle it is closing. */
  ghost predicate Untouched(ticket: nat, creating: map<nat, string>, owner: map<string, nat>, children: map<string, Child>,
                            creatingNow: map<nat, string>, ownerNow: map<string, nat>, childrenNow: map<string, Child>) {
    && (ticket in creating <==> ticket in creatingNow)
    && (ticket in creating && ticket in creatingNow ==> creatingNow[ticket] == creating[ticket])
    && (forall id :: id in owner && owner[id] == ticket ==> id in ownerNow && ownerNow[id] == ticket)
    && (forall id :: id in ownerNow && ownerNow[id] == ticket ==> id in owner && owner[id] == ticket)
    && (forall id :: id in owner && owner[id] == ticket && id in children ==>
          id in childrenNow && childrenNow[id] == children[id])
  }

  /** No operation in flight has this ticket. */
  ghost predicate Unused(ticket: nat, creating: map<nat, string>, owner: map<string, nat>) {
    ticket !in creating && forall id :: id in owner ==> owner[id] != ticket
  }

  /** A creation meanwhile keeps its reservation, and owns no handle. */
  lemma CreatorUntouched(ticket: nat, creating: map<nat, string>, owner: map<string, nat>, children: map<string, Child>,
                         creatingNow: map<nat, string>, ownerNow: map<string, nat>, childrenNow: map<string, Child>)
    requires Untouched(ticket, creating, owner, children, creatingNow, ownerNow, childrenNow)
    requires Unused(ticket, creating - {ticket}, owner)
    ensures Unused(ticket, creatingNow - {ticket}, ownerNow)
    ensures ticket in creating <==> ticket in creatingNow
    ensures ticket in creating ==> creatingNow[ticket] == creating[ticket]
  {}

  /** Without a reservation left, its ticket is free. */
  lemma TicketFree(ticket: nat, creating: map<nat, string>, owner: map<string, nat>)
    requires Unused(ticket, creating - {ticket}, owner) && ticket !in creating
    ensures Unused(ticket, creating, owner)
  {}

  class Service {
    var active: bool
    var children: map<string, Child>
    var reserved: map<string, nat>
    var creating: map<nat, string>   // the creations in flight that hold a reservation, by ticket: the pool
    var owner: map<string, nat>      // the closing handles and placeholders: the operation that will remove them
    ghost var moves: nat             // steps other operations took

    /** No pool exceeds its limit, and every slot in use belongs to a handle or an operation in flight. */
    ghost predicate Valid() reads this {
      && Bounded(children, reserved) && Exact(reserved, creating) && Attended(children, owner)
      && forall id :: id in children && children[id].continuable ==> children[id].pool != ""
    }

    constructor ()
      ensures Valid() && active && children == map[] && creating == map[] && owner == map[]
    {
      active, children, reserved, creating, owner := true, map[], map[], map[], map[];
      new;
      assert forall pool :: Members(children, pool) == {};
      assert forall pool :: Holders(creating, pool) == {};
    }

    /** admitLocked: counts the pool's reservations and members. */
    method Admit(parent: string) returns (pool: string, verdict: Verdict)
      ensures pool == PoolOf(children, parent)
      ensures pool == if parent in children && children[parent].continuable then children[parent].pool else parent
      ensures verdict == if Load(children, reserved, pool) >= MAX_ACTIVE then LimitReached else Ok
      ensures verdict == Ok <==>
        (if pool in reserved then reserved[pool] else 0) + |set id | id in children && children[id].pool == pool| < 8
    {
      pool := PoolOf(children, parent);
      var used := Slots(reserved, pool);
      var ids := children.Keys;
      ghost var seen: set<string> := {};
      while ids != {}
        invariant ids !! seen && ids + seen == children.Keys
        invariant used == Slots(reserved, pool) + |MembersIn(children, pool, seen)|
        decreases |ids|
      {
        var id :| id in ids;
        MembersNext(children, pool, seen, id);
        if children[id].pool == pool {
          used := used + 1;
        }
        seen := seen + {id};
        ids := ids - {id};
      }
      assert MembersIn(children, pool, seen) == Members(children, pool);
      verdict := if used >= MAX_ACTIVE then LimitReached else Ok;
    }

    /** reserve: one slot for the creation with this ticket. */
    method Reserve(parent: string, ticket: nat) returns (pool: string, verdict: Verdict)
      requires Valid() && ticket !in creating
      modifies this`reserved, this`creating
      ensures Valid() && pool == PoolOf(children, parent)
      ensures verdict == if Load(children, old(reserved), pool) >= MAX_ACTIVE then LimitReached else Ok
      ensures verdict == Ok ==> reserved == Plus(old(reserved), pool) && creating == old(creating)[ticket := pool]
      ensures verdict != Ok ==> reserved == old(reserved) && creating == old(creating)
    {
      pool, verdict := Admit(parent);
      if verdict == Ok {
        ReserveKeeps(children, reserved, creating, ticket, pool);
        hide Bounded, Exact, Load, Attended;
        reserved := reserved[pool := (if pool in reserved then reserved[pool] else 0) + 1];
        creating := creating[ticket := pool];
      }
    }

    /** unreserveLocked, for a reservation still held. */
    method Unreserve(ticket: nat)
      requires Valid() && ticket in creating
      modifies this`reserved, this`creating
      ensures Valid() && creating == old(creating) - {ticket}
      ensures var pool := old(creating)[ticket];
        pool in old(reserved) && old(reserved)[pool] > 0 && reserved == Minus(old(reserved), pool)
    {
      UnreserveKeeps(children, reserved, creating, ticket);
      hide Bounded, Exact, Load, Attended;
      ghost var before := reserved;
      var pool := creating[ticket];
      reserved := reserved[pool := reserved[pool] - 1];
      if reserved[pool] == 0 {
        reserved := reserved - {pool};
        assert reserved == before - {pool};
      }
      creating := creating - {ticket};
    }

    /** publish: the reservation of a continuable child becomes its resident slot, or stays with its creation. */
    method Publish(id: string, child: Child, ticket: nat) returns (verdict: Verdict)
      requires Valid() && id !in children && !child.placeholder && !child.closing && (child.continuable ==> child.pool != "")
      requires child.pool != "" ==> ticket in creating && creating[ticket] == child.pool
      modifies this`reserved, this`creating, this`children
      ensures Valid()
      ensures verdict == if !active then NotRunning
                         else if child.parent in old(children) && old(children)[child.parent].closing then ParentClosing else Ok
      ensures verdict == Ok ==>
        && children == old(children)[id := child]
        && creating == (if child.pool == "" then old(creating) else old(creating) - {ticket})
        && (child.pool == "" ==> reserved == old(reserved))
        && (child.pool != "" ==>
              && child.pool in old(reserved) && old(reserved)[child.pool] > 0
              && reserved == Minus(old(reserved), child.pool))
        && forall pool :: pool != "" ==> Load(children, reserved, pool) == Load(old(children), old(reserved), pool)
      ensures verdict != Ok ==> children == old(children) && creating == old(creating) && reserved == old(reserved)
    {
      if !active {
        return NotRunning;
      }
      if child.parent in children && children[child.parent].closing {
        return ParentClosing;
      }
      if child.pool != "" {
        UnreserveKeeps(children, reserved, creating, ticket);
        assert Load(children, reserved, child.pool) <= MAX_ACTIVE;
        hide Bounded, Exact, Load, Attended;
        Unreserve(ticket);
      }
      assert Attended(children[id := child], owner);
      hide Bounded, Exact, Load, Attended;
      AddKeeps(children, reserved, id, child);
      children := children[id := child];
      verdict := Ok;
    }

    /** The first critical section of resume: a placeholder takes the slot while the transcript reopens. */
    method BeginResume(sender: string, target: string, ticket: nat) returns (verdict: Verdict, begun: bool)
      requires Valid() && sender != ""
      modifies this`children, this`owner
      ensures Valid()
      ensures begun <==>
        active && target !in old(children) && Load(old(children), reserved, PoolOf(old(children), sender)) < MAX_ACTIVE
      ensures children == if begun
                          then old(children)[target := Child(sender, true, PoolOf(old(children), sender), true, true)]
                          else old(children)
      ensures owner == if begun then old(owner)[target := ticket] else old(owner)
      ensures verdict == if active && target !in old(children) && !begun then LimitReached else Ok
    {
      if !active || target in children {
        return Ok, false;
      }
      var pool;
      pool, verdict := Admit(sender);
      if verdict != Ok {
        return verdict, false;
      }
      var placeholder := Child(sender, true, pool, true, true);
      AddKeeps(children, reserved, target, placeholder);
      assert Attended(children[target := placeholder], owner[target := ticket]);
      hide Bounded, Exact, Load, Attended;
      children := children[target := placeholder];
      owner := owner[target := ticket];
      begun := true;
    }

    /** dropPlaceholder, and the removal that ends a release: the handle's slot becomes free. */
    method Remove(id: string)
      requires Valid() && id in owner
      modifies this`children, this`owner
      ensures Valid() && id in old(children) && children == old(children) - {id} && owner == old(owner) - {id}
      ensures forall pool :: Load(children, reserved, pool)
                          == Load(old(children), reserved, pool) - if old(children)[id].pool == pool then 1 else 0
    {
      RemoveKeeps(children, reserved, id);
      assert Attended(children - {id}, owner - {id});
      hide Bounded, Exact, Load, Attended;
      children := children - {id};
      owner := owner - {id};
    }

    /** replace: the resumed handle takes over its placeholder's slot, or the slot is freed. */
    method Replace(id: string, child: Child) returns (verdict: Verdict)
      requires Valid() && id in children && children[id].placeholder && child.pool == children[id].pool
      requires !child.placeholder && !child.closing && (child.continuable ==> child.pool != "")
      modifies this`children, this`owner
      ensures Valid() && owner == old(owner) - {id}
      ensures verdict == if !active then NotRunning
                         else if child.parent != id && child.parent in old(children) && old(children)[child.parent].closing
                         then ParentClosing else Ok
      ensures children == if verdict == Ok then old(children)[id := child] else old(children) - {id}
      ensures verdict == Ok ==> forall pool :: Load(children, reserved, pool) == Load(old(children), reserved, pool)
    {
      ghost var before := children;
      SameKeeps(children, reserved, id, child);
      assert Attended(children[id := child], owner - {id});
      hide Bounded, Exact, Load;
      Remove(id);
      hide Attended;
      if !active {
        return NotRunning;
      }
      if child.parent in children && children[child.parent].closing {
        return ParentClosing;
      }
      assert children[id := child] == before[id := child];
      children := children[id := child];
      verdict := Ok;
    }

    /** The start of a close: no new child is published under a closing parent, and only the first caller releases. */
    method MarkClosing(id: string, ticket: nat) returns (first: bool)
      requires Valid() && id in children
      modifies this`children, this`owner
      ensures Valid() && children == old(children)[id := old(children)[id].(closing := true)]
      ensures first <==> !old(children)[id].closing
      ensures owner == if first then old(owner)[id := ticket] else old(owner)
      ensures forall pool :: Load(children, reserved, pool) == Load(old(children), reserved, pool)
    {
      first := !children[id].closing;
      var child := children[id].(closing := true);
      SameKeeps(children, reserved, id, child);
      assert Attended(children[id := child], if first then owner[id := ticket] else owner);
      hide Bounded, Exact, Load, Attended;
      children := children[id := child];
      if first {
        owner := owner[id := ticket];
      }
    }

    method Stop()
      requires Valid()
      modifies this`active
      ensures Valid() && !active
    {
      active := false;
    }

    // ----- whole operations, with others in between -----

    /**
      Any steps of other creations, resumes and releases: they finish what they hold
      themselves, and know nothing of an ID no catalog names yet.
     */
    method Others(ticket: nat, newcomer: string)
      requires Valid()
      modifies this
      ensures Valid() && moves >= old(moves)
      ensures Untouched(ticket, old(creating), old(owner), old(children), creating, owner, children)
      ensures newcomer in children ==>
        && newcomer in old(children)
        && children[newcomer] == old(children)[newcomer].(closing := children[newcomer].closing)
      ensures moves == old(moves) ==>
        && active == old(active) && children == old(children) && reserved == old(reserved)
        && creating == old(creating) && owner == old(owner)
    {
      var n :| 0 <= n;
      for i := 0 to n
        invariant Valid() && moves == old(moves) + i
        invariant Untouched(ticket, old(creating), old(owner), old(children), creating, owner, children)
        invariant newcomer in children ==>
          && newcomer in old(children)
          && children[newcomer] == old(children)[newcomer].(closing := children[newcomer].closing)
        invariant i == 0 ==>
          && active == old(active) && children == old(children) && reserved == old(reserved)
          && creating == old(creating) && owner == old(owner)
      {
        var id: string, parent: string, child: Child, choice: int := *, *, *, *;
        var other :| 0 <= other;
        Other(ticket, newcomer, id, parent, child, other, choice);
        moves := moves + 1;
      }
    }

    method Other(ticket: nat, newcomer: string, id: string, parent: string, child: Child, other: nat, choice: int)
      requires Valid()
      modifies this`active, this`children, this`reserved, this`creating, this`owner
      ensures Valid()
      ensures Untouched(ticket, old(creating), old(owner), old(children), creating, owner, children)
      ensures newcomer in children ==>
        && newcomer in old(children)
        && children[newcomer] == old(children)[newcomer].(closing := children[newcomer].closing)
    {
      hide *;
      if other == ticket || id == newcomer {
        OtherClose(ticket, newcomer, id, other);
      } else if choice == 0 {
        OtherCreation(ticket, newcomer, id, parent, child, other);
      } else if choice == 1 {
        OtherResume(ticket, newcomer, id, parent, child, other);
      } else {
        OtherClose(ticket, newcomer, id, other);
      }
    }

    method OtherCreation(ticket: nat, newcomer: string, id: string, parent: string, child: Child, other: nat)
      requires other != ticket && id != newcomer
      requires Valid()
      modifies this`active, this`children, this`reserved, this`creating, this`owner
      ensures Valid()
      ensures Untouched(ticket, old(creating), old(owner), old(children), creating, owner, children)
      ensures newcomer in children ==>
        && newcomer in old(children)
        && children[newcomer] == old(children)[newcomer].(closing := children[newcomer].closing)
    {
      hide Bounded, Exact, Load, Attended, PoolOf, Plus, Minus;
      var choice: int := *;
      if choice == 0 && other !in creating {
        var pool, verdict := Reserve(parent, other);
      } else if choice == 1 && other in creating {
        Unreserve(other);
      } else if choice == 2 && id !in children && !child.placeholder && !child.closing && (child.continuable ==> child.pool != "")
                && (child.pool == "" || (other in creating && creating[other] == child.pool)) {
        assert forall own :: own in owner ==> own != id by { AttendedIsResident(id); }
        var verdict := Publish(id, child, other);
      }
    }

    lemma AttendedIsResident(id: string)
      requires Valid()
      ensures id in owner ==> id in children && children[id].closing
      ensures id in children && children[id].closing ==> id in owner
    {}

    method OtherResume(ticket: nat, newcomer: string, id: string, parent: string, child: Child, other: nat)
      requires other != ticket && id != newcomer
      requires Valid()
      modifies this`active, this`children, this`reserved, this`creating, this`owner
      ensures Valid()
      ensures Untouched(ticket, old(creating), old(owner), old(children), creating, owner, children)
      ensures newcomer in children ==>
        && newcomer in old(children)
        && children[newcomer] == old(children)[newcomer].(closing := children[newcomer].closing)
    {
      AttendedIsResident(id);
      hide Bounded, Exact, Load, Attended, PoolOf, Plus, Minus;
      if id !in children {
        if parent != "" {
          var verdict, begun := BeginResume(parent, id, other);
        }
      } else if children[id].placeholder && id in owner && owner[id] != ticket && child.pool == children[id].pool
                && !child.placeholder && !child.closing && (child.continuable ==> child.pool != "") {
        var verdict := Replace(id, child);
      }
    }

    method OtherClose(ticket: nat, newcomer: string, id: string, other: nat)
      requires Valid()
      modifies this`active, this`children, this`reserved, this`creating, this`owner
      ensures Valid()
      ensures Untouched(ticket, old(creating), old(owner), old(children), creating, owner, children)
      ensures newcomer in children ==>
        && newcomer in old(children)
        && children[newcomer] == old(children)[newcomer].(closing := children[newcomer].closing)
    {
      AttendedIsResident(id);
      hide Bounded, Exact, Load, Attended, PoolOf, Plus, Minus;
      var choice: int := *;
      if choice == 0 && id in owner && owner[id] != ticket {
        Remove(id);
      } else if choice == 1 && id in children && other != ticket {
        var first := MarkClosing(id, other);
      } else if choice == 2 {
        Stop();
      }
    }

    /**
      A whole creation. Its reservation is given to the published child or given back, and a
      child whose catalog record fails is released again: on every path, whatever the
      registry, the log and every other operation do meanwhile, nothing stays in flight.
     */
    method Create(parent: string, id: string, continuable: bool, ticket: nat) returns (verdict: Verdict)
      requires Valid() && id !in children && parent != "" && Unused(ticket, creating, owner)
      modifies this
      ensures Valid() && Unused(ticket, creating, owner)
      ensures var child := Child(parent, continuable, if continuable then PoolOf(old(children), parent) else "", false, false);
        && (verdict == Ok && id in children ==> children[id].(closing := false) == child)
        && (verdict != Ok && id in children ==> children[id].closing)
        && (moves == old(moves) ==>
              && creating == old(creating) && owner == old(owner) && reserved == old(reserved)
              && children == if verdict == Ok then old(children)[id := child] else old(children))
      ensures verdict == LimitReached
         <==> continuable && Load(old(children), old(reserved), PoolOf(old(children), parent)) >= MAX_ACTIVE
    {
      var pool := "";
      if continuable {
        AddRemove(creating, ticket, PoolOf(children, parent));
        PlusMinus(reserved, PoolOf(children, parent));
        pool, verdict := Reserve(parent, ticket);
        if verdict != Ok {
          return;
        }
        assert pool != "";
      }
      hide Bounded, Exact, Load, Attended, Valid, Plus, Minus, PoolOf;
      verdict := Establish(id, Child(parent, continuable, pool, false, false), ticket);
    }

    /** The rest of a creation, whose ticket holds the slot of a continuable child. */
    method Establish(id: string, child: Child, ticket: nat) returns (verdict: Verdict)
      requires Valid() && id !in children && !child.placeholder && !child.closing && (child.continuable <==> child.pool != "")
      requires Unused(ticket, creating - {ticket}, owner)
      requires if child.continuable then ticket in creating && creating[ticket] == child.pool else ticket !in creating
      modifies this
      ensures Valid() && Unused(ticket, creating, owner) && verdict != LimitReached
      ensures verdict == Ok && id in children ==> children[id].(closing := false) == child
      ensures verdict != Ok && id in children ==> children[id].closing
      ensures moves >= old(moves)
      ensures moves == old(moves) ==>
        && creating == old(creating) - {ticket} && owner == old(owner)
        && (child.pool == "" ==> reserved == old(reserved))
        && (child.pool != "" ==>
              && child.pool in old(reserved) && old(reserved)[child.pool] > 0
              && reserved == Minus(old(reserved), child.pool))
        && children == if verdict == Ok then old(children)[id := child] else old(children)
    {
      AttendedIsResident(id);
      AddRemove(children, id, child);
      hide Bounded, Exact, Load, Attended, Valid, Plus, Minus, PoolOf;
      hide Untouched, Unused;
      Others(ticket, id);
      CreatorUntouched(ticket, old(creating), old(owner), old(children), creating, owner, children);
      verdict := Failed;
      var created: bool := *;
      if created {
        verdict := Publish(id, child, ticket);
      }
      if verdict != Ok {
        GiveBack(id, ticket);
        return;
      }
      assert creating - {ticket} - {ticket} == creating - {ticket};
      TicketFree(ticket, creating, owner);
      verdict := Catalogue(id, child, ticket);
    }

    /** A creation that failed: its agent, if any, is closed, and its reservation, if any, ends. */
    method GiveBack(id: string, ticket: nat)
      requires Valid() && id !in children && Unused(ticket, creating - {ticket}, owner)
      modifies this
      ensures Valid() && Unused(ticket, creating, owner) && id !in children && moves >= old(moves)
      ensures moves == old(moves) ==>
        && creating == old(creating) - {ticket} && owner == old(owner) && children == old(children)
        && (ticket !in old(creating) ==> reserved == old(reserved))
        && (ticket in old(creating) ==>
              var pool := old(creating)[ticket];
              pool in old(reserved) && old(reserved)[pool] > 0 && reserved == Minus(old(reserved), pool))
    {
      hide Bounded, Exact, Load, Attended, Valid, Plus, Minus, PoolOf, Untouched, Unused;
      Others(ticket, id);
      CreatorUntouched(ticket, old(creating), old(owner), old(children), creating, owner, children);
      if ticket in creating {
        Unreserve(ticket);
      }
      assert creating - {ticket} == creating;
    }

    /** The parent's catalog record; without it the published child is released. */
    method Catalogue(id: string, child: Child, ticket: nat) returns (verdict: Verdict)
      requires Valid() && id in children && children[id] == child && !child.closing && Unused(ticket, creating, owner)
      modifies this
      ensures Valid() && Unused(ticket, creating, owner) && verdict in {Ok, Failed} && moves >= old(moves)
      ensures verdict == Ok && id in children ==> children[id].(closing := false) == child
      ensures verdict == Failed && id in children ==> children[id].closing
      ensures moves == old(moves) ==>
        && creating == old(creating) && reserved == old(reserved)
        && children == (if verdict == Ok then old(children) else old(children) - {id})
        && owner == (if verdict == Ok then old(owner) else old(owner) - {id})
    {
      hide Bounded, Exact, Load, Attended, Valid, PoolOf;
      Others(ticket, id);
      var catalogued: bool := *;
      if catalogued {
        return Ok;
      }
      Release(id, ticket);
      verdict := Failed;
    }

    /** close: the first caller marks the handle and removes it in the end; any other one leaves it to that release. */
    method Release(id: string, ticket: nat)
      requires Valid() && Unused(ticket, creating, owner)
      modifies this
      ensures Valid() && Unused(ticket, creating, owner) && moves >= old(moves)
      ensures id in children ==> id in old(children) && old(children)[id].closing && children[id] == old(children)[id]
      ensures moves == old(moves) ==>
        && creating == old(creating) && reserved == old(reserved)
        && (id !in old(children) || old(children)[id].closing ==> children == old(children) && owner == old(owner))
        && (id in old(children) && !old(children)[id].closing ==> children == old(children) - {id} && owner == old(owner) - {id})
    {
      hide Bounded, Exact, Load;
      if id !in children {
        return;
      }
      var first := MarkClosing(id, ticket);
      if first {
        Others(ticket, id);
        Remove(id);
      }
    }

    /**
      A whole resume: the placeholder becomes the resident handle or is dropped, whatever
      happens meanwhile; none of its own is left behind.
     */
    method Resume(sender: string, target: string, ticket: nat) returns (verdict: Verdict, begun: bool)
      requires Valid() && sender != "" && Unused(ticket, creating, owner)
      modifies this
      ensures Valid() && Unused(ticket, creating, owner)
      ensures begun <==>
        && old(active) && target !in old(children)
        && Load(old(children), old(reserved), PoolOf(old(children), sender)) < MAX_ACTIVE
      ensures verdict == LimitReached <==> old(active) && target !in old(children) && !begun
      ensures var child := Child(sender, true, PoolOf(old(children), sender), false, false);
        && (begun && verdict == Ok ==> target in children && children[target] == child)
        && (begun && verdict != Ok ==> target !in children)
        && (moves == old(moves) ==>
              && creating == old(creating) && owner == old(owner) && reserved == old(reserved)
              && children == if begun && verdict == Ok then old(children)[target := child] else old(children))
      ensures !begun ==> moves == old(moves)
    {
      AttendedIsResident(target);
      if target !in children {
        AddRemove(children, target, Child(sender, true, PoolOf(children, sender), true, true));
        AddRemove(owner, target, ticket);
      }
      hide Bounded, Exact, Load, PoolOf;
      verdict, begun := BeginResume(sender, target, ticket);
      if !begun {
        return;
      }
      verdict := Reopen(target, Child(sender, true, children[target].pool, false, false), ticket);
    }

    /** The rest of a resume, whose ticket owns the placeholder. */
    method Reopen(target: string, child: Child, ticket: nat) returns (verdict: Verdict)
      requires Valid() && target in children && children[target].placeholder && child.pool == children[target].pool
      requires target in owner && owner[target] == ticket && Unused(ticket, creating, owner - {target})
      requires child.continuable && !child.placeholder && !child.closing && child.pool != ""
      modifies this
      ensures Valid() && Unused(ticket, creating, owner) && verdict != LimitReached && moves >= old(moves)
      ensures verdict == Ok ==> target in children && children[target] == child
      ensures verdict != Ok ==> target !in children
      ensures moves == old(moves) ==>
        && creating == old(creating) && owner == old(owner) - {target} && reserved == old(reserved)
        && children == if verdict == Ok then old(children)[target := child] else old(children) - {target}
    {
      hide Bounded, Exact, Load, PoolOf, Attended;
      ghost var rest := owner - {target};
      Others(ticket, target);
      assert forall id :: id in owner && owner[id] == ticket ==> id == target || id in rest;
      var reopened: bool := *;
      if reopened {
        verdict := Replace(target, child);
      } else {
        Remove(target);
        verdict := Failed;
      }
    }
  }

  function MembersIn(children: map<string, Child>, pool: string, ids: set<string>): set<string> {
    set id | id in ids && id in children && children[id].pool == pool
  }

  lemma MembersNext(children: map<string, Child>, pool: string, seen: set<string>, id: string)
    requires id in children && id !in seen
    ensures |MembersIn(children, pool, seen + {id})|
         == |MembersIn(children, pool, seen)| + if children[id].pool == pool then 1 else 0
  {
    var before, after := MembersIn(children, pool, seen), MembersIn(children, pool, seen + {id});
    if children[id].pool == pool {
      assert after == before + {id};
    } else {
      assert after == before;
    }
  }
}
