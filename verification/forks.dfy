/**
  Forking a session: the prefix a child inherits (completedTurns in
  internal/app/subagent/service.go), the records that open the child
  (internal/app/agent/registry.go), and what the child then owns.
 */
module Forks {
  import opened Records
  import opened Order
  import opened OrderFacts
  import opened Journal
  import Surfaces

  // ----- the inherited prefix -----

  function CompletedTurns(log: seq<Record>): (prefix: seq<Record>)
    ensures |prefix| <= |log| && prefix == log[..|prefix|]
  {
    if log == [] || log[|log| - 1].TurnEnd? then log else CompletedTurns(log[..|log| - 1])
  }

  method FindCompletedTurns(log: seq<Record>) returns (prefix: seq<Record>)
    ensures prefix == CompletedTurns(log)
  {
    var n := |log|;
    assert log[..n] == log;
    while n > 0
      invariant n <= |log| && CompletedTurns(log) == CompletedTurns(log[..n])
    {
      assert log[..n][..n - 1] == log[..n - 1];
      if log[n - 1].TurnEnd? {
        return log[..n];
      }
      n := n - 1;
    }
    prefix := [];
  }

  /** It is the longest prefix that ends a turn. */
  lemma {:induction false} CompletedTurnsIsLast(log: seq<Record>, i: nat)
    requires i < |log| && log[i].TurnEnd?
    ensures i < |CompletedTurns(log)| && log[|CompletedTurns(log)| - 1].TurnEnd?
  {
    if !log[|log| - 1].TurnEnd? {
      CompletedTurnsIsLast(log[..|log| - 1], i);
    }
  }

  lemma {:induction false} CompletedTurnsEnds(log: seq<Record>)
    ensures var prefix := CompletedTurns(log); prefix == [] || prefix[|prefix| - 1].TurnEnd?
  {
    if log != [] && !log[|log| - 1].TurnEnd? {
      CompletedTurnsEnds(log[..|log| - 1]);
    }
  }

  /** A turn end leaves nothing open, so the prefix is a seed the store accepts. */
  lemma CompletedTurnsIsSeed(log: seq<Record>)
    requires Order.Valid(log)
    ensures ValidClosed(CompletedTurns(log))
  {
    var prefix := CompletedTurns(log);
    CompletedTurnsEnds(log);
    ValidPrefix(log, |prefix|);
    if prefix == [] {
      assert Fold(prefix) == Some(INIT);
    } else {
      var front, last := prefix[..|prefix| - 1], prefix[|prefix| - 1];
      assert prefix == front + [last];
      hide Step, WellFormed, AllWellFormed, Surfaces.Visible;
      ValidSnoc(front, last);
      TurnEndCloses(front, StateOf(front), last);
    }
  }

  lemma TurnEndCloses(log: seq<Record>, s: State, record: Record)
    requires record.TurnEnd? && Step(log, s, record).Some?
    ensures Step(log, s, record).value.Closed()
  {}

  /** validateSeed: the seed of a created session. */
  method ValidateSeed(seed: seq<Record>) returns (ok: bool)
    ensures ok <==> ValidClosed(seed)
  {
    for i := 0 to |seed|
      invariant forall j :: 0 <= j < i ==> WellFormed(seed[j])
    {
      if !WellFormed(seed[i]) {
        return false;
      }
    }
    var state := ValidateOrder(seed, true);
    ok := state.Some?;
  }

  // ----- the child's opening records -----

  function Opening(seed: seq<Record>, ownership: Ownership, sandbox: bool): seq<Record> {
    [SubagentDescriptor(ownership, |seed|)] + (if sandbox then [SandboxMode(true)] else []) + [ApprovalPolicy(true)]
  }

  lemma InheritedSnoc(log: seq<Record>, record: Record)
    requires Fold(log + [record]).Some?
    ensures Fold(log).Some?
    ensures Inherited(log + [record]) == if record.SubagentDescriptor? then record.inherited else Inherited(log)
  {
    hide Step;
    assert (log + [record])[..|log|] == log;
  }

  lemma DescriptorAccepted(seed: seq<Record>, ownership: Ownership)
    requires ValidClosed(seed) && (ownership == Spawn ==> seed == [])
    ensures Accepts(true, seed, SubagentDescriptor(ownership, |seed|))
    ensures StateOf(seed + [SubagentDescriptor(ownership, |seed|)]) == StateOf(seed)
    ensures Inherited(seed + [SubagentDescriptor(ownership, |seed|)]) == |seed|
  {
    var record := SubagentDescriptor(ownership, |seed|);
    DescriptorStep(seed, StateOf(seed), ownership);
    hide Step, WellFormed, AllWellFormed, SandboxOwned;
    SnocVisible(seed, record);
    InheritedSnoc(seed, record);
    OwnsNoSwitch(seed, record);
  }

  lemma DescriptorStep(log: seq<Record>, s: State, ownership: Ownership)
    requires s.Closed() && (ownership == Spawn ==> log == [])
    ensures var record := SubagentDescriptor(ownership, |log|);
      WellFormed(record) && Step(log, s, record) == Some(s)
  {}

  lemma OwnsNoSwitch(log: seq<Record>, record: Record)
    requires Fold(log + [record]).Some? && record.SubagentDescriptor? && Inherited(log + [record]) == |log|
    ensures SandboxOwned(true, log + [record])
  {
    hide Step;
  }

  lemma MetadataStep(log: seq<Record>, s: State, record: Record)
    requires record == ApprovalPolicy(true)
             || (record == SandboxMode(true) && log != [] && log[|log| - 1].SubagentDescriptor?)
    ensures WellFormed(record) && Step(log, s, record) == Some(s)
  {}

  lemma MetadataAccepted(log: seq<Record>, record: Record)
    requires Order.Valid(log) && SandboxOwned(true, log)
    requires record == ApprovalPolicy(true)
             || (record == SandboxMode(true) && log != [] && log[|log| - 1].SubagentDescriptor?)
    ensures Accepts(true, log, record) && StateOf(log + [record]) == StateOf(log)
    ensures Inherited(log + [record]) == Inherited(log)
  {
    MetadataStep(log, StateOf(log), record);
    hide Step, WellFormed, AllWellFormed, Lifecycle;
    SnocVisible(log, record);
    InheritedSnoc(log, record);
  }

  /** Registry.Create for a child: every opening append is accepted on any accepted seed. */
  method CreateChild(seed: seq<Record>, ownership: Ownership, sandbox: bool) returns (log: Log)
    requires ValidClosed(seed) && (ownership == Spawn ==> seed == [])
    ensures fresh(log) && log.child && log.Valid()
    ensures log.records == seed + Opening(seed, ownership, sandbox)
    ensures Opening(seed, ownership, sandbox)
         == [SubagentDescriptor(ownership, |seed|)] + (if sandbox then [SandboxMode(true)] else []) + [ApprovalPolicy(true)]
    ensures StateOf(log.records) == StateOf(seed) && Inherited(log.records) == |seed|
    ensures SandboxOwned(true, log.records)
  {
    hide Step, WellFormed, AllWellFormed, SandboxOwned;
    log := new Log(true, seed);
    DescriptorAccepted(seed, ownership);
    var ok := log.Append(SubagentDescriptor(ownership, |seed|));
    if sandbox {
      MetadataAccepted(log.records, SandboxMode(true));
      ok := log.Append(SandboxMode(true));
    }
    MetadataAccepted(log.records, ApprovalPolicy(true));
    ok := log.Append(ApprovalPolicy(true));
  }

  // ----- ownership -----

  /** A descriptor names its own position, so a session owns its log from there. */
  lemma {:induction false} DescriptorPosition(log: seq<Record>, i: nat)
    requires Order.Valid(log) && i < |log| && log[i].SubagentDescriptor?
    ensures log[i].inherited == i
  {
    ValidPrefix(log, i);
    ValidPrefix(log, i + 1);
    assert log[..i + 1] == log[..i] + [log[i]];
    ValidSnoc(log[..i], log[i]);
  }

  /**
    From its descriptor on, and until another descriptor, a child owns exactly what it
    wrote, whatever its seed holds: descriptors of ancestors included.
   */
  lemma {:induction false} OwnsWhatItWrote(seed: seq<Record>, written: seq<Record>)
    requires Order.Valid(seed + written)
    requires written != [] && written[0].SubagentDescriptor?
    requires forall i :: 0 < i < |written| ==> !written[i].SubagentDescriptor?
    ensures OwnEvents(seed + written) == written
  {
    var log := seed + written;
    var n := |log| - 1;
    ValidPrefix(log, n);
    if |written| == 1 {
      DescriptorPosition(log, n);
    } else {
      assert log[..n] == seed + written[..|written| - 1];
      OwnsWhatItWrote(seed, written[..|written| - 1]);
    }
  }

  lemma OpeningValid(seed: seq<Record>, ownership: Ownership, sandbox: bool)
    requires ValidClosed(seed) && (ownership == Spawn ==> seed == [])
    ensures ValidClosed(seed + Opening(seed, ownership, sandbox))
  {
    hide Step, WellFormed, AllWellFormed, SandboxOwned, Inherited, Surfaces.Visible, Order.Valid;
    DescriptorAccepted(seed, ownership);
    var log := seed + [SubagentDescriptor(ownership, |seed|)];
    if sandbox {
      MetadataAccepted(log, SandboxMode(true));
      log := log + [SandboxMode(true)];
    }
    MetadataAccepted(log, ApprovalPolicy(true));
    assert log + [ApprovalPolicy(true)] == seed + Opening(seed, ownership, sandbox);
  }

  /** A fork of any parent opens on a closed log that starts its own part. */
  lemma ForkOwnsItsOpening(parent: seq<Record>, sandbox: bool)
    requires Order.Valid(parent)
    ensures var seed := CompletedTurns(parent);
      var log := seed + Opening(seed, Fork, sandbox);
      ValidClosed(log) && OwnEvents(log) == Opening(seed, Fork, sandbox)
  {
    var seed := CompletedTurns(parent);
    CompletedTurnsIsSeed(parent);
    OpeningValid(seed, Fork, sandbox);
    hide Step, WellFormed, AllWellFormed, CompletedTurns;
    OwnsWhatItWrote(seed, Opening(seed, Fork, sandbox));
  }
}
