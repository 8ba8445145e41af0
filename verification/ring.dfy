/**
  One job's bounded output (ring in internal/app/job/ring.go): retained chunks at absolute
  byte offsets, and what a reader gets of everything ever appended.
 */
module Ring {
  import opened Utf8
  import opened Decoder

  datatype Chunk = Chunk(at: nat, channel: Channel, data: Bytes)
  {
    function End(): nat { at + |data| }
  }

  /** Chunks follow each other without a gap, up to total. */
  ghost predicate Contiguous(chunks: seq<Chunk>, total: nat) {
    && (forall i :: 0 < i < |chunks| ==> chunks[i].at == chunks[i - 1].End())
    && (chunks != [] ==> chunks[|chunks| - 1].End() == total)
  }

  ghost predicate Ordered(history: seq<Chunk>, total: nat) {
    Contiguous(history, total) && (if history == [] then total == 0 else history[0].at == 0)
  }

  /** The tail of a chunk from its own byte cut on. */
  function CutFrom(chunk: Chunk, cut: nat): Chunk
    requires cut <= |chunk.data|
  {
    Chunk(chunk.at + cut, chunk.channel, chunk.data[cut..])
  }

  ghost predicate IsTail(chunk: Chunk, whole: Chunk) {
    whole.at <= chunk.at <= whole.End() && chunk == CutFrom(whole, chunk.at - whole.at)
  }

  /** What is retained: the latest chunks ever appended, the first of them possibly shortened. */
  ghost predicate Retains(chunks: seq<Chunk>, history: seq<Chunk>) {
    && |chunks| <= |history|
    && var skip := |history| - |chunks|;
    && (chunks != [] ==> IsTail(chunks[0], history[skip]))
    && forall i :: 0 < i < |chunks| ==> chunks[i] == history[skip + i]
  }

  // ----- the reference: bytes by absolute offset -----

  /** The bytes of a chunk at or after an offset. */
  function BytesFrom(chunk: Chunk, from: nat): Bytes {
    if from <= chunk.at then chunk.data
    else if from >= chunk.End() then []
    else chunk.data[from - chunk.at..]
  }

  /** Every byte of one channel ever appended at or after an offset, in order. */
  function Since(history: seq<Chunk>, channel: Channel, from: nat): Bytes {
    if history == [] then []
    else
      var last := history[|history| - 1];
      Since(history[..|history| - 1], channel, from) + if last.channel == channel then BytesFrom(last, from) else []
  }

  /** An offset at which some append began, or the end. */
  ghost predicate Boundary(history: seq<Chunk>, total: nat, from: nat) {
    from == total || exists k :: 0 <= k < |history| && history[k].at == from
  }

  lemma {:induction false} NothingAfterEnd(history: seq<Chunk>, total: nat, channel: Channel, from: nat)
    requires Contiguous(history, total) && total <= from
    ensures Since(history, channel, from) == []
  {
    if history != [] {
      var last := history[|history| - 1];
      NothingAfterEnd(history[..|history| - 1], last.at, channel, from);
    }
  }

  lemma {:induction false} Ends(history: seq<Chunk>, total: nat, k: nat)
    requires Contiguous(history, total) && k < |history|
    ensures history[k].End() <= total
    decreases |history| - k
  {
    if k + 1 < |history| {
      Ends(history, total, k + 1);
    }
  }

  // ----- reading -----

  /** The data of every retained chunk of one channel that starts at or after an offset. */
  function Collected(chunks: seq<Chunk>, channel: Channel, from: nat): Bytes {
    if chunks == [] then []
    else
      var last := chunks[|chunks| - 1];
      Collected(chunks[..|chunks| - 1], channel, from)
      + if last.at >= from && last.channel == channel then last.data else []
  }

  function Max(a: nat, b: nat): nat { if a > b then a else b }

  function Earliest(chunks: seq<Chunk>, total: nat): nat { if chunks == [] then total else chunks[0].at }

  lemma {:induction false} NothingCollected(chunks: seq<Chunk>, total: nat, channel: Channel, from: nat)
    requires Contiguous(chunks, total) && total <= from
    ensures Collected(chunks, channel, from) == []
  {
    if chunks != [] {
      var last := chunks[|chunks| - 1];
      NothingCollected(chunks[..|chunks| - 1], last.at, channel, from);
      if last.at >= from {
        assert last.data == [];
      }
    }
  }

  /** From an append boundary on, the retained chunks hold exactly the bytes not yet dropped. */
  lemma {:induction false} CollectedIsSince(chunks: seq<Chunk>, history: seq<Chunk>, total: nat, channel: Channel, from: nat)
    requires Retains(chunks, history) && Contiguous(history, total) && Contiguous(chunks, total)
    requires Boundary(history, total, from)
    ensures Collected(chunks, channel, from) == Since(history, channel, Max(from, Earliest(chunks, total)))
    decreases |chunks|
  {
    if chunks == [] || from == total {
      NothingAfterEnd(history, total, channel, Max(from, Earliest(chunks, total)));
      if chunks != [] {
        NothingCollected(chunks, total, channel, from);
      }
    } else if |chunks| == 1 {
      assert chunks == [chunks[0]];
      SingleCollected(chunks[0], history, total, channel, from);
    } else {
      var last, older, past := chunks[|chunks| - 1], chunks[..|chunks| - 1], history[..|history| - 1];
      OlderRetained(chunks, history, total);
      OlderBoundary(history, total, from);
      hide Retains, Contiguous, Boundary;
      CollectedIsSince(older, past, last.at, channel, from);
    }
  }

  lemma SingleCollected(chunk: Chunk, history: seq<Chunk>, total: nat, channel: Channel, from: nat)
    requires Retains([chunk], history) && Contiguous(history, total) && Contiguous([chunk], total)
    requires Boundary(history, total, from) && from != total
    ensures Collected([chunk], channel, from) == Since(history, channel, Max(from, chunk.at))
  {
    var whole, past := history[|history| - 1], history[..|history| - 1];
    var k :| 0 <= k < |history| && history[k].at == from;
    if k < |past| {
      Ends(past, whole.at, k);
    }
    NothingAfterEnd(past, whole.at, channel, Max(from, chunk.at));
    assert [chunk][..0] == [];
    assert from <= whole.at <= chunk.at;
  }

  lemma OlderRetained(chunks: seq<Chunk>, history: seq<Chunk>, total: nat)
    requires Retains(chunks, history) && Contiguous(history, total) && Contiguous(chunks, total) && |chunks| > 1
    ensures var last, older, past := chunks[|chunks| - 1], chunks[..|chunks| - 1], history[..|history| - 1];
      && last == history[|history| - 1] && Retains(older, past) && Contiguous(past, last.at) && Contiguous(older, last.at)
      && older[0] == chunks[0] && chunks[0].at <= last.at
  {
    FirstBefore(chunks, total);
  }

  lemma OlderBoundary(history: seq<Chunk>, total: nat, from: nat)
    requires Contiguous(history, total) && history != [] && Boundary(history, total, from) && from != total
    ensures var past, last := history[..|history| - 1], history[|history| - 1];
      Boundary(past, last.at, from) && from <= last.at
  {
    var past, last := history[..|history| - 1], history[|history| - 1];
    var k :| 0 <= k < |history| && history[k].at == from;
    if k < |past| {
      Ends(past, last.at, k);
      assert past[k].at == from;
    }
  }

  lemma {:induction false} FirstBefore(chunks: seq<Chunk>, total: nat)
    requires Contiguous(chunks, total) && |chunks| > 1
    ensures chunks[0].at <= chunks[|chunks| - 1].at
  {
    var last := |chunks| - 1;
    Ends(chunks[..last], chunks[last].at, 0);
  }

  /** Reads from successive boundaries add up to everything from the first of them on. */
  lemma {:induction false} SinceSplits(history: seq<Chunk>, total: nat, channel: Channel, from: nat, k: nat)
    requires Contiguous(history, total) && k <= |history|
    requires var at := if k == |history| then total else history[k].at; from <= at
    ensures var at := if k == |history| then total else history[k].at;
      Since(history, channel, from) == Since(history[..k], channel, from) + Since(history, channel, at)
    decreases |history|
  {
    var at := if k == |history| then total else history[k].at;
    if k == |history| {
      assert history[..k] == history;
      NothingAfterEnd(history, total, channel, at);
    } else {
      var last, front := history[|history| - 1], history[..|history| - 1];
      assert front[..k] == history[..k];
      SinceSplits(front, last.at, channel, from, k);
      FromLater(history, total, k);
    }
  }

  lemma {:induction false} FromLater(history: seq<Chunk>, total: nat, k: nat)
    requires Contiguous(history, total) && k < |history|
    ensures history[k].at <= history[|history| - 1].at
  {
    if k < |history| - 1 {
      Ends(history[..|history| - 1], history[|history| - 1].at, k);
    }
  }

  // ----- the ring -----

  class Tape {
    var chunks: seq<Chunk>
    var retained: nat
    var total: nat
    var earliest: nat
    ghost var history: seq<Chunk>

    ghost predicate Valid() reads this {
      && Ordered(history, total) && Contiguous(chunks, total) && Retains(chunks, history)
      && earliest == Earliest(chunks, total) <= total && retained == total - earliest
    }

    constructor ()
      ensures Valid() && history == [] && total == 0 && earliest == 0
    {
      chunks, retained, total, earliest, history := [], 0, 0, 0, [];
    }

    /** Everything a trim keeps: each append boundary that fits in the limit. */
    ghost predicate Keeps(limit: nat, before: nat) reads this {
      KeepsAll(history, total, limit, before, earliest)
    }

    method Append(channel: Channel, data: Bytes, limit: nat)
      requires Valid()
      modifies this
      ensures Valid()
      ensures history == old(history) + [Chunk(old(total), channel, data)] && total == old(total) + |data|
      ensures retained <= limit && earliest >= old(earliest) && Keeps(limit, old(earliest))
    {
      AppendKeepsOrder(history, total, Chunk(total, channel, data));
      AppendKeepsRetained(chunks, history, total, Chunk(total, channel, data));
      chunks := chunks + [Chunk(total, channel, data)];
      history := history + [Chunk(total, channel, data)];
      total := total + |data|;
      retained := retained + |data|;
      Trim(limit);
    }

    /** Lets the oldest chunks go until the rest fits, then shortens a single oversized one at a character. */
    method Trim(limit: nat)
      requires Valid()
      modifies this`chunks, this`retained, this`earliest
      ensures Valid() && retained <= limit && earliest >= old(earliest)
      ensures Keeps(limit, old(earliest))
      ensures old(retained) <= limit ==> chunks == old(chunks) && earliest == old(earliest)
    {
      hide Ordered, Contiguous, Retains, KeepsAll;
      assert KeepsAll(history, total, limit, earliest, Earliest(chunks, total)) by { KeepsStart(history, total, limit, earliest); }
      while retained > limit && |chunks| > 1
        invariant Ordered(history, total) && Contiguous(chunks, total) && Retains(chunks, history)
        invariant old(earliest) <= Earliest(chunks, total) <= total && retained == total - Earliest(chunks, total)
        invariant KeepsAll(history, total, limit, old(earliest), Earliest(chunks, total))
        invariant old(retained) <= limit ==> chunks == old(chunks) && retained == old(retained)
      {
        DropHead(chunks, history, total, limit, old(earliest));
        retained := retained - |chunks[0].data|;
        chunks := chunks[1..];
      }
      if |chunks| == 1 && retained > limit {
        CutOversized(limit, old(earliest));
      }
      earliest := total;
      if |chunks| > 0 {
        earliest := chunks[0].at;
      }
      RetainedSize(chunks, total, retained, limit);
    }

    /** A single chunk over the limit keeps only its tail, from a character on. */
    method CutOversized(limit: nat, ghost before: nat)
      requires Ordered(history, total) && Contiguous(chunks, total) && Retains(chunks, history)
      requires |chunks| == 1 && retained == total - chunks[0].at > limit && before <= chunks[0].at
      requires KeepsAll(history, total, limit, before, chunks[0].at)
      modifies this`chunks, this`retained
      ensures |chunks| == 1 && Contiguous(chunks, total) && Retains(chunks, history)
      ensures old(chunks)[0].at <= chunks[0].at <= total && retained == total - chunks[0].at <= limit
      ensures chunks[0].data == [] || RuneStart(chunks[0].data[0])
      ensures KeepsAll(history, total, limit, before, chunks[0].at)
    {
      var single := chunks[0];
      assert single.End() == total;
      hide Ordered, Retains, KeepsAll;
      var cut := |single.data| - limit;
      while cut < |single.data| && !RuneStart(single.data[cut])
        invariant |single.data| - limit <= cut <= |single.data|
      {
        cut := cut + 1;
      }
      CutSingle(single, history, total, limit, cut, before);
      assert [single] == chunks;
      chunks := [CutFrom(single, cut)];
      retained := |single.data| - cut;
    }

    /** Per channel every byte from an append boundary on that was not dropped; lossy tells of drops above it. */
    method ReadFrom(from: nat) returns (stdout: Bytes, stderr: Bytes, lossy: bool)
      requires Valid() && Boundary(history, total, from)
      ensures stdout == Since(history, Stdout, Max(from, earliest))
      ensures stderr == Since(history, Stderr, Max(from, earliest))
      ensures lossy <==> from < earliest
    {
      CollectedIsSince(chunks, history, total, Stdout, from);
      CollectedIsSince(chunks, history, total, Stderr, from);
      hide Since, Ordered, Contiguous, Retains, Boundary;
      stdout, stderr := [], [];
      for i := 0 to |chunks|
        invariant stdout == Collected(chunks[..i], Stdout, from) && stderr == Collected(chunks[..i], Stderr, from)
      {
        assert chunks[..i + 1][..i] == chunks[..i];
        if chunks[i].at >= from {
          match chunks[i].channel {
            case Stdout => stdout := stdout + chunks[i].data;
            case Stderr => stderr := stderr + chunks[i].data;
          }
        }
      }
      assert chunks[..|chunks|] == chunks;
      lossy := from < earliest;
    }
  }

  ghost predicate KeepsAll(history: seq<Chunk>, total: nat, limit: nat, before: nat, earliest: nat) {
    forall k :: 0 <= k < |history| && history[k].at >= before && total - history[k].at <= limit ==> earliest <= history[k].at
  }

  lemma KeepsStart(history: seq<Chunk>, total: nat, limit: nat, before: nat)
    ensures KeepsAll(history, total, limit, before, before)
  {}

  lemma RetainedSize(chunks: seq<Chunk>, total: nat, retained: nat, limit: nat)
    requires Contiguous(chunks, total) && retained == total - Earliest(chunks, total)
    requires !(|chunks| > 1 && retained > limit) && !(|chunks| == 1 && retained > limit)
    ensures retained <= limit
  {}

  lemma AppendKeepsOrder(history: seq<Chunk>, total: nat, chunk: Chunk)
    requires Ordered(history, total) && chunk.at == total
    ensures Ordered(history + [chunk], chunk.End())
  {}

  lemma AppendKeepsRetained(chunks: seq<Chunk>, history: seq<Chunk>, total: nat, chunk: Chunk)
    requires Retains(chunks, history) && Contiguous(chunks, total) && chunk.at == total
    ensures Retains(chunks + [chunk], history + [chunk]) && Contiguous(chunks + [chunk], chunk.End())
    ensures Earliest(chunks + [chunk], chunk.End()) == Earliest(chunks, total)
  {
    assert CutFrom(chunk, 0) == chunk;
  }

  /** Dropping the head of an oversized ring drops no boundary that would fit. */
  lemma DropHead(chunks: seq<Chunk>, history: seq<Chunk>, total: nat, limit: nat, before: nat)
    requires Ordered(history, total) && Contiguous(chunks, total) && Retains(chunks, history) && |chunks| > 1
    requires before <= chunks[0].at <= total && total - chunks[0].at > limit
    requires KeepsAll(history, total, limit, before, chunks[0].at)
    ensures Contiguous(chunks[1..], total) && Retains(chunks[1..], history)
    ensures chunks[0].at + |chunks[0].data| == chunks[1].at <= total
    ensures KeepsAll(history, total, limit, before, chunks[1].at)
  {
    var skip := |history| - |chunks|;
    assert CutFrom(chunks[1], 0) == chunks[1];
    Ends(chunks, total, 1);
    forall k | 0 <= k < |history| && history[k].at >= before && total - history[k].at <= limit
      ensures chunks[1].at <= history[k].at
    {
      if k <= skip {
        Earlier(history, total, k, skip);
      } else {
        Earlier(history, total, skip + 1, k);
      }
    }
  }

  lemma {:induction false} Earlier(history: seq<Chunk>, total: nat, i: nat, k: nat)
    requires Contiguous(history, total) && i <= k < |history|
    ensures history[i].at <= history[k].at
    decreases k - i
  {
    if i < k {
      Earlier(history, total, i + 1, k);
    }
  }

  lemma CutSingle(single: Chunk, history: seq<Chunk>, total: nat, limit: nat, cut: nat, before: nat)
    requires Ordered(history, total) && Contiguous([single], total) && Retains([single], history)
    requires before <= single.at && total - single.at > limit && |single.data| - limit <= cut <= |single.data|
    requires KeepsAll(history, total, limit, before, single.at)
    ensures Contiguous([CutFrom(single, cut)], total) && Retains([CutFrom(single, cut)], history)
    ensures KeepsAll(history, total, limit, before, single.at + cut)
  {
    var skip := |history| - 1;
    var whole := history[skip];
    assert IsTail(CutFrom(single, cut), whole) by {
      assert single.data[cut..] == whole.data[single.at - whole.at..][cut..];
    }
    forall k | 0 <= k < |history| ensures history[k].at <= single.at {
      Earlier(history, total, k, skip);
    }
  }
}
