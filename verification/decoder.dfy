/**
  The streaming decoder of job output (Output in internal/app/job/ring.go): an incomplete
  trailing sequence waits for the next write, and the decoded text does not depend on
  where the writes were cut.
 */
module Decoder {
  import opened Utf8

  /** No suffix waits for more bytes. */
  ghost predicate Whole(s: Bytes) {
    forall i :: 0 <= i < |s| ==> !Incomplete(s[i..])
  }

  /** Decoding does not see across this cut, whatever follows it. */
  ghost predicate Seam(left: Bytes, right: Bytes) {
    Whole(left) || (right != [] && RuneStart(right[0]))
  }

  lemma ViableParts(s: Bytes, k: nat)
    requires Viable(s) && 1 <= k < |s|
    ensures Incomplete(s[..k]) && Tail(s[k])
  {}

  /** A character across the cut means the left part ends incomplete, and what follows continues it. */
  lemma AcrossIsNoSeam(left: Bytes, right: Bytes, n: nat)
    requires left != [] && |left| < n <= |left + right| && Viable((left + right)[..n])
    ensures !Seam(left, right)
  {
    var s := (left + right)[..n];
    ViableParts(s, |left|);
    assert s[..|left|] == left && s[|left|] == right[0];
    assert left[0..] == left;
  }

  /** The first unit of the left part is not longer for what follows a seam. */
  lemma UnitAtSeam(left: Bytes, right: Bytes)
    requires left != [] && Seam(left, right)
    ensures Unit(left + right) == Unit(left) <= |left|
  {
    var all := left + right;
    var n := Unit(all);
    UnitIsMaximal(all);
    if n > |left| {
      AcrossIsNoSeam(left, right, n);
    }
    UnitIsLocal(left, right);
  }

  /** A unit is decided by its own bytes and the one after it. */
  lemma UnitIsLocal(left: Bytes, right: Bytes)
    requires left != [] && Unit(left + right) <= |left|
    ensures Unit(left) == Unit(left + right)
  {
    assert forall i :: 0 <= i < |left| ==> (left + right)[i] == left[i];
  }

  /** The text of two parts cut at a seam is the text of each, one after the other. */
  lemma {:induction false} DecodedAtSeam(left: Bytes, right: Bytes)
    requires Seam(left, right) || right == []
    ensures Decoded(left + right) == Decoded(left) + Decoded(right)
    decreases |left|
  {
    var all := left + right;
    if right == [] {
      assert all == left;
    } else if left == [] {
      assert all == right;
    } else {
      UnitAtSeam(left, right);
      var n := Unit(left);
      assert all[..n] == left[..n] && all[n..] == left[n..] + right;
      assert Seam(left[n..], right) by {
        if Whole(left) {
          assert forall i :: 0 <= i < |left[n..]| ==> left[n..][i..] == left[n + i..];
        }
      }
      DecodedAtSeam(left[n..], right);
      hide Unit, TextOf;
      assert Decoded(all) == TextOf(all[..n]) + Decoded(all[n..]);
    }
  }

  // ----- incompleteSuffix -----

  /** How many trailing bytes form a sequence later bytes could complete. */
  method IncompleteSuffix(data: Bytes) returns (held: nat)
    ensures held <= |data| && held < UTF_MAX
    ensures held > 0 ==> Incomplete(data[|data| - held..])
    ensures held == 0 ==> Whole(data)
  {
    var size := 1;
    while size < UTF_MAX && size <= |data|
      invariant 1 <= size <= UTF_MAX
      invariant forall j :: |data| - size < j < |data| && 0 <= j ==> Tail(data[j])
    {
      var start := |data| - size;
      if RuneStart(data[start]) {
        if FullRune(data[start..]) {
          WholeFrom(data, size);
          return 0;
        }
        return size;
      }
      size := size + 1;
    }
    WholeTails(data, size);
    return 0;
  }

  lemma IncompleteShape(s: Bytes)
    requires Incomplete(s)
    ensures 1 <= |s| < UTF_MAX && RuneStart(s[0]) && forall k :: 1 <= k < |s| ==> Tail(s[k])
  {}

  lemma WholeFrom(data: Bytes, size: nat)
    requires 1 <= size <= |data| && size < UTF_MAX
    requires forall j :: |data| - size < j < |data| ==> Tail(data[j])
    requires RuneStart(data[|data| - size]) && FullRune(data[|data| - size..])
    ensures Whole(data)
  {
    var start := |data| - size;
    forall i | 0 <= i < |data| ensures !Incomplete(data[i..]) {
      if i < start {
        assert data[i..][start - i] == data[start];
      } else if i > start {
        assert Tail(data[i..][0]);
      }
    }
  }

  lemma WholeTails(data: Bytes, size: nat)
    requires size == UTF_MAX || size > |data|
    requires forall j :: |data| - size < j < |data| && 0 <= j ==> Tail(data[j])
    ensures Whole(data)
  {
    forall i | 0 <= i < |data| ensures !Incomplete(data[i..]) {
      if |data| - i < UTF_MAX {
        assert Tail(data[i..][0]);
      }
    }
  }

  // ----- the stream -----

  /** One more piece after a seam: what is held back moves, the seam stays one. */
  lemma SeamMoves(done: Bytes, pending: Bytes, part: Bytes, held: Bytes)
    requires Seam(done, pending) && pending <= part + held
    requires if held == [] then Whole(part) else Incomplete(held)
    ensures Seam(done, part) || part == []
    ensures Seam(done + part, held)
  {
    if held != [] {
      IncompleteShape(held);
    }
    if part == [] {
      assert done + part == done;
      if held == [] {
        assert pending == [];
      }
    } else {
      assert (part + held)[0] == part[0];
      assert pending != [] ==> pending[0] == (part + held)[0];
      if held == [] {
        WholeJoin(done, part);
      }
    }
  }

  lemma WholeJoin(left: Bytes, right: Bytes)
    requires Seam(left, right) && right != [] && Whole(right)
    ensures Whole(left + right)
  {
    var all := left + right;
    forall i | 0 <= i < |all| ensures !Incomplete(all[i..]) {
      if i >= |left| {
        assert all[i..] == right[i - |left|..];
      } else {
        assert all[i..] == left[i..] + right && all[i..][..|all| - i] == all[i..];
        assert Seam(left[i..], right) by {
          if Whole(left) {
            assert forall k :: 0 <= k < |left[i..]| ==> left[i..][k..] == left[i + k..];
          }
        }
        if Incomplete(all[i..]) {
          AcrossIsNoSeam(left[i..], right, |all| - i);
        }
      }
    }
  }

  /** The appended text is that of everything written but the pending bytes, cut at a seam. */
  ghost predicate Consistent(written: Bytes, pending: Bytes, appended: Bytes) {
    exists done :: CutAt(written, pending, appended, done)
  }

  ghost predicate CutAt(written: Bytes, pending: Bytes, appended: Bytes, done: Bytes) {
    written == done + pending && Seam(done, pending) && appended == Decoded(done)
  }

  lemma NothingYet()
    ensures Consistent([], [], [])
  {
    var none: Bytes := [];
    assert CutAt(none, none, none, none);
  }

  lemma Reassociate(done: Bytes, pending: Bytes, data: Bytes, complete: nat)
    requires complete <= |pending + data|
    ensures var all := pending + data;
      done + pending + data == (done + all[..complete]) + all[complete..] && all == all[..complete] + all[complete..]
  {}

  lemma MoreWritten(written: Bytes, pending: Bytes, appended: Bytes, data: Bytes, complete: nat)
    requires Consistent(written, pending, appended)
    requires complete <= |pending + data|
    requires var held := (pending + data)[complete..];
      if held == [] then Whole(pending + data) else Incomplete(held)
    ensures var all := pending + data;
      Consistent(written + data, all[complete..], appended + Decoded(all[..complete]))
  {
    var all := pending + data;
    var part, held := all[..complete], all[complete..];
    var done :| CutAt(written, pending, appended, done);
    Reassociate(done, pending, data, complete);
    assert held == [] ==> part == all;
    assert pending <= part + held;
    hide Seam, Whole, Incomplete, Decoded;
    SeamMoves(done, pending, part, held);
    DecodedAtSeam(done, part);
    assert CutAt(written + data, held, appended + Decoded(part), done + part);
  }

  lemma Flushed(written: Bytes, pending: Bytes, appended: Bytes)
    requires Consistent(written, pending, appended)
    ensures appended + Decoded(pending) == Decoded(written)
  {
    var done :| CutAt(written, pending, appended, done);
    DecodedAtSeam(done, pending);
  }

  datatype Channel = Stdout | Stderr
  {
    function Index(): (index: nat) ensures index < 2 { if Stdout? then 0 else 1 }
  }

  /** Only a sequence that later bytes could complete is held back. */
  predicate Held(pending: Bytes) { pending == [] || Incomplete(pending) }

  /** What a producer appends to its job's ring, per channel. */
  class Output {
    var pending: seq<Bytes>
    ghost var written: seq<Bytes>
    ghost var appended: seq<Bytes>

    ghost predicate Valid() reads this {
      && |pending| == |written| == |appended| == 2
      && Consistent(written[0], pending[0], appended[0]) && Consistent(written[1], pending[1], appended[1])
      && Held(pending[0]) && Held(pending[1])
    }

    constructor ()
      ensures Valid() && written == [[], []] && appended == [[], []]
    {
      pending, written, appended := [[], []], [[], []], [[], []];
      NothingYet();
    }

    /** Appends the complete prefix of the held bytes plus data, decoded, and holds back the rest. */
    method Write(channel: Channel, data: Bytes) returns (text: Bytes)
      requires Valid()
      modifies this
      ensures Valid()
      ensures written == old(written)[channel.Index() := old(written)[channel.Index()] + data]
      ensures appended == old(appended)[channel.Index() := old(appended)[channel.Index()] + text]
    {
      hide Consistent, Incomplete, Whole, Decoded;
      var c := channel.Index();
      var all := pending[c] + data;
      var held := IncompleteSuffix(all);
      var complete := |all| - held;
      text := DecodeUTF8(all[..complete]);
      MoreWritten(written[c], pending[c], appended[c], data, complete);
      pending := pending[c := all[complete..]];
      written := written[c := written[c] + data];
      appended := appended[c := appended[c] + text];
    }

    /** Decodes what is held back when the job ends; then each channel's text is that of all it wrote. */
    method Flush() returns (stdout: Bytes, stderr: Bytes)
      requires Valid()
      modifies this
      ensures written == old(written) && pending == [[], []]
      ensures appended == [old(appended)[0] + stdout, old(appended)[1] + stderr]
      ensures appended == [Decoded(written[0]), Decoded(written[1])]
    {
      stdout := DecodeUTF8(pending[0]);
      stderr := DecodeUTF8(pending[1]);
      Flushed(written[0], pending[0], appended[0]);
      Flushed(written[1], pending[1], appended[1]);
      hide Consistent, Decoded;
      appended := [appended[0] + stdout, appended[1] + stderr];
      pending := [[], []];
    }
  }

  function Concat(writes: seq<Bytes>): Bytes {
    if writes == [] then [] else writes[0] + Concat(writes[1..])
  }

  lemma ConcatNext(before: Bytes, writes: seq<Bytes>, i: nat)
    requires i < |writes|
    ensures before + Concat(writes[i..]) == before + writes[i] + Concat(writes[i + 1..])
  {
    assert writes[i..][1..] == writes[i + 1..];
  }

  /** Any split of the bytes into writes leaves the same text in the end. */
  method WriteAll(channel: Channel, writes: seq<Bytes>) returns (text: Bytes)
    ensures text == Decoded(Concat(writes))
  {
    var output := new Output();
    var c := channel.Index();
    text := [];
    assert writes[0..] == writes;
    hide Consistent, Decoded, Concat;
    for i := 0 to |writes|
      invariant output.Valid() && fresh(output)
      invariant output.written[c] + Concat(writes[i..]) == Concat(writes)
      invariant text == output.appended[c]
    {
      ConcatNext(output.written[c], writes, i);
      var piece := output.Write(channel, writes[i]);
      text := text + piece;
    }
    NothingLeft(output.written[c], writes);
    var stdout, stderr := output.Flush();
    text := text + if channel == Stdout then stdout else stderr;
  }

  lemma NothingLeft(before: Bytes, writes: seq<Bytes>)
    ensures before + Concat(writes[|writes|..]) == before
  {}
}
