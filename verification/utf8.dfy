/**
  UTF-8 as section 4 of RFC 3629 defines it, and the replacement of ill-formed bytes by
  maximal subparts (section 3.9 of the Unicode Standard): the decoder of job output
  (internal/app/job/ring.go) against that reference.
 */
module Utf8 {

  type Byte = b: int | 0 <= b < 256
  type Bytes = seq<Byte>

  const REPLACEMENT: Bytes := [0xEF, 0xBF, 0xBD]
  const RUNE_ERROR: int := 0xFFFD
  const UTF_MAX: nat := 4

  // ----- RFC 3629, section 4 -----

  /** How many bytes a sequence with this first byte has; 0 when none starts so. */
  function Length(first: Byte): (n: nat)
    ensures n <= UTF_MAX
  {
    if first < 0x80 then 1
    else if first < 0xC2 then 0
    else if first < 0xE0 then 2
    else if first < 0xF0 then 3
    else if first < 0xF5 then 4
    else 0
  }

  predicate Tail(b: Byte) { 0x80 <= b <= 0xBF }

  /** The second bytes that may follow a first byte. */
  predicate Second(first: Byte, b: Byte) {
    if first == 0xE0 then 0xA0 <= b <= 0xBF
    else if first == 0xED then 0x80 <= b <= 0x9F
    else if first == 0xF0 then 0x90 <= b <= 0xBF
    else if first == 0xF4 then 0x80 <= b <= 0x8F
    else Tail(b)
  }

  /** A non-empty beginning of some well-formed sequence. */
  predicate Viable(s: Bytes) {
    && 1 <= |s| <= (if s == [] then 0 else Length(s[0]))
    && (|s| > 1 ==> Second(s[0], s[1])) && (|s| > 2 ==> Tail(s[2])) && (|s| > 3 ==> Tail(s[3]))
  }

  predicate WellFormed(s: Bytes) { Viable(s) && |s| == Length(s[0]) }

  /** A beginning that later bytes could still complete. */
  predicate Incomplete(s: Bytes) { Viable(s) && |s| < Length(s[0]) }

  /** Six more bits from a tail byte. */
  function Join(high: int, tail: Byte): int { high * 64 + (tail - 0x80) as int }

  /** The code point of a well-formed sequence. */
  function RuneOf(s: Bytes): (rune: int)
    requires WellFormed(s)
  {
    var first: int := s[0];
    if |s| == 1 then first
    else if |s| == 2 then Join(first - 0xC0, s[1])
    else if |s| == 3 then Join(Join(first - 0xE0, s[1]), s[2])
    else Join(Join(Join(first - 0xF0, s[1]), s[2]), s[3])
  }

  /** A Unicode scalar value. */
  predicate Scalar(rune: int) { 0 <= rune < 0xD800 || 0xE000 <= rune < 0x110000 }

  function Low(rune: int): Byte { 0x80 + rune % 64 }

  function Encode(rune: int): Bytes
    requires Scalar(rune)
  {
    if rune < 0x80 then [rune]
    else if rune < 0x800 then [0xC0 + rune / 64, Low(rune)]
    else if rune < 0x10000 then [0xE0 + rune / 64 / 64, Low(rune / 64), Low(rune)]
    else [0xF0 + rune / 64 / 64 / 64, Low(rune / 64 / 64), Low(rune / 64), Low(rune)]
  }

  lemma JoinSplits(high: int, tail: Byte)
    requires Tail(tail)
    ensures Join(high, tail) / 64 == high && Low(Join(high, tail)) == tail
  {}

  lemma SplitJoins(rune: int)
    ensures Tail(Low(rune)) && Join(rune / 64, Low(rune)) == rune
  {}

  /** Well-formed sequences and scalar values correspond one to one. */
  lemma EncodeDecodes(s: Bytes)
    requires WellFormed(s)
    ensures Scalar(RuneOf(s)) && Encode(RuneOf(s)) == s
  {
    if |s| == 2 {
      JoinSplits(s[0] as int - 0xC0, s[1]);
    } else if |s| == 3 {
      var high := Join(s[0] as int - 0xE0, s[1]);
      JoinSplits(s[0] as int - 0xE0, s[1]);
      JoinSplits(high, s[2]);
    } else if |s| == 4 {
      var high := Join(s[0] as int - 0xF0, s[1]);
      JoinSplits(s[0] as int - 0xF0, s[1]);
      JoinSplits(high, s[2]);
      JoinSplits(Join(high, s[2]), s[3]);
    }
  }

  lemma DecodeEncodes(rune: int)
    requires Scalar(rune)
    ensures WellFormed(Encode(rune)) && RuneOf(Encode(rune)) == rune
  {
    SplitJoins(rune);
    SplitJoins(rune / 64);
    SplitJoins(rune / 64 / 64);
    if rune < 0x800 {
      DecodeEncodesShort(rune);
    } else if rune < 0x10000 {
      DecodeEncodesThree(rune, rune / 64, rune / 64 / 64);
    } else {
      DecodeEncodesFour(rune, rune / 64, rune / 64 / 64, rune / 64 / 64 / 64);
    }
  }

  lemma DecodeEncodesShort(rune: int)
    requires 0 <= rune < 0x800
    ensures WellFormed(Encode(rune)) && RuneOf(Encode(rune)) == rune
  {
    SplitJoins(rune);
  }

  lemma DecodeEncodesThree(rune: int, q: int, p: int)
    requires Scalar(rune) && 0x800 <= rune < 0x10000 && q == rune / 64 && p == q / 64
    ensures WellFormed(Encode(rune)) && RuneOf(Encode(rune)) == rune
  {
    SplitJoins(rune);
    SplitJoins(q);
    var s := [0xE0 + p, Low(q), Low(rune)];
    assert Encode(rune) == s;
    assert rune == (64 * p + (s[1] - 0x80) as int) * 64 + (s[2] - 0x80) as int;
    hide Low;
    assert Viable(s);
  }

  lemma DecodeEncodesFour(rune: int, q: int, p: int, o: int)
    requires 0x10000 <= rune < 0x110000 && q == rune / 64 && p == q / 64 && o == p / 64
    ensures WellFormed(Encode(rune)) && RuneOf(Encode(rune)) == rune
  {
    SplitJoins(rune);
    SplitJoins(q);
    SplitJoins(p);
    var s := [0xF0 + o, Low(p), Low(q), Low(rune)];
    assert Encode(rune) == s;
    hide Low;
    assert Viable(s);
  }

  // ----- the library routines the decoder calls -----

  predicate RuneStart(b: Byte) { !Tail(b) }

  /** The first character and its width; an ill-formed start is the error rune of width one. */
  function DecodeRune(data: Bytes): (r: (int, nat))
    requires data != []
    ensures 1 <= r.1 <= |data|
  {
    var n := Length(data[0]);
    if 1 <= n <= |data| && WellFormed(data[..n]) then (RuneOf(data[..n]), n) else (RUNE_ERROR, 1)
  }

  /** FullRune: the bytes begin with a whole encoding, an ill-formed one counting as whole. */
  predicate FullRune(data: Bytes) {
    data != [] && !Incomplete(data)
  }

  function WriteRune(rune: int): Bytes {
    if Scalar(rune) then Encode(rune) else REPLACEMENT
  }

  // ----- the reference: maximal subparts -----

  /** How many bytes the text unit at the start of data takes. */
  function Unit(data: Bytes): (n: nat)
    requires data != []
    ensures 1 <= n <= |data| && n <= UTF_MAX
  {
    var length := Length(data[0]);
    if length < 2 || |data| < 2 || !Second(data[0], data[1]) then 1
    else if length == 2 || |data| < 3 || !Tail(data[2]) then 2
    else if length == 3 || |data| < 4 || !Tail(data[3]) then 3
    else 4
  }

  /** A unit is a whole character, the longest beginning of one, or a single byte that begins none. */
  lemma UnitIsMaximal(data: Bytes)
    requires data != []
    ensures var n := Unit(data);
      && (Viable(data[..n]) || (n == 1 && forall k :: 1 <= k <= |data| ==> !Viable(data[..k])))
      && forall k :: n < k <= |data| ==> !Viable(data[..k])
  {
    var n := Unit(data);
    assert data[..n][0] == data[0];
  }

  /** A whole character stands for itself, anything else for one replacement. */
  function TextOf(unit: Bytes): Bytes {
    if WellFormed(unit) then unit else REPLACEMENT
  }

  function Decoded(data: Bytes): Bytes {
    if data == [] then [] else TextOf(data[..Unit(data)]) + Decoded(data[Unit(data)..])
  }

  // ----- the decoder -----

  /** How far the decoder's own loop extends an ill-formed start. */
  lemma ExtendedUnit(data: Bytes, size: nat)
    requires data != [] && !WellFormed(data[..Unit(data)])
    requires 1 <= size <= |data| && size <= UTF_MAX
    requires forall k :: 1 <= k < size ==> Incomplete(data[..k])
    requires size == |data| || size == UTF_MAX || FullRune(data[..size])
    ensures Unit(data) == if size > 1 && FullRune(data[..size]) then size - 1 else size
  {
    UnitIsMaximal(data);
    var n := Unit(data);
    if size > 1 {
      assert Incomplete(data[..size - 1]);
    }
    if n >= size && Viable(data[..n]) {
      ViablePrefix(data[..n], size);
      assert data[..n][..size] == data[..size];
    }
    assert size <= n + 1;
  }

  lemma ViablePrefix(s: Bytes, k: nat)
    requires Viable(s) && 1 <= k <= |s|
    ensures Viable(s[..k])
  {}

  /** The first character is whole exactly when the unit is. */
  lemma DecodeRuneUnit(data: Bytes)
    requires data != []
    ensures var (rune, size) := DecodeRune(data);
      if WellFormed(data[..Unit(data)]) then size == Unit(data) && WriteRune(rune) == data[..size] && !(rune == RUNE_ERROR && size == 1)
      else rune == RUNE_ERROR && size == 1
  {
    var n := Length(data[0]);
    UnitIsMaximal(data);
    if 1 <= n <= |data| && WellFormed(data[..n]) {
      EncodeDecodes(data[..n]);
      assert Unit(data) == n;
    }
  }

  /** One turn of the decoder's loop: the rune to write and the bytes it took. */
  method NextRune(data: Bytes) returns (rune: int, size: nat)
    requires data != []
    ensures size == Unit(data) && WriteRune(rune) == TextOf(data[..size])
  {
    var first := DecodeRune(data);
    rune, size := first.0, first.1;
    DecodeRuneUnit(data);
    if rune == RUNE_ERROR && size == 1 {
      while size < |data| && size < UTF_MAX && !FullRune(data[..size])
        invariant 1 <= size <= |data| && size <= UTF_MAX
        invariant forall k :: 1 <= k < size ==> Incomplete(data[..k])
      {
        size := size + 1;
      }
      ExtendedUnit(data, size);
      if size > 1 && FullRune(data[..size]) {
        size := size - 1;
      }
      ReplacementEncoded();
    }
  }

  method DecodeUTF8(input: Bytes) returns (text: Bytes)
    ensures text == Decoded(input)
  {
    hide WriteRune, TextOf, Unit;
    text := [];
    var data := input;
    while |data| > 0
      invariant text + Decoded(data) == Decoded(input)
      decreases |data|
    {
      var rune, size := NextRune(data);
      assert Decoded(data) == WriteRune(rune) + Decoded(data[size..]);
      text := text + WriteRune(rune);
      data := data[size..];
    }
  }

  lemma ReplacementEncoded()
    ensures WriteRune(RUNE_ERROR) == REPLACEMENT
  {}
}
