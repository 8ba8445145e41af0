/**
  The preview of an oversized tool result (internal/app/tool/spill.go): the longest start
  and end a token budget allows around a notice naming what was left out. Text is a
  sequence of characters, each of one or two UTF-16 units and one to four UTF-8 bytes.
 */
module Spill {
  import opened Records
  import Notices

  const CHARS_PER_TOKEN := 4
  const BLOCK_OVERHEAD := 4
  const INLINE_TOKENS := 12500
  const GAP := "\n\n[...]\n\n"

  datatype Ref = Ref(locator: string, hint: string)

  function RuneUnits(c: char): nat { if c as int < 0x10000 then 1 else 2 }

  function RuneBytes(c: char): nat {
    if c as int < 0x80 then 1 else if c as int < 0x800 then 2 else if c as int < 0x10000 then 3 else 4
  }

  /** utf16Length. */
  function Units(text: string): nat {
    if text == "" then 0 else Units(text[..|text| - 1]) + RuneUnits(text[|text| - 1])
  }

  /** len of the UTF-8 string. */
  function Bytes(text: string): nat {
    if text == "" then 0 else Bytes(text[..|text| - 1]) + RuneBytes(text[|text| - 1])
  }

  lemma {:induction false} UnitsConcat(a: string, b: string)
    ensures Units(a + b) == Units(a) + Units(b)
  {
    if b == "" {
      assert a + b == a;
    } else {
      assert (a + b)[..|a + b| - 1] == a + b[..|b| - 1];
      UnitsConcat(a, b[..|b| - 1]);
    }
  }

  lemma {:induction false} BytesConcat(a: string, b: string)
    ensures Bytes(a + b) == Bytes(a) + Bytes(b)
  {
    if b == "" {
      assert a + b == a;
    } else {
      assert (a + b)[..|a + b| - 1] == a + b[..|b| - 1];
      BytesConcat(a, b[..|b| - 1]);
    }
  }

  lemma {:induction false} UnitsPositive(text: string)
    requires text != ""
    ensures Units(text) > 0
  {}

  /** estimateTokens. */
  function Estimate(text: string): nat { Tokens(Units(text)) }

  function Tokens(units: nat): nat { (units + CHARS_PER_TOKEN - 1) / CHARS_PER_TOKEN + BLOCK_OVERHEAD }

  function Limit(budget: int): nat {
    if budget <= BLOCK_OVERHEAD then 0 else (budget - BLOCK_OVERHEAD) * CHARS_PER_TOKEN
  }

  /** A text fits a budget exactly when its units stay within the limit. */
  lemma FitsExactly(text: string, budget: int)
    requires budget >= BLOCK_OVERHEAD
    ensures Estimate(text) <= budget <==> Units(text) <= Limit(budget)
  {}

  /** The head is the longest prefix that fits, the tail the longest suffix. */
  ghost predicate LongestPrefix(text: string, n: nat, budget: int) {
    n <= |text| && forall k :: 0 <= k <= |text| ==> (Units(text[..k]) <= Limit(budget) <==> k <= n)
  }

  ghost predicate LongestSuffix(text: string, from: nat, budget: int) {
    from <= |text| && forall k :: 0 <= k <= |text| ==> (Units(text[k..]) <= Limit(budget) <==> from <= k)
  }

  lemma {:induction false} PrefixGrows(text: string, i: nat, k: nat)
    requires i <= k <= |text|
    ensures Units(text[..i]) <= Units(text[..k])
  {
    assert text[..k] == text[..i] + text[i..k];
    UnitsConcat(text[..i], text[i..k]);
  }

  lemma {:induction false} SuffixGrows(text: string, i: nat, k: nat)
    requires i <= k <= |text|
    ensures Units(text[k..]) <= Units(text[i..])
  {
    assert text[i..] == text[i..k] + text[k..];
    UnitsConcat(text[i..k], text[k..]);
  }

  method FitHead(text: string, budget: int) returns (n: nat)
    ensures LongestPrefix(text, n, budget)
  {
    var limit := Limit(budget);
    var units := 0;
    for index := 0 to |text|
      invariant units == Units(text[..index]) <= limit
    {
      assert text[..index + 1][..index] == text[..index];
      units := units + RuneUnits(text[index]);
      if units > limit {
        HeadIsLongest(text, index, budget);
        return index;
      }
    }
    HeadIsLongest(text, |text|, budget);
    return |text|;
  }

  lemma HeadIsLongest(text: string, n: nat, budget: int)
    requires n <= |text| && Units(text[..n]) <= Limit(budget)
    requires n < |text| ==> Units(text[..n + 1]) > Limit(budget)
    ensures LongestPrefix(text, n, budget)
  {
    forall k | 0 <= k <= |text| ensures Units(text[..k]) <= Limit(budget) <==> k <= n {
      if k <= n {
        PrefixGrows(text, k, n);
      } else {
        PrefixGrows(text, n + 1, k);
      }
    }
  }

  method FitTail(text: string, budget: int) returns (cut: nat)
    ensures LongestSuffix(text, cut, budget)
  {
    var limit := Limit(budget);
    var units := 0;
    cut := |text|;
    while cut > 0
      invariant cut <= |text| && units == Units(text[cut..]) <= limit
    {
      var c := text[cut - 1];
      TailStep(text, cut);
      if units + RuneUnits(c) > limit {
        break;
      }
      units := units + RuneUnits(c);
      cut := cut - 1;
    }
    TailIsLongest(text, cut, budget);
  }

  lemma TailStep(text: string, cut: nat)
    requires 0 < cut <= |text|
    ensures Units(text[cut - 1..]) == Units(text[cut..]) + RuneUnits(text[cut - 1])
  {
    assert text[cut - 1..] == [text[cut - 1]] + text[cut..];
    UnitsConcat([text[cut - 1]], text[cut..]);
    assert [text[cut - 1]][..0] == "";
  }

  lemma TailIsLongest(text: string, cut: nat, budget: int)
    requires cut <= |text| && Units(text[cut..]) <= Limit(budget)
    requires cut > 0 ==> Units(text[cut - 1..]) > Limit(budget)
    ensures LongestSuffix(text, cut, budget)
  {
    forall k | 0 <= k <= |text| ensures Units(text[k..]) <= Limit(budget) <==> cut <= k {
      if k >= cut {
        SuffixGrows(text, cut, k);
      } else {
        SuffixGrows(text, k, cut - 1);
      }
    }
  }

  // ----- the preview -----

  const BEFORE_COUNT := "(Omitted "
  const AFTER_COUNT := " bytes. Full formatted result stored at: "

  function Notice(omitted: nat, ref: Ref): string {
    BEFORE_COUNT + Notices.Itoa(omitted) + (AFTER_COUNT + ref.locator + ". " + ref.hint + ")")
  }

  lemma {:induction false} ItoaUnits(n: nat)
    ensures Units(Notices.Itoa(n)) == |Notices.Itoa(n)|
  {
    var text := Notices.Itoa(n);
    if n < 10 {
      assert text[..0] == "";
    } else {
      ItoaUnits(n / 10);
      assert text[..|text| - 1] == Notices.Itoa(n / 10);
    }
  }

  lemma {:induction false} ItoaGrows(m: nat, n: nat)
    requires m <= n
    ensures |Notices.Itoa(m)| <= |Notices.Itoa(n)|
  {
    if m >= 10 {
      ItoaGrows(m / 10, n / 10);
    }
  }

  /** A smaller count never makes the notice longer. */
  lemma NoticeGrows(m: nat, n: nat, ref: Ref)
    requires m <= n
    ensures Units(Notice(m, ref)) <= Units(Notice(n, ref))
  {
    var rest := AFTER_COUNT + ref.locator + ". " + ref.hint + ")";
    ItoaUnits(m);
    ItoaUnits(n);
    ItoaGrows(m, n);
    UnitsConcat(BEFORE_COUNT, Notices.Itoa(m));
    UnitsConcat(BEFORE_COUNT, Notices.Itoa(n));
    UnitsConcat(BEFORE_COUNT + Notices.Itoa(m), rest);
    UnitsConcat(BEFORE_COUNT + Notices.Itoa(n), rest);
  }

  function Available(text: string, ref: Ref, budget: int): nat {
    var rest := budget - Estimate(GAP) - Estimate("\n\n" + Notice(Bytes(text), ref));
    if rest > 0 then rest else 0
  }

  /** The layout of a preview that keeps text[..head] and text[tail..]. */
  function Layout(text: string, head: nat, tail: nat, ref: Ref): string
    requires head <= tail <= |text|
  {
    var notice := Notice(Bytes(text[head..tail]), ref);
    if head == 0 && tail == |text| then notice else text[..head] + GAP + text[tail..] + "\n\n" + notice
  }

  lemma OmittedExactly(text: string, head: nat, tail: nat)
    requires head <= tail <= |text|
    ensures Bytes(text) - Bytes(text[..head]) - Bytes(text[tail..]) == Bytes(text[head..tail])
  {
    hide Bytes;
    BytesConcat(text[..head], text[head..]);
    BytesConcat(text[head..tail], text[tail..]);
    assert text == text[..head] + text[head..];
    assert text[head..] == text[head..tail] + text[tail..];
  }

  lemma LayoutUnits(text: string, head: nat, tail: nat, ref: Ref)
    requires head <= tail <= |text| && !(head == 0 && tail == |text|)
    ensures Units(Layout(text, head, tail, ref))
         == Units(text[..head]) + Units(GAP) + Units(text[tail..]) + Units("\n\n" + Notice(Bytes(text[head..tail]), ref))
  {
    var notice := Notice(Bytes(text[head..tail]), ref);
    hide Units, Bytes, Notice;
    UnitsConcat(text[..head], GAP);
    UnitsConcat(text[..head] + GAP, text[tail..]);
    UnitsConcat(text[..head] + GAP + text[tail..], "\n\n" + notice);
    assert Layout(text, head, tail, ref) == text[..head] + GAP + text[tail..] + ("\n\n" + notice);
  }

  /** Whatever is kept within the limits, the preview's estimate is within the budget. */
  lemma LayoutFits(text: string, head: nat, tail: nat, ref: Ref, budget: int)
    requires head <= tail <= |text| && Estimate(Notice(Bytes(text), ref)) <= budget
    requires var available := Available(text, ref, budget);
      Units(text[..head]) <= Limit((available + 1) / 2) && Units(text[tail..]) <= Limit(available / 2)
    ensures Estimate(Layout(text, head, tail, ref)) <= budget
  {
    hide *;
    var available := Available(text, ref, budget);
    if head == 0 && tail == |text| {
      AllOmitted(text, ref);
    } else {
      KeptNeedsRoom(text, head, tail, available);
      RoomIsExact(text, ref, budget);
      KeptFits(text, head, tail, ref, budget, available);
      EstimateIsTokens(Layout(text, head, tail, ref));
    }
  }

  lemma EstimateIsTokens(text: string)
    ensures Estimate(text) == Tokens(Units(text))
  {}

  lemma RoomIsExact(text: string, ref: Ref, budget: int)
    ensures var available := Available(text, ref, budget);
      available > 0 ==> available == budget - Tokens(Units(GAP)) - Tokens(Units("\n\n" + Notice(Bytes(text), ref)))
  {
    hide Units, Bytes, Notice, Tokens;
  }

  lemma AllOmitted(text: string, ref: Ref)
    ensures Layout(text, 0, |text|, ref) == Notice(Bytes(text), ref)
  {
    assert text[0..|text|] == text;
    hide Bytes, Notice;
  }

  lemma KeptFits(text: string, head: nat, tail: nat, ref: Ref, budget: int, available: nat)
    requires head <= tail <= |text| && !(head == 0 && tail == |text|) && available > 0
    requires available == budget - Tokens(Units(GAP)) - Tokens(Units("\n\n" + Notice(Bytes(text), ref)))
    requires Units(text[..head]) <= Limit((available + 1) / 2) && Units(text[tail..]) <= Limit(available / 2)
    ensures Tokens(Units(Layout(text, head, tail, ref))) <= budget
  {
    hide *;
    var omitted, worst := Notice(Bytes(text[head..tail]), ref), Notice(Bytes(text), ref);
    OmittedExactly(text, head, tail);
    NoticeGrows(Bytes(text[head..tail]), Bytes(text), ref);
    LayoutUnits(text, head, tail, ref);
    UnitsConcat("\n\n", omitted);
    UnitsConcat("\n\n", worst);
    Rounding(Units(text[..head]), Units(GAP), Units(text[tail..]), Units("\n\n" + omitted), Units("\n\n" + worst), budget);
  }

  lemma KeptNeedsRoom(text: string, head: nat, tail: nat, available: nat)
    requires head <= tail <= |text| && (head > 0 || tail < |text|)
    requires Units(text[..head]) <= Limit((available + 1) / 2) && Units(text[tail..]) <= Limit(available / 2)
    ensures available > 0
  {
    if head > 0 {
      UnitsPositive(text[..head]);
    } else {
      UnitsPositive(text[tail..]);
    }
  }

  lemma Rounding(head: nat, gap: nat, tail: nat, notice: nat, worst: nat, budget: int)
    requires notice <= worst
    requires var available := budget - Tokens(gap) - Tokens(worst);
      available > 0 && head <= Limit((available + 1) / 2) && tail <= Limit(available / 2)
    ensures Tokens(head + gap + tail + notice) <= budget
  {}

  /** What a successful preview is: both ends the longest that fit, disjoint, the gap counted exactly. */
  ghost predicate IsPreview(text: string, ref: Ref, budget: int, preview: string) {
    exists head: nat, tail: nat :: PreviewAt(text, ref, budget, preview, head, tail)
  }

  ghost predicate PreviewAt(text: string, ref: Ref, budget: int, preview: string, head: nat, tail: nat) {
    && head <= tail <= |text| && preview == Layout(text, head, tail, ref)
    && LongestPrefix(text, head, (Available(text, ref, budget) + 1) / 2)
    && LongestSuffix(text[head..], tail - head, Available(text, ref, budget) / 2)
  }

  lemma EndsFit(text: string, head: nat, cut: nat, first: int, second: int)
    requires LongestPrefix(text, head, first) && LongestSuffix(text[head..], cut, second)
    ensures head + cut <= |text| && Units(text[..head]) <= Limit(first) && Units(text[head + cut..]) <= Limit(second)
  {
    hide Units;
    assert text[head..][cut..] == text[head + cut..];
  }

  method Preview(text: string, ref: Ref, budget: int) returns (preview: Option<string>)
    ensures preview.Some? <==> Estimate(Notice(Bytes(text), ref)) <= budget
    ensures preview.Some? ==> IsPreview(text, ref, budget, preview.value) && Estimate(preview.value) <= budget
  {
    hide Units, Bytes, Notice, Estimate, Available, LongestPrefix, LongestSuffix, Limit;
    if Estimate(Notice(Bytes(text), ref)) > budget {
      return None;
    }
    var available := Available(text, ref, budget);
    var head := FitHead(text, (available + 1) / 2);
    assert head <= |text| by { HeadWithin(text, head, (available + 1) / 2); }
    var cut := FitTail(text[head..], available / 2);
    EndsFit(text, head, cut, (available + 1) / 2, available / 2);
    var tail := head + cut;
    OmittedExactly(text, head, tail);
    LayoutFits(text, head, tail, ref, budget);
    var notice := Notice(Bytes(text) - Bytes(text[..head]) - Bytes(text[tail..]), ref);
    var kept := notice;
    if !(head == 0 && tail == |text|) {
      kept := text[..head] + GAP + text[tail..] + "\n\n" + notice;
    }
    assert PreviewAt(text, ref, budget, kept, head, tail);
    return Some(kept);
  }

  lemma HeadWithin(text: string, n: nat, budget: int)
    requires LongestPrefix(text, n, budget)
    ensures n <= |text|
  {}

  /** retainInline; saved is the artifact, if the store took it. */
  method RetainInline(text: string, saved: Option<Ref>) returns (result: string)
    ensures Estimate(text) <= INLINE_TOKENS ==> result == text
    ensures result == text || (saved.Some? && IsPreview(text, saved.value, INLINE_TOKENS, result))
    ensures saved.Some? && Estimate(Notice(Bytes(text), saved.value)) <= INLINE_TOKENS ==> Estimate(result) <= INLINE_TOKENS
  {
    if Estimate(text) <= INLINE_TOKENS || saved.None? {
      return text;
    }
    var preview := Preview(text, saved.value, INLINE_TOKENS);
    return if preview.Some? then preview.value else text;
  }

  /** A preview is short enough to pass through the policy unchanged. */
  method RetainTwice(text: string, saved: Option<Ref>, again: Option<Ref>) returns (once: string, twice: string)
    requires saved.Some? && Estimate(Notice(Bytes(text), saved.value)) <= INLINE_TOKENS
    ensures twice == once
  {
    once := RetainInline(text, saved);
    twice := RetainInline(once, again);
  }
}
