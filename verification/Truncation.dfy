/** Tool-result truncation under an uninterpreted tokenizer. */
module Truncation {
  import opened Transcript

  /** A Go string as its runes, except that bytes which are not valid UTF-8 stay bytes. */
  datatype Glyph = Rune(c: char) | BadByte(b: nat)

  type Content = seq<Glyph>

  type ContentCounter = Content -> Option<nat>

  const REPLACEMENT: char := '\U{FFFD}'
  const MARKER: string := "\U{2026}[truncated]"
  const MAX_TOKENIZER_INPUT_BYTES_PER_TOKEN := 64

  function ByteLen(g: Glyph): (n: nat)
    ensures n >= 1
  {
    match g
    case BadByte(_) => 1
    case Rune(c) =>
      var u := c as int;
      if u < 0x80 then 1 else if u < 0x800 then 2 else if u < 0x10000 then 3 else 4
  }

  /** len(content) in bytes. */
  function Len(content: Content): (n: nat)
    ensures n >= |content|
  {
    if content == [] then 0 else ByteLen(content[0]) + Len(content[1..])
  }

  /** []rune(content): every invalid byte becomes the replacement character. */
  function Runes(content: Content): string {
    seq(|content|, i requires 0 <= i < |content| => match content[i] case Rune(c) => c case BadByte(_) => REPLACEMENT)
  }

  /** string(runes). */
  function Text(runes: string): Content {
    seq(|runes|, i requires 0 <= i < |runes| => Rune(runes[i]))
  }

  lemma {:induction false} RunesOfText(runes: string)
    ensures Runes(Text(runes)) == runes
  {}

  function Clamp(content: Content, maxTokens: nat): Content {
    var limit := maxTokens * MAX_TOKENIZER_INPUT_BYTES_PER_TOKEN;
    if Len(content) <= limit then content
    else
      var runes := Runes(content);
      Text(if |runes| > limit then runes[..limit] else runes)
  }

  /** The proportional shrink loop from `keep` runes downwards. */
  function Fit(runes: string, keep: nat, maxTokens: nat, count: ContentCounter): Content
    requires keep <= |runes|
    decreases keep
  {
    if keep == 0 then Text(MARKER)
    else
      var candidate := Text(runes[..keep]) + Text(MARKER);
      match count(candidate)
      case None => candidate
      case Some(n) =>
        if n <= maxTokens then candidate
        else Fit(runes, Shrink(keep, maxTokens, n), maxTokens, count)
  }

  /** Proportional to the overshoot, but always by at least one rune. */
  function Shrink(keep: nat, maxTokens: nat, n: nat): (next: nat)
    requires keep > 0 && n > maxTokens
    ensures next < keep
  {
    KeepInRange(keep, maxTokens, n);
    if keep * maxTokens / n >= keep then keep - 1 else keep * maxTokens / n
  }

  function Truncated(content: Content, maxTokens: int, count: ContentCounter): Content {
    if maxTokens <= 0 then content
    else
      var clamped := Clamp(content, maxTokens);
      match count(clamped)
      case None => clamped
      case Some(n) =>
        if n <= maxTokens then clamped
        else
          KeepInRange(|Runes(clamped)|, maxTokens, n);
          Fit(Runes(clamped), |Runes(clamped)| * maxTokens / n, maxTokens, count)
  }

  lemma {:induction false} KeepInRange(len: nat, m: nat, n: nat)
    requires n > m
    ensures 0 <= len * m / n <= len
  {
    assert len * m <= len * n by { MulMonotone(len, m, n); }
    QuotientBound(len * m, n, len);
  }

  lemma {:induction false} MulMonotone(k: nat, a: nat, b: nat)
    requires a <= b
    ensures k * a <= k * b
  {}

  lemma {:induction false} QuotientBound(x: nat, n: nat, k: nat)
    requires n > 0 && x <= k * n
    ensures 0 <= x / n <= k
  {
    var q := x / n;
    assert q * n <= x;
    if q > k { MulGap(q, k, n); }
  }

  lemma {:induction false} MulGap(q: nat, k: nat, n: nat)
    requires q > k
    ensures q * n >= k * n + n
  {
    MulMonotone(n, k + 1, q);
    assert n * (k + 1) == k * n + n;
  }

  // ----- the code -----

  method ClampToolResultBytes(content: Content, maxTokens: nat) returns (r: Content)
    ensures r == Clamp(content, maxTokens)
  {
    var limit := maxTokens * MAX_TOKENIZER_INPUT_BYTES_PER_TOKEN;
    if Len(content) <= limit {
      return content;
    }
    var runes := Runes(content);
    if |runes| > limit {
      runes := runes[..limit];
    }
    r := Text(runes);
  }

  method FitTruncatedResult(runes: string, keep: nat, maxTokens: nat, count: ContentCounter) returns (r: Content)
    requires keep <= |runes|
    ensures r == Fit(runes, keep, maxTokens, count)
  {
    var k: nat := keep;
    while k > 0
      invariant k <= |runes| && Fit(runes, k, maxTokens, count) == Fit(runes, keep, maxTokens, count)
      decreases k
    {
      var candidate := Text(runes[..k]) + Text(MARKER);
      match count(candidate) {
        case None => return candidate;
        case Some(n) =>
          if n <= maxTokens {
            return candidate;
          }
          k := Shrink(k, maxTokens, n);
      }
    }
    r := Text(MARKER);
  }

  method TruncateToolResult(content: Content, maxTokens: int, count: ContentCounter) returns (r: Content)
    ensures r == Truncated(content, maxTokens, count)
  {
    if maxTokens <= 0 {
      return content;
    }
    var clamped := ClampToolResultBytes(content, maxTokens);
    match count(clamped) {
      case None => return clamped;
      case Some(n) =>
        if n <= maxTokens {
          return clamped;
        }
        var runes := Runes(clamped);
        KeepInRange(|runes|, maxTokens, n);
        r := FitTruncatedResult(runes, |runes| * maxTokens / n, maxTokens, count);
    }
  }

  // ----- what truncation guarantees -----

  ghost predicate AlwaysCounts(count: ContentCounter) {
    forall c :: count(c).Some?
  }

  function Cost(count: ContentCounter, c: Content): nat {
    match count(c) case None => 0 case Some(n) => n
  }

  /** A cut result: the first `k` runes and the marker. */
  function Cut(runes: string, k: nat): Content
    requires k <= |runes|
  {
    Text(runes[..k]) + Text(MARKER)
  }

  /** The loop ends in the bare marker, or in a cut that fits and is no longer than where it started. */
  lemma {:induction false} FitShape(runes: string, keep: nat, m: nat, count: ContentCounter)
    requires keep <= |runes| && AlwaysCounts(count)
    ensures var r := Fit(runes, keep, m, count);
      r == Text(MARKER) || exists k: nat :: k <= keep && r == Cut(runes, k) && Cost(count, r) <= m
    decreases keep
  {
    if keep > 0 {
      var candidate := Cut(runes, keep);
      var n := Cost(count, candidate);
      assert count(candidate) == Some(n);
      if n > m {
        FitShape(runes, Shrink(keep, m, n), m, count);
      }
    }
  }

  /** The result is the clamped content, or a prefix of its runes with the marker; it costs at most
      the cap, or what the marker alone costs. */
  lemma {:induction false} TruncationFits(content: Content, m: nat, count: ContentCounter)
    requires m >= 1 && AlwaysCounts(count)
    ensures var r := Truncated(content, m, count);
      && (r == Clamp(content, m) || r == Text(MARKER) || exists k: nat :: k <= |content| && r == Cut(Runes(content), k))
      && (Cost(count, r) <= m || r == Text(MARKER))
      && (Len(content) <= m * MAX_TOKENIZER_INPUT_BYTES_PER_TOKEN && Cost(count, content) <= m ==> r == content)
  {
    var clamped := Clamp(content, m);
    var n := Cost(count, clamped);
    assert count(clamped) == Some(n);
    if n > m {
      var runes := Runes(clamped);
      ClampIsPrefix(content, m);
      KeepInRange(|runes|, m, n);
      FitShape(runes, |runes| * m / n, m, count);
      var r := Fit(runes, |runes| * m / n, m, count);
      if r != Text(MARKER) {
        var k: nat :| k <= |runes| * m / n && r == Cut(runes, k) && Cost(count, r) <= m;
        assert runes[..k] == Runes(content)[..k];
        assert k <= |content| && r == Cut(Runes(content), k);
      }
    }
  }

  /** Clamping keeps a prefix of the runes, at most 64 per allowed token. */
  lemma {:induction false} ClampIsPrefix(content: Content, m: nat)
    ensures var r := Runes(Clamp(content, m));
      r <= Runes(content) && |r| <= m * MAX_TOKENIZER_INPUT_BYTES_PER_TOKEN
  {
    var limit := m * MAX_TOKENIZER_INPUT_BYTES_PER_TOKEN;
    if Len(content) > limit {
      var runes := Runes(content);
      RunesOfText(if |runes| > limit then runes[..limit] else runes);
    }
  }

  /** Content that is valid text within the clamp's rune limit passes it unchanged. */
  lemma {:induction false} ClampKeepsShort(runes: string, m: nat)
    requires |runes| <= m * MAX_TOKENIZER_INPUT_BYTES_PER_TOKEN
    ensures Clamp(Text(runes), m) == Text(runes)
  {
    RunesOfText(runes);
  }

  lemma {:induction false} ClampIdempotent(content: Content, m: nat)
    ensures Clamp(Clamp(content, m), m) == Clamp(content, m)
  {
    var limit := m * MAX_TOKENIZER_INPUT_BYTES_PER_TOKEN;
    if Len(content) > limit {
      var runes := Runes(content);
      ClampKeepsShort(if |runes| > limit then runes[..limit] else runes, m);
    }
  }

  /** A cut result never reaches the clamp again: a cost over m leaves room for the marker. */
  lemma {:induction false} CutLeavesRoom(len: nat, m: nat, n: nat, k: nat)
    requires m >= 1 && n > m && len <= 64 * m && k <= len * m / n
    ensures k + |MARKER| <= 64 * m
  {
    var q := len * m / n;
    assert q * n <= len * m;
    MulMonotone(m, len, 64 * m);
    MulMonotone(q, m + 1, n);
    assert q * (m + 1) <= 64 * m * m;
    if q >= 64 * m - 11 { NoRoom(q, m); }
  }

  lemma {:induction false} NoRoom(q: nat, m: nat)
    requires m >= 1 && q >= 64 * m - 11
    ensures q * (m + 1) > 64 * m * m
  {
    MulMonotone(m + 1, 64 * m - 11, q);
    assert (m + 1) * (64 * m - 11) == 64 * m * m + 53 * m - 11;
    assert q * (m + 1) == (m + 1) * q;
  }

  /** When the marker itself fits, truncating a truncated result changes nothing. */
  lemma {:induction false} TruncationIdempotent(content: Content, m: nat, count: ContentCounter)
    requires m >= 1 && AlwaysCounts(count) && Cost(count, Text(MARKER)) <= m
    ensures Truncated(Truncated(content, m, count), m, count) == Truncated(content, m, count)
  {
    var clamped := Clamp(content, m);
    var n := Cost(count, clamped);
    assert count(clamped) == Some(n);
    var r := Truncated(content, m, count);
    if n <= m {
      ClampIdempotent(content, m);
    } else {
      var runes := Runes(clamped);
      ClampIsPrefix(content, m);
      KeepInRange(|runes|, m, n);
      FitShape(runes, |runes| * m / n, m, count);
      var kept := "";
      if r != Text(MARKER) {
        var k: nat :| k <= |runes| * m / n && r == Cut(runes, k) && Cost(count, r) <= m;
        CutLeavesRoom(|runes|, m, n, k);
        kept := runes[..k];
      }
      assert r == Text(kept + MARKER);
      ClampKeepsShort(kept + MARKER, m);
      assert count(r) == Some(Cost(count, r));
    }
  }

  // ----- how much is kept -----

  /** Content within the byte limit passes the clamp; of anything longer the first runes stay, 64 per allowed token. */
  lemma {:induction false} ClampExactly(content: Content, m: nat)
    ensures Len(content) <= m * MAX_TOKENIZER_INPUT_BYTES_PER_TOKEN ==> Clamp(content, m) == content
    ensures Len(content) > m * MAX_TOKENIZER_INPUT_BYTES_PER_TOKEN ==>
      var kept := Clamp(content, m);
      && |kept| == (if |content| > m * MAX_TOKENIZER_INPUT_BYTES_PER_TOKEN
                    then m * MAX_TOKENIZER_INPUT_BYTES_PER_TOKEN else |content|)
      && forall i :: 0 <= i < |kept| ==>
          kept[i] == if content[i].Rune? then content[i] else Rune(REPLACEMENT)
  {}

  /** The cut of `k` runes costs more than `m`, and `next` runes are what is tried instead: proportionally fewer, and
      at least one fewer. */
  ghost predicate Overruns(runes: string, k: nat, next: nat, m: nat, count: ContentCounter) {
    && 0 < k <= |runes| && count(Cut(runes, k)).Some?
    && var n := count(Cut(runes, k)).value;
      n > m && next == if k * m / n < k - 1 then k * m / n else k - 1
  }

  /** The loop stops at `k`: at the bare marker, at a cut that fits, or at one that cannot be counted. */
  ghost predicate SettlesAt(runes: string, k: nat, m: nat, count: ContentCounter, r: Content) {
    && k <= |runes| && r == (if k == 0 then Text(MARKER) else Cut(runes, k))
    && (k > 0 && count(r).Some? ==> count(r).value <= m)
  }

  ghost predicate OverrunsAt(runes: string, tried: seq<nat>, i: nat, m: nat, count: ContentCounter)
    requires i + 1 < |tried|
  {
    Overruns(runes, tried[i], tried[i + 1], m, count)
  }

  /** `tried` are the lengths tried from `keep` on; every one but the last is too long, and the last is the result. */
  ghost predicate Shrinks(runes: string, keep: nat, tried: seq<nat>, m: nat, count: ContentCounter, r: Content) {
    && tried != [] && tried[0] == keep
    && (forall i {:trigger OverrunsAt(runes, tried, i, m, count)} :: 0 <= i < |tried| - 1 ==>
          OverrunsAt(runes, tried, i, m, count))
    && SettlesAt(runes, tried[|tried| - 1], m, count, r)
  }

  /** `tried` are the lengths the loop tries, and every one of them follows from the cost of the one before. */
  lemma {:induction false} FitShrinks(runes: string, keep: nat, m: nat, count: ContentCounter)
    returns (tried: seq<nat>)
    requires keep <= |runes|
    ensures Shrinks(runes, keep, tried, m, count, Fit(runes, keep, m, count))
    decreases keep
  {
    tried := [keep];
    if keep > 0 {
      var counted := count(Cut(runes, keep));
      if counted.Some? && counted.value > m {
        var next := Shrink(keep, m, counted.value);
        var rest := FitShrinks(runes, next, m, count);
        ShrinksCons(runes, keep, rest, m, count, Fit(runes, keep, m, count));
        tried := [keep] + rest;
      }
    }
  }

  lemma {:induction false} ShrinksCons(runes: string, keep: nat, rest: seq<nat>, m: nat, count: ContentCounter,
                                       r: Content)
    requires rest != [] && Overruns(runes, keep, rest[0], m, count) && Shrinks(runes, rest[0], rest, m, count, r)
    ensures Shrinks(runes, keep, [keep] + rest, m, count, r)
  {
    var tried := [keep] + rest;
    forall i | 0 <= i < |tried| - 1 ensures OverrunsAt(runes, tried, i, m, count) {
      OverrunsShift(runes, keep, rest, i, m, count);
    }
  }

  lemma {:induction false} OverrunsShift(runes: string, keep: nat, rest: seq<nat>, i: nat, m: nat,
                                         count: ContentCounter)
    requires i < |rest|
    requires if i == 0 then Overruns(runes, keep, rest[0], m, count) else OverrunsAt(runes, rest, i - 1, m, count)
    ensures OverrunsAt(runes, [keep] + rest, i, m, count)
  {}

  /** What truncation leaves, case by case: everything when there is no cap; the clamped content when it fits or cannot
      be counted; otherwise the first cut to fit, going down from the proportional one. */
  lemma {:induction false} TruncationKeeps(content: Content, maxTokens: int, count: ContentCounter)
    returns (tried: seq<nat>)
    ensures maxTokens <= 0 ==> Truncated(content, maxTokens, count) == content
    ensures maxTokens > 0 ==>
      var clamped := Clamp(content, maxTokens);
      if count(clamped).None? || count(clamped).value <= maxTokens then Truncated(content, maxTokens, count) == clamped
      else Shrinks(Runes(clamped), |Runes(clamped)| * maxTokens / count(clamped).value, tried, maxTokens, count,
                   Truncated(content, maxTokens, count))
  {
    tried := [];
    if maxTokens > 0 {
      var clamped := Clamp(content, maxTokens);
      var runes := Runes(clamped);
      if count(clamped).Some? && count(clamped).value > maxTokens {
        KeepInRange(|runes|, maxTokens, count(clamped).value);
        tried := FitShrinks(runes, |runes| * maxTokens / count(clamped).value, maxTokens, count);
      }
    }
  }

  /** So the proportional cut is the result when it fits, and anything shorter, the bare marker included, comes from a
      longer cut that did not fit, and keeps exactly what is proportional to it, or one rune less. */
  lemma {:induction false} ProportionalCutKept(content: Content, m: nat, n: nat, count: ContentCounter)
    requires m >= 1 && count(Clamp(content, m)) == Some(n) && n > m
    ensures var runes, r := Runes(Clamp(content, m)), Truncated(content, m, count);
      var start := |runes| * m / n;
      && start <= |runes|
      && (0 < start && (count(Cut(runes, start)).None? || count(Cut(runes, start)).value <= m) ==>
            r == Cut(runes, start))
      && exists k: nat :: SettlesAt(runes, k, m, count, r) && k <= start &&
          (k < start ==> exists longer: nat :: Overruns(runes, longer, k, m, count))
  {
    var runes, r := Runes(Clamp(content, m)), Truncated(content, m, count);
    var start := |runes| * m / n;
    KeepInRange(|runes|, m, n);
    var tried := TruncationKeeps(content, m, count);
    var last := |tried| - 1;
    if last > 0 {
      assert OverrunsAt(runes, tried, 0, m, count);
      assert OverrunsAt(runes, tried, last - 1, m, count);
      TriedShorter(runes, tried, m, count, last);
    }
    assert SettlesAt(runes, tried[last], m, count, r);
  }

  lemma {:induction false} TriedShorter(runes: string, tried: seq<nat>, m: nat, count: ContentCounter, i: nat)
    requires i < |tried|
    requires forall j {:trigger OverrunsAt(runes, tried, j, m, count)} :: 0 <= j < |tried| - 1 ==>
      OverrunsAt(runes, tried, j, m, count)
    ensures tried[i] <= tried[0]
    decreases i
  {
    if i > 0 {
      TriedShorter(runes, tried, m, count, i - 1);
      assert OverrunsAt(runes, tried, i - 1, m, count);
    }
  }
}
