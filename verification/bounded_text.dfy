/**
 The byte budgets of `agent_transcript.rs`: appending to a text and truncating it
 under a limit in bytes, always on character boundaries. The central law is that
 appending chunk by chunk gives what truncating the whole text once gives.
 */
module BoundedText {
  import opened Basics

  const MARKER: string := "[...earlier content truncated...]\n"

  // ----- bytes and character boundaries -----

  /** Bytes of one character in UTF-8. */
  function Width(c: char): (w: nat)
    ensures 1 <= w <= 4
  {
    var n := c as int;
    if n < 0x80 then 1 else if n < 0x800 then 2 else if n < 0x1_0000 then 3 else 4
  }

  function Bytes(s: string): (n: nat)
    ensures |s| <= n <= 4 * |s|
  {
    if s == "" then 0 else Width(s[0]) + Bytes(s[1..])
  }

  lemma {:induction false} BytesConcat(s: string, t: string)
    ensures Bytes(s + t) == Bytes(s) + Bytes(t)
  {
    if s == "" {
      assert s + t == t;
    } else {
      BytesConcat(s[1..], t);
      assert (s + t)[1..] == s[1..] + t;
    }
  }

  lemma {:induction false} AsciiBytes(s: string)
    requires forall i :: 0 <= i < |s| ==> s[i] as int < 0x80
    ensures Bytes(s) == |s|
  {
    if s != "" {
      AsciiBytes(s[1..]);
    }
  }

  /** The character that starts at byte `b`, when `b` is a character boundary. */
  function CharAt(s: string, b: nat): (k: Option<nat>)
    ensures k.Some? ==> k.value <= |s| && Bytes(s[..k.value]) == b
    ensures k.None? ==> forall j :: 0 <= j <= |s| ==> Bytes(s[..j]) != b
    decreases |s|
  {
    if b == 0 then Some(0)
    else if s == "" || b < Width(s[0]) then
      assert forall j :: 0 < j <= |s| ==> s[..j][1..] == s[1..][..j - 1];
      None
    else
      var rest := CharAt(s[1..], b - Width(s[0]));
      assert forall j :: 0 < j <= |s| ==> s[..j][1..] == s[1..][..j - 1];
      assert forall j :: 0 < j <= |s| ==> Bytes(s[..j]) == Width(s[0]) + Bytes(s[1..][..j - 1]);
      if rest.Some? then Some(rest.value + 1) else None
  }

  lemma Boundary(s: string, k: nat)
    requires k <= |s|
    ensures CharAt(s, Bytes(s[..k])).Some?
  {
  }

  // ----- longest pieces that fit -----

  /** The longest suffix of at most `max` bytes. */
  function Suffix(s: string, max: nat): string {
    if Bytes(s) <= max then s else Suffix(s[1..], max)
  }

  /** The longest prefix of at most `max` bytes. */
  function Prefix(s: string, max: nat): string {
    if Bytes(s) <= max then s else Prefix(s[..|s| - 1], max)
  }

  /** It is a suffix that fits, and every longer one does not. */
  lemma {:induction false} SuffixIsLongest(s: string, max: nat) returns (k: nat)
    ensures k <= |s| && Suffix(s, max) == s[k..] && Bytes(s[k..]) <= max
    ensures forall j :: 0 <= j < k ==> Bytes(s[j..]) > max
  {
    if Bytes(s) <= max {
      k := 0;
    } else {
      var shorter := SuffixIsLongest(s[1..], max);
      k := shorter + 1;
      assert s[1..][shorter..] == s[k..];
      forall j | 0 <= j < k ensures Bytes(s[j..]) > max {
        if j > 0 {
          assert s[1..][j - 1..] == s[j..];
        }
      }
    }
  }

  lemma {:induction false} PrefixIsLongest(s: string, max: nat) returns (k: nat)
    ensures k <= |s| && Prefix(s, max) == s[..k] && Bytes(s[..k]) <= max
    ensures forall j :: k < j <= |s| ==> Bytes(s[..j]) > max
  {
    if Bytes(s) <= max {
      k := |s|;
      assert s[..k] == s;
    } else {
      var front := s[..|s| - 1];
      k := PrefixIsLongest(front, max);
      assert s[..|s|] == s;
      forall j | 0 <= j <= |front| ensures front[..j] == s[..j] {
      }
    }
  }

  lemma {:induction false} BytesOfPieces(s: string, i: nat, j: nat)
    requires i <= j <= |s|
    ensures Bytes(s[..i]) <= Bytes(s[..j])
    ensures i < j ==> Bytes(s[..i]) < Bytes(s[..j])
    ensures Bytes(s) == Bytes(s[..i]) + Bytes(s[i..])
  {
    assert s[..j] == s[..i] + s[i..j];
    BytesConcat(s[..i], s[i..j]);
    assert s == s[..i] + s[i..];
    BytesConcat(s[..i], s[i..]);
  }

  /** `utf8_suffix`: step forward from the byte offset to the next boundary. */
  method Utf8Suffix(s: string, max: nat) returns (r: string)
    ensures r == Suffix(s, max)
  {
    if Bytes(s) <= max {
      return s;
    }
    var start := Bytes(s) - max;
    assert s[..|s|] == s;
    Boundary(s, |s|);
    while CharAt(s, start).None?
      invariant Bytes(s) - max <= start <= Bytes(s)
      invariant forall b :: Bytes(s) - max <= b < start ==> CharAt(s, b).None?
      decreases Bytes(s) - start
    {
      start := start + 1;
    }
    var k := CharAt(s, start).value;
    r := s[k..];
    SuffixUnique(s, max, k);
  }

  lemma SuffixUnique(s: string, max: nat, k: nat)
    requires Bytes(s) > max && k <= |s|
    requires Bytes(s) - max <= Bytes(s[..k])
    requires forall b :: Bytes(s) - max <= b < Bytes(s[..k]) ==> CharAt(s, b).None?
    ensures Suffix(s, max) == s[k..]
  {
    var l := SuffixIsLongest(s, max);
    BytesOfPieces(s, k, k);
    BytesOfPieces(s, l, l);
    if l < k {
      BytesOfPieces(s, l, k);
      Boundary(s, l);
    }
  }

  /** `utf8_prefix`: step back from the byte offset to the previous boundary. */
  method Utf8Prefix(s: string, max: nat) returns (r: string)
    ensures r == Prefix(s, max)
  {
    var end := Min(max, Bytes(s));
    assert Bytes(s[..0]) == 0;
    while CharAt(s, end).None?
      invariant 0 <= end <= Min(max, Bytes(s))
      invariant forall b :: end < b <= Min(max, Bytes(s)) ==> CharAt(s, b).None?
      decreases end
    {
      end := end - 1;
    }
    var k := CharAt(s, end).value;
    r := s[..k];
    PrefixUnique(s, max, k);
  }

  lemma PrefixUnique(s: string, max: nat, k: nat)
    requires k <= |s| && Bytes(s[..k]) <= Min(max, Bytes(s))
    requires forall b :: Bytes(s[..k]) < b <= Min(max, Bytes(s)) ==> CharAt(s, b).None?
    ensures Prefix(s, max) == s[..k]
  {
    var l := PrefixIsLongest(s, max);
    assert s[..|s|] == s;
    BytesOfPieces(s, l, |s|);
    if k < l {
      BytesOfPieces(s, k, l);
      Boundary(s, l);
    }
  }

  // ----- the two operations -----

  /** The text without one leading marker. */
  function Strip(m: string, s: string): string {
    if m <= s then s[|m|..] else s
  }

  function Truncate(m: string, s: string, max: nat): string {
    if Bytes(s) <= max then s
    else if max <= Bytes(m) then Prefix(m, max)
    else m + Suffix(Strip(m, s), max - Bytes(m))
  }

  function Append(m: string, target: string, delta: string, max: nat): string {
    if Bytes(target) + Bytes(delta) <= max then target + delta
    else if max <= Bytes(m) then Prefix(m, max)
    else
      var tailBudget := max - Bytes(m);
      m +
      if Bytes(delta) >= tailBudget then Suffix(delta, tailBudget)
      else Suffix(Strip(m, target), tailBudget - Bytes(delta)) + delta
  }

  function TruncateToRecent(s: string, max: nat): string {
    Truncate(MARKER, s, max)
  }

  function AppendBounded(target: string, delta: string, max: nat): string {
    Append(MARKER, target, delta, max)
  }

  /** Appending the chunks one after another, from the empty text. */
  function AppendAll(deltas: seq<string>, max: nat): string {
    if deltas == [] then ""
    else AppendBounded(AppendAll(deltas[..|deltas| - 1], max), deltas[|deltas| - 1], max)
  }

  // ----- suffixes of suffixes and of concatenations -----

  lemma {:induction false} SuffixOfSuffix(s: string, a: nat, b: nat)
    requires b <= a
    ensures Suffix(Suffix(s, a), b) == Suffix(s, b)
  {
    if Bytes(s) > a {
      SuffixOfSuffix(s[1..], a, b);
    }
  }

  lemma {:induction false} SuffixWithin(s: string, d: string, n: nat)
    requires n <= Bytes(d)
    ensures Suffix(s + d, n) == Suffix(d, n)
  {
    if s == "" {
      assert s + d == d;
    } else {
      BytesConcat(s, d);
      assert (s + d)[1..] == s[1..] + d;
      SuffixWithin(s[1..], d, n);
    }
  }

  lemma {:induction false} SuffixAcross(s: string, d: string, n: nat)
    requires Bytes(d) <= n
    ensures Suffix(s + d, n) == Suffix(s, n - Bytes(d)) + d
  {
    BytesConcat(s, d);
    if Bytes(s + d) > n {
      assert (s + d)[1..] == s[1..] + d;
      SuffixAcross(s[1..], d, n);
    }
  }

  /** When the text is longer than marker and budget together, the marker does not matter. */
  lemma SuffixOfStripped(m: string, s: string, n: nat)
    requires Bytes(s) > Bytes(m) + n
    ensures Suffix(Strip(m, s), n) == Suffix(s, n)
  {
    if m <= s {
      var rest := s[|m|..];
      assert s == m + rest;
      BytesConcat(m, rest);
      SuffixWithin(m, rest, n);
    }
  }

  ghost predicate Ascii(s: string) {
    forall i :: 0 <= i < |s| ==> s[i] as int < 0x80
  }

  lemma {:induction false} AsciiPrefix(s: string, max: nat)
    requires Ascii(s)
    requires max <= |s|
    ensures Prefix(s, max) == s[..max] && Bytes(s[..max]) == max
  {
    AsciiBytes(s);
    AsciiBytes(s[..max]);
    if max < |s| {
      AsciiPrefix(s[..|s| - 1], max);
      assert s[..|s| - 1][..max] == s[..max];
    } else {
      assert s[..max] == s;
    }
  }

  // ----- the laws, for any ASCII marker -----

  lemma TruncateCases(m: string, s: string, max: nat)
    requires Ascii(m) && Bytes(s) > max
    ensures Bytes(m) == |m|
    ensures max <= |m| ==> Truncate(m, s, max) == m[..max] && Bytes(m[..max]) == max
    ensures max > |m| ==> Truncate(m, s, max) == m + Suffix(s, max - |m|)
  {
    AsciiBytes(m);
    if max <= |m| {
      AsciiPrefix(m, max);
    } else {
      SuffixOfStripped(m, s, max - |m|);
    }
  }

  /** A limit no longer than the marker leaves the marker's front only. */
  lemma AppendToFront(m: string, s: string, d: string, max: nat)
    requires Ascii(m) && Bytes(s) + Bytes(d) > max && max <= |m|
    ensures Append(m, Truncate(m, s, max), d, max) == m[..max]
  {
    hide Prefix, Bytes;
    AsciiBytes(m);
    AsciiPrefix(m, max);
    if Bytes(s) > max {
      TruncateCases(m, s, max);
      if Bytes(d) == 0 {
        NoBytes(d);
        assert m[..max] + d == m[..max];
      }
    } else {
      ShortStaysWhole(m, s, max);
    }
  }

  lemma NoBytes(s: string)
    requires Bytes(s) == 0
    ensures s == ""
  {
  }

  /** One appended chunk: truncating first and appending then loses nothing against truncating the whole. */
  lemma AppendAfterTruncate(m: string, s: string, d: string, max: nat)
    requires Ascii(m)
    ensures Append(m, Truncate(m, s, max), d, max) == Truncate(m, s + d, max)
  {
    hide Truncate, Append, Prefix, Suffix, Bytes;
    BytesConcat(s, d);
    if Bytes(s + d) <= max {
      ShortStaysWhole(m, s, max);
      ShortStaysWhole(m, s + d, max);
      AppendWhole(m, s, d, max);
    } else {
      TruncateCases(m, s + d, max);
      if max <= |m| {
        AppendToFront(m, s, d, max);
      } else if Bytes(s) <= max {
        ShortStaysWhole(m, s, max);
        AppendOverflows(m, s, d, max);
      } else {
        AppendToTruncated(m, s, d, max);
      }
    }
  }

  lemma AppendWhole(m: string, s: string, d: string, max: nat)
    requires Bytes(s) + Bytes(d) <= max
    ensures Append(m, s, d, max) == s + d
  {
  }

  lemma AppendOverflows(m: string, s: string, d: string, max: nat)
    requires Bytes(s) <= max < Bytes(s) + Bytes(d) && Bytes(m) < max
    ensures Append(m, s, d, max) == m + Suffix(s + d, max - Bytes(m))
  {
    var tail := max - Bytes(m);
    if Bytes(d) >= tail {
      SuffixWithin(s, d, tail);
    } else {
      SuffixAcross(s, d, tail);
      SuffixOfStripped(m, s, tail - Bytes(d));
    }
  }

  /** Appending to a text that already is the marker and a suffix. */
  lemma AppendToMarked(m: string, t: string, d: string, max: nat)
    requires Bytes(m) < max && Bytes(m) + Bytes(t) <= max
    ensures Append(m, m + t, d, max) == m + Suffix(t + d, max - Bytes(m))
  {
    hide Bytes, Suffix, Prefix;
    var tail := max - Bytes(m);
    BytesConcat(m, t);
    BytesConcat(t, d);
    assert Strip(m, m + t) == t;
    assert m + t + d == m + (t + d);
    if Bytes(m + t) + Bytes(d) > max {
      if Bytes(d) >= tail {
        SuffixWithin(t, d, tail);
      } else {
        SuffixAcross(t, d, tail);
      }
    } else {
      SuffixOfAll(t + d, tail);
    }
  }

  lemma SuffixOfAll(s: string, n: nat)
    requires Bytes(s) <= n
    ensures Suffix(s, n) == s
  {
  }

  /** Only the last `n` bytes matter for the last `n` bytes of an extension. */
  lemma SuffixThenAppend(s: string, d: string, n: nat)
    ensures Suffix(Suffix(s, n) + d, n) == Suffix(s + d, n)
  {
    if Bytes(d) >= n {
      SuffixWithin(s, d, n);
      SuffixWithin(Suffix(s, n), d, n);
    } else {
      SuffixAcross(s, d, n);
      SuffixAcross(Suffix(s, n), d, n);
      SuffixOfSuffix(s, n, n - Bytes(d));
    }
  }

  /** A text cut above the marker's length is the marker and a suffix, within the limit. */
  lemma TruncatedIsMarked(m: string, s: string, max: nat)
    requires Ascii(m) && Bytes(s) > max > |m|
    ensures Bytes(m) == |m|
    ensures var kept := Suffix(s, max - |m|);
            Truncate(m, s, max) == m + kept && Bytes(m) + Bytes(kept) <= max
  {
    hide Truncate, Suffix, Prefix, Bytes;
    TruncateCases(m, s, max);
    var k := SuffixIsLongest(s, max - |m|);
  }

  lemma AppendToTruncated(m: string, s: string, d: string, max: nat)
    requires Ascii(m) && Bytes(s) > max > |m|
    ensures Append(m, Truncate(m, s, max), d, max) == m + Suffix(s + d, max - |m|)
  {
    hide Truncate, Append, Suffix;
    TruncatedIsMarked(m, s, max);
    AppendToMarked(m, Suffix(s, max - |m|), d, max);
    SuffixThenAppend(s, d, max - |m|);
  }

  /** The marker and a suffix cut again. */
  lemma MarkedAgain(m: string, s: string, max: nat, smaller: nat)
    requires Ascii(m) && |m| < smaller <= max < Bytes(s)
    ensures Truncate(m, Truncate(m, s, max), smaller) == m + Suffix(s, smaller - |m|)
  {
    TruncatedIsMarked(m, s, max);
    var kept := Suffix(s, max - |m|);
    var t := m + kept;
    BytesConcat(m, kept);
    SuffixOfSuffix(s, max - |m|, smaller - |m|);
    if Bytes(t) > smaller {
      TruncateCases(m, t, smaller);
      SuffixWithin(m, kept, smaller - |m|);
    }
  }

  lemma TruncateAgain(m: string, s: string, max: nat, smaller: nat)
    requires Ascii(m) && smaller <= max
    ensures Truncate(m, Truncate(m, s, max), smaller) == Truncate(m, s, smaller)
  {
    if Bytes(s) > max {
      TruncateCases(m, s, smaller);
      if smaller > |m| {
        MarkedAgain(m, s, max, smaller);
      } else {
        PrefixAgain(m, s, max, smaller);
      }
    }
  }

  /** Cut again to no more than the marker's length, only the marker's front is left. */
  lemma PrefixAgain(m: string, s: string, max: nat, smaller: nat)
    requires Ascii(m) && smaller <= |m| && smaller <= max < Bytes(s)
    ensures Truncate(m, Truncate(m, s, max), smaller) == m[..smaller]
  {
    TruncateCases(m, s, max);
    var t := Truncate(m, s, max);
    if Bytes(t) > smaller {
      TruncateCases(m, t, smaller);
    } else if max > |m| {
      var kept := Suffix(s, max - |m|);
      BytesConcat(m, kept);
      assert kept == "" && t == m == m[..smaller];
    }
  }

  // ----- the laws of the transcript -----

  lemma MarkerIsAscii()
    ensures Ascii(MARKER) && |MARKER| == 34
  {
  }

  /** What truncation keeps: all of it, or the marker and the longest suffix that fits, or marker only. */
  lemma TruncateIsRecent(s: string, max: nat) returns (k: nat)
    ensures Bytes(TruncateToRecent(s, max)) <= max
    ensures Bytes(s) <= max ==> TruncateToRecent(s, max) == s
    ensures max < Bytes(s) && max <= |MARKER| ==> TruncateToRecent(s, max) == MARKER[..max]
    ensures max < Bytes(s) && |MARKER| < max ==>
              && k <= |s| && TruncateToRecent(s, max) == MARKER + s[k..]
              && forall j :: 0 <= j < k ==> |MARKER| + Bytes(s[j..]) > max
  {
    hide TruncateToRecent, Truncate;
    MarkerIsAscii();
    k := TruncateIsLongest(MARKER, s, max);
    assert TruncateToRecent(s, max) == Truncate(MARKER, s, max) by { RecentIsMarked(s, max); }
  }

  lemma RecentIsMarked(s: string, max: nat)
    ensures TruncateToRecent(s, max) == Truncate(MARKER, s, max)
  {
    hide Truncate;
  }

  lemma ShortStaysWhole(m: string, s: string, max: nat)
    requires Bytes(s) <= max
    ensures Truncate(m, s, max) == s
  {
  }

  lemma TruncateIsLongest(m: string, s: string, max: nat) returns (k: nat)
    requires Ascii(m)
    ensures Bytes(Truncate(m, s, max)) <= max
    ensures Bytes(s) <= max ==> Truncate(m, s, max) == s
    ensures max < Bytes(s) && max <= |m| ==> Truncate(m, s, max) == m[..max]
    ensures max < Bytes(s) && |m| < max ==>
              && k <= |s| && Truncate(m, s, max) == m + s[k..]
              && forall j :: 0 <= j < k ==> |m| + Bytes(s[j..]) > max
  {
    hide Truncate, Suffix, Prefix, Bytes;
    k := 0;
    if Bytes(s) <= max {
      ShortStaysWhole(m, s, max);
    } else {
      TruncateCases(m, s, max);
      if |m| < max {
        k := SuffixIsLongest(s, max - |m|);
        BytesConcat(m, s[k..]);
      }
    }
  }

  /** Chunking independence: for every chunking and every limit. */
  lemma {:induction false} ChunkingIndependent(deltas: seq<string>, max: nat)
    ensures AppendAll(deltas, max) == TruncateToRecent(Concat(deltas), max)
  {
    if deltas != [] {
      var front, last := deltas[..|deltas| - 1], deltas[|deltas| - 1];
      assert deltas == front + [last];
      ChunkingIndependent(front, max);
      ConcatSnoc(front, last);
      MarkerIsAscii();
      AppendAfterTruncate(MARKER, Concat(front), last, max);
    }
  }

  /** Truncating again to a smaller limit is truncating to the smaller limit. */
  lemma TruncateTwice(s: string, max: nat, smaller: nat)
    requires smaller <= max
    ensures TruncateToRecent(TruncateToRecent(s, max), smaller) == TruncateToRecent(s, smaller)
  {
    MarkerIsAscii();
    TruncateAgain(MARKER, s, max, smaller);
  }
}
