/** The string operations of Python that `changelog.py` relies on. */
module PyText {
  import opened Basics

  // ----- white space -----

  /** Where `splitlines` ends a line. */
  predicate IsBreak(c: char) {
    var n := c as int;
    0x0A <= n <= 0x0D || 0x1C <= n <= 0x1E || n == 0x85 || n == 0x2028 || n == 0x2029
  }

  /** What `strip` takes off. */
  predicate IsSpace(c: char) {
    var n := c as int;
    IsBreak(c) || n == 0x09 || n == 0x1F || n == 0x20 || n == 0xA0 || n == 0x1680 || 0x2000 <= n <= 0x200A
    || n == 0x202F || n == 0x205F || n == 0x3000
  }

  predicate Blank(s: string) {
    forall i :: 0 <= i < |s| ==> IsSpace(s[i])
  }

  function LStrip(s: string): string {
    if s == "" || !IsSpace(s[0]) then s else LStrip(s[1..])
  }

  function RStrip(s: string): string {
    if s == "" || !IsSpace(s[|s| - 1]) then s else RStrip(s[..|s| - 1])
  }

  function Strip(s: string): string {
    RStrip(LStrip(s))
  }

  /** `lstrip("\n")` */
  function LStripNewlines(s: string): string {
    if s == "" || s[0] != '\n' then s else LStripNewlines(s[1..])
  }

  ghost predicate StartsDark(s: string) {
    s != "" && !IsSpace(s[0])
  }

  ghost predicate EndsDark(s: string) {
    s != "" && !IsSpace(s[|s| - 1])
  }

  /** Nothing to strip on either end. */
  ghost predicate Stripped(s: string) {
    s == "" || (StartsDark(s) && EndsDark(s))
  }

  lemma BlankConcat(s: string, t: string)
    ensures Blank(s + t) <==> Blank(s) && Blank(t)
  {
    if Blank(s + t) {
      forall i | 0 <= i < |s| ensures IsSpace(s[i]) {
        assert (s + t)[i] == s[i];
      }
      forall i | 0 <= i < |t| ensures IsSpace(t[i]) {
        assert (s + t)[|s| + i] == t[i];
      }
    }
  }

  lemma {:induction false} LStripSplits(s: string) returns (lead: string)
    ensures s == lead + LStrip(s) && Blank(lead) && (LStrip(s) == "" || StartsDark(LStrip(s)))
  {
    if s == "" || !IsSpace(s[0]) {
      lead := "";
    } else {
      var rest := LStripSplits(s[1..]);
      lead := [s[0]] + rest;
    }
  }

  lemma {:induction false} RStripSplits(s: string) returns (trail: string)
    ensures s == RStrip(s) + trail && Blank(trail) && (RStrip(s) == "" || EndsDark(RStrip(s)))
  {
    if s == "" || !IsSpace(s[|s| - 1]) {
      trail := "";
    } else {
      var rest := RStripSplits(s[..|s| - 1]);
      trail := rest + [s[|s| - 1]];
      assert s == RStrip(s) + rest + [s[|s| - 1]];
    }
  }

  lemma {:induction false} LStripOf(lead: string, s: string)
    requires Blank(lead)
    ensures LStrip(lead + s) == LStrip(s)
  {
    if lead == "" {
      assert lead + s == s;
    } else {
      LStripOf(lead[1..], s);
      assert (lead + s)[1..] == lead[1..] + s;
    }
  }

  lemma {:induction false} RStripOf(s: string, trail: string)
    requires Blank(trail)
    ensures RStrip(s + trail) == RStrip(s)
  {
    if trail == "" {
      assert s + trail == s;
    } else {
      var k := |trail| - 1;
      RStripOf(s, trail[..k]);
      assert (s + trail)[..|s + trail| - 1] == s + trail[..k];
      assert (s + trail)[|s + trail| - 1] == trail[k];
    }
  }

  lemma StripIsStripped(s: string)
    ensures Stripped(Strip(s))
  {
    var front := LStrip(s);
    var lead := LStripSplits(s);
    var trail := RStripSplits(front);
    if Strip(s) != "" {
      assert Strip(s)[0] == front[0];
    }
  }

  lemma StrippedStays(s: string)
    requires Stripped(s)
    ensures Strip(s) == s && RStrip(s) == s && LStrip(s) == s
  {
  }

  lemma StripBefore(s: string, trail: string)
    requires Blank(trail)
    ensures Strip(s + trail) == Strip(s)
  {
    var l := LStripSplits(s);
    if LStrip(s) == "" {
      assert s == l;
      BlankConcat(s, trail);
      AllBlank(s);
      AllBlank(s + trail);
    } else {
      assert s + trail == l + (LStrip(s) + trail);
      LStripOf(l, LStrip(s) + trail);
      assert (LStrip(s) + trail)[0] == LStrip(s)[0];
      RStripOf(LStrip(s), trail);
    }
  }

  lemma {:induction false} AllBlank(s: string)
    requires Blank(s)
    ensures LStrip(s) == "" && RStrip(s) == "" && Strip(s) == ""
  {
    LStripOf(s, "");
    RStripOf("", s);
    assert s + "" == s && "" + s == s;
  }

  /** Only newlines. */
  ghost predicate Newlines(s: string) {
    forall i :: 0 <= i < |s| ==> s[i] == '\n'
  }

  lemma {:induction false} LStripNewlinesOf(lead: string, s: string)
    requires Newlines(lead) && (s == "" || s[0] != '\n')
    ensures LStripNewlines(lead + s) == s
  {
    if lead == "" {
      assert lead + s == s;
    } else {
      LStripNewlinesOf(lead[1..], s);
      assert (lead + s)[1..] == lead[1..] + s;
    }
  }

  lemma {:induction false} LStripNewlinesSplits(s: string) returns (lead: string)
    ensures s == lead + LStripNewlines(s) && Newlines(lead)
    ensures LStripNewlines(s) == "" || LStripNewlines(s)[0] != '\n'
  {
    if s == "" || s[0] != '\n' {
      lead := "";
    } else {
      var rest := LStripNewlinesSplits(s[1..]);
      lead := [s[0]] + rest;
    }
  }

  // ----- lines -----

  /** The length of the first line with its end. */
  function LineLength(s: string): (n: nat)
    requires s != ""
    ensures 1 <= n <= |s|
  {
    if IsBreak(s[0]) then (if s[0] == '\r' && |s| > 1 && s[1] == '\n' then 2 else 1)
    else if |s| == 1 then 1
    else 1 + LineLength(s[1..])
  }

  /** A line ends at its first break, a carriage return with a newline behind it being one. */
  lemma {:induction false} LineEndsAtBreak(s: string)
    requires s != ""
    ensures var n := LineLength(s);
            && (forall i :: 0 <= i < n - 1 && IsBreak(s[i]) ==> i == n - 2 && s[i] == '\r' && s[i + 1] == '\n')
            && (n < |s| ==> IsBreak(s[n - 1]) && !(s[n - 1] == '\r' && s[n] == '\n'))
  {
    if !IsBreak(s[0]) && |s| > 1 {
      LineEndsAtBreak(s[1..]);
      assert forall i :: 1 <= i < |s| ==> s[i] == s[1..][i - 1];
    }
  }

  /** `splitlines(keepends=True)` */
  function SplitLines(s: string): seq<string> {
    if s == "" then [] else [s[..LineLength(s)]] + SplitLines(s[LineLength(s)..])
  }

  /** A prefix after which a new line begins. */
  predicate EndsLine(s: string) {
    s == "" || s[|s| - 1] == '\n'
  }

  lemma {:induction false} SplitLinesSpell(s: string)
    ensures Concat(SplitLines(s)) == s
  {
    if s != "" {
      SplitLinesSpell(s[LineLength(s)..]);
    }
  }

  lemma {:induction false} LineLengthStays(a: string, b: string)
    requires a != "" && EndsLine(a)
    ensures LineLength(a + b) == LineLength(a)
    ensures EndsLine(a[LineLength(a)..])
  {
    if !IsBreak(a[0]) {
      assert |a| > 1;
      LineLengthStays(a[1..], b);
      assert (a + b)[1..] == a[1..] + b;
      assert a[1..][LineLength(a[1..])..] == a[LineLength(a)..];
    }
  }

  /** Splitting at a line end splits the lists of lines. */
  lemma {:induction false} SplitLinesConcat(a: string, b: string)
    requires EndsLine(a)
    ensures SplitLines(a + b) == SplitLines(a) + SplitLines(b)
  {
    if a == "" {
      assert a + b == b;
    } else {
      var n := LineLength(a);
      LineLengthStays(a, b);
      SplitLinesConcat(a[n..], b);
      PrefixSlices(a, b, n);
      ConsConcat(a[..n], SplitLines(a[n..]), SplitLines(b));
    }
  }

  lemma {:induction false} JoinConcat(a: seq<string>, b: seq<string>)
    ensures Concat(a + b) == Concat(a) + Concat(b)
  {
    if a == [] {
      assert a + b == b;
    } else {
      JoinConcat(a[1..], b);
      PrefixSlices(a, b, 1);
      Associate(a[0], Concat(a[1..]), Concat(b));
    }
  }
}
