/**
 `code_block_parse.rs`, and the splitting of an assistant text around its chart
 blocks in `agent_transcript.rs`. Offsets are counted in characters.
 */
module FencedBlocks {
  import opened Basics

  const FENCE := "```"
  const CLOSE := "\n```"

  // ----- white space -----

  /** Unicode `White_Space`. */
  predicate IsSpace(c: char) {
    var n := c as int;
    0x09 <= n <= 0x0D || n == 0x20 || n == 0x85 || n == 0xA0 || n == 0x1680 || 0x2000 <= n <= 0x200A
    || n == 0x2028 || n == 0x2029 || n == 0x202F || n == 0x205F || n == 0x3000
  }

  predicate Blank(s: string) {
    forall i :: 0 <= i < |s| ==> IsSpace(s[i])
  }

  /** Length of the leading white space. */
  function LeadingSpace(s: string): (n: nat)
    ensures n <= |s|
  {
    if s == "" || !IsSpace(s[0]) then 0 else 1 + LeadingSpace(s[1..])
  }

  /** Length up to the last character that is not white space. */
  function UpToSpace(s: string): (n: nat)
    ensures n <= |s|
  {
    if s == "" || !IsSpace(s[|s| - 1]) then |s| else UpToSpace(s[..|s| - 1])
  }

  function Trim(s: string): string {
    var front := s[LeadingSpace(s)..];
    front[..UpToSpace(front)]
  }

  lemma BlankConcat(s: string, t: string)
    ensures Blank(s + t) <==> Blank(s) && Blank(t)
  {
    if Blank(s + t) {
      forall i | 0 <= i < |s| ensures IsSpace(s[i]) {
        assert (s + t)[i] == s[i];
      }
      forall i | 0 <= i < |t| ensures IsSpace(t[i]) {
        assert (s + t)[|s| + i] == t[i];
      }
    }
  }

  lemma {:induction false} LeadingSplits(s: string)
    ensures var n := LeadingSpace(s);
            Blank(s[..n]) && (n < |s| ==> !IsSpace(s[n])) && (Blank(s) <==> n == |s|)
  {
    var n := LeadingSpace(s);
    if s != "" && IsSpace(s[0]) {
      LeadingSplits(s[1..]);
      assert s[..n] == [s[0]] + s[1..][..n - 1];
    }
    if n == |s| {
      assert s[..n] == s;
    }
  }

  lemma {:induction false} TrailingSplits(s: string)
    ensures var n := UpToSpace(s);
            Blank(s[n..]) && (n > 0 ==> !IsSpace(s[n - 1])) && (Blank(s) <==> n == 0)
  {
    var n := UpToSpace(s);
    if s != "" && IsSpace(s[|s| - 1]) {
      TrailingSplits(s[..|s| - 1]);
      assert s[n..] == s[..|s| - 1][n..] + [s[|s| - 1]];
    }
    if n == 0 {
      assert s[n..] == s;
    }
  }

  lemma Halves(s: string, n: nat)
    requires n <= |s|
    ensures s == s[..n] + s[n..]
  {
  }

  lemma Thirds(s: string, a: string, front: string, b: string, c: string)
    requires s == a + front && front == b + c
    ensures s == a + b + c
  {
  }

  lemma BlankFront(s: string)
    requires Blank(s[LeadingSpace(s)..])
    ensures Blank(s)
  {
    var n := LeadingSpace(s);
    LeadingSplits(s);
    Halves(s, n);
    BlankConcat(s[..n], s[n..]);
  }

  /** What is left starts and ends with something visible. */
  lemma TrimIsDark(s: string)
    ensures Trim(s) == "" <==> Blank(s)
    ensures Trim(s) != "" ==> !IsSpace(Trim(s)[0]) && !IsSpace(Trim(s)[|Trim(s)| - 1])
  {
    var n := LeadingSpace(s);
    var front := s[n..];
    LeadingSplits(s);
    TrailingSplits(front);
    assert front != "" ==> front[0] == s[n];
    if Trim(s) == "" {
      BlankFront(s);
    } else {
      assert Trim(s)[0] == front[0];
    }
  }

  /** Trimming takes white space off both ends and nothing else. */
  lemma TrimFrames(s: string) returns (lead: string, trail: string)
    ensures s == lead + Trim(s) + trail && Blank(lead) && Blank(trail)
    ensures Trim(s) == "" <==> Blank(s)
    ensures Trim(s) != "" ==> !IsSpace(Trim(s)[0]) && !IsSpace(Trim(s)[|Trim(s)| - 1])
  {
    var n := LeadingSpace(s);
    var front := s[n..];
    lead, trail := s[..n], front[UpToSpace(front)..];
    LeadingSplits(s);
    TrailingSplits(front);
    TrimIsDark(s);
    Halves(s, n);
    Halves(front, UpToSpace(front));
    Thirds(s, lead, front, Trim(s), trail);
  }

  /** The first white-space separated word of an info string, in lower case. */
  function FirstInfoToken(info: string): Option<string> {
    var rest := info[LeadingSpace(info)..];
    var word := Word(rest);
    if word == "" then None else Some(AsciiLower(word))
  }

  function Word(s: string): string {
    if s == "" || IsSpace(s[0]) then "" else [s[0]] + Word(s[1..])
  }

  function AsciiLower(s: string): (r: string)
    ensures |r| == |s|
  {
    seq(|s|, i requires 0 <= i < |s| =>
      if 'A' <= s[i] <= 'Z' then (s[i] as int + 32) as char else s[i])
  }

  // ----- searching -----

  predicate Occurs(text: string, pattern: string, i: nat) {
    i + |pattern| <= |text| && text[i..i + |pattern|] == pattern
  }

  /** The first occurrence at or after `from`. */
  function Find(text: string, pattern: string, from: nat): (r: Option<nat>)
    requires from <= |text|
    ensures r.Some? ==> from <= r.value && r.value + |pattern| <= |text|
    decreases |text| - from
  {
    if Occurs(text, pattern, from) then Some(from)
    else if from == |text| then None
    else Find(text, pattern, from + 1)
  }

  lemma {:induction false} FindIsFirst(text: string, pattern: string, from: nat)
    requires from <= |text|
    ensures var r := Find(text, pattern, from);
            && (r.Some? ==> Occurs(text, pattern, r.value)
                            && forall i :: from <= i < r.value ==> !Occurs(text, pattern, i))
            && (r.None? ==> forall i :: from <= i ==> !Occurs(text, pattern, i))
    decreases |text| - from
  {
    if !Occurs(text, pattern, from) && from < |text| {
      FindIsFirst(text, pattern, from + 1);
    }
  }

  // ----- fenced blocks -----

  datatype Block = Block(language: Option<string>, code: string, start: nat, end: nat)

  /** The block with its fence at `start`, its line ending at `infoEnd` and its last newline at `close`. */
  function MakeBlock(text: string, start: nat, infoEnd: nat, close: nat): (b: Block)
    requires start + 3 <= infoEnd <= close < |text|
    ensures b.start == start && b.end == close + 4
  {
    Block(FirstInfoToken(Trim(text[start + 3..infoEnd])), text[infoEnd + 1..close + 1], start, close + 4)
  }

  datatype Bounds = Bounds(infoEnd: nat, close: nat)

  /** The first line end after a fence, and the first closing mark after that. */
  function FindBounds(text: string, lineEnd: string, mark: string, from: nat): (r: Option<Bounds>)
    requires from <= |text| && |lineEnd| > 0
    ensures r.Some? ==> from <= r.value.infoEnd < r.value.close && r.value.close + |mark| <= |text|
  {
    var infoEnd := Find(text, lineEnd, from);
    if infoEnd.None? then None
    else
      var close := Find(text, mark, infoEnd.value + 1);
      if close.None? then None else Some(Bounds(infoEnd.value, close.value))
  }

  /** Both ends are the first ones. */
  lemma BoundsAreFirst(text: string, lineEnd: string, mark: string, from: nat)
    requires from <= |text| && |lineEnd| > 0 && FindBounds(text, lineEnd, mark, from).Some?
    ensures var b := FindBounds(text, lineEnd, mark, from).value;
            && Occurs(text, lineEnd, b.infoEnd) && Without(text, lineEnd, from, b.infoEnd)
            && Occurs(text, mark, b.close) && Without(text, mark, b.infoEnd + 1, b.close)
  {
    FindIsFirst(text, lineEnd, from);
    FindIsFirst(text, mark, Find(text, lineEnd, from).value + 1);
  }

  /** The pattern does not occur between `from` and `to`. */
  ghost predicate Without(text: string, pattern: string, from: nat, to: nat) {
    forall i :: from <= i < to ==> !Occurs(text, pattern, i)
  }

  function BlockAt(text: string, start: nat): (b: Option<Block>)
    requires start + 3 <= |text|
    ensures b.Some? ==> start == b.value.start < b.value.end <= |text|
  {
    match FindBounds(text, "\n", CLOSE, start + 3)
    case None => None
    case Some(ends) => Some(MakeBlock(text, start, ends.infoEnd, ends.close))
  }

  /** The next block at or after `cursor`: a fence, the rest of its line, and the first closing fence. */
  function NextBlock(text: string, cursor: nat): (b: Option<Block>)
    requires cursor <= |text|
    ensures b.Some? ==> cursor <= b.value.start < b.value.end <= |text|
  {
    var start := Find(text, FENCE, cursor);
    if start.None? then None else BlockAt(text, start.value)
  }

  function Blocks(text: string, cursor: nat): seq<Block>
    requires cursor <= |text|
    decreases |text| - cursor
  {
    var b := NextBlock(text, cursor);
    if b.None? then [] else [b.value] + Blocks(text, b.value.end)
  }

  /** The loop body: the block whose fence is at `start`, if its line ends and it is closed. */
  method ReadBlock(text: string, start: nat) returns (block: Option<Block>)
    requires start + 3 <= |text|
    ensures block == BlockAt(text, start)
  {
    hide Find, Trim, FirstInfoToken;
    var infoStart := start + 3;
    var infoEnd := Find(text, "\n", infoStart);
    if infoEnd.None? {
      return None;
    }
    var codeStart := infoEnd.value + 1;
    var close := Find(text, CLOSE, codeStart);
    if close.None? {
      return None;
    }
    var codeEnd := close.value + 1;
    var info := Trim(text[infoStart..infoEnd.value]);
    return Some(Block(FirstInfoToken(info), text[codeStart..codeEnd], start, codeEnd + 3));
  }

  method ExtractFencedCodeBlocks(text: string) returns (blocks: seq<Block>)
    ensures blocks == Blocks(text, 0)
  {
    blocks := [];
    var cursor := 0;
    ghost var rest := Blocks(text, 0);
    while true
      invariant cursor <= |text| && rest == Blocks(text, cursor)
      invariant blocks + rest == Blocks(text, 0)
      decreases |text| - cursor
    {
      var start := Find(text, FENCE, cursor);
      if start.None? {
        break;
      }
      var block := ReadBlock(text, start.value);
      if block.None? {
        break;
      }
      rest := rest[1..];
      blocks := blocks + [block.value];
      cursor := block.value.end;
    }
  }

  lemma NewlineFree(text: string, from: nat, to: nat)
    requires from <= to <= |text|
    requires Without(text, "\n", from, to)
    ensures '\n' !in text[from..to]
  {
    forall i | from <= i < to ensures text[i] != '\n' {
      assert !Occurs(text, "\n", i);
      assert text[i..i + 1] == [text[i]];
    }
  }

  lemma CloseSpells(text: string, i: nat)
    requires Occurs(text, CLOSE, i)
    ensures text[i] == '\n' && text[i + 1..i + 4] == FENCE
  {
    var t := text[i..i + 4];
    assert t[0] == text[i] && t[1..] == text[i + 1..i + 4];
    assert CLOSE[0] == '\n' && CLOSE[1..] == FENCE;
  }

  lemma Cut(text: string, a: nat, b: nat, c: nat)
    requires a <= b <= c <= |text|
    ensures text[a..c] == text[a..b] + text[b..c]
  {
  }

  lemma Cut5(text: string, a: nat, b: nat, c: nat, d: nat, e: nat, f: nat)
    requires a <= b <= c <= d <= e <= f <= |text|
    ensures text[a..f] == text[a..b] + text[b..c] + text[c..d] + text[d..e] + text[e..f]
  {
    Cut(text, a, e, f);
    Cut(text, a, d, e);
    Cut(text, a, c, d);
    Cut(text, a, b, c);
  }

  lemma MadeBlock(text: string, start: nat, infoEnd: nat, close: nat)
    requires start + 3 <= infoEnd < close < |text|
    requires Occurs(text, FENCE, start) && Occurs(text, "\n", infoEnd) && Occurs(text, CLOSE, close)
    ensures var b, info := MakeBlock(text, start, infoEnd, close), text[start + 3..infoEnd];
            && b.end <= |text| && text[b.start..b.end] == FENCE + info + "\n" + b.code + FENCE
            && b.code != "" && b.code[|b.code| - 1] == '\n'
  {
    PiecesSpell(text, start, infoEnd, close);
    CodeEnds(text, infoEnd, close);
  }

  /**
   The next block is the first fence, its line, and everything up to the first
   line that starts with a fence.
   */
  lemma BlockShape(text: string, start: nat) returns (info: string)
    requires Occurs(text, FENCE, start) && BlockAt(text, start).Some?
    ensures var b := BlockAt(text, start).value;
            && text[b.start..b.end] == FENCE + info + "\n" + b.code + FENCE
            && '\n' !in info && b.code != "" && b.code[|b.code| - 1] == '\n'
            && b.language == FirstInfoToken(Trim(info))
            && Without(text, CLOSE, b.start + 4 + |info|, b.end - 4)
  {
    var ends := FindBounds(text, "\n", CLOSE, start + 3).value;
    BoundsAreFirst(text, "\n", CLOSE, start + 3);
    info := text[start + 3..ends.infoEnd];
    NewlineFree(text, start + 3, ends.infoEnd);
    MadeBlock(text, start, ends.infoEnd, ends.close);
  }

  lemma CodeEnds(text: string, infoEnd: nat, close: nat)
    requires infoEnd <= close < |text| && text[close] == '\n'
    ensures var code := text[infoEnd + 1..close + 1];
            infoEnd < close ==> code != "" && code[|code| - 1] == '\n'
  {
  }

  /** The next block is at the first fence, and there is none when that fence is not closed. */
  lemma NextIsFirst(text: string, cursor: nat)
    requires cursor <= |text|
    ensures var b := NextBlock(text, cursor);
            && (b.Some? ==> Occurs(text, FENCE, b.value.start) && b == BlockAt(text, b.value.start)
                            && forall i :: cursor <= i < b.value.start ==> !Occurs(text, FENCE, i))
            && (b.None? ==> forall i :: cursor <= i && Occurs(text, FENCE, i) ==>
                              exists j :: cursor <= j <= i && Occurs(text, FENCE, j) && BlockAt(text, j).None?)
  {
    FindIsFirst(text, FENCE, cursor);
  }

  lemma PiecesSpell(text: string, start: nat, infoEnd: nat, close: nat)
    requires Occurs(text, FENCE, start) && start + 3 <= infoEnd < close + 1
    requires Occurs(text, "\n", infoEnd) && Occurs(text, CLOSE, close)
    ensures text[start..close + 4] ==
            FENCE + text[start + 3..infoEnd] + "\n" + text[infoEnd + 1..close + 1] + FENCE
    ensures text[close] == '\n'
  {
    CloseSpells(text, close);
    Cut5(text, start, start + 3, infoEnd, infoEnd + 1, close + 1, close + 4);
  }

  /** Blocks lie in the text in order, without overlap, each between its own fences. */
  lemma {:induction false} BlocksTile(text: string, cursor: nat, i: nat) returns (info: string)
    requires cursor <= |text| && i < |Blocks(text, cursor)|
    ensures var b := Blocks(text, cursor)[i];
            && cursor <= b.start < b.end <= |text|
            && text[b.start..b.end] == FENCE + info + "\n" + b.code + FENCE && '\n' !in info
            && (i > 0 ==> Blocks(text, cursor)[i - 1].end <= b.start)
    decreases |text| - cursor
  {
    hide BlockAt, Occurs, Without;
    var b := NextBlock(text, cursor).value;
    if i == 0 {
      NextIsFirst(text, cursor);
      info := BlockShape(text, b.start);
    } else {
      info := BlocksTile(text, b.end, i - 1);
    }
  }

  // ----- splitting an assistant text around its chart blocks -----

  datatype Piece = TextPiece(content: string) | ChartPiece(code: string)

  /** Whether a code block parses as a chart; the parser itself is not part of this model. */
  type ChartTest = (string, Option<string>) -> bool

  function TextSegment(text: string): seq<Piece> {
    if Trim(text) == "" then [] else [TextPiece(Trim(text))]
  }

  /** `cursor` is the end of the last chart; other blocks stay part of the text around them. */
  function Around(text: string, cursor: nat, blocks: seq<Block>, isChart: ChartTest): seq<Piece>
    requires InOrder(text, cursor, blocks)
    decreases |blocks|
  {
    if blocks == [] then TextSegment(text[cursor..])
    else if !isChart(blocks[0].code, blocks[0].language) then
      InOrderFrom(text, cursor, blocks[0].end, blocks[1..]);
      Around(text, cursor, blocks[1..], isChart)
    else
      TextSegment(text[cursor..blocks[0].start]) + [ChartPiece(blocks[0].code)]
      + Around(text, blocks[0].end, blocks[1..], isChart)
  }

  predicate HasChart(blocks: seq<Block>, isChart: ChartTest) {
    exists i :: 0 <= i < |blocks| && isChart(blocks[i].code, blocks[i].language)
  }

  function Pieces(text: string, isChart: ChartTest): seq<Piece> {
    BlocksInOrder(text, 0);
    if HasChart(Blocks(text, 0), isChart) then Around(text, 0, Blocks(text, 0), isChart) else [TextPiece(text)]
  }

  predicate InOrder(text: string, cursor: nat, blocks: seq<Block>)
    decreases |blocks|
  {
    if blocks == [] then cursor <= |text|
    else cursor <= blocks[0].start <= blocks[0].end <= |text| && InOrder(text, blocks[0].end, blocks[1..])
  }

  lemma InOrderFrom(text: string, cursor: nat, later: nat, blocks: seq<Block>)
    requires cursor <= later && InOrder(text, later, blocks)
    ensures InOrder(text, cursor, blocks)
  {
  }

  lemma {:induction false} BlocksInOrder(text: string, cursor: nat)
    requires cursor <= |text|
    ensures InOrder(text, cursor, Blocks(text, cursor))
    decreases |text| - cursor
  {
    if NextBlock(text, cursor).Some? {
      BlocksInOrder(text, NextBlock(text, cursor).value.end);
    }
  }

  method AssistantPieces(text: string, isChart: ChartTest) returns (out: seq<Piece>)
    ensures out == Pieces(text, isChart)
  {
    var blocks := ExtractFencedCodeBlocks(text);
    BlocksInOrder(text, 0);
    out := PiecesAround(text, blocks, isChart);
    if !HasChart(blocks, isChart) {
      return [TextPiece(text)];
    }
  }

  /** The loop over the blocks; with no chart among them it only trims the text. */
  method PiecesAround(text: string, blocks: seq<Block>, isChart: ChartTest) returns (out: seq<Piece>)
    requires InOrder(text, 0, blocks)
    ensures out == Around(text, 0, blocks, isChart)
  {
    hide TextSegment, Trim;
    out := [];
    var cursor: nat := 0;
    ghost var rest := Around(text, 0, blocks, isChart);
    var i := 0;
    while i < |blocks|
      invariant 0 <= i <= |blocks| && InOrder(text, cursor, blocks[i..])
      invariant rest == Around(text, cursor, blocks[i..], isChart)
      invariant out + rest == Around(text, 0, blocks, isChart)
    {
      var block := blocks[i];
      assert blocks[i..][1..] == blocks[i + 1..] && blocks[i..][0] == block;
      if isChart(block.code, block.language) {
        var pieces := TextSegment(text[cursor..block.start]) + [ChartPiece(block.code)];
        cursor := block.end;
        assert rest == pieces + Around(text, cursor, blocks[i + 1..], isChart);
        rest := rest[|pieces|..];
        out := out + pieces;
      } else {
        InOrderFrom(text, cursor, block.end, blocks[i + 1..]);
      }
      i := i + 1;
    }
    out := out + TextSegment(text[cursor..]);
  }

  // ----- the pieces tile the text -----

  /** What stands before a piece: white space, and for a chart the rest of its fence line. */
  datatype Gap = Gap(space: string, info: string)

  function LayOne(piece: Piece, gap: Gap): string {
    gap.space + match piece
                case TextPiece(t) => t
                case ChartPiece(code) => FENCE + gap.info + "\n" + code + FENCE
  }

  function Lay(pieces: seq<Piece>, gaps: seq<Gap>): string
    requires |gaps| == |pieces|
  {
    if pieces == [] then ""
    else
      LayOne(pieces[0], gaps[0]) + Lay(pieces[1..], gaps[1..])
  }

  ghost predicate BlankGaps(gaps: seq<Gap>) {
    forall i :: 0 <= i < |gaps| ==> Blank(gaps[i].space) && '\n' !in gaps[i].info
  }

  /** The block's slice of the text is its fence line, its code and its closing fence. */
  ghost predicate Fenced(text: string, b: Block, info: string) {
    b.start <= b.end <= |text| && '\n' !in info
    && text[b.start..b.end] == FENCE + info + "\n" + b.code + FENCE
  }

  ghost predicate HasFence(text: string, b: Block) {
    exists info :: Fenced(text, b, info)
  }

  ghost predicate AllFenced(text: string, blocks: seq<Block>) {
    blocks == [] || (HasFence(text, blocks[0]) && AllFenced(text, blocks[1..]))
  }

  lemma {:induction false} BlocksFenced(text: string, cursor: nat)
    requires cursor <= |text|
    ensures AllFenced(text, Blocks(text, cursor))
    decreases |text| - cursor
  {
    var b := NextBlock(text, cursor);
    if b.Some? {
      BlocksFenced(text, b.value.end);
      NextIsFirst(text, cursor);
      var info := BlockShape(text, b.value.start);
      assert Fenced(text, b.value, info);
    }
  }

  lemma LayText(t: string, space: string)
    ensures Lay([TextPiece(t)], [Gap(space, "")]) == space + t
  {
    assert [TextPiece(t)][1..] == [] && [Gap(space, "")][1..] == [];
    assert Lay([], []) == "";
  }

  lemma LaySnocSegment(carry: string, slice: string) returns (gaps: seq<Gap>, trail: string)
    requires Blank(carry)
    ensures |gaps| == |TextSegment(slice)| && BlankGaps(gaps) && Blank(trail)
    ensures carry + slice == Lay(TextSegment(slice), gaps) + trail
  {
    var lead, t := TrimFrames(slice);
    if Trim(slice) == "" {
      gaps, trail := [], carry + slice;
      BlankConcat(carry, slice);
    } else {
      gaps, trail := [Gap(carry + lead, "")], t;
      BlankConcat(carry, lead);
      LayText(Trim(slice), carry + lead);
      Regroup(carry, lead, Trim(slice), t);
    }
  }

  lemma LayCons(a: Piece, ga: Gap, b: seq<Piece>, gb: seq<Gap>)
    requires |b| == |gb|
    ensures Lay([a] + b, [ga] + gb) == LayOne(a, ga) + Lay(b, gb)
  {
    assert ([a] + b)[1..] == b && ([ga] + gb)[1..] == gb;
  }

  lemma ConsAgain<T>(a: seq<T>, b: seq<T>)
    requires a != []
    ensures a + b == [a[0]] + (a[1..] + b) && a == [a[0]] + a[1..]
  {
  }

  lemma {:induction false} LayConcat(a: seq<Piece>, ga: seq<Gap>, b: seq<Piece>, gb: seq<Gap>)
    requires |a| == |ga| && |b| == |gb|
    ensures Lay(a + b, ga + gb) == Lay(a, ga) + Lay(b, gb)
    decreases |a|
  {
    if a == [] {
      assert a + b == b && ga + gb == gb;
    } else {
      LayConcat(a[1..], ga[1..], b, gb);
      ConsAgain(a, b);
      ConsAgain(ga, gb);
      LayCons(a[0], ga[0], a[1..] + b, ga[1..] + gb);
      LayCons(a[0], ga[0], a[1..], ga[1..]);
      Associate(LayOne(a[0], ga[0]), Lay(a[1..], ga[1..]), Lay(b, gb));
    }
  }

  lemma LayChart(code: string, space: string, info: string)
    ensures Lay([ChartPiece(code)], [Gap(space, info)]) == space + (FENCE + info + "\n" + code + FENCE)
  {
    assert [ChartPiece(code)][1..] == [] && [Gap(space, info)][1..] == [];
  }

  lemma Regroup(a: string, b: string, c: string, d: string)
    ensures a + (b + c) + d == (a + b) + c + d
    ensures a + (b + c + d) == (a + b) + c + d
  {
  }

  lemma LayThree(a: seq<Piece>, ga: seq<Gap>, b: Piece, gb: Gap, c: seq<Piece>, gc: seq<Gap>)
    requires |a| == |ga| && |c| == |gc|
    ensures Lay(a + [b] + c, ga + [gb] + gc) == Lay(a, ga) + Lay([b], [gb]) + Lay(c, gc)
  {
    LayConcat(a, ga, [b], [gb]);
    LayConcat(a + [b], ga + [gb], c, gc);
  }

  /** A text segment, a chart after it, and the pieces after that. */
  lemma ChartTiles(slice: string, code: string, info: string, rest: seq<Piece>, back: seq<Gap>)
    returns (gaps: seq<Gap>)
    requires |back| == |rest| && BlankGaps(back) && '\n' !in info
    ensures |gaps| == |TextSegment(slice) + [ChartPiece(code)] + rest| && BlankGaps(gaps)
    ensures Lay(TextSegment(slice) + [ChartPiece(code)] + rest, gaps) ==
            slice + (FENCE + info + "\n" + code + FENCE) + Lay(rest, back)
  {
    hide Lay, TextSegment;
    var front, space := LaySnocSegment("", slice);
    assert "" + slice == slice;
    gaps := front + [Gap(space, info)] + back;
    LayChart(code, space, info);
    LayThree(TextSegment(slice), front, ChartPiece(code), Gap(space, info), rest, back);
    Regroup(Lay(TextSegment(slice), front), space, FENCE + info + "\n" + code + FENCE, Lay(rest, back));
  }

  lemma {:induction false} AroundTiles(text: string, cursor: nat, blocks: seq<Block>, isChart: ChartTest)
    returns (gaps: seq<Gap>, tail: string)
    requires InOrder(text, cursor, blocks) && AllFenced(text, blocks)
    ensures |gaps| == |Around(text, cursor, blocks, isChart)| && BlankGaps(gaps) && Blank(tail)
    ensures text[cursor..] == Lay(Around(text, cursor, blocks, isChart), gaps) + tail
    decreases |blocks|
  {
    if blocks == [] {
      gaps, tail := LaySnocSegment("", text[cursor..]);
      assert "" + text[cursor..] == text[cursor..];
    } else if !isChart(blocks[0].code, blocks[0].language) {
      InOrderFrom(text, cursor, blocks[0].end, blocks[1..]);
      gaps, tail := AroundTiles(text, cursor, blocks[1..], isChart);
    } else {
      var b := blocks[0];
      var info :| Fenced(text, b, info);
      var back;
      back, tail := AroundTiles(text, b.end, blocks[1..], isChart);
      CutAround(text, cursor, b.start, b.end);
      RegroupTail(text[cursor..b.start], text[b.start..b.end],
                  Lay(Around(text, b.end, blocks[1..], isChart), back), tail);
      gaps := ChartTiles(text[cursor..b.start], b.code, info, Around(text, b.end, blocks[1..], isChart), back);
    }
  }

  lemma RegroupTail(a: string, b: string, c: string, d: string)
    ensures a + b + (c + d) == (a + b + c) + d
  {
  }

  lemma CutAround(text: string, a: nat, b: nat, c: nat)
    requires a <= b <= c <= |text|
    ensures text[a..] == text[a..b] + text[b..c] + text[c..]
  {
  }

  /**
   The messages made of a text spell it in order: between them there is only
   white space and, at a chart, the lines of its fence. Without a chart the one
   message is the text itself.
   */
  lemma PiecesTile(text: string, isChart: ChartTest) returns (gaps: seq<Gap>, tail: string)
    ensures |gaps| == |Pieces(text, isChart)| && BlankGaps(gaps) && Blank(tail)
    ensures text == Lay(Pieces(text, isChart), gaps) + tail
    ensures !HasChart(Blocks(text, 0), isChart) ==> Pieces(text, isChart) == [TextPiece(text)]
  {
    BlocksInOrder(text, 0);
    BlocksFenced(text, 0);
    if HasChart(Blocks(text, 0), isChart) {
      gaps, tail := AroundTiles(text, 0, Blocks(text, 0), isChart);
      assert text[0..] == text;
    } else {
      gaps, tail := [Gap("", "")], "";
      LayText(text, "");
      assert "" + text == text && text + "" == text;
    }
  }

  lemma {:induction false} ChartStays(text: string, cursor: nat, blocks: seq<Block>, isChart: ChartTest, i: nat)
    requires InOrder(text, cursor, blocks) && i < |blocks| && isChart(blocks[i].code, blocks[i].language)
    ensures Around(text, cursor, blocks, isChart) != []
    decreases |blocks|
  {
    if !isChart(blocks[0].code, blocks[0].language) {
      InOrderFrom(text, cursor, blocks[0].end, blocks[1..]);
      ChartStays(text, cursor, blocks[1..], isChart, i - 1);
    }
  }

  /** Every text becomes at least one message. */
  lemma SomePiece(text: string, isChart: ChartTest)
    ensures Pieces(text, isChart) != []
  {
    var blocks := Blocks(text, 0);
    BlocksInOrder(text, 0);
    if HasChart(blocks, isChart) {
      var i :| 0 <= i < |blocks| && isChart(blocks[i].code, blocks[i].language);
      ChartStays(text, 0, blocks, isChart, i);
    }
  }

  // ----- which pieces there are -----

  /** The codes of the charts among the pieces. */
  function ChartsIn(pieces: seq<Piece>): seq<string> {
    if pieces == [] then []
    else (if pieces[0].ChartPiece? then [pieces[0].code] else []) + ChartsIn(pieces[1..])
  }

  /** The codes of the blocks that are charts. */
  function AcceptedIn(blocks: seq<Block>, isChart: ChartTest): seq<string> {
    if blocks == [] then []
    else
      (if isChart(blocks[0].code, blocks[0].language) then [blocks[0].code] else []) + AcceptedIn(blocks[1..], isChart)
  }

  lemma {:induction false} ChartsConcat(a: seq<Piece>, b: seq<Piece>)
    ensures ChartsIn(a + b) == ChartsIn(a) + ChartsIn(b)
  {
    if a == [] {
      assert a + b == b;
    } else {
      ChartsConcat(a[1..], b);
      PrefixSlices(a, b, 1);
    }
  }

  lemma NoChartInText(text: string)
    ensures ChartsIn(TextSegment(text)) == []
  {
    assert [TextPiece(Trim(text))][1..] == [];
  }

  /** A text between charts begins and ends with something visible. */
  ghost predicate TextsAreDark(pieces: seq<Piece>) {
    forall i :: 0 <= i < |pieces| && pieces[i].TextPiece? ==>
      var t := pieces[i].content; t != "" && !IsSpace(t[0]) && !IsSpace(t[|t| - 1])
  }

  lemma SegmentIsDark(text: string)
    ensures TextsAreDark(TextSegment(text))
  {
    TrimIsDark(text);
  }

  lemma ChartJoins(front: seq<Piece>, code: string, back: seq<Piece>)
    requires ChartsIn(front) == []
    ensures ChartsIn(front + [ChartPiece(code)] + back) == [code] + ChartsIn(back)
  {
    ChartsConcat(front + [ChartPiece(code)], back);
    ChartsConcat(front, [ChartPiece(code)]);
    assert [ChartPiece(code)][1..] == [];
  }

  lemma {:induction false} AroundAccepts(text: string, cursor: nat, blocks: seq<Block>, isChart: ChartTest)
    requires InOrder(text, cursor, blocks)
    ensures ChartsIn(Around(text, cursor, blocks, isChart)) == AcceptedIn(blocks, isChart)
    decreases |blocks|
  {
    hide TextSegment, ChartsIn;
    if blocks == [] {
      NoChartInText(text[cursor..]);
    } else if !isChart(blocks[0].code, blocks[0].language) {
      InOrderFrom(text, cursor, blocks[0].end, blocks[1..]);
      AroundAccepts(text, cursor, blocks[1..], isChart);
    } else {
      var b := blocks[0];
      AroundAccepts(text, b.end, blocks[1..], isChart);
      NoChartInText(text[cursor..b.start]);
      ChartJoins(TextSegment(text[cursor..b.start]), b.code, Around(text, b.end, blocks[1..], isChart));
    }
  }

  lemma {:induction false} AroundIsDark(text: string, cursor: nat, blocks: seq<Block>, isChart: ChartTest)
    requires InOrder(text, cursor, blocks)
    ensures TextsAreDark(Around(text, cursor, blocks, isChart))
    decreases |blocks|
  {
    hide TextSegment, TextsAreDark;
    if blocks == [] {
      SegmentIsDark(text[cursor..]);
    } else if !isChart(blocks[0].code, blocks[0].language) {
      InOrderFrom(text, cursor, blocks[0].end, blocks[1..]);
      AroundIsDark(text, cursor, blocks[1..], isChart);
    } else {
      var b := blocks[0];
      AroundIsDark(text, b.end, blocks[1..], isChart);
      SegmentIsDark(text[cursor..b.start]);
      DarkJoins(TextSegment(text[cursor..b.start]), b.code, Around(text, b.end, blocks[1..], isChart));
    }
  }

  lemma DarkJoins(front: seq<Piece>, code: string, back: seq<Piece>)
    requires TextsAreDark(front) && TextsAreDark(back)
    ensures TextsAreDark(front + [ChartPiece(code)] + back)
  {
    hide IsSpace;
  }

  /**
   The charts among the pieces are exactly the blocks that parse as charts, in order,
   and beside them stands no blank text and no white space at the ends of a text.
   */
  lemma ChartsAreAccepted(text: string, isChart: ChartTest)
    ensures ChartsIn(Pieces(text, isChart)) == AcceptedIn(Blocks(text, 0), isChart)
    ensures HasChart(Blocks(text, 0), isChart) ==> TextsAreDark(Pieces(text, isChart))
  {
    BlocksInOrder(text, 0);
    if HasChart(Blocks(text, 0), isChart) {
      AroundAccepts(text, 0, Blocks(text, 0), isChart);
      AroundIsDark(text, 0, Blocks(text, 0), isChart);
    } else {
      NoneAccepted(Blocks(text, 0), isChart);
      assert [TextPiece(text)][1..] == [];
    }
  }

  lemma {:induction false} NoneAccepted(blocks: seq<Block>, isChart: ChartTest)
    requires !HasChart(blocks, isChart)
    ensures AcceptedIn(blocks, isChart) == []
  {
    if blocks != [] {
      assert forall i :: 0 <= i < |blocks[1..]| ==> blocks[1..][i] == blocks[i + 1];
      NoneAccepted(blocks[1..], isChart);
    }
  }

  lemma {:induction false} WordIsFirst(s: string)
    ensures Word(s) <= s && (forall i :: 0 <= i < |Word(s)| ==> !IsSpace(s[i]))
    ensures |Word(s)| < |s| ==> IsSpace(s[|Word(s)|])
  {
    if s != "" && !IsSpace(s[0]) {
      WordIsFirst(s[1..]);
      assert s == [s[0]] + s[1..];
    }
  }

  /** The same letters, with those from A to Z in lower case. */
  ghost predicate LowerOf(lower: string, word: string) {
    |lower| == |word| &&
    forall i :: 0 <= i < |word| ==>
      if 'A' <= word[i] <= 'Z' then lower[i] as int - 'a' as int == word[i] as int - 'A' as int
      else lower[i] == word[i]
  }

  lemma IsLower(word: string)
    ensures LowerOf(AsciiLower(word), word)
  {
  }

  lemma FrontIsDark(s: string)
    ensures var behind := s[LeadingSpace(s)..]; Blank(s[..LeadingSpace(s)]) && (behind == "" <==> Blank(s))
    ensures var behind := s[LeadingSpace(s)..]; behind != "" ==> !IsSpace(behind[0])
  {
    LeadingSplits(s);
    var n := LeadingSpace(s);
    assert n < |s| ==> s[n..][0] == s[n];
  }

  /**
   The language of an info line is its first word in lower case: what stands between
   the white space in front and the next white space. A blank line has none.
   */
  lemma TokenIsFirstWord(info: string) returns (lead: string, word: string, rest: string)
    ensures info == lead + word + rest && Blank(lead) && (rest != "" ==> IsSpace(rest[0]))
    ensures forall i :: 0 <= i < |word| ==> !IsSpace(word[i])
    ensures FirstInfoToken(info).None? <==> Blank(info)
    ensures FirstInfoToken(info).Some? ==> word != "" && LowerOf(FirstInfoToken(info).value, word)
  {
    hide Blank, IsSpace, LeadingSpace, Word, AsciiLower, LowerOf;
    var n := LeadingSpace(info);
    var behind := info[n..];
    FrontIsDark(info);
    WordIsFirst(behind);
    lead, word, rest := info[..n], Word(behind), behind[|Word(behind)|..];
    Halves(info, n);
    Halves(behind, |word|);
    Associate(lead, word, rest);
    IsLower(word);
  }
}
