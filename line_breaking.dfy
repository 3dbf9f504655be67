/**
 * The greedy line breaking the Karaoke, Teleprompter and Scrolling render
 * strategies share: words are set left to right and a line is closed as soon
 * as the next word (with its spacing) would overflow the maximum width.  The
 * word widths come from font measurement, so they are an input here.
 */
module LineBreaking {
  import opened DataModel

  /** A run of consecutive words set on one line, and its width. */
  datatype LineInfo = LineInfo(startWordIndex: int, endWordIndex: int, totalWidth: real)

  function Sum(s: seq<real>): real {
    if s == [] then 0.0 else Sum(s[..|s| - 1]) + s[|s| - 1]
  }

  /** The width of words a..b on one line: their widths and one spacing between each neighbouring pair. */
  function Width(w: seq<real>, sp: real, a: int, b: int): real
    requires 0 <= a <= b < |w|
  {
    Sum(w[a..b + 1]) + (b - a) as real * sp
  }

  lemma WidthSingle(w: seq<real>, sp: real, a: int)
    requires 0 <= a < |w|
    ensures Width(w, sp, a, a) == w[a]
  {
    var s := w[a..a + 1];
    assert s[..0] == [];
    assert Sum(s) == Sum(s[..0]) + s[0];
  }

  lemma WidthExtend(w: seq<real>, sp: real, a: int, b: int)
    requires 0 <= a <= b && b + 1 < |w|
    ensures Width(w, sp, a, b + 1) == Width(w, sp, a, b) + sp + w[b + 1]
  {
    assert w[a..b + 2][..b + 1 - a] == w[a..b + 1];
  }

  /** With no negative widths or spacing, a line is at least as wide as any word on it. */
  lemma {:induction false} WidthCoversWord(w: seq<real>, sp: real, a: int, b: int, j: int)
    requires 0 <= a <= j <= b < |w|
    requires forall i :: 0 <= i < |w| ==> w[i] >= 0.0
    requires sp >= 0.0
    ensures Width(w, sp, a, b) >= w[j]
    decreases b - a
  {
    if b == j {
      if a == b {
        WidthSingle(w, sp, a);
      } else {
        WidthExtend(w, sp, a, b - 1);
        WidthNonNegative(w, sp, a, b - 1);
      }
    } else {
      WidthExtend(w, sp, a, b - 1);
      WidthCoversWord(w, sp, a, b - 1, j);
    }
  }

  lemma {:induction false} WidthNonNegative(w: seq<real>, sp: real, a: int, b: int)
    requires 0 <= a <= b < |w|
    requires forall i :: 0 <= i < |w| ==> w[i] >= 0.0
    requires sp >= 0.0
    ensures Width(w, sp, a, b) >= 0.0
    decreases b - a
  {
    if a == b {
      WidthSingle(w, sp, a);
    } else {
      WidthExtend(w, sp, a, b - 1);
      WidthNonNegative(w, sp, a, b - 1);
    }
  }

  /**
   * calculateLineBreaks from word `i` on, while the open line starts at word
   * `start` and is `cur` wide: a word that would push a non-empty line past
   * maxWidth closes it and opens the next; the open line is closed at the end.
   */
  function BreakFrom(w: seq<real>, sp: real, mx: real, i: nat, start: nat, cur: real): seq<LineInfo>
    requires start <= i <= |w|
    decreases |w| - i
  {
    if i == |w| then
      if start < |w| then [LineInfo(start, |w| - 1, cur)] else []
    else
      var withWord := if i > start then cur + w[i] + sp else cur + w[i];
      if withWord > mx && i > start then [LineInfo(start, i - 1, cur)] + BreakFrom(w, sp, mx, i + 1, i, w[i])
      else BreakFrom(w, sp, mx, i + 1, start, withWord)
  }

  /** One step of the greedy at word `i`: the line closes or grows. */
  lemma BreakStep(w: seq<real>, sp: real, mx: real, i: nat, start: nat, cur: real)
    requires start <= i < |w|
    ensures var withWord := if i > start then cur + w[i] + sp else cur + w[i];
            (withWord > mx && i > start ==>
              BreakFrom(w, sp, mx, i, start, cur) == [LineInfo(start, i - 1, cur)] + BreakFrom(w, sp, mx, i + 1, i, w[i])) &&
            (!(withWord > mx && i > start) ==>
              BreakFrom(w, sp, mx, i, start, cur) == BreakFrom(w, sp, mx, i + 1, start, withWord))
  {
  }

  /** The end of the greedy: the open line, if any, is the last. */
  lemma BreakEnd(w: seq<real>, sp: real, mx: real, start: nat, cur: real)
    requires start <= |w|
    ensures BreakFrom(w, sp, mx, |w|, start, cur) == if start < |w| then [LineInfo(start, |w| - 1, cur)] else []
  {
  }

  /** The lines calculateLineBreaks gives for words of widths `w`. */
  function Lines(w: seq<real>, sp: real, mx: real): seq<LineInfo> {
    BreakFrom(w, sp, mx, 0, 0, 0.0)
  }

  /** `lines` split the words from..to-1 into non-empty runs, in order, each following the last. */
  predicate Partition(lines: seq<LineInfo>, from: int, to: int) {
    (from == to ==> lines == []) &&
    (from != to ==>
      lines != [] && lines[0].startWordIndex == from && lines[|lines| - 1].endWordIndex == to - 1 &&
      (forall k :: 0 <= k < |lines| ==> from <= lines[k].startWordIndex <= lines[k].endWordIndex < to) &&
      (forall k :: 0 <= k < |lines| - 1 ==> Adjacent(lines, k)))
  }

  /** Line k + 1 starts at the word after line k's last. */
  predicate Adjacent(lines: seq<LineInfo>, k: int)
    requires 0 <= k < |lines| - 1
  {
    lines[k + 1].startWordIndex == lines[k].endWordIndex + 1
  }

  /** A line was closed because the word after it, with its spacing, would have overflowed maxWidth. */
  predicate ClosedByNext(w: seq<real>, sp: real, mx: real, line: LineInfo)
    requires 0 <= line.endWordIndex + 1 < |w|
  {
    line.totalWidth + sp + w[line.endWordIndex + 1] > mx
  }

  /**
   * A line's recorded width is its words' widths plus the spacing between
   * them, and a line of several words fits within maxWidth.
   */
  predicate LineFits(w: seq<real>, sp: real, mx: real, l: LineInfo) {
    0 <= l.startWordIndex <= l.endWordIndex < |w| &&
    l.totalWidth == Width(w, sp, l.startWordIndex, l.endWordIndex) &&
    (l.startWordIndex < l.endWordIndex ==> l.totalWidth <= mx)
  }

  /**
   * What calculateLineBreaks establishes about the lines it returns for the
   * words from `from` on: they partition those words, every line fits, and
   * a line is only closed because the next word would not fit.
   */
  predicate Broken(w: seq<real>, sp: real, mx: real, lines: seq<LineInfo>, from: int) {
    0 <= from <= |w| && Partition(lines, from, |w|) &&
    (forall k :: 0 <= k < |lines| ==> LineFits(w, sp, mx, lines[k])) &&
    (forall k :: 0 <= k < |lines| - 1 ==>
      0 <= lines[k].endWordIndex + 1 < |w| && ClosedByNext(w, sp, mx, lines[k]))
  }

  /**
   * The same, line by line: the first line starts at `from`, measures its
   * words, fits unless it holds one word, was closed only because the next
   * word would not fit, and the remaining lines do the same from the word
   * after it.
   */
  predicate BrokenFrom(w: seq<real>, sp: real, mx: real, lines: seq<LineInfo>, from: int)
    decreases |lines|
  {
    if lines == [] then from == |w|
    else
      var l := lines[0];
      l.startWordIndex == from && LineFits(w, sp, mx, l) &&
      (l.endWordIndex + 1 < |w| ==> ClosedByNext(w, sp, mx, l)) &&
      BrokenFrom(w, sp, mx, lines[1..], l.endWordIndex + 1)
  }

  /** The line-by-line form gives the indexed one. */
  lemma {:induction false} BrokenFromIsBroken(w: seq<real>, sp: real, mx: real, lines: seq<LineInfo>, from: int)
    requires 0 <= from <= |w| && BrokenFrom(w, sp, mx, lines, from)
    ensures Broken(w, sp, mx, lines, from)
    decreases |lines|
  {
    if lines != [] {
      var l := lines[0];
      BrokenFromIsBroken(w, sp, mx, lines[1..], l.endWordIndex + 1);
      if lines[1..] == [] {
        assert lines == [l];
        BrokenLast(w, sp, mx, l);
      } else {
        assert lines == [l] + lines[1..];
        BrokenCons(w, sp, mx, l, lines[1..]);
      }
    }
  }

  lemma {:induction false} BreakFromBroken(w: seq<real>, sp: real, mx: real, i: nat, start: nat, cur: real)
    requires start <= i <= |w|
    requires i == start ==> cur == 0.0
    requires start < i ==> cur == Width(w, sp, start, i - 1) && (start < i - 1 ==> cur <= mx)
    ensures BrokenFrom(w, sp, mx, BreakFrom(w, sp, mx, i, start, cur), start)
    decreases |w| - i, 1
  {
    if i == |w| {
    } else if i > start && cur + w[i] + sp > mx {
      BreakCloses(w, sp, mx, i, start, cur);
    } else {
      BreakExtends(w, sp, mx, i, start, cur);
    }
  }

  /** Word i fits: it joins the open line. */
  lemma {:induction false} BreakExtends(w: seq<real>, sp: real, mx: real, i: nat, start: nat, cur: real)
    requires start <= i < |w|
    requires i == start ==> cur == 0.0
    requires start < i ==> cur == Width(w, sp, start, i - 1) && (start < i - 1 ==> cur <= mx)
    requires i > start ==> cur + w[i] + sp <= mx
    ensures BrokenFrom(w, sp, mx, BreakFrom(w, sp, mx, i, start, cur), start)
    decreases |w| - i, 0
  {
    var withWord := if i > start then cur + w[i] + sp else cur + w[i];
    assert BreakFrom(w, sp, mx, i, start, cur) == BreakFrom(w, sp, mx, i + 1, start, withWord);
    if i == start {
      WidthSingle(w, sp, i);
    } else {
      WidthExtend(w, sp, start, i - 1);
    }
    BreakFromBroken(w, sp, mx, i + 1, start, withWord);
  }

  /** Word i does not fit: the open line is closed and word i starts the next. */
  lemma {:induction false} BreakCloses(w: seq<real>, sp: real, mx: real, i: nat, start: nat, cur: real)
    requires start < i < |w|
    requires cur == Width(w, sp, start, i - 1) && (start < i - 1 ==> cur <= mx)
    requires cur + w[i] + sp > mx
    ensures BrokenFrom(w, sp, mx, BreakFrom(w, sp, mx, i, start, cur), start)
    decreases |w| - i, 0
  {
    var line := LineInfo(start, i - 1, cur);
    var rest := BreakFrom(w, sp, mx, i + 1, i, w[i]);
    assert BreakFrom(w, sp, mx, i, start, cur) == [line] + rest;
    WidthSingle(w, sp, i);
    BreakFromBroken(w, sp, mx, i + 1, i, w[i]);
    assert ([line] + rest)[1..] == rest;
  }

  /** The last line alone. */
  lemma BrokenLast(w: seq<real>, sp: real, mx: real, line: LineInfo)
    requires LineFits(w, sp, mx, line) && line.endWordIndex == |w| - 1
    ensures Broken(w, sp, mx, [line], line.startWordIndex)
  {
  }

  /** A closed line in front of the lines that follow it. */
  lemma BrokenCons(w: seq<real>, sp: real, mx: real, line: LineInfo, rest: seq<LineInfo>)
    requires LineFits(w, sp, mx, line) && line.endWordIndex + 1 < |w|
    requires ClosedByNext(w, sp, mx, line)
    requires Broken(w, sp, mx, rest, line.endWordIndex + 1)
    ensures Broken(w, sp, mx, [line] + rest, line.startWordIndex)
  {
    var lines := [line] + rest;
    assert forall k :: 1 <= k < |lines| ==> lines[k] == rest[k - 1];
    forall k | 0 <= k < |lines| - 1
      ensures Adjacent(lines, k)
    {
      if k > 0 {
        assert Adjacent(rest, k - 1);
      }
    }
  }

  /** calculateLineBreaks meets its specification for any widths. */
  lemma LinesBroken(w: seq<real>, sp: real, mx: real)
    ensures Broken(w, sp, mx, Lines(w, sp, mx), 0)
  {
    BreakFromBroken(w, sp, mx, 0, 0, 0.0);
    BrokenFromIsBroken(w, sp, mx, Lines(w, sp, mx), 0);
  }

  /** Earlier lines end before later lines start. */
  lemma {:induction false} PartitionOrdered(lines: seq<LineInfo>, from: int, to: int, k1: int, k2: int)
    requires Partition(lines, from, to) && 0 <= k1 < k2 < |lines|
    ensures lines[k1].endWordIndex < lines[k2].startWordIndex
    decreases k2 - k1
  {
    assert Adjacent(lines, k2 - 1);
    if k2 > k1 + 1 {
      PartitionOrdered(lines, from, to, k1, k2 - 1);
    }
  }

  /** Every word in from..to-1 lies on a line of the partition, found from line `k` on. */
  lemma {:induction false} PartitionCoversFrom(lines: seq<LineInfo>, from: int, to: int, j: int, k: int) returns (h: int)
    requires Partition(lines, from, to) && from <= j < to
    requires 0 <= k < |lines| && lines[k].startWordIndex <= j
    ensures k <= h < |lines| && lines[h].startWordIndex <= j <= lines[h].endWordIndex
    decreases |lines| - k
  {
    if j <= lines[k].endWordIndex {
      h := k;
    } else {
      assert Adjacent(lines, k);
      h := PartitionCoversFrom(lines, from, to, j, k + 1);
    }
  }

  /** Each word of from..to-1 lies on exactly one line of the partition. */
  lemma {:induction false} PartitionHolds(lines: seq<LineInfo>, from: int, to: int, j: int) returns (h: int)
    requires Partition(lines, from, to) && from <= j < to
    ensures 0 <= h < |lines| && lines[h].startWordIndex <= j <= lines[h].endWordIndex
    ensures forall k :: 0 <= k < |lines| && lines[k].startWordIndex <= j <= lines[k].endWordIndex ==> k == h
  {
    h := PartitionCoversFrom(lines, from, to, j, 0);
    forall k | 0 <= k < |lines| && lines[k].startWordIndex <= j <= lines[k].endWordIndex
      ensures k == h
    {
      if k < h {
        PartitionOrdered(lines, from, to, k, h);
      } else if h < k {
        PartitionOrdered(lines, from, to, h, k);
      }
    }
  }

  /**
   * With no negative widths or spacing, a word wider than maxWidth always
   * stands on a line of its own.
   */
  lemma {:induction false} OverWideWordAlone(w: seq<real>, sp: real, mx: real, k: int, j: int)
    requires forall i :: 0 <= i < |w| ==> w[i] >= 0.0
    requires sp >= 0.0
    requires 0 <= j < |w|
    requires var lines := Lines(w, sp, mx);
             0 <= k < |lines| && lines[k].startWordIndex <= j <= lines[k].endWordIndex && w[j] > mx
    ensures var lines := Lines(w, sp, mx);
            lines[k].startWordIndex == lines[k].endWordIndex == j
  {
    var lines := Lines(w, sp, mx);
    LinesBroken(w, sp, mx);
    WidthCoversWord(w, sp, lines[k].startWordIndex, lines[k].endWordIndex, j);
  }

  /** A juce::Rectangle<int>: its top-left corner and its size. */
  datatype Area = Area(x: int, y: int, width: int, height: int)

  function ClampZero(v: int): int {
    if v > 0 then v else 0
  }

  /**
   * The area the strategies draw in: the bounds reduced by 20 on every side,
   * then 60 taken from the bottom for the stop button; as juce::Rectangle
   * does, neither step takes a size below 0.
   */
  function PlayArea(bounds: Area): (a: Area)
    ensures a.x == bounds.x + 20 && a.y == bounds.y + 20
    ensures a.width >= 0 && a.height >= 0
    ensures a.width == if bounds.width >= 40 then bounds.width - 40 else 0
    ensures a.height == if bounds.height >= 100 then bounds.height - 100 else 0
  {
    var r := Area(bounds.x + 20, bounds.y + 20, ClampZero(bounds.width - 40), ClampZero(bounds.height - 40));
    var removed := if 60 < r.height then 60 else r.height;
    r.(height := r.height - removed)
  }

  /** The widest a line may be: the area's width less 40. */
  function MaxLineWidth(area: Area): real {
    area.width as real - 40.0
  }

  /** What the render context carries that the highlight rules read. */
  datatype RenderContext = RenderContext(
    project: seq<Clip>, currentTime: real, currentClipIndex: int, isRunning: bool,
    clipIndex: int, wordIndex: int)

  /**
   * The Teleprompter and Scrolling highlight rule: the word at `wordIndex`
   * of clip `clipIndex` is highlighted when it is the display state's word,
   * playback is running and the end has not been reached.
   */
  predicate HighlightsWord(ctx: RenderContext, clipIndex: int, wordIndex: int) {
    clipIndex == ctx.clipIndex && wordIndex == ctx.wordIndex &&
    ctx.isRunning && ctx.currentTime < TotalDuration(ctx.project)
  }

  /** calculateLineBreaks, as its loop over the words. */
  method CalculateLineBreaks(widths: seq<real>, wordSpacing: real, maxWidth: real) returns (lines: seq<LineInfo>)
    ensures lines == Lines(widths, wordSpacing, maxWidth)
    ensures Broken(widths, wordSpacing, maxWidth, lines, 0)
  {
    lines := [];
    var currentLineWidth := 0.0;
    var lineStartIndex := 0;
    var wordIndex := 0;
    while wordIndex < |widths|
      invariant lineStartIndex <= wordIndex <= |widths|
      invariant lines + BreakFrom(widths, wordSpacing, maxWidth, wordIndex, lineStartIndex, currentLineWidth) ==
                Lines(widths, wordSpacing, maxWidth)
    {
      BreakStep(widths, wordSpacing, maxWidth, wordIndex, lineStartIndex, currentLineWidth);
      var wordWidth := widths[wordIndex];
      var widthWithWord := currentLineWidth + wordWidth;
      if wordIndex > lineStartIndex {
        widthWithWord := widthWithWord + wordSpacing;
      }
      if widthWithWord > maxWidth && wordIndex > lineStartIndex {
        var line := LineInfo(lineStartIndex, wordIndex - 1, currentLineWidth);
        assert lines + ([line] + BreakFrom(widths, wordSpacing, maxWidth, wordIndex + 1, wordIndex, wordWidth)) ==
               (lines + [line]) + BreakFrom(widths, wordSpacing, maxWidth, wordIndex + 1, wordIndex, wordWidth);
        lines := lines + [line];
        lineStartIndex := wordIndex;
        currentLineWidth := wordWidth;
      } else {
        if wordIndex > lineStartIndex {
          currentLineWidth := currentLineWidth + wordSpacing;
        }
        currentLineWidth := currentLineWidth + wordWidth;
      }
      wordIndex := wordIndex + 1;
    }
    BreakEnd(widths, wordSpacing, maxWidth, lineStartIndex, currentLineWidth);
    if lineStartIndex < |widths| {
      lines := lines + [LineInfo(lineStartIndex, |widths| - 1, currentLineWidth)];
    } else {
      assert lines + [] == lines;
    }
    LinesBroken(widths, wordSpacing, maxWidth);
  }
}
