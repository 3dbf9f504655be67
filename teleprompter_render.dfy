/**
 * The Teleprompter render strategy: the lines of every clip, one after the
 * other with a blank separator line between clips, scrolled so that the line
 * holding the current word sits at the read line.
 */
module TeleprompterRender {
  import opened DataModel
  import opened LineBreaking

  /** A line of the teleprompter, tagged with its clip; a separator has word range -1..-1. */
  datatype PromptLine = PromptLine(clipIndex: int, startWordIndex: int, endWordIndex: int, totalWidth: real)

  function Separator(clipIndex: int): PromptLine {
    PromptLine(clipIndex, -1, -1, 0.0)
  }

  /** A line of clip `clipIndex`, with the word range and width of `l`. */
  function Tag(l: LineInfo, clipIndex: int): PromptLine {
    PromptLine(clipIndex, l.startWordIndex, l.endWordIndex, l.totalWidth)
  }

  /** The lines of one clip, each tagged with the clip's index. */
  function Tagged(lines: seq<LineInfo>, clipIndex: int): (r: seq<PromptLine>)
    ensures |r| == |lines|
  {
    if lines == [] then [] else Tagged(lines[..|lines| - 1], clipIndex) + [Tag(lines[|lines| - 1], clipIndex)]
  }

  /** Tagged line `k` is line `k`, tagged. */
  lemma {:induction false} TaggedAt(lines: seq<LineInfo>, clipIndex: int)
    ensures forall k :: 0 <= k < |lines| ==> Tagged(lines, clipIndex)[k] == Tag(lines[k], clipIndex)
  {
    if lines != [] {
      var n := |lines| - 1;
      TaggedAt(lines[..n], clipIndex);
      assert forall k :: 0 <= k < n ==> lines[..n][k] == lines[k];
    }
  }

  /**
   * calculateLineBreaksForClip for the clip at `clipIndex` with word widths
   * `ws[clipIndex]`: the shared greedy lines, tagged with the clip.
   */
  function ClipLines(ws: seq<seq<real>>, sp: real, mx: real, clipIndex: int): (r: seq<PromptLine>)
    requires 0 <= clipIndex < |ws|
    ensures var lines := Lines(ws[clipIndex], sp, mx);
            |r| == |lines| && forall k :: 0 <= k < |r| ==> r[k] == Tag(lines[k], clipIndex)
  {
    TaggedAt(Lines(ws[clipIndex], sp, mx), clipIndex);
    Tagged(Lines(ws[clipIndex], sp, mx), clipIndex)
  }

  /**
   * buildAllLines over the first `k` clips: each clip's lines in order, and a
   * separator after every clip but the project's last.
   */
  function LinesUpTo(ws: seq<seq<real>>, sp: real, mx: real, k: nat): seq<PromptLine>
    requires k <= |ws|
  {
    if k == 0 then []
    else LinesUpTo(ws, sp, mx, k - 1) + ClipLines(ws, sp, mx, k - 1) +
         (if k < |ws| then [Separator(k - 1)] else [])
  }

  /** buildAllLines, for a project whose clip `i` has word widths `ws[i]`. */
  function AllLines(ws: seq<seq<real>>, sp: real, mx: real): seq<PromptLine> {
    LinesUpTo(ws, sp, mx, |ws|)
  }

  /** The scroll search's test: not a separator, of clip `c`, and holding word `j`. */
  predicate Holds(l: PromptLine, c: int, j: int) {
    l.startWordIndex != -1 && l.clipIndex == c && l.startWordIndex <= j <= l.endWordIndex
  }

  /** The first line of `lines` that holds word `j` of clip `c`, or -1. */
  function ScrollLine(lines: seq<PromptLine>, c: int, j: int): (r: int)
    ensures -1 <= r < |lines|
    ensures r >= 0 ==> Holds(lines[r], c, j)
    ensures forall k :: 0 <= k < |lines| && (r < 0 || k < r) ==> !Holds(lines[k], c, j)
  {
    if lines == [] then -1
    else if Holds(lines[0], c, j) then 0
    else
      var r := ScrollLine(lines[1..], c, j);
      if r < 0 then -1 else r + 1
  }

  /**
   * calculateScrollOffset: with the current word's line found, the scroll
   * that brings that line to the read line; otherwise no scroll.
   */
  function ScrollOffset(lines: seq<PromptLine>, c: int, j: int, lineHeight: real, areaY: real, readLineY: real): real {
    var r := ScrollLine(lines, c, j);
    if r < 0 then 0.0 else r as real * lineHeight - (readLineY - areaY)
  }

  /** Where render draws line `k`: from the area top, less the scroll, one line height per line. */
  function LineY(areaY: real, scrollOffset: real, lineHeight: real, k: int): real {
    areaY - scrollOffset + k as real * lineHeight
  }

  /** Every line built for the first `k` clips belongs to one of them; separators are blank. */
  lemma {:induction false} LinesUpToTags(ws: seq<seq<real>>, sp: real, mx: real, k: nat)
    requires k <= |ws|
    ensures forall n :: 0 <= n < |LinesUpTo(ws, sp, mx, k)| ==> 0 <= LinesUpTo(ws, sp, mx, k)[n].clipIndex < k
    decreases k
  {
    if k > 0 {
      LinesUpToTags(ws, sp, mx, k - 1);
    }
  }

  /** The lines of clip `c` hold each of its words exactly once. */
  lemma {:induction false} ClipLinesHold(ws: seq<seq<real>>, sp: real, mx: real, c: int, j: int) returns (h: int)
    requires 0 <= c < |ws| && 0 <= j < |ws[c]|
    ensures var b := ClipLines(ws, sp, mx, c);
            0 <= h < |b| && Holds(b[h], c, j) &&
            forall n :: 0 <= n < |b| && Holds(b[n], c, j) ==> n == h
  {
    var lines := Lines(ws[c], sp, mx);
    LinesBroken(ws[c], sp, mx);
    h := PartitionHolds(lines, 0, |ws[c]|, j);
  }

  /** Lines built for the first `k` clips hold word `j` of clip `c` exactly once. */
  lemma {:induction false} LinesUpToHoldOnce(ws: seq<seq<real>>, sp: real, mx: real, k: nat, c: int, j: int) returns (h: int)
    requires 0 <= c < k <= |ws| && 0 <= j < |ws[c]|
    ensures var s := LinesUpTo(ws, sp, mx, k);
            0 <= h < |s| && Holds(s[h], c, j) &&
            forall n :: 0 <= n < |s| && Holds(s[n], c, j) ==> n == h
    decreases k
  {
    var a := LinesUpTo(ws, sp, mx, k - 1);
    var b := ClipLines(ws, sp, mx, k - 1);
    var e: seq<PromptLine> := if k < |ws| then [Separator(k - 1)] else [];
    var s := a + b + e;
    assert s == LinesUpTo(ws, sp, mx, k);
    assert forall n :: 0 <= n < |a| ==> s[n] == a[n];
    assert forall n :: |a| <= n < |a| + |b| ==> s[n] == b[n - |a|];
    assert forall n :: |a| + |b| <= n < |s| ==> s[n] == Separator(k - 1);
    if c < k - 1 {
      var h0 := LinesUpToHoldOnce(ws, sp, mx, k - 1, c, j);
      h := h0;
    } else {
      LinesUpToTags(ws, sp, mx, k - 1);
      var h1 := ClipLinesHold(ws, sp, mx, c, j);
      h := |a| + h1;
    }
  }

  /**
   * For a word of a clip, the scroll search finds the one line holding it,
   * and the scroll brings that line to the read line.
   */
  lemma {:induction false} ScrollFindsWord(ws: seq<seq<real>>, sp: real, mx: real, c: int, j: int,
                                           lineHeight: real, areaY: real, readLineY: real) returns (h: int)
    requires 0 <= c < |ws| && 0 <= j < |ws[c]|
    ensures var all := AllLines(ws, sp, mx);
            h == ScrollLine(all, c, j) && 0 <= h < |all| && Holds(all[h], c, j) &&
            (forall n :: 0 <= n < |all| && Holds(all[n], c, j) ==> n == h) &&
            LineY(areaY, ScrollOffset(all, c, j, lineHeight, areaY, readLineY), lineHeight, h) == readLineY
  {
    h := LinesUpToHoldOnce(ws, sp, mx, |ws|, c, j);
  }

  /**
   * renderLine's highlight, across all the lines: a word drawn highlighted
   * is the current word, on the line the scroll places at the read line.
   */
  lemma {:induction false} HighlightAtReadLine(ctx: RenderContext, ws: seq<seq<real>>, sp: real, mx: real,
                                               lineHeight: real, areaY: real, readLineY: real, n: int, j: int)
    requires var all := AllLines(ws, sp, mx);
             0 <= n < |all| && all[n].startWordIndex != -1 && all[n].startWordIndex <= j <= all[n].endWordIndex
    requires HighlightsWord(ctx, AllLines(ws, sp, mx)[n].clipIndex, j)
    ensures var all := AllLines(ws, sp, mx);
            n == ScrollLine(all, ctx.clipIndex, ctx.wordIndex) &&
            LineY(areaY, ScrollOffset(all, ctx.clipIndex, ctx.wordIndex, lineHeight, areaY, readLineY), lineHeight, n) == readLineY
  {
    var all := AllLines(ws, sp, mx);
    var c := all[n].clipIndex;
    var w := WordOfClip(ws, sp, mx, |ws|, n, j);
    var h := ScrollFindsWord(ws, sp, mx, c, j, lineHeight, areaY, readLineY);
  }

  /** A word on a non-separator line built for the first `k` clips is a word of that line's clip. */
  lemma {:induction false} WordOfClip(ws: seq<seq<real>>, sp: real, mx: real, k: nat, n: int, j: int) returns (c: int)
    requires k <= |ws|
    requires var s := LinesUpTo(ws, sp, mx, k);
             0 <= n < |s| && s[n].startWordIndex != -1 && s[n].startWordIndex <= j <= s[n].endWordIndex
    ensures c == LinesUpTo(ws, sp, mx, k)[n].clipIndex && 0 <= c < k && 0 <= j < |ws[c]|
    decreases k
  {
    var a := LinesUpTo(ws, sp, mx, k - 1);
    var b := ClipLines(ws, sp, mx, k - 1);
    var e: seq<PromptLine> := if k < |ws| then [Separator(k - 1)] else [];
    var s := a + b + e;
    assert s == LinesUpTo(ws, sp, mx, k);
    if n < |a| {
      assert s[n] == a[n];
      c := WordOfClip(ws, sp, mx, k - 1, n, j);
    } else {
      assert n < |a| + |b| && s[n] == b[n - |a|];
      var lines := Lines(ws[k - 1], sp, mx);
      LinesBroken(ws[k - 1], sp, mx);
      assert LineFits(ws[k - 1], sp, mx, lines[n - |a|]);
      c := k - 1;
    }
  }

  /** The separator lines of `s`, in order. */
  function SeparatorsOf(s: seq<PromptLine>): seq<PromptLine> {
    if s == [] then []
    else SeparatorsOf(s[..|s| - 1]) + (if s[|s| - 1].startWordIndex == -1 then [s[|s| - 1]] else [])
  }

  lemma {:induction false} SeparatorsAppend(a: seq<PromptLine>, b: seq<PromptLine>)
    ensures SeparatorsOf(a + b) == SeparatorsOf(a) + SeparatorsOf(b)
    decreases |b|
  {
    if b != [] {
      assert (a + b)[..|a + b| - 1] == a + b[..|b| - 1];
      SeparatorsAppend(a, b[..|b| - 1]);
    } else {
      assert a + b == a;
    }
  }

  lemma {:induction false} NoSeparators(s: seq<PromptLine>)
    requires forall n :: 0 <= n < |s| ==> s[n].startWordIndex >= 0
    ensures SeparatorsOf(s) == []
    decreases |s|
  {
    if s != [] {
      NoSeparators(s[..|s| - 1]);
    }
  }

  /** The separators after clips 0..k-1, in order. */
  function SeparatorRun(k: nat): (r: seq<PromptLine>)
    ensures |r| == k && forall i :: 0 <= i < k ==> r[i] == Separator(i)
  {
    if k == 0 then [] else SeparatorRun(k - 1) + [Separator(k - 1)]
  }

  /** A clip's own lines are never separators. */
  lemma ClipLinesNoSeparators(ws: seq<seq<real>>, sp: real, mx: real, c: int)
    requires 0 <= c < |ws|
    ensures SeparatorsOf(ClipLines(ws, sp, mx, c)) == []
  {
    var lines := Lines(ws[c], sp, mx);
    var b := ClipLines(ws, sp, mx, c);
    LinesBroken(ws[c], sp, mx);
    assert forall n :: 0 <= n < |b| ==> LineFits(ws[c], sp, mx, lines[n]);
    NoSeparators(b);
  }

  /** Appending a block without separators and then at most one separator. */
  lemma SeparatorsOfBlock(a: seq<PromptLine>, b: seq<PromptLine>, e: seq<PromptLine>)
    requires SeparatorsOf(b) == []
    requires e == [] || (|e| == 1 && e[0].startWordIndex == -1)
    ensures SeparatorsOf(a + b + e) == SeparatorsOf(a) + e
  {
    SeparatorsAppend(a + b, e);
    SeparatorsAppend(a, b);
    if e != [] {
      assert e[..0] == [];
    }
  }

  /** One more clip adds its separator, if it has one, to the separators so far. */
  lemma {:induction false} SeparatorsStep(ws: seq<seq<real>>, sp: real, mx: real, k: nat)
    requires 0 < k <= |ws|
    ensures SeparatorsOf(LinesUpTo(ws, sp, mx, k)) ==
            SeparatorsOf(LinesUpTo(ws, sp, mx, k - 1)) + (if k < |ws| then [Separator(k - 1)] else [])
  {
    var a := LinesUpTo(ws, sp, mx, k - 1);
    var b := ClipLines(ws, sp, mx, k - 1);
    var e: seq<PromptLine> := if k < |ws| then [Separator(k - 1)] else [];
    assert LinesUpTo(ws, sp, mx, k) == a + b + e;
    ClipLinesNoSeparators(ws, sp, mx, k - 1);
    SeparatorsOfBlock(a, b, e);
  }

  /**
   * The separators of the first `k` clips' lines: one after each of them,
   * except after the project's last clip.
   */
  lemma {:induction false} SeparatorsUpTo(ws: seq<seq<real>>, sp: real, mx: real, k: nat)
    requires k <= |ws|
    ensures SeparatorsOf(LinesUpTo(ws, sp, mx, k)) == SeparatorRun(if k < |ws| || k == 0 then k else k - 1)
    decreases k
  {
    if k > 0 {
      SeparatorsUpTo(ws, sp, mx, k - 1);
      SeparatorsStep(ws, sp, mx, k);
      if k == |ws| {
        assert SeparatorRun(k - 1) + [] == SeparatorRun(k - 1);
      }
    }
  }

  /**
   * buildAllLines puts exactly one separator, tagged with the clip before
   * it, between each pair of consecutive clips, and none after the last.
   */
  lemma SeparatorsBetweenClips(ws: seq<seq<real>>, sp: real, mx: real)
    ensures SeparatorsOf(AllLines(ws, sp, mx)) == SeparatorRun(if |ws| == 0 then 0 else |ws| - 1)
  {
    SeparatorsUpTo(ws, sp, mx, |ws|);
  }

  /** Pushing the tagged copy of a line keeps the pushed lines the tagged copies of the done ones. */
  lemma TaggedPush(lines: seq<PromptLine>, done: seq<LineInfo>, l: LineInfo, clipIndex: int, p: PromptLine)
    requires lines == Tagged(done, clipIndex) && p == Tag(l, clipIndex)
    ensures lines + [p] == Tagged(done + [l], clipIndex)
  {
    assert (done + [l])[..|done|] == done;
  }

  /** calculateLineBreaksForClip, as its loop over the clip's words. */
  method CalculateLineBreaksForClip(widths: seq<real>, clipIndex: int, wordSpacing: real, maxWidth: real)
    returns (lines: seq<PromptLine>)
    ensures lines == Tagged(Lines(widths, wordSpacing, maxWidth), clipIndex)
  {
    lines := [];
    ghost var done: seq<LineInfo> := [];
    assert Tagged(done, clipIndex) == [];
    var currentLineWidth := 0.0;
    var lineStartIndex := 0;
    var wordIndex := 0;
    while wordIndex < |widths|
      invariant lineStartIndex <= wordIndex <= |widths|
      invariant lines == Tagged(done, clipIndex)
      invariant done + BreakFrom(widths, wordSpacing, maxWidth, wordIndex, lineStartIndex, currentLineWidth) ==
                Lines(widths, wordSpacing, maxWidth)
    {
      BreakStep(widths, wordSpacing, maxWidth, wordIndex, lineStartIndex, currentLineWidth);
      var wordWidth := widths[wordIndex];
      var widthWithWord := currentLineWidth + wordWidth;
      if wordIndex > lineStartIndex {
        widthWithWord := widthWithWord + wordSpacing;
      }
      if widthWithWord > maxWidth && wordIndex > lineStartIndex {
        var line := LineInfo(lineStartIndex, wordIndex - 1, currentLineWidth);
        ghost var rest := BreakFrom(widths, wordSpacing, maxWidth, wordIndex + 1, wordIndex, wordWidth);
        assert done + ([line] + rest) == (done + [line]) + rest;
        TaggedPush(lines, done, line, clipIndex, PromptLine(clipIndex, lineStartIndex, wordIndex - 1, currentLineWidth));
        lines := lines + [PromptLine(clipIndex, lineStartIndex, wordIndex - 1, currentLineWidth)];
        done := done + [line];
        lineStartIndex := wordIndex;
        currentLineWidth := wordWidth;
      } else {
        if wordIndex > lineStartIndex {
          currentLineWidth := currentLineWidth + wordSpacing;
        }
        currentLineWidth := currentLineWidth + wordWidth;
      }
      wordIndex := wordIndex + 1;
    }
    BreakEnd(widths, wordSpacing, maxWidth, lineStartIndex, currentLineWidth);
    if lineStartIndex < |widths| {
      var line := LineInfo(lineStartIndex, |widths| - 1, currentLineWidth);
      TaggedPush(lines, done, line, clipIndex, PromptLine(clipIndex, lineStartIndex, |widths| - 1, currentLineWidth));
      lines := lines + [PromptLine(clipIndex, lineStartIndex, |widths| - 1, currentLineWidth)];
      done := done + [line];
    } else {
      assert done + [] == done;
    }
  }

  /** buildAllLines, as its loop over the clips. */
  method BuildAllLines(ws: seq<seq<real>>, wordSpacing: real, maxWidth: real) returns (allLines: seq<PromptLine>)
    ensures allLines == AllLines(ws, wordSpacing, maxWidth)
  {
    allLines := [];
    var clipIndex := 0;
    while clipIndex < |ws|
      invariant 0 <= clipIndex <= |ws|
      invariant allLines == LinesUpTo(ws, wordSpacing, maxWidth, clipIndex)
    {
      var clipLines := CalculateLineBreaksForClip(ws[clipIndex], clipIndex, wordSpacing, maxWidth);
      allLines := allLines + clipLines;
      if clipIndex < |ws| - 1 {
        allLines := allLines + [Separator(clipIndex)];
      }
      clipIndex := clipIndex + 1;
    }
  }

  /** calculateScrollOffset, as its loop over the lines. */
  method CalculateScrollOffset(allLines: seq<PromptLine>, currentClipIndex: int, currentWordIndex: int,
                               lineHeight: real, areaY: real, readLineY: real) returns (offset: real)
    ensures offset == ScrollOffset(allLines, currentClipIndex, currentWordIndex, lineHeight, areaY, readLineY)
  {
    var lineIndex := 0;
    while lineIndex < |allLines|
      invariant 0 <= lineIndex <= |allLines|
      invariant forall k :: 0 <= k < lineIndex ==> !Holds(allLines[k], currentClipIndex, currentWordIndex)
    {
      var line := allLines[lineIndex];
      if line.startWordIndex == -1 {
        lineIndex := lineIndex + 1;
        continue;
      }
      if line.clipIndex != currentClipIndex {
        lineIndex := lineIndex + 1;
        continue;
      }
      if currentWordIndex >= line.startWordIndex && currentWordIndex <= line.endWordIndex {
        var targetY := lineIndex as real * lineHeight;
        var readLineOffset := readLineY - areaY;
        return targetY - readLineOffset;
      }
      lineIndex := lineIndex + 1;
    }
    return 0.0;
  }
}
