/**
 * The Karaoke render strategy: one clip at a time, its words broken into
 * centred lines, with the line holding the current word drawn in full and
 * its neighbours dimmed or previewed.
 */
module KaraokeRender {
  import opened DataModel
  import opened LineBreaking
  import opened RunningView

  /** The first line whose word range holds `wordIndex`, or -1. */
  function FirstLineHolding(lines: seq<LineInfo>, wordIndex: int): (r: int)
    ensures -1 <= r < |lines|
    ensures r >= 0 ==> lines[r].startWordIndex <= wordIndex <= lines[r].endWordIndex
    ensures forall k :: 0 <= k < |lines| && (r < 0 || k < r) ==>
              !(lines[k].startWordIndex <= wordIndex <= lines[k].endWordIndex)
  {
    if lines == [] then -1
    else if lines[0].startWordIndex <= wordIndex <= lines[0].endWordIndex then 0
    else
      var r := FirstLineHolding(lines[1..], wordIndex);
      if r < 0 then -1 else r + 1
  }

  /** The current line render draws: the first line holding the word, defaulting to line 0. */
  function CurrentLine(lines: seq<LineInfo>, wordIndex: int): int {
    var r := FirstLineHolding(lines, wordIndex);
    if r < 0 then 0 else r
  }

  /**
   * For the lines of a clip, the current line is the one line holding the
   * current word when that is a word of the clip, and line 0 otherwise.
   */
  lemma {:induction false} CurrentLineHoldsWord(w: seq<real>, sp: real, mx: real, wordIndex: int)
    ensures var lines := Lines(w, sp, mx);
            var cur := CurrentLine(lines, wordIndex);
            (0 <= wordIndex < |w| ==>
              0 <= cur < |lines| && lines[cur].startWordIndex <= wordIndex <= lines[cur].endWordIndex &&
              forall k :: 0 <= k < |lines| && lines[k].startWordIndex <= wordIndex <= lines[k].endWordIndex ==> k == cur) &&
            (!(0 <= wordIndex < |w|) ==> cur == 0)
  {
    var lines := Lines(w, sp, mx);
    LinesBroken(w, sp, mx);
    if 0 <= wordIndex < |w| {
      var h := PartitionHolds(lines, 0, |w|, wordIndex);
    } else {
      assert forall k :: 0 <= k < |lines| ==> !(lines[k].startWordIndex <= wordIndex <= lines[k].endWordIndex);
    }
  }

  /**
   * The Karaoke highlight rule: the word is the display state's word, its
   * line is neither the dimmed previous line nor the next-line preview,
   * playback is running and the end has not been reached.
   */
  predicate KaraokeHighlights(ctx: RenderContext, wordIndex: int, isDimmed: bool, isPreview: bool) {
    wordIndex == ctx.wordIndex && !isDimmed && !isPreview &&
    ctx.isRunning && ctx.currentTime < TotalDuration(ctx.project)
  }

  /**
   * Drawing the line at `lineIndex` with the flags render gives it: dimmed
   * for the line before the current one, a preview for the one after.
   */
  predicate LineHighlights(ctx: RenderContext, lines: seq<LineInfo>, cur: int, lineIndex: int, wordIndex: int)
    requires 0 <= lineIndex < |lines|
  {
    lines[lineIndex].startWordIndex <= wordIndex <= lines[lineIndex].endWordIndex &&
    KaraokeHighlights(ctx, wordIndex, lineIndex == cur - 1, lineIndex == cur + 1)
  }

  /**
   * Across the lines render draws, a word is highlighted exactly when it is
   * the current word of a running playback before the end, and it is drawn
   * on the current line.
   */
  lemma {:induction false} HighlightIsOnCurrentLine(ctx: RenderContext, w: seq<real>, sp: real, mx: real, lineIndex: int, wordIndex: int)
    requires 0 <= ctx.wordIndex < |w|
    requires var lines := Lines(w, sp, mx);
             0 <= lineIndex < |lines| && lines[lineIndex].startWordIndex <= wordIndex <= lines[lineIndex].endWordIndex
    ensures var lines := Lines(w, sp, mx);
            var cur := CurrentLine(lines, ctx.wordIndex);
            LineHighlights(ctx, lines, cur, lineIndex, wordIndex) <==>
              lineIndex == cur && wordIndex == ctx.wordIndex && ctx.isRunning && ctx.currentTime < TotalDuration(ctx.project)
  {
    CurrentLineHoldsWord(w, sp, mx, ctx.wordIndex);
  }

  /** calculateLineStartX: the line is centred, with equal margins either side. */
  function LineStartX(areaWidth: real, lineWidth: real): (x: real)
    ensures x + lineWidth / 2.0 == areaWidth / 2.0
    ensures x == areaWidth - (x + lineWidth)
  {
    areaWidth / 2.0 - lineWidth / 2.0
  }

  /** Where word i stops being current: the next word's start, or the clip end for the last. */
  function WordEndTime(c: Clip, i: int): real
    requires 0 <= i < |c.words|
  {
    if i < |c.words| - 1 then c.startTime + c.words[i + 1].relativeTime else c.endTime
  }

  predicate Speaking(c: Clip, i: int, t: real)
    requires 0 <= i < |c.words|
  {
    c.startTime + c.words[i].relativeTime <= t < WordEndTime(c, i)
  }

  /** The first word from `from` on whose span holds `t`, or -1. */
  function SpeakingWord(c: Clip, t: real, from: nat): (r: int)
    requires from <= |c.words|
    ensures r == -1 || from <= r < |c.words|
    ensures r >= 0 ==> Speaking(c, r, t)
    ensures forall j :: from <= j < |c.words| && (r < 0 || j < r) ==> !Speaking(c, j, t)
    decreases |c.words| - from
  {
    if from == |c.words| then -1
    else if Speaking(c, from, t) then from
    else SpeakingWord(c, t, from + 1)
  }

  /**
   * With the words in time order and `t` before the clip end, the word
   * findCurrentWordIndex picks is the one getCurrentDisplayState picks in the
   * running view: the last word to have started (-1 before the first).
   */
  lemma {:induction false} SpeakingWordIsLastStarted(c: Clip, t: real)
    requires forall i, j :: 0 <= i < j < |c.words| ==> c.words[i].relativeTime <= c.words[j].relativeTime
    requires t < c.endTime
    ensures SpeakingWord(c, t, 0) == LastStarted(c.words, t - c.startTime, -1)
  {
    var rel := t - c.startTime;
    var l := LastStarted(c.words, rel, -1);
    var r := SpeakingWord(c, t, 0);
    if 0 <= l < |c.words| && c.words[l].relativeTime <= rel {
      assert Speaking(c, l, t);
      forall j | 0 <= j < l
        ensures !Speaking(c, j, t)
      {
        assert c.words[j + 1].relativeTime <= c.words[l].relativeTime;
      }
    } else {
      assert forall i :: 0 <= i < |c.words| ==> c.words[i].relativeTime > rel;
      assert forall i :: 0 <= i < |c.words| ==> !Speaking(c, i, t);
    }
  }

  /**
   * Karaoke's calculateLineBreaks: it returns at once for a clip without
   * words, and otherwise runs the shared loop; either way the lines split
   * the words as the greedy does.
   */
  method KaraokeLineBreaks(widths: seq<real>, wordSpacing: real, maxWidth: real) returns (lines: seq<LineInfo>)
    ensures lines == Lines(widths, wordSpacing, maxWidth)
    ensures Broken(widths, wordSpacing, maxWidth, lines, 0)
    ensures widths == [] <==> lines == []
  {
    if |widths| == 0 {
      LinesBroken(widths, wordSpacing, maxWidth);
      return [];
    }
    lines := CalculateLineBreaks(widths, wordSpacing, maxWidth);
  }

  /** The current-line search in render, as its loop, with line 0 as the fallback. */
  method FindCurrentLine(lines: seq<LineInfo>, wordIndex: int) returns (currentLineIndex: int)
    ensures currentLineIndex == CurrentLine(lines, wordIndex)
  {
    currentLineIndex := -1;
    var i := 0;
    while i < |lines|
      invariant 0 <= i <= |lines|
      invariant forall k :: 0 <= k < i ==> !(lines[k].startWordIndex <= wordIndex <= lines[k].endWordIndex)
    {
      if wordIndex >= lines[i].startWordIndex && wordIndex <= lines[i].endWordIndex {
        currentLineIndex := i;
        break;
      }
      i := i + 1;
    }
    if currentLineIndex < 0 {
      currentLineIndex := 0;
    }
  }

  /** findCurrentWordIndex, as its loop over the words. */
  method FindCurrentWordIndex(clip: Clip, currentTime: real) returns (r: int)
    ensures r == SpeakingWord(clip, currentTime, 0)
  {
    var words := clip.words;
    var clipStartTime := clip.startTime;
    var i := 0;
    while i < |words|
      invariant 0 <= i <= |words|
      invariant SpeakingWord(clip, currentTime, i) == SpeakingWord(clip, currentTime, 0)
    {
      var wordAbsoluteTime := clipStartTime + words[i].relativeTime;
      var wordEndTime;
      if i < |words| - 1 {
        wordEndTime := clipStartTime + words[i + 1].relativeTime;
      } else {
        wordEndTime := clip.endTime;
      }
      if currentTime >= wordAbsoluteTime && currentTime < wordEndTime {
        return i;
      }
      i := i + 1;
    }
    return -1;
  }
}
