/**
 * The Scrolling render strategy: every clip's lines, with the current clip
 * centred vertically and the others stacked above and below it at a fixed
 * step, and each line placed across by the strategy's text alignment.
 */
module ScrollingRender {
  import opened DataModel
  import opened CppArith
  import opened LineBreaking

  datatype TextAlignment = Left | Center | Right

  /** The strategy's settings. */
  datatype Config = Config(wordSpacing: real, lineSpacing: real, clipSpacing: real, textAlignment: TextAlignment)

  /** The settings a new strategy starts with. */
  const DefaultConfig := Config(10.0, 1.1, 2.0, Center)

  /** getCentreX of a juce::Rectangle<int>: the left edge plus half the width, in integer division. */
  function CentreX(a: Area): int {
    a.x + Quot(a.width, 2)
  }

  function RightX(a: Area): int {
    a.x + a.width
  }

  function BottomY(a: Area): int {
    a.y + a.height
  }

  // --------------------------------------------------------------------------
  // Across: calculateLineStartX

  /** calculateLineStartX: where a line `lineWidth` wide starts for the alignment. */
  function LineStartX(alignment: TextAlignment, area: Area, lineWidth: real): (x: real)
    ensures alignment == Left ==> x == area.x as real
    ensures alignment == Center ==> x + lineWidth / 2.0 == CentreX(area) as real
    ensures alignment == Right ==> x + lineWidth == RightX(area) as real
  {
    match alignment
    case Left => area.x as real
    case Center => CentreX(area) as real - lineWidth / 2.0
    case Right => RightX(area) as real - lineWidth
  }

  /** The space left of a line starting at `x`, and the space right of it. */
  function LeftMargin(area: Area, x: real): real {
    x - area.x as real
  }

  function RightMargin(area: Area, x: real, lineWidth: real): real {
    RightX(area) as real - (x + lineWidth)
  }

  /**
   * The margins the alignments leave on a non-negative width: none on the
   * left for Left, none on the right for Right, and for Center equal margins
   * on an even width and one more pixel on the right on an odd one, as the
   * centre is rounded down.
   */
  lemma AlignmentMargins(area: Area, lineWidth: real)
    requires area.width >= 0
    ensures LeftMargin(area, LineStartX(Left, area, lineWidth)) == 0.0
    ensures RightMargin(area, LineStartX(Right, area, lineWidth), lineWidth) == 0.0
    ensures var x := LineStartX(Center, area, lineWidth);
            RightMargin(area, x, lineWidth) - LeftMargin(area, x) == (area.width % 2) as real
  {
    var h := Quot(area.width, 2);
    assert area.width == 2 * h + area.width % 2;
  }

  // --------------------------------------------------------------------------
  // Down: where each clip and each of its lines is drawn

  /** lineHeight in render: the base font size scaled by the line spacing. */
  function LineHeight(cfg: Config, baseFontSize: real): real {
    baseFontSize * cfg.lineSpacing
  }

  /** The distance between consecutive clips: a line height plus the extra clip spacing. */
  function ClipStep(cfg: Config, lineHeight: real): real {
    lineHeight + lineHeight * cfg.clipSpacing
  }

  /** centerY in render: the line that starts here is centred in the area. */
  function CenterY(area: Area, lineHeight: real): (y: real)
    ensures y + lineHeight / 2.0 == area.y as real + area.height as real / 2.0
  {
    area.y as real + area.height as real / 2.0 - lineHeight / 2.0
  }

  /** Where render starts clip `clipIndex`: `step` per clip away from the current one. */
  function ClipY(area: Area, lineHeight: real, step: real, clipIndex: int, currentClipIndex: int): real {
    CenterY(area, lineHeight) + (clipIndex - currentClipIndex) as real * step
  }

  /** render skips a clip that starts more than 200 above the area or more than 200 below it. */
  predicate Skipped(area: Area, clipY: real) {
    clipY < area.y as real - 200.0 || clipY > BottomY(area) as real + 200.0
  }

  predicate Drawn(area: Area, lineHeight: real, step: real, currentClipIndex: int, clipIndex: int) {
    !Skipped(area, ClipY(area, lineHeight, step, clipIndex, currentClipIndex))
  }

  /** The current clip starts at the centre line, and is drawn whenever a line fits in the area plus the 200 margins. */
  lemma {:induction false} CurrentClipCentred(area: Area, lineHeight: real, step: real, currentClipIndex: int)
    requires area.height >= 0 && 0.0 <= lineHeight <= area.height as real + 400.0
    ensures ClipY(area, lineHeight, step, currentClipIndex, currentClipIndex) == CenterY(area, lineHeight)
    ensures Drawn(area, lineHeight, step, currentClipIndex, currentClipIndex)
  {
    assert (currentClipIndex - currentClipIndex) as real * step == 0.0;
  }

  /** Clips start in index order when the step is positive, a step apart. */
  lemma {:induction false} ClipsInOrder(area: Area, lineHeight: real, step: real, currentClipIndex: int, i: int, j: int)
    requires step > 0.0 && i < j
    ensures ClipY(area, lineHeight, step, i, currentClipIndex) < ClipY(area, lineHeight, step, j, currentClipIndex)
    ensures ClipY(area, lineHeight, step, j, currentClipIndex) - ClipY(area, lineHeight, step, i, currentClipIndex) ==
            (j - i) as real * step
  {
    assert (j - currentClipIndex) as real * step - (i - currentClipIndex) as real * step == (j - i) as real * step;
    assert (j - i) as real * step > 0.0;
  }

  /**
   * The clips drawn are a run of consecutive indices: a clip between two
   * drawn clips is drawn, whatever the step.
   */
  lemma {:induction false} DrawnClipsContiguous(area: Area, lineHeight: real, step: real, currentClipIndex: int, i: int, j: int, k: int)
    requires i <= j <= k
    requires Drawn(area, lineHeight, step, currentClipIndex, i) && Drawn(area, lineHeight, step, currentClipIndex, k)
    ensures Drawn(area, lineHeight, step, currentClipIndex, j)
  {
    var yi := ClipY(area, lineHeight, step, i, currentClipIndex);
    var yj := ClipY(area, lineHeight, step, j, currentClipIndex);
    var yk := ClipY(area, lineHeight, step, k, currentClipIndex);
    assert yj - yi == (j - i) as real * step;
    assert yk - yj == (k - j) as real * step;
    if step >= 0.0 {
      assert (j - i) as real * step >= 0.0 && (k - j) as real * step >= 0.0;
    } else {
      assert (j - i) as real * step <= 0.0 && (k - j) as real * step <= 0.0;
    }
  }

  /** The clip loop of render, collecting the clips it hands to drawClip. */
  method DrawnClips(numClips: nat, area: Area, lineHeight: real, step: real, currentClipIndex: int)
    returns (drawn: seq<int>)
    ensures forall n :: 0 <= n < |drawn| ==> 0 <= drawn[n] < numClips
    ensures forall n, m :: 0 <= n < m < |drawn| ==> drawn[n] < drawn[m]
    ensures forall i :: i in drawn <==> 0 <= i < numClips && Drawn(area, lineHeight, step, currentClipIndex, i)
  {
    var centerY := area.y as real + area.height as real / 2.0 - lineHeight / 2.0;
    drawn := [];
    var clipIndex := 0;
    while clipIndex < numClips
      invariant 0 <= clipIndex <= numClips
      invariant forall n :: 0 <= n < |drawn| ==> 0 <= drawn[n] < clipIndex
      invariant forall n, m :: 0 <= n < m < |drawn| ==> drawn[n] < drawn[m]
      invariant forall i :: i in drawn <==> 0 <= i < clipIndex && Drawn(area, lineHeight, step, currentClipIndex, i)
    {
      var clipYOffset := (clipIndex - currentClipIndex) as real * step;
      var clipY := centerY + clipYOffset;
      assert clipY == ClipY(area, lineHeight, step, clipIndex, currentClipIndex);
      if clipY < area.y as real - 200.0 || clipY > BottomY(area) as real + 200.0 {
        assert !Drawn(area, lineHeight, step, currentClipIndex, clipIndex);
        clipIndex := clipIndex + 1;
        continue;
      }
      assert forall i :: i in drawn + [clipIndex] <==> i in drawn || i == clipIndex;
      drawn := drawn + [clipIndex];
      clipIndex := clipIndex + 1;
    }
  }

  /** drawClip's loop: the line tops, each a line height below the last. */
  method LineTops(clipY: real, lineHeight: real, numLines: nat) returns (tops: seq<real>)
    ensures |tops| == numLines
    ensures forall k :: 0 <= k < numLines ==> tops[k] == clipY + k as real * lineHeight
  {
    tops := [];
    var y := clipY;
    while |tops| < numLines
      invariant |tops| <= numLines
      invariant y == clipY + |tops| as real * lineHeight
      invariant forall k :: 0 <= k < |tops| ==> tops[k] == clipY + k as real * lineHeight
    {
      tops := tops + [y];
      y := y + lineHeight;
    }
  }

  // --------------------------------------------------------------------------
  // Highlighting

  /**
   * Across the lines of every clip, the highlighted words are exactly the
   * display state's word while playback runs before the end, and it lies
   * on the one line of its clip that holds it.
   */
  lemma {:induction false} HighlightOnOneLine(ctx: RenderContext, ws: seq<seq<real>>, sp: real, mx: real) returns (h: int)
    requires 0 <= ctx.clipIndex < |ws| && 0 <= ctx.wordIndex < |ws[ctx.clipIndex]|
    ensures var lines := Lines(ws[ctx.clipIndex], sp, mx);
            0 <= h < |lines| && lines[h].startWordIndex <= ctx.wordIndex <= lines[h].endWordIndex &&
            (ctx.isRunning && ctx.currentTime < TotalDuration(ctx.project) ==> HighlightsWord(ctx, ctx.clipIndex, ctx.wordIndex))
    ensures forall c, k, j ::
              (0 <= c < |ws| && 0 <= k < |Lines(ws[c], sp, mx)| &&
               Lines(ws[c], sp, mx)[k].startWordIndex <= j <= Lines(ws[c], sp, mx)[k].endWordIndex &&
               HighlightsWord(ctx, c, j)) ==>
              c == ctx.clipIndex && k == h && j == ctx.wordIndex
  {
    var lines := Lines(ws[ctx.clipIndex], sp, mx);
    LinesBroken(ws[ctx.clipIndex], sp, mx);
    h := PartitionHolds(lines, 0, |ws[ctx.clipIndex]|, ctx.wordIndex);
  }
}
