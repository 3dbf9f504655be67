/**
 * HighlightSettings: how word highlights may be snapped to a tempo grid, and
 * the presets for the common uses (natural speech, storytelling, rhythmic
 * content, teleprompter, fixed-length highlights).
 */
module HighlightSettingsModel {

  datatype DurationMode = Original | Minimum | Fixed | GridBased

  datatype HighlightSettings = HighlightSettings(
    quantizeEnabled: bool,
    bpm: real,
    subdivision: int,
    durationMode: DurationMode,
    minimumDuration: real,
    fixedDuration: real,
    lookAheadMs: real)

  /** The member initialisers of the struct. */
  const Defaults := HighlightSettings(false, 120.0, 4, Original, 0.0, 0.5, 25.0)

  function NaturalPreset(): HighlightSettings {
    Defaults.(quantizeEnabled := false, durationMode := Original, minimumDuration := 0.0)
  }

  function StorytellingPreset(): HighlightSettings {
    Defaults.(quantizeEnabled := false, durationMode := Minimum, minimumDuration := 0.2)
  }

  function RhythmicPreset(bpm: real, subdivision: int): HighlightSettings {
    Defaults.(quantizeEnabled := true, bpm := bpm, subdivision := subdivision, durationMode := GridBased)
  }

  function TeleprompterPreset(): HighlightSettings {
    Defaults.(quantizeEnabled := false, durationMode := Minimum, minimumDuration := 0.3)
  }

  function FixedDurationPreset(duration: real): HighlightSettings {
    Defaults.(quantizeEnabled := false, durationMode := Fixed, fixedDuration := duration)
  }

  /** The grid exists only when quantising at a positive tempo with a non-zero subdivision. */
  predicate HasFiniteSnap(s: HighlightSettings) {
    !s.quantizeEnabled || s.bpm <= 0.0 || s.subdivision != 0
  }

  /**
   * getSnapInterval: the length of one grid step, (60 / bpm) / subdivision
   * seconds, or 0 when quantising is off or the tempo is not positive.
   */
  function SnapInterval(s: HighlightSettings): (r: real)
    requires HasFiniteSnap(s)
    ensures !s.quantizeEnabled || s.bpm <= 0.0 ==> r == 0.0
    ensures s.quantizeEnabled && s.bpm > 0.0 ==> r * s.bpm * (s.subdivision as real) == 60.0
    ensures s.quantizeEnabled && s.bpm > 0.0 ==> (r > 0.0 <==> s.subdivision > 0)
  {
    if !s.quantizeEnabled || s.bpm <= 0.0 then 0.0
    else (60.0 / s.bpm) / (s.subdivision as real)
  }

  /** std::round: to the nearest integer, halves away from zero. */
  function Round(x: real): (r: int)
    ensures -0.5 <= r as real - x <= 0.5
    ensures r as real - x == 0.5 ==> x >= 0.0
    ensures x - r as real == 0.5 ==> x < 0.0
  {
    if x >= 0.0 then (x + 0.5).Floor else -((0.5 - x).Floor)
  }

  predicate OnGrid(t: real, snap: real)
    requires snap > 0.0
  {
    (t / snap).Floor as real == t / snap
  }

  /**
   * quantizeTime: with a positive grid step, the grid point nearest to `t`;
   * otherwise `t` itself.
   */
  function QuantizeTime(s: HighlightSettings, t: real): (r: real)
    requires HasFiniteSnap(s)
    ensures SnapInterval(s) <= 0.0 ==> r == t
    ensures SnapInterval(s) > 0.0 ==> OnGrid(r, SnapInterval(s))
    ensures SnapInterval(s) > 0.0 ==> -SnapInterval(s) / 2.0 <= r - t <= SnapInterval(s) / 2.0
  {
    var snap := SnapInterval(s);
    if snap <= 0.0 then t
    else
      var k := Round(t / snap);
      NearestGridPoint(t, snap, k);
      k as real * snap
  }

  lemma {:induction false} NearestGridPoint(t: real, snap: real, k: int)
    requires snap > 0.0
    requires -0.5 <= k as real - t / snap <= 0.5
    ensures OnGrid(k as real * snap, snap)
    ensures -snap / 2.0 <= k as real * snap - t <= snap / 2.0
  {
    assert k as real * snap / snap == k as real;
    var d := k as real - t / snap;
    assert k as real * snap - t == d * snap;
    ScaleBounds(d, snap);
  }

  lemma {:induction false} ScaleBounds(d: real, c: real)
    requires c > 0.0 && -0.5 <= d <= 0.5
    ensures -c / 2.0 <= d * c <= c / 2.0
  {
    assert (0.5 - d) * c >= 0.0;
    assert (d + 0.5) * c >= 0.0;
  }

  /** Quantising twice is quantising once. */
  lemma {:induction false} QuantizeIdempotent(s: HighlightSettings, t: real)
    requires HasFiniteSnap(s)
    ensures QuantizeTime(s, QuantizeTime(s, t)) == QuantizeTime(s, t)
  {
    var snap := SnapInterval(s);
    if snap > 0.0 {
      var q := QuantizeTime(s, t);
      var k := (q / snap).Floor;
      assert q / snap == k as real;
      assert Round(q / snap) == k;
      assert k as real * snap == q;
    }
  }

  /**
   * What each preset sets: the rhythmic one quantises on the grid it is
   * given, the two reading presets set their minimum durations, and the
   * fixed one its duration.
   */
  lemma {:induction false} PresetFields(bpm: real, subdivision: int, duration: real)
    ensures var r := RhythmicPreset(bpm, subdivision);
            r.quantizeEnabled && r.durationMode == GridBased && r.bpm == bpm && r.subdivision == subdivision
    ensures NaturalPreset().durationMode == Original && NaturalPreset().minimumDuration == 0.0
    ensures StorytellingPreset().durationMode == Minimum && StorytellingPreset().minimumDuration == 0.2
    ensures TeleprompterPreset().durationMode == Minimum && TeleprompterPreset().minimumDuration == 0.3
    ensures FixedDurationPreset(duration).durationMode == Fixed && FixedDurationPreset(duration).fixedDuration == duration
    ensures !NaturalPreset().quantizeEnabled && !StorytellingPreset().quantizeEnabled &&
            !TeleprompterPreset().quantizeEnabled && !FixedDurationPreset(duration).quantizeEnabled
  {
  }

  /** Only the rhythmic preset snaps: every other preset leaves times as they are. */
  lemma {:induction false} OnlyRhythmicPresetQuantizes(t: real, duration: real)
    ensures QuantizeTime(NaturalPreset(), t) == t
    ensures QuantizeTime(StorytellingPreset(), t) == t
    ensures QuantizeTime(TeleprompterPreset(), t) == t
    ensures QuantizeTime(FixedDurationPreset(duration), t) == t
    ensures QuantizeTime(Defaults, t) == t
  {
  }

  /** At 120 bpm in quarter notes the grid step is 1/8 s, and times snap to it. */
  lemma {:induction false} RhythmicDefaultGrid()
    ensures SnapInterval(RhythmicPreset(120.0, 4)) == 0.125
    ensures QuantizeTime(RhythmicPreset(120.0, 4), 1.3) == 1.25
    ensures QuantizeTime(RhythmicPreset(120.0, 4), 0.0625) == 0.125
  {
    var s := RhythmicPreset(120.0, 4);
    assert SnapInterval(s) == 0.125;
    assert Round(1.3 / 0.125) == 10;
    assert Round(0.0625 / 0.125) == 1;
  }
}
