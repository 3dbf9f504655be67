/**
 * RunningView: the full-screen playback view.  It looks up which clip and
 * word to show at the current time, and runs its own clock that advances one
 * timer interval per tick and stops at the end of the project.
 */
module RunningView {
  import opened DataModel

  /** The clip and word getCurrentDisplayState picks (-1 clip: none is active). */
  datatype DisplayState = DisplayState(clipIndex: int, wordIndex: int)

  /**
   * The last word of `words` that has started by `rel` seconds into its
   * clip, or `dflt` when none has.
   */
  function LastStarted(words: seq<Word>, rel: real, dflt: int): (r: int)
    ensures (exists i :: 0 <= i < |words| && words[i].relativeTime <= rel) ==>
              0 <= r < |words| && words[r].relativeTime <= rel
    ensures (forall i :: 0 <= i < |words| ==> words[i].relativeTime > rel) ==> r == dflt
    ensures 0 <= r < |words| && words[r].relativeTime <= rel ==>
              forall j :: r < j < |words| ==> words[j].relativeTime > rel
  {
    if words == [] then dflt
    else
      var n := |words| - 1;
      assert forall j :: 0 <= j < n ==> words[..n][j] == words[j];
      if words[n].relativeTime <= rel then n else LastStarted(words[..n], rel, dflt)
  }

  /** The backward search's step: word `i` is the answer on the first i + 1 words once it has started. */
  lemma {:induction false} LastStartedStep(words: seq<Word>, i: nat, rel: real, dflt: int)
    requires i < |words|
    ensures LastStarted(words[..i + 1], rel, dflt) ==
            if words[i].relativeTime <= rel then i else LastStarted(words[..i], rel, dflt)
  {
    assert words[..i + 1][..i] == words[..i];
    assert words[..i + 1][i] == words[i];
  }

  /**
   * getCurrentDisplayState at time `t`: the clip getClipIndexAtTime finds,
   * and within it the last word whose start has passed, with `dflt` as the
   * word index the state starts with.
   */
  function DisplayStateAt(clips: seq<Clip>, t: real, dflt: int): (s: DisplayState)
    ensures s.clipIndex == ClipIndexAtTime(clips, t)
    ensures s.clipIndex < 0 ==> s.wordIndex == dflt
    ensures s.clipIndex >= 0 ==> s.wordIndex == LastStarted(clips[s.clipIndex].words, t - clips[s.clipIndex].startTime, dflt)
  {
    var ci := ClipIndexAtTime(clips, t);
    if ci < 0 then DisplayState(ci, dflt)
    else DisplayState(ci, LastStarted(clips[ci].words, t - clips[ci].startTime, dflt))
  }

  /**
   * The word shown is the largest index whose word has started by `t`
   * within the active clip; with no active clip, or before the first word's
   * start, the default stays.
   */
  lemma {:induction false} DisplayedWordIsLatest(clips: seq<Clip>, t: real, dflt: int)
    ensures var s := DisplayStateAt(clips, t, dflt);
            (s.clipIndex < 0 ==> s.wordIndex == dflt) &&
            (s.clipIndex >= 0 ==>
              var c := clips[s.clipIndex];
              c.startTime <= t < c.endTime &&
              ((exists i :: 0 <= i < |c.words| && c.startTime + c.words[i].relativeTime <= t) ==>
                0 <= s.wordIndex < |c.words| && WordAbsoluteTime(c, s.wordIndex) <= t &&
                forall j :: s.wordIndex < j < |c.words| ==> WordAbsoluteTime(c, j) > t) &&
              ((forall i :: 0 <= i < |c.words| ==> c.startTime + c.words[i].relativeTime > t) ==> s.wordIndex == dflt))
  {
    var s := DisplayStateAt(clips, t, dflt);
    if s.clipIndex >= 0 {
      var c := clips[s.clipIndex];
      var rel := t - c.startTime;
      assert forall i :: 0 <= i < |c.words| ==> (c.startTime + c.words[i].relativeTime <= t <==> c.words[i].relativeTime <= rel);
    }
  }

  /** The length of one timer tick in seconds: timerIntervalMs / 1000.0. */
  const TimerIntervalMs := 16
  const Step: real := TimerIntervalMs as real / 1000.0

  /** The clock's part of the view's state. */
  datatype Clock = Clock(currentTime: real, isRunning: bool)

  const Stopped := Clock(0.0, false)

  /** The state start() leaves. */
  const Started := Clock(0.0, true)

  /**
   * What the clock stays within: it reads 0 whenever it is stopped, and while
   * running it has either just started or not yet reached the end.
   */
  predicate ClockValid(clips: seq<Clip>, c: Clock) {
    c.currentTime >= 0.0 &&
    (!c.isRunning ==> c.currentTime == 0.0) &&
    (c.isRunning ==> c.currentTime == 0.0 || c.currentTime < TotalDuration(clips))
  }

  /**
   * timerCallback: nothing while stopped; otherwise one step forward, and
   * stop (back to time 0) once the time reaches the total duration.
   */
  function Tick(clips: seq<Clip>, c: Clock): (r: Clock)
    ensures !c.isRunning ==> r == c
    ensures c.isRunning ==> (r.isRunning <==> c.currentTime + Step < TotalDuration(clips))
    ensures r.isRunning ==> r.currentTime == c.currentTime + Step
    ensures c.isRunning && !r.isRunning ==> r == Stopped
    ensures ClockValid(clips, c) ==> ClockValid(clips, r)
  {
    if !c.isRunning then c
    else
      var t := c.currentTime + Step;
      if t >= TotalDuration(clips) then Stopped else Clock(t, true)
  }

  /** `n` timer ticks in a row. */
  function Ticks(clips: seq<Clip>, c: Clock, n: nat): Clock {
    if n == 0 then c else Tick(clips, Ticks(clips, c, n - 1))
  }

  /** Until the end is reached, `n` ticks after start() the clock reads n steps. */
  lemma {:induction false} RunsInSteps(clips: seq<Clip>, n: nat)
    requires n as real * Step < TotalDuration(clips)
    ensures Ticks(clips, Started, n) == Clock(n as real * Step, true)
  {
    if n > 0 {
      RunsInSteps(clips, n - 1);
    }
  }

  /**
   * The first tick whose time reaches the total duration stops the clock:
   * it reads 0 and is no longer running.
   */
  lemma {:induction false} StopsAtEnd(clips: seq<Clip>, n: nat)
    requires n >= 1 && (n - 1) as real * Step < TotalDuration(clips) <= n as real * Step
    ensures Ticks(clips, Started, n) == Stopped
  {
    RunsInSteps(clips, n - 1);
  }

  /** Once stopped, further ticks change nothing. */
  lemma {:induction false} StoppedStays(clips: seq<Clip>, m: nat)
    ensures Ticks(clips, Stopped, m) == Stopped
  {
    if m > 0 {
      StoppedStays(clips, m - 1);
    }
  }

  /** The state RunningView keeps between ticks. */
  class RunningView {
    var project: seq<Clip>
    var currentTime: real
    var isRunning: bool

    predicate Valid()
      reads this
    {
      ClockValid(project, Clock(currentTime, isRunning))
    }

    /** The member initialisers: no project, time 0, not running. */
    constructor ()
      ensures Valid() && project == [] && currentTime == 0.0 && !isRunning
    {
      project := [];
      currentTime := 0.0;
      isRunning := false;
    }

    /** start: take a copy of the project and run from time 0. */
    method Start(newProject: seq<Clip>)
      modifies this
      ensures Valid() && project == newProject
      ensures Clock(currentTime, isRunning) == Started
    {
      project := newProject;
      currentTime := 0.0;
      isRunning := true;
    }

    /** stop: no longer running, and back to time 0. */
    method Stop()
      modifies this
      ensures project == old(project)
      ensures Clock(currentTime, isRunning) == Stopped
      ensures Valid()
    {
      isRunning := false;
      currentTime := 0.0;
    }

    /**
     * timerCallback: one tick of the clock.  `stopClicked` says that this
     * tick reached the end, which is where the view calls onStopClicked.
     */
    method TimerCallback() returns (stopClicked: bool)
      requires Valid()
      modifies this
      ensures Valid() && project == old(project)
      ensures Clock(currentTime, isRunning) == Tick(project, Clock(old(currentTime), old(isRunning)))
      ensures stopClicked <==> old(isRunning) && !isRunning
    {
      if !isRunning {
        return false;
      }
      currentTime := currentTime + TimerIntervalMs as real / 1000.0;
      if currentTime >= TotalDuration(project) {
        Stop();
        return true;
      }
      return false;
    }

    /**
     * getCurrentDisplayState, with its backward scan over the active clip's
     * words; `dflt` is the word index a fresh state holds.
     */
    method GetCurrentDisplayState(dflt: int) returns (state: DisplayState)
      ensures state == DisplayStateAt(project, currentTime, dflt)
    {
      state := DisplayState(ClipIndexAtTime(project, currentTime), dflt);
      if state.clipIndex < 0 {
        return;
      }
      var clip := project[state.clipIndex];
      var relativeTime := currentTime - clip.startTime;
      var words := clip.words;
      var i := |words| - 1;
      while i >= 0
        invariant -1 <= i < |words|
        invariant LastStarted(words[..i + 1], relativeTime, dflt) == LastStarted(words, relativeTime, dflt)
      {
        LastStartedStep(words, i, relativeTime, dflt);
        if relativeTime >= words[i].relativeTime {
          state := state.(wordIndex := i);
          return;
        }
        i := i - 1;
      }
    }
  }
}
