/**
 * TimelineEventManager: flattens a project into one list of timed events
 * (clip starts and ends, word starts and ends), sorts it by time, and then
 * walks it with a cursor, firing the events of each [previousTime,
 * currentTime) window once.
 */
module Timeline {
  import opened Wrappers
  import opened Sorting
  import opened DataModel

  datatype EventType = ClipStart | ClipEnd | WordStart | WordEnd | HighlightEnd

  /** A timed event; `wordIndex` is -1 for clip events. */
  datatype TimeEvent = TimeEvent(time: real, kind: EventType, clipIndex: int, wordIndex: int)

  /** The sort key: TimeEvent::operator< compares the times and nothing else. */
  function EventTime(e: TimeEvent): real {
    e.time
  }

  predicate EventLess(a: TimeEvent, b: TimeEvent) {
    EventTime(a) < EventTime(b)
  }

  /** A callback invocation made when an event fires. */
  datatype Call = OnClipStart(clip: int) | OnClipEnd(clip: int) | OnWordStart(clip: int, word: int) | OnWordEnd(clip: int, word: int)

  /** The switch in processEvents: HighlightEnd has no case, so it calls nothing. */
  function Dispatch(e: TimeEvent): (c: Option<Call>)
    ensures c.None? <==> e.kind == HighlightEnd
    ensures c.Some? ==> c.value.clip == e.clipIndex
  {
    match e.kind
    case ClipStart => Some(OnClipStart(e.clipIndex))
    case ClipEnd => Some(OnClipEnd(e.clipIndex))
    case WordStart => Some(OnWordStart(e.clipIndex, e.wordIndex))
    case WordEnd => Some(OnWordEnd(e.clipIndex, e.wordIndex))
    case HighlightEnd => None
  }

  // --------------------------------------------------------------------------
  // The events of a project, in the order buildTimeline pushes them

  /** Where a word's highlight ends: at the next word's start, or at the clip end for the last word. */
  function WordEndTime(c: Clip, w: nat): real
    requires w < |c.words|
  {
    if w < |c.words| - 1 then c.startTime + c.words[w + 1].relativeTime else c.endTime
  }

  function WordStartEvent(c: Clip, ci: int, w: nat): TimeEvent
    requires w < |c.words|
  {
    TimeEvent(WordAbsoluteTime(c, w), WordStart, ci, w)
  }

  function WordEndEvent(c: Clip, ci: int, w: nat): TimeEvent
    requires w < |c.words|
  {
    TimeEvent(WordEndTime(c, w), WordEnd, ci, w)
  }

  /** The start and end events of the first `k` words. */
  function WordEvents(c: Clip, ci: int, k: nat): seq<TimeEvent>
    requires k <= |c.words|
  {
    if k == 0 then [] else WordEvents(c, ci, k - 1) + [WordStartEvent(c, ci, k - 1), WordEndEvent(c, ci, k - 1)]
  }

  function ClipHeader(c: Clip, ci: int): seq<TimeEvent> {
    [TimeEvent(c.startTime, ClipStart, ci, -1), TimeEvent(c.endTime, ClipEnd, ci, -1)]
  }

  function ClipEvents(c: Clip, ci: int): seq<TimeEvent> {
    ClipHeader(c, ci) + WordEvents(c, ci, |c.words|)
  }

  /** All events of the clips, clip by clip, before sorting. */
  function ProjectEvents(clips: seq<Clip>): seq<TimeEvent> {
    if clips == [] then []
    else ProjectEvents(clips[..|clips| - 1]) + ClipEvents(clips[|clips| - 1], |clips| - 1)
  }

  /** One more word appends its start and end events, as buildTimeline pushes them. */
  lemma {:induction false} WordEventsStep(c: Clip, ci: int, w: nat, before: seq<TimeEvent>)
    requires w < |c.words|
    ensures before + WordEvents(c, ci, w)
              + [TimeEvent(c.startTime + c.words[w].relativeTime, WordStart, ci, w)]
              + [TimeEvent(if w < |c.words| - 1 then c.startTime + c.words[w + 1].relativeTime else c.endTime, WordEnd, ci, w)]
            == before + WordEvents(c, ci, w + 1)
  {
    assert WordEvents(c, ci, w + 1) == WordEvents(c, ci, w) + [WordStartEvent(c, ci, w), WordEndEvent(c, ci, w)];
  }

  /** One more clip appends its events. */
  lemma {:induction false} ProjectEventsStep(clips: seq<Clip>, ci: nat)
    requires ci < |clips|
    ensures ProjectEvents(clips[..ci + 1]) == ProjectEvents(clips[..ci]) + ClipHeader(clips[ci], ci) + WordEvents(clips[ci], ci, |clips[ci].words|)
  {
    assert clips[..ci + 1][..ci] == clips[..ci];
  }

  /** An event buildTimeline produces for word `w` (one of the first `k`) of clip `ci`. */
  predicate IsWordEvent(c: Clip, ci: int, k: nat, e: TimeEvent)
    requires k <= |c.words|
  {
    e.clipIndex == ci && 0 <= e.wordIndex < k &&
    (e == WordStartEvent(c, ci, e.wordIndex) || e == WordEndEvent(c, ci, e.wordIndex))
  }

  /** An event buildTimeline produces for clip `ci`. */
  predicate IsClipEvent(c: Clip, ci: int, e: TimeEvent) {
    e == TimeEvent(c.startTime, ClipStart, ci, -1) ||
    e == TimeEvent(c.endTime, ClipEnd, ci, -1) ||
    IsWordEvent(c, ci, |c.words|, e)
  }

  /** An event buildTimeline produces for the project. */
  predicate IsProjectEvent(clips: seq<Clip>, e: TimeEvent) {
    0 <= e.clipIndex < |clips| && IsClipEvent(clips[e.clipIndex], e.clipIndex, e)
  }

  function TotalWords(clips: seq<Clip>): nat {
    if clips == [] then 0 else TotalWords(clips[..|clips| - 1]) + |clips[|clips| - 1].words|
  }

  lemma {:induction false} WordEventsLength(c: Clip, ci: int, k: nat)
    requires k <= |c.words|
    ensures |WordEvents(c, ci, k)| == 2 * k
  {
    if k > 0 {
      WordEventsLength(c, ci, k - 1);
    }
  }

  lemma {:induction false} WordEventsCount(c: Clip, ci: int, k: nat, e: TimeEvent)
    requires k <= |c.words|
    ensures multiset(WordEvents(c, ci, k))[e] == if IsWordEvent(c, ci, k, e) then 1 else 0
  {
    if k > 0 {
      WordEventsCount(c, ci, k - 1, e);
      var a, b := WordStartEvent(c, ci, k - 1), WordEndEvent(c, ci, k - 1);
      var prefix := WordEvents(c, ci, k - 1);
      assert WordEvents(c, ci, k) == prefix + [a, b];
      IsWordEventStep(c, ci, k, e);
      CountPair(prefix, a, b, e, IsWordEvent(c, ci, k - 1, e), IsWordEvent(c, ci, k, e));
    } else {
      assert !IsWordEvent(c, ci, k, e);
    }
  }

  /** Word k - 1 adds its two events, which are distinct and not among the earlier words' events. */
  lemma {:induction false} IsWordEventStep(c: Clip, ci: int, k: nat, e: TimeEvent)
    requires 0 < k <= |c.words|
    ensures WordStartEvent(c, ci, k - 1) != WordEndEvent(c, ci, k - 1)
    ensures IsWordEvent(c, ci, k, e) <==>
              IsWordEvent(c, ci, k - 1, e) || e == WordStartEvent(c, ci, k - 1) || e == WordEndEvent(c, ci, k - 1)
    ensures IsWordEvent(c, ci, k - 1, e) ==> e != WordStartEvent(c, ci, k - 1) && e != WordEndEvent(c, ci, k - 1)
  {
  }

  /**
   * Counting in a sequence extended by two distinct elements: an element
   * counted at most once before, and not one of the two when counted, is
   * counted once exactly when it was before or is one of the two.
   */
  lemma {:induction false} CountPair<T>(s: seq<T>, a: T, b: T, x: T, before: bool, now: bool)
    requires multiset(s)[x] == (if before then 1 else 0)
    requires a != b && (now <==> before || x == a || x == b)
    requires before ==> x != a && x != b
    ensures multiset(s + [a, b])[x] == if now then 1 else 0
  {
    assert multiset(s + [a, b]) == multiset(s) + multiset{a} + multiset{b};
  }

  lemma {:induction false} ClipEventsCount(c: Clip, ci: int, e: TimeEvent)
    ensures multiset(ClipEvents(c, ci))[e] == if IsClipEvent(c, ci, e) then 1 else 0
    ensures |ClipEvents(c, ci)| == 2 + 2 * |c.words|
  {
    WordEventsCount(c, ci, |c.words|, e);
    WordEventsLength(c, ci, |c.words|);
    var h := ClipHeader(c, ci);
    var w := WordEvents(c, ci, |c.words|);
    assert multiset(h + w)[e] == multiset(h)[e] + multiset(w)[e];
    if e.wordIndex == -1 {
      assert !IsWordEvent(c, ci, |c.words|, e);
    } else {
      assert multiset(h)[e] == 0;
    }
  }

  lemma {:induction false} ProjectEventsLength(clips: seq<Clip>)
    ensures |ProjectEvents(clips)| == 2 * |clips| + 2 * TotalWords(clips)
  {
    if clips != [] {
      var n := |clips| - 1;
      ProjectEventsLength(clips[..n]);
      ClipEventsCount(clips[n], n, TimeEvent(0.0, ClipStart, 0, 0));
    }
  }

  lemma {:induction false} ClipEventIndex(c: Clip, ci: int, e: TimeEvent)
    ensures IsClipEvent(c, ci, e) ==> e.clipIndex == ci
  {
  }

  lemma {:induction false} ProjectEventOfPrefix(clips: seq<Clip>, e: TimeEvent)
    requires clips != [] && e.clipIndex != |clips| - 1
    ensures IsProjectEvent(clips, e) == IsProjectEvent(clips[..|clips| - 1], e)
  {
    if 0 <= e.clipIndex < |clips| - 1 {
      assert clips[..|clips| - 1][e.clipIndex] == clips[e.clipIndex];
    }
  }

  /**
   * The unsorted timeline holds every expected event exactly once and
   * nothing else.
   */
  lemma {:induction false} ProjectEventsCount(clips: seq<Clip>, e: TimeEvent)
    ensures multiset(ProjectEvents(clips))[e] == if IsProjectEvent(clips, e) then 1 else 0
  {
    if clips != [] {
      var n := |clips| - 1;
      var init := clips[..n];
      ProjectEventsCount(init, e);
      ClipEventsCount(clips[n], n, e);
      ClipEventIndex(clips[n], n, e);
      var p, q := ProjectEvents(init), ClipEvents(clips[n], n);
      assert ProjectEvents(clips) == p + q;
      assert multiset(p + q)[e] == multiset(p)[e] + multiset(q)[e];
      if e.clipIndex != n {
        ProjectEventOfPrefix(clips, e);
      }
    }
  }

  /** buildTimeline never produces a HighlightEnd event, and clip events carry word index -1. */
  lemma {:induction false} ProjectEventKinds(clips: seq<Clip>, e: TimeEvent)
    requires IsProjectEvent(clips, e)
    ensures e.kind != HighlightEnd
    ensures (e.kind == ClipStart || e.kind == ClipEnd) <==> e.wordIndex == -1
    ensures e.kind == WordStart || e.kind == WordEnd ==> 0 <= e.wordIndex < |clips[e.clipIndex].words|
    ensures Dispatch(e).Some?
  {
  }

  /**
   * What the BuildTimeline contract means for the list it leaves: every
   * expected event exactly once, nothing else, no HighlightEnd, and
   * 2 events per clip plus 2 per word.
   */
  lemma {:induction false} BuiltTimeline(clips: seq<Clip>, tl: seq<TimeEvent>)
    requires multiset(tl) == multiset(ProjectEvents(clips))
    ensures |tl| == 2 * |clips| + 2 * TotalWords(clips)
    ensures forall e :: multiset(tl)[e] == if IsProjectEvent(clips, e) then 1 else 0
    ensures forall e :: e in tl ==> e.kind != HighlightEnd && Dispatch(e).Some?
  {
    ProjectEventsLength(clips);
    assert |tl| == |multiset(tl)| == |ProjectEvents(clips)|;
    forall e
      ensures multiset(tl)[e] == if IsProjectEvent(clips, e) then 1 else 0
    {
      ProjectEventsCount(clips, e);
    }
    forall e | e in tl
      ensures e.kind != HighlightEnd && Dispatch(e).Some?
    {
      assert multiset(tl)[e] > 0;
      ProjectEventKinds(clips, e);
    }
  }

  // --------------------------------------------------------------------------
  // Processing windows

  /** The events of `s` with previousTime <= time < currentTime, in order. */
  function Window(s: seq<TimeEvent>, prev: real, cur: real): (r: seq<TimeEvent>)
    ensures |r| <= |s|
  {
    if s == [] then []
    else (if prev <= s[0].time < cur then [s[0]] else []) + Window(s[1..], prev, cur)
  }

  lemma {:induction false} WindowAppend(a: seq<TimeEvent>, b: seq<TimeEvent>, prev: real, cur: real)
    ensures Window(a + b, prev, cur) == Window(a, prev, cur) + Window(b, prev, cur)
  {
    if a != [] {
      assert (a + b)[1..] == a[1..] + b;
      WindowAppend(a[1..], b, prev, cur);
    } else {
      assert a + b == b;
    }
  }

  /** Two windows select the same events from `s` when they agree on every time in it. */
  lemma {:induction false} WindowAgree(s: seq<TimeEvent>, p1: real, c1: real, p2: real, c2: real)
    requires forall k :: 0 <= k < |s| ==> (p1 <= s[k].time < c1 <==> p2 <= s[k].time < c2)
    ensures Window(s, p1, c1) == Window(s, p2, c2)
  {
    if s != [] {
      WindowAgree(s[1..], p1, c1, p2, c2);
    }
  }

  /** A window with currentTime <= previousTime is empty. */
  lemma {:induction false} EmptyWindow(s: seq<TimeEvent>, prev: real, cur: real)
    requires cur <= prev
    ensures Window(s, prev, cur) == []
  {
    if s != [] {
      EmptyWindow(s[1..], prev, cur);
    }
  }

  lemma {:induction false} StopStep(tl: seq<TimeEvent>, k: nat, t: real)
    requires k < |tl|
    ensures tl[k].time < t ==> StopIndex(tl, k, t) == StopIndex(tl, k + 1, t)
    ensures tl[k].time >= t ==> StopIndex(tl, k, t) == k
  {
  }

  /** Extending a slice by one event extends its window by that event when it is inside. */
  lemma {:induction false} WindowStep(tl: seq<TimeEvent>, a: nat, k: nat, prev: real, cur: real)
    requires a <= k < |tl|
    ensures Window(tl[a..k + 1], prev, cur) ==
            Window(tl[a..k], prev, cur) + (if prev <= tl[k].time < cur then [tl[k]] else [])
  {
    assert tl[a..k + 1] == tl[a..k] + [tl[k]];
    WindowAppend(tl[a..k], [tl[k]], prev, cur);
    assert [tl[k]][1..] == [];
  }

  function Max(a: real, b: real): real {
    if a >= b then a else b
  }

  /** Where processEvents stops: the first index from `i` whose event is at or after `cur`. */
  function StopIndex(tl: seq<TimeEvent>, i: nat, cur: real): (r: nat)
    requires i <= |tl|
    ensures i <= r <= |tl|
    ensures forall k :: i <= k < r ==> tl[k].time < cur
    ensures r == |tl| || tl[r].time >= cur
    decreases |tl| - i
  {
    if i == |tl| || tl[i].time >= cur then i else StopIndex(tl, i + 1, cur)
  }

  lemma {:induction false} WindowBelow(s: seq<TimeEvent>, prev: real, cur: real)
    requires forall k :: 0 <= k < |s| ==> s[k].time < prev
    ensures Window(s, prev, cur) == []
  {
    if s != [] {
      WindowBelow(s[1..], prev, cur);
    }
  }

  lemma {:induction false} WindowAbove(s: seq<TimeEvent>, prev: real, cur: real)
    requires forall k :: 0 <= k < |s| ==> s[k].time >= cur
    ensures Window(s, prev, cur) == []
  {
    if s != [] {
      WindowAbove(s[1..], prev, cur);
    }
  }

  /** On a sorted timeline, everything from a stop index on is at or after the stop time. */
  lemma {:induction false} SortedFromStop(tl: seq<TimeEvent>, i: nat, t: real)
    requires SortedBy(tl, EventTime) && i <= |tl|
    ensures forall k :: StopIndex(tl, i, t) <= k < |tl| ==> tl[k].time >= t
  {
    var j := StopIndex(tl, i, t);
    forall k | j <= k < |tl|
      ensures tl[k].time >= t
    {
      assert EventTime(tl[j]) <= EventTime(tl[k]);
    }
  }

  /**
   * Playback calls processEvents with each tick's window starting where the
   * previous one ended.  On a sorted timeline two such calls fire exactly the
   * events of the joined window, in timeline order, and the cursor ends past
   * every event before the new window's end.
   */
  lemma {:induction false} ConsecutiveWindows(tl: seq<TimeEvent>, i: nat, t0: real, t1: real, t2: real)
    requires SortedBy(tl, EventTime)
    requires i <= |tl| && forall k :: 0 <= k < i ==> tl[k].time < t0
    requires t0 <= t1 <= t2
    ensures var j := StopIndex(tl, i, t1);
            var m := StopIndex(tl, j, t2);
            Window(tl[i..j], t0, t1) + Window(tl[j..m], t1, t2) == Window(tl, t0, t2) &&
            forall k :: 0 <= k < j ==> tl[k].time < t1
  {
    var j := StopIndex(tl, i, t1);
    var m := StopIndex(tl, j, t2);
    SortedFromStop(tl, i, t1);
    SortedFromStop(tl, j, t2);
    SplitWindows(tl, i, j, m, t0, t1, t2);
  }

  lemma {:induction false} SplitWindows(tl: seq<TimeEvent>, i: nat, j: nat, m: nat, t0: real, t1: real, t2: real)
    requires i <= j <= m <= |tl| && t0 <= t1 <= t2
    requires forall k :: 0 <= k < i ==> tl[k].time < t0
    requires forall k :: i <= k < j ==> tl[k].time < t1
    requires forall k :: j <= k < |tl| ==> tl[k].time >= t1
    requires forall k :: j <= k < m ==> tl[k].time < t2
    requires forall k :: m <= k < |tl| ==> tl[k].time >= t2
    ensures Window(tl[i..j], t0, t1) + Window(tl[j..m], t1, t2) == Window(tl, t0, t2)
  {
    WindowFourParts(tl, i, j, m, t0, t2);
    WindowOutside(tl, i, m, t0, t2);
    SliceAgree(tl, i, j, t0, t2, t0, t1);
    SliceAgree(tl, j, m, t0, t2, t1, t2);
    var b, c := tl[i..j], tl[j..m];
    assert [] + Window(b, t0, t1) + Window(c, t1, t2) + [] == Window(b, t0, t1) + Window(c, t1, t2);
  }

  /** The window of a timeline cut in four is the four windows in order. */
  lemma {:induction false} WindowFourParts(tl: seq<TimeEvent>, i: nat, j: nat, m: nat, t0: real, t2: real)
    requires i <= j <= m <= |tl|
    ensures Window(tl, t0, t2) == Window(tl[..i], t0, t2) + Window(tl[i..j], t0, t2) + Window(tl[j..m], t0, t2) + Window(tl[m..], t0, t2)
  {
    var a, b, c, d := tl[..i], tl[i..j], tl[j..m], tl[m..];
    assert tl == a + b + c + d;
    WindowAppend(a + b + c, d, t0, t2);
    WindowAppend(a + b, c, t0, t2);
    WindowAppend(a, b, t0, t2);
  }

  /** Nothing before `i` is at or after t0, and nothing from `m` on is before t2. */
  lemma {:induction false} WindowOutside(tl: seq<TimeEvent>, i: nat, m: nat, t0: real, t2: real)
    requires i <= m <= |tl|
    requires forall k :: 0 <= k < i ==> tl[k].time < t0
    requires forall k :: m <= k < |tl| ==> tl[k].time >= t2
    ensures Window(tl[..i], t0, t2) == [] && Window(tl[m..], t0, t2) == []
  {
    assert tl[0..i] == tl[..i];
    SliceAgree(tl, 0, i, t0, t2, t0, t0);
    EmptyWindow(tl[..i], t0, t0);
    assert tl[m..|tl|] == tl[m..];
    SliceAgree(tl, m, |tl|, t0, t2, t2, t2);
    EmptyWindow(tl[m..], t2, t2);
  }

  /** WindowAgree for a slice, with the agreement stated on the timeline's own indices. */
  lemma {:induction false} SliceAgree(tl: seq<TimeEvent>, lo: nat, hi: nat, p1: real, c1: real, p2: real, c2: real)
    requires lo <= hi <= |tl|
    requires forall k :: lo <= k < hi ==> (p1 <= tl[k].time < c1 <==> p2 <= tl[k].time < c2)
    ensures Window(tl[lo..hi], p1, c1) == Window(tl[lo..hi], p2, c2)
  {
    var s := tl[lo..hi];
    forall k | 0 <= k < |s|
      ensures p1 <= s[k].time < c1 <==> p2 <= s[k].time < c2
    {
      assert s[k] == tl[lo + k];
    }
    WindowAgree(s, p1, c1, p2, c2);
  }

  // --------------------------------------------------------------------------
  // The manager

  class TimelineEventManager {
    var timeline: seq<TimeEvent>
    var nextEventIndex: nat

    predicate Valid()
      reads this
    {
      nextEventIndex <= |timeline|
    }

    constructor ()
      ensures Valid() && timeline == [] && nextEventIndex == 0
    {
      timeline := [];
      nextEventIndex := 0;
    }

    /** getTimeline: read-only access to the event list. */
    function GetTimeline(): (tl: seq<TimeEvent>)
      reads this
      ensures tl == timeline
    {
      timeline
    }

    /**
     * buildTimeline(project): discard the old list, push every clip's and
     * word's events, sort by time and rewind the cursor.
     */
    method BuildTimeline(clips: seq<Clip>)
      modifies this
      ensures Valid() && nextEventIndex == 0
      ensures SortedBy(timeline, EventTime)
      ensures multiset(timeline) == multiset(ProjectEvents(clips))
    {
      timeline := [];
      var clipIndex := 0;
      while clipIndex < |clips|
        invariant 0 <= clipIndex <= |clips|
        invariant timeline == ProjectEvents(clips[..clipIndex])
      {
        var clip := clips[clipIndex];
        ghost var done := timeline;
        timeline := timeline + [TimeEvent(clip.startTime, ClipStart, clipIndex, -1)];
        timeline := timeline + [TimeEvent(clip.endTime, ClipEnd, clipIndex, -1)];
        assert timeline == done + ClipHeader(clip, clipIndex) + WordEvents(clip, clipIndex, 0);
        var wordIndex := 0;
        while wordIndex < |clip.words|
          invariant 0 <= wordIndex <= |clip.words|
          invariant timeline == done + ClipHeader(clip, clipIndex) + WordEvents(clip, clipIndex, wordIndex)
        {
          var wordAbsoluteTime := clip.startTime + clip.words[wordIndex].relativeTime;
          timeline := timeline + [TimeEvent(wordAbsoluteTime, WordStart, clipIndex, wordIndex)];
          var wordEndTime;
          if wordIndex < |clip.words| - 1 {
            wordEndTime := clip.startTime + clip.words[wordIndex + 1].relativeTime;
          } else {
            wordEndTime := clip.endTime;
          }
          timeline := timeline + [TimeEvent(wordEndTime, WordEnd, clipIndex, wordIndex)];
          WordEventsStep(clip, clipIndex, wordIndex, done + ClipHeader(clip, clipIndex));
          wordIndex := wordIndex + 1;
        }
        ProjectEventsStep(clips, clipIndex);
        clipIndex := clipIndex + 1;
      }
      assert clips[..|clips|] == clips;
      timeline := SortBy(timeline, EventTime);
      nextEventIndex := 0;
    }

    /**
     * processEvents(previousTime, currentTime): returns the events fired, in
     * order; each is handed to the callback Dispatch names.  Stale events
     * (before previousTime) are passed without firing; the cursor stops at
     * the first event at or after currentTime.
     */
    method ProcessEvents(previousTime: real, currentTime: real) returns (fired: seq<TimeEvent>)
      requires Valid()
      modifies this
      ensures Valid() && timeline == old(timeline)
      ensures nextEventIndex == StopIndex(timeline, old(nextEventIndex), Max(previousTime, currentTime))
      ensures previousTime <= currentTime ==> nextEventIndex == StopIndex(timeline, old(nextEventIndex), currentTime)
      ensures fired == Window(timeline[old(nextEventIndex)..nextEventIndex], previousTime, currentTime)
      ensures currentTime <= previousTime ==> fired == []
    {
      fired := [];
      var tl := timeline;
      var i := nextEventIndex;
      ghost var bound := Max(previousTime, currentTime);
      while i < |tl|
        invariant unchanged(this) && tl == timeline
        invariant old(nextEventIndex) <= i <= |tl|
        invariant fired == Window(tl[old(nextEventIndex)..i], previousTime, currentTime)
        invariant StopIndex(tl, old(nextEventIndex), bound) == StopIndex(tl, i, bound)
      {
        var event := tl[i];
        WindowStep(tl, old(nextEventIndex), i, previousTime, currentTime);
        StopStep(tl, i, bound);
        if event.time < previousTime {
          i := i + 1;
          continue;
        }
        if event.time >= currentTime {
          break;
        }
        fired := fired + [event];
        i := i + 1;
      }
      if currentTime <= previousTime {
        EmptyWindow(tl[old(nextEventIndex)..i], previousTime, currentTime);
      }
      nextEventIndex := i;
    }

    /** reset: an empty timeline with the cursor at its start. */
    method Reset()
      modifies this
      ensures Valid() && timeline == [] && nextEventIndex == 0
    {
      timeline := [];
      nextEventIndex := 0;
    }

    /**
     * seekToTime(time): the event list is kept and the cursor is put at the
     * first event at or after `time`, so that processing goes on from that
     * time.  Only the declaration and its comment exist; this search is the
     * reading of that comment.
     */
    method SeekToTime(time: real)
      requires Valid()
      modifies this
      ensures Valid() && timeline == old(timeline)
      ensures nextEventIndex == StopIndex(timeline, 0, time)
      ensures forall k :: 0 <= k < nextEventIndex ==> timeline[k].time < time
      ensures SortedBy(timeline, EventTime) ==> forall k :: nextEventIndex <= k < |timeline| ==> timeline[k].time >= time
    {
      var i := 0;
      while i < |timeline| && timeline[i].time < time
        invariant i <= |timeline|
        invariant StopIndex(timeline, i, time) == StopIndex(timeline, 0, time)
      {
        i := i + 1;
      }
      nextEventIndex := i;
      if SortedBy(timeline, EventTime) {
        SortedFromStop(timeline, 0, time);
      }
    }
  }

  /**
   * After a seek to t0 on a sorted timeline, processing the window [t0, t1)
   * fires exactly the events of the whole timeline in that window, in order.
   */
  lemma {:induction false} SeekThenProcess(tl: seq<TimeEvent>, t0: real, t1: real)
    requires SortedBy(tl, EventTime) && t0 <= t1
    ensures var i := StopIndex(tl, 0, t0);
            Window(tl[i..StopIndex(tl, i, t1)], t0, t1) == Window(tl, t0, t1)
  {
    var j := StopIndex(tl, 0, t0);
    ConsecutiveWindows(tl, 0, t0, t0, t1);
    EmptyWindow(tl[0..j], t0, t0);
  }

  /** After reset, processing fires nothing and leaves the cursor at 0. */
  lemma {:induction false} ProcessAfterReset(prev: real, cur: real)
    ensures StopIndex([], 0, cur) == 0
    ensures Window([][0..0], prev, cur) == []
  {
  }

  /**
   * Events at the same time are unordered by operator<, so after sorting a
   * clip whose first word starts with it may list ClipStart and WordStart in
   * either order; the contract of BuildTimeline admits both.
   */
  lemma {:induction false} EqualTimesSortEitherWay(c: Clip)
    requires c.words != [] && c.words[0].relativeTime == 0.0
    ensures var a, b := TimeEvent(c.startTime, ClipStart, 0, -1), WordStartEvent(c, 0, 0);
            a != b && !EventLess(a, b) && !EventLess(b, a) &&
            SortedBy([a, b], EventTime) && SortedBy([b, a], EventTime) &&
            multiset([a, b]) == multiset([b, a])
  {
  }
}
