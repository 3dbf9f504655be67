/**
 * Plain-text import: the file's lines, trimmed, are gathered into paragraphs
 * separated by blank lines; each paragraph becomes one clip lasting its
 * estimated reading time, the clips following each other from time 0.
 */
module PlainTextImport {
  import opened Wrappers
  import opened JuceText
  import opened Sorting
  import opened DataModel
  import opened SubtitleImport
  import opened ImportClips

  // --------------------------------------------------------------------------
  // Reading time

  /** The words estimateDuration counts: `fromTokens(text, " ", "")`. */
  function WordCount(text: string): nat {
    |FromTokens(text, Space)|
  }

  /** estimateDuration: the word count read at 2.5 words per second, but at least one second. */
  function EstimateDuration(text: string): real {
    var d := WordCount(text) as real / 2.5;
    if d > 1.0 then d else 1.0
  }

  /**
   * A text lasts at least a second; up to two words last exactly a second,
   * and from three words on every word adds 0.4 seconds.
   */
  lemma {:induction false} EstimateDurationBounds(text: string)
    ensures EstimateDuration(text) >= 1.0
    ensures EstimateDuration(text) == 1.0 <==> WordCount(text) <= 2
    ensures WordCount(text) >= 3 ==> EstimateDuration(text) == WordCount(text) as real * 0.4
  {
  }

  // --------------------------------------------------------------------------
  // Paragraphs

  /** Every line trimmed; the non-empty case stands apart, as Views does. */
  function TrimmedLines(lines: seq<string>): (ts: seq<string>)
    ensures |ts| == |lines|
    decreases |lines|, 1
  {
    if lines == [] then [] else TrimmedLinesOfNonEmpty(lines)
  }

  function TrimmedLinesOfNonEmpty(lines: seq<string>): (ts: seq<string>)
    requires lines != []
    ensures |ts| == |lines|
    decreases |lines|, 0
  {
    [Trim(lines[0])] + TrimmedLines(lines[1..])
  }

  lemma {:induction false} TrimmedAt(lines: seq<string>, k: nat)
    requires k < |lines|
    ensures TrimmedLines(lines)[k] == Trim(lines[k])
    decreases k
  {
    assert TrimmedLines(lines) == TrimmedLinesOfNonEmpty(lines);
    if k > 0 {
      TrimmedAt(lines[1..], k - 1);
    }
  }

  /**
   * The paragraphs the loop completes from trimmed line `i` on, with
   * `para` gathered so far: a blank line ends a non-empty paragraph, any
   * other line is appended to it after a space, and the end of the lines
   * ends the last paragraph.
   */
  function ParagraphsFrom(ts: seq<string>, i: nat, para: string): seq<string>
    requires i <= |ts|
    decreases |ts| - i
  {
    if i == |ts| then (if para == [] then [] else [para])
    else if ts[i] == [] then
      (if para == [] then ParagraphsFrom(ts, i + 1, []) else [para] + ParagraphsFrom(ts, i + 1, []))
    else ParagraphsFrom(ts, i + 1, AppendPiece(para, ts[i]))
  }

  function Paragraphs(lines: seq<string>): seq<string> {
    ParagraphsFrom(TrimmedLines(lines), 0, [])
  }

  /** One line of the loop: what ParagraphsFrom gives in each of its cases. */
  lemma {:induction false} ParagraphsStep(ts: seq<string>, i: nat, para: string)
    requires i <= |ts|
    ensures i == |ts| && para == [] ==> ParagraphsFrom(ts, i, para) == []
    ensures i == |ts| && para != [] ==> ParagraphsFrom(ts, i, para) == [para]
    ensures i < |ts| && ts[i] == [] && para == [] ==> ParagraphsFrom(ts, i, para) == ParagraphsFrom(ts, i + 1, [])
    ensures i < |ts| && ts[i] == [] && para != [] ==> ParagraphsFrom(ts, i, para) == [para] + ParagraphsFrom(ts, i + 1, [])
    ensures i < |ts| && ts[i] != [] ==> ParagraphsFrom(ts, i, para) == ParagraphsFrom(ts, i + 1, AppendPiece(para, ts[i]))
  {
  }

  /** No paragraph is empty. */
  lemma {:induction false} ParagraphsNonEmpty(ts: seq<string>, i: nat, para: string)
    requires i <= |ts|
    ensures forall p :: p in ParagraphsFrom(ts, i, para) ==> p != []
    decreases |ts| - i
  {
    if i < |ts| {
      if ts[i] == [] {
        ParagraphsNonEmpty(ts, i + 1, []);
      } else {
        ParagraphsNonEmpty(ts, i + 1, AppendPiece(para, ts[i]));
      }
    }
  }

  /** The words of the texts, in order. */
  function WordsOf(texts: seq<string>): seq<string> {
    if texts == [] then [] else FromTokens(texts[0], Space) + WordsOf(texts[1..])
  }

  lemma {:induction false} WordsOfAppend(a: seq<string>, b: seq<string>)
    ensures WordsOf(a + b) == WordsOf(a) + WordsOf(b)
    decreases |a|
  {
    if a != [] {
      assert (a + b)[1..] == a[1..] + b;
      WordsOfAppend(a[1..], b);
    } else {
      assert a + b == b;
    }
  }

  /** Appending a line to a paragraph appends the line's words to the paragraph's. */
  lemma {:induction false} AppendPieceWords(para: string, t: string)
    requires t != []
    ensures FromTokens(AppendPiece(para, t), Space) == FromTokens(para, Space) + FromTokens(t, Space)
  {
    if para != [] {
      assert para + " " + t == para + [' '] + t;
      SplitAllAtBreak(para, ' ', t, Space);
    }
  }

  /**
   * The paragraphs hold exactly the words of the lines, in order: gathering
   * loses no word, adds none and keeps their order (a blank line has no
   * words).
   */
  lemma {:induction false} ParagraphWords(lines: seq<string>)
    ensures WordsOf(Paragraphs(lines)) == WordsOf(TrimmedLines(lines))
  {
    var ts := TrimmedLines(lines);
    ParagraphWordsFrom(ts, 0, []);
    assert ts[0..] == ts;
  }

  lemma {:induction false} ParagraphWordsFrom(ts: seq<string>, i: nat, para: string)
    requires i <= |ts|
    ensures WordsOf(ParagraphsFrom(ts, i, para)) == FromTokens(para, Space) + WordsOf(ts[i..])
    decreases |ts| - i
  {
    if i == |ts| {
      assert ts[i..] == [];
      if para != [] {
        assert [para][1..] == [];
      }
    } else {
      assert ts[i..][1..] == ts[i + 1..];
      if ts[i] == [] {
        ParagraphWordsFrom(ts, i + 1, []);
        if para != [] {
          var rest := ParagraphsFrom(ts, i + 1, []);
          assert ([para] + rest)[1..] == rest;
        }
      } else {
        ParagraphWordsFrom(ts, i + 1, AppendPiece(para, ts[i]));
        AppendPieceWords(para, ts[i]);
      }
    }
  }

  // --------------------------------------------------------------------------
  // Clips

  /** The clip of a paragraph starting at `start`: its estimated duration, its words evenly spaced. */
  function ParagraphClip(p: string, start: real): Clip {
    TextClip(p, start, start + EstimateDuration(p))
  }

  /** The total estimated duration of the paragraphs, where the next clip starts. */
  function TotalDuration(ps: seq<string>): real {
    if ps == [] then 0.0 else TotalDuration(ps[..|ps| - 1]) + EstimateDuration(ps[|ps| - 1])
  }

  /** The clips of the paragraphs, each starting where the previous one ends, the first at 0. */
  function ParagraphClips(ps: seq<string>): (r: seq<Clip>)
    ensures |r| == |ps|
    decreases |ps|, 1
  {
    if ps == [] then [] else ParagraphClipsOfNonEmpty(ps)
  }

  function ParagraphClipsOfNonEmpty(ps: seq<string>): (r: seq<Clip>)
    requires ps != []
    ensures |r| == |ps|
    decreases |ps|, 0
  {
    var init := ps[..|ps| - 1];
    ParagraphClips(init) + [ParagraphClip(ps[|ps| - 1], TotalDuration(init))]
  }

  lemma {:induction false} ParagraphClipsSnoc(ps: seq<string>, p: string)
    ensures ParagraphClips(ps + [p]) == ParagraphClips(ps) + [ParagraphClip(p, TotalDuration(ps))]
    ensures TotalDuration(ps + [p]) == TotalDuration(ps) + EstimateDuration(p)
  {
    assert ParagraphClips(ps + [p]) == ParagraphClipsOfNonEmpty(ps + [p]);
    assert (ps + [p])[..|ps|] == ps;
  }

  lemma {:induction false} ParagraphClipAt(ps: seq<string>, k: nat)
    requires k < |ps|
    ensures ParagraphClips(ps)[k] == ParagraphClip(ps[k], TotalDuration(ps[..k]))
    decreases |ps|
  {
    var n := |ps|;
    var init := ps[..n - 1];
    assert ParagraphClips(ps) == ParagraphClipsOfNonEmpty(ps);
    if k < n - 1 {
      ParagraphClipAt(init, k);
      assert init[..k] == ps[..k];
    }
  }

  /** Every paragraph adds at least a second, so the total grows with every paragraph. */
  lemma {:induction false} TotalDurationGrows(ps: seq<string>, k: nat)
    requires k <= |ps|
    ensures TotalDuration(ps[..k]) + (|ps| - k) as real <= TotalDuration(ps)
    decreases |ps| - k
  {
    if k < |ps| {
      TotalDurationGrows(ps, k + 1);
      assert ps[..k + 1][..k] == ps[..k];
      EstimateDurationBounds(ps[k]);
    } else {
      assert ps[..k] == ps;
    }
  }

  /** Clip k runs from the total duration of the paragraphs before it to the total including it. */
  lemma {:induction false} ParagraphClipTimes(ps: seq<string>, k: nat)
    requires k < |ps|
    ensures ParagraphClips(ps)[k].startTime == TotalDuration(ps[..k])
    ensures ParagraphClips(ps)[k].endTime == TotalDuration(ps[..k + 1])
    ensures TotalDuration(ps[..k + 1]) == TotalDuration(ps[..k]) + EstimateDuration(ps[k])
  {
    ParagraphClipAt(ps, k);
    assert ps[..k + 1] == ps[..k] + [ps[k]];
    ParagraphClipsSnoc(ps[..k], ps[k]);
  }

  /**
   * The clips tile the time line from 0: clip k lasts its paragraph's
   * estimated duration, at least a second, and the next clip starts where it
   * ends.
   */
  lemma {:induction false} ParagraphClipsTile(ps: seq<string>)
    ensures var cs := ParagraphClips(ps);
            (cs != [] ==> cs[0].startTime == 0.0) &&
            (forall k :: 0 <= k < |cs| ==> cs[k].endTime - cs[k].startTime == EstimateDuration(ps[k]) >= 1.0) &&
            (forall k :: 0 <= k < |cs| - 1 ==> cs[k + 1].startTime == cs[k].endTime)
  {
    var cs := ParagraphClips(ps);
    forall k | 0 <= k < |cs|
      ensures cs[k].endTime - cs[k].startTime == EstimateDuration(ps[k]) >= 1.0
    {
      ParagraphClipTimes(ps, k);
      EstimateDurationBounds(ps[k]);
    }
    forall k | 0 <= k < |cs| - 1
      ensures cs[k + 1].startTime == cs[k].endTime
    {
      ParagraphClipTimes(ps, k);
      ParagraphClipTimes(ps, k + 1);
    }
    if cs != [] {
      ParagraphClipTimes(ps, 0);
      assert ps[..0] == [];
    }
  }

  /** Each clip starts at least a second after the one before. */
  lemma {:induction false} ParagraphClipsSorted(ps: seq<string>)
    ensures SortedBy(ParagraphClips(ps), StartKey)
    ensures forall i, j :: 0 <= i < j < |ps| ==> ParagraphClips(ps)[i].startTime + (j - i) as real <= ParagraphClips(ps)[j].startTime
  {
    var cs := ParagraphClips(ps);
    forall i, j | 0 <= i <= j < |cs|
      ensures cs[i].startTime + (j - i) as real <= cs[j].startTime
    {
      ParagraphClipTimes(ps, i);
      ParagraphClipTimes(ps, j);
      TotalDurationGrows(ps[..j], i);
      assert ps[..j][..i] == ps[..i];
    }
  }

  /** Start times increase, so the project's sorting keeps the clips in paragraph order. */
  lemma {:induction false} ParagraphOrderKept(ps: seq<string>)
    ensures SortBy(ParagraphClips(ps), StartKey) == ParagraphClips(ps)
  {
    ParagraphClipsSorted(ps);
    SortBySorted(ParagraphClips(ps), StartKey);
  }

  // --------------------------------------------------------------------------
  // The import

  /**
   * Adding the clip built for the next paragraph to the clips of the
   * paragraphs before it and sorting by start time gives the clips of all of
   * them, in paragraph order, and the time moves on to the end of the new clip.
   */
  lemma {:induction false} ParagraphClipAdded(done: seq<string>, para: string, t: real, clip: Clip)
    requires t == TotalDuration(done) && clip == TextClip(para, t, t + EstimateDuration(para))
    ensures SortBy(ParagraphClips(done) + [clip], StartKey) == ParagraphClips(done + [para])
    ensures t + EstimateDuration(para) == TotalDuration(done + [para])
  {
    assert clip == ParagraphClip(para, t);
    ParagraphClipsSnoc(done, para);
    ParagraphOrderKept(done + [para]);
  }

  /**
   * End the paragraph `para` at `currentTime`: build its clip, add it, and
   * move the time on by its estimated duration.
   */
  method AddParagraphClip(project: NarrateProject, ghost done: seq<string>, para: string, currentTime: real)
    returns (nextTime: real)
    requires currentTime == TotalDuration(done)
    requires project.clips == ParagraphClips(done)
    modifies project
    ensures nextTime == TotalDuration(done + [para])
    ensures project.clips == ParagraphClips(done + [para])
    ensures project.projectName == old(project.projectName)
  {
    var duration := EstimateDuration(para);
    var clip := BuildTextClip(para, currentTime, currentTime + duration);
    ParagraphClipAdded(done, para, currentTime, clip);
    project.AddClip(clip);
    nextTime := currentTime + duration;
  }

  /**
   * One line of the paragraph loop: a blank line ends a non-empty paragraph
   * and adds its clip; any other line is appended to the paragraph after a
   * space.  The paragraphs completed and those still to come are unchanged.
   */
  method TakeLine(project: NarrateProject, lines: seq<string>, ghost ts: seq<string>, lineIndex: nat,
                  ghost done: seq<string>, currentParagraph: string, currentTime: real)
    returns (ghost done': seq<string>, paragraph: string, time: real)
    requires ts == TrimmedLines(lines) && lineIndex < |lines|
    requires currentTime == TotalDuration(done) && project.clips == ParagraphClips(done)
    modifies project
    ensures done' + ParagraphsFrom(ts, lineIndex + 1, paragraph) == done + ParagraphsFrom(ts, lineIndex, currentParagraph)
    ensures time == TotalDuration(done') && project.clips == ParagraphClips(done')
    ensures project.projectName == old(project.projectName)
  {
    TrimmedAt(lines, lineIndex);
    ParagraphsStep(ts, lineIndex, currentParagraph);
    done', paragraph, time := done, currentParagraph, currentTime;
    var trimmedLine := Trim(lines[lineIndex]);
    if trimmedLine == [] {
      if currentParagraph != [] {
        time := AddParagraphClip(project, done, currentParagraph, currentTime);
        AppendAssoc(done, [currentParagraph], ParagraphsFrom(ts, lineIndex + 1, []));
        done' := done + [currentParagraph];
        paragraph := [];
      }
    } else {
      if currentParagraph != [] {
        paragraph := paragraph + " ";
      }
      paragraph := paragraph + trimmedLine;
      assert paragraph == AppendPiece(currentParagraph, ts[lineIndex]);
    }
  }

  /** The paragraph loop of importPlainText over a cleared project, then the final paragraph. */
  method AddParagraphClips(lines: seq<string>, project: NarrateProject)
    requires project.clips == []
    modifies project
    ensures project.clips == ParagraphClips(Paragraphs(lines))
    ensures project.projectName == old(project.projectName)
  {
    ghost var ts := TrimmedLines(lines);
    ghost var all := Paragraphs(lines);
    var currentTime := 0.0;
    var currentParagraph := "";
    ghost var done: seq<string> := [];
    var lineIndex := 0;
    while lineIndex < |lines|
      invariant 0 <= lineIndex <= |lines|
      invariant all == done + ParagraphsFrom(ts, lineIndex, currentParagraph)
      invariant currentTime == TotalDuration(done)
      invariant project.clips == ParagraphClips(done)
      invariant project.projectName == old(project.projectName)
    {
      done, currentParagraph, currentTime := TakeLine(project, lines, ts, lineIndex, done, currentParagraph, currentTime);
      lineIndex := lineIndex + 1;
    }
    ParagraphsStep(ts, lineIndex, currentParagraph);
    if currentParagraph != [] {
      currentTime := AddParagraphClip(project, done, currentParagraph, currentTime);
      done := done + [currentParagraph];
    } else {
      assert done + [] == done;
    }
  }

  /**
   * importPlainText with the file as its contents (None for a file that
   * does not exist) and its name without extension: a missing or empty file
   * changes nothing and fails; otherwise the project is replaced by one with
   * that name holding one clip per paragraph, in paragraph order, and the
   * import succeeds when there is at least one paragraph.
   */
  method ImportPlainText(file: Option<string>, fileName: string, project: NarrateProject) returns (ok: bool)
    modifies project
    ensures (file.None? || file.value == []) ==> !ok && project.clips == old(project.clips) && project.projectName == old(project.projectName)
    ensures file.Some? && file.value != [] ==>
              project.projectName == fileName &&
              project.clips == ParagraphClips(Paragraphs(FromLines(file.value))) &&
              (ok <==> Paragraphs(FromLines(file.value)) != [])
  {
    if file.None? {
      return false;
    }
    var content := file.value;
    if content == [] {
      return false;
    }
    project.ClearClips();
    project.SetProjectName(fileName);
    var lines := FromLines(content);
    AddParagraphClips(lines, project);
    ok := project.GetNumClips() > 0;
  }
}
