/**
 * The clip every importer builds from one block of text: the text split at
 * single spaces, word i placed at i * (duration / wordCount) inside the clip.
 */
module ImportClips {
  import opened Wrappers
  import opened JuceText
  import opened DataModel
  import opened Sorting
  import opened SubtitleImport

  /** The break characters of `fromTokens(text, " ", "")`. */
  const Space: set<char> := {' '}

  /** Word i of n starts at i * (duration / n), relative to the clip start. */
  function SpacedWords(tokens: seq<string>, duration: real): (r: seq<Word>)
    ensures |r| == |tokens|
  {
    seq(|tokens|, i requires 0 <= i < |tokens| => Word(tokens[i], i as real * (duration / |tokens| as real), None))
  }

  /** A default-constructed clip with the given times and the words of `text` spaced evenly across it. */
  function TextClip(text: string, start: real, end: real): Clip {
    Clip("", start, end, SpacedWords(FromTokens(text, Space), end - start), DefaultFormatting)
  }

  /** The words keep the tokens in order and carry no formatting of their own. */
  lemma {:induction false} SpacedTexts(tokens: seq<string>, duration: real)
    ensures Texts(SpacedWords(tokens, duration)) == tokens
    ensures forall i :: 0 <= i < |tokens| ==> SpacedWords(tokens, duration)[i].formatting.None?
  {
    var r := SpacedWords(tokens, duration);
    assert forall i :: 0 <= i < |r| ==> Texts(r)[i] == tokens[i];
  }

  /**
   * The first word starts with the clip, consecutive words are one share of
   * the duration apart, and the last share ends with the clip.
   */
  lemma {:induction false} EvenSpacing(tokens: seq<string>, duration: real)
    requires tokens != []
    ensures var r := SpacedWords(tokens, duration);
            r[0].relativeTime == 0.0 &&
            (forall i :: 0 <= i < |r| - 1 ==> r[i + 1].relativeTime - r[i].relativeTime == duration / |tokens| as real) &&
            r[|r| - 1].relativeTime + duration / |tokens| as real == duration
  {
    var r := SpacedWords(tokens, duration);
    var n := |tokens|;
    var share := duration / n as real;
    forall i | 0 <= i < n - 1
      ensures r[i + 1].relativeTime - r[i].relativeTime == share
    {
      NextShare(i, share);
    }
    LastShare(n, duration);
  }

  lemma {:induction false} NextShare(i: nat, share: real)
    ensures (i + 1) as real * share - i as real * share == share
  {
  }

  lemma {:induction false} LastShare(n: nat, duration: real)
    requires n >= 1
    ensures (n - 1) as real * (duration / n as real) + duration / n as real == duration
  {
    var share := duration / n as real;
    assert (n - 1) as real * share + share == n as real * share;
  }

  /** A clip's words cover its duration: word starts lie in [0, duration) for a positive duration. */
  lemma {:induction false} SpacedWordsWithinClip(tokens: seq<string>, duration: real, i: int)
    requires 0 <= i < |tokens| && duration > 0.0
    ensures 0.0 <= SpacedWords(tokens, duration)[i].relativeTime < duration
  {
    var n := |tokens| as real;
    var share := duration / n;
    assert share > 0.0;
    assert i as real <= n - 1.0;
    assert i as real * share <= (n - 1.0) * share;
    assert (n - 1.0) * share + share == n * share;
    assert n * share == duration;
  }

  /**
   * The clip-building steps of importSRT, importWebVTT and importPlainText: a
   * default NarrateClip gets its times, then one word per token at
   * i * timePerWord (no words for an empty token list).
   */
  method BuildTextClip(text: string, start: real, end: real) returns (c: Clip)
    ensures c == TextClip(text, start, end)
  {
    var clip := new NarrateClip("", 0.0, 0.0);
    clip.SetStartTime(start);
    clip.SetEndTime(end);
    var words := FromTokens(text, Space);
    var clipDuration := clip.GetDuration();
    assert clipDuration == end - start;
    var wordCount := |words|;
    ghost var spaced := SpacedWords(words, end - start);
    if wordCount > 0 {
      var timePerWord := clipDuration / wordCount as real;
      var i := 0;
      while i < wordCount
        invariant 0 <= i <= wordCount
        invariant clip.Value() == Clip("", start, end, spaced[..i], DefaultFormatting)
      {
        assert spaced[i] == Word(words[i], i as real * timePerWord, None);
        clip.AddWord(Word(words[i], i as real * timePerWord, None));
        assert spaced[..i + 1] == spaced[..i] + [spaced[i]];
        i := i + 1;
      }
      assert spaced[..wordCount] == spaced;
    }
    c := clip.Value();
  }

  /** The clip importSRT and importWebVTT make of a parsed entry. */
  function EntryClip(e: SubtitleEntry): Clip {
    TextClip(e.text, e.startTime, e.endTime)
  }

  /**
   * The clips of the entries, in order. As with Views, the non-empty case
   * is a function of its own so that a clip's words are unfolded only where
   * a proof needs them.
   */
  function EntryClips(es: seq<SubtitleEntry>): (r: seq<Clip>)
    ensures |r| == |es|
    decreases |es|, 1
  {
    if es == [] then [] else EntryClipsOfNonEmpty(es)
  }

  function EntryClipsOfNonEmpty(es: seq<SubtitleEntry>): (r: seq<Clip>)
    requires es != []
    ensures |r| == |es|
    decreases |es|, 0
  {
    [EntryClip(es[0])] + EntryClips(es[1..])
  }

  lemma {:induction false} EntryClipsSnoc(es: seq<SubtitleEntry>, e: SubtitleEntry)
    ensures EntryClips(es + [e]) == EntryClips(es) + [EntryClip(e)]
  {
    assert EntryClips(es + [e]) == EntryClipsOfNonEmpty(es + [e]);
    if es != [] {
      assert EntryClips(es) == EntryClipsOfNonEmpty(es);
      assert (es + [e])[1..] == es[1..] + [e];
      EntryClipsSnoc(es[1..], e);
    } else {
      assert EntryClips([]) == [];
      assert (es + [e])[1..] == [];
    }
  }

  lemma AppendAssoc<T>(a: seq<T>, b: seq<T>, c: seq<T>)
    ensures a + (b + c) == (a + b) + c
  {
  }

  /** Build the entry's clip and add it to the project, which stays sorted by start time. */
  method AddEntryClip(project: NarrateProject, ghost done: seq<SubtitleEntry>, entry: SubtitleEntry)
    requires project.clips == SortBy(EntryClips(done), StartKey)
    modifies project
    ensures project.clips == SortBy(EntryClips(done + [entry]), StartKey)
    ensures project.projectName == old(project.projectName)
  {
    var clip := BuildTextClip(entry.text, entry.startTime, entry.endTime);
    SortBySnoc(EntryClips(done), clip, StartKey);
    EntryClipsSnoc(done, entry);
    project.AddClip(clip);
  }

}
