/**
 * The project / clip / word data model.  A NarrateProject owns an array of
 * clips, kept ordered by start time; a clip owns an array of words whose
 * times are relative to the clip start.  juce::Array copies its elements, so
 * the project stores clip values (`Clip`) while a free-standing clip being
 * edited is an object (`NarrateClip`).
 */
module DataModel {
  import opened Wrappers
  import opened JuceText
  import opened Sorting

  /** juce::Colour as its 32-bit ARGB value. */
  type Argb = c: int | 0 <= c < 0x1_0000_0000

  const White: Argb := 0xFFFF_FFFF

  datatype TextFormatting = TextFormatting(colour: Argb, bold: bool, italic: bool, fontSizeMultiplier: real)

  /** The member initialisers of TextFormatting. */
  const DefaultFormatting := TextFormatting(White, false, false, 1.0)

  datatype Word = Word(text: string, relativeTime: real, formatting: Option<TextFormatting>)

  datatype Clip = Clip(id: string, startTime: real, endTime: real, words: seq<Word>, defaultFormatting: TextFormatting)

  /** getEffectiveFormatting: a word's own formatting overrides the clip default. */
  function EffectiveFormatting(w: Word, clipDefault: TextFormatting): (f: TextFormatting)
    ensures w.formatting.Some? ==> f == w.formatting.value
    ensures w.formatting.None? ==> f == clipDefault
  {
    if w.formatting.Some? then w.formatting.value else clipDefault
  }

  function Duration(c: Clip): real {
    c.endTime - c.startTime
  }

  /** getWordAbsoluteTime: clip start plus the word's offset, or the clip start for an invalid index. */
  function WordAbsoluteTime(c: Clip, i: int): (t: real)
    ensures 0 <= i < |c.words| ==> t == c.startTime + c.words[i].relativeTime
    ensures !(0 <= i < |c.words|) ==> t == c.startTime
  {
    if 0 <= i < |c.words| then c.startTime + c.words[i].relativeTime else c.startTime
  }

  /** The characters setText breaks words at. */
  const WordBreaks: set<char> := {' ', '\t', '\n'}

  function Texts(words: seq<Word>): (r: seq<string>)
    ensures |r| == |words| && forall i :: 0 <= i < |words| ==> r[i] == words[i].text
  {
    if words == [] then [] else [words[0].text] + Texts(words[1..])
  }

  /** What getFullText accumulates before its final trim: every word followed by a space. */
  function SpacedText(words: seq<Word>): string {
    if words == [] then [] else SpacedText(words[..|words| - 1]) + words[|words| - 1].text + " "
  }

  // --------------------------------------------------------------------------
  // A clip being edited

  class NarrateClip {
    var id: string
    var startTime: real
    var endTime: real
    var words: seq<Word>
    var defaultFormatting: TextFormatting

    constructor (clipId: string, start: real, end: real)
      ensures id == clipId && startTime == start && endTime == end
      ensures words == [] && defaultFormatting == DefaultFormatting
    {
      id := clipId;
      startTime := start;
      endTime := end;
      words := [];
      defaultFormatting := DefaultFormatting;
    }

    /** The value juce::Array stores when this clip is added to a project. */
    function Value(): Clip
      reads this
    {
      Clip(id, startTime, endTime, words, defaultFormatting)
    }

    function GetDuration(): (d: real)
      reads this
      ensures startTime + d == endTime
    {
      endTime - startTime
    }

    method SetStartTime(time: real)
      modifies this
      ensures Value() == old(Value()).(startTime := time)
    {
      startTime := time;
    }

    method SetEndTime(time: real)
      modifies this
      ensures Value() == old(Value()).(endTime := time)
    {
      endTime := time;
    }

    method SetDefaultFormatting(f: TextFormatting)
      modifies this
      ensures Value() == old(Value()).(defaultFormatting := f)
    {
      defaultFormatting := f;
    }

    /** addWord appends. */
    method AddWord(w: Word)
      modifies this
      ensures words == old(words) + [w]
      ensures Value() == old(Value()).(words := words)
    {
      words := words + [w];
    }

    /** insertWord: juce::Array::insert appends when the index is out of range. */
    method InsertWord(index: int, w: Word)
      modifies this
      ensures 0 <= index <= |old(words)| ==> words == old(words)[..index] + [w] + old(words)[index..]
      ensures !(0 <= index <= |old(words)|) ==> words == old(words) + [w]
      ensures Value() == old(Value()).(words := words)
    {
      if 0 <= index <= |words| {
        words := words[..index] + [w] + words[index..];
      } else {
        words := words + [w];
      }
    }

    /** removeWord: juce::Array::remove ignores an out-of-range index. */
    method RemoveWord(index: int)
      modifies this
      ensures 0 <= index < |old(words)| ==> words == old(words)[..index] + old(words)[index + 1..]
      ensures !(0 <= index < |old(words)|) ==> words == old(words)
      ensures Value() == old(Value()).(words := words)
    {
      if 0 <= index < |words| {
        words := words[..index] + words[index + 1..];
      }
    }

    method ClearWords()
      modifies this
      ensures words == []
      ensures Value() == old(Value()).(words := [])
    {
      words := [];
    }

    function GetNumWords(): (n: nat)
      reads this
      ensures n == |words|
    {
      |words|
    }

    /** getWordAbsoluteTime */
    function GetWordAbsoluteTime(i: int): (t: real)
      reads this
      ensures t == WordAbsoluteTime(Value(), i)
    {
      if 0 <= i < |words| then startTime + words[i].relativeTime else startTime
    }

    /** getFullText: every word followed by a space, then trimmed. */
    method GetFullText() returns (text: string)
      ensures text == Trim(SpacedText(words))
    {
      var result := "";
      var i := 0;
      while i < |words|
        invariant 0 <= i <= |words|
        invariant result == SpacedText(words[..i])
      {
        assert words[..i + 1][..i] == words[..i];
        result := result + words[i].text + " ";
        i := i + 1;
      }
      assert words[..|words|] == words;
      text := Trim(result);
    }

    /** setText: one untimed word per space/tab/newline separated token, in order. */
    method SetText(text: string)
      modifies this
      ensures Texts(words) == FromTokens(text, WordBreaks)
      ensures forall i :: 0 <= i < |words| ==> words[i].relativeTime == 0.0 && words[i].formatting.None?
      ensures Value() == old(Value()).(words := words)
    {
      words := [];
      var tokens := FromTokens(text, WordBreaks);
      var i := 0;
      while i < |tokens|
        invariant 0 <= i <= |tokens|
        invariant |words| == i
        invariant forall k :: 0 <= k < i ==> words[k] == Word(tokens[k], 0.0, None)
        invariant Value() == old(Value()).(words := words)
      {
        words := words + [Word(tokens[i], 0.0, None)];
        i := i + 1;
      }
      assert Texts(words) == tokens;
    }
  }

  // --------------------------------------------------------------------------
  // getFullText and setText are inverse on words that are tokens

  predicate IsToken(t: string) {
    t != [] && forall i :: 0 <= i < |t| ==> !IsWhitespace(t[i])
  }

  lemma {:induction false} SpacedTextIsJoin(words: seq<Word>)
    requires words != []
    ensures SpacedText(words) == Join(Texts(words), ' ') + " "
    decreases |words|
  {
    if |words| > 1 {
      var init := words[..|words| - 1];
      SpacedTextIsJoin(init);
      assert Texts(words) == Texts(init) + [words[|words| - 1].text];
      JoinSnoc(Texts(init), words[|words| - 1].text, ' ');
    }
  }

  lemma {:induction false} JoinOfTokensEdges(parts: seq<string>)
    requires |parts| >= 1 && forall i :: 0 <= i < |parts| ==> IsToken(parts[i])
    requires parts[0] != [] && parts[|parts| - 1] != []
    ensures |Join(parts, ' ')| >= 1
    ensures Join(parts, ' ')[0] == parts[0][0]
    ensures Join(parts, ' ')[|Join(parts, ' ')| - 1] == parts[|parts| - 1][|parts[|parts| - 1]| - 1]
    decreases |parts|
  {
    if |parts| > 1 {
      assert IsToken(parts[1..][0]) && IsToken(parts[1..][|parts| - 2]);
      JoinOfTokensEdges(parts[1..]);
    }
  }

  lemma {:induction false} TrimEndOfSpaced(j: string)
    requires j != [] && !IsWhitespace(j[|j| - 1])
    ensures TrimEnd(j + " ") == j
  {
    assert (j + " ")[..|j + " "| - 1] == j;
  }

  /**
   * Text whose words are whitespace-free, non-empty tokens survives a round
   * trip: setText(getFullText()) gives back the same word texts.
   */
  lemma {:induction false} FullTextThenSetText(words: seq<Word>)
    requires forall i :: 0 <= i < |words| ==> IsToken(words[i].text)
    ensures FromTokens(Trim(SpacedText(words)), WordBreaks) == Texts(words)
  {
    if words != [] {
      SpacedTextIsJoin(words);
      TokensRoundTrip(Texts(words), SpacedText(words));
    }
  }

  lemma {:induction false} TokensRoundTrip(parts: seq<string>, s: string)
    requires |parts| >= 1 && forall i :: 0 <= i < |parts| ==> IsToken(parts[i])
    requires s == Join(parts, ' ') + " "
    ensures FromTokens(Trim(s), WordBreaks) == parts
  {
    var j := Join(parts, ' ');
    JoinOfTokensEdges(parts);
    assert Trim(j + " ") == j by {
      assert (j + " ")[0] == j[0];
      TrimStartNoop(j + " ");
      TrimEndOfSpaced(j);
    }
    TokensHaveNoBreaks(parts);
    SplitJoin(parts, ' ', WordBreaks);
  }

  lemma {:induction false} TokensHaveNoBreaks(parts: seq<string>)
    requires forall i :: 0 <= i < |parts| ==> IsToken(parts[i])
    ensures forall k, i :: 0 <= k < |parts| && 0 <= i < |parts[k]| ==> parts[k][i] !in WordBreaks
  {
    forall k, i | 0 <= k < |parts| && 0 <= i < |parts[k]|
      ensures parts[k][i] !in WordBreaks
    {
      assert IsToken(parts[k]);
    }
  }

  // --------------------------------------------------------------------------
  // Queries over the clip list

  function StartKey(c: Clip): real {
    c.startTime
  }

  predicate Active(c: Clip, t: real) {
    c.startTime <= t < c.endTime
  }

  /** getClipIndexAtTime: the first clip with start <= t < end, or -1. */
  function ClipIndexAtTime(clips: seq<Clip>, t: real): (r: int)
    ensures -1 <= r < |clips|
    ensures r >= 0 ==> Active(clips[r], t)
    ensures forall j :: 0 <= j < |clips| && (r < 0 || j < r) ==> !Active(clips[j], t)
  {
    if clips == [] then -1
    else if Active(clips[0], t) then 0
    else
      var r := ClipIndexAtTime(clips[1..], t);
      if r < 0 then -1 else r + 1
  }

  /** getTotalDuration: 0 without clips, otherwise the largest of 0 and every clip end. */
  function TotalDuration(clips: seq<Clip>): (r: real)
    ensures r >= 0.0
    ensures forall i :: 0 <= i < |clips| ==> clips[i].endTime <= r
    ensures r == 0.0 || exists i :: 0 <= i < |clips| && clips[i].endTime == r
  {
    if clips == [] then 0.0
    else
      var m := TotalDuration(clips[..|clips| - 1]);
      var e := clips[|clips| - 1].endTime;
      assert forall i :: 0 <= i < |clips| - 1 ==> clips[..|clips| - 1][i] == clips[i];
      if m >= e then m else e
  }

  predicate OverlapsNext(clips: seq<Clip>, i: int)
    requires 0 <= i < |clips| - 1
  {
    clips[i].endTime > clips[i + 1].startTime
  }

  /** hasOverlappingClips: some clip ends after the next one starts. */
  function HasOverlappingClips(clips: seq<Clip>): (r: bool)
    ensures r <==> exists i :: 0 <= i < |clips| - 1 && OverlapsNext(clips, i)
  {
    if |clips| < 2 then false
    else
      var rest := HasOverlappingClips(clips[1..]);
      OverlapShift(clips);
      OverlapsNext(clips, 0) || rest
  }

  lemma {:induction false} OverlapShift(clips: seq<Clip>)
    requires |clips| >= 2
    ensures (exists i :: 0 <= i < |clips| - 1 && OverlapsNext(clips, i)) <==>
            OverlapsNext(clips, 0) || exists i :: 0 <= i < |clips| - 2 && OverlapsNext(clips[1..], i)
  {
    if exists i :: 0 <= i < |clips| - 2 && OverlapsNext(clips[1..], i) {
      var i :| 0 <= i < |clips| - 2 && OverlapsNext(clips[1..], i);
      assert OverlapsNext(clips, i + 1);
    }
    if exists i :: 0 <= i < |clips| - 1 && OverlapsNext(clips, i) {
      var i :| 0 <= i < |clips| - 1 && OverlapsNext(clips, i);
      if i > 0 {
        assert OverlapsNext(clips[1..], i - 1);
      }
    }
  }

  predicate WellFormed(clips: seq<Clip>) {
    forall i :: 0 <= i < |clips| ==> clips[i].startTime <= clips[i].endTime
  }

  /** Without overlaps, every clip ends before any later clip starts. */
  lemma {:induction false} NoOverlapOrdersClips(clips: seq<Clip>, i: int, j: int)
    requires WellFormed(clips) && !HasOverlappingClips(clips)
    requires 0 <= i < j < |clips|
    ensures clips[i].endTime <= clips[j].startTime
    decreases j - i
  {
    assert !OverlapsNext(clips, i);
    if j > i + 1 {
      NoOverlapOrdersClips(clips, i + 1, j);
    }
  }

  /** Without overlaps, at most one clip is active at any time. */
  lemma {:induction false} AtMostOneActiveClip(clips: seq<Clip>, t: real, i: int, j: int)
    requires WellFormed(clips) && !HasOverlappingClips(clips)
    requires 0 <= i < |clips| && 0 <= j < |clips|
    requires Active(clips[i], t) && Active(clips[j], t)
    ensures i == j
  {
    if i < j {
      NoOverlapOrdersClips(clips, i, j);
    } else if j < i {
      NoOverlapOrdersClips(clips, j, i);
    }
  }

  /** Without overlaps, the total duration is the end time of the last clip. */
  lemma {:induction false} TotalDurationIsLastEnd(clips: seq<Clip>)
    requires WellFormed(clips) && !HasOverlappingClips(clips)
    requires clips != [] && clips[|clips| - 1].endTime >= 0.0
    ensures TotalDuration(clips) == clips[|clips| - 1].endTime
  {
    var last := |clips| - 1;
    forall i | 0 <= i < last
      ensures clips[i].endTime <= clips[last].endTime
    {
      NoOverlapOrdersClips(clips, i, last);
    }
  }

  // --------------------------------------------------------------------------
  // The project

  class NarrateProject {
    var projectName: string
    var clips: seq<Clip>

    constructor ()
      ensures projectName == "" && clips == []
    {
      projectName := "";
      clips := [];
    }

    method SetProjectName(name: string)
      modifies this
      ensures projectName == name && clips == old(clips)
    {
      projectName := name;
    }

    /** addClip: append, then sortClips. */
    method AddClip(c: Clip)
      modifies this
      ensures clips == SortBy(old(clips) + [c], StartKey)
      ensures SortedBy(clips, StartKey)
      ensures multiset(clips) == multiset(old(clips)) + multiset{c}
      ensures projectName == old(projectName)
    {
      clips := SortBy(clips + [c], StartKey);
    }

    /** insertClip: juce::Array::insert (appending when out of range), then sortClips. */
    method InsertClip(index: int, c: Clip)
      modifies this
      ensures SortedBy(clips, StartKey)
      ensures multiset(clips) == multiset(old(clips)) + multiset{c}
      ensures projectName == old(projectName)
    {
      var inserted := if 0 <= index <= |clips| then clips[..index] + [c] + clips[index..] else clips + [c];
      assert clips == clips[..if 0 <= index <= |clips| then index else |clips|] + clips[if 0 <= index <= |clips| then index else |clips|..];
      clips := SortBy(inserted, StartKey);
    }

    /** removeClip: no re-sorting; an out-of-range index changes nothing. */
    method RemoveClip(index: int)
      modifies this
      ensures 0 <= index < |old(clips)| ==> clips == old(clips)[..index] + old(clips)[index + 1..]
      ensures !(0 <= index < |old(clips)|) ==> clips == old(clips)
      ensures SortedBy(old(clips), StartKey) ==> SortedBy(clips, StartKey)
      ensures projectName == old(projectName)
    {
      if 0 <= index < |clips| {
        ghost var before := clips;
        clips := clips[..index] + clips[index + 1..];
        assert forall k :: 0 <= k < |clips| ==> clips[k] == before[if k < index then k else k + 1];
      }
    }

    method ClearClips()
      modifies this
      ensures clips == [] && projectName == old(projectName)
    {
      clips := [];
    }

    function GetNumClips(): (n: nat)
      reads this
      ensures n == |clips|
    {
      |clips|
    }

    /** getClipIndexAtTime, as its loop. */
    method GetClipIndexAtTime(t: real) returns (r: int)
      ensures r == ClipIndexAtTime(clips, t)
    {
      var i := 0;
      while i < |clips|
        invariant 0 <= i <= |clips|
        invariant forall j :: 0 <= j < i ==> !Active(clips[j], t)
      {
        if t >= clips[i].startTime && t < clips[i].endTime {
          ClipIndexUnique(clips, t, i);
          return i;
        }
        i := i + 1;
      }
      ClipIndexUnique(clips, t, -1);
      r := -1;
    }

    /** getTotalDuration, as its loop over jmax. */
    method GetTotalDuration() returns (r: real)
      ensures r == TotalDuration(clips)
    {
      if |clips| == 0 {
        return 0.0;
      }
      var maxEnd := 0.0;
      var i := 0;
      while i < |clips|
        invariant 0 <= i <= |clips|
        invariant maxEnd == TotalDuration(clips[..i])
      {
        assert clips[..i + 1][..i] == clips[..i];
        maxEnd := if maxEnd >= clips[i].endTime then maxEnd else clips[i].endTime;
        i := i + 1;
      }
      assert clips[..i] == clips;
      r := maxEnd;
    }

    /** hasOverlappingClips, as its loop over adjacent pairs. */
    method HasOverlapping() returns (r: bool)
      ensures r == HasOverlappingClips(clips)
    {
      var i := 0;
      while i < |clips| - 1
        invariant 0 <= i <= if |clips| == 0 then 0 else |clips| - 1
        invariant forall j :: 0 <= j < i ==> !OverlapsNext(clips, j)
      {
        if clips[i].endTime > clips[i + 1].startTime {
          assert OverlapsNext(clips, i);
          return true;
        }
        i := i + 1;
      }
      r := false;
    }
  }

  /** ClipIndexAtTime is determined by its contract. */
  lemma {:induction false} ClipIndexUnique(clips: seq<Clip>, t: real, r: int)
    requires -1 <= r < |clips|
    requires r >= 0 ==> Active(clips[r], t)
    requires forall j :: 0 <= j < |clips| && (r < 0 || j < r) ==> !Active(clips[j], t)
    ensures r == ClipIndexAtTime(clips, t)
  {
  }
}
