/**
 * WebVTT import: parseWebVTTCue reads one cue (an optional identifier line,
 * a timecode line "start --> end", then text lines up to a blank one), and
 * importWebVTT turns every parsed cue into a clip.
 *
 * The source splits the timecode line with fromTokens(line, "-->"), which
 * breaks at every '-' and every '>' rather than at the arrow; both readings
 * are modelled (ArrowSplit), and the import uses the reading at the arrow.
 */
module VttImport {
  import opened Wrappers
  import opened JuceText
  import opened Sorting
  import opened DataModel
  import opened SubtitleImport
  import opened ImportClips

  // --------------------------------------------------------------------------
  // Splitting a timecode line

  /** The break characters of `fromTokens(line, "-->", "")`. */
  const ArrowChars: set<char> := {'-', '>'}

  /** How the timecode line is cut: as the source does, or at each "-->". */
  datatype ArrowSplit = AsWritten | AtArrows

  /** The line cut at every occurrence of "-->", from left to right. */
  function SplitOnArrow(s: string): (parts: seq<string>)
    ensures |parts| >= 1
    decreases |s|
  {
    var k := IndexOf(s, "-->");
    if k < 0 then [s] else [s[..k]] + SplitOnArrow(s[k + 3..])
  }

  /** The parts joined back with "-->" between them. */
  function JoinArrows(parts: seq<string>): string
    requires |parts| >= 1
  {
    if |parts| == 1 then parts[0] else parts[0] + "-->" + JoinArrows(parts[1..])
  }

  /** Cutting at the arrows loses nothing, and no part holds an arrow. */
  lemma {:induction false} SplitOnArrowJoins(s: string)
    ensures JoinArrows(SplitOnArrow(s)) == s
    ensures forall j :: 0 <= j < |SplitOnArrow(s)| ==> !Contains(SplitOnArrow(s)[j], "-->")
    decreases |s|
  {
    var k := IndexOf(s, "-->");
    if k >= 0 {
      var rest := SplitOnArrow(s[k + 3..]);
      SplitOnArrowJoins(s[k + 3..]);
      assert SplitOnArrow(s) == [s[..k]] + rest;
      assert ([s[..k]] + rest)[1..] == rest;
      assert s == s[..k] + "-->" + s[k + 3..];
      NoEarlierArrow(s, k);
    }
  }

  /** The text before the first arrow holds no arrow. */
  lemma {:induction false} NoEarlierArrow(s: string, k: nat)
    requires k <= |s| && forall i :: 0 <= i < k ==> !OccursAt(s, "-->", i)
    ensures !Contains(s[..k], "-->")
  {
    var p := s[..k];
    var r := IndexOf(p, "-->");
    if r >= 0 {
      assert OccursAt(p, "-->", r);
      assert s[r..r + 3] == p[r..r + 3];
      assert OccursAt(s, "-->", r);
    }
  }

  /** The tokens the line is cut into. */
  function ArrowParts(t: string, split: ArrowSplit): seq<string> {
    match split
    case AsWritten => FromTokens(t, ArrowChars)
    case AtArrows => SplitOnArrow(t)
  }

  /** The outcome of the two-part check and, when it passes, the two timecodes read. */
  datatype CueTiming = NotTwoParts | CueTimes(start: real, end: real)

  function CueTimingOf(t: string, split: ArrowSplit): CueTiming {
    var parts := ArrowParts(t, split);
    if |parts| != 2 then NotTwoParts else CueTimes(ParseTimecode(parts[0]), ParseTimecode(parts[1]))
  }

  /**
   * As written, a line holding "-->" never passes the two-part check: its
   * three break characters alone give at least four tokens.
   */
  lemma {:induction false} ArrowLineHasFourTokens(t: string)
    requires Contains(t, "-->")
    ensures |FromTokens(t, ArrowChars)| >= 4
    ensures CueTimingOf(t, AsWritten) == NotTwoParts
  {
    assert CountIn("-->", ArrowChars) == 3 by {
      assert "-->"[1..] == "->" && "->"[1..] == ">" && ">"[1..] == [];
    }
    CountInOccurrence(t, "-->", IndexOf(t, "-->"), ArrowChars);
    SplitAllLength(t, ArrowChars);
  }

  /**
   * Cut at the arrow, a line "start --> end" whose two timecodes hold no
   * '-' is read as the two timecodes.
   */
  lemma {:induction false} ArrowLineReadsTimes(x: string, y: string)
    requires forall i :: 0 <= i < |x| ==> x[i] != '-'
    requires forall i :: 0 <= i < |y| ==> y[i] != '-'
    ensures SplitOnArrow(x + "-->" + y) == [x, y]
    ensures CueTimingOf(x + "-->" + y, AtArrows) == CueTimes(ParseTimecode(x), ParseTimecode(y))
  {
    var s := x + "-->" + y;
    assert OccursAt(s, "-->", |x|) by {
      assert s[|x|..|x| + 3] == "-->";
    }
    forall i | 0 <= i < |x|
      ensures !OccursAt(s, "-->", i)
    {
      assert s[i] == x[i];
    }
    assert IndexOf(s, "-->") == |x|;
    assert s[..|x|] == x;
    assert s[|x| + 3..] == y;
    NoDashNoArrow(y);
  }

  lemma {:induction false} NoDashNoArrow(y: string)
    requires forall i :: 0 <= i < |y| ==> y[i] != '-'
    ensures SplitOnArrow(y) == [y]
  {
    forall i | 0 <= i
      ensures !OccursAt(y, "-->", i)
    {
      if i + 3 <= |y| {
        assert y[i..i + 3][0] == y[i];
      }
    }
  }

  // --------------------------------------------------------------------------
  // Lines as the cue parser reads them

  /**
   * Everything parseWebVTTCue asks of one line: its trimmed text (a blank
   * line trims to nothing), whether that holds "-->", and the two-part
   * timecode reading of it.
   */
  datatype CueLine = CueLine(text: string, arrow: bool, timing: CueTiming)

  function CueLineOf(line: string, split: ArrowSplit): CueLine {
    var t := Trim(line);
    CueLine(t, Contains(t, "-->"), CueTimingOf(t, split))
  }

  /** The reading of every line; the non-empty case stands apart, as Views does. */
  function CueLines(lines: seq<string>, split: ArrowSplit): (cs: seq<CueLine>)
    ensures |cs| == |lines|
    decreases |lines|, 1
  {
    if lines == [] then [] else CueLinesOfNonEmpty(lines, split)
  }

  function CueLinesOfNonEmpty(lines: seq<string>, split: ArrowSplit): (cs: seq<CueLine>)
    requires lines != []
    ensures |cs| == |lines|
    decreases |lines|, 0
  {
    [CueLineOf(lines[0], split)] + CueLines(lines[1..], split)
  }

  lemma {:induction false} CueAt(lines: seq<string>, split: ArrowSplit, k: nat)
    requires k < |lines|
    ensures CueLines(lines, split)[k] == CueLineOf(lines[k], split)
    decreases k
  {
    assert CueLines(lines, split) == CueLinesOfNonEmpty(lines, split);
    if k > 0 {
      CueAt(lines[1..], split, k - 1);
    }
  }

  /** A line's trimmed text, which both loops test for emptiness and the text loop appends. */
  lemma {:induction false} CueTextAt(lines: seq<string>, split: ArrowSplit, k: nat)
    requires k < |lines|
    ensures CueLines(lines, split)[k].text == Trim(lines[k])
  {
    CueAt(lines, split, k);
  }

  /** Whether a line holds "-->", which tells a cue identifier from a timecode line. */
  lemma {:induction false} CueArrowAt(lines: seq<string>, split: ArrowSplit, k: nat)
    requires k < |lines|
    ensures CueLines(lines, split)[k].arrow <==> Contains(Trim(lines[k]), "-->")
  {
    CueAt(lines, split, k);
  }

  /** A line's timecode reading. */
  lemma {:induction false} CueTimingAt(lines: seq<string>, split: ArrowSplit, k: nat)
    requires k < |lines|
    ensures CueLines(lines, split)[k].timing == CueTimingOf(Trim(lines[k]), split)
  {
    CueAt(lines, split, k);
  }

  /** The first line at or after `i` that does not trim to nothing, or |cs|. */
  function SkipBlankCues(cs: seq<CueLine>, i: nat): (k: nat)
    requires i <= |cs|
    ensures i <= k <= |cs|
    ensures forall j :: i <= j < k ==> cs[j].text == []
    ensures k < |cs| ==> cs[k].text != []
    decreases |cs| - i
  {
    if i < |cs| && cs[i].text == [] then SkipBlankCues(cs, i + 1) else i
  }

  /** The first line at or after `i` that trims to nothing, or |cs|: where a cue's text ends. */
  function CueRunEnd(cs: seq<CueLine>, i: nat): (k: nat)
    requires i <= |cs|
    ensures i <= k <= |cs|
    ensures forall j :: i <= j < k ==> cs[j].text != []
    ensures k < |cs| ==> cs[k].text == []
    decreases |cs| - i
  {
    if i < |cs| && cs[i].text != [] then CueRunEnd(cs, i + 1) else i
  }

  /** The text loop of parseWebVTTCue from line `i` with `acc` gathered so far. */
  function CueText(cs: seq<CueLine>, i: nat, acc: string): string
    requires i <= |cs|
    decreases |cs| - i
  {
    if i < |cs| && cs[i].text != [] then CueText(cs, i + 1, AppendPiece(acc, cs[i].text)) else acc
  }

  /** One line of the text loop: a text line is appended and the run goes on after it. */
  lemma CueTextStep(cs: seq<CueLine>, i: nat, acc: string)
    requires i < |cs| && cs[i].text != []
    ensures CueText(cs, i, acc) == CueText(cs, i + 1, AppendPiece(acc, cs[i].text))
    ensures CueRunEnd(cs, i) == CueRunEnd(cs, i + 1)
  {
  }

  /** The trimmed text lines [from, to). */
  function CuePieces(cs: seq<CueLine>, from: nat, to: nat): (r: seq<string>)
    requires from <= to <= |cs|
    ensures |r| == to - from
  {
    seq(to - from, k requires 0 <= k < to - from => cs[from + k].text)
  }

  /**
   * The text loop gathers something exactly when there is a text line, and
   * then it is the trimmed text lines joined by single spaces.
   */
  lemma {:induction false} CueTextIsJoin(cs: seq<CueLine>, from: nat)
    requires from <= |cs|
    ensures CueText(cs, from, []) != [] <==> from < CueRunEnd(cs, from)
    ensures from < CueRunEnd(cs, from) ==> CueText(cs, from, []) == Join(CuePieces(cs, from, CueRunEnd(cs, from)), ' ')
  {
    var e := CueRunEnd(cs, from);
    if from < e {
      assert CuePieces(cs, from, from + 1) == [cs[from].text];
      assert CueText(cs, from, []) == CueText(cs, from + 1, cs[from].text);
      CueTextFrom(cs, from, from + 1);
      var pieces := CuePieces(cs, from, e);
      assert pieces[0] != [];
      JoinStartsWithFirst(pieces);
    }
  }

  lemma {:induction false} CueTextFrom(cs: seq<CueLine>, from: nat, i: nat)
    requires from < i <= |cs| && i <= CueRunEnd(cs, from)
    requires CueRunEnd(cs, i) == CueRunEnd(cs, from)
    ensures CueText(cs, i, Join(CuePieces(cs, from, i), ' ')) == Join(CuePieces(cs, from, CueRunEnd(cs, from)), ' ')
    decreases |cs| - i
  {
    if i < |cs| && cs[i].text != [] {
      PiecesStep(cs, from, i);
      CueTextStep(cs, i, Join(CuePieces(cs, from, i), ' '));
      CueTextFrom(cs, from, i + 1);
    }
  }

  /** Appending the next text line to the joined lines before it joins one more line. */
  lemma {:induction false} PiecesStep(cs: seq<CueLine>, from: nat, i: nat)
    requires from < i < |cs| && cs[from].text != []
    ensures AppendPiece(Join(CuePieces(cs, from, i), ' '), cs[i].text) == Join(CuePieces(cs, from, i + 1), ' ')
  {
    var pieces := CuePieces(cs, from, i);
    var longer := CuePieces(cs, from, i + 1);
    assert longer == pieces + [cs[i].text];
    assert Join(pieces, ' ') != [] by {
      assert pieces[0] != [];
      JoinStartsWithFirst(pieces);
    }
    JoinSnoc(pieces, cs[i].text, ' ');
  }

  lemma {:induction false} JoinStartsWithFirst(parts: seq<string>)
    requires |parts| >= 1
    ensures |Join(parts, ' ')| >= |parts[0]|
  {
  }

  // --------------------------------------------------------------------------
  // One cue

  /** parseWebVTTCue from lineIndex `i`: stop at the end, skip blank lines, read the cue there. */
  function VttCue(cs: seq<CueLine>, i: nat): (p: Parsed)
    ensures p.next >= i
    ensures i <= |cs| ==> p.next <= |cs|
    ensures p.ok ==> p.next > i
  {
    if i >= |cs| then Parsed(false, i, NoEntry)
    else VttCueAt(cs, SkipBlankCues(cs, i))
  }

  /** The timecode line of a cue starting at `s`: `s` itself, or the line after an identifier. */
  function TimingLine(cs: seq<CueLine>, s: nat): nat
    requires s < |cs|
  {
    if cs[s].arrow then s else s + 1
  }

  /**
   * parseWebVTTCue once blank lines are skipped up to `s`: fail at the end;
   * a line without "-->" is an identifier, skipped unless it is the last.
   */
  function VttCueAt(cs: seq<CueLine>, s: nat): (p: Parsed)
    requires s <= |cs|
    ensures s <= p.next <= |cs|
    ensures p.ok ==> p.next > s
  {
    if s >= |cs| then Parsed(false, s, NoEntry)
    else
      var t := TimingLine(cs, s);
      if t >= |cs| then Parsed(false, t, NoEntry) else VttTimedCue(cs, t)
  }

  /**
   * The rest of parseWebVTTCue at the timecode line `t`: fail there when the
   * line is not two parts; read both times and move past the line; fail when
   * a time is negative; else gather the text up to the next blank line and
   * succeed when there is some. The cue's index is never set (the entry
   * keeps the 0 of NoEntry); no import reads it.
   */
  function VttTimedCue(cs: seq<CueLine>, t: nat): (p: Parsed)
    requires t < |cs|
    ensures t <= p.next <= |cs|
    ensures p.ok ==> p.next > t
  {
    match cs[t].timing
    case NotTwoParts => Parsed(false, t, NoEntry)
    case CueTimes(a, b) =>
      if a < 0.0 || b < 0.0 then Parsed(false, t + 1, NoEntry)
      else
        var text := CueText(cs, t + 1, []);
        Parsed(text != [], CueRunEnd(cs, t + 1), NoEntry.(startTime := a, endTime := b, text := text))
  }

  /**
   * A parsed cue: its timecode line read as two non-negative times, the
   * entry's times are those, and its text is the trimmed text lines after
   * the timecode line, at least one, joined by single spaces; parsing
   * stopped at the blank line (or the end) after them.
   */
  lemma {:induction false} VttCueShape(cs: seq<CueLine>, i: nat)
    requires VttCue(cs, i).ok
    ensures var s := SkipBlankCues(cs, i);
            var p := VttCue(cs, i);
            s < |cs| && TimingLine(cs, s) + 1 < p.next &&
            var t := TimingLine(cs, s);
            cs[t].timing == CueTimes(p.entry.startTime, p.entry.endTime) &&
            p.entry.startTime >= 0.0 && p.entry.endTime >= 0.0 &&
            p.next == CueRunEnd(cs, t + 1) &&
            p.entry.text == Join(CuePieces(cs, t + 1, p.next), ' ')
  {
    var s := SkipBlankCues(cs, i);
    var t := TimingLine(cs, s);
    TimedCueShape(cs, t);
    CueTextIsJoin(cs, t + 1);
  }

  lemma {:induction false} TimedCueShape(cs: seq<CueLine>, t: nat)
    requires t < |cs| && VttTimedCue(cs, t).ok
    ensures var p := VttTimedCue(cs, t);
            cs[t].timing == CueTimes(p.entry.startTime, p.entry.endTime) &&
            p.entry.startTime >= 0.0 && p.entry.endTime >= 0.0 &&
            p.next == CueRunEnd(cs, t + 1) && p.entry.text == CueText(cs, t + 1, [])
  {
  }

  /**
   * As written, no cue whose timecode line holds "-->" is ever parsed: a
   * parsed cue's timecode line was some other line that happened to split
   * into two tokens.
   */
  lemma {:induction false} AsWrittenSkipsArrowLines(lines: seq<string>, i: nat)
    requires VttCue(CueLines(lines, AsWritten), i).ok
    ensures var cs := CueLines(lines, AsWritten);
            var t := TimingLine(cs, SkipBlankCues(cs, i));
            t < |lines| && !Contains(Trim(lines[t]), "-->")
  {
    var cs := CueLines(lines, AsWritten);
    var t := TimingLine(cs, SkipBlankCues(cs, i));
    VttCueShape(cs, i);
    CueTimingAt(lines, AsWritten, t);
    if Contains(Trim(lines[t]), "-->") {
      ArrowLineHasFourTokens(Trim(lines[t]));
    }
  }

  /**
   * Cut at the arrow, a parsed cue's timecode line is two timecodes around
   * a single "-->", and the entry's times are those timecodes read.
   */
  lemma {:induction false} AtArrowsReadsTimecodes(lines: seq<string>, i: nat)
    requires VttCue(CueLines(lines, AtArrows), i).ok
    ensures var cs := CueLines(lines, AtArrows);
            var t := TimingLine(cs, SkipBlankCues(cs, i));
            var e := VttCue(cs, i).entry;
            t < |lines| &&
            var parts := SplitOnArrow(Trim(lines[t]));
            |parts| == 2 && Trim(lines[t]) == parts[0] + "-->" + parts[1] &&
            !Contains(parts[0], "-->") && !Contains(parts[1], "-->") &&
            e.startTime == ParseTimecode(parts[0]) && e.endTime == ParseTimecode(parts[1])
  {
    var cs := CueLines(lines, AtArrows);
    var t := TimingLine(cs, SkipBlankCues(cs, i));
    VttCueShape(cs, i);
    CueTimingAt(lines, AtArrows, t);
    var parts := SplitOnArrow(Trim(lines[t]));
    SplitOnArrowJoins(Trim(lines[t]));
    assert parts[1..] == [parts[1]];
  }

  /**
   * As written, a parse that reaches a timecode line holding "-->" fails
   * there without moving past it, and a parse started at that line does the
   * same: importWebVTT's loop, which only moves on through the parser,
   * stays at that line for ever.
   */
  lemma {:induction false} AsWrittenStallsAtArrowLine(lines: seq<string>, i: nat)
    requires i < |lines|
    requires var cs := CueLines(lines, AsWritten);
             var k := SkipBlankCues(cs, i);
             k < |cs| && Contains(Trim(lines[k]), "-->")
    ensures var cs := CueLines(lines, AsWritten);
            var k := SkipBlankCues(cs, i);
            VttCue(cs, i) == Parsed(false, k, NoEntry) && VttCue(cs, k) == VttCue(cs, i)
  {
    var cs := CueLines(lines, AsWritten);
    var k := SkipBlankCues(cs, i);
    CueArrowAt(lines, AsWritten, k);
    CueTimingAt(lines, AsWritten, k);
    ArrowLineHasFourTokens(Trim(lines[k]));
    assert SkipBlankCues(cs, k) == k;
  }

  /** The cue line of the smallest WebVTT file. */
  const FirstCueLine: string := "00:00:01.000 --> 00:00:02.000"

  lemma {:induction false} FirstCueLineHasArrow()
    ensures Trim(FirstCueLine) == FirstCueLine && Contains(FirstCueLine, "-->")
  {
    var a := "00:00:01.000 ";
    var b := " 00:00:02.000";
    assert FirstCueLine == a + "-->" + b;
    assert (a + "-->" + b)[|a|..|a| + 3] == "-->";
    assert OccursAt(FirstCueLine, "-->", |a|);
    TrimStartNoop(FirstCueLine);
    TrimEndNoop(FirstCueLine);
  }

  /** The smallest WebVTT file, one cue after the header: the parse from line 1 is stuck at line 2. */
  lemma {:induction false} AsWrittenStallExample()
    ensures var lines := [Header, "", FirstCueLine, "Hello"];
            var cs := CueLines(lines, AsWritten);
            VttCue(cs, 1) == Parsed(false, 2, NoEntry) && VttCue(cs, 2) == Parsed(false, 2, NoEntry)
  {
    var lines := [Header, "", FirstCueLine, "Hello"];
    var cs := CueLines(lines, AsWritten);
    FirstCueLineHasArrow();
    CueTextAt(lines, AsWritten, 1);
    CueTextAt(lines, AsWritten, 2);
    assert Trim("") == [];
    assert SkipBlankCues(cs, 1) == 2;
    AsWrittenStallsAtArrowLine(lines, 1);
  }

  // --------------------------------------------------------------------------
  // The importer's loop

  /**
   * The cues the corrected loop parses from lineIndex `i` on: take a parsed
   * cue and go on where the parser stopped, or go on one line after where a
   * failed parse stopped, as importSRT does.
   */
  function VttEntries(cs: seq<CueLine>, i: nat): seq<SubtitleEntry>
    decreases |cs| + 1 - i
  {
    if i >= |cs| then []
    else
      var p := VttCue(cs, i);
      Taken(p) + VttEntries(cs, Resume(p))
  }

  /** The cue a parse contributes: its entry when it succeeded, nothing otherwise. */
  function Taken(p: Parsed): seq<SubtitleEntry> {
    if p.ok then [p.entry] else []
  }

  /** Where the loop goes on after a parse: where it stopped, or one line later after a failure. */
  function Resume(p: Parsed): nat {
    if p.ok then p.next else p.next + 1
  }

  /**
   * One step of VttEntries from a line before the end, with its parse `p`:
   * the cue it parsed, if any, joins those already taken, and the loop goes
   * on from where the parse leaves it.
   */
  lemma {:induction false} VttEntriesStep(cs: seq<CueLine>, i: nat, p: Parsed, done: seq<SubtitleEntry>)
    requires i < |cs| && p == VttCue(cs, i)
    ensures (done + Taken(p)) + VttEntries(cs, Resume(p)) == done + VttEntries(cs, i)
  {
    AppendAssoc(done, Taken(p), VttEntries(cs, Resume(p)));
  }

  /** Two valid times and some text. */
  predicate ValidCue(e: SubtitleEntry) {
    e.startTime >= 0.0 && e.endTime >= 0.0 && e.text != []
  }

  /** Every imported cue has two valid times and some text. */
  lemma {:induction false} VttEntriesValid(cs: seq<CueLine>, i: nat)
    ensures forall e :: e in VttEntries(cs, i) ==> ValidCue(e)
    decreases |cs| + 1 - i
  {
    if i < |cs| {
      var p := VttCue(cs, i);
      VttEntriesValid(cs, Resume(p));
      if p.ok {
        VttCueShape(cs, i);
        JoinStartsWithFirst(CuePieces(cs, TimingLine(cs, SkipBlankCues(cs, i)) + 1, p.next));
      }
    }
  }

  // --------------------------------------------------------------------------
  // The cue parser, step by step

  /** `while (lineIndex < lines.size() && lines[lineIndex].trim().isEmpty()) ++lineIndex;` */
  method SkipBlankCueLines(lines: seq<string>, split: ArrowSplit, lineIndex0: nat) returns (lineIndex: nat)
    requires lineIndex0 <= |lines|
    ensures lineIndex == SkipBlankCues(CueLines(lines, split), lineIndex0)
  {
    lineIndex := lineIndex0;
    while lineIndex < |lines| && Trim(lines[lineIndex]) == []
      invariant lineIndex0 <= lineIndex <= |lines|
      invariant SkipBlankCues(CueLines(lines, split), lineIndex) == SkipBlankCues(CueLines(lines, split), lineIndex0)
    {
      CueTextAt(lines, split, lineIndex);
      lineIndex := lineIndex + 1;
    }
    if lineIndex < |lines| {
      CueTextAt(lines, split, lineIndex);
    }
  }

  /** `cs` records the trimmed text of every line. */
  predicate TextsOf(cs: seq<CueLine>, lines: seq<string>) {
    |cs| == |lines| && forall k :: 0 <= k < |lines| ==> cs[k].text == Trim(lines[k])
  }

  lemma {:induction false} CueLinesTexts(lines: seq<string>, split: ArrowSplit)
    ensures TextsOf(CueLines(lines, split), lines)
  {
    forall k | 0 <= k < |lines|
      ensures CueLines(lines, split)[k].text == Trim(lines[k])
    {
      CueTextAt(lines, split, k);
    }
  }

  /**
   * The text loop of parseWebVTTCue over lines whose trimmed texts `cs`
   * records: append trimmed lines up to the next blank one.
   */
  method GatherCueText(lines: seq<string>, ghost cs: seq<CueLine>, from: nat) returns (textContent: string, lineIndex: nat)
    requires TextsOf(cs, lines) && from <= |lines|
    ensures lineIndex == CueRunEnd(cs, from)
    ensures textContent == CueText(cs, from, [])
  {
    textContent := [];
    lineIndex := from;
    while lineIndex < |lines| && Trim(lines[lineIndex]) != []
      invariant from <= lineIndex <= |lines|
      invariant CueRunEnd(cs, lineIndex) == CueRunEnd(cs, from)
      invariant CueText(cs, lineIndex, textContent) == CueText(cs, from, [])
    {
      CueTextStep(cs, lineIndex, textContent);
      ghost var before := textContent;
      if textContent != [] {
        textContent := textContent + " ";
      }
      textContent := textContent + Trim(lines[lineIndex]);
      assert textContent == AppendPiece(before, cs[lineIndex].text);
      lineIndex := lineIndex + 1;
    }
  }

  /**
   * parseWebVTTCue with its by-reference lineIndex as an in and an out
   * parameter, cutting the timecode line as `split` says. On failure the
   * entry holds whatever was parsed so far.
   */
  method ParseWebVTTCue(lines: seq<string>, split: ArrowSplit, lineIndex0: nat) returns (ok: bool, lineIndex: nat, entry: SubtitleEntry)
    ensures ok == VttCue(CueLines(lines, split), lineIndex0).ok
    ensures lineIndex == VttCue(CueLines(lines, split), lineIndex0).next
    ensures ok ==> entry == VttCue(CueLines(lines, split), lineIndex0).entry
  {
    lineIndex := lineIndex0;
    entry := NoEntry;
    if lineIndex >= |lines| {
      return false, lineIndex, entry;
    }
    lineIndex := SkipBlankCueLines(lines, split, lineIndex);
    if lineIndex >= |lines| {
      return false, lineIndex, entry;
    }
    CueArrowAt(lines, split, lineIndex);
    var currentLine := Trim(lines[lineIndex]);
    if !Contains(currentLine, "-->") {
      lineIndex := lineIndex + 1;
      if lineIndex >= |lines| {
        return false, lineIndex, entry;
      }
      currentLine := Trim(lines[lineIndex]);
    }
    ok, lineIndex, entry := ParseCueTimes(lines, split, lineIndex, currentLine);
  }

  /** The rest of parseWebVTTCue from the timecode line `t`, whose trimmed text is `currentLine`. */
  method ParseCueTimes(lines: seq<string>, split: ArrowSplit, t: nat, currentLine: string)
    returns (ok: bool, lineIndex: nat, entry: SubtitleEntry)
    requires t < |lines| && currentLine == Trim(lines[t])
    ensures ok == VttTimedCue(CueLines(lines, split), t).ok
    ensures lineIndex == VttTimedCue(CueLines(lines, split), t).next
    ensures ok ==> entry == VttTimedCue(CueLines(lines, split), t).entry
  {
    CueTimingAt(lines, split, t);
    entry := NoEntry;
    lineIndex := t;
    var timecodes := ArrowParts(currentLine, split);
    if |timecodes| != 2 {
      return false, lineIndex, entry;
    }
    entry := entry.(startTime := ParseTimecode(timecodes[0]), endTime := ParseTimecode(timecodes[1]));
    lineIndex := lineIndex + 1;
    if entry.startTime < 0.0 || entry.endTime < 0.0 {
      return false, lineIndex, entry;
    }
    var textContent;
    CueLinesTexts(lines, split);
    textContent, lineIndex := GatherCueText(lines, CueLines(lines, split), lineIndex);
    entry := entry.(text := textContent);
    ok := textContent != [];
  }

  // --------------------------------------------------------------------------
  // The import

  /**
   * One pass of importWebVTT's loop from line `lineIndex`, up to adding the
   * clip: a cue that parses is taken and the loop goes on after it;
   * otherwise one more line is skipped.  The cues taken so far and those
   * still to come are unchanged.
   */
  method NextCue(lines: seq<string>, ghost cs: seq<CueLine>, lineIndex: nat, ghost done: seq<SubtitleEntry>)
    returns (found: bool, entry: SubtitleEntry, next: nat, ghost done': seq<SubtitleEntry>)
    requires cs == CueLines(lines, AtArrows) && 1 <= lineIndex < |lines|
    ensures lineIndex < next <= |lines| + 1
    ensures done' == if found then done + [entry] else done
    ensures done' + VttEntries(cs, next) == done + VttEntries(cs, lineIndex)
  {
    var after;
    found, after, entry := ParseWebVTTCue(lines, AtArrows, lineIndex);
    ghost var p := VttCue(cs, lineIndex);
    VttEntriesStep(cs, lineIndex, p, done);
    if found {
      done' := done + [entry];
      next := after;
    } else {
      done' := done;
      next := after + 1;
    }
    assert done' == done + Taken(p) && next == Resume(p);
  }

  /** One pass of importWebVTT's loop, adding the clip of the cue it parses. */
  method TakeCue(project: NarrateProject, lines: seq<string>, ghost cs: seq<CueLine>, lineIndex: nat, ghost done: seq<SubtitleEntry>)
    returns (next: nat, ghost done': seq<SubtitleEntry>)
    requires cs == CueLines(lines, AtArrows) && 1 <= lineIndex < |lines|
    requires project.clips == SortBy(EntryClips(done), StartKey)
    modifies project
    ensures lineIndex < next <= |lines| + 1
    ensures done' + VttEntries(cs, next) == done + VttEntries(cs, lineIndex)
    ensures project.clips == SortBy(EntryClips(done'), StartKey)
    ensures project.projectName == old(project.projectName)
  {
    var found, entry;
    found, entry, next, done' := NextCue(lines, cs, lineIndex, done);
    if found {
      AddEntryClip(project, done, entry);
    }
  }

  /**
   * The loop of importWebVTT over a cleared project, from the line after
   * the header, with the timecode line cut at its arrow and one line skipped
   * after a failed cue: every cue VttEntries finds becomes a clip.
   */
  method AddVttClips(lines: seq<string>, project: NarrateProject)
    requires project.clips == []
    modifies project
    ensures project.clips == SortBy(EntryClips(VttEntries(CueLines(lines, AtArrows), 1)), StartKey)
    ensures project.projectName == old(project.projectName)
  {
    ghost var cs := CueLines(lines, AtArrows);
    var lineIndex := 1;
    ghost var done: seq<SubtitleEntry> := [];
    while lineIndex < |lines|
      invariant 1 <= lineIndex <= |lines| + 1
      invariant VttEntries(cs, 1) == done + VttEntries(cs, lineIndex)
      invariant project.clips == SortBy(EntryClips(done), StartKey)
      invariant project.projectName == old(project.projectName)
      decreases |lines| + 1 - lineIndex
    {
      lineIndex, done := TakeCue(project, lines, cs, lineIndex, done);
    }
    assert done + [] == done;
  }

  /** The header every WebVTT file starts with. */
  const Header: string := "WEBVTT"

  /**
   * importWebVTT with the file as its contents (None for a file that does
   * not exist) and its name without extension: a missing or empty file, or
   * one that does not start with the header, changes nothing and fails;
   * otherwise the project is replaced by one with that name holding the
   * parsed cues' clips, and the import succeeds when there is at least one.
   */
  method ImportWebVTT(file: Option<string>, fileName: string, project: NarrateProject) returns (ok: bool)
    modifies project
    ensures (file.None? || file.value == [] || !StartsWith(file.value, Header)) ==>
              !ok && project.clips == old(project.clips) && project.projectName == old(project.projectName)
    ensures file.Some? && file.value != [] && StartsWith(file.value, Header) ==>
              project.projectName == fileName &&
              project.clips == SortBy(EntryClips(VttEntries(CueLines(FromLines(file.value), AtArrows), 1)), StartKey) &&
              (ok <==> VttEntries(CueLines(FromLines(file.value), AtArrows), 1) != [])
  {
    if file.None? {
      return false;
    }
    var content := file.value;
    if content == [] || !StartsWith(content, Header) {
      return false;
    }
    project.ClearClips();
    project.SetProjectName(fileName);
    var lines := FromLines(content);
    AddVttClips(lines, project);
    ok := project.GetNumClips() > 0;
  }
}
