/**
 * Subtitle and plain-text import: timecode parsing, the SRT entry parser
 * and import loop, the WebVTT cue parser and import loop, the even spacing
 * of words inside an imported clip, plain-text paragraph timing and format
 * detection.  A file is its content (`None` when it does not exist); the
 * line-by-line parsers work on the `seq<string>` that fromLines produces.
 */
module SubtitleImport {
  import opened Wrappers
  import opened JuceText
  import opened Sorting
  import opened DataModel

  // --------------------------------------------------------------------------
  // Timecodes

  const Colon: set<char> := {':'}

  /** The fields parseTimecode reads: trimmed, ',' turned into '.', split at ':'. */
  function TimecodeFields(s: string): seq<string> {
    FromTokens(ReplaceChar(Trim(s), ',', "."), Colon)
  }

  /** parseTimecode: hours * 3600 + minutes * 60 + seconds, or -1 without exactly three fields. */
  function ParseTimecode(s: string): real {
    var f := TimecodeFields(s);
    if |f| != 3 then -1.0
    else GetIntValue(f[0]) as real * 3600.0 + GetIntValue(f[1]) as real * 60.0 + GetDoubleValue(f[2])
  }

  /** HH:MM:SS<sep>mmm with zero-padded fields, the shape both subtitle formats write. */
  function TimecodeText(h: nat, m: nat, s: nat, ms: nat, sep: char): string {
    ZeroPad(h, 2) + ":" + ZeroPad(m, 2) + ":" + ZeroPad(s, 2) + [sep] + ZeroPad(ms, 3)
  }

  /** There are three fields exactly when the string holds two colons. */
  lemma {:induction false} TimecodeFieldCount(s: string)
    ensures |TimecodeFields(s)| == 3 <==> CountIn(s, Colon) == 2
  {
    var r := ReplaceChar(Trim(s), ',', ".");
    CountInTrim(s, Colon);
    assert CountIn(".", Colon) == 0;
    ReplaceCharCount(Trim(s), ',', ".", Colon);
    if r != [] {
      SplitAllLength(r, Colon);
    }
  }

  /** Without two colons the result is the error value -1. */
  lemma {:induction false} TimecodeNeedsTwoColons(s: string)
    requires CountIn(s, Colon) != 2
    ensures ParseTimecode(s) == -1.0
  {
    TimecodeFieldCount(s);
  }

  /** The SRT comma and the WebVTT period before the milliseconds read the same. */
  lemma {:induction false} TimecodeSeparatorsAgree(s: string)
    ensures ParseTimecode(ReplaceChar(s, ',', ".")) == ParseTimecode(s)
  {
    TrimStartReplace(s, ',', '.');
    TrimEndReplace(TrimStart(s), ',', '.');
    assert Trim(ReplaceChar(s, ',', ".")) == ReplaceChar(Trim(s), ',', ".");
    ReplaceCharIdempotent(Trim(s), ',', ".");
  }

  /** A zero-padded HH:MM:SS,mmm or HH:MM:SS.mmm reads back as its value in seconds. */
  lemma {:induction false} ParseTimecodeText(h: nat, m: nat, s: nat, ms: nat, sep: char)
    requires ms < 1000 && (sep == ',' || sep == '.')
    ensures ParseTimecode(TimecodeText(h, m, s, ms, sep)) ==
            h as real * 3600.0 + m as real * 60.0 + s as real + ms as real / 1000.0
  {
    TimecodeTextFields(h, m, s, ms, sep);
    IntValueOfZeroPad(h, 2);
    IntValueOfZeroPad(m, 2);
    DoubleValueOfSecondsAndMillis(s, ms);
  }

  lemma {:induction false} TimecodeTextFields(h: nat, m: nat, s: nat, ms: nat, sep: char)
    requires sep == ',' || sep == '.'
    ensures TimecodeFields(TimecodeText(h, m, s, ms, sep)) ==
            [ZeroPad(h, 2), ZeroPad(m, 2), ZeroPad(s, 2) + "." + ZeroPad(ms, 3)]
  {
    DigitFields(ZeroPad(h, 2), ZeroPad(m, 2), ZeroPad(s, 2), ZeroPad(ms, 3), sep);
  }

  /** The fields of hh:mm:ss<sep>mmm for digit strings, whichever separator is used. */
  lemma {:induction false} DigitFields(hh: string, mm: string, ss: string, mmm: string, sep: char)
    requires sep == ',' || sep == '.'
    requires hh != [] && mmm != [] && AllDigits(hh) && AllDigits(mm) && AllDigits(ss) && AllDigits(mmm)
    ensures TimecodeFields(hh + ":" + mm + ":" + ss + [sep] + mmm) == [hh, mm, ss + "." + mmm]
  {
    var t := hh + ":" + mm + ":" + ss + [sep] + mmm;
    var p := hh + ":" + mm + ":" + ss;
    assert Trim(t) == t by {
      assert t[0] == hh[0];
      TrimStartNoop(t);
      assert t[|t| - 1] == mmm[|mmm| - 1];
      TrimEndNoop(t);
    }
    NoCommaInFields(hh, mm, ss);
    ReplaceDecimalSeparator(p, sep, mmm);
    var secs := ss + "." + mmm;
    assert p + "." + mmm == hh + ":" + mm + ":" + secs;
    NoColonInSeconds(ss, mmm);
    ThreeFields(hh, mm, secs);
  }

  lemma {:induction false} NoColonInSeconds(ss: string, mmm: string)
    requires AllDigits(ss) && AllDigits(mmm)
    ensures forall i :: 0 <= i < |ss + "." + mmm| ==> (ss + "." + mmm)[i] != ':'
  {
    var c := ss + "." + mmm;
    forall i | 0 <= i < |c|
      ensures c[i] != ':'
    {
      if i < |ss| {
        assert c[i] == ss[i];
      } else if i > |ss| {
        assert c[i] == mmm[i - |ss| - 1];
      }
    }
  }

  lemma {:induction false} NoCommaInFields(a: string, b: string, c: string)
    requires AllDigits(a) && AllDigits(b) && AllDigits(c)
    ensures forall i :: 0 <= i < |a + ":" + b + ":" + c| ==> (a + ":" + b + ":" + c)[i] != ','
  {
    var p := a + ":" + b + ":" + c;
    forall i | 0 <= i < |p|
      ensures p[i] != ','
    {
      if i < |a| {
        assert p[i] == a[i];
      } else if i == |a| {
        assert p[i] == ':';
      } else if i < |a| + 1 + |b| {
        assert p[i] == b[i - |a| - 1];
      } else if i == |a| + 1 + |b| {
        assert p[i] == ':';
      } else {
        assert p[i] == c[i - |a| - |b| - 2];
      }
    }
  }

  /** Turning the separator of `p + [sep] + q` into '.' when neither side holds a comma. */
  lemma {:induction false} ReplaceDecimalSeparator(p: string, sep: char, q: string)
    requires sep == ',' || sep == '.'
    requires forall i :: 0 <= i < |p| ==> p[i] != ','
    requires AllDigits(q)
    ensures ReplaceChar(p + [sep] + q, ',', ".") == p + "." + q
  {
    ReplaceCharAppend(p + [sep], q, ',', ".");
    ReplaceCharAppend(p, [sep], ',', ".");
    ReplaceCharAbsent(p, ',', ".");
    ReplaceCharAbsent(q, ',', ".");
    assert ReplaceChar([sep], ',', ".") == "." by {
      assert [sep][1..] == [];
    }
  }

  /** Splitting a + ":" + b + ":" + c at colons when the parts hold no colon and no comma. */
  lemma {:induction false} ThreeFields(a: string, b: string, c: string)
    requires a != [] && AllDigits(a) && AllDigits(b)
    requires forall i :: 0 <= i < |c| ==> c[i] != ':'
    ensures SplitAll(a + ":" + b + ":" + c, Colon) == [a, b, c]
    ensures FromTokens(a + ":" + b + ":" + c, Colon) == [a, b, c]
  {
    var parts := [a, b, c];
    assert Join(parts, ':') == a + ":" + b + ":" + c by {
      assert parts[1..] == [b, c];
      assert [b, c][1..] == [c];
      assert Join([c], ':') == c;
      assert Join([b, c], ':') == b + ":" + c;
    }
    SplitJoin(parts, ':', Colon);
  }

  /** Values the timecode parser gives on the forms its users write. */
  lemma {:induction false} TimecodeExamples()
    ensures ParseTimecode("invalid") == -1.0
    ensures ParseTimecode("12:34") == -1.0
    ensures ParseTimecode("") == -1.0
  {
    assert CountIn("invalid", Colon) == 0;
    TimecodeNeedsTwoColons("invalid");
    assert CountIn("12:34", Colon) == 1;
    TimecodeNeedsTwoColons("12:34");
    TimecodeNeedsTwoColons("");
  }

  lemma {:induction false} PadExamples()
    ensures ZeroPad(0, 2) == "00" && ZeroPad(1, 2) == "01" && ZeroPad(0, 3) == "000"
  {
    assert NatToString(0) == "0" && NatToString(1) == "1";
    assert Zeros(1) == "0" && Zeros(2) == "00";
  }

  lemma {:induction false} TwoDigitPad(n: nat)
    requires 10 <= n < 100
    ensures ZeroPad(n, 2) == [DigitChar(n / 10), DigitChar(n % 10)]
  {
    assert NatToString(n / 10) == [DigitChar(n / 10)];
  }

  lemma {:induction false} MillisPad()
    ensures ZeroPad(500, 3) == "500"
  {
    assert NatToString(50) == "50" by { TwoDigitPad(50); }
  }

  lemma {:induction false} TimecodeExampleText()
    ensures TimecodeText(0, 1, 30, 500, ',') == "00:01:30,500"
  {
    PadExamples();
    TwoDigitPad(30);
    MillisPad();
  }

  lemma {:induction false} TimecodeTextExamples()
    ensures ParseTimecode("00:01:30,500") == 90.5
  {
    TimecodeExampleText();
    ParseTimecodeText(0, 1, 30, 500, ',');
  }

  // --------------------------------------------------------------------------
  // Lines as the parsers read them

  /** The entry value on failure paths (the source leaves it partly filled; callers ignore it). */
  datatype SubtitleEntry = SubtitleEntry(index: int, startTime: real, endTime: real, text: string)

  /** The outcome of reading a timecode line. */
  datatype Timing = NoArrow | Times(start: real, end: real)

  /**
   * Everything the subtitle parsers ask of one line: whether it trims to
   * nothing, its trimmed integer value (an SRT index line), its trimmed
   * timecode reading (an SRT timecode line) and its cleaned text (an SRT text
   * line).
   */
  datatype LineView = LineView(blank: bool, number: int, timing: Timing, clean: string)

  function ViewOf(line: string): LineView {
    LineView(IsBlank(line), GetIntValue(Trim(line)), ArrowTimes(Trim(line)), CleanLine(line))
  }

  /**
   * The view of every line, in order. The non-empty case is a function of
   * its own, so that the verifier meets a line's view only where a proof
   * asks for it through ViewAt.
   */
  function Views(lines: seq<string>): (vs: seq<LineView>)
    ensures |vs| == |lines|
    decreases |lines|, 1
  {
    if lines == [] then [] else ViewsOfNonEmpty(lines)
  }

  function ViewsOfNonEmpty(lines: seq<string>): (vs: seq<LineView>)
    requires lines != []
    ensures |vs| == |lines|
    decreases |lines|, 0
  {
    [ViewOf(lines[0])] + Views(lines[1..])
  }

  lemma {:induction false} ViewAt(lines: seq<string>, k: nat)
    requires k < |lines|
    ensures Views(lines)[k] == ViewOf(lines[k])
    decreases k
  {
    assert Views(lines) == ViewsOfNonEmpty(lines);
    if k > 0 {
      ViewAt(lines[1..], k - 1);
    }
  }

  /** A line's cleaned text, as the SRT text loop computes it. */
  lemma {:induction false} CleanAt(lines: seq<string>, k: nat)
    requires k < |lines|
    ensures Views(lines)[k].clean == CleanLine(lines[k])
  {
    ViewAt(lines, k);
  }

  /** A line's timecode reading, as the SRT parser computes it. */
  lemma {:induction false} TimingAt(lines: seq<string>, k: nat)
    requires k < |lines|
    ensures Views(lines)[k].timing == ArrowTimes(Trim(lines[k]))
  {
    ViewAt(lines, k);
  }

  /** A line's integer value, as the SRT parser reads an index line. */
  lemma {:induction false} NumberAt(lines: seq<string>, k: nat)
    requires k < |lines|
    ensures Views(lines)[k].number == GetIntValue(Trim(lines[k]))
  {
    ViewAt(lines, k);
  }

  /** The test both parsers' loops make: `lines[i].trim().isEmpty()`. */
  lemma {:induction false} BlankAt(lines: seq<string>, k: nat)
    requires k < |lines|
    ensures Views(lines)[k].blank <==> Trim(lines[k]) == []
  {
    ViewAt(lines, k);
    BlankIffTrimEmpty(lines[k]);
  }

  /** The first line at or after `i` that is not blank, or |vs|. */
  function SkipBlankLines(vs: seq<LineView>, i: nat): (k: nat)
    requires i <= |vs|
    ensures i <= k <= |vs|
    ensures forall j :: i <= j < k ==> vs[j].blank
    ensures k < |vs| ==> !vs[k].blank
    decreases |vs| - i
  {
    if i < |vs| && vs[i].blank then SkipBlankLines(vs, i + 1) else i
  }

  /** The first blank line at or after `i`, or |vs|: where a block of text ends. */
  function TextRunEnd(vs: seq<LineView>, i: nat): (k: nat)
    requires i <= |vs|
    ensures i <= k <= |vs|
    ensures forall j :: i <= j < k ==> !vs[j].blank
    ensures k < |vs| ==> vs[k].blank
    decreases |vs| - i
  {
    if i < |vs| && !vs[i].blank then TextRunEnd(vs, i + 1) else i
  }

  // --------------------------------------------------------------------------
  // Accumulating text

  /** `text += " "` unless text is empty, then `text += piece`. */
  function AppendPiece(text: string, piece: string): string {
    if text == [] then piece else text + " " + piece
  }

  /** The text a parser accumulates from its pieces, in order. */
  function Gather(pieces: seq<string>): string {
    if pieces == [] then [] else AppendPiece(Gather(pieces[..|pieces| - 1]), pieces[|pieces| - 1])
  }

  /** With no empty piece, the accumulated text is the pieces joined by single spaces. */
  lemma {:induction false} GatherIsJoin(pieces: seq<string>)
    requires |pieces| >= 1
    requires forall k :: 0 <= k < |pieces| ==> pieces[k] != []
    ensures Gather(pieces) == Join(pieces, ' ')
  {
    var n := |pieces|;
    if n == 1 {
      assert pieces[..0] == [];
    } else {
      var init := pieces[..n - 1];
      GatherIsJoin(init);
      GatherNonEmpty(init);
      JoinSnoc(init, pieces[n - 1], ' ');
      assert init + [pieces[n - 1]] == pieces;
    }
  }

  /** The accumulated text is empty exactly when every piece is. */
  lemma {:induction false} GatherEmptyIff(pieces: seq<string>)
    ensures Gather(pieces) == [] <==> forall k :: 0 <= k < |pieces| ==> pieces[k] == []
  {
    if pieces != [] {
      var n := |pieces|;
      GatherEmptyIff(pieces[..n - 1]);
      assert forall k :: 0 <= k < n - 1 ==> pieces[..n - 1][k] == pieces[k];
    }
  }

  lemma {:induction false} GatherNonEmpty(pieces: seq<string>)
    requires |pieces| >= 1 && pieces[0] != []
    ensures Gather(pieces) != []
  {
    GatherEmptyIff(pieces);
  }

  // --------------------------------------------------------------------------
  // Cleaning text lines

  const ZeroWidthSpace: char := '\U{200B}'
  const ByteOrderMark: char := '\U{FEFF}'

  /** U+0000-U+001F except tab, line feed and carriage return. */
  const StrippedControls: set<char> := set c: char | c < ' ' && c != '\t' && c != '\n' && c != '\r'

  const StrippedChars: set<char> := {ZeroWidthSpace, ByteOrderMark} + StrippedControls

  /**
   * A text line of an SRT entry: trimmed, then the zero-width space, the BOM
   * and the control characters removed (three removals of disjoint sets,
   * written as one).
   */
  function CleanLine(line: string): (r: string)
    ensures NoStripped(r)
  {
    RemoveChars(Trim(line), StrippedChars)
  }

  /**
   * The cleaning as written: the control-character list is a C string
   * literal that starts with NUL, so the string made of it is empty and
   * only the zero-width space and the BOM are removed.
   */
  function CleanLineAsWritten(line: string): (r: string)
    ensures forall k :: 0 <= k < |r| ==> r[k] != ZeroWidthSpace && r[k] != ByteOrderMark
  {
    RemoveChars(Trim(line), {ZeroWidthSpace, ByteOrderMark})
  }

  /** As written, a control character inside a text line survives the cleaning. */
  lemma {:induction false} AsWrittenKeepsControls(line: string, k: nat)
    requires k < |Trim(line)| && Trim(line)[k] in StrippedControls
    ensures !NoStripped(CleanLineAsWritten(line))
    ensures NoStripped(CleanLine(line))
  {
    var t := Trim(line);
    RemoveCharsKeeps(t, {ZeroWidthSpace, ByteOrderMark}, k);
    var r := CleanLineAsWritten(line);
    var j :| 0 <= j < |r| && r[j] == t[k];
    assert r[j] in StrippedChars;
  }

  /** The line "a", U+0001, "b": the control character is left in as written, and removed as intended. */
  lemma {:induction false} AsWrittenControlExample()
    ensures CleanLineAsWritten("a\U{0001}b") == "a\U{0001}b"
    ensures CleanLine("a\U{0001}b") == "ab"
  {
    var s := "a\U{0001}b";
    assert Trim(s) == s by {
      TrimStartNoop(s);
      TrimEndNoop(s);
    }
    assert s[1..] == "\U{0001}b" && s[2..] == "b" && s[3..] == [];
    var kept := {ZeroWidthSpace, ByteOrderMark};
    assert RemoveChars("b", kept) == "b";
    assert RemoveChars("\U{0001}b", kept) == "\U{0001}b";
    assert 'a' !in StrippedChars && '\U{0001}' in StrippedChars && 'b' !in StrippedChars;
    assert RemoveChars("b", StrippedChars) == "b";
    assert RemoveChars("\U{0001}b", StrippedChars) == "b";
  }

  /** None of the characters the SRT parser strips occurs in `s`. */
  predicate NoStripped(s: string) {
    forall k :: 0 <= k < |s| ==> s[k] !in StrippedChars
  }

  /** Every line's cleaned text is clean. */
  predicate CleanViews(vs: seq<LineView>) {
    forall j :: 0 <= j < |vs| ==> NoStripped(vs[j].clean)
  }

  lemma {:induction false} ViewsAreClean(lines: seq<string>)
    ensures CleanViews(Views(lines))
  {
    forall j | 0 <= j < |lines|
      ensures NoStripped(Views(lines)[j].clean)
    {
      ViewAt(lines, j);
    }
  }

  lemma {:induction false} AppendNoStripped(a: string, b: string)
    requires NoStripped(a) && NoStripped(b)
    ensures NoStripped(a + b)
  {
    assert forall k :: |a| <= k < |a + b| ==> (a + b)[k] == b[k - |a|];
  }

  /** Trimming keeps the text clean. */
  lemma {:induction false} TrimNoStripped(s: string)
    requires NoStripped(s)
    ensures NoStripped(Trim(s))
  {
    var a := TrimOffset(s);
  }

  // --------------------------------------------------------------------------
  // SRT

  /** What a parser reports: success, where lineIndex was left, and the entry. */
  datatype Parsed = Parsed(ok: bool, next: nat, entry: SubtitleEntry)

  const NoEntry := SubtitleEntry(0, 0.0, 0.0, "")

  /** The cleaned text lines [from, to). */
  function SrtPieces(vs: seq<LineView>, from: nat, to: nat): (r: seq<string>)
    requires from <= to <= |vs|
    ensures |r| == to - from
  {
    seq(to - from, k requires 0 <= k < to - from => vs[from + k].clean)
  }

  /**
   * The text loop of parseSRTEntry from line `i` with `acc` gathered so
   * far: append the cleaned text of each line up to the next blank one.
   */
  function RunText(vs: seq<LineView>, i: nat, acc: string): string
    requires i <= |vs|
    decreases |vs| - i
  {
    if i < |vs| && !vs[i].blank then RunText(vs, i + 1, AppendPiece(acc, vs[i].clean)) else acc
  }

  /** The text loop gathers exactly the cleaned lines of the run, in order. */
  lemma {:induction false} RunTextIsGather(vs: seq<LineView>, from: nat)
    requires from <= |vs|
    ensures RunText(vs, from, []) == Gather(SrtPieces(vs, from, TextRunEnd(vs, from)))
  {
    assert Gather(SrtPieces(vs, from, from)) == [];
    RunTextFrom(vs, from, from);
  }

  lemma {:induction false} RunTextFrom(vs: seq<LineView>, from: nat, i: nat)
    requires from <= i <= |vs| && i <= TextRunEnd(vs, from)
    requires TextRunEnd(vs, i) == TextRunEnd(vs, from)
    ensures RunText(vs, i, Gather(SrtPieces(vs, from, i))) == Gather(SrtPieces(vs, from, TextRunEnd(vs, from)))
    decreases |vs| - i
  {
    if i < |vs| && !vs[i].blank {
      PiecesSnoc(vs, from, i);
      RunTextFrom(vs, from, i + 1);
    }
  }

  /** Gathering clean text onto clean text keeps it clean. */
  lemma {:induction false} RunTextIsClean(vs: seq<LineView>, i: nat, acc: string)
    requires i <= |vs| && CleanViews(vs) && NoStripped(acc)
    ensures NoStripped(RunText(vs, i, acc))
    decreases |vs| - i
  {
    if i < |vs| && !vs[i].blank {
      assert ' ' !in StrippedControls;
      if acc != [] {
        AppendNoStripped(acc, " ");
        AppendNoStripped(acc + " ", vs[i].clean);
      }
      RunTextIsClean(vs, i + 1, AppendPiece(acc, vs[i].clean));
    }
  }

  /** Split a trimmed timecode line at its first "-->" and parse the trimmed halves. */
  function ArrowTimes(tc: string): (r: Timing)
    ensures r.Times? <==> Contains(tc, "-->")
  {
    var sep := IndexOf(tc, "-->");
    if sep < 0 then NoArrow
    else Times(ParseTimecode(Trim(tc[..sep])), ParseTimecode(Trim(tc[sep + 3..])))
  }

  /** Both times were read (parseTimecode reports failure as -1). */
  predicate ValidTimes(t: Timing) {
    t.Times? && t.start >= 0.0 && t.end >= 0.0
  }

  /**
   * parseSRTEntry from lineIndex `i`: skip blank lines, then read the entry
   * whose index line is the first non-blank one.
   */
  function SrtEntry(vs: seq<LineView>, i: nat): (p: Parsed)
    ensures p.next >= i
    ensures i <= |vs| ==> p.next <= |vs|
  {
    if i > |vs| then Parsed(false, i, NoEntry)
    else SrtAt(vs, SkipBlankLines(vs, i))
  }

  /**
   * parseSRTEntry once blank lines are skipped up to `s`: fail at the end of
   * the lines, fail past the timecode line when it has no "-->" or a negative
   * time, else gather the text lines up to the next blank one and succeed
   * when the gathered text is not empty.
   */
  function SrtAt(vs: seq<LineView>, s: nat): (p: Parsed)
    requires s <= |vs|
    ensures s <= p.next <= |vs|
  {
    if s >= |vs| then Parsed(false, s, NoEntry)
    else if s + 1 >= |vs| then Parsed(false, s + 1, NoEntry)
    else
      var t := vs[s + 1].timing;
      if !ValidTimes(t) then Parsed(false, s + 2, NoEntry)
      else
        var e := TextRunEnd(vs, s + 2);
        var text := RunText(vs, s + 2, []);
        Parsed(text != [], e, SubtitleEntry(vs[s].number, t.start, t.end, Trim(text)))
  }

  /**
   * A successful entry at `s`: its index is the index line's number, its
   * times are the timecode line's two valid times, and its text is the
   * trimmed, gathered text of the lines from `s + 2` up to the next blank
   * line, where parsing stopped.
   */
  lemma {:induction false} SrtAtShape(vs: seq<LineView>, s: nat)
    requires s <= |vs| && SrtAt(vs, s).ok
    ensures var p := SrtAt(vs, s);
            s + 2 <= p.next && ValidTimes(vs[s + 1].timing) &&
            p.entry.index == vs[s].number &&
            p.entry.startTime == vs[s + 1].timing.start && p.entry.endTime == vs[s + 1].timing.end &&
            p.next == TextRunEnd(vs, s + 2) &&
            p.entry.text == Trim(RunText(vs, s + 2, []))
  {
  }

  /**
   * A successful parseSRTEntry found a "-->" on the timecode line and read
   * two valid times from it.
   */
  lemma {:induction false} SrtEntryShape(lines: seq<string>, i: nat)
    requires SrtEntry(Views(lines), i).ok
    ensures var vs := Views(lines);
            var s := SkipBlankLines(vs, i);
            var p := SrtEntry(vs, i);
            s + 2 <= |lines| &&
            Contains(Trim(lines[s + 1]), "-->") &&
            p.entry.startTime >= 0.0 && p.entry.endTime >= 0.0
  {
    var vs := Views(lines);
    var s := SkipBlankLines(vs, i);
    SrtAtShape(vs, s);
    TimedLineHasArrow(lines, s + 1);
  }

  /** A line that reads as two times has a "-->" once trimmed. */
  lemma {:induction false} TimedLineHasArrow(lines: seq<string>, k: nat)
    requires k < |lines| && Views(lines)[k].timing.Times?
    ensures Contains(Trim(lines[k]), "-->")
  {
    TimingAt(lines, k);
  }

  /** A successful parse gathered text, and its trimmed text is clean. */
  lemma {:induction false} SrtTextIsClean(lines: seq<string>, i: nat)
    requires SrtEntry(Views(lines), i).ok
    ensures NoStripped(SrtEntry(Views(lines), i).entry.text)
  {
    var vs := Views(lines);
    var s := SkipBlankLines(vs, i);
    SrtAtShape(vs, s);
    ViewsAreClean(lines);
    GatheredTextIsClean(vs, s + 2);
  }

  /** The trimmed text of a run of clean lines is clean. */
  lemma {:induction false} GatheredTextIsClean(vs: seq<LineView>, from: nat)
    requires from <= |vs| && CleanViews(vs)
    ensures NoStripped(Trim(RunText(vs, from, [])))
  {
    RunTextIsClean(vs, from, []);
    TrimNoStripped(RunText(vs, from, []));
  }

  /** The entry's text is its cleaned text lines joined by single spaces, when none cleans to empty. */
  lemma {:induction false} SrtTextIsJoin(vs: seq<LineView>, i: nat)
    requires SrtEntry(vs, i).ok
    requires forall j :: SkipBlankLines(vs, i) + 2 <= j < SrtEntry(vs, i).next ==> vs[j].clean != []
    ensures var s := SkipBlankLines(vs, i);
            var p := SrtEntry(vs, i);
            s + 2 < p.next &&
            p.entry.text == Trim(Join(SrtPieces(vs, s + 2, p.next), ' '))
  {
    var s := SkipBlankLines(vs, i);
    var p := SrtEntry(vs, i);
    assert p == SrtAt(vs, s);
    SrtAtShape(vs, s);
    var e := TextRunEnd(vs, s + 2);
    assert e == p.next;
    RunTextIsJoin(vs, s + 2);
  }

  /** A run of lines none of which cleans to empty gathers to its pieces joined by single spaces. */
  lemma {:induction false} RunTextIsJoin(vs: seq<LineView>, from: nat)
    requires from <= |vs|
    requires forall j :: from <= j < TextRunEnd(vs, from) ==> vs[j].clean != []
    ensures RunText(vs, from, []) != [] <==> from < TextRunEnd(vs, from)
    ensures from < TextRunEnd(vs, from) ==> RunText(vs, from, []) == Join(SrtPieces(vs, from, TextRunEnd(vs, from)), ' ')
  {
    var e := TextRunEnd(vs, from);
    RunTextIsGather(vs, from);
    var pieces := SrtPieces(vs, from, e);
    if from < e {
      assert forall k :: 0 <= k < |pieces| ==> pieces[k] == vs[from + k].clean;
      GatherIsJoin(pieces);
      GatherNonEmpty(pieces);
    } else {
      assert pieces == [];
    }
  }

  // --------------------------------------------------------------------------
  // The SRT parser, step by step

  /** `while (lineIndex < lines.size() && lines[lineIndex].trim().isEmpty()) ++lineIndex;` */
  method SkipBlank(lines: seq<string>, lineIndex0: nat) returns (lineIndex: nat)
    requires lineIndex0 <= |lines|
    ensures lineIndex == SkipBlankLines(Views(lines), lineIndex0)
  {
    lineIndex := lineIndex0;
    while lineIndex < |lines| && Trim(lines[lineIndex]) == []
      invariant lineIndex0 <= lineIndex <= |lines|
      invariant SkipBlankLines(Views(lines), lineIndex) == SkipBlankLines(Views(lines), lineIndex0)
    {
      BlankAt(lines, lineIndex);
      lineIndex := lineIndex + 1;
    }
    if lineIndex < |lines| {
      BlankAt(lines, lineIndex);
    }
  }

  /** One more text line gets its cleaned text appended. */
  lemma {:induction false} PiecesSnoc(vs: seq<LineView>, from: nat, i: nat)
    requires from <= i < |vs|
    ensures Gather(SrtPieces(vs, from, i + 1)) == AppendPiece(Gather(SrtPieces(vs, from, i)), vs[i].clean)
  {
    var longer := SrtPieces(vs, from, i + 1);
    assert longer[..|longer| - 1] == SrtPieces(vs, from, i);
  }

  /** The text loop of parseSRTEntry: gather cleaned lines up to the next blank one. */
  method GatherText(lines: seq<string>, from: nat) returns (textContent: string, lineIndex: nat)
    requires from <= |lines|
    ensures lineIndex == TextRunEnd(Views(lines), from)
    ensures textContent == RunText(Views(lines), from, [])
  {
    ghost var vs := Views(lines);
    textContent := [];
    lineIndex := from;
    while lineIndex < |lines| && Trim(lines[lineIndex]) != []
      invariant from <= lineIndex <= |lines|
      invariant TextRunEnd(vs, lineIndex) == TextRunEnd(vs, from)
      invariant RunText(vs, lineIndex, textContent) == RunText(vs, from, [])
    {
      BlankAt(lines, lineIndex);
      CleanAt(lines, lineIndex);
      ghost var before := textContent;
      // trim, then remove the zero-width space, the BOM and the control characters
      var line := CleanLine(lines[lineIndex]);
      if textContent != [] {
        textContent := textContent + " ";
      }
      textContent := textContent + line;
      assert textContent == AppendPiece(before, vs[lineIndex].clean);
      lineIndex := lineIndex + 1;
    }
    if lineIndex < |lines| {
      BlankAt(lines, lineIndex);
    }
  }

  /**
   * parseSRTEntry with its by-reference lineIndex as an in and an out
   * parameter. On failure the entry holds whatever was parsed so far.
   */
  method ParseSRTEntry(lines: seq<string>, lineIndex0: nat) returns (ok: bool, lineIndex: nat, entry: SubtitleEntry)
    ensures ok == SrtEntry(Views(lines), lineIndex0).ok
    ensures lineIndex == SrtEntry(Views(lines), lineIndex0).next
    ensures ok ==> entry == SrtEntry(Views(lines), lineIndex0).entry
  {
    lineIndex := lineIndex0;
    if lineIndex >= |lines| {
      return false, lineIndex, NoEntry;
    }
    lineIndex := SkipBlank(lines, lineIndex);
    if lineIndex >= |lines| {
      return false, lineIndex, NoEntry;
    }
    ok, lineIndex, entry := ParseIndexedSRTEntry(lines, lineIndex);
  }

  /** The part of parseSRTEntry from the index line at `s` on. */
  method ParseIndexedSRTEntry(lines: seq<string>, s: nat) returns (ok: bool, lineIndex: nat, entry: SubtitleEntry)
    requires s < |lines|
    ensures ok == SrtAt(Views(lines), s).ok
    ensures lineIndex == SrtAt(Views(lines), s).next
    ensures ok ==> entry == SrtAt(Views(lines), s).entry
  {
    NumberAt(lines, s);
    entry := NoEntry.(index := GetIntValue(Trim(lines[s])));
    lineIndex := s + 1;
    if lineIndex >= |lines| {
      return false, lineIndex, entry;
    }
    TimingAt(lines, lineIndex);
    var timing := ArrowTimes(Trim(lines[lineIndex]));
    ok, lineIndex, entry := ParseTimedSRTEntry(lines, s, entry, timing);
  }

  /**
   * The rest of parseSRTEntry once the timecode line after the index line at
   * `s` has been read into `timing`: check the times, then gather the text.
   */
  method ParseTimedSRTEntry(lines: seq<string>, s: nat, entry0: SubtitleEntry, timing: Timing)
    returns (ok: bool, lineIndex: nat, entry: SubtitleEntry)
    requires s + 2 <= |lines|
    requires entry0.index == Views(lines)[s].number && timing == Views(lines)[s + 1].timing
    ensures ok == SrtAt(Views(lines), s).ok
    ensures lineIndex == SrtAt(Views(lines), s).next
    ensures ok ==> entry == SrtAt(Views(lines), s).entry
  {
    entry := entry0;
    lineIndex := s + 2;
    if timing.NoArrow? {
      return false, lineIndex, entry;
    }
    entry := entry.(startTime := timing.start, endTime := timing.end);
    if entry.startTime < 0.0 || entry.endTime < 0.0 {
      return false, lineIndex, entry;
    }
    var textContent;
    textContent, lineIndex := GatherText(lines, lineIndex);
    entry := entry.(text := Trim(textContent));
    ok := textContent != [];
  }
}
