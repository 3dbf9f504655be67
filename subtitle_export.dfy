/**
 * Subtitle export: every word of every clip becomes one cue, in clip order
 * and word order, running from the word's absolute start to the next word's
 * start (the last word of a clip to the clip end, or a second after its
 * start when the clip ends no later than it). SRT numbers its cues from 1;
 * WebVTT writes a header first and marks up word formatting.
 */
module SubtitleExport {
  import opened Wrappers
  import opened JuceText
  import opened DataModel
  import opened SubtitleImport
  import opened ImportClips
  import opened VttImport
  import opened CppArith

  // --------------------------------------------------------------------------
  // Timestamps

  /** The four fields formatSRTTimestamp and formatWebVTTTimestamp print. */
  datatype Fields = Fields(hours: int, minutes: int, secs: int, millis: int)

  function TimestampFields(seconds: real): Fields {
    var whole := Trunc(seconds);
    Fields(Quot(whole, 3600), Quot(Rem(whole, 3600), 60), Rem(whole, 60), Trunc((seconds - whole as real) * 1000.0))
  }

  /** `String::formatted("%02d:%02d:%02d<sep>%03d", hours, minutes, secs, millis)`. */
  function Timestamp(seconds: real, sep: char): string {
    Formatted(TimestampPieces(TimestampFields(seconds), sep))
  }

  function TimestampPieces(f: Fields, sep: char): seq<FormatPiece> {
    [Decimal(f.hours, 2), Literal(':'), Decimal(f.minutes, 2), Literal(':'), Decimal(f.secs, 2), Literal(sep), Decimal(f.millis, 3)]
  }

  /** The template spelled out: each field zero-padded, with the separators between them. */
  lemma {:induction false} TimestampText(seconds: real, sep: char)
    ensures var f := TimestampFields(seconds);
            Timestamp(seconds, sep) ==
            FormatInt(f.hours, 2) + ":" + FormatInt(f.minutes, 2) + ":" + FormatInt(f.secs, 2) + [sep] + FormatInt(f.millis, 3)
  {
    var f := TimestampFields(seconds);
    var p := TimestampPieces(f, sep);
    FormattedSeven(p);
    assert PieceText(p[5]) == [sep];
  }

  /** formatSRTTimestamp: HH:MM:SS,mmm */
  function FormatSRTTimestamp(seconds: real): string {
    Timestamp(seconds, ',')
  }

  /** formatWebVTTTimestamp: HH:MM:SS.mmm */
  function FormatWebVTTTimestamp(seconds: real): string {
    Timestamp(seconds, '.')
  }

  /**
   * For a non-negative time the fields are its whole hours, the minutes and
   * seconds within the hour and minute, and the whole milliseconds of its
   * fraction: together they make up the time to within a millisecond below.
   */
  lemma {:induction false} TimestampFieldsBounds(seconds: real)
    requires seconds >= 0.0
    ensures var f := TimestampFields(seconds);
            f.hours == seconds.Floor / 3600 &&
            0 <= f.minutes < 60 && 0 <= f.secs < 60 && 0 <= f.millis < 1000 &&
            f.hours * 3600 + f.minutes * 60 + f.secs == seconds.Floor &&
            seconds - 0.001 < (seconds.Floor as real) + f.millis as real / 1000.0 <= seconds
  {
    var whole := seconds.Floor;
    var r := whole % 3600;
    assert whole == 3600 * (whole / 3600) + r;
    assert r == 60 * (r / 60) + r % 60;
    assert whole % 60 == r % 60 by {
      assert whole == 60 * (60 * (whole / 3600) + r / 60) + r % 60;
    }
    var frac := seconds - whole as real;
    assert 0.0 <= frac < 1.0;
    var ms := (frac * 1000.0).Floor;
    assert ms as real <= frac * 1000.0 < ms as real + 1.0;
  }

  /** A non-negative time is written in the zero-padded form the importers read. */
  lemma {:induction false} TimestampIsTimecode(seconds: real, sep: char)
    requires seconds >= 0.0
    ensures var f := TimestampFields(seconds);
            f.hours >= 0 && f.minutes >= 0 && f.secs >= 0 && f.millis >= 0 &&
            Timestamp(seconds, sep) == TimecodeText(f.hours, f.minutes, f.secs, f.millis, sep)
  {
    TimestampFieldsBounds(seconds);
    TimestampText(seconds, sep);
  }

  /**
   * Export then import: parseTimecode reads a formatted non-negative time
   * back as that time truncated to whole milliseconds, in either format.
   */
  lemma {:induction false} TimestampReadsBack(seconds: real, sep: char)
    requires seconds >= 0.0 && (sep == ',' || sep == '.')
    ensures seconds - 0.001 < ParseTimecode(Timestamp(seconds, sep)) <= seconds
  {
    var f := TimestampFields(seconds);
    TimestampFieldsBounds(seconds);
    TimestampIsTimecode(seconds, sep);
    ParseTimecodeText(f.hours, f.minutes, f.secs, f.millis, sep);
  }

  /** The two formatters differ only in the separator before the milliseconds. */
  lemma {:induction false} TimestampsDifferInSeparator(seconds: real)
    ensures FormatSRTTimestamp(seconds) == ReplaceChar(FormatWebVTTTimestamp(seconds), '.', ",")
  {
    var f := TimestampFields(seconds);
    TimestampText(seconds, '.');
    TimestampText(seconds, ',');
    var h := FormatInt(f.hours, 2);
    var m := FormatInt(f.minutes, 2);
    var s := FormatInt(f.secs, 2);
    var ms := FormatInt(f.millis, 3);
    FormatIntHasNoPeriod(f.hours, 2);
    FormatIntHasNoPeriod(f.minutes, 2);
    FormatIntHasNoPeriod(f.secs, 2);
    FormatIntHasNoPeriod(f.millis, 3);
    assert ReplaceChar(":", '.', ",") == ":";
    assert ReplaceChar(".", '.', ",") == ",";
    ReplaceCharAppend(h + ":" + m + ":" + s + ".", ms, '.', ",");
    ReplaceCharAppend(h + ":" + m + ":" + s, ".", '.', ",");
    ReplaceCharAppend(h + ":" + m + ":", s, '.', ",");
    ReplaceCharAppend(h + ":" + m, ":", '.', ",");
    ReplaceCharAppend(h + ":", m, '.', ",");
    ReplaceCharAppend(h, ":", '.', ",");
  }

  lemma {:induction false} FormatIntHasNoPeriod(n: int, width: nat)
    ensures ReplaceChar(FormatInt(n, width), '.', ",") == FormatInt(n, width)
  {
    FormatIntChars(n, width);
    ReplaceCharAbsent(FormatInt(n, width), '.', ",");
  }

  /** A timestamp is made of digits, signs, colons and the separator. */
  lemma {:induction false} TimestampChars(seconds: real, sep: char)
    ensures forall x :: x in Timestamp(seconds, sep) ==> x == '-' || IsDigit(x) || x == ':' || x == sep
  {
    var f := TimestampFields(seconds);
    TimestampText(seconds, sep);
    FormatIntChars(f.hours, 2);
    FormatIntChars(f.minutes, 2);
    FormatIntChars(f.secs, 2);
    FormatIntChars(f.millis, 3);
  }

  // --------------------------------------------------------------------------
  // HTML entities

  /** escapeHTMLEntities: replace "&", then "<", then ">". */
  function EscapeHTMLEntities(text: string): string {
    ReplaceChar(ReplaceChar(ReplaceChar(text, '&', "&amp;"), '<', "&lt;"), '>', "&gt;")
  }

  /** The entity a single character becomes. */
  function EscapeChar(c: char): string {
    if c == '&' then "&amp;" else if c == '<' then "&lt;" else if c == '>' then "&gt;" else [c]
  }

  /** Every character replaced by its entity in one pass, left to right. */
  function EscapeEach(text: string): string {
    if text == [] then [] else EscapeChar(text[0]) + EscapeEach(text[1..])
  }

  /**
   * Because "&" goes first, the three passes act as one pass over the
   * characters: no '&' an entity introduces is escaped again.
   */
  lemma {:induction false} EscapeIsOnePass(text: string)
    ensures EscapeHTMLEntities(text) == EscapeEach(text)
    decreases |text|
  {
    if text != [] {
      var c := text[0];
      var rest := text[1..];
      assert text == [c] + rest;
      ReplaceCharAppend([c], rest, '&', "&amp;");
      var a1 := ReplaceChar([c], '&', "&amp;");
      var a2 := ReplaceChar(rest, '&', "&amp;");
      ReplaceCharAppend(a1, a2, '<', "&lt;");
      ReplaceCharAppend(ReplaceChar(a1, '<', "&lt;"), ReplaceChar(a2, '<', "&lt;"), '>', "&gt;");
      EscapeCharPasses(c);
      EscapeIsOnePass(rest);
    }
  }

  /** The entity written for '&' holds neither bracket, so the later passes leave it alone. */
  lemma {:induction false} AmpersandEntityPasses()
    ensures ReplaceChar(ReplaceChar("&amp;", '<', "&lt;"), '>', "&gt;") == "&amp;"
  {
    var amp := "&amp;";
    assert forall i :: 0 <= i < |amp| ==> amp[i] != '<' && amp[i] != '>';
    ReplaceCharAbsent(amp, '<', "&lt;");
    ReplaceCharAbsent(amp, '>', "&gt;");
  }

  lemma {:induction false} EscapeCharPasses(c: char)
    ensures ReplaceChar(ReplaceChar(ReplaceChar([c], '&', "&amp;"), '<', "&lt;"), '>', "&gt;") == EscapeChar(c)
  {
    ReplaceCharSingle(c, '&', "&amp;");
    if c == '&' {
      AmpersandEntityPasses();
    } else {
      ReplaceCharSingle(c, '<', "&lt;");
      if c == '<' {
        ReplaceCharAbsent("&lt;", '>', "&gt;");
      } else {
        ReplaceCharSingle(c, '>', "&gt;");
      }
    }
  }

  /** The escaped text holds no angle bracket, so markup tags around it cannot be confused with it. */
  lemma {:induction false} EscapedHasNoBrackets(text: string)
    ensures '<' !in EscapeHTMLEntities(text) && '>' !in EscapeHTMLEntities(text)
  {
    var a := ReplaceChar(text, '&', "&amp;");
    var b := ReplaceChar(a, '<', "&lt;");
    assert '<' !in b;
    assert '<' !in EscapeHTMLEntities(text);
  }

  /** A reference decoder of the three entities. */
  function Unescape(s: string): string
    decreases |s|
  {
    if s == [] then []
    else if StartsWith(s, "&amp;") then "&" + Unescape(s[5..])
    else if StartsWith(s, "&lt;") then "<" + Unescape(s[4..])
    else if StartsWith(s, "&gt;") then ">" + Unescape(s[4..])
    else [s[0]] + Unescape(s[1..])
  }

  /** Decoding the escaped text gives the text back: nothing is escaped twice or lost. */
  lemma {:induction false} UnescapeEscape(text: string)
    ensures Unescape(EscapeHTMLEntities(text)) == text
  {
    EscapeIsOnePass(text);
    UnescapeEach(text);
  }

  lemma {:induction false} UnescapeEach(text: string)
    ensures Unescape(EscapeEach(text)) == text
    decreases |text|
  {
    if text != [] {
      UnescapeEach(text[1..]);
      UnescapeChar(text[0], EscapeEach(text[1..]));
      assert text == [text[0]] + text[1..];
    }
  }

  /** The decoder reads one escaped character back and goes on after it. */
  lemma {:induction false} UnescapeChar(c: char, rest: string)
    ensures Unescape(EscapeChar(c) + rest) == [c] + Unescape(rest)
  {
    var e := EscapeChar(c);
    var s := e + rest;
    assert s[|e|..] == rest;
    if c == '&' {
      assert s[..5] == "&amp;";
    } else if c == '<' {
      assert s[..4] == "&lt;";
      assert s[1] == 'l';
    } else if c == '>' {
      assert s[..4] == "&gt;";
      assert s[1] == 'g';
    } else {
      assert s[0] == c;
    }
  }

  // --------------------------------------------------------------------------
  // WebVTT markup

  /** juce::String::toHexString of a non-negative number: lower-case hex digits, no padding. */
  function ToHexString(n: nat): (s: string)
    ensures |s| >= 1
  {
    if n < 16 then [HexDigit(n)] else ToHexString(n / 16) + [HexDigit(n % 16)]
  }

  function HexDigit(d: nat): char
    requires d < 16
  {
    "0123456789abcdef"[d]
  }

  /** `colour.toString().substring(2)`: the ARGB hex without its first two digits (the alpha of an opaque colour). */
  function ColourHex(colour: Argb): string {
    var h := ToHexString(colour);
    if |h| >= 2 then h[2..] else []
  }

  /** A tag pair wrapped around the cue text. */
  datatype Tag = Tag(open: string, close: string)

  /** The tags of a word's formatting, innermost first: bold, then italic, then the colour unless it is white. */
  function Tags(fmt: Option<TextFormatting>): seq<Tag> {
    match fmt
    case None => []
    case Some(f) =>
      (if f.bold then [Tag("<b>", "</b>")] else []) +
      (if f.italic then [Tag("<i>", "</i>")] else []) +
      (if f.colour != White then [Tag("<c.color_" + ColourHex(f.colour) + ">", "</c>")] else [])
  }

  /** Wrap the text in the tags, the first tag innermost. */
  function Wrap(x: string, tags: seq<Tag>): string
    decreases |tags|
  {
    if tags == [] then x else Wrap(tags[0].open + x + tags[0].close, tags[1..])
  }

  /** The cue text exportWebVTT writes: the escaped word, wrapped as the word's own formatting says. */
  function CueMarkup(text: string, fmt: Option<TextFormatting>): string {
    var escaped := EscapeHTMLEntities(text);
    if fmt.None? then escaped
    else
      var f := fmt.value;
      var b := if f.bold then "<b>" + escaped + "</b>" else escaped;
      var i := if f.italic then "<i>" + b + "</i>" else b;
      if f.colour != White then "<c.color_" + ColourHex(f.colour) + ">" + i + "</c>" else i
  }

  /** The opening tags, outermost first. */
  function Opening(tags: seq<Tag>): string
    decreases |tags|
  {
    if tags == [] then [] else Opening(tags[1..]) + tags[0].open
  }

  /** The closing tags, innermost first. */
  function Closing(tags: seq<Tag>): string
    decreases |tags|
  {
    if tags == [] then [] else tags[0].close + Closing(tags[1..])
  }

  lemma {:induction false} WrapIsOpeningClosing(x: string, tags: seq<Tag>)
    ensures Wrap(x, tags) == Opening(tags) + x + Closing(tags)
    decreases |tags|
  {
    if tags != [] {
      WrapIsOpeningClosing(tags[0].open + x + tags[0].close, tags[1..]);
    }
  }

  /**
   * The markup of a word is its escaped text between the opening tags of
   * its formatting, outermost first, and the closing tags in mirror order;
   * a word without formatting of its own gets none, whatever the clip's
   * default formatting is.
   */
  lemma {:induction false} CueMarkupShape(text: string, fmt: Option<TextFormatting>)
    ensures CueMarkup(text, fmt) == Opening(Tags(fmt)) + EscapeHTMLEntities(text) + Closing(Tags(fmt))
    ensures fmt.None? ==> CueMarkup(text, fmt) == EscapeHTMLEntities(text)
  {
    var x := EscapeHTMLEntities(text);
    var tags := Tags(fmt);
    WrapIsOpeningClosing(x, tags);
    if fmt.Some? {
      var f := fmt.value;
      var bt := if f.bold then [Tag("<b>", "</b>")] else [];
      var it := if f.italic then [Tag("<i>", "</i>")] else [];
      var ct := if f.colour != White then [Tag("<c.color_" + ColourHex(f.colour) + ">", "</c>")] else [];
      assert tags == bt + it + ct;
      WrapAppend(x, bt, it + ct);
      WrapAppend(Wrap(x, bt), it, ct);
      assert bt + (it + ct) == tags;
    }
  }

  lemma {:induction false} WrapAppend(x: string, a: seq<Tag>, b: seq<Tag>)
    ensures Wrap(x, a + b) == Wrap(Wrap(x, a), b)
    decreases |a|
  {
    if a != [] {
      assert (a + b)[0] == a[0];
      assert (a + b)[1..] == a[1..] + b;
      WrapAppend(a[0].open + x + a[0].close, a[1..], b);
    } else {
      assert a + b == b;
    }
  }

  // --------------------------------------------------------------------------
  // Cues

  /** One exported cue: absolute start and end, and the word. */
  datatype Cue = Cue(start: real, end: real, word: Word)

  /**
   * The cue of word i: from its absolute start to the next word's absolute
   * start, or for the last word to the clip end, raised to a second after
   * the start when the clip ends no later than the start.
   */
  function WordCue(c: Clip, i: nat): Cue
    requires i < |c.words|
  {
    var start := c.startTime + c.words[i].relativeTime;
    var end :=
      if i + 1 < |c.words| then c.startTime + c.words[i + 1].relativeTime
      else if c.endTime <= start then start + 1.0
      else c.endTime;
    Cue(start, end, c.words[i])
  }

  /** The cues of the first k words of a clip. */
  function CuesUpTo(c: Clip, k: nat): (r: seq<Cue>)
    requires k <= |c.words|
    ensures |r| == k
  {
    if k == 0 then [] else CuesUpTo(c, k - 1) + [WordCue(c, k - 1)]
  }

  function ClipCues(c: Clip): seq<Cue> {
    CuesUpTo(c, |c.words|)
  }

  lemma {:induction false} CueAt(c: Clip, k: nat, i: nat)
    requires i < k <= |c.words|
    ensures CuesUpTo(c, k)[i] == WordCue(c, i)
    decreases k
  {
    if i < k - 1 {
      CueAt(c, k - 1, i);
    }
  }

  /**
   * One cue per word, in word order, each carrying its word; consecutive
   * cues of a clip meet (a cue ends where the next word starts), and the
   * last cue ends after it starts, at the clip end when that is later.
   */
  lemma {:induction false} ClipCuesShape(c: Clip)
    ensures var cs := ClipCues(c);
            |cs| == |c.words| &&
            (forall i :: 0 <= i < |cs| ==> cs[i].word == c.words[i] && cs[i].start == c.startTime + c.words[i].relativeTime) &&
            (forall i :: 0 <= i < |cs| - 1 ==> cs[i].end == cs[i + 1].start) &&
            (cs != [] ==> cs[|cs| - 1].end > cs[|cs| - 1].start &&
                          cs[|cs| - 1].end == if c.endTime > cs[|cs| - 1].start then c.endTime else cs[|cs| - 1].start + 1.0)
  {
    var cs := ClipCues(c);
    forall i | 0 <= i < |cs|
      ensures cs[i] == WordCue(c, i)
    {
      CueAt(c, |c.words|, i);
    }
  }

  /** The cues of all clips, clip after clip. */
  function Cues(clips: seq<Clip>): seq<Cue> {
    if clips == [] then [] else Cues(clips[..|clips| - 1]) + ClipCues(clips[|clips| - 1])
  }

  /** The number of words in the clips. */
  function WordTotal(clips: seq<Clip>): nat {
    if clips == [] then 0 else WordTotal(clips[..|clips| - 1]) + |clips[|clips| - 1].words|
  }

  /** There is exactly one cue per word. */
  lemma {:induction false} OneCuePerWord(clips: seq<Clip>)
    ensures |Cues(clips)| == WordTotal(clips)
    decreases |clips|
  {
    if clips != [] {
      OneCuePerWord(clips[..|clips| - 1]);
    }
  }

  // --------------------------------------------------------------------------
  // Documents

  /** One SRT entry: its number, the timecode line, the word's text and a blank line. */
  function SrtBlock(n: int, cue: Cue): string {
    (IntToString(n) + "\n") + TimingLine(cue, ',') + (cue.word.text + "\n") + "\n"
  }

  /** `start --> end` and a line break, the times written with the given separator. */
  function TimingLine(cue: Cue, sep: char): string {
    Timestamp(cue.start, sep) + " --> " + Timestamp(cue.end, sep) + "\n"
  }

  /** The timing line holds the arrow the importers and format detection look for, and no line break before its end. */
  lemma {:induction false} TimingLineText(cue: Cue, sep: char)
    requires sep != '\n' && sep != '\r'
    ensures var t := Timestamp(cue.start, sep) + " --> " + Timestamp(cue.end, sep);
            TimingLine(cue, sep) == t + "\n" && '\n' !in t && '\r' !in t && Contains(t, "-->")
  {
    var a := Timestamp(cue.start, sep);
    var b := Timestamp(cue.end, sep);
    var t := a + " --> " + b;
    TimestampChars(cue.start, sep);
    TimestampChars(cue.end, sep);
    assert t == a + (" --> " + b);
    assert t[|a| + 1..|a| + 4] == "-->";
    assert OccursAt(t, "-->", |a| + 1);
  }

  /** An entry read as lines: its number, its timing line, then the text and what follows. */
  lemma {:induction false} SrtBlockLines(n: int, cue: Cue, rest: string)
    ensures var t := Timestamp(cue.start, ',') + " --> " + Timestamp(cue.end, ',');
            SrtBlock(n, cue) + rest == IntToString(n) + "\n" + (t + "\n" + ((cue.word.text + "\n") + "\n" + rest))
  {
    TimingLineText(cue, ',');
    Regroup(IntToString(n), Timestamp(cue.start, ',') + " --> " + Timestamp(cue.end, ','), cue.word.text + "\n", rest);
  }

  lemma {:induction false} Regroup(a: string, t: string, x: string, r: string)
    ensures (a + "\n") + (t + "\n") + x + "\n" + r == a + "\n" + (t + "\n" + (x + "\n" + r))
  {
    var nl := "\n";
    assert (a + nl) + (t + nl) == a + nl + t + nl;
    assert a + nl + t + nl + x + nl + r == a + nl + (t + nl + (x + nl + r));
  }

  /** The SRT entries of the cues, numbered from 1. The non-empty case stands apart, as Views does. */
  function SrtBlocks(cues: seq<Cue>): string
    decreases |cues|, 1
  {
    if cues == [] then [] else SrtBlocksOfNonEmpty(cues)
  }

  function SrtBlocksOfNonEmpty(cues: seq<Cue>): string
    requires cues != []
    decreases |cues|, 0
  {
    var n := |cues| - 1;
    SrtBlocks(cues[..n]) + SrtBlock(n + 1, cues[n])
  }

  /** The next entry is numbered one more than the entries before it. */
  lemma {:induction false} SrtBlocksSnoc(cues: seq<Cue>, cue: Cue)
    ensures SrtBlocks(cues + [cue]) == SrtBlocks(cues) + SrtBlock(|cues| + 1, cue)
  {
    assert SrtBlocks(cues + [cue]) == SrtBlocksOfNonEmpty(cues + [cue]);
    assert (cues + [cue])[..|cues|] == cues;
  }

  /** Entry k, counting from 0, is numbered k + 1 and follows the first k entries. */
  lemma {:induction false} SrtBlocksNumbered(cues: seq<Cue>, k: nat)
    requires k < |cues|
    ensures SrtBlocks(cues[..k]) + SrtBlock(k + 1, cues[k]) <= SrtBlocks(cues)
  {
    SrtBlocksPrefix(cues, k + 1);
    assert cues[..k + 1] == cues[..k] + [cues[k]];
    SrtBlocksSnoc(cues[..k], cues[k]);
  }

  /** The entries of a prefix of the cues are a prefix of the document: writing more never rewrites what is written. */
  lemma {:induction false} SrtBlocksPrefix(cues: seq<Cue>, j: nat)
    requires j <= |cues|
    ensures SrtBlocks(cues[..j]) <= SrtBlocks(cues)
    decreases |cues|
  {
    if j < |cues| {
      var n := |cues| - 1;
      SrtBlocksPrefix(cues[..n], j);
      assert cues[..n][..j] == cues[..j];
      assert cues == cues[..n] + [cues[n]];
      SrtBlocksSnoc(cues[..n], cues[n]);
      PrefixExtends(SrtBlocks(cues[..j]), SrtBlocks(cues[..n]), SrtBlock(n + 1, cues[n]));
    } else {
      assert cues[..j] == cues;
    }
  }

  /** The document opens with the entry of the first cue, numbered 1. */
  lemma {:induction false} SrtBlocksFirst(cues: seq<Cue>) returns (rest: string)
    requires cues != []
    ensures SrtBlocks(cues) == SrtBlock(1, cues[0]) + rest
  {
    SrtBlocksPrefix(cues, 1);
    SrtBlocksSnoc([], cues[0]);
    assert [] + [cues[0]] == cues[..1];
    var first := SrtBlock(1, cues[0]);
    EmptyThen(first);
    rest := PrefixRest(first, SrtBlocks(cues));
  }

  lemma EmptyThen(s: string)
    ensures [] + s == s
  {
  }

  /** A prefix of a string, followed by the rest of the string, is the string. */
  lemma PrefixRest(a: string, b: string) returns (rest: string)
    requires a <= b
    ensures b == a + rest
  {
    rest := b[|a|..];
    assert b == b[..|a|] + rest;
  }

  lemma PrefixExtends(a: string, b: string, c: string)
    requires a <= b
    ensures a <= b + c
  {
    assert (b + c)[..|a|] == b[..|a|];
  }

  /** One WebVTT cue: the timecode line, the marked-up text and a blank line. */
  function VttBlock(cue: Cue): string {
    TimingLine(cue, '.') + (CueMarkup(cue.word.text, cue.word.formatting) + "\n") + "\n"
  }

  function VttBlocks(cues: seq<Cue>): string
    decreases |cues|, 1
  {
    if cues == [] then [] else VttBlocksOfNonEmpty(cues)
  }

  function VttBlocksOfNonEmpty(cues: seq<Cue>): string
    requires cues != []
    decreases |cues|, 0
  {
    var n := |cues| - 1;
    VttBlocks(cues[..n]) + VttBlock(cues[n])
  }

  lemma {:induction false} VttBlocksSnoc(cues: seq<Cue>, cue: Cue)
    ensures VttBlocks(cues + [cue]) == VttBlocks(cues) + VttBlock(cue)
  {
    assert VttBlocks(cues + [cue]) == VttBlocksOfNonEmpty(cues + [cue]);
    assert (cues + [cue])[..|cues|] == cues;
  }

  /** The WebVTT header line and the blank line after it. */
  const VttHeader: string := Header + "\n\n"

  /** A WebVTT document starts with the signature the importer and format detection look for. */
  lemma {:induction false} VttDocumentHasSignature(cues: seq<Cue>)
    ensures StartsWith(VttHeader + VttBlocks(cues), Header)
  {
    assert (VttHeader + VttBlocks(cues))[..|Header|] == Header;
  }

  // --------------------------------------------------------------------------
  // The exporters

  /** The times of word `wordIdx`'s cue: to the next word's start, or for the last word to the clip end, at least a second. */
  method CueTimes(clip: Clip, wordIdx: nat) returns (startTime: real, endTime: real)
    requires wordIdx < |clip.words|
    ensures Cue(startTime, endTime, clip.words[wordIdx]) == WordCue(clip, wordIdx)
  {
    startTime := clip.startTime + clip.words[wordIdx].relativeTime;
    if wordIdx + 1 < |clip.words| {
      endTime := clip.startTime + clip.words[wordIdx + 1].relativeTime;
    } else {
      endTime := clip.endTime;
      if endTime <= startTime {
        endTime := startTime + 1.0;
      }
    }
  }

  /** The content holds the entries of the cues. */
  predicate SrtWritten(content: string, cues: seq<Cue>) {
    content == SrtBlocks(cues)
  }

  /** The four appends of one SRT entry. */
  method AppendSrtEntry(content: string, sequenceNumber: int, startTime: real, endTime: real, word: Word, ghost cues: seq<Cue>)
    returns (content': string)
    requires SrtWritten(content, cues) && sequenceNumber == |cues| + 1
    ensures SrtWritten(content', cues + [Cue(startTime, endTime, word)])
  {
    ghost var cue := Cue(startTime, endTime, word);
    var numberLine := IntToString(sequenceNumber) + "\n";
    var timingLine := FormatSRTTimestamp(startTime) + " --> " + FormatSRTTimestamp(endTime) + "\n";
    assert timingLine == TimingLine(cue, ',');
    var textLine := word.text + "\n";
    content' := content + numberLine;
    content' := content' + timingLine;
    content' := content' + textLine;
    content' := content' + "\n";
    AppendAssoc(content, numberLine, timingLine);
    AppendAssoc(content, numberLine + timingLine, textLine);
    AppendAssoc(content, numberLine + timingLine + textLine, "\n");
    SrtBlocksSnoc(cues, cue);
  }

  /**
   * The cue loop of one clip: append each word's entry and count it.
   * `done` are the cues written before this clip.
   */
  method AppendSrtClip(clip: Clip, content: string, sequenceNumber: int, ghost done: seq<Cue>)
    returns (content': string, sequenceNumber': int)
    requires SrtWritten(content, done) && sequenceNumber == |done| + 1
    ensures SrtWritten(content', done + ClipCues(clip))
    ensures sequenceNumber' == |done + ClipCues(clip)| + 1
  {
    content', sequenceNumber' := content, sequenceNumber;
    var wordIdx := 0;
    ghost var cues := done;
    assert done + CuesUpTo(clip, 0) == done;
    while wordIdx < |clip.words|
      invariant 0 <= wordIdx <= |clip.words|
      invariant cues == done + CuesUpTo(clip, wordIdx)
      invariant SrtWritten(content', cues)
      invariant sequenceNumber' == |cues| + 1
    {
      var word := clip.words[wordIdx];
      var startTime, endTime := CueTimes(clip, wordIdx);
      assert CuesUpTo(clip, wordIdx + 1) == CuesUpTo(clip, wordIdx) + [Cue(startTime, endTime, word)];
      AppendAssoc(done, CuesUpTo(clip, wordIdx), [Cue(startTime, endTime, word)]);
      content' := AppendSrtEntry(content', sequenceNumber', startTime, endTime, word, cues);
      cues := cues + [Cue(startTime, endTime, word)];
      sequenceNumber' := sequenceNumber' + 1;
      wordIdx := wordIdx + 1;
    }
  }

  /**
   * exportSRT over the project's clips; `written` stands for the file write
   * succeeding. A project with no clips fails before anything is written;
   * otherwise the content is the numbered entries of all cues.
   */
  method ExportSRT(clips: seq<Clip>, written: bool) returns (ok: bool, srtContent: string)
    ensures clips == [] ==> !ok && srtContent == []
    ensures clips != [] ==> ok == written && srtContent == SrtBlocks(Cues(clips))
  {
    if |clips| == 0 {
      return false, [];
    }
    srtContent := [];
    var sequenceNumber := 1;
    var clipIdx := 0;
    while clipIdx < |clips|
      invariant 0 <= clipIdx <= |clips|
      invariant SrtWritten(srtContent, Cues(clips[..clipIdx]))
      invariant sequenceNumber == |Cues(clips[..clipIdx])| + 1
    {
      srtContent, sequenceNumber := AppendSrtClip(clips[clipIdx], srtContent, sequenceNumber, Cues(clips[..clipIdx]));
      assert clips[..clipIdx + 1][..clipIdx] == clips[..clipIdx];
      clipIdx := clipIdx + 1;
    }
    assert clips[..clipIdx] == clips;
    ok := written;
  }

  /** Escape the word's text and wrap it in the tags of the word's own formatting. */
  method FormatCueText(word: Word) returns (formattedText: string)
    ensures formattedText == CueMarkup(word.text, word.formatting)
  {
    formattedText := EscapeHTMLEntities(word.text);
    if word.formatting.Some? {
      var fmt := word.formatting.value;
      if fmt.bold {
        formattedText := "<b>" + formattedText + "</b>";
      }
      if fmt.italic {
        formattedText := "<i>" + formattedText + "</i>";
      }
      if fmt.colour != White {
        var colorHex := ColourHex(fmt.colour);
        formattedText := "<c.color_" + colorHex + ">" + formattedText + "</c>";
      }
    }
  }

  /** The content holds the header and the cues. */
  predicate VttWritten(content: string, cues: seq<Cue>) {
    content == VttHeader + VttBlocks(cues)
  }

  /** The three appends of one WebVTT cue. */
  method AppendVttCue(content: string, startTime: real, endTime: real, word: Word, ghost cues: seq<Cue>)
    returns (content': string)
    requires VttWritten(content, cues)
    ensures VttWritten(content', cues + [Cue(startTime, endTime, word)])
  {
    ghost var cue := Cue(startTime, endTime, word);
    var timingLine := FormatWebVTTTimestamp(startTime) + " --> " + FormatWebVTTTimestamp(endTime) + "\n";
    assert timingLine == TimingLine(cue, '.');
    content' := content + timingLine;
    var formattedText := FormatCueText(word);
    var textLine := formattedText + "\n";
    content' := content' + textLine;
    content' := content' + "\n";
    AppendAssoc(content, timingLine, textLine);
    AppendAssoc(content, timingLine + textLine, "\n");
    VttBlocksSnoc(cues, cue);
    AppendAssoc(VttHeader, VttBlocks(cues), VttBlock(cue));
  }

  /** The cue loop of one clip for WebVTT. */
  method AppendVttClip(clip: Clip, content: string, ghost done: seq<Cue>) returns (content': string)
    requires VttWritten(content, done)
    ensures VttWritten(content', done + ClipCues(clip))
  {
    content' := content;
    var wordIdx := 0;
    ghost var cues := done;
    assert done + CuesUpTo(clip, 0) == done;
    while wordIdx < |clip.words|
      invariant 0 <= wordIdx <= |clip.words|
      invariant cues == done + CuesUpTo(clip, wordIdx)
      invariant VttWritten(content', cues)
    {
      var word := clip.words[wordIdx];
      var startTime, endTime := CueTimes(clip, wordIdx);
      assert CuesUpTo(clip, wordIdx + 1) == CuesUpTo(clip, wordIdx) + [Cue(startTime, endTime, word)];
      AppendAssoc(done, CuesUpTo(clip, wordIdx), [Cue(startTime, endTime, word)]);
      content' := AppendVttCue(content', startTime, endTime, word, cues);
      cues := cues + [Cue(startTime, endTime, word)];
      wordIdx := wordIdx + 1;
    }
  }

  /**
   * exportWebVTT over the project's clips; `written` stands for the file
   * write succeeding. A project with no clips fails before anything is
   * written; otherwise the content is the header and then every cue.
   */
  method ExportWebVTT(clips: seq<Clip>, written: bool) returns (ok: bool, vttContent: string)
    ensures clips == [] ==> !ok && vttContent == []
    ensures clips != [] ==> ok == written && vttContent == VttHeader + VttBlocks(Cues(clips))
  {
    if |clips| == 0 {
      return false, [];
    }
    vttContent := VttHeader;
    var clipIdx := 0;
    while clipIdx < |clips|
      invariant 0 <= clipIdx <= |clips|
      invariant VttWritten(vttContent, Cues(clips[..clipIdx]))
    {
      vttContent := AppendVttClip(clips[clipIdx], vttContent, Cues(clips[..clipIdx]));
      assert clips[..clipIdx + 1][..clipIdx] == clips[..clipIdx];
      clipIdx := clipIdx + 1;
    }
    assert clips[..clipIdx] == clips;
    ok := written;
  }
}
