/**
 * detectFormat: the format of a subtitle or project file, judged from its
 * text in a fixed order of precedence (WebVTT signature, JSON project, SRT
 * entry, plain text).
 */
module FormatDetection {
  import opened Wrappers
  import opened JuceText
  import opened VttImport
  import opened SubtitleExport

  /** The formats detectFormat reports, by their file extension. */
  datatype Format = Vtt | Json | Srt | Txt

  function Extension(f: Format): string {
    match f
    case Vtt => "vtt"
    case Json => "json"
    case Srt => "srt"
    case Txt => "txt"
  }

  const Digits: set<char> := {'0', '1', '2', '3', '4', '5', '6', '7', '8', '9'}

  /** The key a Narrate project file holds, quotes included. */
  const ProjectNameKey: string := "\"projectName\""

  /** A JSON object holding a project name. */
  predicate LooksLikeJson(content: string) {
    StartsWith(TrimStart(content), "{") && Contains(content, ProjectNameKey)
  }

  /** At least three lines, a number alone on the first and an arrow on the second. */
  predicate LooksLikeSrt(lines: seq<string>) {
    |lines| >= 3 && ContainsOnly(Trim(lines[0]), Digits) && Contains(lines[1], "-->")
  }

  /**
   * detectFormat with the file as its contents (None when it does not
   * exist): a missing or empty file has no format; otherwise the first rule
   * that holds decides, and plain text is the fallback.
   */
  function DetectFormat(file: Option<string>): (r: Option<Format>)
    ensures r.Some? <==> file.Some? && file.value != []
  {
    if file.None? || file.value == [] then None
    else
      var content := file.value;
      if StartsWith(content, Header) then Some(Vtt)
      else if LooksLikeJson(content) then Some(Json)
      else if LooksLikeSrt(FromLines(content)) then Some(Srt)
      else Some(Txt)
  }

  /**
   * The rules in their order: for an existing non-empty file, each format is
   * reported exactly when its own rule holds and no earlier rule does.
   */
  lemma {:induction false} DetectionRules(content: string)
    requires content != []
    ensures DetectFormat(Some(content)) == Some(Vtt) <==> StartsWith(content, Header)
    ensures DetectFormat(Some(content)) == Some(Json) <==> !StartsWith(content, Header) && LooksLikeJson(content)
    ensures DetectFormat(Some(content)) == Some(Srt) <==>
              !StartsWith(content, Header) && !LooksLikeJson(content) && LooksLikeSrt(FromLines(content))
    ensures DetectFormat(Some(content)) == Some(Txt) <==>
              !StartsWith(content, Header) && !LooksLikeJson(content) && !LooksLikeSrt(FromLines(content))
  {
  }

  /** An occurrence inside a piece is an occurrence in any text around it. */
  lemma {:induction false} ContainsInside(pre: string, a: string, post: string, p: string)
    requires Contains(a, p)
    ensures Contains(pre + a + post, p)
  {
    var i := IndexOf(a, p);
    var s := pre + a + post;
    assert s[|pre| + i..|pre| + i + |p|] == a[i..i + |p|];
    assert OccursAt(s, p, |pre| + i);
  }

  /** A text opening with a line break and then a brace passes the brace test once trimmed. */
  lemma {:induction false} BraceAfterBreak(content: string)
    requires |content| >= 2 && content[0] == '\n' && content[1] == '{' && Contains(content, ProjectNameKey)
    ensures LooksLikeJson(content)
  {
    var t := content[1..];
    assert TrimStart(content) == TrimStart(t);
    TrimStartNoop(t);
    assert t[..1] == "{";
  }

  /** An empty first line and an arrow on the second pass the SRT test. */
  lemma {:induction false} EmptyFirstLine(content: string, j: string, rest: string)
    requires '\n' !in j && '\r' !in j && Contains(j, "-->")
    requires content == "\n" + (j + "\n" + rest)
    ensures LooksLikeSrt(FromLines(content))
  {
    var t := j + "\n" + rest;
    LinesOfLine("", t);
    assert "" + "\n" + t == content;
    LinesOfLine(j, rest);
    var lines := FromLines(content);
    assert lines == [""] + ([j] + LinesOf(rest));
    assert lines[0] == "" && lines[1] == j;
    assert Trim("") == "";
  }

  /**
   * The order matters: a project file whose first line is empty and whose
   * second line holds both the project name key and an arrow satisfies the
   * JSON rule and the SRT rule alike (the empty first line contains only
   * digits), and is reported as JSON.
   */
  lemma {:induction false} JsonBeforeSrt(j: string, rest: string)
    requires j != [] && j[0] == '{' && '\n' !in j && '\r' !in j
    requires Contains(j, ProjectNameKey) && Contains(j, "-->")
    ensures var content := "\n" + j + "\n" + rest;
            LooksLikeJson(content) && LooksLikeSrt(FromLines(content)) && DetectFormat(Some(content)) == Some(Json)
  {
    var content := "\n" + j + "\n" + rest;
    assert content == "\n" + (j + "\n" + rest) == "\n" + j + ("\n" + rest);
    ContainsInside("\n", j, "\n" + rest, ProjectNameKey);
    assert content[1] == j[0];
    BraceAfterBreak(content);
    EmptyFirstLine(content, j, rest);
    assert !StartsWith(content, Header) by {
      assert content[0] != Header[0];
    }
  }

  /** Anything the WebVTT exporter writes is detected as WebVTT. */
  lemma {:induction false} ExportedVttIsVtt(cues: seq<Cue>)
    ensures DetectFormat(Some(VttHeader + VttBlocks(cues))) == Some(Vtt)
  {
    VttDocumentHasSignature(cues);
  }

  /** Anything the SRT exporter writes for at least one cue is detected as SRT. */
  lemma {:induction false} ExportedSrtIsSrt(cues: seq<Cue>)
    requires cues != []
    ensures DetectFormat(Some(SrtBlocks(cues))) == Some(Srt)
  {
    var doc := SrtBlocks(cues);
    var lines := SrtDocumentLines(cues);
    TrimStartNoop("1");
    TrimEndNoop("1");
    TrimStartNoop(doc);
    assert !StartsWith(doc, Header) by {
      assert Header[0] == 'W';
    }
    assert LooksLikeSrt(lines);
  }

  /** An SRT document opens with the line "1" and then a timing line. */
  lemma {:induction false} SrtDocumentLines(cues: seq<Cue>) returns (lines: seq<string>)
    requires cues != []
    ensures lines == FromLines(SrtBlocks(cues))
    ensures SrtBlocks(cues) != [] && SrtBlocks(cues)[0] == '1'
    ensures |lines| >= 3 && lines[0] == "1" && Contains(lines[1], "-->")
  {
    var c := cues[0];
    var rest := SrtBlocksFirst(cues);
    assert IntToString(1) == "1";
    SrtBlockLines(1, c, rest);
    TimingLineText(c, ',');
    lines := NumberedLines(Timestamp(c.start, ',') + " --> " + Timestamp(c.end, ','), c.word.text + "\n", rest);
  }

  /** The lines of "1", a timing line, and the rest. */
  lemma {:induction false} NumberedLines(t: string, x: string, rest: string) returns (lines: seq<string>)
    requires '\n' !in t && '\r' !in t
    ensures var doc := "1" + "\n" + (t + "\n" + (x + "\n" + rest));
            lines == FromLines(doc) && doc[0] == '1' && |lines| >= 3 && lines[0] == "1" && lines[1] == t
  {
    var tail := x + "\n" + rest;
    LinesOfLine("1", t + "\n" + tail);
    LinesOfLine(t, tail);
    lines := FromLines("1" + "\n" + (t + "\n" + tail));
    assert lines == ["1"] + ([t] + LinesOf(tail));
  }

  /**
   * Text that opens with an ordinary character (no whitespace, digit, line
   * break, brace or the "W" of the WebVTT signature) is plain text.
   */
  lemma {:induction false} ProseIsText(content: string)
    requires content != []
    requires var c := content[0];
             !IsWhitespace(c) && !IsDigit(c) && c != '{' && c != 'W' && c != '\n' && c != '\r'
    ensures DetectFormat(Some(content)) == Some(Txt)
  {
    TrimStartNoop(content);
    assert !StartsWith(content, Header) by {
      assert Header[0] == 'W';
    }
    var lines := FromLines(content);
    var k := FindBreak(content, {'\n', '\r'});
    assert k > 0;
    var first := lines[0];
    assert first == content[..k];
    TrimKeepsFirst(first);
    assert Trim(first)[0] !in Digits;
  }

  /** The unit test's plain text. */
  lemma PlainTextExample()
    ensures DetectFormat(Some("Just some plain text")) == Some(Txt)
  {
    ProseIsText("Just some plain text");
  }
}
