/**
 * The small part of juce::String / juce::StringArray behaviour that the
 * importers, exporters and the data model rely on, written as specified
 * functions over `string` (= seq<char>).
 *
 * Whitespace is the ASCII set (space and '\t'..'\r'); numbers are decimal and
 * unbounded.
 */
module JuceText {

  // --------------------------------------------------------------------------
  // Characters

  predicate IsWhitespace(c: char) {
    c == ' ' || ('\t' <= c <= '\r')
  }

  predicate IsDigit(c: char) {
    '0' <= c <= '9'
  }

  predicate AllDigits(s: string) {
    forall i :: 0 <= i < |s| ==> IsDigit(s[i])
  }

  /** juce::String::containsOnly: every character is in `chars` (true for ""). */
  predicate ContainsOnly(s: string, chars: set<char>) {
    forall i :: 0 <= i < |s| ==> s[i] in chars
  }

  predicate AllWhitespace(s: string) {
    forall i :: 0 <= i < |s| ==> IsWhitespace(s[i])
  }

  // --------------------------------------------------------------------------
  // Trimming

  /** juce::String::trimStart (its facts are TrimStartFacts) */
  function TrimStart(s: string): (r: string)
    ensures |r| <= |s|
  {
    if s != [] && IsWhitespace(s[0]) then TrimStart(s[1..]) else s
  }

  /** trimStart drops a whitespace prefix and leaves a string that does not start with whitespace. */
  lemma {:induction false} TrimStartFacts(s: string)
    ensures TrimStart(s) == s[|s| - |TrimStart(s)|..]
    ensures TrimStart(s) == [] || !IsWhitespace(TrimStart(s)[0])
    ensures AllWhitespace(s[..|s| - |TrimStart(s)|])
    decreases |s|
  {
    if s != [] && IsWhitespace(s[0]) {
      var r := TrimStart(s[1..]);
      TrimStartFacts(s[1..]);
      assert s[..|s| - |r|] == [s[0]] + s[1..][..|s| - 1 - |r|];
    }
  }

  /** juce::String::trimEnd (its facts are TrimEndFacts) */
  function TrimEnd(s: string): (r: string)
    ensures |r| <= |s|
  {
    if s != [] && IsWhitespace(s[|s| - 1]) then TrimEnd(s[..|s| - 1]) else s
  }

  /** trimEnd drops a whitespace suffix and leaves a string that does not end with whitespace. */
  lemma {:induction false} TrimEndFacts(s: string)
    ensures TrimEnd(s) == s[..|TrimEnd(s)|]
    ensures TrimEnd(s) == [] || !IsWhitespace(TrimEnd(s)[|TrimEnd(s)| - 1])
    ensures AllWhitespace(s[|TrimEnd(s)|..])
    decreases |s|
  {
    if s != [] && IsWhitespace(s[|s| - 1]) {
      var r := TrimEnd(s[..|s| - 1]);
      TrimEndFacts(s[..|s| - 1]);
      assert s[|r|..] == s[..|s| - 1][|r|..] + [s[|s| - 1]];
    }
  }

  /** juce::String::trim */
  function Trim(s: string): string {
    TrimEnd(TrimStart(s))
  }

  /** `s.trim().isEmpty()`, stated as: the line holds whitespace only (see BlankIffTrimEmpty). */
  predicate IsBlank(s: string) {
    AllWhitespace(s)
  }

  lemma {:induction false} BlankIffTrimEmpty(s: string)
    ensures IsBlank(s) <==> Trim(s) == []
  {
    var t := TrimStart(s);
    TrimStartFacts(s);
    TrimEndFacts(t);
    if t == [] {
      assert s[..|s|] == s;
    } else {
      assert !IsWhitespace(s[|s| - |t|]);
      assert TrimEnd(t) != [];
    }
  }

  /** A trimmed string neither starts nor ends with whitespace. */
  lemma {:induction false} TrimIsTrimmed(s: string)
    ensures Trim(s) == [] || (!IsWhitespace(Trim(s)[0]) && !IsWhitespace(Trim(s)[|Trim(s)| - 1]))
  {
    var t := TrimStart(s);
    var r := TrimEnd(t);
    TrimStartFacts(s);
    TrimEndFacts(t);
    if r != [] {
      assert r[0] == t[0];
    }
  }

  // --------------------------------------------------------------------------
  // Searching

  /** Trimming only removes characters. */
  lemma {:induction false} TrimOffset(s: string) returns (a: nat)
    ensures a + |Trim(s)| <= |s|
    ensures forall k :: 0 <= k < |Trim(s)| ==> Trim(s)[k] == s[a + k]
  {
    var t := TrimStart(s);
    TrimStartFacts(s);
    TrimEndFacts(t);
    a := |s| - |t|;
    assert forall k :: 0 <= k < |Trim(s)| ==> Trim(s)[k] == t[k];
  }

  predicate StartsWith(s: string, p: string) {
    |p| <= |s| && s[..|p|] == p
  }

  predicate OccursAt(s: string, p: string, i: int) {
    0 <= i && i + |p| <= |s| && s[i..i + |p|] == p
  }

  /** juce::String::indexOf: the first position where `p` occurs, or -1. */
  function IndexOf(s: string, p: string): (r: int)
    ensures -1 <= r <= |s|
    ensures r >= 0 ==> OccursAt(s, p, r)
    ensures forall i :: 0 <= i && (r < 0 || i < r) ==> !OccursAt(s, p, i)
  {
    IndexFrom(s, p, 0)
  }

  function IndexFrom(s: string, p: string, k: nat): (r: int)
    requires k <= |s| + 1
    ensures r == -1 || k <= r <= |s|
    ensures r >= 0 ==> OccursAt(s, p, r)
    ensures forall i :: k <= i && (r < 0 || i < r) ==> !OccursAt(s, p, i)
    decreases |s| + 1 - k
  {
    if k + |p| > |s| then -1
    else if s[k..k + |p|] == p then k
    else IndexFrom(s, p, k + 1)
  }

  /** juce::String::contains */
  predicate Contains(s: string, p: string) {
    IndexOf(s, p) >= 0
  }

  // --------------------------------------------------------------------------
  // Rewriting

  /** juce::String::replace of a one-character pattern: every `c` becomes `rep`. */
  function ReplaceChar(s: string, c: char, rep: string): (r: string)
    ensures c !in rep ==> c !in r
    ensures forall x :: x in r && x !in rep ==> x in s
  {
    if s == [] then []
    else (if s[0] == c then rep else [s[0]]) + ReplaceChar(s[1..], c, rep)
  }

  lemma {:induction false} ReplaceCharAppend(a: string, b: string, c: char, rep: string)
    ensures ReplaceChar(a + b, c, rep) == ReplaceChar(a, c, rep) + ReplaceChar(b, c, rep)
    decreases |a|
  {
    if a != [] {
      assert (a + b)[0] == a[0] && (a + b)[1..] == a[1..] + b;
      ReplaceCharAppend(a[1..], b, c, rep);
    } else {
      assert a + b == b;
    }
  }

  lemma {:induction false} ReplaceCharSingle(x: char, c: char, rep: string)
    ensures ReplaceChar([x], c, rep) == if x == c then rep else [x]
  {
    assert [x][1..] == [];
  }

  lemma {:induction false} ReplaceCharAbsent(s: string, c: char, rep: string)
    requires forall i :: 0 <= i < |s| ==> s[i] != c
    ensures ReplaceChar(s, c, rep) == s
    decreases |s|
  {
    if s != [] {
      ReplaceCharAbsent(s[1..], c, rep);
    }
  }

  /** Replacing a character that is not counted, by uncounted text, keeps the count. */
  lemma {:induction false} ReplaceCharCount(s: string, c: char, rep: string, chars: set<char>)
    requires c !in chars && CountIn(rep, chars) == 0
    ensures CountIn(ReplaceChar(s, c, rep), chars) == CountIn(s, chars)
    decreases |s|
  {
    if s != [] {
      var head := if s[0] == c then rep else [s[0]];
      CountInAppend(head, ReplaceChar(s[1..], c, rep), chars);
      ReplaceCharCount(s[1..], c, rep, chars);
    }
  }

  /** Replacing one non-whitespace character by another commutes with trimStart. */
  lemma {:induction false} TrimStartReplace(s: string, c: char, d: char)
    requires !IsWhitespace(c) && !IsWhitespace(d)
    ensures TrimStart(ReplaceChar(s, c, [d])) == ReplaceChar(TrimStart(s), c, [d])
    decreases |s|
  {
    if s != [] {
      var r := ReplaceChar(s, c, [d]);
      assert r == (if s[0] == c then [d] else [s[0]]) + ReplaceChar(s[1..], c, [d]);
      if IsWhitespace(s[0]) {
        assert r[1..] == ReplaceChar(s[1..], c, [d]);
        TrimStartReplace(s[1..], c, d);
      } else {
        assert !IsWhitespace(r[0]);
      }
    }
  }

  /** Replacing one non-whitespace character by another commutes with trimEnd. */
  lemma {:induction false} TrimEndReplace(s: string, c: char, d: char)
    requires !IsWhitespace(c) && !IsWhitespace(d)
    ensures TrimEnd(ReplaceChar(s, c, [d])) == ReplaceChar(TrimEnd(s), c, [d])
    decreases |s|
  {
    if s != [] {
      var init := s[..|s| - 1];
      var last := s[|s| - 1];
      assert s == init + [last];
      ReplaceCharAppend(init, [last], c, [d]);
      var r := ReplaceChar(s, c, [d]);
      var tail := ReplaceChar([last], c, [d]);
      assert tail == (if last == c then [d] else [last]) + ReplaceChar([], c, [d]);
      assert |tail| == 1;
      assert r == ReplaceChar(init, c, [d]) + tail;
      if IsWhitespace(last) {
        assert r[..|r| - 1] == ReplaceChar(init, c, [d]);
        TrimEndReplace(init, c, d);
      } else {
        assert !IsWhitespace(r[|r| - 1]);
      }
    }
  }

  /** A replacement whose text does not contain the replaced character is idempotent. */
  lemma ReplaceCharIdempotent(s: string, c: char, rep: string)
    requires c !in rep
    ensures ReplaceChar(ReplaceChar(s, c, rep), c, rep) == ReplaceChar(s, c, rep)
  {
    var r := ReplaceChar(s, c, rep);
    assert forall i :: 0 <= i < |r| ==> r[i] != c by {
      forall i | 0 <= i < |r|
        ensures r[i] != c
      {
        assert r[i] in r;
      }
    }
    ReplaceCharAbsent(r, c, rep);
  }

  /** juce::String::removeCharacters */
  function RemoveChars(s: string, chars: set<char>): (r: string)
    ensures |r| <= |s|
    ensures forall i :: 0 <= i < |r| ==> r[i] !in chars
    ensures forall x :: x in r ==> x in s
  {
    if s == [] then []
    else (if s[0] in chars then [] else [s[0]]) + RemoveChars(s[1..], chars)
  }

  /** A character not removed stays in the text. */
  lemma {:induction false} RemoveCharsKeeps(s: string, chars: set<char>, k: nat)
    requires k < |s| && s[k] !in chars
    ensures exists j :: 0 <= j < |RemoveChars(s, chars)| && RemoveChars(s, chars)[j] == s[k]
    decreases k
  {
    var head := if s[0] in chars then [] else [s[0]];
    assert RemoveChars(s, chars) == head + RemoveChars(s[1..], chars);
    if k == 0 {
      assert RemoveChars(s, chars)[0] == s[0];
    } else {
      RemoveCharsKeeps(s[1..], chars, k - 1);
      var j :| 0 <= j < |RemoveChars(s[1..], chars)| && RemoveChars(s[1..], chars)[j] == s[1..][k - 1];
      assert RemoveChars(s, chars)[|head| + j] == s[k];
    }
  }

  /** juce::String::toLowerCase, on the ASCII letters. */
  function ToLower(s: string): (r: string)
    ensures |r| == |s|
    ensures forall i :: 0 <= i < |s| ==> r[i] == (if 'A' <= s[i] <= 'Z' then (s[i] - 'A' + 'a') else s[i])
  {
    if s == [] then [] else [if 'A' <= s[0] <= 'Z' then s[0] - 'A' + 'a' else s[0]] + ToLower(s[1..])
  }

  // --------------------------------------------------------------------------
  // Tokenising

  /** The first position in `s` holding one of `breaks`, or |s|. */
  function FindBreak(s: string, breaks: set<char>): (k: nat)
    ensures k <= |s|
    ensures k < |s| ==> s[k] in breaks
    ensures forall i :: 0 <= i < k ==> s[i] !in breaks
  {
    if s == [] || s[0] in breaks then 0 else 1 + FindBreak(s[1..], breaks)
  }

  /** Splits at every break character, keeping empty pieces; never empty. */
  function SplitAll(s: string, breaks: set<char>): (parts: seq<string>)
    ensures |parts| >= 1
    decreases |s|
  {
    var k := FindBreak(s, breaks);
    if k == |s| then [s] else [s[..k]] + SplitAll(s[k + 1..], breaks)
  }

  /**
   * juce::StringArray::fromTokens(text, breakCharacters, "") : an empty text
   * gives no tokens; otherwise every break character ends a token, so two
   * adjacent break characters give an empty token between them.
   */
  function FromTokens(s: string, breaks: set<char>): (parts: seq<string>)
    ensures s == [] <==> parts == []
  {
    if s == [] then [] else SplitAll(s, breaks)
  }

  function Join(parts: seq<string>, sep: char): string
    requires |parts| >= 1
  {
    if |parts| == 1 then parts[0] else parts[0] + [sep] + Join(parts[1..], sep)
  }

  lemma {:induction false} JoinSnoc(parts: seq<string>, last: string, sep: char)
    requires |parts| >= 1
    ensures Join(parts + [last], sep) == Join(parts, sep) + [sep] + last
    decreases |parts|
  {
    if |parts| > 1 {
      assert (parts + [last])[1..] == parts[1..] + [last];
      JoinSnoc(parts[1..], last, sep);
    } else {
      assert (parts + [last])[1..] == [last];
    }
  }

  /** A break character between two texts ends the first text's last token. */
  lemma {:induction false} SplitAllAtBreak(a: string, c: char, b: string, breaks: set<char>)
    requires c in breaks
    ensures SplitAll(a + [c] + b, breaks) == SplitAll(a, breaks) + SplitAll(b, breaks)
    decreases |a|
  {
    var s := a + [c] + b;
    var k := FindBreakBefore(a, c, b, breaks);
    if k < |a| {
      assert s[k + 1..] == a[k + 1..] + [c] + b;
      assert s[..k] == a[..k];
      SplitAllAtBreak(a[k + 1..], c, b, breaks);
    } else {
      assert s[..k] == a;
      assert s[k + 1..] == b;
    }
  }

  /** The first break in a + [c] + b is the first break of a, or c itself. */
  lemma FindBreakBefore(a: string, c: char, b: string, breaks: set<char>) returns (k: nat)
    requires c in breaks
    ensures k == FindBreak(a, breaks) == FindBreak(a + [c] + b, breaks)
  {
    var s := a + [c] + b;
    k := FindBreak(a, breaks);
    var k' := FindBreak(s, breaks);
    assert forall i :: 0 <= i < |a| ==> s[i] == a[i];
    assert s[|a|] == c;
    assert forall i :: 0 <= i < k ==> s[i] !in breaks;
    assert s[k] in breaks;
  }

  /** No token of SplitAll holds a break character. */
  lemma {:induction false} SplitAllHasNoBreaks(s: string, breaks: set<char>)
    ensures forall j, i :: 0 <= j < |SplitAll(s, breaks)| && 0 <= i < |SplitAll(s, breaks)[j]| ==>
              SplitAll(s, breaks)[j][i] !in breaks
    decreases |s|
  {
    var k := FindBreak(s, breaks);
    if k < |s| {
      SplitAllHasNoBreaks(s[k + 1..], breaks);
    }
  }

  /** Splitting at one separator and joining with it gives the text back. */
  lemma {:induction false} JoinSplitAll(s: string, sep: char)
    ensures Join(SplitAll(s, {sep}), sep) == s
    decreases |s|
  {
    var k := FindBreak(s, {sep});
    if k < |s| {
      var rest := SplitAll(s[k + 1..], {sep});
      assert SplitAll(s, {sep}) == [s[..k]] + rest;
      assert ([s[..k]] + rest)[1..] == rest;
      assert Join([s[..k]] + rest, sep) == s[..k] + [sep] + Join(rest, sep);
      JoinSplitAll(s[k + 1..], sep);
      assert s == s[..k] + [sep] + s[k + 1..];
    } else {
      assert s[..k] == s;
    }
  }

  /** The number of positions of `s` holding one of `chars`. */
  function CountIn(s: string, chars: set<char>): nat {
    if s == [] then 0 else (if s[0] in chars then 1 else 0) + CountIn(s[1..], chars)
  }

  lemma {:induction false} CountInAppend(a: string, b: string, chars: set<char>)
    ensures CountIn(a + b, chars) == CountIn(a, chars) + CountIn(b, chars)
    decreases |a|
  {
    if a != [] {
      assert (a + b)[1..] == a[1..] + b;
      CountInAppend(a[1..], b, chars);
    } else {
      assert a + b == b;
    }
  }

  lemma {:induction false} CountInNone(s: string, chars: set<char>)
    requires forall i :: 0 <= i < |s| ==> s[i] !in chars
    ensures CountIn(s, chars) == 0
    decreases |s|
  {
    if s != [] {
      CountInNone(s[1..], chars);
    }
  }

  /** An occurrence of `p` contributes all of its counted characters. */
  lemma {:induction false} CountInOccurrence(s: string, p: string, i: int, chars: set<char>)
    requires OccursAt(s, p, i)
    ensures CountIn(s, chars) >= CountIn(p, chars)
  {
    assert s == s[..i] + p + s[i + |p|..];
    CountInAppend(s[..i] + p, s[i + |p|..], chars);
    CountInAppend(s[..i], p, chars);
  }

  /** Trimming removes whitespace only, so it keeps the count of non-whitespace characters. */
  lemma {:induction false} CountInTrim(s: string, chars: set<char>)
    requires forall c :: c in chars ==> !IsWhitespace(c)
    ensures CountIn(Trim(s), chars) == CountIn(s, chars)
  {
    CountInTrimStart(s, chars);
    CountInTrimEnd(TrimStart(s), chars);
  }

  lemma {:induction false} CountInTrimStart(s: string, chars: set<char>)
    requires forall c :: c in chars ==> !IsWhitespace(c)
    ensures CountIn(TrimStart(s), chars) == CountIn(s, chars)
    decreases |s|
  {
    if s != [] && IsWhitespace(s[0]) {
      assert s[0] !in chars;
      CountInTrimStart(s[1..], chars);
    }
  }

  lemma {:induction false} CountInTrimEnd(s: string, chars: set<char>)
    requires forall c :: c in chars ==> !IsWhitespace(c)
    ensures CountIn(TrimEnd(s), chars) == CountIn(s, chars)
    decreases |s|
  {
    if s != [] && IsWhitespace(s[|s| - 1]) {
      var init := s[..|s| - 1];
      assert s == init + [s[|s| - 1]];
      CountInAppend(init, [s[|s| - 1]], chars);
      assert s[|s| - 1] !in chars;
      CountInTrimEnd(init, chars);
    }
  }

  /** Splitting gives one more part than there are break characters. */
  lemma {:induction false} SplitAllLength(s: string, breaks: set<char>)
    ensures |SplitAll(s, breaks)| == CountIn(s, breaks) + 1
    decreases |s|
  {
    var k := FindBreak(s, breaks);
    CountInNone(s[..k], breaks);
    if k < |s| {
      assert s == s[..k] + [s[k]] + s[k + 1..];
      CountInAppend(s[..k] + [s[k]], s[k + 1..], breaks);
      CountInAppend(s[..k], [s[k]], breaks);
      SplitAllLength(s[k + 1..], breaks);
    } else {
      assert s[..k] == s;
    }
  }

  /** Joining parts free of break characters at a break character, then splitting, gives the parts back. */
  lemma {:induction false} SplitJoin(parts: seq<string>, sep: char, breaks: set<char>)
    requires |parts| >= 1 && sep in breaks
    requires forall j, i :: 0 <= j < |parts| && 0 <= i < |parts[j]| ==> parts[j][i] !in breaks
    ensures SplitAll(Join(parts, sep), breaks) == parts
    decreases |parts|
  {
    var t := parts[0];
    assert forall i :: 0 <= i < |t| ==> t[i] !in breaks;
    if |parts| == 1 {
      assert FindBreak(t, breaks) == |t|;
      assert t[..|t|] == t;
    } else {
      var rest := Join(parts[1..], sep);
      var s := t + [sep] + rest;
      assert s[|t|] == sep;
      assert forall i :: 0 <= i < |t| ==> s[i] == t[i];
      assert FindBreak(s, breaks) == |t|;
      assert s[..|t|] == t;
      assert s[|t| + 1..] == rest;
      SplitJoin(parts[1..], sep, breaks);
      assert parts == [t] + parts[1..];
    }
  }

  /** Lines of a non-empty text (juce::StringArray::addLines). */
  function LinesOf(s: string): (lines: seq<string>)
    ensures |lines| >= 1
    decreases |s|
  {
    var k := FindBreak(s, {'\n', '\r'});
    if k == |s| then [s]
    else if s[k] == '\r' && k + 1 < |s| && s[k + 1] == '\n' then [s[..k]] + LinesOf(s[k + 2..])
    else [s[..k]] + LinesOf(s[k + 1..])
  }

  /**
   * juce::StringArray::fromLines: splits at "\n", "\r\n" and "\r"; a text that
   * ends in a line break has an empty last line; the empty text has no lines.
   */
  function FromLines(content: string): (lines: seq<string>)
    ensures content == [] <==> lines == []
  {
    if content == [] then [] else LinesOf(content)
  }

  /** A line ended by "\n" is the first line, and the lines of the rest follow. */
  lemma {:induction false} LinesOfLine(a: string, rest: string)
    requires '\n' !in a && '\r' !in a
    ensures LinesOf(a + "\n" + rest) == [a] + LinesOf(rest)
  {
    var s := a + "\n" + rest;
    var k := FindBreak(s, {'\n', '\r'});
    assert s[|a|] == '\n';
    assert forall i :: 0 <= i < |a| ==> s[i] == a[i];
    assert k == |a|;
    assert s[..k] == a;
    assert s[k + 1..] == rest;
  }

  lemma {:induction false} LinesOfHaveNoBreaks(s: string)
    ensures forall j, i :: 0 <= j < |LinesOf(s)| && 0 <= i < |LinesOf(s)[j]| ==>
              LinesOf(s)[j][i] != '\n' && LinesOf(s)[j][i] != '\r'
    decreases |s|
  {
    var k := FindBreak(s, {'\n', '\r'});
    if k < |s| {
      if s[k] == '\r' && k + 1 < |s| && s[k + 1] == '\n' {
        LinesOfHaveNoBreaks(s[k + 2..]);
      } else {
        LinesOfHaveNoBreaks(s[k + 1..]);
      }
    }
  }

  /** For text with "\n" line breaks only, joining the lines with "\n" gives it back. */
  lemma {:induction false} JoinLinesOf(s: string)
    requires '\r' !in s
    ensures Join(LinesOf(s), '\n') == s
    decreases |s|
  {
    var k := FindBreak(s, {'\n', '\r'});
    if k < |s| {
      assert s[k] == '\n';
      assert s == s[..k] + ['\n'] + s[k + 1..];
      assert forall x :: x in s[k + 1..] ==> x in s;
      JoinLinesOf(s[k + 1..]);
    }
  }

  // --------------------------------------------------------------------------
  // Numbers

  function DigitValue(c: char): nat
    requires IsDigit(c)
  {
    (c - '0') as nat
  }

  function DigitChar(d: nat): (c: char)
    requires d < 10
    ensures IsDigit(c) && DigitValue(c) == d
  {
    ('0' as int + d) as char
  }

  /** The value of a string of decimal digits, most significant first. */
  function DigitsValue(d: string): nat
    requires AllDigits(d)
  {
    if d == [] then 0 else DigitsValue(d[..|d| - 1]) * 10 + DigitValue(d[|d| - 1])
  }

  function Pow10(n: nat): (r: nat)
    ensures r >= 1
  {
    if n == 0 then 1 else 10 * Pow10(n - 1)
  }

  /** The number of leading digits of `s`. */
  function DigitSpan(s: string): (n: nat)
    ensures n <= |s| && AllDigits(s[..n])
    ensures n < |s| ==> !IsDigit(s[n])
  {
    if s != [] && IsDigit(s[0]) then 1 + DigitSpan(s[1..]) else 0
  }

  function LeadingNumber(s: string): nat {
    DigitsValue(s[..DigitSpan(s)])
  }

  /** juce::String::getIntValue: leading whitespace, an optional '-', then digits up to the first non-digit. */
  function GetIntValue(s: string): int {
    var t := TrimStart(s);
    if t != [] && t[0] == '-' then -(LeadingNumber(t[1..]) as int) else LeadingNumber(t)
  }

  /**
   * juce::String::getDoubleValue for plain decimals: leading whitespace, an
   * optional sign, digits, optionally '.' and more digits.
   */
  function GetDoubleValue(s: string): real {
    var t := TrimStart(s);
    var neg := t != [] && t[0] == '-';
    var u := if t != [] && (t[0] == '-' || t[0] == '+') then t[1..] else t;
    var n := DigitSpan(u);
    var rest := u[n..];
    var frac := if rest != [] && rest[0] == '.' then FractionValue(rest[1..]) else 0.0;
    var v := DigitsValue(u[..n]) as real + frac;
    if neg then -v else v
  }

  /** The value of the digits after a decimal point. */
  function FractionValue(s: string): real {
    var n := DigitSpan(s);
    DigitsValue(s[..n]) as real / Pow10(n) as real
  }

  /** Decimal digits of a natural number, without leading zeros. */
  function NatToString(n: nat): (s: string)
    ensures |s| >= 1 && AllDigits(s)
  {
    if n < 10 then [DigitChar(n)] else NatToString(n / 10) + [DigitChar(n % 10)]
  }

  /** juce::String(int): decimal with a leading '-' for negative numbers. */
  function IntToString(n: int): string {
    if n < 0 then "-" + NatToString(-n) else NatToString(n)
  }

  function Zeros(k: nat): (s: string)
    ensures |s| == k && AllDigits(s)
    ensures forall i :: 0 <= i < k ==> s[i] == '0'
  {
    if k == 0 then [] else Zeros(k - 1) + "0"
  }

  /** NatToString(n) left-padded with zeros to at least `width` characters. */
  function ZeroPad(n: nat, width: nat): (s: string)
    ensures AllDigits(s) && |s| >= 1 && |s| >= width
  {
    var d := NatToString(n);
    (if |d| < width then Zeros(width - |d|) else []) + d
  }

  /** printf's "%0<width>d": the sign first, then zero padding up to the width. */
  function FormatInt(n: int, width: nat): string {
    if n < 0 then "-" + ZeroPad(-n, if width > 0 then width - 1 else 0) else ZeroPad(n, width)
  }

  /** printf's "%0<width>d" writes a sign and digits only. */
  lemma {:induction false} FormatIntChars(n: int, width: nat)
    ensures forall i :: 0 <= i < |FormatInt(n, width)| ==> FormatInt(n, width)[i] == '-' || IsDigit(FormatInt(n, width)[i])
  {
    if n < 0 {
      var d := ZeroPad(-n, if width > 0 then width - 1 else 0);
      assert FormatInt(n, width) == "-" + d;
      assert forall i :: 0 <= i < |d| ==> IsDigit(d[i]);
    }
  }

  /** One piece of a printf template with its argument bound: a literal character, or "%0<width>d". */
  datatype FormatPiece = Literal(c: char) | Decimal(value: int, width: nat)

  function PieceText(p: FormatPiece): string {
    match p
    case Literal(c) => [c]
    case Decimal(v, w) => FormatInt(v, w)
  }

  /**
   * juce::String::formatted: the pieces' texts one after another. The
   * non-empty case stands apart so that a formatted text is spelled out only
   * where a proof asks for it.
   */
  function Formatted(ps: seq<FormatPiece>): string
    decreases |ps|, 1
  {
    if ps == [] then [] else FormattedOfNonEmpty(ps)
  }

  function FormattedOfNonEmpty(ps: seq<FormatPiece>): string
    requires ps != []
    decreases |ps|, 0
  {
    PieceText(ps[0]) + Formatted(ps[1..])
  }

  lemma {:induction false} FormattedCons(p: FormatPiece, ps: seq<FormatPiece>)
    ensures Formatted([p] + ps) == PieceText(p) + Formatted(ps)
  {
    assert Formatted([p] + ps) == FormattedOfNonEmpty([p] + ps);
    assert ([p] + ps)[1..] == ps;
  }

  /** Seven pieces, spelled out. */
  lemma {:induction false} FormattedSeven(ps: seq<FormatPiece>)
    requires |ps| == 7
    ensures Formatted(ps) ==
            PieceText(ps[0]) + PieceText(ps[1]) + PieceText(ps[2]) + PieceText(ps[3]) +
            PieceText(ps[4]) + PieceText(ps[5]) + PieceText(ps[6])
  {
    var t0, t1, t2, t3 := PieceText(ps[0]), PieceText(ps[1]), PieceText(ps[2]), PieceText(ps[3]);
    var t4, t5, t6 := PieceText(ps[4]), PieceText(ps[5]), PieceText(ps[6]);
    FormattedCons(ps[6], []);
    assert ps[6..] == [ps[6]] + [];
    FormattedCons(ps[5], ps[6..]);
    assert ps[5..] == [ps[5]] + ps[6..];
    FormattedCons(ps[4], ps[5..]);
    assert ps[4..] == [ps[4]] + ps[5..];
    FormattedCons(ps[3], ps[4..]);
    assert ps[3..] == [ps[3]] + ps[4..];
    FormattedCons(ps[2], ps[3..]);
    assert ps[2..] == [ps[2]] + ps[3..];
    FormattedCons(ps[1], ps[2..]);
    assert ps[1..] == [ps[1]] + ps[2..];
    FormattedCons(ps[0], ps[1..]);
    assert ps == [ps[0]] + ps[1..];
    assert Formatted(ps) == t0 + (t1 + (t2 + (t3 + (t4 + (t5 + (t6 + [])))))) by {
      assert Formatted([]) == [];
    }
    RightToLeftSeven(t0, t1, t2, t3, t4, t5, t6);
  }

  lemma {:induction false} RightToLeftSeven(a: string, b: string, c: string, d: string, e: string, f: string, g: string)
    ensures a + (b + (c + (d + (e + (f + (g + [])))))) == a + b + c + d + e + f + g
  {
    assert g + [] == g;
    assert e + (f + g) == e + f + g;
    assert d + (e + f + g) == d + e + f + g;
    assert c + (d + e + f + g) == c + d + e + f + g;
    assert b + (c + d + e + f + g) == b + c + d + e + f + g;
    assert a + (b + c + d + e + f + g) == a + b + c + d + e + f + g;
  }

  lemma {:induction false} DigitsValueAppend(a: string, b: string)
    requires AllDigits(a) && AllDigits(b)
    ensures AllDigits(a + b)
    ensures DigitsValue(a + b) == DigitsValue(a) * Pow10(|b|) + DigitsValue(b)
    decreases |b|
  {
    assert AllDigits(a + b);
    if b == [] {
      assert a + b == a;
    } else {
      var b' := b[..|b| - 1];
      var d := DigitValue(b[|b| - 1]);
      assert (a + b)[..|a + b| - 1] == a + b';
      assert (a + b)[|a + b| - 1] == b[|b| - 1];
      DigitsValueAppend(a, b');
      var v := DigitsValue(a + b');
      assert DigitsValue(a + b) == v * 10 + d;
      assert DigitsValue(b) == DigitsValue(b') * 10 + d;
      assert Pow10(|b|) == 10 * Pow10(|b'|);
      ShiftDigit(v, DigitsValue(a), Pow10(|b'|), DigitsValue(b'), d);
    }
  }

  /** One more digit: (x * p + y) * 10 + d == x * (10 * p) + (y * 10 + d). */
  lemma {:induction false} ShiftDigit(v: nat, x: nat, p: nat, y: nat, d: nat)
    requires v == x * p + y
    ensures v * 10 + d == x * (10 * p) + (y * 10 + d)
  {
  }

  /** Reading back the digits written by NatToString gives the number. */
  lemma {:induction false} DigitsOfNatToString(n: nat)
    ensures DigitsValue(NatToString(n)) == n
  {
    if n >= 10 {
      var s := NatToString(n);
      assert s[..|s| - 1] == NatToString(n / 10);
      DigitsOfNatToString(n / 10);
    }
  }

  lemma {:induction false} DigitsOfZeros(k: nat)
    ensures DigitsValue(Zeros(k)) == 0
  {
    if k > 0 {
      assert Zeros(k)[..k - 1] == Zeros(k - 1);
      DigitsOfZeros(k - 1);
    }
  }

  /** Leading zeros do not change the value: the padding round-trips. */
  lemma {:induction false} DigitsOfZeroPad(n: nat, width: nat)
    ensures DigitsValue(ZeroPad(n, width)) == n
  {
    var d := NatToString(n);
    DigitsOfNatToString(n);
    if |d| < width {
      var z := Zeros(width - |d|);
      assert ZeroPad(n, width) == z + d;
      DigitsOfZeros(width - |d|);
      LeadingZeros(z, d);
    } else {
      assert ZeroPad(n, width) == [] + d == d;
    }
  }

  lemma {:induction false} LeadingZeros(z: string, d: string)
    requires AllDigits(z) && AllDigits(d) && DigitsValue(z) == 0
    ensures AllDigits(z + d) && DigitsValue(z + d) == DigitsValue(d)
  {
    DigitsValueAppend(z, d);
  }

  lemma {:induction false} DigitSpanOfDigits(s: string, rest: string)
    requires AllDigits(s)
    requires rest == [] || !IsDigit(rest[0])
    ensures DigitSpan(s + rest) == |s|
    decreases |s|
  {
    if s != [] {
      assert (s + rest)[1..] == s[1..] + rest;
      DigitSpanOfDigits(s[1..], rest);
    } else {
      assert s + rest == rest;
    }
  }

  /** A string that does not start with whitespace is not trimmed at the start. */
  lemma {:induction false} TrimStartNoop(s: string)
    requires s != [] && !IsWhitespace(s[0])
    ensures TrimStart(s) == s
  {
  }

  /** Trimming a string that starts with a non-space keeps that first character. */
  lemma {:induction false} TrimKeepsFirst(s: string)
    requires s != [] && !IsWhitespace(s[0])
    ensures Trim(s) != [] && Trim(s)[0] == s[0]
  {
    TrimStartNoop(s);
    TrimEndFacts(s);
  }

  lemma {:induction false} TrimEndNoop(s: string)
    requires s != [] && !IsWhitespace(s[|s| - 1])
    ensures TrimEnd(s) == s
  {
  }

  /** getIntValue reads back a zero-padded number. */
  lemma {:induction false} IntValueOfZeroPad(n: nat, width: nat)
    ensures GetIntValue(ZeroPad(n, width)) == n
  {
    var s := ZeroPad(n, width);
    TrimStartNoop(s);
    assert s == s + [];
    DigitSpanOfDigits(s, []);
    assert s[..DigitSpan(s)] == s;
    DigitsOfZeroPad(n, width);
    assert GetIntValue(s) == LeadingNumber(s);
  }

  /** getDoubleValue reads "SS.mmm" as SS + mmm/1000. */
  lemma {:induction false} DoubleValueOfSecondsAndMillis(secs: nat, millis: nat)
    requires millis < 1000
    ensures GetDoubleValue(ZeroPad(secs, 2) + "." + ZeroPad(millis, 3)) == secs as real + millis as real / 1000.0
  {
    var a := ZeroPad(secs, 2);
    var b := ZeroPad(millis, 3);
    var s := a + "." + b;
    TrimStartNoop(s);
    DigitSpanOfDigits(a, "." + b);
    assert s == a + ("." + b);
    DigitsOfZeroPad(secs, 2);
    FractionOfMillis(millis);
    DoubleValueSplit(s, |a|, secs, FractionValue(b));
  }

  /** The three digits written for 0 <= millis < 1000 read back as millis / 1000. */
  lemma {:induction false} FractionOfMillis(millis: nat)
    requires millis < 1000
    ensures FractionValue(ZeroPad(millis, 3)) == millis as real / 1000.0
  {
    var b := ZeroPad(millis, 3);
    assert b == b + [];
    DigitSpanOfDigits(b, []);
    assert b[..|b|] == b;
    DigitsOfZeroPad(millis, 3);
    assert Pow10(3) == 1000;
    NatToStringLength(millis, 3);
    assert |b| == 3;
    assert Pow10(3) == 1000;
  }

  /** A number below 10^k has at most k digits. */
  lemma {:induction false} NatToStringLength(n: nat, k: nat)
    requires k >= 1 && n < Pow10(k)
    ensures |NatToString(n)| <= k
  {
    if n >= 10 {
      assert k >= 2;
      assert n / 10 < Pow10(k - 1);
      NatToStringLength(n / 10, k - 1);
    }
  }

  /** getDoubleValue of unsigned digits, a point and a fraction. */
  lemma {:induction false} DoubleValueSplit(s: string, n: nat, whole: nat, frac: real)
    requires n <= |s| && TrimStart(s) == s && s != [] && IsDigit(s[0])
    requires DigitSpan(s) == n && DigitsValue(s[..n]) == whole
    requires n < |s| && s[n] == '.' && FractionValue(s[n + 1..]) == frac
    ensures GetDoubleValue(s) == whole as real + frac
  {
  }
}
