/**
 * importSRT: the file's lines are read entry by entry with parseSRTEntry;
 * every entry that parses becomes a clip, and a malformed one is skipped by
 * one more line.
 */
module SrtImport {
  import opened Wrappers
  import opened JuceText
  import opened Sorting
  import opened DataModel
  import opened SubtitleImport
  import opened ImportClips

  /**
   * The entries importSRT's loop parses from lineIndex `i` on: skip blank
   * lines, stop at the end, take a parsed entry and go on where the parser
   * stopped, or go on one line after where a failed parse stopped.
   */
  function SrtEntries(vs: seq<LineView>, i: nat): seq<SubtitleEntry>
    decreases |vs| + 1 - i
  {
    if i >= |vs| then []
    else
      var k := SkipBlankLines(vs, i);
      if k >= |vs| then []
      else
        var p := SrtAt(vs, k);
        if p.ok then [p.entry] + SrtEntries(vs, p.next) else SrtEntries(vs, p.next + 1)
  }

  /** Every imported entry has two valid times and text free of the stripped characters. */
  lemma {:induction false} SrtEntriesValid(lines: seq<string>)
    ensures forall e :: e in SrtEntries(Views(lines), 0) ==> ValidEntry(e)
  {
    ViewsAreClean(lines);
    EntriesValidFrom(Views(lines), 0);
  }

  /** Two valid times and text free of the stripped characters. */
  predicate ValidEntry(e: SubtitleEntry) {
    e.startTime >= 0.0 && e.endTime >= 0.0 && NoStripped(e.text)
  }

  lemma {:induction false} EntriesValidFrom(vs: seq<LineView>, i: nat)
    requires CleanViews(vs)
    ensures forall e :: e in SrtEntries(vs, i) ==> ValidEntry(e)
    decreases |vs| + 1 - i
  {
    if i < |vs| {
      var k := SkipBlankLines(vs, i);
      if k < |vs| {
        var p := SrtAt(vs, k);
        if p.ok {
          EntryValid(vs, k);
          EntriesValidFrom(vs, p.next);
          assert SrtEntries(vs, i) == [p.entry] + SrtEntries(vs, p.next);
        } else {
          EntriesValidFrom(vs, p.next + 1);
        }
      }
    }
  }

  lemma {:induction false} EntryValid(vs: seq<LineView>, k: nat)
    requires k <= |vs| && CleanViews(vs) && SrtAt(vs, k).ok
    ensures ValidEntry(SrtAt(vs, k).entry)
  {
    SrtAtShape(vs, k);
    GatheredTextIsClean(vs, k + 2);
  }

  /** One pass of the loop from `i`, given where the blank lines end. */
  lemma {:induction false} SrtEntriesStep(vs: seq<LineView>, i: nat, k: nat)
    requires i < |vs| && k == SkipBlankLines(vs, i)
    ensures k >= |vs| ==> SrtEntries(vs, i) == []
    ensures k < |vs| && SrtEntry(vs, k).ok ==> SrtEntries(vs, i) == [SrtEntry(vs, k).entry] + SrtEntries(vs, SrtEntry(vs, k).next)
    ensures k < |vs| && !SrtEntry(vs, k).ok ==> SrtEntries(vs, i) == SrtEntries(vs, SrtEntry(vs, k).next + 1)
  {
    if k < |vs| {
      assert SkipBlankLines(vs, k) == k;
    }
  }

  /**
   * The loop of importSRT over a cleared project: every entry SrtEntries
   * finds is turned into a clip and added, so the project ends holding those
   * clips, sorted by start time.
   */
  method AddSrtClips(lines: seq<string>, project: NarrateProject)
    requires project.clips == []
    modifies project
    ensures project.clips == SortBy(EntryClips(SrtEntries(Views(lines), 0)), StartKey)
    ensures project.projectName == old(project.projectName)
  {
    ghost var vs := Views(lines);
    var lineIndex := 0;
    ghost var done: seq<SubtitleEntry> := [];
    while lineIndex < |lines|
      invariant 0 <= lineIndex <= |lines| + 1
      invariant SrtEntries(vs, 0) == done + SrtEntries(vs, lineIndex)
      invariant project.clips == SortBy(EntryClips(done), StartKey)
      invariant project.projectName == old(project.projectName)
      decreases |lines| + 1 - lineIndex
    {
      var found, entry;
      found, lineIndex, entry := NextSrtEntry(lines, lineIndex);
      if found {
        AddEntryClip(project, done, entry);
        AppendAssoc(done, [entry], SrtEntries(vs, lineIndex));
        done := done + [entry];
      }
    }
    assert done + [] == done;
  }

  /**
   * One pass of importSRT's loop from line `i`: skip blank lines, and unless
   * that reaches the end, parse an entry there, or step one line past a
   * malformed entry. Reaching the end stands for the loop's break, since the
   * loop condition then fails as well.
   */
  method NextSrtEntry(lines: seq<string>, i: nat) returns (found: bool, lineIndex: nat, entry: SubtitleEntry)
    requires i < |lines|
    ensures i < lineIndex <= |lines| + 1
    ensures found ==> SrtEntries(Views(lines), i) == [entry] + SrtEntries(Views(lines), lineIndex)
    ensures !found ==> SrtEntries(Views(lines), i) == SrtEntries(Views(lines), lineIndex)
  {
    lineIndex := SkipBlank(lines, i);
    SrtEntriesStep(Views(lines), i, lineIndex);
    if lineIndex >= |lines| {
      assert SrtEntries(Views(lines), lineIndex) == [];
      return false, lineIndex, NoEntry;
    }
    var next;
    found, next, entry := ParseSRTEntry(lines, lineIndex);
    lineIndex := if found then next else next + 1;
  }

  /**
   * importSRT with the file as its contents (None for a file that does not
   * exist) and its name without extension: a missing or empty file changes
   * nothing and fails; otherwise the project is replaced by one with that
   * name holding the parsed entries' clips, and the import succeeds when
   * there is at least one.
   */
  method ImportSRT(file: Option<string>, fileName: string, project: NarrateProject) returns (ok: bool)
    modifies project
    ensures (file.None? || file.value == []) ==> !ok && project.clips == old(project.clips) && project.projectName == old(project.projectName)
    ensures file.Some? && file.value != [] ==>
              project.projectName == fileName &&
              project.clips == SortBy(EntryClips(SrtEntries(Views(FromLines(file.value)), 0)), StartKey) &&
              (ok <==> SrtEntries(Views(FromLines(file.value)), 0) != [])
  {
    if file.None? {
      return false;
    }
    var content := file.value;
    if content == [] {
      return false;
    }
    project.ClearClips();
    project.SetProjectName(fileName);
    var lines := FromLines(content);
    AddSrtClips(lines, project);
    ok := project.GetNumClips() > 0;
  }
}
