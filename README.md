# Narrate core, modelled in Dafny

Narrate shows timed text: a project of clips, each a line of words with
their own start offsets, played back as karaoke, teleprompter or
scrolling text. Its core logic includes:

- the timeline of events that drives the highlight during playback;
- the tempo grid highlights can be snapped to;
- the project, clip and word data model, kept sorted by start time;
- the result object that every long operation reports through;
- subtitle import and export (SRT, WebVTT, plain text);
- the free-running view's clock and display state;
- greedy line breaking and the current line and word each renderer highlights;
- the toast notification's fade animation;
- the console exporter's command-line check.

This project models that core in Dafny and proves what the code promises
about it.

Layout, one module per file:

| file | module | models |
|---|---|---|
| wrappers.dfy | Wrappers | Option |
| cpp_arith.dfy | CppArith | C++ truncating `int` division and remainder, `double`-to-`int` truncation |
| juce_text.dfy | JuceText | the juce::String helpers the core relies on (trim, tokens, lines, integer and double parsing, case, replace, number printing) |
| sorting.dfy | Sorting | `std::sort` on one real key: ordered and a permutation |
| data_model.dfy | DataModel | NarrateWord, NarrateClip, NarrateProject |
| highlight_settings.dfy | HighlightSettingsModel | HighlightSettings |
| timeline.dfy | Timeline | TimelineEventManager |
| operation_result.dfy | OperationResults | OperationResult |
| subtitle_import.dfy | SubtitleImport | parseTimecode, line cleaning, the SRT entry parser |
| srt_import.dfy | SrtImport | importSRT |
| import_clips.dfy | ImportClips | the evenly spaced words of an imported clip |
| vtt_import.dfy | VttImport | parseWebVTTCue, importWebVTT |
| plain_text_import.dfy | PlainTextImport | estimateDuration, importPlainText |
| format_detection.dfy | FormatDetection | detectFormat |
| subtitle_export.dfy | SubtitleExport | exportSRT, exportWebVTT, the timestamp formatters, HTML escaping, cue markup |
| running_view.dfy | RunningView | the display state, start, stop, the timer |
| line_breaking.dfy | LineBreaking | the greedy line breaking shared by the three renderers |
| karaoke_render.dfy | KaraokeRender | the Karaoke strategy's searches and highlight rule |
| teleprompter_render.dfy | TeleprompterRender | buildAllLines, the scroll offset, the highlight rule |
| scrolling_render.dfy | ScrollingRender | horizontal alignment, clip placement and skipping, the highlight rule |
| toast.dfy | Toast | the toast notification state machine |
| console.dfy | Console | parseArguments and main's exit code |

Conventions:

- Times are `real`.
- File contents are sequences of lines, or one string where the source
  splits it itself.
- The word widths the renderers measure with JUCE fonts are an input
  sequence of reals.
- Which files exist is a parameter: a set of paths.
- Objects the source mutates in place are classes: NarrateClip,
  NarrateProject, TimelineEventManager, OperationResult, the running view
  and the toast.
- Values stored in `juce::Array` (which copies them) are datatypes.

## Model

| member | source | states |
|---|---|---|
| Timeline.Dispatch | Source/TimelineEventManager.cpp:82-103 | a fired event reaches exactly one callback, with its own clip index; a HighlightEnd event has no case and calls nothing |
| Timeline.WordEventsStep | Source/TimelineEventManager.cpp:28-50 | one pass of the word loop appends word w's start event (clip start plus relativeTime) and its end event (next word's start, or the clip end for the last word) |
| Timeline.ProjectEventsStep | Source/TimelineEventManager.cpp:17-51 | one pass of the clip loop appends that clip's ClipStart, its ClipEnd, then its words' events |
| Timeline.WordEventsLength | Source/TimelineEventManager.cpp:28-50 | two events per word |
| Timeline.WordEventsCount | Source/TimelineEventManager.cpp:28-50 | each start and end event of the first k words occurs exactly once, and nothing else occurs |
| Timeline.IsWordEventStep | Source/TimelineEventManager.cpp:34-49 | a word's start and end events differ from each other and from every earlier word's events |
| Timeline.ClipEventsCount | Source/TimelineEventManager.cpp:19-50 | a clip contributes each of its expected events exactly once, 2 + 2·words events in all |
| Timeline.ProjectEventsLength | Source/TimelineEventManager.cpp:17-51 | the unsorted list has 2 events per clip plus 2 per word |
| Timeline.ProjectEventsCount | Source/TimelineEventManager.cpp:17-51 | the unsorted list holds every expected event of every clip exactly once and nothing else |
| Timeline.ProjectEventOfPrefix | Source/TimelineEventManager.cpp:17-19 | an event not of the last clip is expected for the project exactly when it is expected for the clips before it |
| Timeline.ProjectEventKinds | Source/TimelineEventManager.cpp:22-49 | the builder never makes a HighlightEnd; clip events carry word index -1 and word events a valid word index; every event dispatches to a callback |
| Timeline.BuiltTimeline | Source/TimelineEventManager.cpp:12-58 | any list that is a permutation of the pushed events has 2 per clip plus 2 per word, each expected event exactly once, and no HighlightEnd |
| Timeline.WindowAppend | Source/TimelineEventManager.cpp:63-106 | the events a window selects from two joined lists are those of the first, then those of the second |
| Timeline.WindowAgree | Source/TimelineEventManager.cpp:68-79 | two windows that agree on every event's time select the same events |
| Timeline.EmptyWindow | Source/TimelineEventManager.cpp:68-79 | with currentTime ≤ previousTime no event is in the window |
| Timeline.StopStep | Source/TimelineEventManager.cpp:75-79 | the loop stops at an event at or after currentTime and moves past one before it |
| Timeline.WindowStep | Source/TimelineEventManager.cpp:63-106 | one more event extends the fired events by that event exactly when previousTime ≤ time < currentTime |
| Timeline.StopIndex | Source/TimelineEventManager.cpp:63-79 | the stop index is the first index from the cursor whose event is at or after the bound; every event before it is earlier |
| Timeline.WindowBelow | Source/TimelineEventManager.cpp:68-73 | events all before previousTime are skipped without firing |
| Timeline.WindowAbove | Source/TimelineEventManager.cpp:75-79 | events all at or after currentTime do not fire |
| Timeline.SortedFromStop | Source/TimelineEventManager.cpp:54 | on the sorted timeline, every event from the stop index on is at or after the stop time (see also Source/TimelineEventManager.cpp:75-79) |
| Timeline.ConsecutiveWindows | Source/TimelineEventManager.cpp:60-106 | two calls with adjacent windows [t0,t1) and [t1,t2) fire exactly the events of [t0,t2), in timeline order, so no event fires twice or is lost |
| Timeline.SplitWindows | Source/TimelineEventManager.cpp:60-106 | the two slices a pair of calls walks select together what one window over the whole timeline selects |
| Timeline.WindowFourParts | Source/TimelineEventManager.cpp:63-106 | a window over a timeline cut in four is the four windows in order |
| Timeline.WindowOutside | Source/TimelineEventManager.cpp:68-79 | events before the cursor (all before t0) and events from the stop index (all at or after t2) fire nothing |
| Timeline.TimelineEventManager.constructor | Source/TimelineEventManager.h:59-60 | an empty event list with the cursor at 0 |
| Timeline.TimelineEventManager.GetTimeline | Source/TimelineEventManager.h:56 | read-only access to the event list |
| Timeline.TimelineEventManager.BuildTimeline | Source/TimelineEventManager.cpp:12-58 | the old list is discarded; the new one is sorted by time and is a permutation of the clip and word events pushed in source order; the cursor is 0 |
| Timeline.TimelineEventManager.ProcessEvents | Source/TimelineEventManager.cpp:60-107 | the list is unchanged; the cursor only advances, to the first event at or after max(previousTime, currentTime); the fired events are, in order, the passed events with previousTime ≤ time < currentTime; with currentTime ≤ previousTime nothing fires |
| Timeline.TimelineEventManager.Reset | Source/TimelineEventManager.cpp:109-113 | an empty list and the cursor at 0 |
| Timeline.TimelineEventManager.SeekToTime | Source/TimelineEventManager.h:52-53 | the list is unchanged and the cursor is the first event at or after the time: every event before it is earlier, and on a sorted timeline every event from it on is at or after the time |
| Timeline.SeekThenProcess | Source/TimelineEventManager.h:52-53 | after a seek to t0 on a sorted timeline, processing [t0, t1) fires exactly the timeline's events in that window, in order (see also Source/TimelineEventManager.cpp:60-107) |
| Timeline.ProcessAfterReset | Source/TimelineEventManager.cpp:63 | after reset the loop stops at once and fires nothing (see also Source/TimelineEventManager.cpp:109-113) |
| Timeline.EqualTimesSortEitherWay | Source/TimelineEventManager.h:32 | operator< compares times only: a ClipStart and a WordStart at the same time are unordered, and both orders are sorted permutations |
| Sorting.InsertBy | Source/NarrateDataModel.h:233-238 | insertion into an ordered sequence keeps it ordered and adds exactly the one element |
| Sorting.SortBy | Source/TimelineEventManager.cpp:54 | the result is ordered by the key and a permutation of the input, as std::sort promises (see also Source/NarrateDataModel.h:233-238) |
| Sorting.InsertByLast | Source/NarrateDataModel.h:233-238 | inserting an element no smaller than every other appends it |
| Sorting.SortBySorted | Source/NarrateDataModel.h:233-238 | sorting an already ordered sequence leaves it as it is |
| Sorting.SortBySnoc | Source/NarrateDataModel.h:164 | adding to the sorted clips and sorting again is sorting all the clips added so far [clips with equal starts are kept in the order they were added, one of the orders std::sort may give; see Left out] |
| DataModel.EffectiveFormatting | Source/NarrateDataModel.h:42-45 | the word's own formatting when it has one, the clip default otherwise |
| DataModel.WordAbsoluteTime | Source/NarrateDataModel.h:103-108 | start plus the word's relative time for a valid index, the clip start for an invalid one |
| DataModel.Texts | Source/NarrateDataModel.h:85-91 | the word texts, in order |
| DataModel.NarrateClip.constructor | Source/NarrateDataModel.h:60-61 | the id and times given, no words, the default formatting (see also Source/NarrateDataModel.h:116-121) |
| DataModel.NarrateClip.GetDuration | Source/NarrateDataModel.h:67 | start plus duration is the end |
| DataModel.NarrateClip.SetStartTime | Source/NarrateDataModel.h:72 | only the start changes |
| DataModel.NarrateClip.SetEndTime | Source/NarrateDataModel.h:73 | only the end changes |
| DataModel.NarrateClip.SetDefaultFormatting | Source/NarrateDataModel.h:74 | only the default formatting changes |
| DataModel.NarrateClip.AddWord | Source/NarrateDataModel.h:77 | the word is appended; nothing else changes |
| DataModel.NarrateClip.InsertWord | Source/NarrateDataModel.h:78 | the word goes in at the index, or at the end for an index out of range; nothing else changes |
| DataModel.NarrateClip.RemoveWord | Source/NarrateDataModel.h:79 | the word at a valid index is removed and later ones shift down; an invalid index changes nothing |
| DataModel.NarrateClip.ClearWords | Source/NarrateDataModel.h:80 | no words remain; nothing else changes |
| DataModel.NarrateClip.GetNumWords | Source/NarrateDataModel.h:82 | the number of words |
| DataModel.NarrateClip.GetWordAbsoluteTime | Source/NarrateDataModel.h:103-108 | agrees with WordAbsoluteTime on the clip's value |
| DataModel.NarrateClip.GetFullText | Source/NarrateDataModel.h:85-91 | every word followed by a space, then trimmed |
| DataModel.NarrateClip.SetText | Source/NarrateDataModel.h:94-100 | the words are the space/tab/newline tokens of the text in order, each at relative time 0 without formatting; the rest of the clip is unchanged |
| DataModel.SpacedTextIsJoin | Source/NarrateDataModel.h:85-91 | the text getFullText accumulates is the words joined by spaces plus one trailing space |
| DataModel.FullTextThenSetText | Source/NarrateDataModel.h:85-100 | for words that are non-empty and free of whitespace, setText(getFullText()) gives back the same word texts |
| DataModel.TokensRoundTrip | Source/NarrateDataModel.h:90-97 | trimming tokens joined by spaces (plus a trailing space) and splitting again gives the tokens |
| DataModel.ClipIndexAtTime | Source/NarrateDataModel.h:177-186 | the smallest index whose clip has start ≤ t < end, or -1 when there is none |
| DataModel.TotalDuration | Source/NarrateDataModel.h:189-199 | 0 without clips; otherwise not below 0 and every clip end, and equal to 0 or to some clip's end |
| DataModel.HasOverlappingClips | Source/NarrateDataModel.h:202-212 | true exactly when some clip ends after the next one starts |
| DataModel.NoOverlapOrdersClips | Source/NarrateDataModel.h:202-212 | without overlaps, every clip ends no later than any later clip starts |
| DataModel.AtMostOneActiveClip | Source/NarrateDataModel.h:177-186 | without overlaps, at most one clip is active at any time (see also Source/NarrateDataModel.h:202-212) |
| DataModel.TotalDurationIsLastEnd | Source/NarrateDataModel.h:188-199 | without overlaps and with a non-negative last end, the total duration is the last clip's end, as the comment says |
| DataModel.NarrateProject.constructor | Source/NarrateDataModel.h:131 | no name and no clips |
| DataModel.NarrateProject.SetProjectName | Source/NarrateDataModel.h:135 | only the name changes |
| DataModel.NarrateProject.AddClip | Source/NarrateDataModel.h:164 | the clips are sorted by start and are the old clips plus the new one; the name is unchanged (see also Source/NarrateDataModel.h:233-238) [clips with equal starts are kept in the order they were added, one of the orders std::sort may give; see Left out] |
| DataModel.NarrateProject.InsertClip | Source/NarrateDataModel.h:165 | the clips are sorted by start and are the old clips plus the new one, whatever the index (see also Source/NarrateDataModel.h:233-238) |
| DataModel.NarrateProject.RemoveClip | Source/NarrateDataModel.h:166 | a valid index removes that clip; an invalid one changes nothing; sorted clips stay sorted |
| DataModel.NarrateProject.ClearClips | Source/NarrateDataModel.h:167 | no clips remain; the name is unchanged |
| DataModel.NarrateProject.GetNumClips | Source/NarrateDataModel.h:174 | the number of clips |
| DataModel.NarrateProject.GetClipIndexAtTime | Source/NarrateDataModel.h:177-186 | the loop returns ClipIndexAtTime |
| DataModel.NarrateProject.GetTotalDuration | Source/NarrateDataModel.h:189-199 | the jmax loop returns TotalDuration |
| DataModel.NarrateProject.HasOverlapping | Source/NarrateDataModel.h:202-212 | the adjacent-pair loop returns HasOverlappingClips |
| DataModel.ClipIndexUnique | Source/NarrateDataModel.h:177-186 | the first-active-clip contract has exactly one solution |
| HighlightSettingsModel.SnapInterval | Source/HighlightSettings.h:107-114 | 0 when quantising is off or bpm ≤ 0; otherwise interval·bpm·subdivision = 60, positive exactly when the subdivision is |
| HighlightSettingsModel.Round | Source/HighlightSettings.h:125 | std::round: within one half of the input, halves away from zero |
| HighlightSettingsModel.QuantizeTime | Source/HighlightSettings.h:119-126 | the input itself without a positive interval; otherwise a multiple of the interval within half an interval of the input |
| HighlightSettingsModel.NearestGridPoint | Source/HighlightSettings.h:125 | the rounded multiple is on the grid and within half an interval of the time |
| HighlightSettingsModel.QuantizeIdempotent | Source/HighlightSettings.h:119-126 | quantising a quantised time returns it unchanged |
| HighlightSettingsModel.PresetFields | Source/HighlightSettings.h:39-99 | the fields each preset sets: the rhythmic grid, minimums 0.2 and 0.3, the fixed duration, quantising off except for the rhythmic preset |
| HighlightSettingsModel.OnlyRhythmicPresetQuantizes | Source/HighlightSettings.h:39-99 | quantising with the natural, storytelling, teleprompter, fixed or default settings returns the time unchanged (see also Source/HighlightSettings.h:121-123) |
| HighlightSettingsModel.RhythmicDefaultGrid | Source/HighlightSettings.h:65-73 | at 120 bpm in quarters the interval is 0.125 s; 1.3 snaps to 1.25 and 0.0625 to 0.125 (see also Source/HighlightSettings.h:107-126) |
| OperationResults.CountOf | Source/OperationResult.h:108-124 | a count never exceeds the number of messages |
| OperationResults.Filter | Source/OperationResult.h:127-152 | every message kept has the severity asked for |
| OperationResults.CountsSum | Source/OperationResult.h:108-124 | the info, warning and error counts add up to the number of messages |
| OperationResults.FilterLength | Source/OperationResult.h:108-152 | a filter holds as many messages as the matching count |
| OperationResults.FilterAppend | Source/OperationResult.h:127-152 | filtering keeps the original order: it distributes over concatenation |
| OperationResults.FilterMembership | Source/OperationResult.h:127-152 | a message is in the filter exactly when it is in the list with that severity |
| OperationResults.CountPhrasePlural | Source/OperationResult.h:194 | the phrase is the count and noun, ending in "s" exactly when the count exceeds 1 (see also Source/OperationResult.h:198) |
| OperationResults.IssuesShape | Source/OperationResult.h:187-199 | no suffix without errors or warnings; otherwise " - ", errors first, then warnings, with ", " only when both are present |
| OperationResults.OutcomeShape | Source/OperationResult.h:176-185 | the operation name, then " completed successfully" (with " (n items)" only for a positive count) or " failed" |
| OperationResults.OperationResult.constructor | Source/OperationResult.h:66-89 | the success flag and name given, zero statistics, no messages |
| OperationResults.OperationResult.AddInfo | Source/OperationResult.h:92-95 | exactly one Info message is appended; earlier messages are unchanged |
| OperationResults.OperationResult.AddWarning | Source/OperationResult.h:97-100 | exactly one Warning message is appended; earlier messages are unchanged |
| OperationResults.OperationResult.AddError | Source/OperationResult.h:102-105 | exactly one Error message is appended; earlier messages are unchanged |
| OperationResults.OperationResult.GetWarningCount | Source/OperationResult.h:108-112 | the number of warnings |
| OperationResults.OperationResult.GetErrorCount | Source/OperationResult.h:114-118 | the number of errors |
| OperationResults.OperationResult.GetInfoCount | Source/OperationResult.h:120-124 | the number of infos |
| OperationResults.OperationResult.Collect | Source/OperationResult.h:127-152 | the loop returns the messages of the severity in order, as many as the count |
| OperationResults.OperationResult.GetWarnings | Source/OperationResult.h:127-134 | the warnings in order, as many as getWarningCount |
| OperationResults.OperationResult.GetErrors | Source/OperationResult.h:136-143 | the errors in order, as many as getErrorCount |
| OperationResults.OperationResult.GetInfos | Source/OperationResult.h:145-152 | the infos in order, as many as getInfoCount |
| OperationResults.OperationResult.GetSummary | Source/OperationResult.h:172-202 | the outcome text followed by the issues text for the current counts |
| OperationResults.AppendOutcome | Source/OperationResult.h:176-185 | the step-by-step appends produce the outcome text |
| OperationResults.AppendIssues | Source/OperationResult.h:187-199 | the step-by-step appends produce the issues text |
| OperationResults.CreateSuccess | Source/OperationResult.h:155-161 | succeeded, items processed and successful both equal the count, no messages |
| OperationResults.CreateFailure | Source/OperationResult.h:164-169 | failed, with exactly one message, an Error with the text given |
| OperationResults.SummaryShowsOutcome | Source/OperationResult.h:176-185 | a success summary never equals a failure summary for the same operation name |
| OperationResults.SuccessSummaryExample | Source/OperationResult.h:172-202 | a success without items or issues reads "Import SRT completed successfully" |
| OperationResults.FailureSummaryExample | Source/OperationResult.h:172-202 | a failure with 1 error and 2 warnings reads "Export failed - 1 error, 2 warnings" |
| JuceText.TrimStartFacts | Source/Features/StandaloneImportFeature.cpp:14 | trimStart drops exactly a whitespace prefix and leaves a non-whitespace first character |
| JuceText.TrimEndFacts | Source/Features/StandaloneImportFeature.cpp:14 | trimEnd drops exactly a whitespace suffix and leaves a non-whitespace last character |
| JuceText.BlankIffTrimEmpty | Source/Features/StandaloneImportFeature.cpp:100 | `trim().isEmpty()` holds exactly when the line is all whitespace |
| JuceText.TrimIsTrimmed | Source/Features/StandaloneImportFeature.cpp:14 | a trimmed string is empty or starts and ends with non-whitespace |
| JuceText.TrimOffset | Source/Features/StandaloneImportFeature.cpp:146 | the trimmed string is a contiguous part of the original |
| JuceText.IndexOf | Source/Features/StandaloneImportFeature.cpp:119 | indexOf returns the first position where the pattern occurs, or -1 when it occurs nowhere |
| JuceText.ReplaceChar | Source/Features/StandaloneImportFeature.cpp:17 | replacing a character by a text without it leaves none of it, and adds only the replacement's characters |
| JuceText.ReplaceCharAppend | Source/Features/StandaloneExportFeature.cpp:146-153 | replacement works piecewise over a concatenation |
| JuceText.ReplaceCharAbsent | Source/Features/StandaloneExportFeature.cpp:146-153 | a string without the character is unchanged |
| JuceText.ReplaceCharCount | Source/Features/StandaloneImportFeature.cpp:17-20 | replacing ',' by '.' does not change how many ':' there are |
| JuceText.TrimStartReplace | Source/Features/StandaloneImportFeature.cpp:14-17 | trimming and replacing one non-space character by another commute at the start |
| JuceText.TrimEndReplace | Source/Features/StandaloneImportFeature.cpp:14-17 | trimming and replacing one non-space character by another commute at the end |
| JuceText.ReplaceCharIdempotent | Source/Features/StandaloneImportFeature.cpp:17 | replacing twice is replacing once |
| JuceText.RemoveChars | Source/Features/StandaloneImportFeature.cpp:158-159 | removeCharacters leaves none of the removed set and adds nothing |
| JuceText.RemoveCharsKeeps | Source/Features/StandaloneImportFeature.cpp:158-159 | a character outside the set survives |
| JuceText.ToLower | Source/Console/NarrateConsole.cpp:102 | toLowerCase maps A-Z to a-z, character by character, and keeps the length; capitals outside A-Z are not lowered (see Left out) |
| JuceText.FindBreak | Source/Features/StandaloneImportFeature.cpp:20 | the first break character, or the end |
| JuceText.SplitAll | Source/Features/StandaloneImportFeature.cpp:20 | splitting yields at least one piece |
| JuceText.FromTokens | Source/Features/StandaloneImportFeature.cpp:20 | fromTokens of the empty string is empty, and of anything else is not (see also Source/NarrateDataModel.h:97) |
| JuceText.JoinSnoc | Source/Features/StandaloneImportFeature.cpp:161-163 | joining one more part appends the separator and the part |
| JuceText.SplitAllAtBreak | Source/Features/StandaloneImportFeature.cpp:20 | splitting at a break character splits the two sides separately |
| JuceText.SplitAllHasNoBreaks | Source/Features/StandaloneImportFeature.cpp:20 | no piece holds a break character |
| JuceText.JoinSplitAll | Source/Features/StandaloneImportFeature.cpp:20 | joining the pieces split at a separator gives the string back |
| JuceText.SplitJoin | Source/Features/StandaloneImportFeature.cpp:20 | splitting parts joined by a break character, none holding a break, gives the parts back (see also Source/NarrateDataModel.h:97) |
| JuceText.SplitAllLength | Source/Features/StandaloneImportFeature.cpp:20-22 | one piece more than there are break characters |
| JuceText.CountInAppend | Source/Features/StandaloneImportFeature.cpp:20-22 | counts add over concatenation |
| JuceText.CountInTrim | Source/Features/StandaloneImportFeature.cpp:14-22 | trimming keeps every non-whitespace character, so the colon count |
| JuceText.LinesOf | Source/Features/StandaloneImportFeature.cpp:198 | splitting at line ends yields at least one line |
| JuceText.FromLines | Source/Features/StandaloneImportFeature.cpp:62 | fromLines of empty content is empty, and of anything else is not (see also Source/Features/StandaloneImportFeature.cpp:198) |
| JuceText.LinesOfLine | Source/Features/StandaloneImportFeature.cpp:198 | a line ended by "\n" is the first line, and the rest follows |
| JuceText.LinesOfHaveNoBreaks | Source/Features/StandaloneImportFeature.cpp:198 | no line holds "\n" or "\r" |
| JuceText.JoinLinesOf | Source/Features/StandaloneImportFeature.cpp:198 | content without "\r" is its lines joined by "\n" |
| JuceText.DigitChar | Source/Features/StandaloneExportFeature.cpp:126-144 | the digit character of a value below 10 reads back as that value |
| JuceText.DigitSpan | Source/Features/StandaloneImportFeature.cpp:25-29 | the longest run of leading digits |
| JuceText.NatToString | Source/OperationResult.h:180 | a number prints as a non-empty run of digits |
| JuceText.ZeroPad | Source/Features/StandaloneExportFeature.cpp:126-144 | "%0Nd" prints at least N digits |
| JuceText.FormatIntChars | Source/Features/StandaloneExportFeature.cpp:126-144 | "%0Nd" prints only a sign and digits |
| JuceText.FormattedCons | Source/Features/StandaloneExportFeature.cpp:126-144 | String::formatted writes its pieces in order |
| JuceText.DigitsValueAppend | Source/Features/StandaloneImportFeature.cpp:25-29 | the value of digits followed by digits |
| JuceText.DigitsOfNatToString | Source/Features/StandaloneImportFeature.cpp:25-29 | printed digits read back as the number |
| JuceText.DigitsOfZeroPad | Source/Features/StandaloneImportFeature.cpp:25-29 | zero-padded digits read back as the number |
| JuceText.IntValueOfZeroPad | Source/Features/StandaloneImportFeature.cpp:25-26 | getIntValue of a zero-padded number is the number |
| JuceText.DoubleValueOfSecondsAndMillis | Source/Features/StandaloneImportFeature.cpp:29 | getDoubleValue of "SS.mmm" is the seconds plus the milliseconds in thousandths |
| JuceText.FractionOfMillis | Source/Features/StandaloneImportFeature.cpp:29 | three millisecond digits after the point are thousandths |
| JuceText.NatToStringLength | Source/Features/StandaloneExportFeature.cpp:126-144 | a number below 10^k prints in at most k digits |
| JuceText.DoubleValueSplit | Source/Features/StandaloneImportFeature.cpp:29 | getDoubleValue of digits, a point and digits is the whole part plus the fraction |
| SubtitleImport.TimecodeFieldCount | Source/Features/StandaloneImportFeature.cpp:14-22 | there are three fields exactly when the string holds two colons |
| SubtitleImport.TimecodeNeedsTwoColons | Source/Features/StandaloneImportFeature.cpp:20-23 | without exactly two colons parseTimecode returns -1 |
| SubtitleImport.TimecodeSeparatorsAgree | Source/Features/StandaloneImportFeature.cpp:17 | commas and periods read the same: turning commas into periods first changes nothing |
| SubtitleImport.ParseTimecodeText | Source/Features/StandaloneImportFeature.cpp:8-32 | HH:MM:SS,mmm and HH:MM:SS.mmm both read as h·3600 + m·60 + s + ms/1000 |
| SubtitleImport.TimecodeTextFields | Source/Features/StandaloneImportFeature.cpp:14-20 | a zero-padded timecode splits into hours, minutes and "SS.mmm" |
| SubtitleImport.DigitFields | Source/Features/StandaloneImportFeature.cpp:14-20 | any digit fields split that way, whichever separator the milliseconds have |
| SubtitleImport.ReplaceDecimalSeparator | Source/Features/StandaloneImportFeature.cpp:17 | the only comma, the decimal separator, becomes a period |
| SubtitleImport.ThreeFields | Source/Features/StandaloneImportFeature.cpp:20 | "a:b:c" tokenises into a, b and c |
| SubtitleImport.TimecodeExamples | Source/Features/StandaloneImportFeature.cpp:20-23 | "invalid", "12:34" and "" read as -1 (see also Tests/Unit/ImportFeatureTests.cpp:469-474) |
| SubtitleImport.TimecodeTextExamples | Source/Features/StandaloneImportFeature.cpp:8-32 | "00:01:30,500" reads as 90.5 (see also Tests/Unit/ImportFeatureTests.cpp:458) |
| SubtitleImport.ViewAt | Source/Features/StandaloneImportFeature.cpp:100-165 | each line's view is its blankness, index value, timecode reading and cleaned text [corrected: control characters are removed, which the source as written does not do; see Findings] |
| SubtitleImport.SkipBlankLines | Source/Features/StandaloneImportFeature.cpp:100-101 | the first non-blank line from i, or the end; every line skipped is blank |
| SubtitleImport.TextRunEnd | Source/Features/StandaloneImportFeature.cpp:144 | the first blank line from i, or the end; every line before it is non-blank |
| SubtitleImport.GatherIsJoin | Source/Features/StandaloneImportFeature.cpp:161-163 | with no empty piece, the accumulated text is the pieces joined by single spaces |
| SubtitleImport.GatherEmptyIff | Source/Features/StandaloneImportFeature.cpp:161-169 | the accumulated text is empty exactly when every piece is |
| SubtitleImport.CleanLine | Source/Features/StandaloneImportFeature.cpp:146-159 | a cleaned line holds no zero-width space, no BOM and no control character other than tab, line feed, carriage return [corrected: control characters are removed, which the source as written does not do; see Findings] |
| SubtitleImport.CleanLineAsWritten | Source/Features/StandaloneImportFeature.cpp:146-159 | as written, the zero-width space and the BOM are removed |
| SubtitleImport.AsWrittenKeepsControls | Source/Features/StandaloneImportFeature.cpp:158-159 | as written, a control character survives cleaning; the corrected cleaning removes it |
| SubtitleImport.AsWrittenControlExample | Source/Features/StandaloneImportFeature.cpp:158-159 | "a\x01b" stays as it is as written, and cleans to "ab" when corrected (see also Tests/Unit/ImportFeatureTests.cpp:150-168) |
| SubtitleImport.ViewsAreClean | Source/Features/StandaloneImportFeature.cpp:146-159 | every line's cleaned text is clean [corrected: control characters are removed, which the source as written does not do; see Findings] |
| SubtitleImport.RunTextIsGather | Source/Features/StandaloneImportFeature.cpp:143-165 | the text loop accumulates the cleaned lines up to the next blank line |
| SubtitleImport.RunTextIsClean | Source/Features/StandaloneImportFeature.cpp:143-165 | clean lines accumulate to clean text [corrected: control characters are removed, which the source as written does not do; see Findings] |
| SubtitleImport.ArrowTimes | Source/Features/StandaloneImportFeature.cpp:119-133 | a timecode line reads as two times exactly when it holds "-->" |
| SubtitleImport.SrtEntry | Source/Features/StandaloneImportFeature.cpp:86-170 | parseSRTEntry never moves lineIndex backwards, nor past the end |
| SubtitleImport.SrtAt | Source/Features/StandaloneImportFeature.cpp:106-170 | reading an entry at a non-blank line moves forward, within the lines |
| SubtitleImport.SrtAtShape | Source/Features/StandaloneImportFeature.cpp:106-169 | a successful entry has the index from its first line, two non-negative times from its second, and the trimmed text of the lines up to the next blank one |
| SubtitleImport.SrtEntryShape | Source/Features/StandaloneImportFeature.cpp:113-140 | a successful entry's timecode line holds "-->", and both times are non-negative |
| SubtitleImport.TimedLineHasArrow | Source/Features/StandaloneImportFeature.cpp:119-124 | a line that reads as two times holds "-->" |
| SubtitleImport.SrtTextIsClean | Source/Features/StandaloneImportFeature.cpp:155-167 | a parsed entry's text holds none of the stripped characters [corrected: control characters are removed, which the source as written does not do; see Findings] |
| SubtitleImport.GatheredTextIsClean | Source/Features/StandaloneImportFeature.cpp:155-167 | the trimmed text gathered from clean lines is clean |
| SubtitleImport.SrtTextIsJoin | Source/Features/StandaloneImportFeature.cpp:143-169 | when no text line cleans to nothing, a parsed entry's text is its cleaned text lines joined by single spaces, and there is at least one |
| SubtitleImport.RunTextIsJoin | Source/Features/StandaloneImportFeature.cpp:143-169 | the gathered text is non-empty exactly when there is a text line, and is then the lines joined by single spaces |
| SubtitleImport.SkipBlank | Source/Features/StandaloneImportFeature.cpp:100-101 | the loop stops at SkipBlankLines |
| SubtitleImport.PiecesSnoc | Source/Features/StandaloneImportFeature.cpp:161-164 | one more text line appends " " and the line (just the line for the first) |
| SubtitleImport.GatherText | Source/Features/StandaloneImportFeature.cpp:143-165 | the text loop stops at the next blank line, having accumulated RunText |
| SubtitleImport.ParseSRTEntry | Source/Features/StandaloneImportFeature.cpp:86-170 | success, the new lineIndex and the entry are SrtEntry's [corrected: control characters are removed, which the source as written does not do; see Findings] |
| SubtitleImport.ParseIndexedSRTEntry | Source/Features/StandaloneImportFeature.cpp:106-170 | from the index line on, the parse agrees with SrtAt |
| SubtitleImport.ParseTimedSRTEntry | Source/Features/StandaloneImportFeature.cpp:113-170 | from the timecode line on, the parse agrees with SrtAt |
| SrtImport.SrtEntriesValid | Source/Features/StandaloneImportFeature.cpp:132-140 | every entry importSRT reads has non-negative start and end times and text without the stripped characters (see also Source/Features/StandaloneImportFeature.cpp:155-159) [corrected: control characters are removed, which the source as written does not do; see Findings] |
| SrtImport.EntriesValidFrom | Source/Features/StandaloneImportFeature.cpp:209-269 | the loop reads valid entries from any starting line |
| SrtImport.SrtEntriesStep | Source/Features/StandaloneImportFeature.cpp:209-269 | one pass of the loop: after the blank lines, a parsed entry is kept and reading resumes after it; a failed one is dropped and reading resumes one line past where it stopped |
| SrtImport.AddSrtClips | Source/Features/StandaloneImportFeature.cpp:198-269 | the project's clips become the clips of every entry read, sorted by start time; the name is kept [corrected: control characters are removed, which the source as written does not do; see Findings] [clips with equal starts are kept in the order they were added, one of the orders std::sort may give; see Left out] |
| SrtImport.NextSrtEntry | Source/Features/StandaloneImportFeature.cpp:212-268 | one pass of the loop moves forward, and either yields the next entry or yields nothing, with the entries still to read unchanged |
| SrtImport.ImportSRT | Source/Features/StandaloneImportFeature.cpp:172-278 | a missing or empty file fails and changes nothing; otherwise the project is renamed and reset to the sorted clips of the entries, and the import succeeds exactly when there is at least one [corrected: control characters are removed, which the source as written does not do; see Findings] [clips with equal starts are kept in the order they were added, one of the orders std::sort may give; see Left out] |
| ImportClips.SpacedTexts | Source/Features/StandaloneImportFeature.cpp:233-248 | a clip's words are its text's space-separated tokens in order, with no formatting of their own |
| ImportClips.EvenSpacing | Source/Features/StandaloneImportFeature.cpp:236-248 | the first word starts at 0, each next one duration/n after the last, and the last word's share ends at the clip's duration |
| ImportClips.SpacedWordsWithinClip | Source/Features/StandaloneImportFeature.cpp:236-248 | for a positive duration, every word starts inside the clip |
| ImportClips.BuildTextClip | Source/Features/StandaloneImportFeature.cpp:228-248 | the clip loop builds the clip of the entry's times with its text's tokens, evenly spaced; the clip has no id and the default formatting |
| ImportClips.AddEntryClip | Source/Features/StandaloneImportFeature.cpp:250 | adding one entry's clip keeps the project's clips the sorted clips of the entries so far [clips with equal starts are kept in the order they were added, one of the orders std::sort may give; see Left out] |
| VttImport.SplitOnArrow | Source/Features/StandaloneImportFeature.cpp:321 | splitting at the "-->" arrows yields at least one part |
| VttImport.SplitOnArrowJoins | Source/Features/StandaloneImportFeature.cpp:321-323 | the parts joined by "-->" give the line back, and no part holds an arrow |
| VttImport.ArrowLineHasFourTokens | Source/Features/StandaloneImportFeature.cpp:321-323 | as written, a line holding "-->" tokenises into at least four tokens, so it never passes the two-part check |
| VttImport.ArrowLineReadsTimes | Source/Features/StandaloneImportFeature.cpp:321-326 | split at the arrow, "x-->y" (times without '-') gives the parts x and y and reads their two timecodes |
| VttImport.CueLines | Source/Features/StandaloneImportFeature.cpp:301-338 | one reading per line |
| VttImport.SkipBlankCues | Source/Features/StandaloneImportFeature.cpp:301-302 | the first line from i whose trimmed text is non-empty, or the end; every line skipped is blank |
| VttImport.CueRunEnd | Source/Features/StandaloneImportFeature.cpp:334 | the first blank line from i, or the end; every line before it has text |
| VttImport.CueTextIsJoin | Source/Features/StandaloneImportFeature.cpp:333-340 | the cue text is non-empty exactly when there is a text line, and is then the trimmed lines joined by single spaces |
| VttImport.VttCue | Source/Features/StandaloneImportFeature.cpp:284-345 | parseWebVTTCue never moves lineIndex backwards nor past the end, and moves it forward whenever it succeeds |
| VttImport.VttCueShape | Source/Features/StandaloneImportFeature.cpp:297-344 | a parsed cue's times are those of its timing line (after an optional identifier), both non-negative, and its text is the following lines up to the next blank one, joined by single spaces |
| VttImport.TimedCueShape | Source/Features/StandaloneImportFeature.cpp:321-344 | from the timing line on, the cue has that line's times, both non-negative, and the text up to the next blank line |
| VttImport.AsWrittenSkipsArrowLines | Source/Features/StandaloneImportFeature.cpp:308-323 | as written, a cue is only ever read from a timing line without "-->", which WebVTT cues never have |
| VttImport.AtArrowsReadsTimecodes | Source/Features/StandaloneImportFeature.cpp:308-326 | split at the arrow, a parsed cue's timing line is two arrow-free parts around "-->" and the cue's times are their timecodes |
| VttImport.AsWrittenStallsAtArrowLine | Source/Features/StandaloneImportFeature.cpp:301-323 | as written, a parse that reaches a line with "-->" fails without moving lineIndex past the blank lines, and the next parse from there fails the same way, so the loop never ends (see also Source/Features/StandaloneImportFeature.cpp:378-418) |
| VttImport.FirstCueLineHasArrow | Tests/Unit/ImportFeatureTests.cpp:192 | a cue timing line holds "-->" and has no surrounding whitespace |
| VttImport.AsWrittenStallExample | Source/Features/StandaloneImportFeature.cpp:378-418 | as written, on "WEBVTT", "", a timing line, "Hello" the parse from line 1 fails at line 2, and so does every parse from line 2 (see also Tests/Unit/ImportFeatureTests.cpp:189-203) |
| VttImport.VttEntriesStep | Source/Features/StandaloneImportFeature.cpp:378-418 | one pass of the corrected loop keeps the cue it parsed, if any, and goes on from where the parse stopped, or one line further after a failure |
| VttImport.VttEntriesValid | Source/Features/StandaloneImportFeature.cpp:329-344 | every imported cue has two non-negative times and some text [corrected: the timing line is split at "-->" and a failed cue skips one line, where the source as written never gets past the first timing line; see Findings] |
| VttImport.SkipBlankCueLines | Source/Features/StandaloneImportFeature.cpp:301-302 | the loop stops at SkipBlankCues |
| VttImport.CueLinesTexts | Source/Features/StandaloneImportFeature.cpp:308 | each line's reading holds its trimmed text (see also Source/Features/StandaloneImportFeature.cpp:338) |
| VttImport.GatherCueText | Source/Features/StandaloneImportFeature.cpp:333-340 | the text loop stops at the next blank line, having accumulated CueText |
| VttImport.ParseWebVTTCue | Source/Features/StandaloneImportFeature.cpp:284-345 | success, the new lineIndex and the cue are VttCue's, for either way of splitting the timing line |
| VttImport.ParseCueTimes | Source/Features/StandaloneImportFeature.cpp:321-344 | from the timing line on, the parse agrees with VttTimedCue |
| VttImport.NextCue | Source/Features/StandaloneImportFeature.cpp:378-418 | one pass of the corrected loop moves forward, adding the cue it parsed, if any, to those already taken, with the rest still to read [corrected: the timing line is split at "-->" and a failed cue skips one line, where the source as written never gets past the first timing line; see Findings] |
| VttImport.TakeCue | Source/Features/StandaloneImportFeature.cpp:381-407 | one pass also adds the cue's clip, keeping the project's clips the sorted clips of the cues so far [corrected: the timing line is split at "-->" and a failed cue skips one line, where the source as written never gets past the first timing line; see Findings] [clips with equal starts are kept in the order they were added, one of the orders std::sort may give; see Left out] |
| VttImport.AddVttClips | Source/Features/StandaloneImportFeature.cpp:369-418 | the corrected loop, from line 1, leaves the project with the sorted clips of every cue [corrected: the timing line is split at "-->" and a failed cue skips one line, where the source as written never gets past the first timing line; see Findings] [clips with equal starts are kept in the order they were added, one of the orders std::sort may give; see Left out] |
| VttImport.ImportWebVTT | Source/Features/StandaloneImportFeature.cpp:347-425 | a missing or empty file, or one not starting with "WEBVTT", fails and changes nothing; otherwise the project is renamed and reset to the sorted clips of the cues, and the import succeeds exactly when there is at least one [corrected: the timing line is split at "-->" and a failed cue skips one line, where the source as written never gets past the first timing line; see Findings] [clips with equal starts are kept in the order they were added, one of the orders std::sort may give; see Left out] |
| PlainTextImport.EstimateDurationBounds | Source/Features/StandaloneImportFeature.cpp:431-437 | a text lasts at least a second, exactly a second for up to two words, and 0.4 seconds a word from three words on |
| PlainTextImport.ParagraphsStep | Source/Features/StandaloneImportFeature.cpp:468-536 | one line of the loop: a blank line ends a non-empty paragraph and drops an empty one, any other line joins the paragraph after a space, and the last paragraph is kept at the end |
| PlainTextImport.ParagraphsNonEmpty | Source/Features/StandaloneImportFeature.cpp:475 | no paragraph is empty (see also Source/Features/StandaloneImportFeature.cpp:519) |
| PlainTextImport.AppendPieceWords | Source/Features/StandaloneImportFeature.cpp:509-512 | joining a line to a paragraph joins their words |
| PlainTextImport.ParagraphWords | Source/Features/StandaloneImportFeature.cpp:468-536 | the paragraphs' words are, in order, the words of all the trimmed lines: none is lost or made up |
| PlainTextImport.ParagraphWordsFrom | Source/Features/StandaloneImportFeature.cpp:468-536 | from any line, the paragraphs still to come hold the current paragraph's words and then those of the lines left |
| PlainTextImport.ParagraphClipTimes | Source/Features/StandaloneImportFeature.cpp:477-493 | paragraph k's clip starts at the total estimate of the paragraphs before it and ends after its own |
| PlainTextImport.ParagraphClipsTile | Source/Features/StandaloneImportFeature.cpp:462 | the first clip starts at 0, each lasts its paragraph's estimate of at least a second, and each next clip starts where the last ends (see also Source/Features/StandaloneImportFeature.cpp:477-493) |
| PlainTextImport.ParagraphClipsSorted | Source/Features/StandaloneImportFeature.cpp:477-493 | the clips are in start order, at least a second per clip apart |
| PlainTextImport.ParagraphOrderKept | Source/Features/StandaloneImportFeature.cpp:492 | sorting the paragraph clips by start time changes nothing (see also Source/NarrateDataModel.h:164, Source/NarrateDataModel.h:233-238) |
| PlainTextImport.ParagraphClipAdded | Source/Features/StandaloneImportFeature.cpp:477-493 | adding the next paragraph's clip and sorting gives the clips of one more paragraph, and the time moves to its end |
| PlainTextImport.AddParagraphClip | Source/Features/StandaloneImportFeature.cpp:477-495 | adding a paragraph makes the project's clips those of one more paragraph and moves currentTime to its end (see also Source/Features/StandaloneImportFeature.cpp:519-535) |
| PlainTextImport.TakeLine | Source/Features/StandaloneImportFeature.cpp:470-515 | one pass of the loop keeps the paragraphs done plus those still to come, and the clips and the time agree with the paragraphs done |
| PlainTextImport.AddParagraphClips | Source/Features/StandaloneImportFeature.cpp:462-536 | the loop and the final paragraph leave the project with one clip per paragraph, laid end to end |
| PlainTextImport.ImportPlainText | Source/Features/StandaloneImportFeature.cpp:439-543 | a missing or empty file fails and changes nothing; otherwise the project is renamed and reset to the paragraph clips, and the import succeeds exactly when there is a paragraph |
| FormatDetection.DetectFormat | Source/Features/StandaloneImportFeature.cpp:38-80 | a missing or empty file has no format; any other file has one |
| FormatDetection.DetectionRules | Source/Features/StandaloneImportFeature.cpp:38-80 | for an existing non-empty file each format is reported exactly when its own rule holds and no earlier rule does: the WebVTT signature, then a trimmed leading brace with the project name key, then a digits-only first line and an arrow on the second of at least three, then plain text |
| FormatDetection.BraceAfterBreak | Source/Features/StandaloneImportFeature.cpp:55 | a file opening with a line break and a brace and holding the project name key passes the JSON test, as trimStart skips the break |
| FormatDetection.EmptyFirstLine | Source/Features/StandaloneImportFeature.cpp:62-73 | an empty first line counts as digits only, so an arrow on the second line passes the SRT test |
| FormatDetection.JsonBeforeSrt | Source/Features/StandaloneImportFeature.cpp:54-75 | a file that both the JSON rule and the SRT rule accept is reported as JSON |
| FormatDetection.ExportedVttIsVtt | Source/Features/StandaloneImportFeature.cpp:48-52 | whatever the WebVTT exporter writes is detected as "vtt" (see also Source/Features/StandaloneExportFeature.cpp:57-117) |
| FormatDetection.ExportedSrtIsSrt | Source/Features/StandaloneImportFeature.cpp:54-75 | whatever the SRT exporter writes for at least one cue is detected as "srt" (see also Source/Features/StandaloneExportFeature.cpp:5-48) |
| FormatDetection.SrtDocumentLines | Source/Features/StandaloneImportFeature.cpp:62-69 | an exported SRT document has at least three lines, "1" first and an arrow on the second, and does not start with "{" |
| FormatDetection.ProseIsText | Source/Features/StandaloneImportFeature.cpp:47-79 | text starting with a letter other than 'W', or any other character that opens none of the three formats, is detected as "txt" |
| FormatDetection.PlainTextExample | Source/Features/StandaloneImportFeature.cpp:77-79 | "Just some plain text" is plain text |
| SubtitleExport.TimestampText | Source/Features/StandaloneExportFeature.cpp:126-144 | the timestamp is the four fields, zero-padded to 2, 2, 2 and 3 digits, separated by ':' and the format's separator |
| SubtitleExport.TimestampFieldsBounds | Source/Features/StandaloneExportFeature.cpp:128-131 | for a non-negative time: whole hours, then minutes and seconds below 60 and milliseconds below 1000, which add up to the time to within a millisecond below |
| SubtitleExport.TimestampIsTimecode | Source/Features/StandaloneExportFeature.cpp:126-144 | a non-negative time prints in the HH:MM:SS<sep>mmm shape parseTimecode reads |
| SubtitleExport.TimestampReadsBack | Source/Features/StandaloneExportFeature.cpp:126-144 | parseTimecode of an exported timestamp gives the time back, less a truncation of under a millisecond (see also Source/Features/StandaloneImportFeature.cpp:8-32) |
| SubtitleExport.TimestampsDifferInSeparator | Source/Features/StandaloneExportFeature.cpp:133 | the SRT timestamp is the WebVTT one with its '.' made a ',' (see also Source/Features/StandaloneExportFeature.cpp:143) |
| SubtitleExport.TimestampChars | Source/Features/StandaloneExportFeature.cpp:126-144 | a timestamp holds only digits, '-', ':' and the separator |
| SubtitleExport.EscapeIsOnePass | Source/Features/StandaloneExportFeature.cpp:146-153 | because "&" is replaced first, the three replacements escape each character once, left to right |
| SubtitleExport.AmpersandEntityPasses | Source/Features/StandaloneExportFeature.cpp:149-151 | the later passes leave "&amp;" alone |
| SubtitleExport.EscapeCharPasses | Source/Features/StandaloneExportFeature.cpp:149-151 | on one character the three passes give its entity, or the character |
| SubtitleExport.EscapedHasNoBrackets | Source/Features/StandaloneExportFeature.cpp:146-153 | escaped text holds no '<' and no '>' |
| SubtitleExport.UnescapeEscape | Source/Features/StandaloneExportFeature.cpp:146-153 | decoding the three entities gives the original text back: no information is lost |
| SubtitleExport.UnescapeEach | Source/Features/StandaloneExportFeature.cpp:146-153 | the same for the one-pass escape |
| SubtitleExport.UnescapeChar | Source/Features/StandaloneExportFeature.cpp:146-153 | decoding reads each entity back as its character |
| SubtitleExport.ToHexString | Source/Features/StandaloneExportFeature.cpp:109 | Colour::toString is never empty |
| SubtitleExport.WrapIsOpeningClosing | Source/Features/StandaloneExportFeature.cpp:100-111 | wrapping in tags puts every opening tag before the text and the matching closing tags after it, in nested order |
| SubtitleExport.CueMarkupShape | Source/Features/StandaloneExportFeature.cpp:94-112 | the cue text is the escaped word inside the tags of its formatting (bold innermost, then italic, then a colour other than white), and just the escaped word without formatting |
| SubtitleExport.WrapAppend | Source/Features/StandaloneExportFeature.cpp:100-111 | wrapping in more tags wraps the wrapped text |
| SubtitleExport.CuesUpTo | Source/Features/StandaloneExportFeature.cpp:18-47 | one cue per word so far |
| SubtitleExport.CueAt | Source/Features/StandaloneExportFeature.cpp:18-47 | cue i is word i's cue |
| SubtitleExport.ClipCuesShape | Source/Features/StandaloneExportFeature.cpp:18-38 | a clip's cues carry its words in order; each starts at its word's absolute start and ends where the next starts; the last ends at the clip end, or one second after its start when the clip ends no later (see also Source/Features/StandaloneExportFeature.cpp:69-88) |
| SubtitleExport.OneCuePerWord | Source/Features/StandaloneExportFeature.cpp:14-48 | the exporters write exactly one cue per word of the project |
| SubtitleExport.TimingLineText | Source/Features/StandaloneExportFeature.cpp:42 | the timing line is one line holding "-->" (see also Source/Features/StandaloneExportFeature.cpp:91) |
| SubtitleExport.SrtBlockLines | Source/Features/StandaloneExportFeature.cpp:41-44 | an SRT entry is its number, its timing line, its text and a blank line |
| SubtitleExport.SrtBlocksSnoc | Source/Features/StandaloneExportFeature.cpp:41-46 | one more cue appends its entry, numbered one past the cues before it |
| SubtitleExport.SrtBlocksNumbered | Source/Features/StandaloneExportFeature.cpp:11 | cue k is written as entry k+1, after the entries of the cues before it (see also Source/Features/StandaloneExportFeature.cpp:41-46) |
| SubtitleExport.SrtBlocksPrefix | Source/Features/StandaloneExportFeature.cpp:14-48 | the document written for the first cues begins the whole document |
| SubtitleExport.SrtBlocksFirst | Source/Features/StandaloneExportFeature.cpp:11 | the document begins with entry 1 (see also Source/Features/StandaloneExportFeature.cpp:41) |
| SubtitleExport.VttBlocksSnoc | Source/Features/StandaloneExportFeature.cpp:91-115 | one more cue appends its timing line, its markup and a blank line |
| SubtitleExport.VttDocumentHasSignature | Source/Features/StandaloneExportFeature.cpp:62 | the WebVTT document starts with "WEBVTT" |
| SubtitleExport.CueTimes | Source/Features/StandaloneExportFeature.cpp:23-38 | the start is the word's absolute time and the end the next word's start, or for the last word the clip end, pushed one second past the start when it is not after it |
| SubtitleExport.AppendSrtEntry | Source/Features/StandaloneExportFeature.cpp:41-44 | the four appends add exactly the entry of one more cue |
| SubtitleExport.AppendSrtClip | Source/Features/StandaloneExportFeature.cpp:18-47 | the word loop adds the entries of all the clip's cues and counts them |
| SubtitleExport.ExportSRT | Source/Features/StandaloneExportFeature.cpp:5-55 | a project without clips fails and writes nothing; otherwise the content is the numbered entries of every cue, and the result is whether the file was written |
| SubtitleExport.FormatCueText | Source/Features/StandaloneExportFeature.cpp:94-112 | the cue text is the markup of the word |
| SubtitleExport.AppendVttCue | Source/Features/StandaloneExportFeature.cpp:91-115 | the three appends add exactly the block of one more cue |
| SubtitleExport.AppendVttClip | Source/Features/StandaloneExportFeature.cpp:69-116 | the word loop adds the blocks of all the clip's cues |
| SubtitleExport.ExportWebVTT | Source/Features/StandaloneExportFeature.cpp:57-124 | a project without clips fails and writes nothing; otherwise the content is the header and every cue's block, and the result is whether the file was written |
| RunningView.LastStarted | Source/RunningView.cpp:37-47 | the last word whose start offset is at or before the clip-relative time, or the default when none has started |
| RunningView.LastStartedStep | Source/RunningView.cpp:37-47 | one more word settles the scan: it wins if it has started, and otherwise changes nothing |
| RunningView.DisplayStateAt | Source/RunningView.cpp:21-50 | the clip is the one active at the current time, and the word is the last of its words to have started |
| RunningView.DisplayedWordIsLatest | Source/RunningView.cpp:21-50 | a displayed clip is active at the time, its displayed word has started, and no later word of it has; with no word started, or no clip active, the default index stays |
| RunningView.Tick | Source/RunningView.cpp:159-177 | a stopped clock does not move; a running one moves 16 ms forward and stops, back to time 0, once it reaches the total duration; validity is kept |
| RunningView.RunsInSteps | Source/RunningView.cpp:142-177 | before the end, n ticks after start the clock reads n steps of 16 ms and is running |
| RunningView.StopsAtEnd | Source/RunningView.cpp:159-174 | the first tick to reach the total duration stops the clock at time 0 |
| RunningView.StoppedStays | Source/RunningView.cpp:159-162 | once stopped, ticks leave the clock stopped |
| RunningView.RunningView.constructor | Source/RunningView.h:41-45 | no project, time 0, not running |
| RunningView.RunningView.Start | Source/RunningView.cpp:142-149 | the project is copied and playback runs from time 0 |
| RunningView.RunningView.Stop | Source/RunningView.cpp:151-157 | playback stops at time 0; the project is kept |
| RunningView.RunningView.TimerCallback | Source/RunningView.cpp:159-177 | the clock makes one Tick, and onStopClicked is called exactly when that tick stops a running clock |
| RunningView.RunningView.GetCurrentDisplayState | Source/RunningView.cpp:21-50 | the backward scan finds DisplayStateAt |
| LineBreaking.WidthCoversWord | Source/KaraokeRenderStrategy.cpp:123-140 | a line is at least as wide as each of its words |
| LineBreaking.WidthNonNegative | Source/KaraokeRenderStrategy.cpp:123-140 | with non-negative widths and spacing a line's width is non-negative |
| LineBreaking.BreakStep | Source/KaraokeRenderStrategy.cpp:123-140 | one word of the loop: it closes the line before it when it would make a line of several words wider than the maximum, and otherwise joins the line |
| LineBreaking.BreakEnd | Source/KaraokeRenderStrategy.cpp:143-145 | after the loop the open line is added when it holds a word |
| LineBreaking.BrokenFromIsBroken | Source/KaraokeRenderStrategy.cpp:96-148 | lines correct one by one are correct as a whole |
| LineBreaking.BreakFromBroken | Source/KaraokeRenderStrategy.cpp:105-145 | from any point of the loop, the lines it goes on to produce partition the remaining words, fit, and were closed only for a word that would not fit |
| LineBreaking.BreakExtends | Source/KaraokeRenderStrategy.cpp:135-140 | the same when the word joins the line |
| LineBreaking.BreakCloses | Source/KaraokeRenderStrategy.cpp:128-134 | the same when the word closes the line |
| LineBreaking.BrokenLast | Source/KaraokeRenderStrategy.cpp:143-145 | a last line that fits is correct on its own |
| LineBreaking.BrokenCons | Source/KaraokeRenderStrategy.cpp:128-134 | a closed line followed by correct lines is correct |
| LineBreaking.LinesBroken | Source/KaraokeRenderStrategy.cpp:96-148 | the lines partition all the words in order into non-empty runs; each line's width is its words plus spacing, within the maximum unless it is a single word; each line was closed only because the next word would not fit |
| LineBreaking.PartitionOrdered | Source/KaraokeRenderStrategy.cpp:128-145 | earlier lines hold earlier words |
| LineBreaking.PartitionCoversFrom | Source/KaraokeRenderStrategy.cpp:128-145 | every word from a line's start on is on that line or a later one |
| LineBreaking.PartitionHolds | Source/KaraokeRenderStrategy.cpp:42-52 | every word is on exactly one line |
| LineBreaking.OverWideWordAlone | Source/KaraokeRenderStrategy.cpp:124-134 | a word wider than the maximum is alone on its line |
| LineBreaking.PlayArea | Source/KaraokeRenderStrategy.cpp:29-30 | the drawing area is the bounds less 20 on each side and 60 more at the bottom, and never negative in size (see also Source/TeleprompterRenderStrategy.cpp:23-24, Source/ScrollingRenderStrategy.cpp:23-24) |
| LineBreaking.CalculateLineBreaks | Source/KaraokeRenderStrategy.cpp:105-147 | the loop computes Lines, and so its lines are correct in the sense of LinesBroken (see also Source/TeleprompterRenderStrategy.cpp:120-159, Source/ScrollingRenderStrategy.cpp:84-126) |
| KaraokeRender.FirstLineHolding | Source/KaraokeRenderStrategy.cpp:43-52 | the first line whose range holds the word, with no earlier line holding it, or -1 when none does |
| KaraokeRender.CurrentLineHoldsWord | Source/KaraokeRenderStrategy.cpp:42-56 | for a word of the clip, the current line is the one line holding it; otherwise line 0 |
| KaraokeRender.HighlightIsOnCurrentLine | Source/KaraokeRenderStrategy.cpp:61-82 | among the lines drawn, a word is highlighted exactly when it is on the current line, is the current word, and playback runs before the end: never on the dimmed or preview line (see also Source/KaraokeRenderStrategy.cpp:177-180) |
| KaraokeRender.LineStartX | Source/KaraokeRenderStrategy.cpp:224-228 | the line is centred, with equal space on either side |
| KaraokeRender.SpeakingWord | Source/KaraokeRenderStrategy.cpp:230-252 | the first word whose span, from its start to the next word's or the clip end, holds the time, or -1 |
| KaraokeRender.SpeakingWordIsLastStarted | Source/KaraokeRenderStrategy.cpp:230-252 | with the words in time order and the time before the clip end, findCurrentWordIndex picks the word the running view displays (see also Source/RunningView.cpp:37-47) |
| KaraokeRender.KaraokeLineBreaks | Source/KaraokeRenderStrategy.cpp:96-148 | the lines are the greedy lines, correct in the sense of LinesBroken, and there are none exactly when the clip has no words |
| KaraokeRender.FindCurrentLine | Source/KaraokeRenderStrategy.cpp:42-56 | the loop finds CurrentLine |
| KaraokeRender.FindCurrentWordIndex | Source/KaraokeRenderStrategy.cpp:230-252 | the loop finds SpeakingWord |
| TeleprompterRender.TaggedAt | Source/TeleprompterRenderStrategy.cpp:108-160 | each line of a clip carries that clip's index and the line's word range and width |
| TeleprompterRender.ClipLines | Source/TeleprompterRenderStrategy.cpp:90-93 | a clip's lines are its greedy lines, tagged with its index |
| TeleprompterRender.ScrollLine | Source/TeleprompterRenderStrategy.cpp:170-193 | the first line, not a separator, of the current clip holding the current word, with no earlier such line, or -1 |
| TeleprompterRender.LinesUpToTags | Source/TeleprompterRenderStrategy.cpp:88-103 | every line built for the first k clips, separators too, carries the index of one of them |
| TeleprompterRender.ClipLinesHold | Source/TeleprompterRenderStrategy.cpp:108-160 | every word of a clip is on exactly one of its lines |
| TeleprompterRender.LinesUpToHoldOnce | Source/TeleprompterRenderStrategy.cpp:88-103 | across the lines of the first k clips, each of their words is on exactly one line |
| TeleprompterRender.ScrollFindsWord | Source/TeleprompterRenderStrategy.cpp:40-44 | for a word of the project, the scroll search finds the one line holding it, and that line is drawn exactly at the read line (see also Source/TeleprompterRenderStrategy.cpp:162-197) |
| TeleprompterRender.HighlightAtReadLine | Source/TeleprompterRenderStrategy.cpp:40-56 | a highlighted word is on the line the scroll search finds, which is drawn at the read line (see also Source/TeleprompterRenderStrategy.cpp:231-235) |
| TeleprompterRender.WordOfClip | Source/TeleprompterRenderStrategy.cpp:204-216 | a line that is not a separator holds words of its own clip |
| TeleprompterRender.SeparatorsAppend | Source/TeleprompterRenderStrategy.cpp:95-101 | the separators of joined lines are those of each part |
| TeleprompterRender.NoSeparators | Source/TeleprompterRenderStrategy.cpp:95 | lines with words hold no separator |
| TeleprompterRender.SeparatorRun | Source/TeleprompterRenderStrategy.cpp:98-101 | the k separators, the i-th tagged with clip i |
| TeleprompterRender.ClipLinesNoSeparators | Source/TeleprompterRenderStrategy.cpp:108-160 | a clip's own lines hold no separator |
| TeleprompterRender.SeparatorsOfBlock | Source/TeleprompterRenderStrategy.cpp:95-101 | a clip's lines and the separator after them add just that separator |
| TeleprompterRender.SeparatorsStep | Source/TeleprompterRenderStrategy.cpp:88-103 | one pass of the clip loop adds one separator, tagged with that clip, except after the last clip |
| TeleprompterRender.SeparatorsUpTo | Source/TeleprompterRenderStrategy.cpp:88-103 | after k clips, the separators are those of clips 0..k-1, less the last one's when all clips are done |
| TeleprompterRender.SeparatorsBetweenClips | Source/TeleprompterRenderStrategy.cpp:88-103 | the whole list holds exactly one separator between each pair of neighbouring clips, and none after the last |
| TeleprompterRender.TaggedPush | Source/TeleprompterRenderStrategy.cpp:143-158 | pushing one more tagged line tags one more line |
| TeleprompterRender.CalculateLineBreaksForClip | Source/TeleprompterRenderStrategy.cpp:108-160 | the loop builds the clip's greedy lines, tagged with its index |
| TeleprompterRender.BuildAllLines | Source/TeleprompterRenderStrategy.cpp:82-106 | the loop builds AllLines: every clip's lines, with a separator after each clip but the last |
| TeleprompterRender.CalculateScrollOffset | Source/TeleprompterRenderStrategy.cpp:162-197 | the loop returns ScrollOffset: the found line's offset from the read line, or 0 |
| ScrollingRender.LineStartX | Source/ScrollingRenderStrategy.cpp:177-193 | Left starts at the area's left edge, Center puts the line's middle on the area's centre, Right ends the line at the right edge |
| ScrollingRender.AlignmentMargins | Source/ScrollingRenderStrategy.cpp:177-193 | no left margin for Left, no right margin for Right; for Center the margins differ by the width's parity, as the centre is rounded down |
| ScrollingRender.CenterY | Source/ScrollingRenderStrategy.cpp:31 | a line starting there is centred in the area |
| ScrollingRender.CurrentClipCentred | Source/ScrollingRenderStrategy.cpp:34-45 | the current clip starts on the centre line and is never skipped when a line fits in the area and its margins |
| ScrollingRender.ClipsInOrder | Source/ScrollingRenderStrategy.cpp:36-38 | with a positive step, clips start in index order, one step apart per index |
| ScrollingRender.DrawnClipsContiguous | Source/ScrollingRenderStrategy.cpp:34-45 | a clip between two drawn clips is drawn: the drawn clips are one run of indices |
| ScrollingRender.DrawnClips | Source/ScrollingRenderStrategy.cpp:34-45 | the loop hands to drawClip exactly the clips not skipped, in increasing order |
| ScrollingRender.LineTops | Source/ScrollingRenderStrategy.cpp:70-76 | drawClip places line k one line height per line below the clip's start |
| ScrollingRender.HighlightOnOneLine | Source/ScrollingRenderStrategy.cpp:155-159 | across every clip's lines, only the display state's word is highlighted, on the one line holding it, and it is highlighted while playback runs before the end |
| Toast.StyleFor | Source/UI/ToastNotification.cpp:35-52 | Error exactly for a failed result or one with errors, Warning exactly for a successful one without errors but with warnings, Success otherwise |
| Toast.Tick | Source/UI/ToastNotification.cpp:101-151 | a tick that stays in its state counts one more frame; a new state restarts the count, except hiding; alpha rises in tenths while fading in and falls in fifteenths while fading out; the animation stays valid |
| Toast.Dismissed | Source/UI/ToastNotification.cpp:60-67 | a hidden toast is left alone; any other starts fading out from frame 0, keeping its alpha; validity is kept |
| Toast.TickMovesForward | Source/UI/ToastNotification.cpp:101-151 | a tick moves the animation forward through fading in, visible, fading out and hidden, at most one state at a time |
| Toast.FadeIn | Source/UI/ToastNotification.cpp:14-31 | after show, tick n < 10 leaves alpha n/10, and tick 10 makes the toast fully visible at frame 0 (see also Source/UI/ToastNotification.cpp:107-118) |
| Toast.StaysVisible | Source/UI/ToastNotification.cpp:120-129 | a visible toast stays visible while the frames times 16 ms are under the duration |
| Toast.VisibleEnds | Source/UI/ToastNotification.cpp:120-129 | the first tick whose frames times 16 ms reach the duration starts the fade out |
| Toast.FadeOut | Source/UI/ToastNotification.cpp:131-143 | fading out from frame 0, tick n < 15 leaves alpha 1 - n/15, and tick 15 hides the toast and stops its timer |
| Toast.HiddenStays | Source/UI/ToastNotification.cpp:145-149 | a hidden toast stays hidden, with the timer stopped |
| Toast.DismissDuringFadeIn | Source/UI/ToastNotification.cpp:60-67 | dismissed three frames into the fade in, at alpha 3/10, the toast jumps to alpha 14/15 on the next tick (see also Source/UI/ToastNotification.cpp:107-143) |
| Toast.ToastNotification.constructor | Source/UI/ToastNotification.h:64-82 | hidden and transparent, with no message, the Info style, the 3000 ms duration and no timer (see also Source/UI/ToastNotification.cpp:3-7) |
| Toast.ToastNotification.Show | Source/UI/ToastNotification.cpp:14-31 | the message, style and duration are taken, and the animation restarts fading in from frame 0, shown and with its timer running |
| Toast.ToastNotification.ShowResult | Source/UI/ToastNotification.cpp:33-58 | the toast shows the result's summary in StyleFor's style (see also Source/OperationResult.h:172-202) |
| Toast.ToastNotification.Dismiss | Source/UI/ToastNotification.cpp:60-67 | the animation becomes Dismissed's; the message, style and duration are kept |
| Toast.ToastNotification.TimerCallback | Source/UI/ToastNotification.cpp:101-151 | the animation makes one Tick; the message, style and duration are kept |
| Console.FormatUnset | Source/Console/NarrateConsole.cpp:96-105 | without a "--format" followed by an argument, the format is not set |
| Console.LastFormatWins | Source/Console/NarrateConsole.cpp:96-105 | the last "--format" with an argument after it decides the format, lower-cased |
| Console.Parse | Source/Console/NarrateConsole.cpp:57-130 | nothing is set with fewer than five arguments or when help or version is asked for; otherwise the input, output and format are set, and the result is valid exactly when the input exists and the format is one of srt, vtt, txt, json, csv |
| Console.ValidFormatIsKnown | Source/Console/NarrateConsole.cpp:100-102 | a valid result names one of the five formats, already lower case (see also Source/Console/NarrateConsole.cpp:114-128) |
| Console.ExitCodeAsWritten | Source/Console/NarrateConsole.cpp:140-144 | as written, a failed check exits 0 exactly when there were too few arguments, help or version was asked for, or an empty input came with no format; every other failure exits 1 |
| Console.NotEnoughArgumentsExitsZero | Source/Console/NarrateConsole.cpp:85-90 | as written, a command line with no output format argument reports the error and exits 0 (see also Source/Console/NarrateConsole.cpp:140-144) |
| Console.CorrectedExitCode | Source/Console/NarrateConsole.cpp:140-144 | corrected, a failed check exits 0 exactly when help or version was asked for, and every error exits 1; a valid result proceeds either way |
| Console.ParseArguments | Source/Console/NarrateConsole.cpp:57-130 | the flag scan, the option loop and the checks compute Parse |

## Left out

- TimelineEventManager::seekToTime: the header declares it without a body; its comment says the index is reset so that events are processed from the given time, and the model reads that as a search for the first event at or after that time.
- TimelineEventManager::calculateHighlightDuration, the settings overload of buildTimeline and the HighlightEnd events it would produce: the header declares them without bodies and their comments promise nothing the model could state, so they are not modelled.
- NarrateProject::recalculateTimeline and exportPlainText, exportJSON and exportCSV: declared without bodies.
- NarrateProject's other fields (backgroundAudioFile, defaultFontSize, defaultTextColour, highlightColour, renderStrategy) and their getters and setters are not modelled: no modelled operation reads them. The imports' reset of the project to a fresh NarrateProject therefore shows only as a new name and clip list.
- JSON import and project load/save: they go through juce::JSON, juce::XmlElement and juce::var, which are not part of this model; colour parsing in the JSON import is left out with them.
- File I/O: a file's content is either absent or a string, and which files exist is a set of paths; loadFileAsString, replaceWithText and the file dialogs are not modelled.
- Progress callbacks and cancellation: every import and export is modelled as called without a progress callback, so it never cancels.
- Floating point and integer width: times and widths are `real`, so `double`/`float` rounding, overflow and NaN are not modelled; std::round is half away from zero and truncating casts are written out. Integers are unbounded, so the 32-bit range of C++ `int` (the timecode fields read by getIntValue, the timestamp fields from static_cast<int>, frame counts) is not modelled.
- Drawing: fonts, colours, alpha blending, the toast's position and paint, and the renderers' calls into juce::Graphics; the word widths those calls would measure are an input.
- RunningView::paint: its own word wrapping and drawing are not modelled; only the display state it reads, the clock and start/stop are.
- KaraokeRender: the showPreviousLine and showNextLine settings, which only decide whether the neighbouring lines are drawn, are not modelled; the dimmed and preview flags are.
- TeleprompterRender: the draw loop's skipping of lines outside the area is left out; only where each line is drawn (LineY) is modelled.
- The elapsed-time text, audio playback, DAW sync and plugin host integration: thin wrappers over library calls.
- Console: the project load and the export that follow a valid command line are not modelled; only the argument check and the exit code are.
- SubtitleImport.CleanLine, SrtImport.ImportSRT and VttImport.ImportWebVTT model the evidently intended import: control characters removed, the WebVTT timing line split at "-->", and one line skipped after a cue that fails; the source as written is modelled beside them (CleanLineAsWritten, the AsWritten split, AsWrittenStallsAtArrowLine) and its behaviour is stated only there.
- The WebVTT entry's index field is never assigned in parseWebVTTCue (an uninitialised int); the model sets it to 0.
- A default-constructed NarrateClip has an empty id (no Uuid is generated), so imported clips have id "".
- Colour::toString is not part of this model; it is taken as the unpadded lower-case hexadecimal of the ARGB value.
- Sorting.SortBy: std::sort's order for equal times or equal starts is unspecified (it is not a stable sort). SortBy's own contract says only sorted and a permutation, and BuildTimeline and InsertClip promise no more than that. But SortBy is one concrete insertion sort, which keeps equal keys in the order they arrive. DataModel.NarrateProject.AddClip, Sorting.SortBySorted, Sorting.SortBySnoc, ImportClips.AddEntryClip, SrtImport.AddSrtClips, SrtImport.ImportSRT, VttImport.TakeCue, VttImport.AddVttClips, VttImport.ImportWebVTT and PlainTextImport's clip contracts state their clip lists through SortBy, so they fix that stable order for clips with equal start times; the real std::sort may put such clips in another order. Where all start times differ, as for plain-text paragraphs, the order is the only sorted one.
- HighlightSettingsModel.SnapInterval: its requires (HasFiniteSnap) asks only for a subdivision other than 0 when quantising with a positive tempo, rather than a positive subdivision; it excludes exactly the division by zero the source leaves unguarded.
- FormatDetection.DetectFormat: its own ensures says only when some format is reported; which one, rule by rule and in order, is stated by DetectionRules, and JsonBeforeSrt shows the order deciding on a file two rules accept.
- JuceText.ToLower: lowers A-Z only, while juce::String::toLowerCase lowers every Unicode capital; the five format names are ASCII and no other capital lowers into one of their letters, so which command lines are valid is unchanged.
- ImportClips.SpacedWords: its ensures states only the length; the words' text and their even offsets are in SpacedTexts and EvenSpacing.

## Findings

| source | as written | input that shows it | evidently intended | confidence | as-written member | corrected member |
|---|---|---|---|---|---|---|
| Source/Features/StandaloneImportFeature.cpp:158-159 | the removeCharacters literal begins with the NUL character, so the set of characters to remove is empty and control characters stay in the text | the SRT text line "a\x01b" keeps its \x01 (the unit test at Tests/Unit/ImportFeatureTests.cpp:150-168 expects it gone) | control characters 1-8, 11, 12 and 14-31 are removed | not executed | SubtitleImport.AsWrittenKeepsControls | SubtitleImport.ViewsAreClean |
| Source/Features/StandaloneImportFeature.cpp:321-323 | fromTokens(line, "-->") breaks at each of the characters '-' and '>', so a cue timing line gives at least four tokens and the two-part check always fails | "00:00:01.000 --> 00:00:02.000" | split the line at the substring "-->", as the SRT parser does | not executed | VttImport.ArrowLineHasFourTokens | VttImport.ArrowLineReadsTimes |
| Source/Features/StandaloneImportFeature.cpp:378-418 | when parseWebVTTCue fails at an arrow line it leaves lineIndex where it was, so the import loop repeats the same call for ever | the file "WEBVTT", "", "00:00:01.000 --> 00:00:02.000", "Hello" | skip one line after a malformed cue, as the SRT import loop does at lines 262-268 | not executed | VttImport.AsWrittenStallsAtArrowLine | VttImport.VttEntriesStep |
| Source/Console/NarrateConsole.cpp:85-90 | "Error: Not enough arguments" returns the default result, whose empty format and input make main return 0 | narrate-console project.narrate out.srt | exit with 1 on every error, and 0 only when help or version was asked for | not executed | Console.NotEnoughArgumentsExitsZero | Console.CorrectedExitCode |
