# content-tools, modelled in Dafny

This project models the logic at the heart of the content-tools repository, a set of tools
for turning recorded video into edited, captioned output and a monthly content calendar.
Each core source file becomes one Dafny module:

- **Render pipeline** (`tools/05b-render`): playable intervals of a clip after its deleted
  regions are cut (`RenderSegments`), caption events laid end to end in output time
  (`Captions`), SubRip subtitle blocks and their text (`Srt`), and the FFmpeg filtergraph
  and argument vector (`FfmpegBuilder`).
- **Transcript concatenation** (`tools/01-transcribe`): several transcripts joined with
  running time offsets (`Transcribe`).
- **Take selection**: the current group, selection and workflow managers with Jaccard
  similarity (`TakeGrouping`, `TakeSelection`, `TakeWorkflow`, `Similarity`), and the
  archived take-list managers and timing helpers (`ArchivedGrouping`, `ArchivedSelection`,
  `ArchivedTiming`), over the transcript data model (`TranscriptCore`, `TranscriptSegments`).
- **Content calendar** (`text-content-pipeline`): Monday-owned weeks (`CalendarResolver`),
  slot plans and their weekly limits (`SlotScheduler`, `SlotEnum`), payload validation
  (`Payload`), prompt fragments (`Prompts`) and image file names (`OutputPaths`).
- **Shared core** (`core`): dictionary round trips of the data model (`CoreModels`) and
  time and text helpers (`CoreUtils`).
- **Timeline editor** (JavaScript): the segment store with its cache, validation,
  re-timing and export (`TimelineData`, `TimelineValidation`, `TimelineRedistribute`,
  `TimelineExport`), word redistribution (`WordRedistribution`) and boundary dragging
  (`Boundaries`).
- **Content database** (JavaScript): the CSV reader (`ContentIngestion`) and row
  normalisation, media attachment and filter options (`ContentNormalization`).

Shared modules carry no source of their own: `Wrappers` (Option and Result), `Seqs`
(maps, filters, first matches over sequences), `Strings`, `Decimal` (fixed-point printing
and parsing), `Sorting` (stable insertion sort), `Json`, `IsoDates` (proleptic Gregorian
day numbers) and `RealArith`.

Times are exact reals. Code that changes state step by step is modelled as methods with
loops, each proved equal to a specification function. Objects whose fields are updated are
modelled as classes. The properties themselves are lemmas about those functions.

Where the repository's own documentation describes a behaviour differently, the model
follows the code:
- a trim range whose end is not after its start is kept as one interval;
- a playable interval with no matching transcript segment yields no caption event, rather
  than an empty one;
- caption text for FFmpeg escapes only `'`;
- SubRip words are not re-sorted by output time;
- a doubled quote in a CSV line is not an escaped quote.

## Model

| member | source | states |
|---|---|---|
| ArchivedGrouping.ReorderAcceptsRepeatedIds | _archived/implementation/transcript_core/grouping.py:46-62 | reordering only checks that every id resolves and that the counts agree, so `["a","a"]` over takes a, b is accepted and changes the multiset of takes |
| ArchivedGrouping.ActiveSegmentsCount | _archived/implementation/transcript_core/grouping.py:85-91 | one active segment per group that has an active take |
| ArchivedGrouping.GroupManager.CreateGroup | _archived/implementation/transcript_core/grouping.py:9-12 | appends an empty group with the id (duplicates allowed) and returns it |
| ArchivedGrouping.GroupManager.DeleteGroup | _archived/implementation/transcript_core/grouping.py:14-19 | removes exactly the first group with the id; false and nothing changes when there is none |
| ArchivedGrouping.GroupManager.GetGroup | _archived/implementation/transcript_core/grouping.py:21-25 | the first group with the id, or none |
| ArchivedGrouping.GroupManager.AddTakeToGroup | _archived/implementation/transcript_core/grouping.py:30-35 | appends the take to the first group with the id only; false and no change when the group is missing |
| ArchivedGrouping.GroupManager.RemoveTakeFromGroup | _archived/implementation/transcript_core/grouping.py:37-44 | deletes the first take with the id from that group only; false and no change when group or take is missing |
| ArchivedGrouping.GroupManager.ReorderGroupTakes | _archived/implementation/transcript_core/grouping.py:46-62 | succeeds iff the group exists, every id resolves and the counts agree; then the takes become the resolved list, else nothing changes |
| ArchivedGrouping.GroupManager.SetActiveTake | _archived/implementation/transcript_core/grouping.py:64-77 | in the group, exactly the takes with the id become active and all others inactive; the result says whether one matched |
| ArchivedGrouping.GroupManager.GetActiveTake | _archived/implementation/transcript_core/grouping.py:79-83 | the group's first active take, none for a missing group |
| ArchivedGrouping.GroupManager.GetActiveSegments | _archived/implementation/transcript_core/grouping.py:85-91 | the segments of the active takes, one per group in group order |
| ArchivedGrouping.GroupManager.ClearActiveTake | _archived/implementation/transcript_core/grouping.py:93-99 | every take of the group becomes inactive; false and no change for a missing group |
| ArchivedGrouping.GroupManager.MergeGroups | _archived/implementation/transcript_core/grouping.py:101-109 | with two distinct existing groups, the source's takes are appended to the target and the source group is removed; otherwise nothing changes |
| ArchivedGrouping.GroupManager.SplitGroup | _archived/implementation/transcript_core/grouping.py:111-124 | for 0 < index < count the group keeps the takes before the index and a new group holding the rest is appended; otherwise nothing changes |
| ArchivedGrouping.GroupManager.ValidateGroupIntegrity | _archived/implementation/transcript_core/grouping.py:132-138 | true iff the group exists and has at most one active take |
| ArchivedGrouping.MergeKeepsTakes | _archived/implementation/transcript_core/grouping.py:101-109 | merging neither loses nor adds takes |
| ArchivedGrouping.SplitKeepsTakes | _archived/implementation/transcript_core/grouping.py:111-124 | splitting neither loses nor adds takes |
| ArchivedSelection.ActiveTakesFacts | _archived/implementation/transcript_core/selection.py:30-35 | one selected take per group with an active take, and every one is active |
| ArchivedSelection.InactiveFacts | _archived/implementation/transcript_core/selection.py:123-127 | the unselected takes are exactly the group's inactive takes; none is lost |
| ArchivedSelection.NextIndex | _archived/implementation/transcript_core/selection.py:80-90 | the next index stays within the group |
| ArchivedSelection.PreviousIndex | _archived/implementation/transcript_core/selection.py:92-102 | the previous index stays within the group |
| ArchivedSelection.StepsAreInverse | _archived/implementation/transcript_core/selection.py:80-102 | next then previous (and previous then next) returns to the same take, wrap-around included |
| ArchivedSelection.StepsFromNothing | _archived/implementation/transcript_core/selection.py:80-102 | with no active take, next selects the first take and previous the last |
| ArchivedSelection.ClearAllLeavesNone | _archived/implementation/transcript_core/selection.py:45-48 | after clearing all selections no group has an active take |
| ArchivedSelection.SelectionManager.SelectTake | _archived/implementation/transcript_core/selection.py:9-22 | in the group exactly the takes with the id become active; the result says whether one matched |
| ArchivedSelection.SelectionManager.GetSelectedTake | _archived/implementation/transcript_core/selection.py:24-28 | the group's first active take, none for a missing group |
| ArchivedSelection.SelectionManager.GetAllSelectedTakes | _archived/implementation/transcript_core/selection.py:30-35 | the active take of every group that has one, in group order |
| ArchivedSelection.SelectionManager.ClearSelection | _archived/implementation/transcript_core/selection.py:37-43 | the group's takes all become inactive; false only for a missing group |
| ArchivedSelection.SelectionManager.ClearAllSelections | _archived/implementation/transcript_core/selection.py:45-48 | every take of every group becomes inactive |
| ArchivedSelection.SelectionManager.HasSelection | _archived/implementation/transcript_core/selection.py:50-54 | true iff the group exists and has an active take |
| ArchivedSelection.SelectionManager.GetSelectionSummary | _archived/implementation/transcript_core/selection.py:56-68 | the group count, and the number of groups with an active take in both of the other counters |
| ArchivedSelection.SelectionManager.SelectTakeByIndex | _archived/implementation/transcript_core/selection.py:70-78 | for a valid index that take becomes the only active one; otherwise false and no change |
| ArchivedSelection.SelectionManager.FindActiveTakeIndex | _archived/implementation/transcript_core/selection.py:110-114 | the index of the first active take, none when no take is active |
| ArchivedSelection.SelectionManager.SelectNextTake | _archived/implementation/transcript_core/selection.py:80-90 | the first take when none is active, else the next one with wrap-around becomes the only active take; false for a missing or empty group |
| ArchivedSelection.SelectionManager.SelectPreviousTake | _archived/implementation/transcript_core/selection.py:92-102 | the last take when none is active, else the previous one with wrap-around becomes the only active take; false for a missing or empty group |
| ArchivedSelection.SelectionManager.ValidateSelectionState | _archived/implementation/transcript_core/selection.py:116-121 | true iff no group has two active takes |
| ArchivedSelection.SelectionManager.GetUnselectedTakes | _archived/implementation/transcript_core/selection.py:123-127 | the group's inactive takes in order, empty for a missing group |
| ArchivedTiming.EqualSliceIsProduct | _archived/implementation/transcript_core/timing.py:29-66 | slice i runs from `start + i*avg` to `start + (i+1)*avg`, as the source multiplies |
| ArchivedTiming.EqualDistribution | _archived/implementation/transcript_core/timing.py:29-66 | the loop builds exactly the equal distribution |
| ArchivedTiming.EqualSlicesFields | _archived/implementation/transcript_core/timing.py:29-66 | every equal slice keeps its id and text and lasts `avg` |
| ArchivedTiming.EqualSlicesTile | _archived/implementation/transcript_core/timing.py:29-66 | the slices tile `[start, start + n*avg]` with no gap or overlap |
| ArchivedTiming.EqualWordsTile | _archived/implementation/transcript_core/timing.py:29-66 | the equal words tile the segment, keep the texts in order and all last `duration / n` |
| ArchivedTiming.ProportionalDistribution | _archived/implementation/transcript_core/timing.py:68-111 | the loop builds exactly the proportional distribution |
| ArchivedTiming.SharedWordsTile | _archived/implementation/transcript_core/timing.py:68-111 | the proportional words tile the segment; word i keeps its text and lasts its share, the last word absorbing the remainder |
| ArchivedTiming.ProportionalDurations | _archived/implementation/transcript_core/timing.py:68-111 | every word but the last lasts `duration * len(text) / total_chars` |
| ArchivedTiming.RedistributeWordTimings | _archived/implementation/transcript_core/timing.py:6-27 | no words for a segment without words or a text without tokens; the equal distribution when the word counts agree, else the proportional one |
| ArchivedTiming.RedistributedTilesSegment | _archived/implementation/transcript_core/timing.py:6-27 | empty iff the segment has no words or the text no tokens; otherwise one word per token in order, tiling the segment exactly |
| ArchivedTiming.ShiftSegmentTimings | _archived/implementation/transcript_core/timing.py:113-120 | computes the shifted segment |
| ArchivedTiming.ShiftMovesEverything | _archived/implementation/transcript_core/timing.py:113-120 | every start and end moves by `delta`; ids, texts and every duration are kept |
| ArchivedTiming.ShiftInverse | _archived/implementation/transcript_core/timing.py:113-120 | shifting back by `-delta` restores the segment |
| ArchivedTiming.RescaleInside | _archived/implementation/transcript_core/timing.py:122-135 | a rescaled word that lay inside the old bounds lies inside the new ones |
| ArchivedTiming.SetSegmentDuration | _archived/implementation/transcript_core/timing.py:122-135 | a non-positive duration and a zero-length segment are errors; otherwise the end moves to `start + newDuration` and word times are scaled about the start |
| ArchivedTiming.RescaleAllInside | _archived/implementation/transcript_core/timing.py:122-135 | every word inside the old bounds lands inside the new ones |
| ArchivedTiming.SetDurationKeepsWordsInside | _archived/implementation/transcript_core/timing.py:122-135 | the segment then lasts `newDuration` and words that lay inside it still do |
| ArchivedTiming.GetWordAtTime | _archived/implementation/transcript_core/timing.py:137-142 | the first word with `start <= t <= end`, none otherwise |
| ArchivedTiming.AdjustSegmentBoundaries | _archived/implementation/transcript_core/timing.py:144-167 | a non-positive new duration is an error; otherwise the segment as the code writes it |
| ArchivedTiming.AdjustAsWrittenLeavesWordOutside | _archived/implementation/transcript_core/timing.py:144-167 | as written, moving segment [10, 20] with word [10, 12] to [0, 10] leaves the word at [10, 12], outside the segment |
| ArchivedTiming.AdjustedKeepsWordsInside | _archived/implementation/transcript_core/timing.py:144-167 | with the intended rescale the segment takes the new bounds and every word inside the old bounds lands inside the new ones |
| CalendarResolver.FindMondaysInMonth | text-content-pipeline/src/weekly_calendar/resolver.py:110-132 | the loop yields exactly the Mondays of the month, ascending |
| CalendarResolver.BuildWeeks | text-content-pipeline/src/weekly_calendar/resolver.py:79-96 | the loop builds exactly the specified weeks |
| CalendarResolver.ResolveCalendar | text-content-pipeline/src/weekly_calendar/resolver.py:36-107 | no Mondays and a subtheme count different from the Monday count are errors with the source's messages, and the only ones; otherwise the payload fields are copied and the weeks are built from the Mondays |
| CalendarResolver.ResolutionFailsOnlyOnCount | text-content-pipeline/src/weekly_calendar/resolver.py:44-62 | a valid month always has Mondays, so resolution fails only when the subtheme count is not 4, or 5 when a Monday falls on day 29-31 |
| CalendarResolver.WeeksOfFacts | text-content-pipeline/src/weekly_calendar/resolver.py:79-96 | weeks are numbered 1..n; each Monday date reads back as a Monday of the month and each Sunday date as the Sunday six days later; week i carries subtheme i; exactly the last week is the video week |
| CalendarResolver.MondayWeek | text-content-pipeline/src/weekly_calendar/resolver.py:80-93 | the ISO texts of a Monday and of the Sunday after it read back as those dates |
| CalendarResolver.ExactlyOneVideoWeek | text-content-pipeline/src/weekly_calendar/resolver.py:67-88 | only the last week is the video week |
| Captions.GetWordColor | tools/05b-render/captions.py:7-15 | the colour stored under `"<seg>_<word>"`, the default colour when that key is absent |
| Captions.ColorKeyInjective | tools/05b-render/captions.py:7-15 | distinct (segment, word) positions never share a colour key |
| Captions.GetWordsInRange | tools/05b-render/captions.py:18-46 | the loop yields exactly the specified words |
| Captions.WordsInRangeExact | tools/05b-render/captions.py:31-46 | exactly the words with `end > start_time` and `start < end_time`, in segment order, each tagged with its index |
| Captions.FindSegmentFrom | tools/05b-render/captions.py:81-88 | the first segment at or after `from` of the same video whose `[start, end)` holds the time, or none when there is none |
| Captions.CaptionPassContiguous | tools/05b-render/captions.py:70-114 | the events are contiguous from output time 0, each as long as its source interval, and no more than there are intervals |
| Captions.BuildCaptionEvents | tools/05b-render/captions.py:49-116 | the loops build exactly the specified events |
| Captions.CaptionClip | tools/05b-render/captions.py:78-114 | the loop over one clip's intervals extends the pass by those intervals |
| Captions.CaptionInterval | tools/05b-render/captions.py:79-114 | one interval's match, collect, colour and emit is one step of the pass |
| Captions.FindMatchingSegment | tools/05b-render/captions.py:81-88 | the search loop finds the first matching segment |
| Captions.ColorWords | tools/05b-render/captions.py:95-101 | every collected word gets its colour |
| Captions.CaptionPassSkips | tools/05b-render/captions.py:89-91 | an interval without a matching segment yields no event and leaves the cursor where it was |
| Captions.CaptionPassMatches | tools/05b-render/captions.py:81-114 | an interval with a matching segment appends exactly one event, placed at the cursor |
| Captions.GroupWordsByTime | tools/05b-render/captions.py:119-154 | the loop builds exactly the specified groups |
| Captions.GoodExtend | tools/05b-render/captions.py:143-147 | a word that starts less than `min_gap` after the group's end joins it, and the end becomes the larger end |
| Captions.GroupWordsFacts | tools/05b-render/captions.py:130-154 | empty input gives no groups; the groups partition the start-sorted words in order; a word joins the open group exactly when it starts less than `min_gap` after that group's end; a group's end is the greatest end of its words |
| ContentIngestion.ParseCSVLine | content-database/js/data-ingestion.js:69-87 | the character loop yields exactly the specified fields |
| ContentIngestion.ScanFacts | content-database/js/data-ingestion.js:69-87 | after any prefix, the scanner is inside quotes iff it has seen an odd number of `"`, has pushed one field per separator, and keeps no `"` |
| ContentIngestion.FieldsOfLine | content-database/js/data-ingestion.js:69-87 | one more field than there are commas outside quotes, none holding a `"` |
| ContentIngestion.ParseLineRoundTrip | content-database/js/data-ingestion.js:69-87 | joining the fields with `,` gives back the line with its `"` removed |
| ContentIngestion.DoubledQuoteIsNotAnEscape | content-database/js/data-ingestion.js:74-83 | `"a""b"` reads as the single field `ab`, not `a"b` as section 2, rule 7 of RFC 4180 would read it |
| ContentIngestion.QuotedCommaStays | content-database/js/data-ingestion.js:76-80 | a comma inside quotes stays in its field |
| ContentIngestion.CellAt | content-database/js/data-ingestion.js:60 | a missing or empty value gives `''`, any other is trimmed |
| ContentIngestion.RowOf | content-database/js/data-ingestion.js:58-61 | every header, and nothing else, is a key of the row |
| ContentIngestion.RowOfCells | content-database/js/data-ingestion.js:58-61 | a repeated header holds the cell of its last occurrence |
| ContentIngestion.BodyRowsAreFittingLines | content-database/js/data-ingestion.js:53-64 | the rows are exactly the lines with as many values as headers, each read with the headers, in order |
| ContentIngestion.BuildRow | content-database/js/data-ingestion.js:58-61 | the loop builds exactly the specified row |
| ContentIngestion.ParseCSV | content-database/js/data-ingestion.js:46-67 | the loop yields exactly the specified rows |
| ContentIngestion.CsvRowsShape | content-database/js/data-ingestion.js:46-67 | fewer than two lines after trimming give no rows; otherwise one row per fitting line, each with exactly the header keys |
| ContentNormalization.Cell | content-database/js/data-normalization.js:8-15 | a missing or empty cell gives the fallback, any other cell itself |
| ContentNormalization.NormalizeDate | content-database/js/data-normalization.js:38-45 | empty gives empty; text the date parser rejects is kept as is; otherwise the result is the part of the ISO text before `T`, a prefix of it |
| ContentNormalization.NormalizeRow | content-database/js/data-normalization.js:6-18 | no attached media; the id, week and show type are read with their column fallbacks and the dates normalised |
| ContentNormalization.NormalizeRowFallbacks | content-database/js/data-normalization.js:10-12 | "Week Of" is used only when "Week of x" is missing or empty, "Show or Content Type" only when "Show/Content Type" is; a row without any column gives an entry of empty fields |
| ContentNormalization.NormalizeRows | content-database/js/data-normalization.js:2-4 | one normalised entry per row, in order |
| ContentNormalization.GroupedIsFilter | content-database/js/data-normalization.js:21-29 | the media map holds exactly the ids that occur, each with the records carrying it in input order |
| ContentNormalization.GroupMedia | content-database/js/data-normalization.js:23-29 | the records' loop builds exactly that map |
| ContentNormalization.AttachMedia | content-database/js/data-normalization.js:20-36 | every entry of the array is updated in place to its entry after attachment |
| ContentNormalization.AttachedEntries | content-database/js/data-normalization.js:31-35 | every entry keeps its other fields; an entry whose id some record carries gets exactly those records, the others keep their media |
| ContentNormalization.AddEntryValues | content-database/js/data-normalization.js:51-61 | one entry's non-empty filter fields are added to their key's set |
| ContentNormalization.CollectValues | content-database/js/data-normalization.js:50-62 | each filter key with a non-empty value maps to exactly the set of its non-empty values |
| ContentNormalization.ExtractFilterOptions | content-database/js/data-normalization.js:47-69 | the result is the specified options |
| ContentNormalization.FilterOptionsMeaning | content-database/js/data-normalization.js:47-69 | only filter keys appear (not `contentId` or `attachedMedia`); each list is strictly ascending; a value is listed under a key iff it is non-empty and some entry has it there |
| CoreModels.Field | core/models.py:26-32 | `data[key]` succeeds iff the key is present, with its value; a missing key is a `KeyError` |
| CoreModels.StrField | core/models.py:26-32 | succeeds iff the key holds a string, with that string |
| CoreModels.NumField | core/models.py:26-32 | a present number is read as is; a missing key is an error |
| CoreModels.OptStrField | core/models.py:58-67 | a missing key and `None` both give none; a string gives itself |
| CoreModels.ListField | core/models.py:58-67 | a missing list gives `[]`; a present one its items |
| CoreModels.DecodeList | core/models.py:58-67 | a successful list decode has one element per item |
| CoreModels.DecodeListRoundTrip | core/models.py:58-67 | decoding the encodings of a list gives the list back |
| CoreModels.WordFromDict | core/models.py:26-32 | anything but a dict is rejected |
| CoreModels.WordRoundTrip | core/models.py:23-32 | `Word.from_dict(w.to_dict()) == w` |
| CoreModels.SegmentIdField | core/models.py:58-67 | the id is `segment_id`, else `id`, else the empty string |
| CoreModels.SegmentFromDict | core/models.py:58-67 | anything but a dict is rejected |
| CoreModels.SegmentRoundTrip | core/models.py:48-67 | `Segment.from_dict(s.to_dict()) == s` |
| CoreModels.TranscriptFromDict | core/models.py:93-101 | anything but a dict is rejected; a non-empty override replaces the stored video id |
| CoreModels.SegmentsRoundTrip | core/models.py:85-101 | a list of segments survives encoding and decoding |
| CoreModels.TranscriptRoundTrip | core/models.py:85-101 | `Transcript.from_dict(t.to_dict()) == t` |
| CoreModels.TranscriptDefaults | core/models.py:93-101 | an empty dict reads as an empty English transcript of duration 0 |
| CoreModels.SegmentRefFromDict | core/models.py:119-122 | anything but a dict is rejected |
| CoreModels.SegmentRefRoundTrip | core/models.py:116-122 | `SegmentRef.from_dict(r.to_dict()) == r` |
| CoreModels.ClipFromDict | core/models.py:142-154 | anything but a dict is rejected |
| CoreModels.ClipRoundTrip | core/models.py:133-154 | `Clip.from_dict(c.to_dict()) == c` |
| CoreModels.ClipDefaults | core/models.py:142-154 | a clip without `include` or `selected_segment` reads as included and unselected with no segments |
| CoreModels.VideoFromDict | core/models.py:171-178 | anything but a dict is rejected |
| CoreModels.VideoRoundTrip | core/models.py:164-178 | `Video.from_dict(v.to_dict()) == v` |
| CoreModels.ProjectFromDict | core/models.py:196-203 | anything but a dict is rejected |
| CoreModels.ProjectRoundTrip | core/models.py:188-203 | `Project.from_dict(p.to_dict()) == p` |
| CoreModels.VideosRoundTrip | core/models.py:188-203 | a list of videos survives encoding and decoding |
| CoreModels.ClipsRoundTrip | core/models.py:188-203 | a list of clips survives encoding and decoding |
| CoreModels.ProjectDefaults | core/models.py:196-203 | an empty dict reads as a version-1 project with nothing in it |
| CoreModels.GetSegment | core/models.py:103-107 | the first segment with the id, or none |
| CoreModels.GetClip | core/models.py:205-209 | the first clip with the id, or none |
| CoreModels.GetVideo | core/models.py:211-215 | the first video with the id, or none |
| CoreUtils.ClockOfFacts | core/utils.py:6-48 | hours, minutes and seconds are in range and add up to the whole seconds; the milliseconds are the first three fraction digits, truncated |
| CoreUtils.ClockOfWhole | core/utils.py:6-48 | whole seconds split into quotient-and-remainder parts with no milliseconds |
| CoreUtils.FormatTime | core/utils.py:6-48 | the empty string exactly for negative times |
| CoreUtils.ParseTwoFields | core/utils.py:51-81 | normalised `a:b` reads as `a*60 + b` |
| CoreUtils.ParseThreeFields | core/utils.py:51-81 | normalised `a:b:c` reads as `a*3600 + b*60 + c` |
| CoreUtils.ParseMinutesSeconds | core/utils.py:51-81 | `M:SS` reads back as `M*60 + SS` |
| CoreUtils.ParseHoursMinutesSeconds | core/utils.py:51-81 | `H:MM:SS` reads back as `H*3600 + MM*60 + SS` |
| CoreUtils.FormatWhole | core/utils.py:6-48 | whole seconds print as `H:MM:SS` when there are hours or the format is `hms`, else `M:SS` |
| CoreUtils.StandardRoundTrip | core/utils.py:6-81 | whole seconds survive the standard format and `parse_time` |
| CoreUtils.HmsRoundTrip | core/utils.py:6-81 | whole seconds survive the `hms` format and `parse_time` |
| CoreUtils.ParseSecondsSuffix | core/utils.py:51-81 | `<s>s` reads back as `s` |
| CoreUtils.FormatShort | core/utils.py:6-48 | under a minute `<s>s`, else `M:SS`, for whole seconds under an hour |
| CoreUtils.ShortRoundTrip | core/utils.py:6-81 | under an hour, whole seconds survive the `short` format and `parse_time` |
| CoreUtils.ShortDropsHours | core/utils.py:6-48 | the `short` format ignores the hours |
| CoreUtils.FormatMs | core/utils.py:6-48 | the `ms` format prints `H:MM:SS.mmm` with hours, else `M:SS.mmm` |
| CoreUtils.MsRoundTrip | core/utils.py:6-81 | the `ms` format reads back as the time truncated to the millisecond |
| CoreUtils.WordCount | core/utils.py:84-86 | zero exactly for blank text |
| CoreUtils.WordCountOfJoin | core/utils.py:84-86 | words joined by single spaces are counted one by one |
| CoreUtils.PyPrefix | core/utils.py:93 | Python `s[:k]`: a prefix, of length `k` when `0 <= k <= len(s)` |
| CoreUtils.TruncateText | core/utils.py:89-93 | text within the limit is unchanged; longer text becomes the prefix Python's slice gives plus the suffix, exactly `max_length` long when the suffix fits |
| FfmpegBuilder.EscapeRoundTrip | tools/05b-render/ffmpeg_builder.py:11-18 | each `'` becomes `'\''` and nothing else changes: unescaping restores the text, three characters are added per quote, and quote-free text is unchanged |
| FfmpegBuilder.HexToFfmpegStrips | tools/05b-render/ffmpeg_builder.py:21-23 | the colour with all its leading `#` removed |
| FfmpegBuilder.GetFontSize | tools/05b-render/ffmpeg_builder.py:26-33 | small gives 28, large 48, and medium or any other name 36 |
| FfmpegBuilder.ParsePosition | tools/05b-render/ffmpeg_builder.py:36-46 | "bottom" and "lower_third" are recognised, any other name is centred |
| FfmpegBuilder.YPositionPlacement | tools/05b-render/ffmpeg_builder.py:36-46 | bottom is `1920-20-(fs+20)` as digits, the lower third 40 less, anything else `(1920-text_h)/2` |
| FfmpegBuilder.StyleLook | tools/05b-render/ffmpeg_builder.py:61-63 | a missing size is medium, a missing position the lower third, a missing background the dark box |
| FfmpegBuilder.WrapWords | tools/05b-render/ffmpeg_builder.py:75-91 | the line-breaking loop yields exactly the specified lines |
| FfmpegBuilder.WrapLinesFacts | tools/05b-render/ffmpeg_builder.py:72-91 | the lines hold every word once in order, none is empty, every line fits within 800 pixels unless it is one word, and each new line starts because its first word would have overflowed the previous line |
| FfmpegBuilder.ParseBackground | tools/05b-render/ffmpeg_builder.py:109-128 | "dark_box" and "outline" are recognised, anything else is no background |
| FfmpegBuilder.DrawTextShape | tools/05b-render/ffmpeg_builder.py:109-128 | a drawtext starts with the escaped word in quotes and ends with the background option, if any, then the word's enable window |
| FfmpegBuilder.EnableWindowValues | tools/05b-render/ffmpeg_builder.py:128 | the window bounds read back as the word's interval-local times rounded to milliseconds |
| FfmpegBuilder.PlacementsAt | tools/05b-render/ffmpeg_builder.py:95-131 | word j of a line is drawn at the summed width of the words before it |
| FfmpegBuilder.AllPlacementsWords | tools/05b-render/ffmpeg_builder.py:95-131 | one placement per word of every line, in order |
| FfmpegBuilder.PlaceLine | tools/05b-render/ffmpeg_builder.py:95-131 | the inner loop places each word at the running offset, which grows by the word's width |
| FfmpegBuilder.LineCentring | tools/05b-render/ffmpeg_builder.py:84-100 | the centring width plus one character width is the line's summed width |
| FfmpegBuilder.LastWordEnds | tools/05b-render/ffmpeg_builder.py:99-131 | the last word's offset plus its text ends at the centred line's right edge |
| FfmpegBuilder.PlaceLines | tools/05b-render/ffmpeg_builder.py:95-131 | the outer loop places every line, line i lifted by i line heights |
| FfmpegBuilder.BuildSegmentFilterChain | tools/05b-render/ffmpeg_builder.py:49-137 | the video chain is trim, setpts, the drawtexts and the label; the audio chain atrim, asetpts and the label |
| FfmpegBuilder.ChainDrawsWords | tools/05b-render/ffmpeg_builder.py:72-131 | a chain draws every caption word exactly once, the k-th drawtext showing the k-th word by start in its local window |
| FfmpegBuilder.BuildChains | tools/05b-render/ffmpeg_builder.py:155-172 | one video and one audio chain per interval |
| FfmpegBuilder.InterleaveChains | tools/05b-render/ffmpeg_builder.py:174-178 | each video chain is followed by its audio chain |
| FfmpegBuilder.BuildConcatFilter | tools/05b-render/ffmpeg_builder.py:180-187 | the concat filter over `[v0][a0]...` for the intervals |
| FfmpegBuilder.BuildFilterGraph | tools/05b-render/ffmpeg_builder.py:140-196 | the loops build exactly the specified graph |
| FfmpegBuilder.VideoChainShape | tools/05b-render/ffmpeg_builder.py:66-137 | a video chain starts with its interval's trim and ends with its label |
| FfmpegBuilder.UncaptionedChain | tools/05b-render/ffmpeg_builder.py:155-172 | an interval without a caption event draws no words |
| FfmpegBuilder.GraphLayout | tools/05b-render/ffmpeg_builder.py:140-196 | no intervals give `copy`; otherwise 2N chains, video then audio for each interval in turn, each trimmed to its interval and labelled with its index, then the concat filter; interval i takes caption event i, and intervals past the events draw nothing |
| FfmpegBuilder.BuildFfmpegCommand | tools/05b-render/ffmpeg_builder.py:199-236 | the inline argv: input, the graph after `-filter_complex`, both maps, the fixed codec settings and the output; no filter script |
| OutputPaths.DropUnsafe | text-content-pipeline/src/renderer/html_renderer.py:154 | only word characters, whitespace and `-` are kept |
| OutputPaths.DashFromFacts | text-content-pipeline/src/renderer/html_renderer.py:155 | each whitespace run becomes one dash; no whitespace is left and text without whitespace is unchanged |
| OutputPaths.SanitizeFacts | text-content-pipeline/src/renderer/html_renderer.py:153-156 | at most 80 characters, all `\w` or `-`; sanitising is idempotent and leaves a name of that form alone |
| OutputPaths.OutputPathUnderImages | text-content-pipeline/src/renderer/html_renderer.py:128-163 | the path is the images directory, a separator and a file name without separators ending in `.png` |
| OutputPaths.FileNameDatePrefix | text-content-pipeline/src/renderer/html_renderer.py:161-162 | the file name starts with the eight digits of year, month and day, then `_` |
| OutputPaths.FileNameWeekTag | text-content-pipeline/src/renderer/html_renderer.py:159-162 | `_weekNN_` follows the theme, and an empty subtheme becomes `weekNN` |
| Payload.ValidateWeeklySubthemes | text-content-pipeline/src/payload/schema.py:54-73 | none passes; an empty list, a count other than 4 or 5, and a blank entry are errors with the source's messages, the first blank index named; otherwise the entries are stored stripped |
| Payload.ValidateStylePreset | text-content-pipeline/src/payload/schema.py:75-85 | accepted iff it is one of the preset names, else the error listing them |
| Payload.MakePayload | text-content-pipeline/src/payload/schema.py:22-85 | a payload is built iff year, month, theme length, subthemes and preset all pass; its fields are the inputs with stripped subthemes; a failure lists an error for a field exactly when that field fails, with the validator's message |
| Payload.FieldErrors | text-content-pipeline/src/payload/schema.py:22-85 | no errors iff every field passes; each field's error is present exactly when that field fails |
| Payload.CountMondaysInMonth | text-content-pipeline/src/payload/validation.py:41-63 | the loop counts exactly the Mondays of the month |
| Payload.ValidatePayload | text-content-pipeline/src/payload/validation.py:9-38 | a subtheme count unlike the Monday count is reported first, then an unavailable preset, with the source's messages; otherwise it passes |
| Prompts.WeeklySubthemesLines | text-content-pipeline/src/ai_generator/prompts.py:156-158 | no subthemes give the empty text; otherwise the lines are exactly `"  Week {i+1}: {subtheme}"` in order, for subthemes without line breaks |
| Prompts.WeekLinesAt | text-content-pipeline/src/ai_generator/prompts.py:164-167 | week i is shown as its header, subtheme and video-week lines at lines 3i, 3i+1 and 3i+2 |
| Prompts.DateLinesFacts | text-content-pipeline/src/ai_generator/prompts.py:170-175 | the date lines exist iff every date parses as `strptime("%Y-%m-%d")` reads it (month and day padded or not), and then line k names date k and its weekday; otherwise the error is the first date that does not parse |
| Prompts.CalendarLinesFacts | text-content-pipeline/src/ai_generator/prompts.py:161-177 | three lines per week in order; the automated-dates section follows exactly when the list is given and non-empty: a header with the count, then one line per date in order |
| Prompts.FormatCalendarStructure | text-content-pipeline/src/ai_generator/prompts.py:161-177 | the loops join exactly the specified lines |
| Prompts.DateSection | text-content-pipeline/src/ai_generator/prompts.py:170-175 | the header and one line per date, or the first rejected date |
| Prompts.WeekOutline | text-content-pipeline/src/ai_generator/prompts.py:163-167 | the week header, subtheme and video-week lines of every week, in week order |
| IsoDates.UnpaddedRoundTrip | text-content-pipeline/src/ai_generator/prompts.py:174 | a date written with its month and day unpadded, as in `2025-1-5`, is read back as that date |
| Prompts.DateLinesStop | text-content-pipeline/src/ai_generator/prompts.py:172-174 | once a date fails to parse, the whole list fails with that date |
| RenderSegments.SubtractPiece | tools/05b-render/segments.py:24-32 | what one deleted region leaves of an interval lies inside the interval |
| RenderSegments.SubtractPieceCovers | tools/05b-render/segments.py:24-32 | the pieces hold exactly the times of the interval outside the region |
| RenderSegments.GetPlayableSegments | tools/05b-render/segments.py:7-36 | the loops compute exactly the playable intervals |
| RenderSegments.SubtractRegion | tools/05b-render/segments.py:19-34 | the inner loop cuts one region out of every interval |
| RenderSegments.SubtractAllCovers | tools/05b-render/segments.py:16-34 | after all deletions a time is covered iff it was and no region holds it |
| RenderSegments.PlayableIsTrimMinusDeleted | tools/05b-render/segments.py:16-34 | a time is playable exactly when it is in the trim range and in no deleted region, for every clip |
| RenderSegments.PlayableNoDeletions | tools/05b-render/segments.py:12-16 | without deleted regions the trim range comes back as it is, even a malformed one |
| RenderSegments.PlayableIsChain | tools/05b-render/segments.py:16-36 | with a proper trim range and proper regions the intervals are ascending, pairwise disjoint, of positive length and inside the trim range |
| RenderSegments.ReversedRegionOverlaps | tools/05b-render/segments.py:24-32 | a reversed region (7, 3) over (0, 10) leaves the overlapping intervals (0, 7) and (3, 10) |
| RenderSegments.KeptEntries | tools/05b-render/segments.py:46-59 | never more entries than clips |
| RenderSegments.ComputeTimelineClips | tools/05b-render/segments.py:39-62 | the kept entries, stably sorted by position |
| RenderSegments.KeptEntriesMembers | tools/05b-render/segments.py:50-59 | an entry is kept exactly for an enabled clip on the timeline (missing flags are true) with something to play |
| RenderSegments.TimelineOrder | tools/05b-render/segments.py:58-62 | sorted by position (missing is 0), a permutation of the kept entries, and clips at the same position keep their order |
| RenderSegments.GetTotalDuration | tools/05b-render/segments.py:65-71 | the loop sums `end - start` over every interval of every clip |
| RenderSegments.TotalDurationAppend | tools/05b-render/segments.py:65-71 | the total of two lists is the sum of their totals |
| RenderSegments.ChainLengthBound | tools/05b-render/segments.py:16-71 | proper intervals inside a range add up to a positive length no greater than the range |
| SlotScheduler.Get | text-content-pipeline/src/slots/scheduler.py:164-168 | the plan lookup: none iff the date is not planned, else a value the plan pairs with that date |
| SlotScheduler.ExpectedAutomatedDates | text-content-pipeline/src/slots/scheduler.py:115-134 | the loops collect exactly the Monday-to-Saturday dates of every week, or the first Monday that does not parse |
| SlotScheduler.BuildWeekSlots | text-content-pipeline/src/slots/scheduler.py:137-195 | the loop builds exactly the specified week |
| SlotScheduler.DaySlotsFacts | text-content-pipeline/src/slots/scheduler.py:155-193 | days k..6 build exactly when the plan holds each of days k..5 with a valid value, and then they are the planned slots followed by the human Sunday |
| SlotScheduler.ApplySlotPlan | text-content-pipeline/src/slots/scheduler.py:35-86 | an unparsable Monday is reported; a plan not covering exactly the expected dates is an error naming the missing and the extra dates, sorted; otherwise the schedule of all weeks, or the first week's error |
| SlotScheduler.CoverageError | text-content-pipeline/src/slots/scheduler.py:55-63 | the error text names the missing dates and then the extra dates, each sorted, joined by a semicolon |
| SlotScheduler.PlainRepr | text-content-pipeline/src/slots/scheduler.py:60-62 | a key of printable ASCII characters without quotes or backslashes, such as an ISO date, is shown as itself in single quotes |
| SlotScheduler.ApostropheRepr | text-content-pipeline/src/slots/scheduler.py:60-62 | any key of printable ASCII characters and quotes holding `'` and no `"` is shown as itself in double quotes |
| SlotScheduler.BothQuotesRepr | text-content-pipeline/src/slots/scheduler.py:60-62 | any such key holding both `'` and `"` is shown in single quotes with a backslash before every `'` and every `"` kept |
| SlotScheduler.BuildAllSlots | text-content-pipeline/src/slots/scheduler.py:71-78 | the loop concatenates every week's slots in order, or stops at the first week's error |
| SlotScheduler.WeekSlotsShape | text-content-pipeline/src/slots/scheduler.py:137-195 | a week that builds has seven slots, the last being the human Sunday of that week |
| SlotScheduler.AllSlotsShape | text-content-pipeline/src/slots/scheduler.py:72-80 | every built week contributes seven slots, ending in its human Sunday |
| SlotScheduler.ScheduleShape | text-content-pipeline/src/slots/scheduler.py:72-195 | a schedule has seven slots per week, each week ending in its human Sunday |
| SlotScheduler.WeekDatesExpected | text-content-pipeline/src/slots/scheduler.py:115-134 | every Monday-to-Saturday date of a week is an expected date |
| SlotScheduler.CoveringPlanBuilds | text-content-pipeline/src/slots/scheduler.py:56-80 | a plan covering exactly the expected dates with valid values always builds: no week reports a missing date |
| SlotScheduler.WeekBuilds | text-content-pipeline/src/slots/scheduler.py:137-195 | a week whose every Monday-to-Saturday date is planned with a valid value builds |
| SlotScheduler.FirstInvalid | text-content-pipeline/src/slots/scheduler.py:100-108 | the first plan item whose value is not a slot function, or none |
| SlotScheduler.FirstAppearances | text-content-pipeline/src/slots/scheduler.py:229-232 | each value once, in order of first appearance |
| SlotScheduler.FirstOverLimit | text-content-pipeline/src/slots/scheduler.py:232-237 | the first value in that order used more than twice, none iff none is |
| SlotScheduler.CountWeekTypes | text-content-pipeline/src/slots/scheduler.py:213-229 | the day loop yields the slot functions of the week's planned Monday-to-Saturday dates in order of first appearance with their counts, or the first value that is not a slot function |
| SlotScheduler.FindOverLimit | text-content-pipeline/src/slots/scheduler.py:232-237 | the loop over the counts finds the first slot function counted more than twice, and it is one that was counted |
| SlotScheduler.CheckWeek | text-content-pipeline/src/slots/scheduler.py:211-237 | one week's check as specified |
| SlotScheduler.ValidateWeeklyConstraints | text-content-pipeline/src/slots/scheduler.py:198-237 | the loop checks every week as specified |
| SlotScheduler.ValidateSlotPlan | text-content-pipeline/src/slots/scheduler.py:89-112 | the first invalid value is reported with the source's message, the value once in literal quotes and once through `repr`; otherwise the weekly checks decide |
| SlotScheduler.ApostropheValueMessage | text-content-pipeline/src/slots/scheduler.py:105-109 | a value such as `it's` appears in the message once in single quotes and once, from the enum's `ValueError`, in double quotes |
| SlotScheduler.WeekConstraintMeaning | text-content-pipeline/src/slots/scheduler.py:211-237 | a week passes exactly when no slot function appears more than twice in it |
| SlotScheduler.WeekTypesOfSlots | text-content-pipeline/src/slots/scheduler.py:137-237 | the slot functions checked for frequency are exactly those of the week's Monday-to-Saturday slots, in order |
| SlotScheduler.ValidatedWeekWithinLimit | text-content-pipeline/src/slots/scheduler.py:35-237 | a plan that validates and applies gives weeks in which no slot function fills more than two Monday-to-Saturday slots |
| Similarity.LowerKeepsSpace | implementation/take_selector_v2/backend/take_selector/similarity.py:40-41 | lower-casing maps whitespace to whitespace and nothing else to whitespace |
| Similarity.WordSetNonEmpty | implementation/take_selector_v2/backend/take_selector/similarity.py:32-41 | a text that strips to something non-empty has at least one word |
| Similarity.Jaccard | implementation/take_selector_v2/backend/take_selector/similarity.py:43-46 | in [0, 1], 1 iff the sets are equal, 0 only for disjoint sets |
| Similarity.ComputeSegmentSimilarity | implementation/take_selector_v2/backend/take_selector/similarity.py:12-46 | in [0, 1]; two blank texts score 1, one blank text scores 0 |
| Similarity.SimilaritySymmetric | implementation/take_selector_v2/backend/take_selector/similarity.py:12-46 | the score is symmetric |
| Similarity.SimilarityExtremes | implementation/take_selector_v2/backend/take_selector/similarity.py:12-46 | for texts with words, 1 exactly for the same set of lower-cased words and 0 exactly when they share none |
| Similarity.FindCandidateDuplicates | implementation/take_selector_v2/backend/take_selector/similarity.py:49-95 | a threshold outside [0, 1] is an error; otherwise the qualifying pairs stably sorted by decreasing score |
| Similarity.ScanPairs | implementation/take_selector_v2/backend/take_selector/similarity.py:83-93 | the nested loops collect exactly the specified pairs |
| Similarity.ScanRow | implementation/take_selector_v2/backend/take_selector/similarity.py:87-93 | the inner loop appends exactly row i's qualifying pairs, in column order |
| Similarity.RowMembers | implementation/take_selector_v2/backend/take_selector/similarity.py:83-93 | row i holds exactly the qualifying pairs (i, j) |
| Similarity.RowsMembers | implementation/take_selector_v2/backend/take_selector/similarity.py:86-93 | the first k rows hold exactly the qualifying pairs (i, j) with i < k |
| Similarity.CandidatesFacts | implementation/take_selector_v2/backend/take_selector/similarity.py:83-95 | exactly the pairs with i < j scoring at least the threshold, by non-increasing score, equal scores in scan order |
| Similarity.ZeroThresholdAllPairs | implementation/take_selector_v2/backend/take_selector/similarity.py:83-95 | threshold 0 yields all n(n-1)/2 pairs |
| SlotEnum.FromValue | text-content-pipeline/src/slots/enum.py:6-15 | the member with that value, none for an unknown value |
| SlotEnum.FromValueRoundTrip | text-content-pipeline/src/slots/enum.py:6-15 | every member is recovered from its value |
| SlotEnum.AutomatedSlots | text-content-pipeline/src/slots/enum.py:21-24 | every member but the human one, in declaration order |
| SlotEnum.AutomatedSlotsFacts | text-content-pipeline/src/slots/enum.py:17-24 | six members, not the human one, and exactly those `is_automated` accepts |
| SlotEnum.AutomatedSlotsDistinct | text-content-pipeline/src/slots/enum.py:21-24 | no member is listed twice |
| Srt.SrtTimeFields | tools/05b-render/srt.py:7-12 | minutes and seconds below 60, milliseconds below 1000, hours non-negative for non-negative times |
| Srt.SrtTimeFieldsExact | tools/05b-render/srt.py:7-12 | the fields add up to the whole milliseconds of the time |
| Srt.SrtTimeFieldsAreMillis | tools/05b-render/srt.py:9-12 | the float arithmetic takes apart exactly the whole milliseconds |
| Srt.MixedRadix | tools/05b-render/srt.py:7-12 | fields in range are determined by their total |
| Srt.FieldsRoundTrip | tools/05b-render/srt.py:13 | non-negative fields print as a timestamp that reads back as the same fields |
| Srt.SrtTimeRoundTrip | tools/05b-render/srt.py:7-13 | a non-negative time prints as a timestamp whose fields read back and add up to its whole milliseconds |
| Srt.SrtTimeWidth | tools/05b-render/srt.py:13 | below 100 hours `HH:MM:SS,mmm` is 12 characters |
| Srt.CollectWords | tools/05b-render/srt.py:29-43 | the loops collect every word of every event, in event order then word order, each moved to output time, none re-sorted |
| Srt.ToOutputShift | tools/05b-render/srt.py:36-42 | a word keeps its duration and its offset from the event start when moved to output time |
| Srt.TextsAppend | tools/05b-render/srt.py:55-61 | a block's text grows by a space and the new word |
| Srt.Compress | tools/05b-render/srt.py:16-77 | the loop builds exactly the specified blocks |
| Srt.CompressWord | tools/05b-render/srt.py:50-68 | one word either extends the open block or closes it and opens a new one |
| Srt.CompressFacts | tools/05b-render/srt.py:45-75 | no words give no blocks; the blocks take every word once in order; a word extends the open block exactly when its gap and the block's new length are below the thresholds; each emitted block is its words' block padded |
| Srt.EmitFacts | tools/05b-render/srt.py:63-74 | a block starts at its first word, lasts at least `min_duration`, ends at its last word or at the padded end, never earlier, and its text is its words joined by spaces |
| Srt.Entries | tools/05b-render/srt.py:103-107 | one four-line entry per block |
| Srt.GenerateSrtContent | tools/05b-render/srt.py:80-109 | the lines of the compressed blocks joined with `\n` |
| Srt.SrtLinesAt | tools/05b-render/srt.py:103-107 | block i is its number i + 1, its time range, its text and a blank line |
| TakeGrouping.Without | implementation/take_selector_v2/backend/take_selector/grouping.py:78 | the creation order loses exactly the deleted group |
| TakeGrouping.WithoutDistinct | implementation/take_selector_v2/backend/take_selector/grouping.py:78 | the creation order stays free of repeats after a deletion |
| TakeGrouping.WithMember | implementation/take_selector_v2/backend/take_selector/grouping.py:108 | adding a member keeps the set of groups |
| TakeGrouping.WithoutMember | implementation/take_selector_v2/backend/take_selector/grouping.py:129 | removing a member keeps the set of groups |
| TakeGrouping.Ungrouped | implementation/take_selector_v2/backend/take_selector/grouping.py:75-76 | the members of a deleted group become keys of the segment map, and no other key is added |
| TakeGrouping.DeleteConsistent | implementation/take_selector_v2/backend/take_selector/grouping.py:61-79 | deleting a group and ungrouping its members keeps groups, order and segment map consistent |
| TakeGrouping.LeaveConsistent | implementation/take_selector_v2/backend/take_selector/grouping.py:112-131 | taking a member out of its group and unmapping it keeps them consistent |
| TakeGrouping.JoinConsistent | implementation/take_selector_v2/backend/take_selector/grouping.py:105-109 | adding an ungrouped segment to a group and mapping it there keeps them consistent |
| TakeGrouping.GroupManager.AtMostOneGroup | implementation/take_selector_v2/backend/take_selector/grouping.py:27-33 | a segment is a member of at most one group |
| TakeGrouping.GroupManager.CreateGroup | implementation/take_selector_v2/backend/take_selector/grouping.py:40-59 | an existing id is an error that changes nothing; otherwise an empty group with the metadata is added at the end of the creation order |
| TakeGrouping.GroupManager.DeleteGroup | implementation/take_selector_v2/backend/take_selector/grouping.py:61-79 | true iff the group existed; then it leaves the groups and the order and each of its members maps to no group; otherwise nothing changes |
| TakeGrouping.GroupManager.UngroupMembers | implementation/take_selector_v2/backend/take_selector/grouping.py:75-76 | the loop maps every member to no group and changes nothing else |
| TakeGrouping.GroupManager.AddSegmentToGroup | implementation/take_selector_v2/backend/take_selector/grouping.py:81-110 | false for an unknown group; an error if the segment is already there; otherwise the segment leaves its previous group and joins this one, the map following |
| TakeGrouping.GroupManager.MoveInto | implementation/take_selector_v2/backend/take_selector/grouping.py:105-109 | the segment leaves its current group, if any, and joins the target; the map sends it to the target; consistency is kept |
| TakeGrouping.GroupManager.RemoveSegmentFromGroup | implementation/take_selector_v2/backend/take_selector/grouping.py:112-131 | true iff the segment was a member; then it leaves the group and maps to no group; otherwise nothing changes |
| TakeGrouping.GroupManager.MoveSegment | implementation/take_selector_v2/backend/take_selector/grouping.py:133-156 | true iff both groups exist and the segment is in the first; then it moves to the second, the map following |
| TakeGrouping.GroupManager.GetGroup | implementation/take_selector_v2/backend/take_selector/grouping.py:158-168 | the group with that id, none iff there is none |
| TakeGrouping.GroupManager.GetGroupForSegment | implementation/take_selector_v2/backend/take_selector/grouping.py:170-183 | the group holding the segment, none iff no group does |
| TakeGrouping.GroupManager.ListGroups | implementation/take_selector_v2/backend/take_selector/grouping.py:185-192 | every group once, in creation order |
| TakeGrouping.GroupManager.GetUngroupedSegments | implementation/take_selector_v2/backend/take_selector/grouping.py:206-216 | exactly the given ids that no group holds |
| TakeGrouping.DistinctCard | implementation/take_selector_v2/backend/take_selector/grouping.py:185-192 | the number of groups equals the length of the creation order |
| TakeSelection.SelectionManager.SelectSegment | implementation/take_selector_v2/backend/take_selector/selection.py:33-59 | false for an unknown group, an error for a non-member, otherwise the member becomes the group's selection; only a success changes the selections |
| TakeSelection.SelectionManager.ClearSelection | implementation/take_selector_v2/backend/take_selector/selection.py:61-77 | true iff the group had a selection; afterwards it has none |
| TakeSelection.SelectionManager.HasSelectionIffSelected | implementation/take_selector_v2/backend/take_selector/selection.py:79-102 | a group has a selection exactly when its selected segment is some segment |
| TakeSelection.SelectionManager.ListSelections | implementation/take_selector_v2/backend/take_selector/selection.py:104-115 | exactly the groups with a selection, each with its selected segment |
| TakeSelection.SelectionManager.ClearAll | implementation/take_selector_v2/backend/take_selector/selection.py:117-121 | no selections remain and the listing is empty |
| TakeWorkflow.FirstWithId | implementation/take_selector_v2/backend/take_selector/workflow.py:78-82 | the first segment with that id, none iff no segment has it |
| TakeWorkflow.TakeSelectorWorkflow.LoadSegments | implementation/take_selector_v2/backend/take_selector/workflow.py:50-58 | the loaded segments replace the old ones |
| TakeWorkflow.TakeSelectorWorkflow.GetSegmentById | implementation/take_selector_v2/backend/take_selector/workflow.py:69-82 | the linear search finds the first segment with that id |
| TakeWorkflow.TakeSelectorWorkflow.GetSimilarityCandidates | implementation/take_selector_v2/backend/take_selector/workflow.py:84-94 | an error iff the threshold is outside [0, 1], otherwise the candidate pairs of the loaded segments |
| TakeWorkflow.TakeSelectorWorkflow.ComputeSimilarity | implementation/take_selector_v2/backend/take_selector/workflow.py:96-118 | a missing first id is reported before a missing second one; two found segments give their similarity |
| TakeWorkflow.TakeSelectorWorkflow.CreateGroup | implementation/take_selector_v2/backend/take_selector/workflow.py:120-131 | an error iff the id exists, else the new empty group is added; selections untouched |
| TakeWorkflow.TakeSelectorWorkflow.DeleteGroup | implementation/take_selector_v2/backend/take_selector/workflow.py:133-143 | true iff the group existed; its members become ungrouped; a selection made in it stays |
| TakeWorkflow.TakeSelectorWorkflow.AddSegmentToGroup | implementation/take_selector_v2/backend/take_selector/workflow.py:145-156 | false for an unknown group and the already-a-member error with its message, changing nothing; otherwise the segment leaves its previous group, joins this one and belongs to no other, the segment map sends it here, and the group order and selections are kept |
| TakeWorkflow.TakeSelectorWorkflow.RemoveSegmentFromGroup | implementation/take_selector_v2/backend/take_selector/workflow.py:158-169 | true iff it was a member; then it leaves that group, belongs to no group and maps to none; otherwise nothing changes; the group order and selections are kept |
| TakeWorkflow.TakeSelectorWorkflow.MoveSegment | implementation/take_selector_v2/backend/take_selector/workflow.py:171-183 | true iff both groups exist and it was in the first; a move between two groups takes it out of the first and into the second, which alone holds it, the map following; otherwise nothing changes; the group order and selections are kept |
| TakeWorkflow.TakeSelectorWorkflow.SelectSegmentForGroup | implementation/take_selector_v2/backend/take_selector/workflow.py:185-196 | false for an unknown group and the not-a-member error with its message; on success the selections gain exactly this group's choice; otherwise they are unchanged; the groups are untouched |
| TakeWorkflow.TakeSelectorWorkflow.ClearSelectionForGroup | implementation/take_selector_v2/backend/take_selector/workflow.py:198-208 | true iff the group had a selection; then only that group's selection is cleared, otherwise nothing changes; every other group keeps its selection and the groups are untouched |
| TakeWorkflow.TakeSelectorWorkflow.GetUngroupedSegments | implementation/take_selector_v2/backend/take_selector/workflow.py:267-276 | each loaded id that no group holds, once |
| TakeWorkflow.TakeSelectorWorkflow.GetCurrentState | implementation/take_selector_v2/backend/take_selector/workflow.py:278-316 | one entry per segment with its duration; one entry per group in creation order with its members, selection and metadata when truthy; the selection listing |
| TakeWorkflow.TakeSelectorWorkflow.GroupEntries | implementation/take_selector_v2/backend/take_selector/workflow.py:299-308 | entry k carries group k's id, members and current selection, and its metadata exactly when that metadata is truthy |
| TimelineData.DigitRun | _archived/reference/tools/timeline_integrated/core/DataManager.js:115 | the digits `parseInt` reads: the longest run of decimal digits at the head of the text |
| TimelineData.ParseIntOfDigits | _archived/reference/tools/timeline_integrated/core/DataManager.js:115 | the decimal digits of a natural number form one run and read back as it |
| TimelineData.ParseIntOfText | _archived/reference/tools/timeline_integrated/core/DataManager.js:115 | `parseInt` reads back the decimal text of any integer |
| TimelineData.TextKeyFindsNumericId | _archived/reference/tools/timeline_integrated/core/DataManager.js:115-142 | a numeric id is found under its decimal text too |
| TimelineData.Merge | _archived/reference/tools/timeline_integrated/core/DataManager.js:150 | the spread merge: each property the patch leaves out keeps the segment's value |
| TimelineData.MergeLaws | _archived/reference/tools/timeline_integrated/core/DataManager.js:150 | merging an empty patch changes nothing; merging a patch twice is merging it once |
| TimelineData.ValidateSegmentChanges | _archived/reference/tools/timeline_integrated/core/DataManager.js:173-191 | an error exactly when the changes touch the timing and the merged segment does not start before it ends; the overlap check only warns |
| TimelineData.ValidChangesKeepTiming | _archived/reference/tools/timeline_integrated/core/DataManager.js:173-191 | changes that pass validation keep a well-timed segment well timed |
| TimelineData.RemoveAt | _archived/reference/tools/timeline_integrated/core/DataManager.js:374 | `splice(i, 1)` drops the element at i and keeps the rest in order |
| TimelineData.DeleteIndexAsWritten | _archived/reference/tools/timeline_integrated/core/DataManager.js:365-367 | as written the search reaches its third disjunct at the first segment matching neither id field and throws; only a first-element match or an empty list escape |
| TimelineData.DeleteAsWrittenMissesSecond | _archived/reference/tools/timeline_integrated/core/DataManager.js:364-385 | the second of two segments cannot be deleted as written, though the intended lookup finds it |
| TimelineData.CacheAfterUpdateAsWritten | _archived/reference/tools/timeline_integrated/core/DataManager.js:159 | only the entry stored under the given key is dropped |
| TimelineData.UpdateAsWrittenLeavesStaleCopy | _archived/reference/tools/timeline_integrated/core/DataManager.js:109-170 | a segment cached under the number 1 and updated through the text "1" stays cached with its old text |
| TimelineData.DataManager.ClearCaches | _archived/reference/tools/timeline_integrated/core/DataManager.js:98-101 | the cache is emptied, the segments kept |
| TimelineData.DataManager.FindIndex | _archived/reference/tools/timeline_integrated/core/DataManager.js:141-143 | the loop finds the first index matching the lookup |
| TimelineData.DataManager.GetSegment | _archived/reference/tools/timeline_integrated/core/DataManager.js:109-123 | a cached copy if there is one, else the first matching segment, then cached; with a coherent cache always the first match |
| TimelineData.DataManager.SegmentsInTimeRange | _archived/reference/tools/timeline_integrated/core/DataManager.js:126-130 | exactly the segments overlapping the open range |
| TimelineData.DataManager.SegmentAtTime | _archived/reference/tools/timeline_integrated/core/DataManager.js:133-137 | the first segment containing the time, none iff none does |
| TimelineData.DataManager.UpdateSegment | _archived/reference/tools/timeline_integrated/core/DataManager.js:140-191 | not found or bad timing fail before any change; otherwise only the matching entry becomes the merge; cache coherence and good timing are kept |
| TimelineData.DataManager.CreateSegment | _archived/reference/tools/timeline_integrated/core/DataManager.js:336-361 | the defaults overridden by the data, validated, appended; cache cleared; coherence and good timing kept |
| TimelineData.DataManager.DeleteSegment | _archived/reference/tools/timeline_integrated/core/DataManager.js:364-385 | removes and returns the first matching segment, the others kept in order; "not found" when none matches; coherence and good timing kept |
| TimelineExport.ClockFieldsArePython | _archived/reference/tools/timeline_integrated/core/DataManager.js:448-455 | for a non-negative time the JavaScript floor fields are the Python ones of the render tool |
| TimelineExport.PadIsPython | _archived/reference/tools/timeline_integrated/core/DataManager.js:454 | `padStart` of a number's text equals Python's zero-padded width format |
| TimelineExport.SrtTimeAgrees | _archived/reference/tools/timeline_integrated/core/DataManager.js:448-455 | a non-negative time prints exactly as the render tool's `format_srt_time` prints it |
| TimelineExport.SrtTimeReadsBack | _archived/reference/tools/timeline_integrated/core/DataManager.js:448-455 | the time stamp reads back as the time's whole milliseconds |
| TimelineExport.PadExcludes | _archived/reference/tools/timeline_integrated/core/DataManager.js:454 | a padded number is digits, maybe after a `-` |
| TimelineExport.VttIsSrtWithDot | _archived/reference/tools/timeline_integrated/core/DataManager.js:448-464 | a WebVTT time stamp is the SubRip one with `,` turned into `.` |
| TimelineExport.CsvIdAsWritten | _archived/reference/tools/timeline_integrated/core/DataManager.js:416 | a truthy id gives its text; with neither id truthy the cell is empty |
| TimelineExport.CsvId | _archived/reference/tools/timeline_integrated/core/DataManager.js:416 | the id when present, else the segment id, else empty |
| TimelineExport.CsvIdZeroAsWritten | _archived/reference/tools/timeline_integrated/core/DataManager.js:416 | a segment with id 0 gets an empty ID cell as written and "0" as intended |
| TimelineExport.CsvIdsDistinct | _archived/reference/tools/timeline_integrated/core/DataManager.js:416 | with the intended cell, different numeric ids never share an ID cell |
| TimelineExport.QuoteRoundTrip | _archived/reference/tools/timeline_integrated/core/DataManager.js:420 | the text cell is quoted and collapsing its doubled quotes gives back the text |
| TimelineExport.CsvCells | _archived/reference/tools/timeline_integrated/core/DataManager.js:415-422 | one cell per header |
| TimelineExport.FixedExcludesNewline | _archived/reference/tools/timeline_integrated/core/DataManager.js:417-419 | `toFixed` text holds no line break |
| TimelineExport.CsvLines | _archived/reference/tools/timeline_integrated/core/DataManager.js:413-425 | when no id or text holds a line break, the export splits into the header line and one row per segment, in order |
| TimelineExport.SrtBlocksNumbered | _archived/reference/tools/timeline_integrated/core/DataManager.js:428-435 | the SubRip blocks are numbered 1, 2, ... in segment order, each number on its own line |
| TimelineExport.VttCueIsSrtBlock | _archived/reference/tools/timeline_integrated/core/DataManager.js:428-446 | each WebVTT cue is the segment's SubRip block without its number line, with `.` for `,` in the time stamps |
| TimelineRedistribute.UniformWordIsProduct | _archived/reference/tools/timeline_integrated/core/DataManager.js:239-243 | word i's slice is computed with the products `i * d` and `(i + 1) * d` the source writes |
| TimelineRedistribute.RedistributeUniform | _archived/reference/tools/timeline_integrated/core/DataManager.js:235-244 | one word out per word in |
| TimelineRedistribute.UniformSlicesMeet | _archived/reference/tools/timeline_integrated/core/DataManager.js:239-243 | each uniform slice ends where the next begins |
| TimelineRedistribute.UniformSlicesTile | _archived/reference/tools/timeline_integrated/core/DataManager.js:235-244 | n slices of width d tile `[s, s + n*d]` |
| TimelineRedistribute.UniformSlicesFields | _archived/reference/tools/timeline_integrated/core/DataManager.js:239-243 | every slice keeps the word's other properties and lasts d |
| TimelineRedistribute.UniformTilesSegment | _archived/reference/tools/timeline_integrated/core/DataManager.js:235-244 | the uniform split tiles `[startTime, endTime]` in input order, each word lasting `(endTime - startTime) / n`, every other property kept |
| TimelineRedistribute.RedistributeProportional | _archived/reference/tools/timeline_integrated/core/DataManager.js:247-258 | an empty list and a zero span are the cases the source leaves undefined, reported as errors; otherwise one word out per word in |
| TimelineRedistribute.AffineDifference | _archived/reference/tools/timeline_integrated/core/DataManager.js:255-256 | the affine map scales differences by the scale factor |
| TimelineRedistribute.ProportionalStretches | _archived/reference/tools/timeline_integrated/core/DataManager.js:247-258 | the first start goes to `startTime` and the last end to `endTime`; every duration and every gap is scaled by `(endTime - startTime) / span`; other properties kept |
| TimelineRedistribute.ProportionalKeepsTiling | _archived/reference/tools/timeline_integrated/core/DataManager.js:247-258 | contiguous words stay contiguous, so a tiling of the old span becomes a tiling of the new one |
| TimelineValidation.Prop | _archived/reference/tools/timeline_integrated/core/DataManager.js:64-70 | a property read gives a value exactly for an object holding that key |
| TimelineValidation.WordFailure | _archived/reference/tools/timeline_integrated/core/DataManager.js:84-92 | no error exactly when the word passes every check |
| TimelineValidation.SegmentFailure | _archived/reference/tools/timeline_integrated/core/DataManager.js:69-93 | no error exactly when the segment and all its words pass, the segment's own checks first |
| TimelineValidation.DataFailure | _archived/reference/tools/timeline_integrated/core/DataManager.js:59-95 | no error exactly for valid data |
| TimelineValidation.FailureNamesFirstBadSegment | _archived/reference/tools/timeline_integrated/core/DataManager.js:69-94 | a failure is the first offending segment's failure, all segments before it passing |
| TimelineValidation.CheckSegment | _archived/reference/tools/timeline_integrated/core/DataManager.js:83-93 | the word loop reports exactly the segment's specified failure |
| TimelineValidation.ValidateDataStructure | _archived/reference/tools/timeline_integrated/core/DataManager.js:59-95 | the loops throw exactly the specified error, and nothing exactly for valid data |
| Transcribe.Paired | tools/01-transcribe/transcribe.py:191 | `zip` stops at the shorter of the transcripts and the video paths |
| Transcribe.ShiftWords | tools/01-transcribe/transcribe.py:210-217 | one word per word, text kept, start and end moved by the offset |
| Transcribe.Shifted | tools/01-transcribe/transcribe.py:202-220 | segment i of a transcript becomes its adjusted copy numbered `first + i` |
| Transcribe.Language | tools/01-transcribe/transcribe.py:226 | the first transcript's language, "en" when it has none or there are no transcripts |
| Transcribe.AppendShifted | tools/01-transcribe/transcribe.py:202-220 | the inner loop appends the transcript's adjusted segments and advances the counter by their number |
| Transcribe.CombineTranscripts | tools/01-transcribe/transcribe.py:178-230 | the loops build exactly the specified combined transcript |
| Transcribe.SourcesShape | tools/01-transcribe/transcribe.py:195-200 | one source per paired transcript, in order |
| Transcribe.SourcesContiguous | tools/01-transcribe/transcribe.py:188-228 | the first source starts at 0, each starts where the previous ended and lasts its transcript's duration, and the total duration is where the last ends (0 with none) |
| Transcribe.DurationIsSum | tools/01-transcribe/transcribe.py:222-227 | the combined duration is the sum of the paired transcripts' durations |
| Transcribe.CountMonotone | tools/01-transcribe/transcribe.py:189-220 | the counter passes each transcript's segments before the next transcript |
| Transcribe.SegmentsLength | tools/01-transcribe/transcribe.py:202-220 | one combined segment per segment of the paired transcripts |
| Transcribe.SegmentAt | tools/01-transcribe/transcribe.py:202-220 | transcript i's segment j sits at position `Count(i) + j`, numbered so, with its original id, text and video, its times and word times moved by transcript i's offset |
| Transcribe.IdAt | tools/01-transcribe/transcribe.py:204-220 | every combined segment's id is its position |
| Transcribe.CombinedSegments | tools/01-transcribe/transcribe.py:186-229 | the combined segments are numbered 0..N-1, N being the paired transcripts' segment count, each its transcript's segment shifted by its offset |
| Transcribe.OffsetMonotone | tools/01-transcribe/transcribe.py:222 | offsets never decrease along the transcripts when durations are non-negative |
| Transcribe.SegmentsWithinSources | tools/01-transcribe/transcribe.py:195-222 | with non-negative durations and segments inside their own video, every combined segment lies inside its source's range |
| Transcribe.SegmentsInOrder | tools/01-transcribe/transcribe.py:195-222 | under the same conditions a segment of an earlier transcript ends no later than one of a later transcript starts |
| TranscriptCore.MaxEnd | implementation/transcript_core/models.py:76 | the largest segment end: an upper bound reached by some segment |
| TranscriptCore.TranscriptDuration | implementation/transcript_core/models.py:72-76 | 0 with no segments, else the latest segment end |
| TranscriptCore.ActiveTakeIsFirstActive | implementation/transcript_core/models.py:47-52 | the active take is the first active one, none iff no take is active |
| TranscriptCore.FindActiveTake | implementation/transcript_core/models.py:47-52 | the loop returns the first active take |
| TranscriptCore.FindGroupIndex | _archived/implementation/transcript_core/grouping.py:21-25 | the loop finds the first group with the id |
| TranscriptCore.FindTake | _archived/implementation/transcript_core/grouping.py:126-130 | the loop finds the first take with the id |
| TranscriptCore.FindTakeIndex | _archived/implementation/transcript_core/grouping.py:40-43 | the loop finds the position of the first take with the id |
| TranscriptCore.GroupIndexKeepsIds | _archived/implementation/transcript_core/grouping.py:21-61 | replacing a group's takes does not change which group an id finds |
| TranscriptCore.ActiveCountActivate | _archived/implementation/transcript_core/grouping.py:70-75 | after activating an id, the active takes are exactly those carrying it |
| TranscriptCore.ActiveCountDeactivate | _archived/implementation/transcript_core/selection.py:40-41 | clearing leaves no active take |
| TranscriptCore.IdCountZero | _archived/implementation/transcript_core/grouping.py:69-77 | no take carries the id exactly when the count is zero |
| TranscriptCore.IdCountDistinct | _archived/implementation/transcript_core/grouping.py:69-77 | with distinct ids at most one take carries the id, and one does exactly when it is found |
| TranscriptCore.DeactivateAll | _archived/implementation/transcript_core/selection.py:40-41 | the loop deactivates every take of the group |
| TranscriptCore.ActivateAll | _archived/implementation/transcript_core/grouping.py:69-77 | the loop activates the takes carrying the id, deactivates the rest, and reports whether one was found |
| TranscriptCore.ActivateIndexAll | _archived/implementation/transcript_core/selection.py:75-76 | the loop activates exactly the take at the index |
| TranscriptCore.ActiveCountZero | _archived/implementation/transcript_core/selection.py:118 | no take is active exactly when the active count is zero |
| TranscriptCore.ActivateSelectsFirst | _archived/implementation/transcript_core/grouping.py:64-77 | after activating an id the active take is the first take carrying it |
| TranscriptCore.ActivateIndexSelects | _archived/implementation/transcript_core/selection.py:70-78 | after selecting index k, take k is the one active take |
| TranscriptCore.ActiveCountOnly | _archived/implementation/transcript_core/selection.py:75-76 | a take list whose only active take is at k has one active take |
| TranscriptCore.GroupsWithActiveBound | _archived/implementation/transcript_core/selection.py:30-35 | the groups with an active take are at most all groups, none exactly when no group has one |
| TranscriptCore.ActivateKeepsIntegrity | _archived/implementation/transcript_core/grouping.py:64-138 | activating over distinct ids keeps at most one take active |
| TranscriptSegments.RemoveAt | implementation/transcript_core/segments.py:15 | `del xs[i]` shortens the list by one |
| TranscriptSegments.MinStart | implementation/transcript_core/segments.py:70 | the earliest word start: a lower bound reached by some word |
| TranscriptSegments.MaxEnd | implementation/transcript_core/segments.py:71 | the latest word end: an upper bound reached by some word |
| TranscriptSegments.CreateSegmentFromWords | implementation/transcript_core/segments.py:61-76 | an empty word list is the source's error; otherwise the segment spans from the earliest word start to the latest word end, keeps the words, and its text is the given one or the words' texts joined by spaces |
| TranscriptSegments.CreatedSegmentOrdered | implementation/transcript_core/segments.py:61-76 | words that each start no later than they end give a segment that starts no later than it ends |
| TranscriptSegments.SegmentManager.AddSegment | implementation/transcript_core/segments.py:9-10 | the segment is appended |
| TranscriptSegments.SegmentManager.FindIndex | implementation/transcript_core/segments.py:13-14 | the loop finds the position of the first segment with the id |
| TranscriptSegments.SegmentManager.RemoveSegment | implementation/transcript_core/segments.py:12-17 | true iff some segment has the id; then the first such is removed and the rest kept in order; otherwise nothing changes |
| TranscriptSegments.SegmentManager.GetSegment | implementation/transcript_core/segments.py:19-23 | the first segment with the id, none iff there is none |
| TranscriptSegments.SegmentManager.UpdateText | implementation/transcript_core/segments.py:28-33 | true iff some segment has the id; then only the first such segment's text changes |
| TranscriptSegments.SegmentManager.GetSegmentAtTime | implementation/transcript_core/segments.py:35-39 | the first segment whose closed interval holds the time |
| TranscriptSegments.SegmentManager.SegmentsInRange | implementation/transcript_core/segments.py:41-45 | exactly the segments whose closed interval meets `[start, end]` |
| TranscriptSegments.SegmentManager.ReorderSegments | implementation/transcript_core/segments.py:47-59 | succeeds, replacing the list by the segments the ids resolve to, exactly when every id resolves and there are as many ids as segments; otherwise nothing changes |
| TranscriptSegments.ReorderedSegmentsMatchIds | implementation/transcript_core/segments.py:47-59 | after a successful reorder position k holds a segment of the old list carrying id k |
| WordRedistribution.AdjustWordDuration | _archived/reference/tools/timeline_integrated/WordRedistribution/WordRedistribution.js:212-240 | for a non-negative base and pause the result lies between 0.72 and 1.32 times the base, plus at most 1.1 times the pause |
| WordRedistribution.AdjustFactors | _archived/reference/tools/timeline_integrated/WordRedistribution/WordRedistribution.js:212-240 | the base scaled for length in UTF-16 code units, plus the punctuation pause, all scaled for position |
| WordRedistribution.Utf16Length | _archived/reference/tools/timeline_integrated/WordRedistribution/WordRedistribution.js:215-217 | `length` is at least the character count and at most twice it, equal to it exactly when no character lies outside the Basic Multilingual Plane |
| WordRedistribution.EmojiWordIsLong | _archived/reference/tools/timeline_integrated/WordRedistribution/WordRedistribution.js:215-216 | a word of five emoji is ten code units long and gets the long-word factor |
| WordRedistribution.BaseDuration | _archived/reference/tools/timeline_integrated/WordRedistribution/WordRedistribution.js:161-165 | the even share clamped to at most the maximum, and to at least the minimum when the bounds are ordered |
| WordRedistribution.Clip | _archived/reference/tools/timeline_integrated/WordRedistribution/WordRedistribution.js:179-182 | a granted duration never runs past the segment end |
| WordRedistribution.FirstPass | _archived/reference/tools/timeline_integrated/WordRedistribution/WordRedistribution.js:167-192 | one placed word per word |
| WordRedistribution.Redistributed | _archived/reference/tools/timeline_integrated/WordRedistribution/WordRedistribution.js:154-207 | one word out per word in, none for none |
| WordRedistribution.RedistributeWords | _archived/reference/tools/timeline_integrated/WordRedistribution/WordRedistribution.js:154-207 | the loops build exactly the specified words |
| WordRedistribution.LayOut | _archived/reference/tools/timeline_integrated/WordRedistribution/WordRedistribution.js:167-192 | the first-pass loop places exactly the specified words and reaches the specified time |
| WordRedistribution.SpreadRemaining | _archived/reference/tools/timeline_integrated/WordRedistribution/WordRedistribution.js:194-204 | the spreading loop moves word i by i shares and stretches it by one |
| WordRedistribution.FirstPassFacts | _archived/reference/tools/timeline_integrated/WordRedistribution/WordRedistribution.js:167-192 | the first pass lays the words end to end from the segment start, never past the segment end, and ends where its last word ends |
| WordRedistribution.SpreadMeets | _archived/reference/tools/timeline_integrated/WordRedistribution/WordRedistribution.js:199-203 | the spread keeps neighbouring words touching |
| WordRedistribution.SpreadKeeps | _archived/reference/tools/timeline_integrated/WordRedistribution/WordRedistribution.js:199-203 | the spread keeps each word's text and other properties and its duration equal to its span |
| WordRedistribution.SpreadEnds | _archived/reference/tools/timeline_integrated/WordRedistribution/WordRedistribution.js:199-203 | the first word keeps its start and the last word gains all n shares |
| WordRedistribution.RedistributedTilesSegment | _archived/reference/tools/timeline_integrated/WordRedistribution/WordRedistribution.js:154-207 | for any configuration the words tile the segment exactly, in order, each keeping its other properties and carrying its span as duration |
| WordRedistribution.WantedNonnegative | _archived/reference/tools/timeline_integrated/WordRedistribution/WordRedistribution.js:172-177 | with non-negative settings every word asks for a non-negative duration |
| WordRedistribution.FirstPassInside | _archived/reference/tools/timeline_integrated/WordRedistribution/WordRedistribution.js:167-192 | on a segment not ending before it starts, the first pass keeps every word inside it |
| WordRedistribution.SpreadInside | _archived/reference/tools/timeline_integrated/WordRedistribution/WordRedistribution.js:199-203 | spreading non-negative shares keeps words inside the stretched range |
| WordRedistribution.RedistributedInsideSegment | _archived/reference/tools/timeline_integrated/WordRedistribution/WordRedistribution.js:154-207 | with non-negative settings on a segment not ending before it starts, every word lies inside the segment and lasts a non-negative time |
| WordRedistribution.WordIssues | _archived/reference/tools/timeline_integrated/WordRedistribution/WordRedistribution.js:277-295 | no error for word i exactly when it lasts some time, follows its predecessor within 0.1 and stays inside the segment |
| WordRedistribution.IssuesEmpty | _archived/reference/tools/timeline_integrated/WordRedistribution/WordRedistribution.js:276-296 | no errors exactly when every word passes |
| WordRedistribution.ValidateWordTimings | _archived/reference/tools/timeline_integrated/WordRedistribution/WordRedistribution.js:267-304 | a missing segment or words is the fixed error; otherwise the errors of the words, the word count and the segment span; valid exactly when every word passes |
| WordRedistribution.RedistributedOnlyFailsOnEmptyWords | _archived/reference/tools/timeline_integrated/WordRedistribution/WordRedistribution.js:154-296 | a redistributed segment never shows a gap or a word out of bounds; a word fails only for lasting no time |
| Boundaries.OrDefault | tools/timeline_integrated/InteractiveBoundaries/InteractiveBoundaries.js:214-215 | `value \|\| fallback` on a number: absent and zero fall back, any other value is kept |
| Boundaries.SnapChoiceFacts | tools/timeline_integrated/InteractiveBoundaries/InteractiveBoundaries.js:326-345 | none when no word boundary is strictly within the threshold; otherwise a nearest boundary, the first of equally near ones |
| Boundaries.SnapIdempotent | tools/timeline_integrated/InteractiveBoundaries/InteractiveBoundaries.js:326-345 | snapping a snapped time again changes nothing, for any positive threshold |
| Boundaries.Collided | tools/timeline_integrated/InteractiveBoundaries/InteractiveBoundaries.js:347-382 | a segment not found keeps the time; a left edge before the previous end plus the gap is pushed to it, else held at least the minimum duration before the end; the right edge mirrors this |
| Boundaries.CollisionStaysBetween | tools/timeline_integrated/InteractiveBoundaries/InteractiveBoundaries.js:347-382 | when there is room, the collided time lies between the neighbour plus the gap and the far end less the minimum duration |
| Boundaries.MinimumDuration | tools/timeline_integrated/InteractiveBoundaries/InteractiveBoundaries.js:384-398 | the dragged edge keeps at least the minimum duration from the other, and a time that already does is unchanged |
| Boundaries.DragTime | tools/timeline_integrated/InteractiveBoundaries/InteractiveBoundaries.js:223-236 | after snapping, collision and the minimum duration, the written edge keeps at least the minimum duration |
| Boundaries.DragStaysBetween | tools/timeline_integrated/InteractiveBoundaries/InteractiveBoundaries.js:223-236 | with collision detection on and room beside the neighbour, the written time lies between the neighbour and the far end |
| Boundaries.DraggedAt | tools/timeline_integrated/InteractiveBoundaries/InteractiveBoundaries.js:238-247 | the drag is the store's update of the matching segment with the constrained edge |
| Boundaries.DragMovesOneEdge | tools/timeline_integrated/InteractiveBoundaries/InteractiveBoundaries.js:209-247 | with a positive minimum duration a drag never fails validation: only the dragged edge of the matching segment moves, every other segment is kept, and the minimum duration holds |
| Boundaries.KeyNudgesOneEdge | tools/timeline_integrated/InteractiveBoundaries/InteractiveBoundaries.js:299-322 | Shift+ArrowLeft moves the start 0.1 s earlier but not below 0, Shift+ArrowRight moves the end 0.1 s later, any other key changes nothing |
| Boundaries.InteractiveBoundaries.OnZoomChanged | tools/timeline_integrated/InteractiveBoundaries/InteractiveBoundaries.js:54-58 | a zero or absent zoom value falls back to 50 and 1.0; nothing else changes |
| Boundaries.InteractiveBoundaries.SelectSegment | tools/timeline_integrated/InteractiveBoundaries/InteractiveBoundaries.js:166-183 | the selection is recorded and the segments are kept |
| Boundaries.InteractiveBoundaries.HandleResizeMouseDown | tools/timeline_integrated/InteractiveBoundaries/InteractiveBoundaries.js:186-207 | a drag of the handle starts at the mouse position, from the segment's start or end when it is found |
| Boundaries.InteractiveBoundaries.DragStartOf | tools/timeline_integrated/InteractiveBoundaries/InteractiveBoundaries.js:195-199 | the segment list is unchanged; with a coherent cache the value is the found segment's start for a left handle, its end for a right one, and none when no segment has the id |
| Boundaries.InteractiveBoundaries.SnapToNearestWord | tools/timeline_integrated/InteractiveBoundaries/InteractiveBoundaries.js:326-345 | the loop settles on the specified snapped time |
| Boundaries.InteractiveBoundaries.ConstrainedTime | tools/timeline_integrated/InteractiveBoundaries/InteractiveBoundaries.js:223-236 | the constraints are applied in the source's order |
| Boundaries.InteractiveBoundaries.HandleMouseMove | tools/timeline_integrated/InteractiveBoundaries/InteractiveBoundaries.js:209-264 | without a drag nothing changes; during a drag the dragged edge is set to the constrained time; good timing is kept |
| Boundaries.InteractiveBoundaries.DragTo | tools/timeline_integrated/InteractiveBoundaries/InteractiveBoundaries.js:218-247 | look-up, constraints and update give the specified drag |
| Boundaries.InteractiveBoundaries.HandleMouseUp | tools/timeline_integrated/InteractiveBoundaries/InteractiveBoundaries.js:266-291 | a drag under way ends with all drag state reset; otherwise nothing changes |
| Boundaries.InteractiveBoundaries.HandleKeyDown | tools/timeline_integrated/InteractiveBoundaries/InteractiveBoundaries.js:293-323 | without a truthy selection nothing changes; otherwise the key nudges one edge of the selected segment; good timing is kept |

## Left out

- I/O is not modelled: file reads and writes (the JSON written by `combine_transcripts` and `_save_plan`), `fetch`, the DOM, event emission and console logging. Each operation is modelled on the values it reads and returns.
- ffmpeg and whisper invocations, file globbing, the network and LLM client, async orchestration, the CLI, Flask apps and the headless-browser renderer are not part of this model.
- The temp-file branch of `build_ffmpeg_command` is not modelled; only the inline `-filter_complex` branch is.
- tools/05b-render/render.py is not part of this model. It calls `build_filter_graph` with five arguments against four parameters, and it uses the `(cmd, file)` tuple as an argument vector.
- FfmpegBuilder.BuildFilterGraph: pairs caption event k with playable interval k, as written. Because captions skip unmatched intervals, later events can land on the wrong chain. Nothing is proved about that pairing.
- Floating point is not modelled. Times, ratios and zoom factors are exact reals. IEEE rounding, NaN and Infinity are out of scope; `Infinity` in `snapToNearestWord` is an absent value.
- Host-library date handling is not modelled directly. `strptime` and `strftime` become a proleptic Gregorian day-number model. The JavaScript `Date` parse in `normalizeDate` is a parameter (`isoOf`).
- JavaScript string order is not modelled exactly. The model sorts by code point, while JavaScript's default sort compares UTF-16 code units; the two differ only for characters outside the Basic Multilingual Plane. `Object.keys` order is not modelled.
- `parseInt` is modelled as leading white space, an optional sign and decimal digits. The hexadecimal `0x` prefix is not modelled.
- The `\w` character class is restricted to ASCII letters, digits and `_`.
- Aliasing is not modelled. Take and segment objects shared between lists and managers are values in the model, so an update through one reference is not seen through another.
- `TakeWorkflow`'s getters (`get_segments`, `get_groups`, `get_group`, `get_group_for_segment`, `get_selected_segment`, `has_selection`) only forward to the managers. The model uses the manager functions directly. `load_transcript` is modelled only as the assignment of the parsed segments.
- DataManager (timeline editor): the model omits `loadData`, `redistributeWords`, `redistributePreserveGaps`, `updateTranscript`, `getStatistics`, `exportData`'s JSON branch, the word cache and the event listeners.
- Content database: `checkProtocol`, `loadCSVFiles` and `loadMediaJSON` (file and network loading) are not modelled.
- InteractiveBoundaries: `handleWidth`, the resize indicator, styles and the DOM overlay are not modelled.
- Boundaries.InteractiveBoundaries.HandleMouseMove: the new segment list is stated only when the store's cache agrees with its list. A stale cache entry could hand the drag an out-of-date segment.
- Boundaries.InteractiveBoundaries.HandleKeyDown: stated only when the store's cache agrees with its list, for the same reason.
- Boundaries.InteractiveBoundaries.HandleResizeMouseDown: the drag's start value is stated only when the store's cache agrees with its list.
- Boundaries.InteractiveBoundaries.DragStartOf: the value is stated only when the store's cache agrees with its list.
- tools/timeline_integrated/core/DataManager.js is not part of this model. The boundary editor is modelled over the archived segment store in `TimelineData`.
- TimelineRedistribute.RedistributeProportional: an empty word list and a zero span are reported as errors. The source divides by zero or reads past the list there.
- Similarity.ComputeSegmentSimilarity: lower-casing covers ASCII letters only (`Strings.PyLower`), while Python's `str.lower()` follows the Unicode tables. Non-ASCII words that differ only in case ("Café" and "CAFÉ") are distinct words in the model, so their score, and the pairs `FindCandidateDuplicates` reports, can be lower than the source's.
- Similarity.SimilarityExtremes: "the same set of lower-cased words" means ASCII lower-casing, for the same reason.
- FindSegmentFrom: every transcript segment carries a start and an end. A same-video segment without them makes `seg.get('start') <= seg_start` raise a TypeError in the source; the model has no such segment and no such error.
- FindMatchingSegment: the same restriction as `FindSegmentFrom`; the TypeError for a segment without start or end is not modelled.
- BuildSegmentFilterChain: every caption word carries its text and its colour, as the caption events built by `build_caption_events` always do. The fallbacks `word.get('text', '')` and `word.get('color', default_color)` and the style's `default_color` are not modelled.
- CoreUtils.ParseTime: `float()` is modelled on plain decimal text (an optional sign, ASCII digits and at most one point). The exponent form ("1e2"), digit-group underscores ("1_0"), "inf" and "nan", all of which Python's `float()` accepts, are parse errors in the model.
- CoreModels.StrField: a present value that is not a string is a `WrongType` error. The dataclass constructors in core/models.py check no types and store whatever `data[key]` holds, so `{"text": 1, "start": "0", "end": null}` builds a `Word` there. The model's entities have typed fields, so decoding covers well-typed JSON only.
- CoreModels.NumField: likewise, a present value that is not a number is an error here and is stored by the source.
- CoreModels.OptStrField: likewise, a present value that is neither a string nor `null` (`"speaker": 5`) is an error here and is stored by the source.
- CoreModels.ListField: a present value that is not a list is an error here; the source iterates whatever it finds, so `"words": ""` gives `[]`.
- CoreModels.ClipFromDict: a non-boolean `include` is an error here and is stored by the source; likewise a non-integer `version` in `CoreModels.ProjectFromDict`.
- IsoDates.ParseIso: `strptime`'s `\d` also matches non-ASCII decimal digits in the year and in a two-digit day; the model reads ASCII digits only.
- CoverageError: `repr` of a plan key chooses its quotes and escapes the quote, backslashes and ASCII control characters as Python does (`SlotScheduler.StrRepr`). Non-ASCII characters are kept as they are; Python escapes those Unicode does not class as printable.

## Findings

| source | as written | input that shows it | evidently intended | confidence | as-written member | corrected member |
|---|---|---|---|---|---|---|
| _archived/implementation/transcript_core/timing.py:156-167 | the segment's start is overwritten before each word's offset is measured from it | segment [10, 20] with the word [10, 12], adjusted to [0, 10]: the word stays at [10, 12], outside the segment | measure each word's offset from the old start, so words inside the old bounds land inside the new ones | high, not executed | ArchivedTiming.AdjustAsWrittenLeavesWordOutside | ArchivedTiming.AdjustedKeepsWordsInside |
| _archived/reference/tools/timeline_integrated/core/DataManager.js:365-367 | the lookup of `deleteSegment` reads an undeclared `id` in its third disjunct and throws a ReferenceError | segments with ids 0 and 1, deleting id 1: the first segment reaches the third disjunct and throws | the lookup `updateSegment` uses, with the parameter `segmentId` | high, not executed | TimelineData.DeleteAsWrittenMissesSecond | TimelineData.DataManager.DeleteSegment |
| _archived/reference/tools/timeline_integrated/core/DataManager.js:159 | `updateSegment` drops only the cache entry stored under the key it was given | segment 1 cached under the number 1, then updated through the text "1": `getSegment(1)` returns the old text | clear the whole cache, as `createSegment` and `deleteSegment` do | medium, not executed | TimelineData.UpdateAsWrittenLeavesStaleCopy | TimelineData.DataManager.UpdateSegment |
| _archived/reference/tools/timeline_integrated/core/DataManager.js:416 | the ID cell takes the first truthy of `id`, `segment_id` and the empty string, so an id of 0 falls through | a segment with id 0 and no segment id, the first segment of a combined transcript: its ID cell is empty | the id whenever it is present | medium, not executed | TimelineExport.CsvIdZeroAsWritten | TimelineExport.CsvIdsDistinct |
