# SubRip subtitle entries and tracks, in Dafny

This project models the core of the SubtitleReader library: the two Java
classes that hold a SubRip (`.srt`) subtitle track in memory.

- `SRTEntry` is one cue. It has a start and an end time in milliseconds and
  its lines of text. It keeps the invariant `0 <= startTime < endTime`, and
  every setter refuses a change that would break it.
- `SRTSubtitle` is a track. It extends `ArrayList<SRTEntry>` and adds
  `insertAt` and `toString`. `insertAt` puts one or more entries in front of
  a position. At the end of the list it simply adds them one by one. At any
  other position it rebuilds the list. `toString` renders the track as SubRip
  text. A private `formatTime` prints each time stamp as `HH:MM:SS,mmm`.

Files:

- `wrappers.dfy` holds `Option`, `Result` and `Outcome`. A Java method that
  throws `IllegalArgumentException` returns `Fail`/`Failure` with one error
  per distinct message. The entry is then left unchanged.
- `decimal.dfy` holds the decimal text of numbers and its reading back. This
  is what Java's `int + String` concatenation and the `%0Nd` conversions
  print.
- `srt_entry.dfy` models `SRTEntry` as a class with `startTime`, `endTime`
  and `text` fields.
- `srt_subtitle.dfy` models `SRTSubtitle` as a class whose `entries`
  sequence plays the role of the inherited `ArrayList`.
  - The three loops of `insertAt` are kept as loops. They are proved against
    `Splice`, the ordinary insertion of a sequence into another.
  - `toString` is kept as its loops, proved against `Render`. `Render` is a
    function giving the whole SubRip text of a list of entries.
  - `formatTime` is the function `FormatTime`. Its partner `ParseTime` reads
    a time stamp back.
- `srt_example.dfy` works through the two-cue track "Hello" (1 s to 3 s)
  and "World"/"Line2" (4 s to 6 s). It proves the exact text rendered for
  it. It also proves the insertion of one entry at index 1 of a three-entry
  track.

## Notes on the code

- **Cue numbers.** The number `toString` prints is `indexOf(entry) + 1`.
  `SRTEntry` does not override `equals`, so `indexOf` finds the first
  occurrence of the same object. When no object is listed twice, the entry
  at position `k` is numbered `k + 1` (`CueNumbersContiguous`). An object
  listed again is printed with the number of its first occurrence
  (`RepeatedEntrySharesNumber`).
- **Constructor errors.** The constructor throws three different messages:
  equal times, a negative start, and start after end. The model keeps them
  as three errors, `EqualTimes`, `NegativeStart` and `StartAfterEnd`.
- **Line selectors.** The guard of `getCorrespondingLineNumber` is true for
  every selector, so it rejects all of them, `LINE_1` and `LINE_2` included.
  `setTextAtLine` therefore always throws (see Findings).

## Model

| member | source | states |
|---|---|---|
| SrtEntry.CheckRange | src/com/cvanbattum/api/srt/SRTEntry.java:48-65 | The constructor accepts exactly `0 <= start < end`. Otherwise it fails with the message its branch order picks: equal times, else a negative start, else start after end. Each case is stated in both directions. |
| SrtEntry.Entry.constructor | src/com/cvanbattum/api/srt/SRTEntry.java:48-69 | On an accepted range the new entry holds the given start, end and lines, and its invariant holds. |
| SrtEntry.Entry.Create | src/com/cvanbattum/api/srt/SRTEntry.java:48-69 | `new SRTEntry` yields a fresh valid entry with the given values exactly when `0 <= start < end`. Otherwise it yields the constructor's error and no entry. |
| SrtEntry.Entry.SetStartTime | src/com/cvanbattum/api/srt/SRTEntry.java:81-91 | Succeeds exactly when `0 <= start < endTime`. Then only the start changes; on failure nothing changes. The invariant is kept either way. |
| SrtEntry.Entry.SetEndTime | src/com/cvanbattum/api/srt/SRTEntry.java:102-112 | Succeeds exactly when `end > startTime`. Then only the end changes; on failure nothing changes. The invariant is kept. |
| SrtEntry.Entry.SetText | src/com/cvanbattum/api/srt/SRTEntry.java:123-126 | Replaces the whole list of lines, whatever its length. The times and the invariant are unchanged. |
| SrtEntry.CorrespondingLineNumber | src/com/cvanbattum/api/srt/SRTEntry.java:145-164 | As written, every selector is rejected with the guard's error. The switch is unreachable. |
| SrtEntry.LineSelectorsAllRejected | src/com/cvanbattum/api/srt/SRTEntry.java:146 | Even the documented selectors `LINE_1` and `LINE_2` are rejected by the guard as written. |
| SrtEntry.IntendedLineNumber | src/com/cvanbattum/api/srt/SRTEntry.java:151-162 | The mapping the switch encodes: a selector is accepted exactly when it is `LINE_1` or `LINE_2`, giving line index 0 or 1 (`line - LINE_1`). Any other selector is rejected. |
| SrtEntry.Entry.SetTextAtLine | src/com/cvanbattum/api/srt/SRTEntry.java:138-142 | As written, the call always fails with the invalid-selector error and leaves the entry unchanged. |
| SrtEntry.Entry.SetTextAtLineIntended | src/com/cvanbattum/api/srt/SRTEntry.java:138-164 | With the intended guard, it succeeds exactly when the selector names a line the entry has. That one line is then replaced and nothing else changes. Otherwise the error says whether the selector or the line was missing, and nothing changes. |
| SrtEntry.Entry.GetStartTime | src/com/cvanbattum/api/srt/SRTEntry.java:187-190 | The start time is never negative and is before the end time. |
| SrtEntry.Entry.GetEndTime | src/com/cvanbattum/api/srt/SRTEntry.java:174-177 | The end time is strictly positive and after the start time. |
| SrtEntry.Entry.GetDuration | src/com/cvanbattum/api/srt/SRTEntry.java:209-212 | The duration is strictly positive and is the distance from start to end. |
| SrtEntry.Entry.GetText | src/com/cvanbattum/api/srt/SRTEntry.java:198-201 | Returns the stored lines unchanged and in order. The rendering reads them through it (`CueOf`). |
| SrtSubtitle.Subtitle.Add | src/com/cvanbattum/api/srt/SRTSubtitle.java:35 | `ArrayList.add`, as called at lines 35, 63 and 100: the entry is appended at the end and nothing else changes. |
| SrtSubtitle.Subtitle.Clear | src/com/cvanbattum/api/srt/SRTSubtitle.java:98 | `ArrayList.clear`: the track becomes empty. |
| SrtSubtitle.Subtitle.constructor | src/com/cvanbattum/api/srt/SRTSubtitle.java:20-23 | A new track is empty. |
| SrtSubtitle.Subtitle.FromEntries | src/com/cvanbattum/api/srt/SRTSubtitle.java:30-39 | A track built from entries holds them in argument order. |
| SrtSubtitle.Subtitle.AddEach | src/com/cvanbattum/api/srt/SRTSubtitle.java:99-102 | Adding entries one by one appends them, in order, to the track. |
| SrtSubtitle.Splice | src/com/cvanbattum/api/srt/SRTSubtitle.java:71-102 | Insertion at `i`: the length grows by the number inserted, positions before `i` are unchanged, the new entries sit at `i..`, and the old entries from `i` on move up by that number. |
| SrtSubtitle.Subtitle.Rebuild | src/com/cvanbattum/api/srt/SRTSubtitle.java:71-95 | The temporary list built by the three loops (prefix, new entries, remaining entries) is exactly the splice. |
| SrtSubtitle.Subtitle.InsertAt | src/com/cvanbattum/api/srt/SRTSubtitle.java:55-104 | Succeeds exactly when `0 <= index <= size()`. On failure the track is unchanged. On success the track is the splice of the new entries at `index`. At `index == size()` it is also the same as adding them one by one. |
| SrtSubtitle.AppendEachIsSplice | src/com/cvanbattum/api/srt/SRTSubtitle.java:61-67 | Adding entries one at a time at the end equals splicing them in at the end. |
| SrtSubtitle.SpliceKeepsDistinct | src/com/cvanbattum/api/srt/SRTSubtitle.java:71-102 | Inserting distinct new objects into a track without repeats, with none in common, leaves a track without repeats. |
| SrtSubtitle.Breakdown | src/com/cvanbattum/api/srt/SRTSubtitle.java:124-128 | The hours/minutes/seconds/milliseconds split has minutes and seconds below 60 and milliseconds below 1000, and it adds back up to the time. |
| SrtSubtitle.BreakdownUnique | src/com/cvanbattum/api/srt/SRTSubtitle.java:124-128 | Any clock reading with fields in range that adds up to the time is that split. |
| SrtSubtitle.FormatTime | src/com/cvanbattum/api/srt/SRTSubtitle.java:124-131 | The stamp has `:` `:` `,` at the fixed places counted from its end. It is at least 12 characters long, and exactly 12 for times below 100 hours. |
| SrtSubtitle.ParseFields | src/com/cvanbattum/api/srt/SRTSubtitle.java:129 | A stamp assembled from fields of the printed widths is read back field by field. |
| SrtSubtitle.ReadPaddedClock | src/com/cvanbattum/api/srt/SRTSubtitle.java:129 | The `%02d`/`%03d` fields of an in-range clock reading are read back as that reading. |
| SrtSubtitle.FormatTimeRoundTrip | src/com/cvanbattum/api/srt/SRTSubtitle.java:124-131 | Every printed time stamp reads back as the time it came from. |
| SrtSubtitle.FormatTimeInjective | src/com/cvanbattum/api/srt/SRTSubtitle.java:124-131 | Different times never print as the same stamp. |
| Decimal.ZeroPad | src/com/cvanbattum/api/srt/SRTSubtitle.java:129 | `%0Nd` is never truncated: its length is the larger of the digit count and the width. |
| Decimal.ZeroPadValue | src/com/cvanbattum/api/srt/SRTSubtitle.java:129 | The padded text is all digits and denotes the number printed. |
| Decimal.ZeroPadWidth | src/com/cvanbattum/api/srt/SRTSubtitle.java:129 | A number below `10^width` is printed in exactly `width` characters. |
| Decimal.DigitsWellFormed | src/com/cvanbattum/api/srt/SRTSubtitle.java:111 | The printed cue number is all digits, with no leading zero. |
| Decimal.ValueOfDigits | src/com/cvanbattum/api/srt/SRTSubtitle.java:111 | The printed cue number reads back as the number. |
| SrtSubtitle.IndexOf | src/com/cvanbattum/api/srt/SRTSubtitle.java:111 | `indexOf` is -1 exactly when the object is absent. Otherwise it is the position of its first occurrence. |
| SrtSubtitle.CueNumber | src/com/cvanbattum/api/srt/SRTSubtitle.java:111 | The number printed for the entry at position `k` is between 1 and `k + 1`. |
| SrtSubtitle.CueNumbersContiguous | src/com/cvanbattum/api/srt/SRTSubtitle.java:110-111 | With no object listed twice, the entry at position `k` is numbered `k + 1`. |
| SrtSubtitle.RepeatedEntrySharesNumber | src/com/cvanbattum/api/srt/SRTSubtitle.java:111 | An object listed again is printed with the number of its first occurrence. |
| SrtSubtitle.InsertRenumbers | src/com/cvanbattum/api/srt/SRTSubtitle.java:55-111 | After inserting new objects into a track without repeats, every entry is numbered by its new position plus one. |
| SrtSubtitle.Cues | src/com/cvanbattum/api/srt/SRTSubtitle.java:110-113 | `toString` reads, for each position, that entry's start, end and lines. |
| SrtSubtitle.CueNumbersAppend | src/com/cvanbattum/api/srt/SRTSubtitle.java:111 | Appending an object not yet in the track keeps every earlier number and numbers the new entry by its position. |
| SrtSubtitle.RenderBlocksAppend | src/com/cvanbattum/api/srt/SRTSubtitle.java:110-119 | Rendering one more numbered cue appends exactly its block. |
| SrtSubtitle.RenderAppend | src/com/cvanbattum/api/srt/SRTSubtitle.java:106-122 | Appending an entry not yet in the track appends exactly one block to the text, numbered by its position. |
| SrtSubtitle.Render | src/com/cvanbattum/api/srt/SRTSubtitle.java:106-122 | The text `toString` returns, as a function of the entries: each entry's block under its cue number, in list order. It is empty exactly when the track is empty, and has at least one character per entry. |
| SrtSubtitle.Subtitle.ToString | src/com/cvanbattum/api/srt/SRTSubtitle.java:106-122 | The builder loop produces exactly `Render` of the entries: each entry's block, in list order. |
| SrtSubtitle.Subtitle.AppendBlock | src/com/cvanbattum/api/srt/SRTSubtitle.java:111-117 | One pass of the outer loop appends the entry's block: number line, timing line, each text line, blank line. |
| SrtSubtitle.Subtitle.AppendLines | src/com/cvanbattum/api/srt/SRTSubtitle.java:113-116 | The inner loop appends each line followed by a newline, in stored order. |
| SrtExample.RenderTwo | src/com/cvanbattum/api/srt/SRTSubtitle.java:106-122 | A track of two different entries renders as block 1 followed by block 2. |
| SrtExample.RenderTwoEntries | src/com/cvanbattum/api/srt/SRTSubtitle.java:106-131 | The two-cue track "Hello" (1 s–3 s) and "World"/"Line2" (4 s–6 s) renders as the exact SubRip text given. |
| SrtExample.InsertIntoThree | src/com/cvanbattum/api/srt/SRTSubtitle.java:55-111 | Inserting `e` at index 1 of `a, b, c` gives `a, e, b, c`. With no repeats, those are numbered 1 to 4. |

## Left out

- The `timetable` field (SRTSubtitle.java:15) is never read. Its initializer runs in both constructors and asks for 2^31−9 arrays of two longs. On an ordinary heap every `new SRTSubtitle(...)` therefore fails with `OutOfMemoryError`. This allocation and its failure are not modelled: the model's constructors always succeed.
- The operations `SRTSubtitle` inherits from `ArrayList` are not modelled, except `add`, `clear`, `get`, `size` and `indexOf`, which `insertAt` and `toString` use (`get` and `size` as sequence indexing and length). Removal, sorting and indexed `set` are in this group.
- Null arguments and null entries are not modelled. Lines are `string` values, so Java's printing of a null line as `null` is not represented.
- Times are unbounded integers. Java's `long` range is not modelled. A setter or constructor given a value near that range behaves the same here, because all the checks are comparisons.
- SrtEntry.Entry.GetText: returns the lines as a value. The Java method returns the internal array itself, so a caller could change an entry's lines through it. That aliasing is not modelled.
- SrtSubtitle.FormatTime: only non-negative times are modelled. Negative times never reach it, because entries keep `startTime >= 0`.
- `String.format` locale: digits are the ASCII digits a default locale prints. Locale-specific digits are not modelled.
- No "active entry at time T" lookup exists in the source, so none is modelled.
- The GUI is not part of this model.
- SrtSubtitle.Subtitle.ToString: requires every entry to satisfy its invariant (`AllValid`). In Java this always holds: the constructor establishes `0 <= startTime < endTime`, and every setter (`setStartTime`, `setEndTime`, `setText`) keeps it (the `Valid()` ensures of each setter).

## Findings

| source | as written | input that shows it | evidently intended | confidence | as-written member | corrected member |
|---|---|---|---|---|---|---|
| src/com/cvanbattum/api/srt/SRTEntry.java:146 | guard `line != LINE_1 \|\| line != LINE_2` is true for every `line`, so every selector throws and `setTextAtLine` can never change a line | `line = LINE_1` (0xC1): `0xC1 != 0xC2` makes the guard true | `line != LINE_1 && line != LINE_2`: accept exactly `LINE_1` and `LINE_2` and map them to indices 0 and 1 | high, not executed | SrtEntry.CorrespondingLineNumber | SrtEntry.IntendedLineNumber |
