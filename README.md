# Student Wellness Monitor — a verified model of its state and analytics

The application is a single-page mood tracker. A user records a daily mood on a
five-point scale (1 Sad … 5 Great) with an optional note, and writes journal entries.
The page keeps the last ten mood check-ins, newest first, and an unbounded journal
list, newest first. An analytics view derives a snapshot from the stored mood list:

- the average mood;
- a trend line of the last seven entries, labelled `Day 1..Day k`;
- a distribution over the five levels, keeping only levels that occur;
- a "Last Week / This Week" comparison once seven entries exist.

The model has seven modules:

- `MoodAnalytics` (`mood_analytics.dfy`): the snapshot, as pure functions with lemmas.
- `Index` (`index.dfy`): the page's session state, as the class `Session`.
- `JournalEntry` (`journal_entry.dfy`): the journal editor, as the class `Editor`.
- `MoodSelector` (`mood_selector.dfy`): the check-in form, as the class `Selector`.
- `JsArray` and `JsString`: the JavaScript `Array.prototype.slice` (negative positions
  count from the end and are clamped) and `String.prototype.trim` the components rely on.
- `Wrappers`: `Option`.

Averages and percentages are exact quotients (`Ratio(num, den)`). Windows are taken by
position at the end of the list the analytics receives. This is exactly what the code
does, and the session passes its newest-first history to it unchanged (see Findings).
The two callbacks (`onMoodSubmit`, `onAddEntry`) are modelled as `Option`
out-parameters of the child components. `Session.SubmitCheckIn` and
`Session.SaveJournalEntry` wire them into the session's handlers.

The trend is titled "Mood Trend (Last 7 Days)" (`src/components/MoodAnalytics.tsx:166`)
and labelled `Day 1..Day k` over `slice(-7)` (`:53-54`), which reads its input as
oldest-first. The page, however, stores the history newest-first
(`src/pages/Index.tsx:26`) and passes it on unchanged (`src/pages/Index.tsx:182`).
The model keeps the code's order and records the mismatch under Findings.

## Model

| member | source | states |
|---|---|---|
| JsArray.Slice | src/components/MoodAnalytics.tsx:74 | `slice(start, end)` has length max(end' - start', 0) over the resolved positions, and its i-th element is the input's element at start' + i |
| JsArray.SliceLast | src/components/MoodAnalytics.tsx:53 | `slice(-k)` for k > 0 is the last min(k, n) elements |
| JsArray.SliceFirst | src/pages/Index.tsx:26 | `slice(0, k)` is the first min(k, n) elements |
| JsArray.SliceBetweenFromEnd | src/components/MoodAnalytics.tsx:74 | `slice(-a, -b)` is the window [max(n-a,0), max(n-b,0)) |
| JsString.TrimStart | src/components/JournalEntry.tsx:29 | the result is a suffix of the input and does not start with whitespace |
| JsString.TrimStartDropsWhitespace | src/components/JournalEntry.tsx:29 | what TrimStart drops is all whitespace |
| JsString.TrimEnd | src/components/JournalEntry.tsx:29 | the result is a prefix of the input and does not end with whitespace |
| JsString.TrimEndDropsWhitespace | src/components/JournalEntry.tsx:29 | what TrimEnd drops is all whitespace |
| JsString.Trim | src/components/JournalEntry.tsx:29 | the result has no whitespace at either end and is the infix of the input starting at the first kept character |
| JsString.TrimDropsWhitespace | src/components/JournalEntry.tsx:29 | only whitespace surrounds what trim keeps |
| JsString.TrimEmptyIffBlank | src/components/JournalEntry.tsx:29 | trim gives the empty string iff the input is all whitespace (both directions) |
| JsString.TrimOfTrimmed | src/components/JournalEntry.tsx:39-40 | a string with no whitespace at either end is left unchanged by trim |
| JsString.TrimIdempotent | src/components/JournalEntry.tsx:39-40 | trimming twice equals trimming once |
| MoodAnalytics.LabelsDistinct | src/components/MoodAnalytics.tsx:37-43 | the five level labels are pairwise distinct |
| MoodAnalytics.SumMoods | src/components/MoodAnalytics.tsx:50 | when every mood is in 1..5, the sum of n moods lies in [n, 5n] |
| MoodAnalytics.Mean | src/components/MoodAnalytics.tsx:50 | the average is sum / n over exactly n entries, and lies in [1, 5] when every mood is on the scale |
| MoodAnalytics.AverageInRange | src/components/MoodAnalytics.tsx:50 | the snapshot's `averageMood` of a non-empty on-scale list lies in [1, 5] |
| MoodAnalytics.NatToString | src/components/MoodAnalytics.tsx:54 | the numeral is non-empty, and it has one digit iff n < 10 |
| MoodAnalytics.NatToStringInjective | src/components/MoodAnalytics.tsx:54 | distinct numbers give distinct numerals |
| MoodAnalytics.DayLabelInjective | src/components/MoodAnalytics.tsx:54 | `Day j` and `Day k` are equal only if j = k |
| MoodAnalytics.TrendData | src/components/MoodAnalytics.tsx:53-57 | the trend has min(7, n) points; point i is labelled `Day i+1` and carries the mood and date of entry n-k+i, keeping list order |
| MoodAnalytics.TrendLabelsDistinct | src/components/MoodAnalytics.tsx:53-57 | no two trend points share a day label |
| MoodAnalytics.CountMood | src/components/MoodAnalytics.tsx:61 | a level's count never exceeds the number of entries |
| MoodAnalytics.KeepNonZeroMembers | src/components/MoodAnalytics.tsx:68 | an item survives the filter iff it was in the input with a positive count |
| MoodAnalytics.KeepNonZeroAscending | src/components/MoodAnalytics.tsx:68 | applied to items in strictly ascending level order, the filter's output is still strictly ascending |
| MoodAnalytics.KeepNonZeroSum | src/components/MoodAnalytics.tsx:68 | the filter leaves the total count unchanged, because only zero counts are dropped |
| MoodAnalytics.DistributionRecords | src/components/MoodAnalytics.tsx:60-68 | each retained record belongs to a level in 1..5, has that level's label, colour, count and count*100/n percentage, and a positive count; levels are strictly ascending |
| MoodAnalytics.CountMoodPositive | src/components/MoodAnalytics.tsx:61 | a level's count is positive iff some entry has that mood (both directions) |
| MoodAnalytics.DistributionLevels | src/components/MoodAnalytics.tsx:60-68 | level v appears in the distribution iff some entry has mood v (both directions) |
| MoodAnalytics.CountsPartition | src/components/MoodAnalytics.tsx:61 | for a list on the scale, the five per-level counts add up to n |
| MoodAnalytics.DistributionCountsSum | src/components/MoodAnalytics.tsx:60-68 | for a list on the scale, the retained counts add up to n |
| MoodAnalytics.PercentNumeratorsAreScaledCounts | src/components/MoodAnalytics.tsx:65 | the percentage numerators add up to 100 times the counts |
| MoodAnalytics.PercentagesInRange | src/components/MoodAnalytics.tsx:65 | every percentage is a quotient over n lying in (0, 100]; for a list on the scale they add up to exactly 100 |
| MoodAnalytics.LastWeekWindow | src/components/MoodAnalytics.tsx:74 | when n >= 7, `slice(-14, -7)` holds min(7, n-7) entries and ends where this week begins |
| MoodAnalytics.WeeklyData | src/components/MoodAnalytics.tsx:71-85 | empty iff n < 7; otherwise exactly [Last Week, This Week]; This Week is the mean of the last 7 entries; Last Week is the mean of the min(7, n-7) entries before them, or This Week's mean when there are none |
| MoodAnalytics.SubrangeValid | src/components/MoodAnalytics.tsx:73-74 | every window of an on-scale list is on the scale |
| MoodAnalytics.WeeklyAveragesInRange | src/components/MoodAnalytics.tsx:76-79 | for a list on the scale, both weekly bars lie in [1, 5] |
| MoodAnalytics.Analytics | src/components/MoodAnalytics.tsx:46-94 | null iff the list is empty, so no division by zero; otherwise the snapshot's fields are the average, trend, distribution and weekly comparison of the whole list, and `totalEntries` is n |
| MoodAnalytics.BestMood | src/components/MoodAnalytics.tsx:143 | the best mood is at least every entry's mood and is some entry's mood |
| MoodAnalytics.BestMoodOnScale | src/components/MoodAnalytics.tsx:143 | for a list on the scale the best mood is in 1..5 |
| MoodAnalytics.Streak | src/components/MoodAnalytics.tsx:155 | the streak is at most 7 and at most `totalEntries` |
| MoodAnalytics.StreakIsTrendLength | src/components/MoodAnalytics.tsx:155 | the streak card shows as many days as the trend has points, min(n, 7) |
| MoodAnalytics.ExampleMean | src/components/MoodAnalytics.tsx:50 | moods 3,4,5,2,3,4,5 average to 26/7 |
| MoodAnalytics.ExampleDistribution | src/components/MoodAnalytics.tsx:60-68 | for that input: counts 0,1,2,2,2 for levels 1..5, so four slices |
| MoodAnalytics.ExampleWeekly | src/components/MoodAnalytics.tsx:71-85 | for that input both weekly bars are 26/7, because there is no earlier week |
| MoodAnalytics.ExampleBestMood | src/components/MoodAnalytics.tsx:143 | for that input the best mood is 5 |
| MoodSelector.OptionTable | src/components/MoodSelector.tsx:6-12 | the option table has five pairwise distinct values, exactly {1, 2, 3, 4, 5} |
| MoodSelector.Selector.constructor | src/components/MoodSelector.tsx:19-20 | no mood selected, empty note |
| MoodSelector.Selector.Select | src/components/MoodSelector.tsx:42 | clicking option k selects that option's value; the note is kept; the selection stays one the table offers |
| MoodSelector.Selector.SetNote | src/components/MoodSelector.tsx:64 | sets the note, keeps the selection |
| MoodSelector.Selector.HandleSubmit | src/components/MoodSelector.tsx:22-28 | with no selection: emits nothing and changes nothing; otherwise emits (mood, note) once and resets to no selection and empty note; emits iff the button's `disabled` condition (:72, `SubmitDisabled`) is false |
| JournalEntry.CanSaveIffNotBlank | src/components/JournalEntry.tsx:29 | save passes the guard iff both title and content contain a non-whitespace character |
| JournalEntry.SavedEntry | src/components/JournalEntry.tsx:38-42 | the emitted title and content are the trims of the typed fields, are non-empty, have no surrounding whitespace and are unchanged by a second trim; the date is the given one |
| JournalEntry.SaveOutcome | src/components/JournalEntry.tsx:28-42 | nothing is handed to `onAddEntry` iff a trimmed field is empty; otherwise exactly the trimmed entry with the given date |
| JournalEntry.VisibleEntries | src/components/JournalEntry.tsx:118 | the list view shows the first min(n, 6) entries, in order |
| JournalEntry.ViewAllIffHidden | src/components/JournalEntry.tsx:147 | "View All" appears iff n > 6, that is iff the list view hides some entries |
| JournalEntry.Editor.constructor | src/components/JournalEntry.tsx:23-25 | not writing, empty title and content |
| JournalEntry.Editor.SetWriting | src/components/JournalEntry.tsx:23 | the `setIsWriting` setter: sets the flag only |
| JournalEntry.Editor.StartWriting | src/components/JournalEntry.tsx:67 | opens the form, keeps both fields |
| JournalEntry.Editor.SetTitle | src/components/JournalEntry.tsx:78 | sets the title only |
| JournalEntry.Editor.SetContent | src/components/JournalEntry.tsx:84 | sets the content only |
| JournalEntry.Editor.HandleSaveEntry | src/components/JournalEntry.tsx:28-52 | emits SaveOutcome of the fields at most once: when that is nothing, title, content and `isWriting` are unchanged; otherwise the form resets to empty, not writing |
| JournalEntry.Editor.Cancel | src/components/JournalEntry.tsx:98-102 | closes the form and clears both fields, emitting nothing |
| Index.CappedPrepend | src/pages/Index.tsx:26 | the new history has length min(n+1, 10); entry 0 is the new one; entries 1.. are the first min(n, 9) old entries in order |
| Index.CappedPrependOnScale | src/pages/Index.tsx:26 | prepending an on-scale entry to an on-scale history keeps it on the scale |
| Index.LastWeekOfCappedHistory | src/pages/Index.tsx:26 | with at most ten stored entries, the analytics' `slice(-14, -7)` holds at most 3 |
| Index.Reverse | src/pages/Index.tsx:182 | reversal keeps the length and maps position i to n-1-i |
| Index.NewestCheckInMissingFromTrend | src/pages/Index.tsx:182 | as written, after a mood-5 check-in over seven mood-1 check-ins, the newest is stored first and no trend point has mood 5 |
| Index.ChronologicalTrendEndsWithNewest | src/pages/Index.tsx:182 | fed the history in chronological order, the trend has min(7, n) points, ends with the newest check-in and lists them oldest first |
| Index.Session.constructor | src/pages/Index.tsx:16-18 | form hidden, both lists empty |
| Index.Session.OpenMoodSelector | src/pages/Index.tsx:90 | shows the form, leaves both lists alone, keeps the history within the cap |
| Index.Session.HandleMoodSubmit | src/pages/Index.tsx:20-32 | entry 0 is (mood, note, date); length is min(old+1, 10); entries 1.. are the first min(old, 9) old entries; the form is hidden; the journal is unchanged |
| Index.Session.HandleAddJournalEntry | src/pages/Index.tsx:34-40 | the journal grows by exactly one; entry 0 carries the given id, title, content and date; old entries are shifted by one and unchanged; the history stays within the cap |
| Index.Session.RecentCheckIns | src/pages/Index.tsx:161 | the grid shows the first min(n, 6) stored check-ins |
| Index.Session.AnalyticsView | src/pages/Index.tsx:182 | the analytics receive the stored history unchanged: null iff it is empty; the snapshot covers all n entries; with the history capped at ten, "Last Week" holds at most three entries |
| Index.Session.ChronologicalAnalyticsView | src/pages/Index.tsx:182 | the corrected view: the snapshot of the history in chronological order |
| Index.Session.SubmitCheckIn | src/pages/Index.tsx:102 | the form's submit wired to `handleMoodSubmit`: nothing is recorded without a selection; otherwise the selected mood and note are prepended; an on-scale history stays on the scale and within the cap; the selector ends with no selection, its note cleared after a submit and kept when nothing was selected |
| Index.Session.SaveJournalEntry | src/pages/Index.tsx:186 | the editor's save wired to `handleAddJournalEntry`: the journal grows by the trimmed entry iff both fields are non-blank, and the editor is then cleared and closed; otherwise the journal and all three editor fields are unchanged |

## Left out

- Rendering: JSX, Tailwind classes, recharts charts, icons, the card, button and tab wrappers. Also the render-only conditions: `recentMoods.length > 0`, `entries.length > 0`, the empty-journal prompt, "Read more…" and the selected-button highlight.
- `toFixed(1)` and IEEE-754 division are replaced by exact quotients. `Ratio` keeps num/den unreduced, so equal quotients are compared as equal pairs.
- `new Date().toLocaleDateString()` depends on the locale and the clock, so the date is a string parameter.
- The journal id, built from `Date.now()` and `Math.random()`, is a string parameter. Its uniqueness is not modelled.
- `toast` notifications and `useToast` are UI side effects.
- React re-render and `useMemo` mechanics are not modelled. When `showMoodSelector` turns false the form unmounts and its state is dropped; because `handleSubmit` resets the same state anyway, the model keeps one `Selector` object.
- `WellnessCard.tsx`, `RecommendationCard.tsx` and the static `recommendations` list of `Index.tsx` are presentation only.
- JavaScript strings are UTF-16. The model works on Unicode scalar values, and its whitespace set is ECMAScript's WhiteSpace and LineTerminator code points, with the Unicode space separators written out.
- JournalEntry.JournalRecord: the source record's optional `mood` field is never set by any caller, so it is dropped.
- MoodAnalytics.DistributionItem: the record also keeps its level key (`level`), which the source uses when it builds the record and then drops.
- MoodAnalytics.BestMood: requires a non-empty list. `Math.max()` of nothing is `-Infinity`, but the card is drawn only when a snapshot exists.
- MoodSelector.MoodOption: the colour class of each option is a Tailwind string, so it is dropped.

## Findings

| source | as written | input that shows it | evidently intended | confidence | as-written member | corrected member |
|---|---|---|---|---|---|---|
| src/pages/Index.tsx:182 | the history is stored newest first (`[newMood, ...]`, :26) and passed unchanged to an analytics view that takes its windows from the END of the list (`slice(-7)`, `slice(-14, -7)`); the trend and "This Week" are therefore the oldest stored check-ins, and `Day 1` is the newest when n <= 7 | seven mood-1 check-ins, then one mood-5 check-in: the mood 5 is stored at index 0 and the trend shows only mood 1 | the trend ("Last 7 Days", `Day 1..Day k`) and "This Week" cover the most recent check-ins, oldest first | not executed; high | Index.NewestCheckInMissingFromTrend | Index.ChronologicalTrendEndsWithNewest |

`Index.Session.AnalyticsView` keeps the view exactly as written.
`Index.Session.ChronologicalAnalyticsView` is the corrected view over `Index.Reverse` of the history.
