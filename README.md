# LifeOS ingestion and timeline logic in Dafny

LifeOS is a personal dashboard. It keeps walks, meals, wins, challenges, work hours and
imported Limitless data in a Supabase store. This project models the parts of it that hold
real logic, and proves properties of the model:

- **Journal sync** (`scripts/sync-memory.ts`). The script reads the `YYYY-MM-DD.md` daily
  notes in name order and splits each one into lines. It skips blank lines and lines
  starting with `#`. Every other line goes through five independent category tests, which
  are the regular expressions of `patterns`, each written as a predicate over the
  lower-cased line. Each match is looked up in its table by the category's key and is
  inserted only when the `.single()` lookup finds nothing. Every insert issued is counted.
  Modules: `MemoryPatterns`, `MemoryStore` and `SyncMemory`.
- **Limitless bulk import** (`scripts/import-limitless.ts`).
  - Reminders are renamed into the table's schema and inserted in batches of 100. A failed
    batch is logged and the remaining batches are still attempted.
  - Decisions and tasks are each inserted as one list.
  - One transcript metadata row is derived per `.txt`/`.md` file.
  - A missing or empty source is skipped.
  - Modules: `LimitlessImport` and `LimitlessTranscripts`.
- **Dashboard** (`app/page.tsx`): the walk streak `calculateStreak` and the date-window
  filter. Module: `Dashboard`.
- **Timeline** (`components/Timeline.tsx`). The ten record lists are flattened into
  entries, sorted newest first, filtered by selected type and search text, and given date
  headers. The type toggle is modelled too. Module: `Timeline`.

Shared modules:

- `Seqs`: map, filter, subsequence, concatenation, take, and a stable insertion sort.
- `Text`: the JavaScript white-space set, trimming, splitting, ASCII case mapping,
  substring search and decimal numerals.
- `FaultOracle`: the outcome of store inserts.
- `Wrappers`: `Option`.

How the environment is modelled:

- **The store.** The store is a value (`Tables`, `Db`) wrapped by a class (`Store`,
  `LimitlessStore`) whose methods update its fields.
- **Insert outcomes.** They come from a fault script `faults: seq<bool>`. Each insert uses
  up one entry and fails when that entry is `true`. `[]` means every insert succeeds.
- **Files and parsed JSON.** These are sequences given as input. A missing file is `None`.
- **Current date and parsing.** The current day, the import date and the time-parsing
  function of the timeline sort are parameters.

Each imperative part of the source is a method. Its `ensures` ties its result and the
store's new state to a specification function, and the lemmas are proved about those
functions:

- `SyncMemory.SyncMemoryFiles` implements `Sync`.
- `LimitlessImport.ImportReminders` implements `RemindersPhase`, and its loop
  `LimitlessImport.InsertInBatches` implements `InsertBatches`.
- `Dashboard.CalculateStreak` implements `Streak`.
- `Timeline.AllEntries` implements `MergedEntries` (the entries) and `NewestEntriesFirst`
  (the sort).

## Model

| member | source | states |
|---|---|---|
| MemoryPatterns.FirstWhere | scripts/sync-memory.ts:135 | the least position in a range where a test holds, as a regular-expression search tries each start in turn; `None` only when it holds nowhere |
| MemoryPatterns.FirstHoursMatch | scripts/sync-memory.ts:135 | the start of the leftmost match of the hour regex; no position before it matches, and `None` only when no position matches at all |
| MemoryPatterns.HoursIn | scripts/sync-memory.ts:135-137 | an hour count is extracted exactly when the lower-cased line has a match of `\d+\s*(hours?\|hrs?)` somewhere |
| MemoryPatterns.WorkHoursHasHourCount | scripts/sync-memory.ts:135-136 | every line matching `patterns.workHours` also has an hour-regex match, so `&& hoursMatch` never rejects a line |
| MemoryPatterns.WalkeBailey | scripts/sync-memory.ts:19 | "walke", white space and "bailey" match `baileyWalk`, since `walked?` makes only the "d" optional |
| MemoryPatterns.DailyFileDate | scripts/sync-memory.ts:48 | for a `YYYY-MM-DD.md` name, `replace('.md', '')` gives exactly the first ten characters |
| MemoryStore.CountMatching | scripts/sync-memory.ts:58-62 | the scan counts exactly the rows whose key equals the looked-up key |
| MemoryStore.Store.FindWalk | scripts/sync-memory.ts:58-64 | the walk lookup by date hits exactly when one row has that date (`.single()` yields nothing for 0 or for 2 or more) |
| MemoryStore.Store.FindMeal | scripts/sync-memory.ts:76-83 | the meal lookup by (date, trimmed line) hits exactly when one row has that key |
| MemoryStore.Store.FindWin | scripts/sync-memory.ts:94-102 | the win lookup by (date, title) hits exactly when one row has that key |
| MemoryStore.Store.FindChallenge | scripts/sync-memory.ts:115-123 | the challenge lookup by (date, title) hits exactly when one row has that key |
| MemoryStore.Store.FindWork | scripts/sync-memory.ts:138-145 | the work-hours lookup by (date, hours) hits exactly when one row has that key |
| MemoryStore.Store.InsertWalk | scripts/sync-memory.ts:65-68 | the row is appended unless this insert fails; the fault script advances by one; the other tables are unchanged |
| MemoryStore.Store.InsertMeal | scripts/sync-memory.ts:84-87 | the same for `meals` |
| MemoryStore.Store.InsertWin | scripts/sync-memory.ts:103-107 | the same for `wins` |
| MemoryStore.Store.InsertChallenge | scripts/sync-memory.ts:124-128 | the same for `challenges` |
| MemoryStore.Store.InsertWork | scripts/sync-memory.ts:146-150 | the same for `work_hours` |
| SyncMemory.DailyFilesSelected | scripts/sync-memory.ts:32-48 | exactly the directory's `YYYY-MM-DD.md` files are processed, each as often as listed, sorted by name; each one's date is its name without `.md` |
| SyncMemory.SkippedIff | scripts/sync-memory.ts:54 | a line is skipped exactly when it is all white space or its first character is `#` |
| SyncMemory.IndentedHeadingNotSkipped | scripts/sync-memory.ts:54 | the `#` test is on the untrimmed line, so `"  # x"` is classified |
| SyncMemory.WorkLineHasHours | scripts/sync-memory.ts:135-137 | on a line passing the work pattern, the hour extraction succeeds |
| SyncMemory.WorkStepNeedsBoth | scripts/sync-memory.ts:134-154 | without the work pattern or an hour count nothing happens; the stored hours come from the leftmost hour match, which may stand before the work word |
| SyncMemory.WalkeLineIsWalk | scripts/sync-memory.ts:19-69 | `walked?` is "walke" with an optional "d": the line "Walke Bailey at noon", against a store that does not fail and has no single walk that day, inserts one walk row and increments `walks` |
| SyncMemory.ShippedBugLineMatches | scripts/sync-memory.ts:21-22 | "shipped the fix for the login bug" passes both the win and the challenge test |
| SyncMemory.ShippedBugLineTrimmed | scripts/sync-memory.ts:54-106 | that line is not skipped, and it is its own trimmed form and its own 200-character title |
| SyncMemory.WinAndChallengeBoth | scripts/sync-memory.ts:93-132 | the tests are independent `if`s: a line passing both, against any store that does not fail and whose win and challenge lookups of its key miss, appends one win and one challenge row and increments both counters |
| SyncMemory.OneLineWinAndChallenge | scripts/sync-memory.ts:93-132 | in particular that one line is recorded both as a win and as a challenge |
| SyncMemory.AddKeepsAtMostOne | scripts/sync-memory.ts:58-68 | inserting a key whose lookup missed keeps every key at most once and leaves that key exactly once |
| SyncMemory.SyncLineProgress | scripts/sync-memory.ts:52-155 | one line only appends rows and keeps keys unique; the counters together grow by exactly the inserts issued, each consuming one fault-script entry, and the rows added are those inserts less the failed ones; each counter is at least its table's gain, exactly that when no insert fails; `mood` does not move |
| SyncMemory.SyncKeepsKeysUnique | scripts/sync-memory.ts:47-156 | starting from a store with at most one row per key, a run never creates a second row for a key; in particular there is at most one walk per date |
| SyncMemory.SyncCountsInserts | scripts/sync-memory.ts:38-151 | insert results are never checked: the counters together equal the inserts issued, which are exactly the fault-script entries used up; the rows gained are those inserts less the failed ones; tables only grow; each counter is at least its table's gain, exactly that when no insert fails; `mood` stays 0 |
| SyncMemory.SyncLineCovers | scripts/sync-memory.ts:56-154 | after a fault-free line every candidate it yields has exactly one row under its key |
| SyncMemory.CoveredLinesFixed | scripts/sync-memory.ts:52-155 | lines whose candidates all have exactly one row change nothing: no insert and no counter moves |
| SyncMemory.RerunIssuesNoInserts | scripts/sync-memory.ts:47-156 | from a store with unique keys and no failing insert, a second run over the same files issues no insert, leaves the store as the first run left it, and reports all zeros |
| SyncMemory.SyncWalk | scripts/sync-memory.ts:56-72 | the walk block performs exactly `WalkStep` on the store and the counters |
| SyncMemory.SyncMeal | scripts/sync-memory.ts:74-90 | the meal block performs exactly `MealStep` |
| SyncMemory.SyncWin | scripts/sync-memory.ts:92-111 | the win block performs exactly `WinStep`: title the first 200 characters of the trimmed line, description the whole trimmed line |
| SyncMemory.SyncChallenge | scripts/sync-memory.ts:113-132 | the challenge block performs exactly `ChallengeStep` |
| SyncMemory.SyncWork | scripts/sync-memory.ts:134-154 | the work-hours block performs exactly `WorkStep` |
| SyncMemory.SyncOneLine | scripts/sync-memory.ts:52-155 | the inner loop body performs exactly `SyncLine`: skip test, then the five blocks in order |
| SyncMemory.SyncFileLines | scripts/sync-memory.ts:52-155 | the loop over the lines of one file performs exactly `SyncLines` for that file's date |
| SyncMemory.SyncOneFile | scripts/sync-memory.ts:47-156 | one round of the loop over files, with the date taken by `replace('.md', '')` and the lines by `split('\n')`, extends the fold over the files before it by that file |
| SyncMemory.SyncMemoryFiles | scripts/sync-memory.ts:27-156 | the nested loop over files and lines leaves the store and the stats exactly as `Sync` says |
| LimitlessImport.TransformReminders | scripts/import-limitless.ts:66-73 | one row per reminder in the same order; title, status and completed are copied; `dueDate`/`createdBy` become `due_date`/`created_by`; source is `"limitless"` |
| LimitlessImport.BatchesFromLength | scripts/import-limitless.ts:79 | from offset `i` the loop runs `ceil((n - i)/100)` rounds |
| LimitlessImport.BatchesFromSlices | scripts/import-limitless.ts:79-80 | round `k` from offset `i` takes the slice `[i+100k, i+100k+100)` cut at the end, and starts inside the rows |
| LimitlessImport.BatchesFromConcat | scripts/import-limitless.ts:79-80 | the batches from offset `i` are together exactly the rows from `i` on |
| LimitlessImport.BatchesPartition | scripts/import-limitless.ts:76-80 | `ceil(n/100)` batches; batch `k` is the slice `[100k, 100k+100)` cut at the end; none is empty; all but the last have 100 rows; together they are exactly the rows |
| LimitlessImport.InsertBatchesRows | scripts/import-limitless.ts:77-91 | exactly the rows of the batches whose insert succeeded are added, in order, and `imported` is their number |
| LimitlessImport.InsertBatchesLog | scripts/import-limitless.ts:79-91 | every batch is attempted and logged whatever happened before: batch `k` is reported as number `k+1` (`i/100 + 1`) with its size, and as imported exactly when its insert succeeded |
| LimitlessImport.InsertBatchesOutcome | scripts/import-limitless.ts:77-91 | the effect of the batch loop on the store, `imported` and the log, all together |
| LimitlessImport.RemindersImportedBounds | scripts/import-limitless.ts:77-93 | `imported <= data.length`; when no batch fails every reminder is imported and appended in order |
| LimitlessImport.SecondBatchFails | scripts/import-limitless.ts:79-91 | 250 reminders with the second batch failing: three batches of 100, 100 and 50 are attempted, 150 are imported, and rows 101-200 are missing |
| LimitlessImport.DecisionsPhase | scripts/import-limitless.ts:96-122 | a missing or empty file changes nothing; otherwise the whole list is one insert that adds all of it or nothing and uses one script entry |
| LimitlessImport.TasksPhase | scripts/import-limitless.ts:124-150 | the same rules for tasks |
| LimitlessImport.TranscriptsPhase | scripts/import-limitless.ts:152-196 | a missing directory or one without `.txt`/`.md` files changes nothing; otherwise one insert with one row per such file |
| LimitlessImport.ImportAllConsumes | scripts/import-limitless.ts:198-216 | the phases run in `main`'s order and issue one insert per reminder batch plus one per non-empty other source |
| LimitlessImport.ImportAllNoFaults | scripts/import-limitless.ts:198-216 | when no insert fails, each table gains exactly the rows derived from its source, whatever it already held |
| LimitlessImport.RerunDuplicates | scripts/import-limitless.ts:79-188 | no phase checks for existing rows: a second run over the same sources appends every row again |
| LimitlessImport.MissingSourcesUntouched | scripts/import-limitless.ts:57-160 | a missing file or directory leaves its table unchanged |
| LimitlessImport.LimitlessStore.InsertReminders | scripts/import-limitless.ts:81-85 | one `insert(batch)`: all of the batch or nothing, with the result reported |
| LimitlessImport.LimitlessStore.InsertDecisions | scripts/import-limitless.ts:113-117 | one `insert(data)` into `limitless_decisions` |
| LimitlessImport.LimitlessStore.InsertTasks | scripts/import-limitless.ts:141-145 | one `insert(data)` into `limitless_tasks` |
| LimitlessImport.LimitlessStore.InsertTranscripts | scripts/import-limitless.ts:186-190 | one `insert(transcripts)` into `limitless_transcripts` |
| LimitlessImport.InsertInBatches | scripts/import-limitless.ts:75-91 | the `i += 100` loop performs exactly `InsertBatches` over `Batches(rows)`: the same store, imported count and batch log |
| LimitlessImport.ImportBatch | scripts/import-limitless.ts:80-90 | one round inserts the slice, adds its length to `imported` only on success, and logs it as number `i/100 + 1` |
| LimitlessImport.ImportReminders | scripts/import-limitless.ts:54-94 | nothing happens without a reminders file; otherwise the transformed rows go through the batch loop: exactly `RemindersPhase` |
| LimitlessImport.ImportDecisions | scripts/import-limitless.ts:96-122 | performs exactly `DecisionsPhase` |
| LimitlessImport.ImportTasks | scripts/import-limitless.ts:124-150 | performs exactly `TasksPhase` |
| LimitlessImport.ImportTranscriptMetadata | scripts/import-limitless.ts:152-196 | performs exactly `TranscriptsPhase` |
| LimitlessImport.ImportLimitless | scripts/import-limitless.ts:198-216 | `main` leaves the store exactly as `ImportAll` says |
| LimitlessTranscripts.TranscriptTitle | scripts/import-limitless.ts:178 | removes exactly one trailing `.txt` or `.md`: title plus extension is the name; other names are unchanged |
| LimitlessTranscripts.FirstDateFrom | scripts/import-limitless.ts:173 | the leftmost `DDDD-DD-DD` in the name, `None` only when there is none |
| LimitlessTranscripts.Summary | scripts/import-limitless.ts:180 | the first `min(500, length)` characters of the content |
| LimitlessTranscripts.SpaceSplit | scripts/import-limitless.ts:170 | `split(/\s+/)` gives at least one piece and no piece contains white space |
| LimitlessTranscripts.WordCountIsRunsPlusOne | scripts/import-limitless.ts:170 | the word count is one more than the number of white-space runs, counting empty pieces at both ends, so at least 1 |
| LimitlessTranscripts.Transcripts | scripts/import-limitless.ts:162-183 | one row per `.txt`/`.md` file of the listing |
| LimitlessTranscripts.TranscriptRowFields | scripts/import-limitless.ts:167-183 | each row's title, summary, word count and date follow the rules above; the date is the leftmost date in the name, else today |
| Dashboard.Dedup | app/page.tsx:64 | `[...new Set(dates)]` holds every date and no date twice |
| Dashboard.NewestFirstOrder | app/page.tsx:64 | the visited dates are the distinct dates, strictly newest first, and there are as many as distinct dates |
| Dashboard.StreakIsAcceptedPrefix | app/page.tsx:61-84 | the streak is the length of the longest run of accepted dates from the newest; the first date after the run is rejected; the streak is at most the number of distinct dates |
| Dashboard.StreakZero | app/page.tsx:62-75 | the streak is 0 exactly when there is no date or the newest is more than one day before today |
| Dashboard.CalculateStreak | app/page.tsx:61-84 | the loop with `break` returns exactly `Streak` under the source's rule (gap equal to `streak`) |
| Dashboard.StreakOfDescending | app/page.tsx:64-84 | for dates already strictly newest first, the streak is the run accepted from the first of them |
| Dashboard.ThreeDailyWalksGiveTwo | app/page.tsx:75-80 | walks today, yesterday and the day before give 2 |
| Dashboard.FutureWalkCounts | app/page.tsx:73-75 | a walk dated in the future is accepted as the newest day |
| Dashboard.CalculateDailyStreak | app/page.tsx:61-84 | the same loop with a one-day gap returns exactly the corrected `Streak` |
| Dashboard.DailyStreakCountsConsecutiveDays | app/page.tsx:61-84 | under the corrected rule, walks whose distinct dates are `n` consecutive days, the newest today or yesterday, give a streak of `n`, in whatever order the store returns them and with any repeats |
| Dashboard.ThreeDailyWalksGiveThree | app/page.tsx:61-84 | under the corrected rule the same three daily walks give 3 |
| Dashboard.NewestFirstOfDays | app/page.tsx:63 | dates whose distinct values are the `n` days ending on `newest`, in any order and with repeats, come out of the dedup and sort as exactly those `n` days, newest first |
| Dashboard.FilterByDate | app/page.tsx:115-119 | keeps, in order, exactly the items with `start <= date <= end`, every copy of each: an item in the window occurs as often as in the input, one outside not at all |
| Timeline.ReminderDateRule | components/Timeline.tsx:160 | a reminder is dated by a non-empty due date, else by the prefix of `created_at` before its first `T` |
| Timeline.ConversationDescriptionRule | components/Timeline.tsx:204 | a conversation's description is the first `min(100, length)` characters of its message, and there is none without a message |
| Timeline.MergedEntries | components/Timeline.tsx:76-207 | one entry per record of the ten lists |
| Timeline.PushEach | components/Timeline.tsx:77-88 | a `forEach` that pushes appends the image of every item, in order |
| Timeline.PushAll | components/Timeline.tsx:74-207 | the ten push loops build exactly `MergedEntries` |
| Timeline.AllEntries | components/Timeline.tsx:73-215 | `allEntries` is the merged entries sorted newest first |
| Timeline.AllEntriesSorted | components/Timeline.tsx:209-214 | the sorted list is a permutation of the entries pushed, one per record, ordered non-increasingly by the time of `timestamp`, or of `date` when there is no timestamp |
| Timeline.FilteredEntries | components/Timeline.tsx:218-233 | a subsequence of the entries; only selected types; an entry stays exactly when it passes the type and search test, with as many copies as in the input |
| Timeline.FilterQueryRule | components/Timeline.tsx:223-231 | with an empty query every selected entry stays; otherwise one stays exactly when its lower-cased title or description contains the lower-cased query |
| Timeline.InitialViewShowsAll | components/Timeline.tsx:68-233 | with every type selected, as initially, and an empty query, the whole list is shown |
| Timeline.ToggleType | components/Timeline.tsx:235-243 | flips the membership of the toggled type and leaves every other type as it was |
| Timeline.ToggleTwice | components/Timeline.tsx:235-243 | toggling a type twice restores the selection |
| Text.TrimSlice | scripts/sync-memory.ts:67 | `line.trim()` is a contiguous slice of the line |
| Text.TrimEmpty | scripts/sync-memory.ts:54 | `!line.trim()` holds exactly when every character of the line is white space |
| Text.SplitJoin | scripts/sync-memory.ts:50 | joining the pieces of `content.split('\n')` with newlines gives back the content |
| Text.SplitPiecesFree | scripts/sync-memory.ts:50 | no piece of `content.split('\n')` contains a newline |
| Text.NatToStringRoundTrip | components/Timeline.tsx:150 | the decimal rendering of a whole number in a template literal reads back as that number |
| Seqs.FilterMultiset | app/page.tsx:115-119 | `filter` keeps every copy of an element that passes the test and no copy of one that fails it |
| Timeline.HeaderOf | components/Timeline.tsx:296 | every entry sits under a date header starting a run of entries with its date; no header falls between the two |

## Findings

| source | as written | input that shows it | evidently intended | confidence | as-written member | corrected member |
|---|---|---|---|---|---|---|
| app/page.tsx:75-77 | a date after the first is accepted when it lies `streak` days before the previous accepted date, because `currentDate` moves to each accepted date | walks on today, yesterday and the day before give a streak of 2 | the subtitle reads "N day streak", so N consecutive days should give N, i.e. each accepted date one day before the previous one | not executed; high | Dashboard.ThreeDailyWalksGiveTwo | Dashboard.DailyStreakCountsConsecutiveDays |

Nothing else in the model consumes the streak, so no other member depends on this choice.

## Where the design description and the code differ

The model follows the code in each case:

- The bulk import path is described as doing a coarse dedup. The code does no existence
  check at all. `LimitlessImport.RerunDuplicates` proves that re-running appends every row
  again.
- The described dedup oracle asks whether a matching record exists. The code's
  `.single()` lookup only hits when exactly one row matches. When two or more rows share a
  key, the lookup misses and a further copy is inserted. For this reason the sync's
  uniqueness and idempotence theorems assume a store with at most one row per key.
- The description asks for counts of created, skipped and failed records. The code counts
  every insert it issues and never looks at its result. `SyncCountsInserts` states what
  the counters really mean: together they are the number of inserts issued, failed or not.
- The work-hours rule is described as a joint test of the vocabulary and an extracted
  number. In the code the second test is redundant: `patterns.workHours` already requires
  an hour match (`WorkHoursHasHourCount`).

## Left out

- **Transport.** The network, the Supabase client, environment variables, `process.exit`,
  and the `try`/`catch` that ends a run on an exception are not modelled. A lookup that
  fails in transport is not modelled either.
- **File and JSON reading.** `fs` reads and `JSON.parse` are replaced by sequences given as
  input. Extra JSON fields of decisions and tasks are not carried.
- **Console output.** It is left out, except the batch log, whose number, size and outcome
  are modelled.
- **Concurrency.** A check-then-insert race between concurrent runs and the
  `Promise.all` of the dashboard are not modelled, since only one run at a time is
  assumed.
- LimitlessTranscripts.Summary: counts code points, while `substring(0, 500)` counts
  UTF-16 units. The two differ only on text outside the Basic Multilingual Plane. The same
  holds for `SyncMemory.TitleOf` (200) and `Timeline.ConversationDescription` (100).
- LimitlessTranscripts.FilePath: joins with `/` and does not model `path.join`'s
  normalisation of `.` and `..`.
- LimitlessTranscripts.TranscriptDate: the current date is the parameter `today`. Reading
  the system clock is not modelled.
- **Case folding.** ASCII lower-casing is exact for the sync's `/i` regular expressions,
  because their literals are ASCII.
- Timeline.Shown: matches with ASCII lower-casing. `toLowerCase` on non-ASCII text is not
  modelled.
- **The `mood` pattern.** It is modelled as `MemoryPatterns.Mood` but, as in the script,
  never applied.
- Dashboard.CalculateStreak: dates are day numbers. `new Date` parsing, time zones, DST
  and invalid dates are not modelled, and two different strings for the same day count as
  different dates in `new Set` but as one day number here.
- Dashboard.FilterByDate: the window bounds computed with date-fns are parameters, and
  item dates are time numbers.
- Timeline.AllEntriesSorted: does not state the order of entries with equal times. The
  model's sort is stable like JavaScript's, but that is not proved. The time of a
  timestamp or date string is a parameter function, so unparsable dates (NaN) are not
  modelled.
- Timeline.WorkEntry: hours are whole numbers. `parseFloat` and the rendering of
  fractional hours are not modelled.
- MemoryPatterns.HoursValueAt: is the exact value of the digit run. The sync's
  `parseFloat` reads digits only, so it agrees below 2^53. Above that, `parseFloat`
  rounds to a double, and two different digit runs can give one `work_hours` key in the
  script but two keys in the model.
- SyncMemory.SyncCountsInserts: states how many inserts failed in total (the counters
  less the rows gained), and a lower bound on each table's count. It does not state which
  table each failed insert was aimed at, because the fault script is shared by all five
  tables and the final state does not record it.
- Timeline.Render: an absent value is a NULL column of a store row, which renders as
  "null". A field missing from the object altogether, which would render as "undefined",
  is not modelled.
- **Entry `metadata`.** The original record attached to each timeline entry is left out.
  So are the React state, hooks and markup.
- **Other components.** The chart aggregation, goal percentages, the totals and averages
  of the dashboard, the entry forms and the `app/api/sync/route.ts` process wrapper are
  outside this model.
