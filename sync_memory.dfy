/**
 * The journal sync of scripts/sync-memory.ts: it selects the daily files, classifies every
 * line with the five independent category tests, and for each match looks the candidate's
 * key up in its table and inserts the row when the lookup finds nothing, counting the
 * inserts it issues.
 *
 * `Sync` is the whole run as a function of the store's contents and the directory;
 * `SyncMemoryFiles` is the script's nested loop against a `Store` object, proved to
 * perform exactly `Sync`. The lemmas are about `Sync`.
 */
module SyncMemory {
  import opened Text
  import opened Seqs
  import opened Wrappers
  import opened MemoryPatterns
  import opened MemoryStore
  import opened FaultOracle

  /** The run summary; `mood` exists but the script never increments it. */
  datatype Stats = Stats(walks: nat, meals: nat, wins: nat, challenges: nat, mood: nat, hours: nat)

  const NoStats := Stats(0, 0, 0, 0, 0, 0)

  /** The store's contents together with the counters, as a run goes. */
  datatype Run = Run(db: Tables, stats: Stats)

  /** A file of the memory directory: its name and its text. */
  datatype MemoryFile = MemoryFile(name: string, content: string)

  // ---------------------------------------------------------------------------
  // Selecting the files.

  predicate IsDaily(f: MemoryFile) { IsDailyFileName(f.name) }

  predicate ByName(a: MemoryFile, b: MemoryFile) { LexLe(a.name, b.name) }

  /** `readdirSync(dir).filter(name matches YYYY-MM-DD.md).sort()`. */
  function DailyFiles(dir: seq<MemoryFile>): seq<MemoryFile> {
    InsertionSort(ByName, Filter(IsDaily, dir))
  }

  /** `file.replace('.md', '')`. */
  function FileDate(f: MemoryFile): string { ReplaceFirst(f.name, ".md", "") }

  /** `content.split('\n')`. */
  function FileLines(f: MemoryFile): seq<string> { Split(f.content, '\n') }

  // ---------------------------------------------------------------------------
  // One line.

  /** `!line.trim() || line.startsWith('#')`: the `#` test is on the untrimmed line. */
  predicate Skipped(line: string) { Trim(line) == [] || StartsWith(line, "#") }

  /** `line.trim().substring(0, 200)`. */
  function TitleOf(line: string): string { Take(Trim(line), 200) }

  function WalkStep(r: Run, date: string, line: string): Run {
    if BaileyWalkTest(line) && Count(r.db.walks, WalkKey, date) != 1 then
      Run(AddWalk(r.db, WalkRow(date, Trim(line))), r.stats.(walks := r.stats.walks + 1))
    else r
  }

  function MealStep(r: Run, date: string, line: string): Run {
    if MealTest(line) && Count(r.db.meals, MealKey, (date, Trim(line))) != 1 then
      Run(AddMeal(r.db, MealRow(date, Trim(line))), r.stats.(meals := r.stats.meals + 1))
    else r
  }

  function WinStep(r: Run, date: string, line: string): Run {
    if WinTest(line) && Count(r.db.wins, TitleKey, (date, TitleOf(line))) != 1 then
      Run(AddWin(r.db, TitledRow(date, TitleOf(line), Trim(line))), r.stats.(wins := r.stats.wins + 1))
    else r
  }

  function ChallengeStep(r: Run, date: string, line: string): Run {
    if ChallengeTest(line) && Count(r.db.challenges, TitleKey, (date, TitleOf(line))) != 1 then
      Run(AddChallenge(r.db, TitledRow(date, TitleOf(line), Trim(line))), r.stats.(challenges := r.stats.challenges + 1))
    else r
  }

  function WorkStep(r: Run, date: string, line: string): Run {
    var h := HoursIn(line);
    if WorkHoursTest(line) && h.Some? && Count(r.db.workHours, WorkKey, (date, h.value)) != 1 then
      Run(AddWork(r.db, WorkRow(date, h.value, Trim(line))), r.stats.(hours := r.stats.hours + 1))
    else r
  }

  /** The five category tests of one line, in the script's order, each with its own check-then-insert. */
  function SyncLine(r: Run, date: string, line: string): Run {
    if Skipped(line) then r
    else WorkStep(ChallengeStep(WinStep(MealStep(WalkStep(r, date, line), date, line), date, line), date, line), date, line)
  }

  function SyncLines(r: Run, date: string, lines: seq<string>): Run
    decreases |lines|
  {
    if lines == [] then r
    else SyncLine(SyncLines(r, date, lines[..|lines| - 1]), date, lines[|lines| - 1])
  }

  function SyncFile(r: Run, f: MemoryFile): Run {
    SyncLines(r, FileDate(f), FileLines(f))
  }

  function SyncFiles(r: Run, files: seq<MemoryFile>): Run
    decreases |files|
  {
    if files == [] then r
    else SyncFile(SyncFiles(r, files[..|files| - 1]), files[|files| - 1])
  }

  /** A whole run of the script over the directory listing `dir`, from store contents `db`. */
  function Sync(db: Tables, dir: seq<MemoryFile>): Run {
    SyncFiles(Run(db, NoStats), DailyFiles(dir))
  }

  // ---------------------------------------------------------------------------
  // File selection and line skipping.

  /**
   * The script processes exactly the directory's `YYYY-MM-DD.md` files, each once, in
   * ascending name order, and dates every record of a file with its name minus `.md`.
   */
  lemma DailyFilesSelected(dir: seq<MemoryFile>)
    ensures forall f :: f in DailyFiles(dir) <==> f in dir && IsDailyFileName(f.name)
    ensures multiset(DailyFiles(dir)) == multiset(Filter(IsDaily, dir))
    ensures Sorted(ByName, DailyFiles(dir))
    ensures forall i :: 0 <= i < |DailyFiles(dir)| ==>
      IsDailyFileName(DailyFiles(dir)[i].name) && FileDate(DailyFiles(dir)[i]) == DailyFiles(dir)[i].name[..10]
  {
    forall a: MemoryFile, b: MemoryFile ensures ByName(a, b) || ByName(b, a) {
      LexLeTotal(a.name, b.name);
    }
    InsertionSortSorted(ByName, Filter(IsDaily, dir));
    MultisetSameElements(DailyFiles(dir), Filter(IsDaily, dir));
    forall i | 0 <= i < |DailyFiles(dir)|
      ensures IsDailyFileName(DailyFiles(dir)[i].name) && FileDate(DailyFiles(dir)[i]) == DailyFiles(dir)[i].name[..10]
    {
      assert DailyFiles(dir)[i] in DailyFiles(dir);
      DailyFileDate(DailyFiles(dir)[i].name);
    }
  }

  /** A line is skipped exactly when it is all white space or its very first character is `#`. */
  lemma SkippedIff(line: string)
    ensures Skipped(line) <==>
      (forall i :: 0 <= i < |line| ==> IsJsSpace(line[i])) || (|line| > 0 && line[0] == '#')
  {
    TrimEmpty(line);
    if |line| > 0 && line[0] == '#' {
      assert line[..1] == "#";
    }
  }

  /** The `#` test looks at the untrimmed line: an indented heading is classified like any other line. */
  lemma IndentedHeadingNotSkipped()
    ensures !Skipped("  # x")
  {
    SkippedIff("  # x");
    assert !IsJsSpace("  # x"[2]);
  }

  // ---------------------------------------------------------------------------
  // Classification.

  /** On a line matching the work pattern, the hour extraction always succeeds. */
  lemma WorkLineHasHours(line: string)
    requires WorkHoursTest(line)
    ensures HoursIn(line).Some?
  {
    WorkHoursHasHourCount(Lower(line));
  }

  /**
   * The work-hours insert needs both the work pattern and an hour count; the hours it
   * stores come from the leftmost `digits [space] hour|hr` of the line, which may stand
   * before the work word.
   */
  lemma WorkStepNeedsBoth(r: Run, date: string, line: string)
    ensures (!WorkHoursTest(line) || HoursIn(line).None?) ==> WorkStep(r, date, line) == r
    ensures WorkHoursTest(line) ==>
      var j := FirstHoursMatch(Lower(line), 0).value;
      HoursAt(Lower(line), j) && (forall q :: 0 <= q < j ==> !HoursAt(Lower(line), q)) &&
      HoursIn(line) == Some(HoursValueAt(Lower(line), j))
  {
    if WorkHoursTest(line) {
      WorkLineHasHours(line);
    }
  }

  const WalkeLine := "Walke Bailey at noon"

  /** `walked?` reads "walke" with an optional "d", so "Walke Bailey" passes the walk test. */
  lemma WalkeLineMatches()
    ensures BaileyWalkTest(WalkeLine)
  {
    var t := Lower(WalkeLine);
    assert t[..12] == "walke bailey";
    WalkeBailey(t, 0);
  }

  lemma WalkeLineTrimmed()
    ensures Trim(WalkeLine) == WalkeLine
  {
    var s := WalkeLine;
    assert !IsJsSpace(s[0]) && !IsJsSpace(s[|s| - 1]);
    assert TrimStart(s) == s;
  }

  /** A line that passes the walk test is recorded as a walk when the lookup misses and the insert succeeds. */
  lemma WalkStepInserts(r: Run, date: string, line: string)
    requires r.db.faults == [] && Count(r.db.walks, WalkKey, date) != 1 && BaileyWalkTest(line)
    ensures var r2 := WalkStep(r, date, line);
      r2.db.walks == r.db.walks + [WalkRow(date, Trim(line))] && r2.stats.walks == r.stats.walks + 1
  {
  }

  /** The line "Walke Bailey at noon" is recorded as a walk. */
  lemma WalkeLineIsWalk(r: Run, date: string)
    requires r.db.faults == [] && Count(r.db.walks, WalkKey, date) != 1
    ensures var r2 := WalkStep(r, date, WalkeLine);
      r2.db.walks == r.db.walks + [WalkRow(date, WalkeLine)] && r2.stats.walks == r.stats.walks + 1
  {
    WalkeLineMatches();
    WalkeLineTrimmed();
    WalkStepInserts(r, date, WalkeLine);
  }

  const ShippedBugLine := "shipped the fix for the login bug"

  lemma ShippedBugLineMatches()
    ensures WinTest(ShippedBugLine) && ChallengeTest(ShippedBugLine)
  {
    var t := Lower(ShippedBugLine);
    assert t[..7] == "shipped";
    assert WordAt(t, "shipped", 0);
    assert "shipped" in WinWords;
    assert t[30..33] == "bug";
    assert WordAt(t, "bug", 30);
    assert "bug" in ChallengeWords;
  }

  lemma ShippedBugLineTrimmed()
    ensures Trim(ShippedBugLine) == ShippedBugLine && TitleOf(ShippedBugLine) == ShippedBugLine
    ensures !Skipped(ShippedBugLine)
  {
    var s := ShippedBugLine;
    assert !IsJsSpace(s[0]) && !IsJsSpace(s[|s| - 1]);
    assert TrimStart(s) == s;
    assert s[..1] != "#";
  }

  /**
   * Classification is not exclusive: one line that reports a success and a bug is
   * recorded both as a win and as a challenge.
   */
  lemma OneLineWinAndChallenge(r: Run, date: string)
    requires r.db.faults == [] && r.db.wins == [] && r.db.challenges == []
    ensures var r2 := SyncLine(r, date, ShippedBugLine);
      r2.db.wins == [TitledRow(date, ShippedBugLine, ShippedBugLine)] &&
      r2.db.challenges == [TitledRow(date, ShippedBugLine, ShippedBugLine)] &&
      r2.stats.wins == r.stats.wins + 1 && r2.stats.challenges == r.stats.challenges + 1
  {
    ShippedBugLineMatches();
    ShippedBugLineTrimmed();
    WinAndChallengeIntoEmpty(r, date, ShippedBugLine);
  }

  /** `WinAndChallengeBoth` for empty tables and a line that is its own title. */
  lemma WinAndChallengeIntoEmpty(r: Run, date: string, line: string)
    requires r.db.faults == [] && r.db.wins == [] && r.db.challenges == []
    requires !Skipped(line) && WinTest(line) && ChallengeTest(line)
    requires Trim(line) == line && TitleOf(line) == line
    ensures var r2 := SyncLine(r, date, line);
      r2.db.wins == [TitledRow(date, line, line)] && r2.db.challenges == [TitledRow(date, line, line)] &&
      r2.stats.wins == r.stats.wins + 1 && r2.stats.challenges == r.stats.challenges + 1
  {
    var key := (date, line);
    assert Count(r.db.wins, TitleKey, key) == 0 && Count(r.db.challenges, TitleKey, key) == 0;
    WinAndChallengeBoth(r, date, line);
    var row := TitledRow(date, line, line);
    assert r.db.wins + [row] == [row] && r.db.challenges + [row] == [row];
  }

  /**
   * A line that passes both tests, against a store that does not fail and whose lookups of
   * its key miss in both tables, lands in both.
   */
  lemma WinAndChallengeBoth(r: Run, date: string, line: string)
    requires r.db.faults == [] && !Skipped(line) && WinTest(line) && ChallengeTest(line)
    requires Count(r.db.wins, TitleKey, (date, TitleOf(line))) != 1
    requires Count(r.db.challenges, TitleKey, (date, TitleOf(line))) != 1
    ensures var r2 := SyncLine(r, date, line); var row := TitledRow(date, TitleOf(line), Trim(line));
      r2.db.wins == r.db.wins + [row] && r2.db.challenges == r.db.challenges + [row] &&
      r2.stats.wins == r.stats.wins + 1 && r2.stats.challenges == r.stats.challenges + 1
  {
    var row := TitledRow(date, TitleOf(line), Trim(line));
    var r2 := MealStep(WalkStep(r, date, line), date, line);
    WalkAndMealKeepTitled(r, date, line);
    var r3 := WinStep(r2, date, line);
    assert r3.db.wins == r.db.wins + [row] && r3.stats.wins == r.stats.wins + 1;
    assert r3.db.faults == [] && r3.db.challenges == r.db.challenges && r3.stats.challenges == r.stats.challenges;
    var r4 := ChallengeStep(r3, date, line);
    assert r4.db.challenges == r.db.challenges + [row] && r4.stats.challenges == r.stats.challenges + 1;
    assert r4.db.wins == r3.db.wins && r4.stats.wins == r3.stats.wins;
    WorkKeepsTitled(r4, date, line);
    assert SyncLine(r, date, line) == WorkStep(r4, date, line);
  }

  /** The walk and meal steps leave the win and challenge tables and counters alone. */
  lemma WalkAndMealKeepTitled(r: Run, date: string, line: string)
    ensures var r2 := MealStep(WalkStep(r, date, line), date, line);
      r2.db.wins == r.db.wins && r2.db.challenges == r.db.challenges &&
      r2.stats.wins == r.stats.wins && r2.stats.challenges == r.stats.challenges &&
      (r.db.faults == [] ==> r2.db.faults == [])
  {
  }

  /** The work step leaves the win and challenge tables and counters alone. */
  lemma WorkKeepsTitled(r: Run, date: string, line: string)
    ensures var r2 := WorkStep(r, date, line);
      r2.db.wins == r.db.wins && r2.db.challenges == r.db.challenges &&
      r2.stats.wins == r.stats.wins && r2.stats.challenges == r.stats.challenges
  {
  }

  // ---------------------------------------------------------------------------
  // What every step keeps.

  /** A counter grew by at least the rows its table gained, and by exactly that many when no insert failed. */
  ghost predicate Counted(n0: nat, n1: nat, len0: nat, len1: nat, noFaults: bool) {
    n0 <= n1 && len0 <= len1 && len1 - len0 <= n1 - n0 && (noFaults ==> len1 - len0 == n1 - n0)
  }

  /** The inserts issued from `r` to `r2`: what all the counters together grew by. */
  function Issued(r: Run, r2: Run): int {
    (r2.stats.walks - r.stats.walks) + (r2.stats.meals - r.stats.meals) + (r2.stats.wins - r.stats.wins) +
    (r2.stats.challenges - r.stats.challenges) + (r2.stats.hours - r.stats.hours)
  }

  /** The rows all the tables together gained from `r` to `r2`. */
  function Gained(r: Run, r2: Run): int {
    (|r2.db.walks| - |r.db.walks|) + (|r2.db.meals| - |r.db.meals|) + (|r2.db.wins| - |r.db.wins|) +
    (|r2.db.challenges| - |r.db.challenges|) + (|r2.db.workHours| - |r.db.workHours|)
  }

  /**
   * Every insert issued from `r` to `r2` was counted, whether it failed or not: the counters
   * grew by as many inserts as used up entries of the fault script, and the rows gained are
   * those inserts less the ones that failed.
   */
  ghost predicate Counts(r: Run, r2: Run) {
    Issued(r, r2) >= 0 &&
    r2.db.faults == Drop(r.db.faults, Issued(r, r2)) &&
    Gained(r, r2) == Issued(r, r2) - FailCount(r.db.faults, Issued(r, r2))
  }

  /**
   * From `r` to `r2`: the tables only grew, every insert was counted, uniqueness of keys and an empty fault script
   * were kept, `mood` did not move, and every counter counts the inserts into its table.
   */
  ghost predicate Progress(r: Run, r2: Run) {
    Grows(r.db, r2.db) &&
    Counts(r, r2) &&
    (Unique(r.db) ==> Unique(r2.db)) &&
    (r.db.faults == [] ==> r2.db.faults == []) &&
    r2.stats.mood == r.stats.mood &&
    Counted(r.stats.walks, r2.stats.walks, |r.db.walks|, |r2.db.walks|, r.db.faults == []) &&
    Counted(r.stats.meals, r2.stats.meals, |r.db.meals|, |r2.db.meals|, r.db.faults == []) &&
    Counted(r.stats.wins, r2.stats.wins, |r.db.wins|, |r2.db.wins|, r.db.faults == []) &&
    Counted(r.stats.challenges, r2.stats.challenges, |r.db.challenges|, |r2.db.challenges|, r.db.faults == []) &&
    Counted(r.stats.hours, r2.stats.hours, |r.db.workHours|, |r2.db.workHours|, r.db.faults == [])
  }

  lemma ProgressTrans(r1: Run, r2: Run, r3: Run)
    requires Progress(r1, r2) && Progress(r2, r3)
    ensures Progress(r1, r3)
  {
    CountsTrans(r1, r2, r3);
  }

  lemma CountsTrans(r1: Run, r2: Run, r3: Run)
    requires Counts(r1, r2) && Counts(r2, r3)
    ensures Counts(r1, r3)
  {
    var a, b := Issued(r1, r2), Issued(r2, r3);
    assert Issued(r1, r3) == a + b;
    DropDrop(r1.db.faults, a, b);
    FailCountSplit(r1.db.faults, a, b);
  }

  /** Inserting a key that is absent keeps every key unique. */
  lemma AddKeepsAtMostOne<R, K(!new)>(rows: seq<R>, key: R -> K, r: R)
    requires AtMostOne(rows, key)
    requires Count(rows, key, key(r)) != 1
    ensures AtMostOne(rows + [r], key)
    ensures Count(rows + [r], key, key(r)) == 1
  {
    forall k ensures Count(rows + [r], key, k) <= 1 {
      CountSnoc(rows, key, k, r);
    }
    CountSnoc(rows, key, key(r), r);
  }

  // One insert into each table, whatever line asked for it.

  lemma AddWalkProgress(r: Run, row: WalkRow)
    requires Count(r.db.walks, WalkKey, WalkKey(row)) != 1
    ensures Progress(r, Run(AddWalk(r.db, row), r.stats.(walks := r.stats.walks + 1)))
  {
    ConsumeIsDrop(r.db.faults);
    if Unique(r.db) && !NextFails(r.db.faults) {
      AddKeepsAtMostOne(r.db.walks, WalkKey, row);
    }
  }

  lemma AddMealProgress(r: Run, row: MealRow)
    requires Count(r.db.meals, MealKey, MealKey(row)) != 1
    ensures Progress(r, Run(AddMeal(r.db, row), r.stats.(meals := r.stats.meals + 1)))
  {
    ConsumeIsDrop(r.db.faults);
    if Unique(r.db) && !NextFails(r.db.faults) {
      AddKeepsAtMostOne(r.db.meals, MealKey, row);
    }
  }

  lemma AddWinProgress(r: Run, row: TitledRow)
    requires Count(r.db.wins, TitleKey, TitleKey(row)) != 1
    ensures Progress(r, Run(AddWin(r.db, row), r.stats.(wins := r.stats.wins + 1)))
  {
    ConsumeIsDrop(r.db.faults);
    if Unique(r.db) && !NextFails(r.db.faults) {
      AddKeepsAtMostOne(r.db.wins, TitleKey, row);
    }
  }

  lemma AddChallengeProgress(r: Run, row: TitledRow)
    requires Count(r.db.challenges, TitleKey, TitleKey(row)) != 1
    ensures Progress(r, Run(AddChallenge(r.db, row), r.stats.(challenges := r.stats.challenges + 1)))
  {
    ConsumeIsDrop(r.db.faults);
    if Unique(r.db) && !NextFails(r.db.faults) {
      AddKeepsAtMostOne(r.db.challenges, TitleKey, row);
    }
  }

  lemma AddWorkProgress(r: Run, row: WorkRow)
    requires Count(r.db.workHours, WorkKey, WorkKey(row)) != 1
    ensures Progress(r, Run(AddWork(r.db, row), r.stats.(hours := r.stats.hours + 1)))
  {
    ConsumeIsDrop(r.db.faults);
    if Unique(r.db) && !NextFails(r.db.faults) {
      AddKeepsAtMostOne(r.db.workHours, WorkKey, row);
    }
  }

  lemma WalkStepProgress(r: Run, date: string, line: string)
    ensures Progress(r, WalkStep(r, date, line))
  {
    var row := WalkRow(date, Trim(line));
    if BaileyWalkTest(line) && Count(r.db.walks, WalkKey, date) != 1 {
      AddWalkProgress(r, row);
    }
  }

  lemma MealStepProgress(r: Run, date: string, line: string)
    ensures Progress(r, MealStep(r, date, line))
  {
    var row := MealRow(date, Trim(line));
    if MealTest(line) && Count(r.db.meals, MealKey, MealKey(row)) != 1 {
      AddMealProgress(r, row);
    }
  }

  lemma WinStepProgress(r: Run, date: string, line: string)
    ensures Progress(r, WinStep(r, date, line))
  {
    var row := TitledRow(date, TitleOf(line), Trim(line));
    if WinTest(line) && Count(r.db.wins, TitleKey, TitleKey(row)) != 1 {
      AddWinProgress(r, row);
    }
  }

  lemma ChallengeStepProgress(r: Run, date: string, line: string)
    ensures Progress(r, ChallengeStep(r, date, line))
  {
    var row := TitledRow(date, TitleOf(line), Trim(line));
    if ChallengeTest(line) && Count(r.db.challenges, TitleKey, TitleKey(row)) != 1 {
      AddChallengeProgress(r, row);
    }
  }

  lemma WorkStepProgress(r: Run, date: string, line: string)
    ensures Progress(r, WorkStep(r, date, line))
  {
    var h := HoursIn(line);
    if WorkHoursTest(line) && h.Some? {
      var row := WorkRow(date, h.value, Trim(line));
      if Count(r.db.workHours, WorkKey, WorkKey(row)) != 1 {
        AddWorkProgress(r, row);
      }
    }
  }

  lemma SyncLineProgress(r: Run, date: string, line: string)
    ensures Progress(r, SyncLine(r, date, line))
  {
    if !Skipped(line) {
      var r1 := WalkStep(r, date, line);
      var r2 := MealStep(r1, date, line);
      var r3 := WinStep(r2, date, line);
      var r4 := ChallengeStep(r3, date, line);
      WalkStepProgress(r, date, line);
      MealStepProgress(r1, date, line);
      WinStepProgress(r2, date, line);
      ChallengeStepProgress(r3, date, line);
      WorkStepProgress(r4, date, line);
      ProgressTrans(r, r1, r2);
      ProgressTrans(r, r2, r3);
      ProgressTrans(r, r3, r4);
      ProgressTrans(r, r4, SyncLine(r, date, line));
    }
  }

  lemma {:induction false} SyncLinesProgress(r: Run, date: string, lines: seq<string>)
    ensures Progress(r, SyncLines(r, date, lines))
    decreases |lines|
  {
    if lines != [] {
      var mid := SyncLines(r, date, lines[..|lines| - 1]);
      SyncLinesProgress(r, date, lines[..|lines| - 1]);
      SyncLineProgress(mid, date, lines[|lines| - 1]);
      ProgressTrans(r, mid, SyncLines(r, date, lines));
    }
  }

  lemma {:induction false} SyncFilesProgress(r: Run, files: seq<MemoryFile>)
    ensures Progress(r, SyncFiles(r, files))
    decreases |files|
  {
    if files != [] {
      var mid := SyncFiles(r, files[..|files| - 1]);
      SyncFilesProgress(r, files[..|files| - 1]);
      SyncLinesProgress(mid, FileDate(files[|files| - 1]), FileLines(files[|files| - 1]));
      ProgressTrans(r, mid, SyncFiles(r, files));
    }
  }

  /**
   * At most one walk per date: a run never gives a date a second walk row, however
   * many lines of that day mention a walk and whichever inserts fail; the same holds
   * for the keys of the other four tables.
   */
  lemma SyncKeepsKeysUnique(db: Tables, dir: seq<MemoryFile>)
    requires Unique(db)
    ensures Unique(Sync(db, dir).db)
    ensures forall d :: Count(Sync(db, dir).db.walks, WalkKey, d) <= 1
  {
    SyncFilesProgress(Run(db, NoStats), DailyFiles(dir));
  }

  /**
   * The summary counts inserts issued, never their results: a run only appends rows, the
   * counters together grew by exactly the inserts that used up an entry of the fault script,
   * the rows gained are those inserts less the failed ones, every counter is at least the
   * rows its table gained (exactly that when no insert fails), and `mood` stays 0.
   */
  lemma SyncCountsInserts(db: Tables, dir: seq<MemoryFile>)
    ensures var r := Sync(db, dir);
      var n := r.stats.walks + r.stats.meals + r.stats.wins + r.stats.challenges + r.stats.hours;
      r.db.faults == Drop(db.faults, n) &&
      (|r.db.walks| - |db.walks|) + (|r.db.meals| - |db.meals|) + (|r.db.wins| - |db.wins|) +
      (|r.db.challenges| - |db.challenges|) + (|r.db.workHours| - |db.workHours|) == n - FailCount(db.faults, n)
    ensures var r := Sync(db, dir);
      Grows(db, r.db) && r.stats.mood == 0 &&
      |r.db.walks| - |db.walks| <= r.stats.walks &&
      |r.db.meals| - |db.meals| <= r.stats.meals &&
      |r.db.wins| - |db.wins| <= r.stats.wins &&
      |r.db.challenges| - |db.challenges| <= r.stats.challenges &&
      |r.db.workHours| - |db.workHours| <= r.stats.hours
    ensures db.faults == [] ==> var r := Sync(db, dir);
      |r.db.walks| == |db.walks| + r.stats.walks &&
      |r.db.meals| == |db.meals| + r.stats.meals &&
      |r.db.wins| == |db.wins| + r.stats.wins &&
      |r.db.challenges| == |db.challenges| + r.stats.challenges &&
      |r.db.workHours| == |db.workHours| + r.stats.hours
  {
    SyncFilesProgress(Run(db, NoStats), DailyFiles(dir));
    ProgressFromNothing(db, Sync(db, dir));
  }

  /** `Progress` from a run that has counted nothing yet, in terms of the final counters. */
  lemma ProgressFromNothing(db: Tables, r: Run)
    requires Progress(Run(db, NoStats), r)
    ensures var n := r.stats.walks + r.stats.meals + r.stats.wins + r.stats.challenges + r.stats.hours;
      r.db.faults == Drop(db.faults, n) &&
      (|r.db.walks| - |db.walks|) + (|r.db.meals| - |db.meals|) + (|r.db.wins| - |db.wins|) +
      (|r.db.challenges| - |db.challenges|) + (|r.db.workHours| - |db.workHours|) == n - FailCount(db.faults, n)
    ensures Grows(db, r.db) && r.stats.mood == 0 &&
      |r.db.walks| - |db.walks| <= r.stats.walks &&
      |r.db.meals| - |db.meals| <= r.stats.meals &&
      |r.db.wins| - |db.wins| <= r.stats.wins &&
      |r.db.challenges| - |db.challenges| <= r.stats.challenges &&
      |r.db.workHours| - |db.workHours| <= r.stats.hours
    ensures db.faults == [] ==>
      |r.db.walks| == |db.walks| + r.stats.walks &&
      |r.db.meals| == |db.meals| + r.stats.meals &&
      |r.db.wins| == |db.wins| + r.stats.wins &&
      |r.db.challenges| == |db.challenges| + r.stats.challenges &&
      |r.db.workHours| == |db.workHours| + r.stats.hours
  {
    assert Issued(Run(db, NoStats), r) == r.stats.walks + r.stats.meals + r.stats.wins + r.stats.challenges + r.stats.hours;
  }

  // ---------------------------------------------------------------------------
  // Rerunning the sync.

  /** Every candidate of `line` already has exactly one row under its key. */
  ghost predicate Covered(db: Tables, date: string, line: string) {
    !Skipped(line) ==>
      (BaileyWalkTest(line) ==> Count(db.walks, WalkKey, date) == 1) &&
      (MealTest(line) ==> Count(db.meals, MealKey, (date, Trim(line))) == 1) &&
      (WinTest(line) ==> Count(db.wins, TitleKey, (date, TitleOf(line))) == 1) &&
      (ChallengeTest(line) ==> Count(db.challenges, TitleKey, (date, TitleOf(line))) == 1) &&
      (WorkHoursTest(line) && HoursIn(line).Some? ==> Count(db.workHours, WorkKey, (date, HoursIn(line).value)) == 1)
  }

  ghost predicate CoveredLines(db: Tables, date: string, lines: seq<string>) {
    forall i :: 0 <= i < |lines| ==> Covered(db, date, lines[i])
  }

  ghost predicate CoveredFiles(db: Tables, files: seq<MemoryFile>) {
    forall i :: 0 <= i < |files| ==> CoveredLines(db, FileDate(files[i]), FileLines(files[i]))
  }

  /** A count of one stays one while the table grows without repeating a key. */
  lemma CountStaysOne<R, K(!new)>(a: seq<R>, b: seq<R>, key: R -> K, k: K)
    requires a <= b && AtMostOne(b, key) && Count(a, key, k) == 1
    ensures Count(b, key, k) == 1
  {
    assert b == a + b[|a|..];
    CountGrows(a, b[|a|..], key, k);
  }

  lemma CoveredStable(db: Tables, db2: Tables, date: string, line: string)
    requires Grows(db, db2) && Unique(db2) && Covered(db, date, line)
    ensures Covered(db2, date, line)
  {
    if !Skipped(line) {
      if BaileyWalkTest(line) { CountStaysOne(db.walks, db2.walks, WalkKey, date); }
      if MealTest(line) { CountStaysOne(db.meals, db2.meals, MealKey, (date, Trim(line))); }
      if WinTest(line) { CountStaysOne(db.wins, db2.wins, TitleKey, (date, TitleOf(line))); }
      if ChallengeTest(line) { CountStaysOne(db.challenges, db2.challenges, TitleKey, (date, TitleOf(line))); }
      if WorkHoursTest(line) && HoursIn(line).Some? {
        CountStaysOne(db.workHours, db2.workHours, WorkKey, (date, HoursIn(line).value));
      }
    }
  }

  // Each step, from a store with unique keys and no failing insert, leaves its candidate stored once.

  lemma WalkStepCovers(r: Run, date: string, line: string)
    requires Unique(r.db) && r.db.faults == [] && BaileyWalkTest(line)
    ensures Count(WalkStep(r, date, line).db.walks, WalkKey, date) == 1
  {
    if Count(r.db.walks, WalkKey, date) != 1 {
      AddKeepsAtMostOne(r.db.walks, WalkKey, WalkRow(date, Trim(line)));
    }
  }

  lemma MealStepCovers(r: Run, date: string, line: string)
    requires Unique(r.db) && r.db.faults == [] && MealTest(line)
    ensures Count(MealStep(r, date, line).db.meals, MealKey, (date, Trim(line))) == 1
  {
    if Count(r.db.meals, MealKey, (date, Trim(line))) != 1 {
      AddKeepsAtMostOne(r.db.meals, MealKey, MealRow(date, Trim(line)));
    }
  }

  lemma WinStepCovers(r: Run, date: string, line: string)
    requires Unique(r.db) && r.db.faults == [] && WinTest(line)
    ensures Count(WinStep(r, date, line).db.wins, TitleKey, (date, TitleOf(line))) == 1
  {
    if Count(r.db.wins, TitleKey, (date, TitleOf(line))) != 1 {
      AddKeepsAtMostOne(r.db.wins, TitleKey, TitledRow(date, TitleOf(line), Trim(line)));
    }
  }

  lemma ChallengeStepCovers(r: Run, date: string, line: string)
    requires Unique(r.db) && r.db.faults == [] && ChallengeTest(line)
    ensures Count(ChallengeStep(r, date, line).db.challenges, TitleKey, (date, TitleOf(line))) == 1
  {
    if Count(r.db.challenges, TitleKey, (date, TitleOf(line))) != 1 {
      AddKeepsAtMostOne(r.db.challenges, TitleKey, TitledRow(date, TitleOf(line), Trim(line)));
    }
  }

  lemma WorkStepCovers(r: Run, date: string, line: string)
    requires Unique(r.db) && r.db.faults == [] && WorkHoursTest(line) && HoursIn(line).Some?
    ensures Count(WorkStep(r, date, line).db.workHours, WorkKey, (date, HoursIn(line).value)) == 1
  {
    var h := HoursIn(line).value;
    if Count(r.db.workHours, WorkKey, (date, h)) != 1 {
      AddKeepsAtMostOne(r.db.workHours, WorkKey, WorkRow(date, h, Trim(line)));
    }
  }

  /** Each step of a line writes only its own table, so each table ends as its own step left it. */
  lemma SyncLineTables(r: Run, date: string, line: string)
    requires !Skipped(line)
    ensures var r1 := WalkStep(r, date, line);
      var r2 := MealStep(r1, date, line);
      var r3 := WinStep(r2, date, line);
      var r4 := ChallengeStep(r3, date, line);
      var r5 := SyncLine(r, date, line);
      r5.db.walks == r1.db.walks && r5.db.meals == r2.db.meals &&
      r5.db.wins == r3.db.wins && r5.db.challenges == r4.db.challenges
  {
    var r1 := WalkStep(r, date, line);
    var r2 := MealStep(r1, date, line);
    var r3 := WinStep(r2, date, line);
    var r4 := ChallengeStep(r3, date, line);
    assert SyncLine(r, date, line) == WorkStep(r4, date, line);
    WorkKeepsTitled(r4, date, line);
    WorkKeepsWalksAndMeals(r4, date, line);
    ChallengeKeepsOthers(r3, date, line);
    WinKeepsOthers(r2, date, line);
    MealKeepsWalks(r1, date, line);
  }

  lemma MealKeepsWalks(r: Run, date: string, line: string)
    ensures MealStep(r, date, line).db.walks == r.db.walks
  {
  }

  lemma WinKeepsOthers(r: Run, date: string, line: string)
    ensures var r2 := WinStep(r, date, line); r2.db.walks == r.db.walks && r2.db.meals == r.db.meals
  {
  }

  lemma ChallengeKeepsOthers(r: Run, date: string, line: string)
    ensures var r2 := ChallengeStep(r, date, line);
      r2.db.walks == r.db.walks && r2.db.meals == r.db.meals && r2.db.wins == r.db.wins
  {
  }

  lemma WorkKeepsWalksAndMeals(r: Run, date: string, line: string)
    ensures var r2 := WorkStep(r, date, line); r2.db.walks == r.db.walks && r2.db.meals == r.db.meals
  {
  }

  /** With every insert succeeding, after a line is processed each of its candidates is stored exactly once. */
  lemma SyncLineCovers(r: Run, date: string, line: string)
    requires Unique(r.db) && r.db.faults == []
    ensures Covered(SyncLine(r, date, line).db, date, line)
  {
    if !Skipped(line) {
      var r1 := WalkStep(r, date, line);
      var r2 := MealStep(r1, date, line);
      var r3 := WinStep(r2, date, line);
      var r4 := ChallengeStep(r3, date, line);
      var r5 := WorkStep(r4, date, line);
      assert r5 == SyncLine(r, date, line);
      WalkStepProgress(r, date, line);
      MealStepProgress(r1, date, line);
      WinStepProgress(r2, date, line);
      ChallengeStepProgress(r3, date, line);
      SyncLineTables(r, date, line);
      if BaileyWalkTest(line) { WalkStepCovers(r, date, line); }
      if MealTest(line) { MealStepCovers(r1, date, line); }
      if WinTest(line) { WinStepCovers(r2, date, line); }
      if ChallengeTest(line) { ChallengeStepCovers(r3, date, line); }
      if WorkHoursTest(line) && HoursIn(line).Some? { WorkStepCovers(r4, date, line); }
    }
  }

  lemma {:induction false} SyncLinesCover(r: Run, date: string, lines: seq<string>)
    requires Unique(r.db) && r.db.faults == []
    ensures CoveredLines(SyncLines(r, date, lines).db, date, lines)
    decreases |lines|
  {
    if lines != [] {
      var init := lines[..|lines| - 1];
      var mid := SyncLines(r, date, init);
      var last := SyncLines(r, date, lines);
      SyncLinesCover(r, date, init);
      SyncLinesProgress(r, date, init);
      SyncLineProgress(mid, date, lines[|lines| - 1]);
      SyncLineCovers(mid, date, lines[|lines| - 1]);
      forall i | 0 <= i < |lines| - 1 ensures Covered(last.db, date, lines[i]) {
        assert init[i] == lines[i];
        CoveredStable(mid.db, last.db, date, lines[i]);
      }
    }
  }

  lemma {:induction false} SyncFilesCover(r: Run, files: seq<MemoryFile>)
    requires Unique(r.db) && r.db.faults == []
    ensures CoveredFiles(SyncFiles(r, files).db, files)
    decreases |files|
  {
    if files != [] {
      var init := files[..|files| - 1];
      var f := files[|files| - 1];
      var mid := SyncFiles(r, init);
      var last := SyncFiles(r, files);
      SyncFilesCover(r, init);
      SyncFilesProgress(r, init);
      SyncLinesProgress(mid, FileDate(f), FileLines(f));
      SyncLinesCover(mid, FileDate(f), FileLines(f));
      forall i, j | 0 <= i < |files| - 1 && 0 <= j < |FileLines(files[i])|
        ensures Covered(last.db, FileDate(files[i]), FileLines(files[i])[j])
      {
        assert init[i] == files[i];
        CoveredStable(mid.db, last.db, FileDate(files[i]), FileLines(files[i])[j]);
      }
    }
  }

  lemma {:induction false} CoveredLinesFixed(r: Run, date: string, lines: seq<string>)
    requires CoveredLines(r.db, date, lines)
    ensures SyncLines(r, date, lines) == r
    decreases |lines|
  {
    if lines != [] {
      var init := lines[..|lines| - 1];
      assert CoveredLines(r.db, date, init) by {
        forall i | 0 <= i < |init| ensures Covered(r.db, date, init[i]) {
          assert init[i] == lines[i];
        }
      }
      CoveredLinesFixed(r, date, init);
      assert Covered(r.db, date, lines[|lines| - 1]);
    }
  }

  lemma {:induction false} CoveredFilesFixed(r: Run, files: seq<MemoryFile>)
    requires CoveredFiles(r.db, files)
    ensures SyncFiles(r, files) == r
    decreases |files|
  {
    if files != [] {
      var init := files[..|files| - 1];
      assert CoveredFiles(r.db, init) by {
        forall i | 0 <= i < |init| ensures CoveredLines(r.db, FileDate(init[i]), FileLines(init[i])) {
          assert init[i] == files[i];
        }
      }
      CoveredFilesFixed(r, init);
      CoveredLinesFixed(r, FileDate(files[|files| - 1]), FileLines(files[|files| - 1]));
    }
  }

  /**
   * Rerunning is idempotent: when the store starts with at most one row per key and
   * every insert of the first run succeeds, a second run over the same directory
   * issues no insert, leaves the store as the first run left it and reports all zeros.
   */
  lemma RerunIssuesNoInserts(db: Tables, dir: seq<MemoryFile>)
    requires Unique(db) && db.faults == []
    ensures Sync(Sync(db, dir).db, dir) == Run(Sync(db, dir).db, NoStats)
  {
    var files := DailyFiles(dir);
    SyncFilesCover(Run(db, NoStats), files);
    CoveredFilesFixed(Run(Sync(db, dir).db, NoStats), files);
  }

  // ---------------------------------------------------------------------------
  // The script.

  // The five `if` blocks of the script's inner loop, one method each.

  method SyncWalk(store: Store, date: string, line: string, stats0: Stats) returns (stats: Stats)
    modifies store
    ensures Run(store.State(), stats) == WalkStep(Run(old(store.State()), stats0), date, line)
  {
    stats := stats0;
    if BaileyWalkTest(line) {
      var existing := store.FindWalk(date);
      if !existing {
        store.InsertWalk(WalkRow(date, Trim(line)));
        stats := stats.(walks := stats.walks + 1);
      }
    }
  }

  method SyncMeal(store: Store, date: string, line: string, stats0: Stats) returns (stats: Stats)
    modifies store
    ensures Run(store.State(), stats) == MealStep(Run(old(store.State()), stats0), date, line)
  {
    stats := stats0;
    if MealTest(line) {
      var existing := store.FindMeal(date, Trim(line));
      if !existing {
        store.InsertMeal(MealRow(date, Trim(line)));
        stats := stats.(meals := stats.meals + 1);
      }
    }
  }

  method SyncWin(store: Store, date: string, line: string, stats0: Stats) returns (stats: Stats)
    modifies store
    ensures Run(store.State(), stats) == WinStep(Run(old(store.State()), stats0), date, line)
  {
    stats := stats0;
    if WinTest(line) {
      var title := Take(Trim(line), 200);
      var existing := store.FindWin(date, title);
      if !existing {
        store.InsertWin(TitledRow(date, title, Trim(line)));
        stats := stats.(wins := stats.wins + 1);
      }
    }
  }

  method SyncChallenge(store: Store, date: string, line: string, stats0: Stats) returns (stats: Stats)
    modifies store
    ensures Run(store.State(), stats) == ChallengeStep(Run(old(store.State()), stats0), date, line)
  {
    stats := stats0;
    if ChallengeTest(line) {
      var title := Take(Trim(line), 200);
      var existing := store.FindChallenge(date, title);
      if !existing {
        store.InsertChallenge(TitledRow(date, title, Trim(line)));
        stats := stats.(challenges := stats.challenges + 1);
      }
    }
  }

  method SyncWork(store: Store, date: string, line: string, stats0: Stats) returns (stats: Stats)
    modifies store
    ensures Run(store.State(), stats) == WorkStep(Run(old(store.State()), stats0), date, line)
  {
    stats := stats0;
    var hoursMatch := HoursIn(line);
    if WorkHoursTest(line) && hoursMatch.Some? {
      var hours := hoursMatch.value;
      var existing := store.FindWork(date, hours);
      if !existing {
        store.InsertWork(WorkRow(date, hours, Trim(line)));
        stats := stats.(hours := stats.hours + 1);
      }
    }
  }

  /** The body of the script's inner loop: one line of the file dated `date`. */
  method SyncOneLine(store: Store, date: string, line: string, stats0: Stats) returns (stats: Stats)
    modifies store
    ensures Run(store.State(), stats) == SyncLine(Run(old(store.State()), stats0), date, line)
  {
    stats := stats0;
    if Trim(line) == [] || StartsWith(line, "#") {
      return;
    }
    stats := SyncWalk(store, date, line, stats);
    stats := SyncMeal(store, date, line, stats);
    stats := SyncWin(store, date, line, stats);
    stats := SyncChallenge(store, date, line, stats);
    stats := SyncWork(store, date, line, stats);
  }

  /** The inner loop of the script: every line of one file, dated `date`. */
  method SyncFileLines(store: Store, date: string, lines: seq<string>, stats0: Stats) returns (stats: Stats)
    modifies store
    ensures Run(store.State(), stats) == SyncLines(Run(old(store.State()), stats0), date, lines)
  {
    ghost var before := Run(store.State(), stats0);
    stats := stats0;
    for l := 0 to |lines|
      invariant Run(store.State(), stats) == SyncLines(before, date, lines[..l])
    {
      assert lines[..l + 1][..l] == lines[..l];
      stats := SyncOneLine(store, date, lines[l], stats);
    }
    assert lines[..|lines|] == lines;
  }

  method SyncMemoryFiles(store: Store, dir: seq<MemoryFile>) returns (stats: Stats)
    modifies store
    ensures Run(store.State(), stats) == Sync(old(store.State()), dir)
  {
    var memoryFiles := DailyFiles(dir);
    ghost var start := Run(store.State(), NoStats);
    stats := NoStats;
    for f := 0 to |memoryFiles|
      invariant Run(store.State(), stats) == SyncFiles(start, memoryFiles[..f])
    {
      stats := SyncOneFile(store, start, memoryFiles, f, stats);
    }
    assert memoryFiles[..|memoryFiles|] == memoryFiles;
  }

  /** One round of the outer loop: every line of file `f`, after the files before it. */
  method SyncOneFile(store: Store, ghost start: Run, files: seq<MemoryFile>, f: nat, stats0: Stats)
    returns (stats: Stats)
    requires f < |files|
    requires Run(store.State(), stats0) == SyncFiles(start, files[..f])
    modifies store
    ensures Run(store.State(), stats) == SyncFiles(start, files[..f + 1])
  {
    var file := files[f];
    var date := ReplaceFirst(file.name, ".md", "");
    var lines := Split(file.content, '\n');
    stats := SyncFileLines(store, date, lines, stats0);
    assert files[..f + 1][..f] == files[..f];
  }
}
