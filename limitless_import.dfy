/**
 * The Limitless bulk importer (scripts/import-limitless.ts): reminders are renamed into
 * the `limitless_reminders` schema and inserted in batches of 100, decisions and tasks are
 * each inserted as one list, and transcript metadata rows are derived from the files of the
 * transcripts directory. No phase looks at what the tables already hold.
 *
 * The JSON files are given as parsed values, `None` standing for a file or directory
 * that does not exist; insert outcomes come from the fault oracle.
 */
module LimitlessImport {
  import opened Seqs
  import opened Wrappers
  import opened FaultOracle
  import opened LimitlessTranscripts

  /** An entry of `existing-reminders.json`. */
  datatype Reminder = Reminder(title: string, dueDate: Option<string>, status: string, createdBy: string, completed: bool)

  /** A row of `limitless_reminders`. */
  datatype ReminderRow = ReminderRow(title: string, due_date: Option<string>, status: string, created_by: string,
                                     completed: bool, source: string)

  /** An entry of `decisions.json`, inserted as it is. */
  datatype Decision = Decision(date: string, decisionText: string, context: Option<string>, source: Option<string>)

  /** An entry of `tasks.json`, inserted as it is. */
  datatype Task = Task(date: string, taskText: string, context: Option<string>, completed: bool, source: Option<string>)

  /** The four target tables and the fault script of the coming inserts. */
  datatype Db = Db(reminders: seq<ReminderRow>, decisions: seq<Decision>, tasks: seq<Task>,
                   transcripts: seq<TranscriptRow>, faults: seq<bool>)

  /** Everything the importer reads: each file parsed, or `None` when it is missing. */
  datatype Sources = Sources(reminders: Option<seq<Reminder>>, decisions: Option<seq<Decision>>,
                             tasks: Option<seq<Task>>, transcriptFiles: Option<seq<SourceFile>>,
                             transcriptsDir: string, today: string)

  const LimitlessSource := "limitless"

  // ----- The reminder transform -----

  function ToRow(r: Reminder): ReminderRow {
    ReminderRow(r.title, r.dueDate, r.status, r.createdBy, r.completed, LimitlessSource)
  }

  /** `data.map(...)`: one row per reminder, in order, with the fields renamed and `source` set. */
  function TransformReminders(data: seq<Reminder>): (rows: seq<ReminderRow>)
    ensures |rows| == |data|
    ensures forall i :: 0 <= i < |data| ==>
      rows[i].title == data[i].title && rows[i].due_date == data[i].dueDate &&
      rows[i].status == data[i].status && rows[i].created_by == data[i].createdBy &&
      rows[i].completed == data[i].completed && rows[i].source == "limitless"
  {
    Map(ToRow, data)
  }

  // ----- Batching -----

  const BatchSize: nat := 100

  /** The slices `s.slice(i, i + 100)`, `s.slice(i + 100, i + 200)`, ... while the start is inside `s`. */
  function BatchesFrom<T>(s: seq<T>, i: nat): seq<seq<T>>
    decreases |s| - i
  {
    if i >= |s| then [] else [s[i..Min(i + BatchSize, |s|)]] + BatchesFrom(s, i + BatchSize)
  }

  function Batches<T>(s: seq<T>): seq<seq<T>> { BatchesFrom(s, 0) }

  lemma {:induction false} BatchesFromLength<T>(s: seq<T>, i: nat)
    ensures |BatchesFrom(s, i)| == if i >= |s| then 0 else (|s| - i + 99) / 100
    decreases |s| - i
  {
    if i < |s| {
      BatchesFromLength(s, i + BatchSize);
    }
  }

  lemma {:induction false} BatchesFromSlices<T>(s: seq<T>, i: nat)
    ensures forall k :: 0 <= k < |BatchesFrom(s, i)| ==>
      i + 100 * k < |s| && BatchesFrom(s, i)[k] == s[i + 100 * k..Min(i + 100 * k + 100, |s|)]
    decreases |s| - i
  {
    if i < |s| {
      var rest := BatchesFrom(s, i + BatchSize);
      BatchesFromSlices(s, i + BatchSize);
      forall k | 0 < k < |BatchesFrom(s, i)|
        ensures i + 100 * k < |s| && BatchesFrom(s, i)[k] == s[i + 100 * k..Min(i + 100 * k + 100, |s|)]
      {
        assert BatchesFrom(s, i)[k] == rest[k - 1];
        assert i + 100 + 100 * (k - 1) == i + 100 * k;
      }
    }
  }

  lemma {:induction false} BatchesFromConcat<T>(s: seq<T>, i: nat)
    requires i <= |s|
    ensures Concat(BatchesFrom(s, i)) == s[i..]
    decreases |s| - i
  {
    if i < |s| {
      if i + BatchSize <= |s| {
        BatchesFromConcat(s, i + BatchSize);
        assert s[i..] == s[i..i + 100] + s[i + 100..];
      } else {
        assert BatchesFrom(s, i + BatchSize) == [];
      }
    }
  }

  /**
   * The batches of the loop at lines 79-80: `ceil(|s| / 100)` of them, batch `k` the
   * slice `[100k, 100k + 100)` cut at the end of `s`, none empty, all but the last full,
   * and together exactly `s`.
   */
  lemma BatchesPartition<T>(s: seq<T>)
    ensures |Batches(s)| == (|s| + 99) / 100
    ensures Concat(Batches(s)) == s
    ensures forall k :: 0 <= k < |Batches(s)| ==> Batches(s)[k] == s[100 * k..Min(100 * k + 100, |s|)]
    ensures forall k :: 0 <= k < |Batches(s)| ==> Batches(s)[k] != []
    ensures forall k :: 0 <= k < |Batches(s)| - 1 ==> |Batches(s)[k]| == 100
  {
    BatchesFromLength(s, 0);
    BatchesFromSlices(s, 0);
    BatchesFromConcat(s, 0);
    var bs := Batches(s);
    forall k | 0 <= k < |bs| - 1
      ensures |bs[k]| == 100
    {
      // the next batch starts inside `s`, so this one is cut at `100k + 100`
      assert bs[k + 1] != [] && 0 + 100 * (k + 1) < |s|;
      assert 100 * (k + 1) == 100 * k + 100;
    }
  }

  // ----- The store, as the importer sees it -----

  function AddReminders(db: Db, rows: seq<ReminderRow>): Db {
    db.(reminders := if NextFails(db.faults) then db.reminders else db.reminders + rows, faults := Consume(db.faults))
  }

  function AddDecisions(db: Db, rows: seq<Decision>): Db {
    db.(decisions := if NextFails(db.faults) then db.decisions else db.decisions + rows, faults := Consume(db.faults))
  }

  function AddTasks(db: Db, rows: seq<Task>): Db {
    db.(tasks := if NextFails(db.faults) then db.tasks else db.tasks + rows, faults := Consume(db.faults))
  }

  function AddTranscripts(db: Db, rows: seq<TranscriptRow>): Db {
    db.(transcripts := if NextFails(db.faults) then db.transcripts else db.transcripts + rows, faults := Consume(db.faults))
  }

  // ----- The reminders phase -----

  /** The console report for one batch: its 1-based number, its size, and whether it went in. */
  datatype BatchLog = BatchLog(number: nat, size: nat, ok: bool)

  datatype ImportRun = ImportRun(db: Db, imported: nat, log: seq<BatchLog>)

  /** The batches inserted one after the other, each failure logged and passed over. */
  function InsertBatches(db: Db, bs: seq<seq<ReminderRow>>): ImportRun
    decreases |bs|
  {
    if bs == [] then ImportRun(db, 0, [])
    else
      var p := InsertBatches(db, bs[..|bs| - 1]);
      var b := bs[|bs| - 1];
      var ok := !NextFails(p.db.faults);
      ImportRun(AddReminders(p.db, b), p.imported + (if ok then |b| else 0), p.log + [BatchLog(|bs|, |b|, ok)])
  }

  /** The batches that the fault script lets through, in order. */
  function Succeeded<T>(bs: seq<seq<T>>, faults: seq<bool>): seq<seq<T>>
    decreases |bs|
  {
    if bs == [] then []
    else Succeeded(bs[..|bs| - 1], faults) + (if InsertFails(faults, |bs| - 1) then [] else [bs[|bs| - 1]])
  }

  lemma {:induction false} SucceededShorter<T>(bs: seq<seq<T>>, faults: seq<bool>)
    ensures |Concat(Succeeded(bs, faults))| <= |Concat(bs)|
    decreases |bs|
  {
    if bs != [] {
      var init, last := bs[..|bs| - 1], bs[|bs| - 1];
      SucceededShorter(init, faults);
      assert bs == init + [last];
      ConcatSnoc(init, last);
      if !InsertFails(faults, |bs| - 1) {
        ConcatSnoc(Succeeded(init, faults), last);
      } else {
        assert Succeeded(bs, faults) == Succeeded(init, faults);
      }
    }
  }

  lemma {:induction false} SucceededAll<T>(bs: seq<seq<T>>, faults: seq<bool>)
    requires forall k :: 0 <= k < |bs| ==> !InsertFails(faults, k)
    ensures Succeeded(bs, faults) == bs
    decreases |bs|
  {
    if bs != [] {
      SucceededAll(bs[..|bs| - 1], faults);
      assert bs == bs[..|bs| - 1] + [bs[|bs| - 1]];
    }
  }

  /** Batch inserts touch only `limitless_reminders`, and use up one script entry each. */
  lemma {:induction false} InsertBatchesFaults(db: Db, bs: seq<seq<ReminderRow>>)
    ensures var r := InsertBatches(db, bs);
      r.db == db.(reminders := r.db.reminders, faults := Drop(db.faults, |bs|))
    decreases |bs|
  {
    if bs != [] {
      InsertBatchesFaults(db, bs[..|bs| - 1]);
      DropStep(db.faults, |bs| - 1);
    }
  }

  /** Exactly the rows of the batches that went in are added, in order. */
  lemma {:induction false} InsertBatchesRows(db: Db, bs: seq<seq<ReminderRow>>)
    ensures InsertBatches(db, bs).db.reminders == db.reminders + Concat(Succeeded(bs, db.faults))
    ensures InsertBatches(db, bs).imported == |Concat(Succeeded(bs, db.faults))|
    decreases |bs|
  {
    if bs != [] {
      var init, last := bs[..|bs| - 1], bs[|bs| - 1];
      InsertBatchesRows(db, init);
      InsertBatchesFaults(db, init);
      DropStep(db.faults, |init|);
      if !InsertFails(db.faults, |init|) {
        ConcatSnoc(Succeeded(init, db.faults), last);
      } else {
        assert Succeeded(bs, db.faults) == Succeeded(init, db.faults);
      }
    }
  }

  /**
   * Each batch is attempted and logged whatever happened to the ones before it: batch `k`
   * is logged as number `k + 1` with its size, and as having gone in exactly when insert
   * `k` of the script succeeds.
   */
  lemma {:induction false} InsertBatchesLog(db: Db, bs: seq<seq<ReminderRow>>)
    ensures |InsertBatches(db, bs).log| == |bs|
    ensures forall k :: 0 <= k < |bs| ==>
      InsertBatches(db, bs).log[k] == BatchLog(k + 1, |bs[k]|, !InsertFails(db.faults, k))
    decreases |bs|
  {
    if bs != [] {
      var init := bs[..|bs| - 1];
      InsertBatchesLog(db, init);
      InsertBatchesFaults(db, init);
      DropStep(db.faults, |init|);
    }
  }

  /** The three facts above together. */
  lemma InsertBatchesOutcome(db: Db, bs: seq<seq<ReminderRow>>)
    ensures var r := InsertBatches(db, bs);
      r.db == db.(reminders := db.reminders + Concat(Succeeded(bs, db.faults)), faults := Drop(db.faults, |bs|)) &&
      r.imported == |Concat(Succeeded(bs, db.faults))| &&
      |r.log| == |bs| &&
      forall k :: 0 <= k < |bs| ==> r.log[k] == BatchLog(k + 1, |bs[k]|, !InsertFails(db.faults, k))
  {
    InsertBatchesFaults(db, bs);
    InsertBatchesRows(db, bs);
    InsertBatchesLog(db, bs);
  }

  /** `importReminders`: nothing when the file is missing, otherwise the batched insert. */
  function RemindersPhase(db: Db, source: Option<seq<Reminder>>): ImportRun {
    match source
    case None => ImportRun(db, 0, [])
    case Some(data) => InsertBatches(db, Batches(TransformReminders(data)))
  }

  /** `0 <= imported <= data.length`, with every reminder imported when no insert fails. */
  lemma RemindersImportedBounds(db: Db, data: seq<Reminder>)
    ensures var r := RemindersPhase(db, Some(data));
      r.imported <= |data| &&
      ((forall k :: 0 <= k < |Batches(data)| ==> !InsertFails(db.faults, k)) ==>
        r.imported == |data| && r.db.reminders == db.reminders + TransformReminders(data))
  {
    var rows := TransformReminders(data);
    var bs := Batches(rows);
    InsertBatchesOutcome(db, bs);
    BatchesPartition(rows);
    SucceededShorter(bs, db.faults);
    BatchesPartition(data);
    if forall k :: 0 <= k < |Batches(data)| ==> !InsertFails(db.faults, k) {
      assert |bs| == |Batches(data)|;
      SucceededAll(bs, db.faults);
    }
  }

  /**
   * 250 reminders with the second insert failing: three batches (100, 100, 50) are
   * attempted, the second is lost and the two others go in, so 150 are imported.
   */
  lemma SecondBatchFails(db: Db, data: seq<Reminder>)
    requires |data| == 250 && db.faults == [false, true, false]
    ensures var r := RemindersPhase(db, Some(data));
      r.imported == 150 &&
      r.log == [BatchLog(1, 100, true), BatchLog(2, 100, false), BatchLog(3, 50, true)] &&
      r.db.reminders == db.reminders + TransformReminders(data)[..100] + TransformReminders(data)[200..]
  {
    var rows := TransformReminders(data);
    var b0, b1, b2 := rows[..100], rows[100..200], rows[200..];
    var bs := Batches(rows);
    ThreeBatches(rows);
    assert bs[..2] == [b0, b1] && [b0, b1][..1] == [b0] && [b0][..0] == [];
    assert InsertBatches(db, []) == ImportRun(db, 0, []);
    var r1 := InsertBatches(db, [b0]);
    assert r1.imported == 100 && r1.db.reminders == db.reminders + b0 && r1.db.faults == [true, false];
    var r2 := InsertBatches(db, [b0, b1]);
    assert r2.imported == 100 && r2.db.reminders == db.reminders + b0 && r2.db.faults == [false];
    assert rows == b0 + b1 + b2;
  }

  /** 250 rows make the batches 0-99, 100-199 and 200-249. */
  lemma ThreeBatches<T>(rows: seq<T>)
    requires |rows| == 250
    ensures Batches(rows) == [rows[..100], rows[100..200], rows[200..]]
  {
    assert Min(200 + BatchSize, |rows|) == |rows|;
    assert BatchesFrom(rows, 200) == [rows[200..|rows|]] + BatchesFrom(rows, 300);
    assert BatchesFrom(rows, 300) == [] && rows[200..|rows|] == rows[200..];
    assert BatchesFrom(rows, 100) == [rows[100..200]] + BatchesFrom(rows, 200);
  }

  // ----- Decisions, tasks and transcripts: one insert each -----

  /** What a one-insert phase did. */
  datatype PhaseOutcome = NoSource | NothingToImport | InsertFailed | ImportedAll(count: nat)

  datatype Phase = Phase(db: Db, outcome: PhaseOutcome)

  function InsertOutcome(faults: seq<bool>, n: nat): PhaseOutcome {
    if NextFails(faults) then InsertFailed else ImportedAll(n)
  }

  /** `importDecisions`: skipped when the file is missing or empty, otherwise one insert of the whole list. */
  function DecisionsPhase(db: Db, source: Option<seq<Decision>>): (r: Phase)
    ensures (source.None? || source.value == []) ==> r.db == db
    ensures source.None? <==> r.outcome == NoSource
    ensures source == Some([]) <==> r.outcome == NothingToImport
    ensures source.Some? && source.value != [] ==>
      r.db.decisions == db.decisions + (if NextFails(db.faults) then [] else source.value) &&
      r.db == db.(decisions := r.db.decisions, faults := Consume(db.faults)) &&
      (r.outcome == InsertFailed <==> NextFails(db.faults)) &&
      (r.outcome.ImportedAll? ==> r.outcome.count == |source.value|)
  {
    match source
    case None => Phase(db, NoSource)
    case Some(data) =>
      if data == [] then Phase(db, NothingToImport)
      else Phase(AddDecisions(db, data), InsertOutcome(db.faults, |data|))
  }

  /** `importTasks`: the same rules as decisions, on `limitless_tasks`. */
  function TasksPhase(db: Db, source: Option<seq<Task>>): (r: Phase)
    ensures (source.None? || source.value == []) ==> r.db == db
    ensures source.None? <==> r.outcome == NoSource
    ensures source == Some([]) <==> r.outcome == NothingToImport
    ensures source.Some? && source.value != [] ==>
      r.db.tasks == db.tasks + (if NextFails(db.faults) then [] else source.value) &&
      r.db == db.(tasks := r.db.tasks, faults := Consume(db.faults)) &&
      (r.outcome == InsertFailed <==> NextFails(db.faults)) &&
      (r.outcome.ImportedAll? ==> r.outcome.count == |source.value|)
  {
    match source
    case None => Phase(db, NoSource)
    case Some(data) =>
      if data == [] then Phase(db, NothingToImport)
      else Phase(AddTasks(db, data), InsertOutcome(db.faults, |data|))
  }

  /**
   * `importTranscriptMetadata`: skipped when the directory is missing or holds no
   * `.txt`/`.md` file, otherwise one insert of a row per such file.
   */
  function TranscriptsPhase(db: Db, files: Option<seq<SourceFile>>, dir: string, today: string): (r: Phase)
    ensures files.None? <==> r.outcome == NoSource
    ensures files.Some? && Filter(IsTranscriptFile, files.value) == [] ==> r.outcome == NothingToImport
    ensures r.outcome.NoSource? || r.outcome.NothingToImport? ==> r.db == db
    ensures files.Some? && Filter(IsTranscriptFile, files.value) != [] ==>
      var rows := Transcripts(dir, files.value, today);
      |rows| == |Filter(IsTranscriptFile, files.value)| &&
      r.db.transcripts == db.transcripts + (if NextFails(db.faults) then [] else rows) &&
      r.db == db.(transcripts := r.db.transcripts, faults := Consume(db.faults)) &&
      (r.outcome == InsertFailed <==> NextFails(db.faults)) &&
      (r.outcome.ImportedAll? ==> r.outcome.count == |rows|)
  {
    match files
    case None => Phase(db, NoSource)
    case Some(fs) =>
      var rows := Transcripts(dir, fs, today);
      if rows == [] then Phase(db, NothingToImport)
      else Phase(AddTranscripts(db, rows), InsertOutcome(db.faults, |rows|))
  }

  // ----- The whole import -----

  /** `main`: reminders, then decisions, then tasks, then transcripts. */
  function ImportAll(db: Db, src: Sources): Db {
    var d1 := RemindersPhase(db, src.reminders).db;
    var d2 := DecisionsPhase(d1, src.decisions).db;
    var d3 := TasksPhase(d2, src.tasks).db;
    TranscriptsPhase(d3, src.transcriptFiles, src.transcriptsDir, src.today).db
  }

  // The rows each phase would add when its inserts succeed.

  function NewReminders(src: Sources): seq<ReminderRow> {
    match src.reminders
    case None => []
    case Some(data) => TransformReminders(data)
  }

  function NewDecisions(src: Sources): seq<Decision> { src.decisions.GetOr([]) }

  function NewTasks(src: Sources): seq<Task> { src.tasks.GetOr([]) }

  function NewTranscripts(src: Sources): seq<TranscriptRow> {
    match src.transcriptFiles
    case None => []
    case Some(fs) => Transcripts(src.transcriptsDir, fs, src.today)
  }

  /** The number of inserts `main` issues: one per reminder batch, one per non-empty other source. */
  function InsertsIssued(src: Sources): nat {
    |Batches(NewReminders(src))| + (if NewDecisions(src) == [] then 0 else 1) +
    (if NewTasks(src) == [] then 0 else 1) + (if NewTranscripts(src) == [] then 0 else 1)
  }

  /** The phases consume the fault script in `main`'s order, one entry per insert issued. */
  lemma ImportAllConsumes(db: Db, src: Sources)
    ensures ImportAll(db, src).faults == Drop(db.faults, InsertsIssued(src))
  {
    var n1 := |Batches(NewReminders(src))|;
    var d1 := RemindersPhase(db, src.reminders).db;
    RemindersFaults(db, src);
    var n2 := n1 + (if NewDecisions(src) == [] then 0 else 1);
    var d2 := DecisionsPhase(d1, src.decisions).db;
    DecisionsFaults(d1, src);
    OnePhaseConsumes(db.faults, n1, d1.faults, d2.faults, NewDecisions(src) == []);
    var n3 := n2 + (if NewTasks(src) == [] then 0 else 1);
    var d3 := TasksPhase(d2, src.tasks).db;
    TasksFaults(d2, src);
    OnePhaseConsumes(db.faults, n2, d2.faults, d3.faults, NewTasks(src) == []);
    var d4 := TranscriptsPhase(d3, src.transcriptFiles, src.transcriptsDir, src.today).db;
    TranscriptsFaults(d3, src);
    OnePhaseConsumes(db.faults, n3, d3.faults, d4.faults, NewTranscripts(src) == []);
    assert ImportAll(db, src) == d4;
  }

  /** The reminders phase consumes one entry of the fault script per batch. */
  lemma RemindersFaults(d: Db, src: Sources)
    ensures RemindersPhase(d, src.reminders).db.faults == Drop(d.faults, |Batches(NewReminders(src))|)
  {
    if src.reminders.Some? {
      InsertBatchesFaults(d, Batches(NewReminders(src)));
    }
  }

  // Each one-insert phase consumes one entry of the fault script exactly when it has rows.

  lemma DecisionsFaults(d: Db, src: Sources)
    ensures DecisionsPhase(d, src.decisions).db.faults == if NewDecisions(src) == [] then d.faults else Consume(d.faults)
  {
  }

  lemma TasksFaults(d: Db, src: Sources)
    ensures TasksPhase(d, src.tasks).db.faults == if NewTasks(src) == [] then d.faults else Consume(d.faults)
  {
  }

  lemma TranscriptsFaults(d: Db, src: Sources)
    ensures TranscriptsPhase(d, src.transcriptFiles, src.transcriptsDir, src.today).db.faults ==
      if NewTranscripts(src) == [] then d.faults else Consume(d.faults)
  {
  }

  lemma OnePhaseConsumes(faults: seq<bool>, n: nat, before: seq<bool>, after: seq<bool>, skipped: bool)
    requires before == Drop(faults, n)
    requires after == if skipped then before else Consume(before)
    ensures after == Drop(faults, n + if skipped then 0 else 1)
  {
    DropStep(faults, n);
  }

  lemma RemindersNoFaults(db: Db, src: Sources)
    requires db.faults == []
    ensures RemindersPhase(db, src.reminders).db == db.(reminders := db.reminders + NewReminders(src))
  {
    if src.reminders.Some? {
      var bs := Batches(NewReminders(src));
      InsertBatchesOutcome(db, bs);
      BatchesPartition(NewReminders(src));
      SucceededAll(bs, db.faults);
    }
  }

  /** With no failing insert, every phase appends its rows, whatever the tables held before. */
  lemma ImportAllNoFaults(db: Db, src: Sources)
    requires db.faults == []
    ensures ImportAll(db, src) == Db(db.reminders + NewReminders(src), db.decisions + NewDecisions(src),
                                     db.tasks + NewTasks(src), db.transcripts + NewTranscripts(src), [])
  {
    RemindersNoFaults(db, src);
    var d1 := db.(reminders := db.reminders + NewReminders(src));
    var d2 := d1.(decisions := d1.decisions + NewDecisions(src));
    assert DecisionsPhase(d1, src.decisions).db == d2;
    var d3 := d2.(tasks := d2.tasks + NewTasks(src));
    assert TasksPhase(d2, src.tasks).db == d3;
    assert TranscriptsPhase(d3, src.transcriptFiles, src.transcriptsDir, src.today).db ==
      d3.(transcripts := d3.transcripts + NewTranscripts(src));
  }

  /**
   * No phase checks for earlier rows: a second run over the same sources, after a first
   * run whose inserts all succeeded, appends every row a second time.
   */
  lemma RerunDuplicates(db: Db, src: Sources)
    requires db.faults == []
    ensures var twice := ImportAll(ImportAll(db, src), src);
      twice.reminders == db.reminders + NewReminders(src) + NewReminders(src) &&
      twice.decisions == db.decisions + NewDecisions(src) + NewDecisions(src) &&
      twice.tasks == db.tasks + NewTasks(src) + NewTasks(src) &&
      twice.transcripts == db.transcripts + NewTranscripts(src) + NewTranscripts(src)
  {
    ImportAllNoFaults(db, src);
    ImportAllNoFaults(ImportAll(db, src), src);
  }

  /** A source that is missing leaves its table as it was, whatever the others do. */
  lemma MissingSourcesUntouched(db: Db, src: Sources)
    ensures src.reminders.None? ==> ImportAll(db, src).reminders == db.reminders
    ensures src.decisions.None? ==> ImportAll(db, src).decisions == db.decisions
    ensures src.tasks.None? ==> ImportAll(db, src).tasks == db.tasks
    ensures src.transcriptFiles.None? ==> ImportAll(db, src).transcripts == db.transcripts
  {
    RemindersOnlyReminders(db, src);
    var d1 := RemindersPhase(db, src.reminders).db;
    var d2 := DecisionsPhase(d1, src.decisions).db;
    var d3 := TasksPhase(d2, src.tasks).db;
    assert ImportAll(db, src) == TranscriptsPhase(d3, src.transcriptFiles, src.transcriptsDir, src.today).db;
  }

  /** The reminders phase writes only `limitless_reminders` (and consumes faults). */
  lemma RemindersOnlyReminders(d: Db, src: Sources)
    ensures var d1 := RemindersPhase(d, src.reminders).db;
      d1.decisions == d.decisions && d1.tasks == d.tasks && d1.transcripts == d.transcripts &&
      (src.reminders.None? ==> d1.reminders == d.reminders)
  {
    if src.reminders.Some? {
      InsertBatchesOutcome(d, Batches(NewReminders(src)));
    }
  }

  // ----- The importer against a mutable store -----

  class LimitlessStore {
    var reminders: seq<ReminderRow>
    var decisions: seq<Decision>
    var tasks: seq<Task>
    var transcripts: seq<TranscriptRow>
    var faults: seq<bool>

    function State(): Db
      reads this
    {
      Db(reminders, decisions, tasks, transcripts, faults)
    }

    constructor (db: Db)
      ensures State() == db
    {
      reminders, decisions, tasks, transcripts, faults := db.reminders, db.decisions, db.tasks, db.transcripts, db.faults;
    }

    // One `insert(rows)` each: all of `rows` on success, nothing on error.

    method InsertReminders(rows: seq<ReminderRow>) returns (ok: bool)
      modifies this
      ensures ok == !NextFails(old(faults)) && State() == AddReminders(old(State()), rows)
    {
      ok := !NextFails(faults);
      if ok { reminders := reminders + rows; }
      faults := Consume(faults);
    }

    method InsertDecisions(rows: seq<Decision>) returns (ok: bool)
      modifies this
      ensures ok == !NextFails(old(faults)) && State() == AddDecisions(old(State()), rows)
    {
      ok := !NextFails(faults);
      if ok { decisions := decisions + rows; }
      faults := Consume(faults);
    }

    method InsertTasks(rows: seq<Task>) returns (ok: bool)
      modifies this
      ensures ok == !NextFails(old(faults)) && State() == AddTasks(old(State()), rows)
    {
      ok := !NextFails(faults);
      if ok { tasks := tasks + rows; }
      faults := Consume(faults);
    }

    method InsertTranscripts(rows: seq<TranscriptRow>) returns (ok: bool)
      modifies this
      ensures ok == !NextFails(old(faults)) && State() == AddTranscripts(old(State()), rows)
    {
      ok := !NextFails(faults);
      if ok { transcripts := transcripts + rows; }
      faults := Consume(faults);
    }
  }

  /** `importReminders`: the `for (i = 0; i < length; i += 100)` loop over the transformed rows. */
  method ImportReminders(store: LimitlessStore, source: Option<seq<Reminder>>) returns (imported: nat, log: seq<BatchLog>)
    modifies store
    ensures ImportRun(store.State(), imported, log) == RemindersPhase(old(store.State()), source)
  {
    if source.None? {
      return 0, [];
    }
    var rows := TransformReminders(source.value);
    imported, log := InsertInBatches(store, rows);
  }

  /** The batching loop itself, over rows already transformed. */
  method InsertInBatches(store: LimitlessStore, rows: seq<ReminderRow>) returns (imported: nat, log: seq<BatchLog>)
    modifies store
    ensures ImportRun(store.State(), imported, log) == InsertBatches(old(store.State()), Batches(rows))
  {
    ghost var db0 := store.State();
    ghost var done: seq<seq<ReminderRow>> := [];
    var i: nat := 0;
    imported, log := 0, [];
    while i < |rows|
      invariant i == BatchSize * |done|
      invariant Batches(rows) == done + BatchesFrom(rows, i)
      invariant ImportRun(store.State(), imported, log) == InsertBatches(db0, done)
      decreases |rows| - i
    {
      var batch := rows[i..Min(i + BatchSize, |rows|)];
      NextBatch(rows, i, done);
      imported, log := ImportBatch(store, db0, done, batch, i / BatchSize + 1, imported, log);
      done := done + [batch];
      i := i + BatchSize;
    }
    assert BatchesFrom(rows, i) == [];
    assert Batches(rows) == done;
  }

  /** One round of the loop takes the next batch and moves `i` to the start of the one after it. */
  lemma NextBatch<T>(rows: seq<T>, i: nat, done: seq<seq<T>>)
    requires i < |rows| && i == BatchSize * |done|
    requires Batches(rows) == done + BatchesFrom(rows, i)
    ensures var batch := rows[i..Min(i + BatchSize, |rows|)];
      i / BatchSize + 1 == |done| + 1 && i + BatchSize == BatchSize * (|done| + 1) &&
      Batches(rows) == (done + [batch]) + BatchesFrom(rows, i + BatchSize)
  {
    var batch := rows[i..Min(i + BatchSize, |rows|)];
    assert BatchesFrom(rows, i) == [batch] + BatchesFrom(rows, i + BatchSize);
    assert done + ([batch] + BatchesFrom(rows, i + BatchSize)) == (done + [batch]) + BatchesFrom(rows, i + BatchSize);
  }

  /** One more batch: its insert runs against the store the batches before it left. */
  lemma InsertBatchesSnoc(db: Db, done: seq<seq<ReminderRow>>, b: seq<ReminderRow>)
    ensures var p := InsertBatches(db, done); var ok := !NextFails(p.db.faults);
      InsertBatches(db, done + [b]) ==
      ImportRun(AddReminders(p.db, b), p.imported + (if ok then |b| else 0), p.log + [BatchLog(|done| + 1, |b|, ok)])
  {
    assert (done + [b])[..|done|] == done;
  }

  /**
   * One round of that loop: insert one batch, count its rows when the insert succeeds,
   * and log it; the rounds so far, `done`, become `done + [batch]`.
   */
  method ImportBatch(store: LimitlessStore, ghost db0: Db, ghost done: seq<seq<ReminderRow>>, batch: seq<ReminderRow>,
                     number: nat, imported0: nat, log0: seq<BatchLog>)
    returns (imported: nat, log: seq<BatchLog>)
    requires number == |done| + 1
    requires ImportRun(store.State(), imported0, log0) == InsertBatches(db0, done)
    modifies store
    ensures ImportRun(store.State(), imported, log) == InsertBatches(db0, done + [batch])
  {
    InsertBatchesSnoc(db0, done, batch);
    var ok := store.InsertReminders(batch);
    imported := imported0 + (if ok then |batch| else 0);
    log := log0 + [BatchLog(number, |batch|, ok)];
  }

  /** `importDecisions`. */
  method ImportDecisions(store: LimitlessStore, source: Option<seq<Decision>>) returns (outcome: PhaseOutcome)
    modifies store
    ensures Phase(store.State(), outcome) == DecisionsPhase(old(store.State()), source)
  {
    if source.None? {
      return NoSource;
    }
    var data := source.value;
    if |data| == 0 {
      return NothingToImport;
    }
    var ok := store.InsertDecisions(data);
    outcome := if ok then ImportedAll(|data|) else InsertFailed;
  }

  /** `importTasks`. */
  method ImportTasks(store: LimitlessStore, source: Option<seq<Task>>) returns (outcome: PhaseOutcome)
    modifies store
    ensures Phase(store.State(), outcome) == TasksPhase(old(store.State()), source)
  {
    if source.None? {
      return NoSource;
    }
    var data := source.value;
    if |data| == 0 {
      return NothingToImport;
    }
    var ok := store.InsertTasks(data);
    outcome := if ok then ImportedAll(|data|) else InsertFailed;
  }

  /** `importTranscriptMetadata`. */
  method ImportTranscriptMetadata(store: LimitlessStore, files: Option<seq<SourceFile>>, dir: string, today: string)
    returns (outcome: PhaseOutcome)
    modifies store
    ensures Phase(store.State(), outcome) == TranscriptsPhase(old(store.State()), files, dir, today)
  {
    if files.None? {
      return NoSource;
    }
    var transcripts := Transcripts(dir, files.value, today);
    if |transcripts| > 0 {
      var ok := store.InsertTranscripts(transcripts);
      outcome := if ok then ImportedAll(|transcripts|) else InsertFailed;
    } else {
      outcome := NothingToImport;
    }
  }

  /** `main`: the four phases in order against one store. */
  method ImportLimitless(store: LimitlessStore, src: Sources)
    modifies store
    ensures store.State() == ImportAll(old(store.State()), src)
  {
    var imported, log := ImportReminders(store, src.reminders);
    var decisions := ImportDecisions(store, src.decisions);
    var tasks := ImportTasks(store, src.tasks);
    var transcripts := ImportTranscriptMetadata(store, src.transcriptFiles, src.transcriptsDir, src.today);
  }
}
