/**
 * The data logic of the timeline view (components/Timeline.tsx): the ten record lists
 * flattened into one list of entries and sorted newest first, the type and search filter,
 * the type toggle, and the rule for date headers.
 */
module Timeline {
  import opened Seqs
  import opened Text
  import opened Wrappers

  // ----- The records shown, with the columns the timeline reads -----

  datatype WalkRecord = WalkRecord(id: string, date: string, time: string, durationMinutes: Option<nat>, notes: Option<string>)
  datatype MealRecord = MealRecord(id: string, date: string, mealType: Option<string>, description: string)
  /** A row of `wins` or of `challenges`. */
  datatype TitledRecord = TitledRecord(id: string, date: string, title: string, description: Option<string>)
  datatype MoodRecord = MoodRecord(id: string, date: string, time: string, moodScore: Option<nat>,
                                   energyLevel: Option<nat>, stressLevel: Option<nat>, notes: Option<string>)
  datatype WorkRecord = WorkRecord(id: string, date: string, hours: nat, project: Option<string>, description: Option<string>)
  datatype ReminderRecord = ReminderRecord(id: string, dueDate: Option<string>, createdAt: string, title: string,
                                           status: string, completed: bool)
  datatype DecisionRecord = DecisionRecord(id: string, date: string, decisionText: string)
  datatype TaskRecord = TaskRecord(id: string, date: string, taskText: string, priority: Option<string>, completed: bool)
  datatype ConversationRecord = ConversationRecord(id: string, date: string, timestamp: Option<string>, platform: string,
                                                   sender: Option<string>, messageText: Option<string>)

  /** The component's ten inputs. */
  datatype TimelineData = TimelineData(
    baileyWalks: seq<WalkRecord>, meals: seq<MealRecord>, wins: seq<TitledRecord>, challenges: seq<TitledRecord>,
    moodEntries: seq<MoodRecord>, workHours: seq<WorkRecord>, reminders: seq<ReminderRecord>,
    decisions: seq<DecisionRecord>, tasks: seq<TaskRecord>, conversations: seq<ConversationRecord>)

  datatype EntryType = Walk | Meal | Win | Challenge | Mood | Work | Reminder | Decision | Task | Conversation

  /** One line of the timeline. */
  datatype Entry = Entry(id: string, date: string, timestamp: Option<string>, kind: EntryType, icon: string,
                         title: string, description: Option<string>)

  // ----- JavaScript truthiness and rendering -----

  /** An optional string is truthy when present and non-empty. */
  predicate Truthy(s: Option<string>) { s.Some? && s.value != [] }

  /** `a || b` on optional strings. */
  function OrElse(a: Option<string>, b: string): (r: string)
    ensures Truthy(a) ==> r == a.value
    ensures !Truthy(a) ==> r == b
  {
    if Truthy(a) then a.value else b
  }

  /**
   * A number in a template literal. The records are rows read from the store, where an
   * absent value is a NULL column that comes back as `null`, so it renders as "null".
   */
  function Render(n: Option<nat>): string {
    match n
    case Some(v) => NatToString(v)
    case None => "null"
  }

  /** `s.charAt(0).toUpperCase() + s.slice(1)`. */
  function Capitalize(s: string): (r: string)
    ensures |r| == |s| && (s != [] ==> r[0] == UpperChar(s[0]) && r[1..] == s[1..])
  {
    if s == [] then [] else [UpperChar(s[0])] + s[1..]
  }

  const Check := " ✓"

  // ----- One entry per record -----

  function WalkEntry(w: WalkRecord): Entry {
    var minutes := match w.durationMinutes
      case Some(m) => if m == 0 then "?" else NatToString(m)
      case None => "?";
    Entry(w.id, w.date, Some(w.time), Walk, "\U{1F415}", "Bailey Walk", Some(OrElse(w.notes, minutes + " minutes")))
  }

  function MealEntry(m: MealRecord): Entry {
    Entry(m.id, m.date, None, Meal, "\U{1F37D}\U{FE0F}",
      if Truthy(m.mealType) then Capitalize(m.mealType.value) else "Meal", Some(m.description))
  }

  function WinEntry(w: TitledRecord): Entry {
    Entry(w.id, w.date, None, Win, "✅", w.title, w.description)
  }

  function ChallengeEntry(c: TitledRecord): Entry {
    Entry(c.id, c.date, None, Challenge, "⚡", c.title, c.description)
  }

  function MoodEntry(m: MoodRecord): Entry {
    Entry(m.id, m.date, Some(m.time), Mood, "\U{1F60A}", "Mood: " + Render(m.moodScore) + "/10",
      Some(OrElse(m.notes, "Energy: " + Render(m.energyLevel) + "/10, Stress: " + Render(m.stressLevel) + "/10")))
  }

  function WorkEntry(w: WorkRecord): Entry {
    Entry(w.id, w.date, None, Work, "⏰", NatToString(w.hours) + "h - " + OrElse(w.project, "Work"), w.description)
  }

  /** `reminder.due_date || reminder.created_at.split('T')[0]`. */
  function ReminderDate(r: ReminderRecord): string {
    OrElse(r.dueDate, Split(r.createdAt, 'T')[0])
  }

  function ReminderEntry(r: ReminderRecord): Entry {
    Entry(r.id, ReminderDate(r), None, Reminder, "\U{1F4CB}", r.title,
      Some("Status: " + r.status + (if r.completed then Check else "")))
  }

  function DecisionEntry(d: DecisionRecord): Entry {
    Entry(d.id, d.date, None, Decision, "\U{1F914}", "Decision", Some(d.decisionText))
  }

  function TaskEntry(t: TaskRecord): Entry {
    var priority := match t.priority case Some(p) => p case None => "null";
    Entry(t.id, t.date, None, Task, "✅", t.taskText, Some("Priority: " + priority + (if t.completed then Check else "")))
  }

  /** `conv.message_text?.substring(0, 100)`. */
  function ConversationDescription(c: ConversationRecord): Option<string> {
    match c.messageText
    case Some(text) => Some(Take(text, 100))
    case None => None
  }

  function ConversationEntry(c: ConversationRecord): Entry {
    Entry(c.id, c.date, c.timestamp, Conversation, "\U{1F4AC}", c.platform + " - " + OrElse(c.sender, "Unknown"),
      ConversationDescription(c))
  }

  /**
   * A reminder is dated by its due date when it has one, otherwise by the part of its
   * creation time before the first `T`: a prefix of `created_at` without a `T`, ended by
   * a `T` or by the end of `created_at`.
   */
  lemma ReminderDateRule(r: ReminderRecord)
    ensures Truthy(r.dueDate) ==> ReminderEntry(r).date == r.dueDate.value
    ensures !Truthy(r.dueDate) ==>
      var d := ReminderEntry(r).date;
      d == r.createdAt[..|d|] && 'T' !in d && (|d| == |r.createdAt| || r.createdAt[|d|] == 'T')
  {
    SplitHead(r.createdAt, 'T');
  }

  /** A conversation shows at most the first 100 characters of its message, and no description without one. */
  lemma ConversationDescriptionRule(c: ConversationRecord)
    ensures c.messageText.None? <==> ConversationEntry(c).description.None?
    ensures c.messageText.Some? ==>
      var d := ConversationEntry(c).description.value;
      |d| == Min(100, |c.messageText.value|) && d == c.messageText.value[..|d|]
  {
  }

  // ----- allEntries -----

  /** The entries in push order: walks, meals, wins, challenges, moods, work, reminders, decisions, tasks, conversations. */
  function MergedEntries(data: TimelineData): (entries: seq<Entry>)
    ensures |entries| == RecordCount(data)
  {
    Map(WalkEntry, data.baileyWalks) + Map(MealEntry, data.meals) + Map(WinEntry, data.wins) +
    Map(ChallengeEntry, data.challenges) + Map(MoodEntry, data.moodEntries) + Map(WorkEntry, data.workHours) +
    Map(ReminderEntry, data.reminders) + Map(DecisionEntry, data.decisions) + Map(TaskEntry, data.tasks) +
    Map(ConversationEntry, data.conversations)
  }

  function RecordCount(data: TimelineData): nat {
    |data.baileyWalks| + |data.meals| + |data.wins| + |data.challenges| + |data.moodEntries| +
    |data.workHours| + |data.reminders| + |data.decisions| + |data.tasks| + |data.conversations|
  }

  /** `items.forEach(x => entries.push(f(x)))`. */
  method PushEach<T>(entries: seq<Entry>, items: seq<T>, f: T -> Entry) returns (r: seq<Entry>)
    ensures r == entries + Map(f, items)
  {
    r := entries;
    for i := 0 to |items|
      invariant r == entries + Map(f, items[..i])
    {
      assert items[..i + 1] == items[..i] + [items[i]];
      MapAppend(f, items[..i], [items[i]]);
      r := r + [f(items[i])];
    }
    assert items[..|items|] == items;
  }

  /** The pushes of `allEntries`, before the sort. */
  method PushAll(data: TimelineData) returns (entries: seq<Entry>)
    ensures entries == MergedEntries(data)
  {
    var e1 := PushEach([], data.baileyWalks, WalkEntry);
    assert e1 == Map(WalkEntry, data.baileyWalks);
    var e2 := PushEach(e1, data.meals, MealEntry);
    var e3 := PushEach(e2, data.wins, WinEntry);
    var e4 := PushEach(e3, data.challenges, ChallengeEntry);
    var e5 := PushEach(e4, data.moodEntries, MoodEntry);
    var e6 := PushEach(e5, data.workHours, WorkEntry);
    var e7 := PushEach(e6, data.reminders, ReminderEntry);
    var e8 := PushEach(e7, data.decisions, DecisionEntry);
    var e9 := PushEach(e8, data.tasks, TaskEntry);
    entries := PushEach(e9, data.conversations, ConversationEntry);
  }

  /** `a.timestamp || a.date`: the text the sort turns into a time. */
  function SortText(e: Entry): string { OrElse(e.timestamp, e.date) }

  /**
   * The sort order: `b` may follow `a` when `a` is at least as recent. `time` stands for
   * `new Date(text).getTime()`.
   */
  function NewerEntry(time: string -> int): (Entry, Entry) -> bool {
    (a: Entry, b: Entry) => time(SortText(a)) >= time(SortText(b))
  }

  function NewestEntriesFirst(entries: seq<Entry>, time: string -> int): seq<Entry> {
    InsertionSort(NewerEntry(time), entries)
  }

  /** `allEntries`. */
  method AllEntries(data: TimelineData, time: string -> int) returns (entries: seq<Entry>)
    ensures entries == NewestEntriesFirst(MergedEntries(data), time)
  {
    entries := PushAll(data);
    entries := NewestEntriesFirst(entries, time);
  }

  /** The sorted list holds exactly the pushed entries, most recent first by timestamp, else date. */
  lemma AllEntriesSorted(data: TimelineData, time: string -> int)
    ensures var s := NewestEntriesFirst(MergedEntries(data), time);
      multiset(s) == multiset(MergedEntries(data)) && |s| == RecordCount(data) &&
      forall i :: 0 < i < |s| ==> time(SortText(s[i - 1])) >= time(SortText(s[i]))
  {
    InsertionSortSorted(NewerEntry(time), MergedEntries(data));
  }

  // ----- filteredEntries -----

  /** The type and search test of one entry. */
  predicate Shown(e: Entry, selected: set<EntryType>, query: string) {
    e.kind in selected &&
    (query == [] ||
     Contains(Lower(e.title), Lower(query)) ||
     (e.description.Some? && Contains(Lower(e.description.value), Lower(query))))
  }

  /** `filteredEntries`. */
  function FilteredEntries(entries: seq<Entry>, selected: set<EntryType>, query: string): (r: seq<Entry>)
    ensures IsSubsequence(r, entries)
    ensures forall e :: e in r ==> e.kind in selected
    ensures forall e :: e in r <==> e in entries && Shown(e, selected, query)
    ensures forall e :: multiset(r)[e] == if Shown(e, selected, query) then multiset(entries)[e] else 0
  {
    var keep := (e: Entry) => Shown(e, selected, query);
    FilterIsSubsequence(keep, entries);
    FilterMultiset(keep, entries);
    Filter(keep, entries)
  }

  /**
   * With an empty query every entry of a selected type stays; with a non-empty one an
   * entry stays exactly when its lower-cased title or description contains the
   * lower-cased query.
   */
  lemma FilterQueryRule(entries: seq<Entry>, selected: set<EntryType>, query: string, e: Entry)
    requires e in entries && e.kind in selected
    ensures query == [] ==> e in FilteredEntries(entries, selected, query)
    ensures query != [] ==>
      (e in FilteredEntries(entries, selected, query) <==>
        Contains(Lower(e.title), Lower(query)) ||
        (e.description.Some? && Contains(Lower(e.description.value), Lower(query))))
  {
  }

  const AllTypes: set<EntryType> := {Walk, Meal, Win, Challenge, Mood, Work, Reminder, Decision, Task, Conversation}

  /** The initial view, every type selected and no query, shows the whole timeline. */
  lemma InitialViewShowsAll(entries: seq<Entry>)
    ensures FilteredEntries(entries, AllTypes, "") == entries
  {
    var keep := (e: Entry) => Shown(e, AllTypes, "");
    assert forall i :: 0 <= i < |entries| ==> keep(entries[i]) by {
      forall i | 0 <= i < |entries| ensures keep(entries[i]) {
        assert entries[i].kind in AllTypes by {
          match entries[i].kind
          case Walk => case Meal => case Win => case Challenge => case Mood =>
          case Work => case Reminder => case Decision => case Task => case Conversation =>
        }
      }
    }
    FilterAll(keep, entries);
  }

  // ----- toggleType -----

  /** `toggleType`: a copy of the selection with `t` removed if present, added if not. */
  function ToggleType(selected: set<EntryType>, t: EntryType): (r: set<EntryType>)
    ensures t in r <==> t !in selected
    ensures forall u :: u != t ==> (u in r <==> u in selected)
  {
    if t in selected then selected - {t} else selected + {t}
  }

  /** Toggling a type twice restores the selection. */
  lemma ToggleTwice(selected: set<EntryType>, t: EntryType)
    ensures ToggleType(ToggleType(selected, t), t) == selected
  {
  }

  // ----- Date headers -----

  /** A date header precedes entry `i` when it is the first or its date differs from the previous entry's. */
  predicate ShowDate(entries: seq<Entry>, i: nat)
    requires i < |entries|
  {
    i == 0 || entries[i].date != entries[i - 1].date
  }

  /**
   * The header an entry is listed under: the last header at or before it. Every entry from
   * that header on to it has its date, so each header labels a run of one date.
   */
  function HeaderOf(entries: seq<Entry>, i: nat): (h: nat)
    requires i < |entries|
    ensures h <= i && ShowDate(entries, h)
    ensures forall k :: h <= k <= i ==> entries[k].date == entries[i].date
    ensures forall k :: h < k <= i ==> !ShowDate(entries, k)
  {
    if ShowDate(entries, i) then i else HeaderOf(entries, i - 1)
  }
}
