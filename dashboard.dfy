/**
 * The two pieces of data logic of the dashboard page (app/page.tsx): the walk streak and
 * the date-window filter. Dates are day numbers, times are time numbers, and "now" is a
 * parameter.
 */
module Dashboard {
  import opened Seqs

  /** No element occurs twice. */
  predicate NoDup<T(==)>(s: seq<T>) {
    forall i, j :: 0 <= i < j < |s| ==> s[i] != s[j]
  }

  /** `[...new Set(s)]`: the first occurrence of each element, in order. */
  function Dedup<T(==,!new)>(s: seq<T>): (d: seq<T>)
    ensures forall x :: x in d <==> x in s
    ensures NoDup(d)
    ensures |d| <= |s|
    decreases |s|
  {
    if s == [] then []
    else
      var d := Dedup(s[..|s| - 1]);
      var x := s[|s| - 1];
      assert forall y :: y in s <==> y in s[..|s| - 1] || y == x by {
        assert s == s[..|s| - 1] + [x];
      }
      if x in d then d else d + [x]
  }

  lemma {:induction false} NoDupCounts<T>(s: seq<T>)
    requires NoDup(s)
    ensures forall x :: multiset(s)[x] <= 1
    decreases |s|
  {
    if s != [] {
      var init, last := s[..|s| - 1], s[|s| - 1];
      NoDupCounts(init);
      assert s == init + [last];
      assert last !in init;
    }
  }

  lemma CountsNoDup<T>(s: seq<T>)
    requires forall x :: multiset(s)[x] <= 1
    ensures NoDup(s)
  {
    forall i, j | 0 <= i < j < |s|
      ensures s[i] != s[j]
    {
      if s[i] == s[j] {
        TwoOccurrences(s, i, j);
        assert false;
      }
    }
  }

  lemma TwoOccurrences<T>(s: seq<T>, i: nat, j: nat)
    requires i < j < |s| && s[i] == s[j]
    ensures multiset(s)[s[i]] >= 2
  {
    var a, b := s[..j], s[j + 1..];
    assert s == a + [s[j]] + b;
    assert s[i] in a;
    assert multiset(a)[s[i]] >= 1;
  }

  /** A duplicate-free sequence has as many elements as the set of its elements. */
  lemma {:induction false} NoDupCard<T>(s: seq<T>)
    requires NoDup(s)
    ensures |set x | x in s| == |s|
    decreases |s|
  {
    if s != [] {
      var init, last := s[..|s| - 1], s[|s| - 1];
      NoDupCard(init);
      assert (set x | x in s) == (set x | x in init) + {last} by {
        assert s == init + [last];
      }
      assert last !in init;
    }
  }

  // ----- calculateStreak -----

  function Newer(a: int, b: int): bool { a >= b }

  /** The distinct dates, newest first (the `sort` with `b - a`). */
  function NewestFirst(dates: seq<int>): seq<int> {
    InsertionSort(Newer, Dedup(dates))
  }

  /** The dates visited by the loop are the distinct dates, strictly newest first. */
  lemma NewestFirstOrder(dates: seq<int>)
    ensures var s := NewestFirst(dates);
      (forall x :: x in s <==> x in dates) &&
      (forall i :: 0 < i < |s| ==> s[i - 1] > s[i]) &&
      |s| == |set x | x in dates|
  {
    var d := Dedup(dates);
    var s := NewestFirst(dates);
    InsertionSortSorted(Newer, d);
    MultisetSameElements(s, d);
    NoDupCounts(d);
    CountsNoDup(s);
    NoDupCard(s);
    assert (set x | x in s) == (set x | x in dates);
  }

  /**
   * Which gap the loop asks of the date visited at position `k > 0`: the source compares
   * the gap to the previously accepted date with `streak`, which is `k` there; the
   * corrected rule asks for one day.
   */
  datatype GapRule = GapIsStreak | GapIsOneDay

  function RequiredGap(rule: GapRule, k: nat): int {
    match rule
    case GapIsStreak => k
    case GapIsOneDay => 1
  }

  /**
   * Whether the loop accepts `sorted[k]` after accepting every date before it: the
   * newest date when it is at most one day before today (a future date included), a later
   * one when it lies the required gap before the date accepted just before it.
   */
  predicate Accepts(rule: GapRule, sorted: seq<int>, today: int, k: nat)
    requires k < |sorted|
  {
    if k == 0 then today - sorted[0] <= 1 else sorted[k - 1] - sorted[k] == RequiredGap(rule, k)
  }

  /** The end of the run of accepted dates from position `k` on. */
  function AcceptedFrom(rule: GapRule, sorted: seq<int>, today: int, k: nat): nat
    requires k <= |sorted|
    decreases |sorted| - k
  {
    if k < |sorted| && Accepts(rule, sorted, today, k) then AcceptedFrom(rule, sorted, today, k + 1) else k
  }

  /** The streak, as a function of the dates and today. */
  function Streak(rule: GapRule, dates: seq<int>, today: int): nat {
    if dates == [] then 0 else AcceptedFrom(rule, NewestFirst(dates), today, 0)
  }

  lemma {:induction false} AcceptedFromRun(rule: GapRule, sorted: seq<int>, today: int, k: nat)
    requires k <= |sorted|
    requires forall j :: 0 <= j < k ==> Accepts(rule, sorted, today, j)
    ensures var n := AcceptedFrom(rule, sorted, today, k);
      k <= n <= |sorted| &&
      (forall j :: 0 <= j < n ==> Accepts(rule, sorted, today, j)) &&
      (n < |sorted| ==> !Accepts(rule, sorted, today, n))
    decreases |sorted| - k
  {
    if k < |sorted| && Accepts(rule, sorted, today, k) {
      AcceptedFromRun(rule, sorted, today, k + 1);
    }
  }

  /**
   * The streak is the length of the longest run of accepted dates at the head of the
   * newest-first distinct dates: each of them accepted, and the first one after them
   * rejected. It never exceeds the number of distinct dates.
   */
  lemma StreakIsAcceptedPrefix(rule: GapRule, dates: seq<int>, today: int)
    ensures var s := NewestFirst(dates);
      var n := Streak(rule, dates, today);
      n <= |s| && |s| == |set x | x in dates| &&
      (forall j :: 0 <= j < n ==> Accepts(rule, s, today, j)) &&
      (n < |s| ==> !Accepts(rule, s, today, n))
  {
    NewestFirstOrder(dates);
    if dates != [] {
      AcceptedFromRun(rule, NewestFirst(dates), today, 0);
    }
  }

  /** The streak is 0 exactly when there is no date or the newest one is older than yesterday. */
  lemma StreakZero(rule: GapRule, dates: seq<int>, today: int)
    ensures Streak(rule, dates, today) == 0 <==> dates == [] || today - NewestFirst(dates)[0] > 1
  {
    if dates != [] {
      var s := NewestFirst(dates);
      assert |s| == |Dedup(dates)|;
      assert dates[0] in Dedup(dates);
      assert Streak(rule, dates, today) == AcceptedFrom(rule, s, today, 0);
      if Accepts(rule, s, today, 0) {
        AcceptedFromRun(rule, s, today, 1);
      }
    }
  }

  /** `calculateStreak`: the loop over the newest-first distinct dates, ended by the first rejection. */
  method CalculateStreak(dates: seq<int>, today: int) returns (streak: nat)
    ensures streak == Streak(GapIsStreak, dates, today)
  {
    if |dates| == 0 {
      return 0;
    }
    var sortedDates := NewestFirst(dates);
    streak := 0;
    var currentDate := today;
    var i := 0;
    while i < |sortedDates|
      invariant i <= |sortedDates| && streak == i
      invariant currentDate == if i == 0 then today else sortedDates[i - 1]
      invariant AcceptedFrom(GapIsStreak, sortedDates, today, i) == AcceptedFrom(GapIsStreak, sortedDates, today, 0)
    {
      var date := sortedDates[i];
      var daysDiff := currentDate - date;
      if daysDiff == streak || (streak == 0 && daysDiff <= 1) {
        streak := streak + 1;
        currentDate := date;
      } else {
        break;
      }
      i := i + 1;
    }
  }

  /** Walks today, yesterday and the day before give a streak of 2: the third gap is 1, not 2. */
  lemma ThreeDailyWalksGiveTwo(today: int)
    ensures Streak(GapIsStreak, [today, today - 1, today - 2], today) == 2
  {
    var dates := [today, today - 1, today - 2];
    StreakOfDescending(GapIsStreak, dates, today);
    assert Accepts(GapIsStreak, dates, today, 0) && Accepts(GapIsStreak, dates, today, 1);
    assert !Accepts(GapIsStreak, dates, today, 2);
    assert AcceptedFrom(GapIsStreak, dates, today, 2) == 2;
    assert AcceptedFrom(GapIsStreak, dates, today, 1) == 2;
  }

  /** A walk dated in the future counts as the newest day of a streak. */
  lemma FutureWalkCounts(today: int, d: int)
    requires d > today
    ensures Streak(GapIsStreak, [d], today) == 1
  {
    NewestFirstSequence([d]);
    assert AcceptedFrom(GapIsStreak, [d], today, 1) == 1;
  }

  /** The streak of dates already strictly newest first is the run accepted from the first of them. */
  lemma StreakOfDescending(rule: GapRule, dates: seq<int>, today: int)
    requires dates != []
    requires forall i :: 0 < i < |dates| ==> dates[i - 1] > dates[i]
    ensures Streak(rule, dates, today) == AcceptedFrom(rule, dates, today, 0)
  {
    NewestFirstSequence(dates);
  }

  /** Strictly newest-first dates are visited as given. */
  lemma NewestFirstSequence(dates: seq<int>)
    requires forall i :: 0 < i < |dates| ==> dates[i - 1] > dates[i]
    ensures NewestFirst(dates) == dates
  {
    DescendingNoDup(dates);
    DedupNoDup(dates);
    SortSorted(dates);
  }

  lemma {:induction false} DescendingNoDup(s: seq<int>)
    requires forall i :: 0 < i < |s| ==> s[i - 1] > s[i]
    ensures forall i, j :: 0 <= i < j < |s| ==> s[i] > s[j]
    ensures NoDup(s)
    decreases |s|
  {
    if s != [] {
      DescendingNoDup(s[1..]);
      forall i, j | 0 <= i < j < |s|
        ensures s[i] > s[j]
      {
        if i > 0 {
          assert s[i] == s[1..][i - 1] && s[j] == s[1..][j - 1];
        } else if j > 1 {
          assert s[1] == s[1..][0] && s[j] == s[1..][j - 1];
        }
      }
    }
  }

  lemma {:induction false} DedupNoDup<T(!new)>(s: seq<T>)
    requires NoDup(s)
    ensures Dedup(s) == s
    decreases |s|
  {
    if s != [] {
      DedupNoDup(s[..|s| - 1]);
      assert s[|s| - 1] !in s[..|s| - 1];
    }
  }

  lemma SortSorted(s: seq<int>)
    requires forall i :: 0 < i < |s| ==> s[i - 1] > s[i]
    ensures InsertionSort(Newer, s) == s
  {
    InsertionSortOfSorted(Newer, s);
  }

  /** `calculateStreak` with the gap to the previously accepted date required to be one day. */
  method CalculateDailyStreak(dates: seq<int>, today: int) returns (streak: nat)
    ensures streak == Streak(GapIsOneDay, dates, today)
  {
    if |dates| == 0 {
      return 0;
    }
    var sortedDates := NewestFirst(dates);
    streak := 0;
    var currentDate := today;
    var i := 0;
    while i < |sortedDates|
      invariant i <= |sortedDates| && streak == i
      invariant currentDate == if i == 0 then today else sortedDates[i - 1]
      invariant AcceptedFrom(GapIsOneDay, sortedDates, today, i) == AcceptedFrom(GapIsOneDay, sortedDates, today, 0)
    {
      var date := sortedDates[i];
      var daysDiff := currentDate - date;
      if (streak == 0 && daysDiff <= 1) || (streak > 0 && daysDiff == 1) {
        streak := streak + 1;
        currentDate := date;
      } else {
        break;
      }
      i := i + 1;
    }
  }

  /**
   * The corrected streak counts consecutive days: walks whose distinct dates are the `n`
   * days ending on `newest`, today or yesterday (or later), in any order and with any
   * repeats, give a streak of `n`.
   */
  lemma DailyStreakCountsConsecutiveDays(dates: seq<int>, today: int, newest: int, n: nat)
    requires n >= 1 && today - newest <= 1
    requires forall d :: d in dates <==> newest - n < d <= newest
    ensures Streak(GapIsOneDay, dates, today) == n
  {
    assert newest in dates;
    var s := NewestFirst(dates);
    NewestFirstOfDays(dates, newest, n);
    forall k | 0 <= k < n
      ensures Accepts(GapIsOneDay, s, today, k)
    {
    }
    AllAcceptedReachEnd(GapIsOneDay, s, today, 0);
  }

  /** Dates whose distinct values are the `n` days ending on `newest` are visited as those days, newest first. */
  lemma NewestFirstOfDays(dates: seq<int>, newest: int, n: nat)
    requires forall d :: d in dates <==> newest - n < d <= newest
    ensures var s := NewestFirst(dates);
      |s| == n && forall i :: 0 <= i < n ==> s[i] == newest - i
  {
    var s := NewestFirst(dates);
    NewestFirstOrder(dates);
    DaysCard(dates, newest, n);
    assert |s| == n;
    if n > 0 {
      assert s[0] in dates && s[n - 1] in dates;
      forall i | 0 <= i < n
        ensures s[i] == newest - i
      {
        DescendingBelow(s, newest, i);
        DescendingAbove(s, newest - n + 1, i);
      }
    }
  }

  /** Dates whose distinct values are the `n` days ending on `newest` have `n` distinct values. */
  lemma DaysCard(dates: seq<int>, newest: int, n: nat)
    requires forall d :: d in dates <==> newest - n < d <= newest
    ensures |set x | x in dates| == n
  {
    var days := seq(n, k requires 0 <= k < n => newest - k);
    forall d ensures d in days <==> newest - n < d <= newest {
      if newest - n < d <= newest {
        assert days[newest - d] == d;
      }
    }
    assert (set x | x in dates) == (set x | x in days);
    DescendingNoDup(days);
    NoDupCard(days);
  }

  /** Each step down a strictly descending sequence loses at least one from its first element. */
  lemma {:induction false} DescendingBelow(s: seq<int>, top: int, i: nat)
    requires forall k :: 0 < k < |s| ==> s[k - 1] > s[k]
    requires i < |s| && s[0] <= top
    ensures s[i] <= top - i
    decreases i
  {
    if i > 0 {
      DescendingBelow(s, top, i - 1);
    }
  }

  /** Each step up a strictly descending sequence gains at least one over its last element. */
  lemma {:induction false} DescendingAbove(s: seq<int>, bottom: int, i: nat)
    requires forall k :: 0 < k < |s| ==> s[k - 1] > s[k]
    requires i < |s| && s[|s| - 1] >= bottom
    ensures s[i] >= bottom + (|s| - 1 - i)
    decreases |s| - i
  {
    if i < |s| - 1 {
      DescendingAbove(s, bottom, i + 1);
    }
  }

  lemma {:induction false} AllAcceptedReachEnd(rule: GapRule, sorted: seq<int>, today: int, k: nat)
    requires k <= |sorted|
    requires forall j :: k <= j < |sorted| ==> Accepts(rule, sorted, today, j)
    ensures AcceptedFrom(rule, sorted, today, k) == |sorted|
    decreases |sorted| - k
  {
    if k < |sorted| {
      AllAcceptedReachEnd(rule, sorted, today, k + 1);
    }
  }

  /** The same three daily walks give 3 under the corrected rule. */
  lemma ThreeDailyWalksGiveThree(today: int)
    ensures Streak(GapIsOneDay, [today, today - 1, today - 2], today) == 3
  {
    var dates := [today, today - 1, today - 2];
    forall d ensures d in dates <==> today - 3 < d <= today {
    }
    DailyStreakCountsConsecutiveDays(dates, today, today, 3);
  }

  // ----- filterByDate -----

  /** `items.filter(item => start <= date(item) <= end)`. */
  function FilterByDate<T(!new)>(items: seq<T>, date: T -> int, start: int, end: int): (r: seq<T>)
    ensures IsSubsequence(r, items)
    ensures forall x :: x in r <==> x in items && start <= date(x) <= end
    ensures forall x :: multiset(r)[x] == if start <= date(x) <= end then multiset(items)[x] else 0
  {
    var inWindow := (x: T) => start <= date(x) <= end;
    FilterIsSubsequence(inWindow, items);
    FilterMultiset(inWindow, items);
    Filter(inWindow, items)
  }
}
