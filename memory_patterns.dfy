/**
 * The fixed classification rules of the journal sync (scripts/sync-memory.ts): each regular
 * expression of the `patterns` table, the hour-count extraction and the daily-file-name
 * filter, written as predicates. The category rules are case-insensitive; they are stated
 * over an already lower-cased string `s` and applied to `Lower(line)` by the `...Test`
 * functions at the end.
 */
module MemoryPatterns {
  import opened Text
  import opened Wrappers

  /** A regular-expression `.*` can span `s[i..j]`: it holds no line terminator. */
  predicate SameLine(s: string, i: int, j: int)
    requires 0 <= i <= j <= |s|
  {
    forall k :: i <= k < j ==> !IsLineTerminator(s[k])
  }

  /** `(?:a1|a2|...).*(?:b1|b2|...)`: a word of `firsts`, later on the same line a word of `seconds`. */
  predicate FollowedBy(s: string, firsts: seq<string>, seconds: seq<string>) {
    exists a, b, i, j | a in firsts && b in seconds && 0 <= i <= j <= |s| && i + |a| <= j ::
      WordAt(s, a, i) && WordAt(s, b, j) && SameLine(s, i + |a|, j)
  }

  /** `s[k..m]` is white space only: what `\s+` (when `k < m`) or `\s*` matches. */
  predicate AllSpace(s: string, k: int, m: int)
    requires 0 <= k <= m <= |s|
  {
    forall j :: k <= j < m ==> IsJsSpace(s[j])
  }

  /**
   * `baileyWalk`: `(?:walked?|walk)\s+bailey|bailey.*(?:walk|walked)`. The first alternative
   * reads "walke" with an optional "d", so before the white space it accepts "walke", "walked"
   * and (from `walk`) "walk".
   */
  predicate BaileyWalk(s: string) {
    (exists i, k, m | 0 <= i <= k < m <= |s| ::
      ((k == i + 4 && WordAt(s, "walk", i)) || (k == i + 5 && WordAt(s, "walke", i)) ||
       (k == i + 6 && WordAt(s, "walked", i))) &&
      AllSpace(s, k, m) && WordAt(s, "bailey", m))
    || FollowedBy(s, ["bailey"], ["walk", "walked"])
  }

  /** "walke", one space and "bailey" at `i` is a match of the first alternative of `baileyWalk`. */
  lemma WalkeBailey(s: string, i: nat)
    requires i + 12 <= |s| && s[i..i + 12] == "walke bailey"
    ensures BaileyWalk(s)
  {
    assert s[i..i + 5] == s[i..i + 12][..5];
    assert s[i + 6..i + 12] == s[i..i + 12][6..];
    assert WordAt(s, "walke", i) && AllSpace(s, i + 5, i + 6) && WordAt(s, "bailey", i + 6);
  }

  const MealWords: seq<string> := ["ate", "eat", "eating", "had", "lunch", "dinner", "breakfast", "meal"]
  const MealPlaces: seq<string> := ["food", "at", "burger", "pizza", "salad", "restaurant"]

  /** `meal`: a meal word followed on the same line by a food or place word. */
  predicate Meal(s: string) {
    FollowedBy(s, MealWords, MealPlaces)
  }

  const WinWords: seq<string> := ["\U{2705}", "win", "success", "accomplished", "completed", "finished", "shipped", "deployed"]

  /** `win`: any success word or the check-mark emoji, anywhere. */
  predicate Win(s: string) {
    ContainsAny(s, WinWords)
  }

  const ChallengeWords: seq<string> := ["\U{26D4}", "\U{274C}", "stuck", "blocked", "issue", "problem", "error", "challenge", "bug", "failed"]

  /** `challenge`: any trouble word or the no-entry / cross-mark emoji, anywhere. */
  predicate Challenge(s: string) {
    ContainsAny(s, ChallengeWords)
  }

  const MoodWords: seq<string> := ["mood", "feeling", "felt"]
  const AffectWords: seq<string> := ["great", "good", "okay", "bad", "terrible", "amazing", "stressed", "happy", "sad", "anxious"]

  /** `mood`: declared by the script but never applied to a line. */
  predicate Mood(s: string) {
    FollowedBy(s, MoodWords, AffectWords)
  }

  /**
   * `\d+\s*(?:hours?|hrs?)` matches starting at `j`. Greedy `\d+` and `\s*` need no
   * backtracking here (a shorter digit run leaves a digit that neither `\s` nor `h`
   * matches), so the match uses the longest digit and space runs from `j`; the optional
   * `s` of `hours?`/`hrs?` never changes whether there is a match.
   */
  predicate HoursAt(s: string, j: int)
    requires 0 <= j <= |s|
  {
    var k := RunEnd(IsDigit, s, j);
    k > j && (var m := RunEnd(IsJsSpace, s, k); WordAt(s, "hour", m) || WordAt(s, "hr", m))
  }

  const WorkWords: seq<string> := ["worked", "working", "coding", "building", "developing", "shipped"]

  /** `workHours`: a work word followed on the same line by an hour count. */
  predicate WorkHours(s: string) {
    exists a, i, j | a in WorkWords && 0 <= i <= j <= |s| && i + |a| <= j ::
      WordAt(s, a, i) && SameLine(s, i + |a|, j) && HoursAt(s, j)
  }

  /** The least `q` in `[from, last]` with `p(q)`: how a regular-expression search tries each start in turn. */
  function FirstWhere(p: nat -> bool, from: nat, last: nat): (r: Option<nat>)
    requires from <= last
    ensures r.Some? ==> from <= r.value <= last && p(r.value)
    ensures r.Some? ==> forall q :: from <= q < r.value ==> !p(q)
    ensures r.None? ==> forall q :: from <= q <= last ==> !p(q)
    decreases last - from
  {
    if p(from) then Some(from)
    else if from == last then None
    else FirstWhere(p, from + 1, last)
  }

  /** The start of the leftmost match of `(\d+)\s*(?:hours?|hrs?)` at or after `from`. */
  function FirstHoursMatch(s: string, from: nat): (r: Option<nat>)
    requires from <= |s|
    ensures r.Some? ==> from <= r.value <= |s| && HoursAt(s, r.value)
    ensures r.Some? ==> forall q :: from <= q < r.value ==> !HoursAt(s, q)
    ensures r.None? ==> forall q :: from <= q <= |s| ==> !HoursAt(s, q)
  {
    var p := (q: nat) => q <= |s| && HoursAt(s, q);
    var r := FirstWhere(p, from, |s|);
    assert forall q :: from <= q <= |s| ==> (p(q) <==> HoursAt(s, q));
    r
  }

  /** The captured digit group of that match, read as a number (`parseFloat(hoursMatch[1])`). */
  function HoursValueAt(s: string, j: nat): nat
    requires j <= |s|
  {
    DecimalValue(s[j..RunEnd(IsDigit, s, j)])
  }

  /** A line that matches `workHours` always has an hour count: the script's extra `&& hoursMatch` never rejects one. */
  lemma WorkHoursHasHourCount(s: string)
    requires WorkHours(s)
    ensures FirstHoursMatch(s, 0).Some?
  {
    var a, i, j :| a in WorkWords && 0 <= i <= j <= |s| && i + |a| <= j &&
      WordAt(s, a, i) && SameLine(s, i + |a|, j) && HoursAt(s, j);
    assert HoursAt(s, j);
  }

  /** `^\d{4}-\d{2}-\d{2}\.md$` (no `i` flag, so `.md` is lower case). */
  predicate IsDailyFileName(f: string) {
    |f| == 13 &&
    IsDigit(f[0]) && IsDigit(f[1]) && IsDigit(f[2]) && IsDigit(f[3]) && f[4] == '-' &&
    IsDigit(f[5]) && IsDigit(f[6]) && f[7] == '-' && IsDigit(f[8]) && IsDigit(f[9]) &&
    f[10..] == ".md"
  }

  /** The date of a daily file, `file.replace('.md', '')`, is its name without the extension. */
  lemma DailyFileDate(f: string)
    requires IsDailyFileName(f)
    ensures ReplaceFirst(f, ".md", "") == f[..10]
  {
    forall j | 0 <= j < 10 ensures !WordAt(f, ".md", j) {
      assert f[j] != '.' && f[j..j + 3][0] == f[j];
    }
    assert WordAt(f, ".md", 10);
  }

  // The tests as the script applies them to a raw line (all with the `i` flag).

  predicate BaileyWalkTest(line: string) { BaileyWalk(Lower(line)) }
  predicate MealTest(line: string) { Meal(Lower(line)) }
  predicate WinTest(line: string) { Win(Lower(line)) }
  predicate ChallengeTest(line: string) { Challenge(Lower(line)) }
  predicate WorkHoursTest(line: string) { WorkHours(Lower(line)) }

  /** `line.match(/(\d+)\s*(?:hours?|hrs?)/i)`, reduced to the number it captures. */
  function HoursIn(line: string): (r: Option<nat>)
    ensures r.Some? <==> exists j | 0 <= j <= |line| :: HoursAt(Lower(line), j)
  {
    var s := Lower(line);
    match FirstHoursMatch(s, 0)
    case None => None
    case Some(j) => Some(HoursValueAt(s, j))
  }
}
