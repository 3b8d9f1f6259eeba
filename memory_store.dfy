/**
 * The five tables the journal sync writes (`bailey_walks`, `meals`, `wins`, `challenges`,
 * `work_hours`) with the two store operations it uses: a key lookup ended by `.single()`
 * and a one-row `insert`. The store assigns ids and timestamps; rows here carry only the
 * columns the sync writes.
 *
 * Inserts are driven by a fault oracle: `faults` scripts the outcome of the coming inserts,
 * each insert consumes its head, and an insert fails (adds nothing) exactly when that head
 * is `true`; once the script is used up every insert succeeds.
 */
module MemoryStore {
  import opened FaultOracle

  datatype WalkRow = WalkRow(date: string, notes: string)
  datatype MealRow = MealRow(date: string, description: string)
  /** A row of `wins` or of `challenges`. */
  datatype TitledRow = TitledRow(date: string, title: string, description: string)
  datatype WorkRow = WorkRow(date: string, hours: nat, description: string)

  // The columns each lookup of the sync compares (`.eq(...)` filters).
  function WalkKey(r: WalkRow): string { r.date }
  function MealKey(r: MealRow): (string, string) { (r.date, r.description) }
  function TitleKey(r: TitledRow): (string, string) { (r.date, r.title) }
  function WorkKey(r: WorkRow): (string, nat) { (r.date, r.hours) }

  /** The number of rows whose key is `k`. */
  function Count<R, K(==)>(rows: seq<R>, key: R -> K, k: K): nat
    decreases |rows|
  {
    if rows == [] then 0
    else Count(rows[..|rows| - 1], key, k) + (if key(rows[|rows| - 1]) == k then 1 else 0)
  }

  lemma CountSnoc<R, K>(rows: seq<R>, key: R -> K, k: K, r: R)
    ensures Count(rows + [r], key, k) == Count(rows, key, k) + (if key(r) == k then 1 else 0)
  {
    assert (rows + [r])[..|rows|] == rows;
  }

  /** Appending rows never lowers a count. */
  lemma {:induction false} CountGrows<R, K>(a: seq<R>, b: seq<R>, key: R -> K, k: K)
    ensures Count(a, key, k) <= Count(a + b, key, k)
    decreases |b|
  {
    if b != [] {
      var b' := b[..|b| - 1];
      CountGrows(a, b', key, k);
      assert a + b == (a + b') + [b[|b| - 1]];
      CountSnoc(a + b', key, k, b[|b| - 1]);
    } else {
      assert a + b == a;
    }
  }

  /** No key occurs twice. */
  ghost predicate AtMostOne<R, K(!new)>(rows: seq<R>, key: R -> K) {
    forall k :: Count(rows, key, k) <= 1
  }

  datatype Tables = Tables(
    walks: seq<WalkRow>, meals: seq<MealRow>, wins: seq<TitledRow>,
    challenges: seq<TitledRow>, workHours: seq<WorkRow>, faults: seq<bool>)

  /** Every table holds at most one row per key. */
  ghost predicate Unique(t: Tables) {
    AtMostOne(t.walks, WalkKey) && AtMostOne(t.meals, MealKey) && AtMostOne(t.wins, TitleKey) &&
    AtMostOne(t.challenges, TitleKey) && AtMostOne(t.workHours, WorkKey)
  }

  /** Every table of `t` is a prefix of the same table of `u`. */
  predicate Grows(t: Tables, u: Tables) {
    t.walks <= u.walks && t.meals <= u.meals && t.wins <= u.wins &&
    t.challenges <= u.challenges && t.workHours <= u.workHours
  }

  // One insert into each table, as a change of the store's contents.

  function AddWalk(t: Tables, r: WalkRow): Tables {
    t.(walks := if NextFails(t.faults) then t.walks else t.walks + [r], faults := Consume(t.faults))
  }

  function AddMeal(t: Tables, r: MealRow): Tables {
    t.(meals := if NextFails(t.faults) then t.meals else t.meals + [r], faults := Consume(t.faults))
  }

  function AddWin(t: Tables, r: TitledRow): Tables {
    t.(wins := if NextFails(t.faults) then t.wins else t.wins + [r], faults := Consume(t.faults))
  }

  function AddChallenge(t: Tables, r: TitledRow): Tables {
    t.(challenges := if NextFails(t.faults) then t.challenges else t.challenges + [r], faults := Consume(t.faults))
  }

  function AddWork(t: Tables, r: WorkRow): Tables {
    t.(workHours := if NextFails(t.faults) then t.workHours else t.workHours + [r], faults := Consume(t.faults))
  }

  /**
   * Count the rows of `rows` whose key is `k`, scanning the table. The lookups below
   * use it to answer a `.select('id').eq(...).single()` query.
   */
  method CountMatching<R, K(==)>(rows: seq<R>, key: R -> K, k: K) returns (n: nat)
    ensures n == Count(rows, key, k)
  {
    n := 0;
    for i := 0 to |rows|
      invariant n == Count(rows[..i], key, k)
    {
      assert rows[..i + 1] == rows[..i] + [rows[i]];
      CountSnoc(rows[..i], key, k, rows[i]);
      if key(rows[i]) == k {
        n := n + 1;
      }
    }
    assert rows[..|rows|] == rows;
  }

  /** The remote store, as the sync sees it. */
  class Store {
    var walks: seq<WalkRow>
    var meals: seq<MealRow>
    var wins: seq<TitledRow>
    var challenges: seq<TitledRow>
    var workHours: seq<WorkRow>
    var faults: seq<bool>

    function State(): Tables
      reads this
    {
      Tables(walks, meals, wins, challenges, workHours, faults)
    }

    constructor (t: Tables)
      ensures State() == t
    {
      walks, meals, wins, challenges, workHours, faults :=
        t.walks, t.meals, t.wins, t.challenges, t.workHours, t.faults;
    }

    // `.single()` yields a row only when exactly one row matches; for none, and for
    // several, it yields no data and the sync treats the key as absent.

    method FindWalk(date: string) returns (found: bool)
      ensures found <==> Count(walks, WalkKey, date) == 1
    {
      var n := CountMatching(walks, WalkKey, date);
      found := n == 1;
    }

    method FindMeal(date: string, description: string) returns (found: bool)
      ensures found <==> Count(meals, MealKey, (date, description)) == 1
    {
      var n := CountMatching(meals, MealKey, (date, description));
      found := n == 1;
    }

    method FindWin(date: string, title: string) returns (found: bool)
      ensures found <==> Count(wins, TitleKey, (date, title)) == 1
    {
      var n := CountMatching(wins, TitleKey, (date, title));
      found := n == 1;
    }

    method FindChallenge(date: string, title: string) returns (found: bool)
      ensures found <==> Count(challenges, TitleKey, (date, title)) == 1
    {
      var n := CountMatching(challenges, TitleKey, (date, title));
      found := n == 1;
    }

    method FindWork(date: string, hours: nat) returns (found: bool)
      ensures found <==> Count(workHours, WorkKey, (date, hours)) == 1
    {
      var n := CountMatching(workHours, WorkKey, (date, hours));
      found := n == 1;
    }

    // Inserts; the sync never looks at their result.

    method InsertWalk(r: WalkRow)
      modifies this
      ensures State() == AddWalk(old(State()), r)
    {
      if !NextFails(faults) { walks := walks + [r]; }
      faults := Consume(faults);
    }

    method InsertMeal(r: MealRow)
      modifies this
      ensures State() == AddMeal(old(State()), r)
    {
      if !NextFails(faults) { meals := meals + [r]; }
      faults := Consume(faults);
    }

    method InsertWin(r: TitledRow)
      modifies this
      ensures State() == AddWin(old(State()), r)
    {
      if !NextFails(faults) { wins := wins + [r]; }
      faults := Consume(faults);
    }

    method InsertChallenge(r: TitledRow)
      modifies this
      ensures State() == AddChallenge(old(State()), r)
    {
      if !NextFails(faults) { challenges := challenges + [r]; }
      faults := Consume(faults);
    }

    method InsertWork(r: WorkRow)
      modifies this
      ensures State() == AddWork(old(State()), r)
    {
      if !NextFails(faults) { workHours := workHours + [r]; }
      faults := Consume(faults);
    }
  }
}
