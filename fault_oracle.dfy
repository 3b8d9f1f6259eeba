/**
 * The outcome of the store's inserts, which the model cannot observe: a script `faults`
 * of the coming inserts, each insert consuming the head and failing exactly when it is
 * `true`. Once the script is used up every insert succeeds, so `[]` means "all succeed".
 */
module FaultOracle {

  /** The next insert fails. */
  predicate NextFails(faults: seq<bool>) { faults != [] && faults[0] }

  /** The script after one insert. */
  function Consume(faults: seq<bool>): seq<bool> { if faults == [] then [] else faults[1..] }

  /** The script after `n` inserts. */
  function Drop(faults: seq<bool>, n: nat): seq<bool> { if n >= |faults| then [] else faults[n..] }

  /** Insert number `k` (from 0) of a script fails. */
  predicate InsertFails(faults: seq<bool>, k: nat) { k < |faults| && faults[k] }

  lemma DropStep(faults: seq<bool>, n: nat)
    ensures NextFails(Drop(faults, n)) == InsertFails(faults, n)
    ensures Consume(Drop(faults, n)) == Drop(faults, n + 1)
  {
  }

  /** How many of the next `n` inserts fail. */
  function FailCount(faults: seq<bool>, n: nat): (c: nat)
    ensures c <= n
    ensures faults == [] ==> c == 0
  {
    if n == 0 then 0 else FailCount(faults, n - 1) + (if InsertFails(faults, n - 1) then 1 else 0)
  }

  /** `n` inserts and then `m` more use up the script as `n + m` inserts do. */
  lemma DropDrop(faults: seq<bool>, n: nat, m: nat)
    ensures Drop(Drop(faults, n), m) == Drop(faults, n + m)
  {
  }

  /** Insert `k` after `n` inserts is insert `n + k` of the whole script. */
  lemma InsertFailsDrop(faults: seq<bool>, n: nat, k: nat)
    ensures InsertFails(Drop(faults, n), k) == InsertFails(faults, n + k)
  {
    if n < |faults| && k < |faults| - n {
      assert Drop(faults, n)[k] == faults[n + k];
    }
  }

  /** The failures among `n + m` inserts are those among the first `n` and those among the `m` after them. */
  lemma {:induction false} FailCountSplit(faults: seq<bool>, n: nat, m: nat)
    ensures FailCount(faults, n + m) == FailCount(faults, n) + FailCount(Drop(faults, n), m)
    decreases m
  {
    if m > 0 {
      FailCountSplit(faults, n, m - 1);
      InsertFailsDrop(faults, n, m - 1);
    }
  }

  /** One insert uses up one entry of the script and fails as `NextFails` says. */
  lemma ConsumeIsDrop(faults: seq<bool>)
    ensures Consume(faults) == Drop(faults, 1)
    ensures FailCount(faults, 1) == (if NextFails(faults) then 1 else 0)
  {
  }
}
