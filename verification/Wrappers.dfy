/** What all components share: options, map lookups, and units of time. */
module Wrappers {

  // in nanoseconds
  const SECOND: nat := 1_000_000_000
  const MINUTE: nat := 60 * SECOND

  datatype Option<+T> = None | Some(value: T)

  /** The value stored under a key, if any. */
  function Get<K, V>(m: map<K, V>, k: K): Option<V> {
    if k in m then Some(m[k]) else None
  }

  /** There is always a number that is not in use. */
  lemma {:induction false} Unused(used: set<nat>) returns (n: nat)
    ensures n !in used && forall m :: m in used ==> m < n
    decreases |used|
  {
    if used == {} {
      n := 0;
    } else {
      var m :| m in used;
      var k := Unused(used - {m});
      n := if k <= m then m + 1 else k;
      assert used == used - {m} + {m};
    }
  }
}
