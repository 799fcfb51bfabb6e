/** Shared vocabulary: SQL NULL, statement outcomes and instants. */
module Common {

  /** A nullable column. A comparison with NULL never holds, hence `== Some(x)` in every guard. */
  datatype Option<+T> = None | Some(value: T)

  /** The outcome of a store call; an error leaves the caller's transaction to roll back. */
  datatype Result<+T> = Ok(value: T) | Err(error: string)

  /** Instants in microseconds, as `DATETIME(6)` and `UTC_TIMESTAMP(6)` have them. */
  type Instant = int

  /** `column IS NULL OR column < now`: the guard under which every lease may be taken. */
  predicate Free(until: Option<Instant>, now: Instant) {
    until.None? || until.value < now
  }

  function Lookup<K, V>(m: map<K, V>, k: K): (v: Option<V>) {
    if k in m then Some(m[k]) else None
  }

  /** Where a list of flags that starts set and ends unset is last set. */
  lemma {:induction false} LastSet(flags: seq<bool>) returns (m: nat)
    requires flags != [] && flags[0] && !flags[|flags| - 1]
    ensures m + 1 < |flags| && flags[m] && !flags[m + 1]
  {
    var last := |flags| - 1;
    if flags[last - 1] {
      m := last - 1;
    } else {
      m := LastSet(flags[..last]);
    }
  }
}
