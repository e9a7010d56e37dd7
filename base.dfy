/** Shared vocabulary of the parking model: timestamps, optional values and
    duplicate-free sequences. */
module Base {

  /** A point in time, in whole seconds since an arbitrary epoch. The source reads
      the wall clock; here every caller supplies the instant explicitly. */
  type Timestamp = int

  const SECONDS_PER_HOUR: int := 3600
  const SECONDS_PER_DAY: int := 86400

  datatype Option<+T> = None | Some(value: T)

  /** No element occurs twice. */
  predicate NoDuplicates<T(==)>(s: seq<T>)
  {
    forall i, j :: 0 <= i < j < |s| ==> s[i] != s[j]
  }
}
