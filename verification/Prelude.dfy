/** Small vocabulary shared by every module: options, bytes and the unsigned
    machine integers whose limits the Rust code depends on. */
module Prelude {

  datatype Option<+T> = None | Some(value: T)

  type byte = b: int | 0 <= b < 256

  const MAX_U64: nat := 0xFFFF_FFFF_FFFF_FFFF

  type u64 = n: nat | n <= MAX_U64

  /** `u64::wrapping_add(1).max(1)`: the successor used for message ids and list ranks. */
  function NextId(n: u64): (r: u64)
    ensures n < MAX_U64 ==> r == n + 1
    ensures n == MAX_U64 ==> r == 1
  {
    var wrapped := if n == MAX_U64 then 0 else n + 1;
    if wrapped < 1 then 1 else wrapped
  }

  /** Instants are counted in nanoseconds from an arbitrary origin. */
  type Instant = int

  const MILLISECOND: int := 1_000_000
  const SECOND: int := 1_000_000_000

  /** `Instant::duration_since`, which saturates at zero. */
  function Since(now: Instant, earlier: Instant): (d: int)
    ensures d >= 0
    ensures earlier <= now ==> d == now - earlier
  {
    if earlier <= now then now - earlier else 0
  }

  /** `order` lists the elements of `items`, each once: some order in which a hash table
      yields its keys. */
  ghost predicate Enumerates<T(!new)>(order: seq<T>, items: set<T>) {
    && (forall i, j | 0 <= i < j < |order| :: order[i] != order[j])
    && (forall item :: item in order <==> item in items)
  }
}
