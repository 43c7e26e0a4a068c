/** The token buckets of the server (src/bin/server.rs, `rate_allow`, `ip_rate_key` and the
    eviction in `cleanup_expired_rooms`), over exact reals. */
module RateLimit {
  import opened Prelude

  /** An address by its number; IPv6 addresses have 128 bits. */
  datatype Ip = IpV4(number: nat) | IpV6(number: nat)

  datatype Key = V4(number: nat) | V6Prefix64(prefix: nat)

  /** IPv4-mapped IPv6 addresses count as IPv4, other IPv6 addresses by their /64. */
  function KeyOf(ip: Ip): Key {
    match ip
    case IpV4(number) => V4(number)
    case IpV6(number) =>
      if number / 0x1_0000_0000 == 0xFFFF then V4(number % 0x1_0000_0000)
      else V6Prefix64(number / 0x1_0000_0000_0000_0000)
  }

  datatype RateClass = General | Room | Udp

  const IDLE: int := 3600 * SECOND
  const MAX_BUCKETS: nat := 10_000

  function Capacity(kind: RateClass): real {
    match kind
    case General => 20.0
    case Room => 10.0
    case Udp => 30.0
  }

  /** Tokens gained in the given time, in nanoseconds. */
  function Gain(kind: RateClass, elapsed: int): real {
    var seconds := elapsed as real / 1_000_000_000.0;
    match kind
    case General => seconds * 2.0
    case Room => seconds * (10.0 / 60.0)
    case Udp => seconds * (30.0 / 60.0)
  }

  datatype Bucket = Bucket(tokens: real, updatedAt: Instant)

  datatype Slot = Slot(key: Key, kind: RateClass)

  type Buckets = map<Slot, Bucket>

  function Least(a: real, b: real): real {
    if a <= b then a else b
  }

  /** The tokens a call at this time finds. */
  function Level(buckets: Buckets, slot: Slot, now: Instant): real {
    if slot in buckets then
      Least(buckets[slot].tokens + Gain(slot.kind, Since(now, buckets[slot].updatedAt)), Capacity(slot.kind))
    else
      Capacity(slot.kind)
  }

  predicate Allows(buckets: Buckets, slot: Slot, now: Instant) {
    Level(buckets, slot, now) >= 1.0
  }

  function AfterCall(buckets: Buckets, slot: Slot, now: Instant): Buckets {
    var level := Level(buckets, slot, now);
    buckets[slot := Bucket(if level < 1.0 then level else level - 1.0, now)]
  }

  function Evicted(buckets: Buckets, now: Instant): Buckets {
    if |buckets| > MAX_BUCKETS then
      map slot | slot in buckets && Since(now, buckets[slot].updatedAt) < IDLE :: buckets[slot]
    else
      buckets
  }

  class RateLimiter {
    var buckets: Buckets

    constructor ()
      ensures buckets == map[]
    {
      buckets := map[];
    }

    method RateAllow(ip: Ip, kind: RateClass, now: Instant) returns (allowed: bool)
      modifies this
      ensures allowed == Allows(old(buckets), Slot(KeyOf(ip), kind), now)
      ensures buckets == AfterCall(old(buckets), Slot(KeyOf(ip), kind), now)
    {
      var slot := Slot(KeyOf(ip), kind);
      var capacity := Capacity(kind);
      var bucket := if slot in buckets then buckets[slot] else Bucket(capacity, now);
      bucket := bucket.(tokens := Least(bucket.tokens + Gain(kind, Since(now, bucket.updatedAt)), capacity));
      bucket := bucket.(updatedAt := now);
      if bucket.tokens < 1.0 {
        buckets := buckets[slot := bucket];
        return false;
      }
      bucket := bucket.(tokens := bucket.tokens - 1.0);
      buckets := buckets[slot := bucket];
      return true;
    }

    method Evict(now: Instant)
      modifies this
      ensures buckets == Evicted(old(buckets), now)
    {
      if |buckets| > MAX_BUCKETS {
        buckets := map slot | slot in buckets && Since(now, buckets[slot].updatedAt) < IDLE :: buckets[slot];
      }
    }
  }

  // --- Levels --------------------------------------------------------------------------

  /** Every bucket holds between nothing and its capacity and was updated in the past. */
  ghost predicate Valid(buckets: Buckets, now: Instant) {
    forall slot | slot in buckets ::
      0.0 <= buckets[slot].tokens <= Capacity(slot.kind) && buckets[slot].updatedAt <= now
  }

  lemma LevelIsBounded(buckets: Buckets, slot: Slot, now: Instant)
    requires Valid(buckets, now)
    ensures 0.0 <= Level(buckets, slot, now) <= Capacity(slot.kind)
  {
  }

  /** Waiting gains tokens at the rate of the class, at most. */
  lemma LevelRises(buckets: Buckets, slot: Slot, earlier: Instant, later: Instant)
    requires Valid(buckets, earlier) && earlier <= later
    ensures Level(buckets, slot, later) <= Level(buckets, slot, earlier) + Gain(slot.kind, later - earlier)
  {
  }

  /** An admission costs one token of its own slot; nothing else costs any. */
  lemma CallSpends(buckets: Buckets, slot: Slot, other: Slot, now: Instant, later: Instant)
    requires Valid(buckets, now) && now <= later
    ensures Valid(AfterCall(buckets, slot, now), later)
    ensures Level(AfterCall(buckets, slot, now), slot, now) ==
            Level(buckets, slot, now) - (if Allows(buckets, slot, now) then 1.0 else 0.0)
    ensures other != slot ==> Level(AfterCall(buckets, slot, now), other, later) == Level(buckets, other, later)
  {
    LevelIsBounded(buckets, slot, now);
  }

  /** An hour fills every bucket, so an evicted bucket is as good as a full one. */
  lemma EvictionKeepsLevels(buckets: Buckets, slot: Slot, now: Instant, later: Instant)
    requires Valid(buckets, now) && now <= later
    ensures Valid(Evicted(buckets, now), now)
    ensures Level(Evicted(buckets, now), slot, later) == Level(buckets, slot, later)
  {
  }

  // --- Runs ----------------------------------------------------------------------------

  datatype Op = Call(ip: Ip, kind: RateClass, now: Instant) | Evict(now: Instant) {
    predicate Asks(slot: Slot) {
      Call? && Slot(KeyOf(ip), kind) == slot
    }
  }

  function After(buckets: Buckets, ops: seq<Op>): Buckets {
    if ops == [] then
      buckets
    else
      var before := After(buckets, ops[..|ops| - 1]);
      match ops[|ops| - 1]
      case Call(ip, kind, now) => AfterCall(before, Slot(KeyOf(ip), kind), now)
      case Evict(now) => Evicted(before, now)
  }

  /** How many calls for the slot are admitted. */
  function Admissions(buckets: Buckets, ops: seq<Op>, slot: Slot): nat {
    if ops == [] then
      0
    else
      var front, last := ops[..|ops| - 1], ops[|ops| - 1];
      Admissions(buckets, front, slot) +
      (if last.Asks(slot) && Allows(After(buckets, front), slot, last.now) then 1 else 0)
  }

  ghost predicate Monotone(ops: seq<Op>) {
    forall i, j | 0 <= i < j < |ops| :: ops[i].now <= ops[j].now
  }

  lemma {:induction false} RunsStayValid(buckets: Buckets, ops: seq<Op>, start: Instant, now: Instant)
    requires Valid(buckets, start) && Monotone(ops) && start <= now
    requires forall op | op in ops :: start <= op.now <= now
    ensures Valid(After(buckets, ops), now)
  {
    if ops != [] {
      var front, last := ops[..|ops| - 1], ops[|ops| - 1];
      assert last in ops && forall op | op in front :: op in ops;
      RunsStayValid(buckets, front, start, last.now);
      match last
      case Call(ip, kind, _) =>
        var slot := Slot(KeyOf(ip), kind);
        CallSpends(After(buckets, front), slot, slot, last.now, now);
      case Evict(_) =>
        hide Level;
        EvictionKeepsLevels(After(buckets, front), Slot(V4(0), General), last.now, now);
    }
  }

  /** What was admitted and what is left came from what was there and what was gained. */
  lemma {:induction false} TokensAreConserved(buckets: Buckets, ops: seq<Op>, slot: Slot, start: Instant)
    requires Valid(buckets, start) && Monotone(ops) && ops != [] && start <= ops[0].now
    ensures
      var end := ops[|ops| - 1].now;
      && Valid(After(buckets, ops), end)
      && Admissions(buckets, ops, slot) as real + Level(After(buckets, ops), slot, end) <=
         Level(buckets, slot, start) + Gain(slot.kind, end - start)
  {
    var front, last := ops[..|ops| - 1], ops[|ops| - 1];
    var before := After(buckets, front);
    if front == [] {
      LevelRises(buckets, slot, start, last.now);
      LastOp(buckets, ops, slot);
      assert Admissions(buckets, front, slot) == 0;
    } else {
      var middle := front[|front| - 1].now;
      TokensAreConserved(buckets, front, slot, start);
      LevelRises(before, slot, middle, last.now);
      LastOp(buckets, ops, slot);
      GainAdds(slot.kind, middle - start, last.now - middle);
    }
  }

  lemma GainAdds(kind: RateClass, a: int, b: int)
    ensures Gain(kind, a) + Gain(kind, b) == Gain(kind, a + b)
  {
  }

  lemma LastOp(buckets: Buckets, ops: seq<Op>, slot: Slot)
    requires ops != [] && Valid(After(buckets, ops[..|ops| - 1]), ops[|ops| - 1].now)
    ensures
      var front, last := ops[..|ops| - 1], ops[|ops| - 1];
      && Valid(After(buckets, ops), last.now)
      && Level(After(buckets, ops), slot, last.now) ==
         Level(After(buckets, front), slot, last.now) -
         (Admissions(buckets, ops, slot) - Admissions(buckets, front, slot)) as real
  {
    hide Level;
    var front, last := ops[..|ops| - 1], ops[|ops| - 1];
    var before := After(buckets, front);
    match last
    case Call(ip, kind, now) =>
      CallSpends(before, Slot(KeyOf(ip), kind), slot, now, now);
    case Evict(now) =>
      EvictionKeepsLevels(before, slot, now, now);
  }

  /** What a slot may be admitted in a stretch of the given length, in numbers. */
  function Budget(kind: RateClass, nanoseconds: int): real {
    var seconds := nanoseconds as real / 1_000_000_000.0;
    match kind
    case General => 20.0 + 2.0 * seconds
    case Room => 10.0 + seconds / 6.0
    case Udp => 30.0 + seconds / 2.0
  }

  lemma BudgetIs(kind: RateClass, nanoseconds: int)
    ensures Budget(kind, nanoseconds) == Capacity(kind) + Gain(kind, nanoseconds)
  {
  }

  /** In any stretch of any run, whatever other callers do and however often buckets are
      evicted, a slot is admitted at most what its budget for the time between the first and
      the last call allows. */
  lemma AdmissionsAreBounded(buckets: Buckets, ops: seq<Op>, slot: Slot)
    requires ops != [] && Monotone(ops) && Valid(buckets, ops[0].now)
    ensures Admissions(buckets, ops, slot) as real <= Budget(slot.kind, ops[|ops| - 1].now - ops[0].now)
  {
    hide Capacity, Gain, Budget;
    BudgetIs(slot.kind, ops[|ops| - 1].now - ops[0].now);
    TokensAreConserved(buckets, ops, slot, ops[0].now);
    LevelIsBounded(buckets, slot, ops[0].now);
    LevelIsBounded(After(buckets, ops), slot, ops[|ops| - 1].now);
  }

  /** The same of any stretch of a run from the empty table. */
  lemma AnyStretchIsBounded(ops: seq<Op>, i: nat, j: nat, slot: Slot)
    requires Monotone(ops) && i < j <= |ops|
    ensures Admissions(After(map[], ops[..i]), ops[i..j], slot) as real <= Budget(slot.kind, ops[j - 1].now - ops[i].now)
  {
    hide Level, Valid, Admissions, After, Gain, Budget;
    var stretch := ops[i..j];
    assert stretch[0] == ops[i] && stretch[|stretch| - 1] == ops[j - 1];
    PrefixIsValid(ops, i, ops[i].now);
    AdmissionsAreBounded(After(map[], ops[..i]), stretch, slot);
  }

  lemma PrefixIsValid(ops: seq<Op>, i: nat, now: Instant)
    requires Monotone(ops) && i <= |ops| && forall k | 0 <= k < i :: ops[k].now <= now
    ensures Valid(After(map[], ops[..i]), now)
  {
    hide Level, Valid, After;
    var start := if i == 0 then now else ops[0].now;
    NothingIsValid(start);
    forall op | op in ops[..i] ensures start <= op.now <= now {
      var k :| 0 <= k < i && ops[k] == op;
      assert k == 0 || ops[0].now <= ops[k].now;
    }
    RunsStayValid(map[], ops[..i], start, now);
  }

  lemma NothingIsValid(now: Instant)
    ensures Valid(map[], now)
  {
  }

  // --- What is admitted ----------------------------------------------------------------

  /** How many calls there are for the slot. */
  function Calls(ops: seq<Op>, slot: Slot): nat {
    if ops == [] then 0 else Calls(ops[..|ops| - 1], slot) + (if ops[|ops| - 1].Asks(slot) then 1 else 0)
  }

  /** A level, later: it has risen with time, but not over the capacity. */
  lemma LevelLater(buckets: Buckets, slot: Slot, now: Instant, later: Instant)
    requires Valid(buckets, now) && now <= later
    ensures Level(buckets, slot, later) ==
            Least(Level(buckets, slot, now) + Gain(slot.kind, later - now), Capacity(slot.kind))
  {
  }

  /** A bucket remembers the last call for its slot. */
  lemma {:induction false} BucketsComeFromCalls(ops: seq<Op>, slot: Slot)
    requires slot in After(map[], ops)
    ensures exists op :: op in ops && op.Asks(slot) && op.now == After(map[], ops)[slot].updatedAt
  {
    hide Level;
    if ops != [] {
      var front, last := ops[..|ops| - 1], ops[|ops| - 1];
      assert last in ops;
      if !last.Asks(slot) {
        BucketsComeFromCalls(front, slot);
        var op :| op in front && op.Asks(slot) && op.now == After(map[], front)[slot].updatedAt;
        assert op in ops;
      }
    }
  }

  /** A slot not called for an hour, or never, is full. */
  lemma IdleIsFull(ops: seq<Op>, slot: Slot, now: Instant)
    requires Valid(After(map[], ops), now)
    requires forall op | op in ops && op.Asks(slot) :: op.now + 3600 * SECOND <= now
    ensures Level(After(map[], ops), slot, now) == Capacity(slot.kind)
  {
    hide After;
    if slot in After(map[], ops) {
      BucketsComeFromCalls(ops, slot);
    }
  }

  /** Each call costs a token at the most. */
  lemma {:induction false} LevelCovers(buckets: Buckets, ops: seq<Op>, slot: Slot, start: Instant)
    requires Valid(buckets, start) && Monotone(ops) && ops != [] && start <= ops[0].now
    requires Level(buckets, slot, start) == Capacity(slot.kind) && Calls(ops, slot) as real <= Capacity(slot.kind)
    ensures Valid(After(buckets, ops), ops[|ops| - 1].now)
    ensures Level(After(buckets, ops), slot, ops[|ops| - 1].now) >= Capacity(slot.kind) - Calls(ops, slot) as real
    ensures Admissions(buckets, ops, slot) == Calls(ops, slot)
  {
    hide Level, Capacity, Gain, Valid, Budget;
    var front, last := ops[..|ops| - 1], ops[|ops| - 1];
    var before, now := After(buckets, front), last.now;
    if front == [] {
      LevelLater(buckets, slot, start, now);
      GainIsPositive(slot.kind, now - start);
      ValidLater(buckets, start, now);
    } else {
      var middle := front[|front| - 1].now;
      LevelCovers(buckets, front, slot, start);
      LevelLater(before, slot, middle, now);
      GainIsPositive(slot.kind, now - middle);
      ValidLater(before, middle, now);
    }
    LastOp(buckets, ops, slot);
  }

  lemma GainIsPositive(kind: RateClass, elapsed: int)
    requires elapsed >= 0
    ensures Gain(kind, elapsed) >= 0.0
  {
  }

  lemma ValidLater(buckets: Buckets, now: Instant, later: Instant)
    requires Valid(buckets, now) && now <= later
    ensures Valid(buckets, later)
  {
  }

  /** How many calls a rested slot is admitted at once. */
  function Burst(kind: RateClass): nat {
    match kind
    case General => 20
    case Room => 10
    case Udp => 30
  }

  /** A slot that was never called, or not for an hour, is admitted its next 20, 10 or 30
      calls, however close together and whatever else goes on. */
  lemma RestedSlotsAreAdmitted(ops: seq<Op>, more: seq<Op>, slot: Slot)
    requires Monotone(ops + more) && more != []
    requires forall op | op in ops && op.Asks(slot) :: op.now + 3600 * SECOND <= more[0].now
    requires Calls(more, slot) <= Burst(slot.kind)
    ensures Admissions(After(map[], ops), more, slot) == Calls(more, slot)
  {
    hide Level, Valid, Admissions, After, Calls;
    var all, start := ops + more, more[0].now;
    assert all[|ops|] == more[0] && forall k | 0 <= k < |ops| :: all[k] == ops[k];
    assert forall k | 0 <= k < |ops| :: all[k].now <= all[|ops|].now;
    MonotoneParts(ops, more);
    assert ops[..|ops|] == ops;
    PrefixIsValid(ops, |ops|, start);
    IdleIsFull(ops, slot, start);
    LevelCovers(After(map[], ops), more, slot, start);
  }

  lemma MonotoneParts(ops: seq<Op>, more: seq<Op>)
    requires Monotone(ops + more)
    ensures Monotone(ops) && Monotone(more)
  {
    var all := ops + more;
    forall i, j | 0 <= i < j < |ops| ensures ops[i].now <= ops[j].now {
      assert all[i] == ops[i] && all[j] == ops[j];
    }
    forall i, j | 0 <= i < j < |more| ensures more[i].now <= more[j].now {
      assert all[|ops| + i] == more[i] && all[|ops| + j] == more[j];
    }
  }

  /** The stretch from the `i`th operation accounts for the level exactly. */
  ghost predicate Accounts(ops: seq<Op>, slot: Slot, now: Instant, i: nat) {
    && i < |ops|
    && Level(After(map[], ops), slot, now) + Admissions(After(map[], ops[..i]), ops[i..], slot) as real ==
       Budget(slot.kind, now - ops[i].now)
  }

  lemma {:induction false} LevelIsAccountedFor(ops: seq<Op>, slot: Slot, now: Instant)
    requires Monotone(ops) && forall op | op in ops :: op.now <= now
    ensures Valid(After(map[], ops), now)
    ensures Level(After(map[], ops), slot, now) == Capacity(slot.kind) || exists i :: Accounts(ops, slot, now, i)
  {
    hide Level, Capacity, Gain, Valid, Budget, Accounts, Admissions;
    if ops == [] {
      NothingIsValid(now);
      EmptyIsFull(slot, now);
    } else {
      var front, last := ops[..|ops| - 1], ops[|ops| - 1];
      var before, then_ := After(map[], front), last.now;
      assert last in ops && forall k | 0 <= k < |front| :: ops[k].now <= last.now;
      LevelIsAccountedFor(front, slot, then_);
      LastOp(map[], ops, slot);
      ValidLater(After(map[], ops), then_, now);
      LevelLater(After(map[], ops), slot, then_, now);
      if Level(before, slot, then_) == Capacity(slot.kind) {
        StretchBegins(ops, slot, now);
      } else {
        var i :| Accounts(front, slot, then_, i);
        StretchGoesOn(ops, slot, now, i);
      }
    }
  }

  lemma EmptyIsFull(slot: Slot, now: Instant)
    ensures Level(After(map[], []), slot, now) == Capacity(slot.kind)
  {
  }

  lemma {:induction false} AdmissionsSplit(ops: seq<Op>, i: nat, slot: Slot)
    requires i < |ops|
    ensures
      var n := |ops| - 1;
      Admissions(After(map[], ops[..i]), ops[i..], slot) ==
      Admissions(After(map[], ops[..i]), ops[i..n], slot) +
      (if ops[n].Asks(slot) && Allows(After(map[], ops[..n]), slot, ops[n].now) then 1 else 0)
  {
    hide Level;
    var stretch := ops[i..];
    assert stretch[..|stretch| - 1] == ops[i..|ops| - 1];
    AfterSplit(ops[..|ops| - 1], i);
    assert ops[..|ops| - 1][..i] == ops[..i] && ops[..|ops| - 1][i..] == ops[i..|ops| - 1];
  }

  lemma {:induction false} AfterSplit(ops: seq<Op>, i: nat)
    requires i <= |ops|
    ensures After(map[], ops) == After(After(map[], ops[..i]), ops[i..])
  {
    hide Level;
    if i == |ops| {
      assert ops[..i] == ops;
    } else {
      var front := ops[..|ops| - 1];
      AfterSplit(front, i);
      assert front[..i] == ops[..i] && ops[i..][..|ops[i..]| - 1] == front[i..];
    }
  }

  /** From a full bucket on, the stretch is the last operation alone. */
  lemma StretchBegins(ops: seq<Op>, slot: Slot, now: Instant)
    requires ops != [] && ops[|ops| - 1].now <= now
    requires Valid(After(map[], ops), ops[|ops| - 1].now)
    requires
      var last := ops[|ops| - 1];
      && Level(After(map[], ops[..|ops| - 1]), slot, last.now) == Capacity(slot.kind)
      && Level(After(map[], ops), slot, last.now) ==
         Capacity(slot.kind) - (Admissions(map[], ops, slot) - Admissions(map[], ops[..|ops| - 1], slot)) as real
    ensures Level(After(map[], ops), slot, now) == Capacity(slot.kind) || Accounts(ops, slot, now, |ops| - 1)
  {
    hide Level, Capacity, Gain, Valid, Budget, After;
    var last := ops[|ops| - 1];
    LevelLater(After(map[], ops), slot, last.now, now);
    AdmissionsSplit(ops, |ops| - 1, slot);
    BudgetIs(slot.kind, now - last.now);
  }

  lemma StretchGoesOn(ops: seq<Op>, slot: Slot, now: Instant, i: nat)
    requires ops != [] && ops[|ops| - 1].now <= now
    requires Valid(After(map[], ops), ops[|ops| - 1].now)
    requires
      var front, last := ops[..|ops| - 1], ops[|ops| - 1];
      && Accounts(front, slot, last.now, i)
      && Level(After(map[], ops), slot, last.now) ==
         Level(After(map[], front), slot, last.now) - (Admissions(map[], ops, slot) - Admissions(map[], front, slot)) as real
    ensures Level(After(map[], ops), slot, now) == Capacity(slot.kind) || Accounts(ops, slot, now, i)
  {
    hide Level, Capacity, Gain, Valid, Budget, After;
    var front, last := ops[..|ops| - 1], ops[|ops| - 1];
    LevelLater(After(map[], ops), slot, last.now, now);
    AdmissionsSplit(ops, i, slot);
    assert front[..i] == ops[..i] && front[i..] == ops[i..|ops| - 1] && front[i] == ops[i];
    BudgetIs(slot.kind, now - ops[i].now);
    BudgetIs(slot.kind, last.now - ops[i].now);
    GainAdds(slot.kind, last.now - ops[i].now, now - last.now);
  }

  /** A call is refused only when some stretch of the run that ends there has used up its
      budget to within a token. */
  lemma RefusedOnlyWhenUsedUp(ops: seq<Op>, slot: Slot, now: Instant) returns (i: nat)
    requires Monotone(ops) && forall op | op in ops :: op.now <= now
    requires !Allows(After(map[], ops), slot, now)
    ensures i < |ops|
    ensures Admissions(After(map[], ops[..i]), ops[i..], slot) as real > Budget(slot.kind, now - ops[i].now) - 1.0
  {
    hide After, Admissions, Budget, Level;
    LevelIsAccountedFor(ops, slot, now);
    i :| Accounts(ops, slot, now, i);
  }

  // --- Keys and eviction ---------------------------------------------------------------

  /** Who shares a bucket: one IPv4 address, also when it comes mapped into IPv6, or one /64. */
  lemma WhoSharesABucket(a: nat, b: nat, m: nat)
    requires m < 0x1_0000_0000
    ensures KeyOf(IpV4(a)) == KeyOf(IpV4(b)) <==> a == b
    ensures KeyOf(IpV6(0xFFFF * 0x1_0000_0000 + m)) == KeyOf(IpV4(m))
    ensures
      a / 0x1_0000_0000 != 0xFFFF && b / 0x1_0000_0000 != 0xFFFF ==>
        (KeyOf(IpV6(a)) == KeyOf(IpV6(b)) <==> a / 0x1_0000_0000_0000_0000 == b / 0x1_0000_0000_0000_0000)
        && KeyOf(IpV6(a)) != KeyOf(IpV4(b))
  {
  }

  /** Clean-up drops the buckets not used for an hour, once there are more than 10000. */
  lemma WhatIsEvicted(buckets: Buckets, slot: Slot, now: Instant)
    ensures slot in Evicted(buckets, now) <==>
            slot in buckets && (|buckets| <= 10_000 || Since(now, buckets[slot].updatedAt) < 3600 * SECOND)
    ensures slot in Evicted(buckets, now) ==> Evicted(buckets, now)[slot] == buckets[slot]
  {
  }

  // --- Eviction cannot be noticed ------------------------------------------------------

  function Answers(buckets: Buckets, ops: seq<Op>): seq<bool> {
    if ops == [] then
      []
    else
      var front, last := ops[..|ops| - 1], ops[|ops| - 1];
      Answers(buckets, front) +
      (if last.Call? then [Allows(After(buckets, front), Slot(KeyOf(last.ip), last.kind), last.now)] else [])
  }

  function WithoutEvictions(ops: seq<Op>): seq<Op> {
    if ops == [] then []
    else WithoutEvictions(ops[..|ops| - 1]) + (if ops[|ops| - 1].Call? then [ops[|ops| - 1]] else [])
  }

  ghost predicate SameLevels(a: Buckets, b: Buckets, now: Instant) {
    forall slot, later | now <= later :: Level(a, slot, later) == Level(b, slot, later)
  }

  lemma {:induction false} CallsAreOps(ops: seq<Op>)
    ensures forall op | op in WithoutEvictions(ops) :: op in ops && op.Call?
    ensures Monotone(ops) ==> Monotone(WithoutEvictions(ops))
  {
    if ops != [] {
      var front, last := ops[..|ops| - 1], ops[|ops| - 1];
      CallsAreOps(front);
      assert forall op | op in front :: op in ops;
      assert last in ops;
      if Monotone(ops) {
        forall op | op in front ensures op.now <= last.now {
        }
      }
    }
  }

  lemma CallKeepsSame(a: Buckets, b: Buckets, slot: Slot, now: Instant, later: Instant)
    requires SameLevels(a, b, now) && now <= later
    ensures Allows(a, slot, now) == Allows(b, slot, now)
    ensures SameLevels(AfterCall(a, slot, now), AfterCall(b, slot, now), later)
  {
    assert Level(a, slot, now) == Level(b, slot, now);
    forall other, t | later <= t
      ensures Level(AfterCall(a, slot, now), other, t) == Level(AfterCall(b, slot, now), other, t)
    {
      assert Level(a, other, t) == Level(b, other, t);
    }
  }

  lemma {:induction false} SameAnswers(buckets: Buckets, ops: seq<Op>, start: Instant, now: Instant)
    requires Valid(buckets, start) && Monotone(ops) && start <= now
    requires forall op | op in ops :: start <= op.now <= now
    ensures Answers(buckets, ops) == Answers(buckets, WithoutEvictions(ops))
    ensures SameLevels(After(buckets, ops), After(buckets, WithoutEvictions(ops)), now)
  {
    hide Level, Valid, SameLevels, AfterCall, Evicted, Allows;
    if ops == [] {
      SameAsItself(buckets, now);
    } else {
      var front, last := ops[..|ops| - 1], ops[|ops| - 1];
      assert last in ops && forall op | op in front :: op in ops;
      SameAnswers(buckets, front, start, last.now);
      CallsAreOps(front);
      RunsStayValid(buckets, front, start, last.now);
      RunsStayValid(buckets, WithoutEvictions(front), start, last.now);
      var a, b := After(buckets, front), After(buckets, WithoutEvictions(front));
      match last
      case Call(ip, kind, _) =>
        assert WithoutEvictions(ops)[..|WithoutEvictions(ops)| - 1] == WithoutEvictions(front);
        CallKeepsSame(a, b, Slot(KeyOf(ip), kind), last.now, now);
      case Evict(_) =>
        assert WithoutEvictions(ops) == WithoutEvictions(front);
        assert Answers(buckets, ops) == Answers(buckets, front);
        EvictKeepsSame(a, b, last.now, now);
    }
  }

  lemma SameAsItself(a: Buckets, now: Instant)
    ensures SameLevels(a, a, now)
  {
  }

  lemma EvictKeepsSame(a: Buckets, b: Buckets, now: Instant, later: Instant)
    requires Valid(a, now) && SameLevels(a, b, now) && now <= later
    ensures SameLevels(Evicted(a, now), b, later)
  {
    hide Level;
    forall slot, t | later <= t ensures Level(Evicted(a, now), slot, t) == Level(b, slot, t) {
      EvictionKeepsLevels(a, slot, now, t);
      assert Level(a, slot, t) == Level(b, slot, t);
    }
  }

  /** Every answer is the same as if no bucket had ever been evicted. */
  lemma EvictionIsUnobservable(ops: seq<Op>)
    requires Monotone(ops)
    ensures Answers(map[], ops) == Answers(map[], WithoutEvictions(ops))
  {
    hide Level, Valid, Answers, After;
    if ops != [] {
      NothingIsValid(ops[0].now);
      SameAnswers(map[], ops, ops[0].now, ops[|ops| - 1].now);
    }
  }
}
