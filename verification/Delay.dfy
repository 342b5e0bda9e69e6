/**
  The delay strategy (election/delay/strategy.go): a gravity score becomes a wait before the claim is published.
  Durations are nanoseconds.
 */
module Delay {
  import opened Decimal
  import opened Reals

  const MILLISECOND := 1_000_000

  datatype Strategy = Strategy(maxWait: int, maxJitter: int, stagger: int)

  const DEFAULT_STRATEGY := Strategy(500 * MILLISECOND, 200_000, 150 * MILLISECOND)

  const ELECTION_TIMEOUT := 10_000 * MILLISECOND

  function Wrap64(n: int): int { (n + 0x8000_0000_0000_0000) % 0x1_0000_0000_0000_0000 - 0x8000_0000_0000_0000 }

  function Clamp100(score: real): real { if score < 0.0 then 0.0 else if score > 100.0 then 100.0 else score }

  function Exact(score: real, maxWait: int): real { Times((100.0 - Clamp100(score)) / 100.0, maxWait as real) }

  function WaitForScore(score: real, maxWait: int): int { Truncate(Exact(score, maxWait)) }

  /** The slot a replica ID names for staggering; IDs that are not plain non-negative integers count as slot 0. */
  function Slot(replicaId: string): nat {
    match Atoi(replicaId)
    case Some(n) => if n < 0 then 0 else n
    case None => 0
  }

  function SlotStagger(replicaId: string, stagger: int): int {
    if stagger <= 0 then 0 else Wrap64(Slot(replicaId) * stagger)
  }

  predicate IsJitter(j: int, maxJitter: int) { j == 0 || 0 <= j < maxJitter }

  function Wait(s: Strategy, score: real, replicaId: string, jitter: int): int {
    Wrap64(Wrap64(WaitForScore(score, s.maxWait) + SlotStagger(replicaId, s.stagger)) + jitter)
  }

  predicate Sane(s: Strategy) {
    0 <= s.maxWait && 0 <= s.maxJitter && 0 <= s.stagger && s.maxWait + s.maxJitter <= MAX_INT64
  }

  /** The largest total wait for a slot. */
  function Longest(s: Strategy, replicaId: string): int {
    s.maxWait + Slot(replicaId) * s.stagger + if s.maxJitter > 0 then s.maxJitter - 1 else 0
  }

  // ----- the base wait

  lemma TruncateMonotone(x: real, y: real)
    requires 0.0 <= x <= y
    ensures 0 <= Truncate(x) <= Truncate(y)
  {
  }

  lemma ExactRange(score: real, maxWait: int)
    requires 0 <= maxWait
    ensures 0.0 <= Exact(score, maxWait) <= maxWait as real
    ensures score <= 0.0 ==> Exact(score, maxWait) == maxWait as real
    ensures score >= 100.0 ==> Exact(score, maxWait) == 0.0
  {
    var f := (100.0 - Clamp100(score)) / 100.0;
    assert 0.0 <= f <= 1.0;
    TimesFraction(f, maxWait as real);
    TimesOne(maxWait as real);
  }

  /** The base wait runs from nothing at score 100 to the whole maximum at score 0. */
  lemma BaseWaitRange(score: real, maxWait: int)
    requires 0 <= maxWait
    ensures 0 <= WaitForScore(score, maxWait) <= maxWait
    ensures score <= 0.0 ==> WaitForScore(score, maxWait) == maxWait
    ensures score >= 100.0 ==> WaitForScore(score, maxWait) == 0
  {
    ExactRange(score, maxWait);
    TruncateMonotone(Exact(score, maxWait), maxWait as real);
  }

  /** A higher score never waits longer. */
  lemma BaseWaitMonotone(lower: real, higher: real, maxWait: int)
    requires lower <= higher && 0 <= maxWait
    ensures WaitForScore(higher, maxWait) <= WaitForScore(lower, maxWait)
  {
    ExactRange(higher, maxWait);
    TimesMonotone((100.0 - Clamp100(higher)) / 100.0, (100.0 - Clamp100(lower)) / 100.0, maxWait as real);
    TruncateMonotone(Exact(higher, maxWait), Exact(lower, maxWait));
  }

  // ----- no overflow within the timeout

  lemma WrapKeeps(n: int)
    requires MIN_INT64 <= n <= MAX_INT64
    ensures Wrap64(n) == n
  {
  }

  lemma ProductIsNat(a: nat, b: int)
    requires 0 <= b
    ensures 0 <= a * b
  {
  }

  lemma StaggerIsExact(replicaId: string, stagger: int)
    requires 0 <= stagger && Slot(replicaId) * stagger <= MAX_INT64
    ensures 0 <= SlotStagger(replicaId, stagger) == Slot(replicaId) * stagger
  {
    ProductIsNat(Slot(replicaId), stagger);
    WrapKeeps(Slot(replicaId) * stagger);
  }

  lemma SumIsExact(base: int, slotDelay: int, jitter: int)
    requires 0 <= base && 0 <= slotDelay && 0 <= jitter && base + slotDelay + jitter <= MAX_INT64
    ensures Wrap64(Wrap64(base + slotDelay) + jitter) == base + slotDelay + jitter
  {
    WrapKeeps(base + slotDelay);
    WrapKeeps(base + slotDelay + jitter);
  }

  lemma WaitIsExact(s: Strategy, score: real, replicaId: string, jitter: int)
    requires Sane(s) && IsJitter(jitter, s.maxJitter) && Longest(s, replicaId) <= MAX_INT64
    ensures Wait(s, score, replicaId, jitter)
         == WaitForScore(score, s.maxWait) + Slot(replicaId) * s.stagger + jitter
    ensures 0 <= Wait(s, score, replicaId, jitter) <= Longest(s, replicaId)
  {
    BaseWaitRange(score, s.maxWait);
    StaggerIsExact(replicaId, s.stagger);
    SumIsExact(WaitForScore(score, s.maxWait), SlotStagger(replicaId, s.stagger), jitter);
  }

  /** In the 64-bit range a wait is the sum of base wait, slot delay and jitter up to multiples of 2^64, however large they
      get: a large enough slot wraps around. */
  lemma WaitModulo(s: Strategy, score: real, replicaId: string, jitter: int)
    ensures MIN_INT64 <= Wait(s, score, replicaId, jitter) <= MAX_INT64
    ensures var slot := if s.stagger <= 0 then 0 else Slot(replicaId) * s.stagger;
            (Wait(s, score, replicaId, jitter) - (WaitForScore(score, s.maxWait) + slot + jitter)) % 0x1_0000_0000_0000_0000 == 0
  {
    var base, slot := WaitForScore(score, s.maxWait), SlotStagger(replicaId, s.stagger);
    var i := WrapModulo(Slot(replicaId) * s.stagger);
    var j := WrapModulo(base + slot);
    var k := WrapModulo(Wrap64(base + slot) + jitter);
    var exact, turns := if s.stagger <= 0 then 0 else Slot(replicaId) * s.stagger, if s.stagger <= 0 then 0 else i;
    Multiples(Wait(s, score, replicaId, jitter) - (base + exact + jitter), turns + j + k);
  }

  lemma WrapModulo(n: int) returns (k: int)
    ensures MIN_INT64 <= Wrap64(n) <= MAX_INT64 && Wrap64(n) == n + k * 0x1_0000_0000_0000_0000
  {
    k := -((n + 0x8000_0000_0000_0000) / 0x1_0000_0000_0000_0000);
  }

  lemma Multiples(n: int, k: int)
    requires n == k * 0x1_0000_0000_0000_0000
    ensures n % 0x1_0000_0000_0000_0000 == 0
  {
  }

  /** IDs that are not plain non-negative integers wait like slot 0. */
  lemma OtherIdsWaitLikeSlotZero(s: Strategy, score: real, replicaId: string, jitter: int)
    requires Atoi(replicaId).None? || Atoi(replicaId).value < 0
    ensures Wait(s, score, replicaId, jitter) == Wait(s, score, Show(0), jitter)
  {
    SlotOfNumeral(0);
  }

  // ----- score order survives truncation and jitter

  /** Every draw of jitter schedules the higher score strictly first, for the same slot. */
  ghost predicate AlwaysFirst(s: Strategy, replicaId: string, higher: real, lower: real) {
    forall i, j | IsJitter(i, s.maxJitter) && IsJitter(j, s.maxJitter) ::
      Wait(s, higher, replicaId, i) < Wait(s, lower, replicaId, j)
  }

  /** The slot cancels out: what counts is the base wait and the jitter. */
  lemma FirstIffBaseFirst(s: Strategy, replicaId: string, higher: real, lower: real, i: int, j: int)
    requires Sane(s) && Longest(s, replicaId) <= MAX_INT64 && IsJitter(i, s.maxJitter) && IsJitter(j, s.maxJitter)
    ensures Wait(s, higher, replicaId, i) < Wait(s, lower, replicaId, j) <==>
            WaitForScore(higher, s.maxWait) + i < WaitForScore(lower, s.maxWait) + j
  {
    WaitIsExact(s, higher, replicaId, i);
    WaitIsExact(s, lower, replicaId, j);
  }

  lemma GapInWaits(higher: real, lower: real, maxWait: int)
    requires 0.0 <= lower <= higher <= 100.0
    ensures Exact(lower, maxWait) - Exact(higher, maxWait) == Times((higher - lower) / 100.0, maxWait as real)
  {
    var a, b := (100.0 - higher) / 100.0, (100.0 - lower) / 100.0;
    assert b - a == (higher - lower) / 100.0;
    DistributeRight(b, a, maxWait as real);
  }

  lemma FloorGap(x: real, y: real, gap: int)
    requires 0.0 <= x && x + gap as real <= y && 0 <= gap
    ensures Truncate(x) + gap <= Truncate(y)
  {
  }

  /** A gap worth at least the jitter always decides the order, even after truncation. */
  lemma GapDecides(s: Strategy, replicaId: string, higher: real, lower: real)
    requires Sane(s) && Longest(s, replicaId) <= MAX_INT64 && 0.0 <= lower <= higher <= 100.0 && s.maxJitter > 0
    requires Times((higher - lower) / 100.0, s.maxWait as real) >= s.maxJitter as real
    ensures AlwaysFirst(s, replicaId, higher, lower)
  {
    GapInWaits(higher, lower, s.maxWait);
    ExactRange(higher, s.maxWait);
    FloorGap(Exact(higher, s.maxWait), Exact(lower, s.maxWait), s.maxJitter);
    forall i, j | IsJitter(i, s.maxJitter) && IsJitter(j, s.maxJitter)
      ensures Wait(s, higher, replicaId, i) < Wait(s, lower, replicaId, j)
    {
      FirstIffBaseFirst(s, replicaId, higher, lower, i, j);
    }
  }

  /** The gap is exact: one worth less than the jitter fails to decide the order at the top of the scale. */
  lemma SmallGapFails(s: Strategy, replicaId: string, lower: real)
    requires Sane(s) && Longest(s, replicaId) <= MAX_INT64 && 0.0 <= lower <= 100.0 && s.maxJitter > 0
    requires Times((100.0 - lower) / 100.0, s.maxWait as real) < s.maxJitter as real
    ensures !AlwaysFirst(s, replicaId, 100.0, lower)
  {
    ExactRange(lower, s.maxWait);
    BaseWaitRange(100.0, s.maxWait);
    assert WaitForScore(lower, s.maxWait) <= s.maxJitter - 1;
    assert IsJitter(s.maxJitter - 1, s.maxJitter) && IsJitter(0, s.maxJitter);
    FirstIffBaseFirst(s, replicaId, 100.0, lower, s.maxJitter - 1, 0);
  }

  /** A score gap decides the publishing order for every pair of scores that far apart if and only if the wait it is
      worth covers the jitter, in every slot. */
  lemma GapDecidesIff(s: Strategy, replicaId: string, gap: real)
    requires Sane(s) && Longest(s, replicaId) <= MAX_INT64 && 0.0 <= gap <= 100.0 && s.maxJitter > 0
    ensures (forall higher: real, lower: real | 0.0 <= lower <= higher <= 100.0 && higher - lower == gap ::
               AlwaysFirst(s, replicaId, higher, lower))
            <==> Times(gap / 100.0, s.maxWait as real) >= s.maxJitter as real
  {
    if Times(gap / 100.0, s.maxWait as real) >= s.maxJitter as real {
      forall higher: real, lower: real | 0.0 <= lower <= higher <= 100.0 && higher - lower == gap
        ensures AlwaysFirst(s, replicaId, higher, lower)
      {
        GapDecides(s, replicaId, higher, lower);
      }
    } else {
      assert 100.0 - (100.0 - gap) == gap;
      SmallGapFails(s, replicaId, 100.0 - gap);
    }
  }

  // ----- the election timeout

  /** Whatever the score and the jitter, the publish timer fires before the timeout. */
  ghost predicate AlwaysInTime(s: Strategy, replicaId: string, timeout: int) {
    forall score: real, j: int | IsJitter(j, s.maxJitter) :: Wait(s, score, replicaId, j) < timeout
  }

  /** The publish timer always precedes the deadline if and only if the longest wait does. */
  lemma InTimeIff(s: Strategy, replicaId: string, timeout: int)
    requires Sane(s) && Longest(s, replicaId) <= MAX_INT64
    ensures AlwaysInTime(s, replicaId, timeout) <==> Longest(s, replicaId) < timeout
  {
    forall score: real, j: int | IsJitter(j, s.maxJitter)
      ensures Wait(s, score, replicaId, j) <= Longest(s, replicaId)
    {
      WaitIsExact(s, score, replicaId, j);
    }
    var worst := if s.maxJitter > 0 then s.maxJitter - 1 else 0;
    WaitIsExact(s, 0.0, replicaId, worst);
    BaseWaitRange(0.0, s.maxWait);
    assert IsJitter(worst, s.maxJitter);
    assert Wait(s, 0.0, replicaId, worst) == Longest(s, replicaId);
  }

  lemma SlotOfNumeral(slot: nat)
    requires slot <= MAX_INT64
    ensures Slot(Show(slot)) == slot
  {
    ParsersReadBack(slot);
  }

  /** With the defaults, slots 0 to 63 are the ones whose claim is always published before the election times out. */
  lemma DefaultSlotsInTime(slot: nat)
    requires slot <= 0x7fff_ffff
    ensures AlwaysInTime(DEFAULT_STRATEGY, Show(slot), ELECTION_TIMEOUT) <==> slot <= 63
  {
    SlotOfNumeral(slot);
    InTimeIff(DEFAULT_STRATEGY, Show(slot), ELECTION_TIMEOUT);
  }

  /** Among waits of equal score, every lower slot is ahead by at least a stagger less the jitter. */
  lemma StaggerSeparatesSlots(s: Strategy, score: real, a: string, b: string, i: int, j: int)
    requires Sane(s) && IsJitter(i, s.maxJitter) && IsJitter(j, s.maxJitter)
    requires Slot(a) < Slot(b) && Longest(s, b) <= MAX_INT64 && s.maxJitter <= s.stagger && 0 < s.stagger
    ensures Wait(s, score, a, i) < Wait(s, score, b, j)
  {
    SlotsApart(Slot(a), Slot(b), s.stagger);
    WaitIsExact(s, score, a, i);
    WaitIsExact(s, score, b, j);
  }

  lemma SlotsApart(a: nat, b: nat, stagger: int)
    requires a < b && 0 <= stagger
    ensures a * stagger + stagger <= b * stagger
  {
    assert (b - a - 1) * stagger >= 0;
    assert b * stagger == a * stagger + stagger + (b - a - 1) * stagger;
  }
}
