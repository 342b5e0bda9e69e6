/**
  Replay protection: a cache of message fingerprints followed by an age check
  (capsule/orbit/subscription.go `Deduplicator`, capsule/orbit/announcement.go `HandleMessage`;
  node/auth/dedup.go `MessageDedup`, node/auth/pubsub.go `handleAuthPubSubMessage`).

  Times and durations are nanoseconds. A fingerprint is the message itself, SHA-256 being taken as injective.
 */
module Dedup {
  import opened Options

  /** Received bytes; `stamp` is the timestamp they decode to, if the envelope carries one. */
  datatype Data = Data(content: seq<char>, stamp: Option<int>)

  /** The orbit cache trusts every entry it still has; the auth cache also looks at the entry's age. */
  datatype Policy = Orbit | Auth

  const SECOND := 1_000_000_000
  const MAX_MESSAGE_AGE := 30 * SECOND
  const ORBIT_RETENTION := 300 * SECOND
  const AUTH_RETENTION := 30 * SECOND

  type Cache = map<Data, int>

  predicate IsDup(p: Policy, retention: int, seen: Cache, d: Data, now: int) {
    d in seen && (p.Orbit? || now - seen[d] <= retention)
  }

  function Record(p: Policy, retention: int, seen: Cache, d: Data, now: int): Cache {
    if IsDup(p, retention, seen, d, now) then seen else seen[d := now]
  }

  function Evicted(seen: Cache, retention: int, now: int): Cache {
    map d | d in seen && now - seen[d] <= retention :: seen[d]
  }

  /** The age check. The orbit handler lets a message without a timestamp through; the auth handler reads a
      missing timestamp as the epoch. */
  predicate Stale(p: Policy, d: Data, now: int) {
    StampOf(p, d).Some? && now - StampOf(p, d).value > MAX_MESSAGE_AGE
  }

  function StampOf(p: Policy, d: Data): Option<int> { if d.stamp.None? && p.Auth? then Some(0) else d.stamp }

  // ----- the two caches

  class Deduplicator {
    var seen: Cache
    const maxAge: int

    constructor (maxAge: int)
      ensures seen == map[] && this.maxAge == maxAge
    {
      seen := map[];
      this.maxAge := maxAge;
    }

    method IsDuplicate(d: Data, now: int) returns (dup: bool)
      modifies this
      ensures dup == IsDup(Orbit, maxAge, old(seen), d, now) && seen == Record(Orbit, maxAge, old(seen), d, now)
    {
      if d in seen { return true; }
      seen := seen[d := now];
      return false;
    }

    method Cleanup(now: int)
      modifies this
      ensures seen == Evicted(old(seen), maxAge, now)
    {
      seen := Evict(seen, maxAge, now);
    }
  }

  class MessageDedup {
    var seen: Cache
    const ttl: int

    constructor (ttl: int)
      ensures seen == map[] && this.ttl == ttl
    {
      seen := map[];
      this.ttl := ttl;
    }

    method IsDuplicate(d: Data, now: int) returns (dup: bool)
      modifies this
      ensures dup == IsDup(Auth, ttl, old(seen), d, now) && seen == Record(Auth, ttl, old(seen), d, now)
    {
      if d in seen {
        if now - seen[d] <= ttl { return true; }
      }
      seen := seen[d := now];
      return false;
    }

    method EvictExpired(now: int)
      modifies this
      ensures seen == Evicted(old(seen), ttl, now)
    {
      seen := Evict(seen, ttl, now);
    }
  }

  /** Deletes the expired entries one by one. */
  method Evict(seen: Cache, retention: int, now: int) returns (left: Cache)
    ensures left == Evicted(seen, retention, now)
  {
    left := seen;
    var todo := seen.Keys;
    while todo != {}
      invariant todo <= seen.Keys && left.Keys <= seen.Keys
      invariant forall d | d in seen :: d in left <==> d in todo || now - seen[d] <= retention
      invariant forall d | d in left :: left[d] == seen[d]
      decreases todo
    {
      var d :| d in todo;
      if now - seen[d] > retention {
        left := left - {d};
      }
      todo := todo - {d};
    }
  }

  // ----- runs

  /** Handling a message takes two steps, the cache lookup and the checks that follow it; other messages and cleanups may
      come in between. `of` is the position of the lookup that a check completes, and `valid` stands for the later
      checks: decoding, signature, sender and message type. */
  datatype Event =
    | Lookup(d: Data, at: int)
    | Check(of: nat, at: int, valid: bool)
    | Cleanup(at: int)

  function Apply(p: Policy, retention: int, seen: Cache, e: Event): Cache {
    match e
    case Lookup(d, at) => Record(p, retention, seen, d, at)
    case Check(_, _, _) => seen
    case Cleanup(at) => Evicted(seen, retention, at)
  }

  /** A run from an empty cache in which the clock never goes back and each lookup is followed up at most once. */
  ghost predicate Run(p: Policy, retention: int, caches: seq<Cache>, events: seq<Event>) {
    && |caches| == |events| + 1 && caches[0] == map[]
    && (forall i | 0 <= i < |events| :: caches[i + 1] == Apply(p, retention, caches[i], events[i]))
    && (forall i | 0 <= i < |events| - 1 :: events[i].at <= events[i + 1].at)
    && (forall i | 0 <= i < |events| && events[i].Check? :: events[i].of < i && events[events[i].of].Lookup?)
    && (forall i, j | 0 <= i < j < |events| && events[i].Check? && events[j].Check? :: events[i].of != events[j].of)
  }

  /** The lookup at `l` found `d` to be new. */
  predicate New(p: Policy, retention: int, caches: seq<Cache>, events: seq<Event>, d: Data, l: nat)
    requires l < |events| < |caches|
  {
    events[l].Lookup? && events[l].d == d && !IsDup(p, retention, caches[l], d, events[l].at)
  }

  /** The check at `i` accepts `d`. */
  predicate Accepts(p: Policy, retention: int, caches: seq<Cache>, events: seq<Event>, d: Data, i: nat)
    requires i < |events| < |caches|
  {
    && events[i].Check? && events[i].of < i && New(p, retention, caches, events, d, events[i].of)
    && !Stale(p, d, events[i].at) && events[i].valid
  }

  lemma {:induction false} ClockIsMonotone(p: Policy, retention: int, caches: seq<Cache>, events: seq<Event>,
                                           i: nat, j: nat)
    requires Run(p, retention, caches, events) && i <= j < |events|
    ensures events[i].at <= events[j].at
  {
    if i < j {
      ClockIsMonotone(p, retention, caches, events, i, j - 1);
      assert events[j - 1].at <= events[j - 1 + 1].at;
    }
  }

  /** Until the retention time has passed, a message that was looked up stays in the cache. */
  lemma {:induction false} RememberedUntilRetention(p: Policy, retention: int, caches: seq<Cache>, events: seq<Event>,
                                                    d: Data, l: nat, j: nat)
    requires Run(p, retention, caches, events) && l < j <= |events| && 0 <= retention
    requires New(p, retention, caches, events, d, l)
    ensures (d in caches[j] && caches[j][d] >= events[l].at) || events[j - 1].at > events[l].at + retention
  {
    assert caches[j - 1 + 1] == Apply(p, retention, caches[j - 1], events[j - 1]);
    if j > l + 1 {
      RememberedUntilRetention(p, retention, caches, events, d, l, j - 1);
      assert events[j - 2].at <= events[j - 2 + 1].at;
      ClockIsMonotone(p, retention, caches, events, l, j - 1);
    }
  }

  /** The entry of `d` in cache `j` was made by the lookup at `l`, and no lookup since found `d` to be new. */
  ghost predicate MadeBy(p: Policy, retention: int, caches: seq<Cache>, events: seq<Event>, d: Data, l: nat, j: nat)
    requires j <= |events| < |caches|
  {
    && l < j && New(p, retention, caches, events, d, l) && d in caches[j] && caches[j][d] == events[l].at
    && forall k | l < k < j :: !New(p, retention, caches, events, d, k)
  }

  /** In every run, an entry dates from the latest lookup that found its message new: a duplicate does not refresh it. */
  lemma {:induction false} EntryDatesFromNew(p: Policy, retention: int, caches: seq<Cache>, events: seq<Event>, d: Data,
                                             j: nat) returns (l: nat)
    requires Run(p, retention, caches, events) && j <= |events| && d in caches[j]
    ensures MadeBy(p, retention, caches, events, d, l, j)
  {
    assert caches[j - 1 + 1] == Apply(p, retention, caches[j - 1], events[j - 1]);
    if New(p, retention, caches, events, d, j - 1) {
      l := j - 1;
    } else {
      l := EntryDatesFromNew(p, retention, caches, events, d, j - 1);
    }
  }

  /** In every run, once `d` has been looked up it is new again exactly as its policy says: on an orbit only after a
      cleanup that came later than the retention, on the auth topic also by age alone. */
  lemma {:induction false} NewAgain(p: Policy, retention: int, caches: seq<Cache>, events: seq<Event>, d: Data, l: nat,
                                    j: nat)
    requires Run(p, retention, caches, events) && 0 <= retention && l < j < |events|
    requires New(p, retention, caches, events, d, l) && events[j].Lookup? && events[j].d == d
    requires forall k | l < k < j :: !New(p, retention, caches, events, d, k)
    ensures New(p, retention, caches, events, d, j) <==>
            || (p.Auth? && events[j].at > events[l].at + retention)
            || exists k :: l < k < j && events[k].Cleanup? && events[k].at > events[l].at + retention
  {
    KeptOrCleaned(p, retention, caches, events, d, l, j);
    if k :| l < k < j && events[k].Cleanup? && events[k].at > events[l].at + retention {
      ClockIsMonotone(p, retention, caches, events, k, j);
    }
  }

  lemma {:induction false} KeptOrCleaned(p: Policy, retention: int, caches: seq<Cache>, events: seq<Event>, d: Data,
                                         l: nat, j: nat)
    requires Run(p, retention, caches, events) && 0 <= retention && l < j <= |events|
    requires New(p, retention, caches, events, d, l) && forall k | l < k < j :: !New(p, retention, caches, events, d, k)
    ensures d in caches[j] <==> !exists k :: l < k < j && events[k].Cleanup? && events[k].at > events[l].at + retention
    ensures d in caches[j] ==> caches[j][d] == events[l].at
  {
    assert caches[j - 1 + 1] == Apply(p, retention, caches[j - 1], events[j - 1]);
    if l + 1 < j {
      KeptOrCleaned(p, retention, caches, events, d, l, j - 1);
      assert !New(p, retention, caches, events, d, j - 1);
    }
  }

  /** The timestamp, read as the handler reads it, is present and not so far ahead of the receiver that the cache forgets
      before it turns stale. */
  predicate NotTooFarAhead(p: Policy, retention: int, d: Data, at: int) {
    StampOf(p, d).Some? && StampOf(p, d).value <= at + retention - MAX_MESSAGE_AGE
  }

  /** Once `d` has been looked up in time, no later lookup of it leads to acceptance, however lookups, checks and
      cleanups interleave. */
  lemma NeverAcceptedAgain(p: Policy, retention: int, caches: seq<Cache>, events: seq<Event>, d: Data, l: nat, i: nat)
    requires Run(p, retention, caches, events) && i < |events| && events[i].Check? && l < events[i].of && 0 <= retention
    requires New(p, retention, caches, events, d, l) && NotTooFarAhead(p, retention, d, events[l].at)
    ensures !Accepts(p, retention, caches, events, d, i)
  {
    var later := events[i].of;
    RememberedUntilRetention(p, retention, caches, events, d, l, later);
    ClockIsMonotone(p, retention, caches, events, later - 1, later);
    ClockIsMonotone(p, retention, caches, events, later, i);
  }

  /** The same bytes are accepted at most once in any run. */
  lemma AcceptedAtMostOnce(p: Policy, retention: int, caches: seq<Cache>, events: seq<Event>, d: Data, i: nat, j: nat)
    requires Run(p, retention, caches, events) && i < |events| && j < |events| && 0 <= retention
    requires Accepts(p, retention, caches, events, d, i) && Accepts(p, retention, caches, events, d, j)
    requires NotTooFarAhead(p, retention, d, events[events[i].of].at)
    requires NotTooFarAhead(p, retention, d, events[events[j].of].at)
    ensures i == j
  {
    if events[i].of < events[j].of {
      NeverAcceptedAgain(p, retention, caches, events, d, events[i].of, j);
    } else if events[j].of < events[i].of {
      NeverAcceptedAgain(p, retention, caches, events, d, events[j].of, i);
    }
  }

  /** A message without a timestamp never turns stale on an orbit, and on the auth topic is only ever accepted within
      the maximum age of the epoch. */
  lemma UnstampedMessages(p: Policy, retention: int, caches: seq<Cache>, events: seq<Event>, d: Data, i: nat)
    requires Run(p, retention, caches, events) && i < |events| && events[i].Check? && d.stamp.None?
    ensures p.Orbit? ==>
              (Accepts(p, retention, caches, events, d, i) <==>
                 New(p, retention, caches, events, d, events[i].of) && events[i].valid)
    ensures p.Auth? && Accepts(p, retention, caches, events, d, i) ==> events[i].at <= 30_000_000_000
  {
  }

  /** In some run `d` is looked up first at `at`, accepted, and accepted again. */
  ghost predicate AcceptedTwice(p: Policy, retention: int, d: Data, at: int) {
    exists caches: seq<Cache>, events: seq<Event>, i: nat, j: nat ::
      && Run(p, retention, caches, events) && i < |events| && j < |events| && events[0] == Lookup(d, at)
      && events[i].Check? && events[i].of == 0 && events[j].Check? && events[j].of != 0
      && Accepts(p, retention, caches, events, d, i) && Accepts(p, retention, caches, events, d, j)
  }

  /** A run that looks `d` up, cleans up when the retention is over, and looks `d` up again. */
  lemma LookedUpAgain(p: Policy, retention: int, d: Data, at: int) returns (caches: seq<Cache>, events: seq<Event>)
    requires 0 <= retention
    ensures var later := at + retention + 1;
            events == [Lookup(d, at), Check(0, at, true), Cleanup(later), Lookup(d, later), Check(3, later, true)]
    ensures Run(p, retention, caches, events) && d !in caches[0] && d !in caches[3]
  {
    var later := at + retention + 1;
    events := [Lookup(d, at), Check(0, at, true), Cleanup(later), Lookup(d, later), Check(3, later, true)];
    var c1: Cache := map[d := at];
    var c3 := Evicted(c1, retention, later);
    assert d !in c3;
    caches := [map[], c1, c1, c3, c3[d := later], c3[d := later]];
  }

  /** In such a run `d` is accepted twice. */
  lemma AcceptedAfterCleanup(p: Policy, retention: int, d: Data, at: int)
    requires 0 <= retention && !Stale(p, d, at) && !Stale(p, d, at + retention + 1)
    ensures AcceptedTwice(p, retention, d, at)
  {
    var caches, events := LookedUpAgain(p, retention, d, at);
    assert Accepts(p, retention, caches, events, d, 1) && Accepts(p, retention, caches, events, d, 4);
  }

  /** The same bytes can be accepted a second time if and only if their timestamp is missing, on the orbit path,
      or lies further ahead of the receiver's clock than the retention exceeds the maximum age. */
  lemma AcceptedTwiceIffTooFarAhead(p: Policy, retention: int, d: Data, at: int)
    requires 0 <= retention && !Stale(p, d, at)
    ensures AcceptedTwice(p, retention, d, at) <==> !NotTooFarAhead(p, retention, d, at)
  {
    if NotTooFarAhead(p, retention, d, at) {
      forall caches: seq<Cache>, events: seq<Event>, j: nat |
        Run(p, retention, caches, events) && j < |events| && events[0] == Lookup(d, at)
        && events[j].Check? && events[j].of != 0
        ensures !Accepts(p, retention, caches, events, d, j)
      {
        NeverAcceptedAgain(p, retention, caches, events, d, 0, j);
      }
    } else {
      AcceptedAfterCleanup(p, retention, d, at);
    }
  }

  /** With the configured retentions: 270 seconds of lead are safe on orbits, none on the auth topic. */
  lemma AtMostOnceAsConfigured(p: Policy, caches: seq<Cache>, events: seq<Event>, d: Data, l: nat, i: nat)
    requires var retention := if p.Orbit? then ORBIT_RETENTION else AUTH_RETENTION;
             && Run(p, retention, caches, events) && i < |events| && events[i].Check? && l < events[i].of
             && New(p, retention, caches, events, d, l)
    requires StampOf(p, d).Some? && StampOf(p, d).value <= events[l].at + (if p.Orbit? then 270 * SECOND else 0)
    ensures !Accepts(p, if p.Orbit? then ORBIT_RETENTION else AUTH_RETENTION, caches, events, d, i)
  {
    NeverAcceptedAgain(p, if p.Orbit? then ORBIT_RETENTION else AUTH_RETENTION, caches, events, d, l, i);
  }
}
