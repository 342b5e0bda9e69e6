/**
  Reliability scores and health states of the peers of one cluster (node/health/score.go).

  Scores are reals and times are nanoseconds. The phonebook is reduced to the two fields that scoring uses.
 */
module Health {
  import opened Reals

  type NodeId = string

  /** `Unset` is the empty status that a sync message without one writes. */
  datatype Status = Active | Suspected | Quarantined | Failed | Unset
  datatype Entry = Entry(score: real, status: Status)

  datatype Band = Band(minNodes: int, thresholdScale: real, timeoutScale: real)
  datatype Config = Config(increment: real, suspected: real, quarantine: real, timeout: int, bands: seq<Band>)

  /** Thresholds and timeout scaled to the cluster size. */
  datatype Effective = Effective(suspected: real, quarantine: real, timeout: int)

  datatype Tracker = Tracker(phonebook: map<NodeId, Entry>, timers: map<NodeId, int>)

  const DEFAULT_BANDS := [Band(0, 0.3, 0.33), Band(3, 0.5, 0.5), Band(6, 0.7, 0.67), Band(11, 1.0, 1.0)]
  const DEFAULT_CONFIG := Config(0.5, 4.0, 10.0, 30_000_000_000, DEFAULT_BANDS)

  // ----- scaling

  /** The last band that the cluster size reaches; the zero band if there is none. */
  function LastBand(bands: seq<Band>, size: int): Band {
    if bands == [] then Band(0, 0.0, 0.0)
    else if size >= bands[|bands| - 1].minNodes then bands[|bands| - 1]
    else LastBand(bands[..|bands| - 1], size)
  }

  function ScaledBy(cfg: Config, band: Band): Effective {
    Effective(cfg.suspected * band.thresholdScale, cfg.quarantine * band.thresholdScale,
              Truncate(cfg.timeout as real * band.timeoutScale))
  }

  function Scaled(cfg: Config, size: int): Effective {
    ScaledBy(cfg, LastBand(if cfg.bands == [] then DEFAULT_BANDS else cfg.bands, size))
  }

  method FindBand(bands: seq<Band>, size: int) returns (band: Band)
    ensures band == LastBand(bands, size)
  {
    band := Band(0, 0.0, 0.0);
    for i := 0 to |bands|
      invariant band == LastBand(bands[..i], size)
    {
      assert bands[..i + 1][..i] == bands[..i];
      if size >= bands[i].minNodes {
        band := bands[i];
      }
    }
    assert bands[..|bands|] == bands;
  }

  method ComputeEffective(cfg: Config, size: int) returns (e: Effective)
    ensures e == Scaled(cfg, size)
  {
    var bands := cfg.bands;
    if |bands| == 0 {
      bands := DEFAULT_BANDS;
    }
    var band := FindBand(bands, size);
    e := ScaledBy(cfg, band);
  }

  /** In a table sorted by size, scaling uses the band with the largest minimum that the cluster reaches. */
  lemma {:induction false} LastBandIsTightest(bands: seq<Band>, size: int, k: nat)
    requires k < |bands| && bands[k].minNodes <= size
    requires forall i, j | 0 <= i < j < |bands| :: bands[i].minNodes < bands[j].minNodes
    ensures LastBand(bands, size) in bands && bands[k].minNodes <= LastBand(bands, size).minNodes <= size
  {
    var n := |bands| - 1;
    if size < bands[n].minNodes {
      LastBandIsTightest(bands[..n], size, k);
    }
  }

  ghost predicate Sane(e: Effective) { 0.0 < e.suspected <= e.quarantine }

  /** The default thresholds and timeout in each of the four bands: the smaller the cluster, the sooner a silent node is
      suspected, quarantined and failed. */
  lemma DefaultThresholds(size: nat)
    ensures Scaled(DEFAULT_CONFIG, size) ==
              if size <= 2 then Effective(1.2, 3.0, 9_900_000_000)
              else if size <= 5 then Effective(2.0, 5.0, 15_000_000_000)
              else if size <= 10 then Effective(2.8, 7.0, 20_100_000_000)
              else Effective(4.0, 10.0, 30_000_000_000)
  {
    var b := DEFAULT_BANDS;
    assert b[..3] == [b[0], b[1], b[2]] && b[..3][..2] == [b[0], b[1]] && [b[0], b[1]][..1] == [b[0]];
    assert LastBand([b[0]], size) == b[0];
    assert LastBand(b[..3], size) == if size >= 6 then b[2] else LastBand([b[0], b[1]], size);
    assert LastBand(b, size) == if size >= 11 then b[3] else LastBand(b[..3], size);
  }

  lemma DefaultsAreSane(size: nat)
    ensures Sane(Scaled(DEFAULT_CONFIG, size))
  {
    DefaultThresholds(size);
  }

  lemma {:induction false} NoBand(bands: seq<Band>, size: int)
    requires forall i | 0 <= i < |bands| :: size < bands[i].minNodes
    ensures LastBand(bands, size) == Band(0, 0.0, 0.0)
  {
    if bands != [] {
      NoBand(bands[..|bands| - 1], size);
    }
  }

  /** Without a table the default one is used. In a table that starts above the cluster size no band applies, and all
      thresholds and the timeout are 0. */
  lemma MissingBands(cfg: Config, size: int)
    ensures Scaled(cfg.(bands := []), size) == Scaled(cfg.(bands := DEFAULT_BANDS), size)
    ensures cfg.bands != [] && (forall i | 0 <= i < |cfg.bands| :: size < cfg.bands[i].minNodes) ==>
              Scaled(cfg, size) == Effective(0.0, 0.0, 0)
  {
    if cfg.bands != [] && forall i | 0 <= i < |cfg.bands| :: size < cfg.bands[i].minNodes {
      NoBand(cfg.bands, size);
    }
  }

  /** A band whose scales are 1 leaves the configured values alone, and scaling the thresholds scales both alike. */
  lemma ScalingIsUniform(cfg: Config, band: Band)
    ensures band.thresholdScale == 1.0 && band.timeoutScale == 1.0 ==>
              ScaledBy(cfg, band) == Effective(cfg.suspected, cfg.quarantine, cfg.timeout)
    ensures var e, unit := ScaledBy(cfg, band), ScaledBy(cfg, band.(thresholdScale := 1.0));
            && e.suspected == Times(unit.suspected, band.thresholdScale)
            && e.quarantine == Times(unit.quarantine, band.thresholdScale) && e.timeout == unit.timeout
  {
  }

  // ----- the tracker

  /** Whether the phonebook takes a score and a status that are written to it. */
  datatype Writes = Writes(score: bool, status: bool)

  const TAKEN := Writes(true, true)

  function WithScore(t: Tracker, n: NodeId, score: real, taken: bool): Tracker
    requires n in t.phonebook
  {
    if taken then t.(phonebook := t.phonebook[n := t.phonebook[n].(score := score)]) else t
  }

  function WithStatus(t: Tracker, n: NodeId, status: Status, taken: bool): Tracker
    requires n in t.phonebook
  {
    if taken then t.(phonebook := t.phonebook[n := t.phonebook[n].(status := status)]) else t
  }

  function CheckThresholds(t: Tracker, e: Effective, n: NodeId, oldScore: real, newScore: real, now: int,
                           taken: bool): Tracker
    requires n in t.phonebook
  {
    if oldScore < e.quarantine && newScore >= e.quarantine then
      WithStatus(t, n, Quarantined, taken).(timers := t.timers[n := now])
    else if oldScore < e.suspected && newScore >= e.suspected then WithStatus(t, n, Suspected, taken)
    else t
  }

  function SetTo(t: Tracker, e: Effective, n: NodeId, score: real, now: int, w: Writes): Tracker
    requires n in t.phonebook
  {
    CheckThresholds(WithScore(t, n, score, w.score), e, n, t.phonebook[n].score, score, now, w.status)
  }

  /** A success stops at the first write that the phonebook refuses. */
  function Succeeded(t: Tracker, n: NodeId, w: Writes): Tracker
    requires n in t.phonebook
  {
    if !w.score then t
    else if !w.status then WithScore(t, n, 0.0, true)
    else WithStatus(WithScore(t, n, 0.0, true), n, Active, true).(timers := t.timers - {n})
  }

  /** An alive update drops the timer whatever the phonebook takes. */
  function Revived(t: Tracker, n: NodeId, w: Writes): Tracker {
    if n !in t.phonebook then t.(timers := t.timers - {n})
    else WithStatus(WithScore(t, n, 0.0, w.score), n, Active, w.status).(timers := t.timers - {n})
  }

  predicate Overdue(t: Tracker, e: Effective, n: NodeId, now: int) {
    n in t.timers && now - t.timers[n] > e.timeout
  }

  /** Overdue nodes fail and lose their timer, except those whose status the phonebook refuses. */
  function TimedOut(t: Tracker, e: Effective, now: int, refused: set<NodeId>): Tracker {
    Tracker(map n | n in t.phonebook ::
              if Overdue(t, e, n, now) && n !in refused then t.phonebook[n].(status := Failed) else t.phonebook[n],
            map n | n in t.timers && !(Overdue(t, e, n, now) && n !in refused) :: t.timers[n])
  }

  datatype Event =
    | Failure(n: NodeId, at: int, w: Writes)                             // RecordFailure
    | Success(n: NodeId, at: int, w: Writes)                             // RecordSuccess
    | Update(n: NodeId, score: real, alive: bool, at: int, w: Writes)    // SetScore
    | CheckTimeouts(at: int, refused: set<NodeId>)
    | Insert(n: NodeId, status: Status, at: int)      // of a new member, by the syncer or the subscriber
    | Overwrite(n: NodeId, status: Status, at: int)   // of a known member, by the same
    | Quarantine(n: NodeId, at: int)                  // by the syncer, after repeated connection failures
    | Remove(n: NodeId, at: int)                      // by the syncer after more of them, or by the monitor

  /** A member's status comes from a sync message, which cannot say that it failed. */
  predicate Enabled(ev: Event) { ev.Insert? || ev.Overwrite? ==> ev.status != Failed }

  function Apply(t: Tracker, cfg: Config, e: Effective, ev: Event): Tracker {
    match ev
    case Failure(n, at, w) =>
      if n in t.phonebook && w.score then SetTo(t, e, n, t.phonebook[n].score + cfg.increment, at, w) else t
    case Success(n, _, w) => if n in t.phonebook then Succeeded(t, n, w) else t
    case Update(n, score, alive, at, w) =>
      if alive then Revived(t, n, w) else if n in t.phonebook then SetTo(t, e, n, score, at, w) else t
    case CheckTimeouts(at, refused) => TimedOut(t, e, at, refused)
    case Insert(n, status, _) =>
      if n in t.phonebook then t
      else t.(phonebook := t.phonebook[n := Entry(0.0, if status == Unset then Active else status)])
    case Overwrite(n, status, _) =>
      if n in t.phonebook then t.(phonebook := t.phonebook[n := Entry(0.0, status)]) else t
    case Quarantine(n, _) => if n in t.phonebook then WithStatus(t, n, Quarantined, true) else t
    case Remove(n, _) => t.(phonebook := t.phonebook - {n})
  }

  class ScoreTracker {
    var phonebook: map<NodeId, Entry>
    var quarantineTimers: map<NodeId, int>
    const config: Config

    ghost function Value(): Tracker reads this { Tracker(phonebook, quarantineTimers) }

    constructor (config: Config, phonebook: map<NodeId, Entry>)
      ensures Value() == Tracker(phonebook, map[]) && this.config == config
    {
      this.config := config;
      this.phonebook := phonebook;
      quarantineTimers := map[];
    }

    ghost function Thresholds(): Effective reads this { Scaled(config, |phonebook|) }

    /** Writes to the phonebook; a refused write changes nothing. */
    method SetReliabilityScore(n: NodeId, score: real, taken: bool)
      modifies this`phonebook
      ensures n in old(phonebook) ==> Value() == WithScore(old(Value()), n, score, taken)
      ensures n !in old(phonebook) ==> Value() == old(Value())
      ensures phonebook.Keys == old(phonebook.Keys)
    {
      if n in phonebook && taken {
        phonebook := phonebook[n := phonebook[n].(score := score)];
      }
    }

    method SetStatus(n: NodeId, status: Status, taken: bool)
      modifies this`phonebook
      ensures n in old(phonebook) ==> Value() == WithStatus(old(Value()), n, status, taken)
      ensures n !in old(phonebook) ==> Value() == old(Value())
      ensures phonebook.Keys == old(phonebook.Keys)
    {
      if n in phonebook && taken {
        phonebook := phonebook[n := phonebook[n].(status := status)];
      }
    }

    method RecordFailure(n: NodeId, now: int, w: Writes) returns (score: real)
      modifies this
      ensures Value() == Apply(old(Value()), config, old(Thresholds()), Failure(n, now, w))
      ensures score == if n in phonebook then phonebook[n].score else 0.0
    {
      if n !in phonebook { return 0.0; }
      var oldScore := phonebook[n].score;
      score := oldScore + config.increment;
      if !w.score { return oldScore; }
      SetReliabilityScore(n, score, true);
      Check(n, oldScore, score, now, w.status);
    }

    method RecordSuccess(n: NodeId, now: int, w: Writes)
      modifies this
      ensures Value() == Apply(old(Value()), config, old(Thresholds()), Success(n, now, w))
    {
      if n !in phonebook { return; }
      SetReliabilityScore(n, 0.0, w.score);
      if !w.score { return; }
      SetStatus(n, Active, w.status);
      if !w.status { return; }
      quarantineTimers := quarantineTimers - {n};
    }

    method SetScore(n: NodeId, score: real, alive: bool, now: int, w: Writes)
      modifies this
      ensures Value() == Apply(old(Value()), config, old(Thresholds()), Update(n, score, alive, now, w))
    {
      if alive {
        SetReliabilityScore(n, 0.0, w.score);
        SetStatus(n, Active, w.status);
        quarantineTimers := quarantineTimers - {n};
        return;
      }
      if n !in phonebook { return; }
      var oldScore := phonebook[n].score;
      SetReliabilityScore(n, score, w.score);
      Check(n, oldScore, score, now, w.status);
    }

    method Check(n: NodeId, oldScore: real, newScore: real, now: int, taken: bool)
      requires n in phonebook
      modifies this
      ensures Value() == CheckThresholds(old(Value()), old(Thresholds()), n, oldScore, newScore, now, taken)
    {
      var eff := ComputeEffective(config, |phonebook|);
      if oldScore < eff.quarantine && newScore >= eff.quarantine {
        SetStatus(n, Quarantined, taken);
        quarantineTimers := quarantineTimers[n := now];
        return;
      }
      if oldScore < eff.suspected && newScore >= eff.suspected {
        SetStatus(n, Suspected, taken);
      }
    }

    /** Nodes quarantined for longer than the timeout become failed and lose their timer. */
    method ExpireTimers(eff: Effective, now: int, refused: set<NodeId>) returns (failed: set<NodeId>)
      modifies this
      ensures Value() == TimedOut(old(Value()), eff, now, refused)
      ensures failed == (set n | n in old(quarantineTimers) && Overdue(old(Value()), eff, n, now)) - refused
    {
      var todo := quarantineTimers.Keys;
      failed := {};
      while todo != {}
        invariant todo <= old(quarantineTimers.Keys) && phonebook.Keys == old(phonebook.Keys)
        invariant quarantineTimers.Keys == old(quarantineTimers.Keys) - failed
        invariant forall n | n in quarantineTimers :: quarantineTimers[n] == old(quarantineTimers)[n]
        invariant failed ==
                  set n | n in old(quarantineTimers) && n !in todo && Overdue(old(Value()), eff, n, now) && n !in refused
        invariant forall n | n in phonebook ::
                    phonebook[n] == if n in failed then old(phonebook)[n].(status := Failed) else old(phonebook)[n]
        decreases todo
      {
        var n :| n in todo;
        todo := todo - {n};
        if now - quarantineTimers[n] > eff.timeout && n !in refused {
          if n in phonebook {
            phonebook := phonebook[n := phonebook[n].(status := Failed)];
          }
          quarantineTimers := quarantineTimers - {n};
          failed := failed + {n};
        }
      }
    }

    method CheckQuarantineTimeouts(now: int, refused: set<NodeId>) returns (failed: set<NodeId>)
      modifies this
      ensures Value() == Apply(old(Value()), config, old(Thresholds()), CheckTimeouts(now, refused))
      ensures failed ==
              (set n | n in old(quarantineTimers) && Overdue(old(Value()), old(Thresholds()), n, now)) - refused
    {
      var eff := ComputeEffective(config, |phonebook|);
      failed := ExpireTimers(eff, now, refused);
    }
  }

  // ----- states follow scores

  predicate InStep(e: Effective, t: Tracker, n: NodeId) {
    && (n in t.phonebook ==>
          var x := t.phonebook[n];
          && (x.status == Active <==> x.score < e.suspected)
          && (x.status == Suspected <==> e.suspected <= x.score < e.quarantine)
          && (x.status == Quarantined || x.status == Failed <==> x.score >= e.quarantine))
    && (n in t.timers <==> n in t.phonebook && t.phonebook[n].status == Quarantined)
  }

  function BandOf(e: Effective, score: real): nat {
    if score >= e.quarantine then 2 else if score >= e.suspected then 1 else 0
  }

  /** Setting the score of `n` to `y` moves its status along: the score rises and its new status is taken, or the score
      stays in its band. A score that is refused must not cross a threshold that the code acts on. */
  predicate MovesAlong(e: Effective, x: Entry, y: real, w: Writes) {
    if w.score then BandOf(e, y) == BandOf(e, x.score) || (y > x.score && w.status)
    else !(x.score < e.quarantine <= y) && !(x.score < e.suspected <= y && w.status)
  }

  /** An alive update leaves the entry in step: both writes are taken, or the node was active, or neither write is taken
      and there was no timer to drop. */
  predicate RevivesWhole(x: Entry, w: Writes) {
    (w.score && w.status) || x.status == Active || (!w.score && !w.status && x.status != Quarantined)
  }

  /** Exactly the events that keep `n` in step, as seen from a state in which it is. */
  predicate Harmless(t: Tracker, cfg: Config, e: Effective, ev: Event, n: NodeId) {
    match ev
    case Failure(m, _, w) =>
      m == n && n in t.phonebook && w.score ==> MovesAlong(e, t.phonebook[n], t.phonebook[n].score + cfg.increment, w)
    case Success(m, _, w) =>
      m == n && n in t.phonebook ==> !w.score || w.status || t.phonebook[n].status == Active
    case Update(m, y, alive, _, w) =>
      m == n && n in t.phonebook ==>
        if alive then RevivesWhole(t.phonebook[n], w) else MovesAlong(e, t.phonebook[n], y, w)
    case CheckTimeouts(_, _) => true
    case Insert(m, status, _) => m == n && n !in t.phonebook ==> status == Active || status == Unset
    case Overwrite(m, status, _) => m == n && n in t.phonebook ==> status == Active && !IsQuarantined(t, n)
    case Quarantine(m, _) => m == n && n in t.phonebook ==> IsQuarantined(t, n)
    case Remove(m, _) => m == n ==> !IsQuarantined(t, n)
  }

  lemma SetToKeepsInStepIff(e: Effective, t: Tracker, n: NodeId, y: real, at: int, w: Writes)
    requires Sane(e) && InStep(e, t, n) && n in t.phonebook
    ensures InStep(e, SetTo(t, e, n, y, at, w), n) <==> MovesAlong(e, t.phonebook[n], y, w)
  {
  }

  lemma RevivedKeepsInStepIff(e: Effective, t: Tracker, n: NodeId, w: Writes)
    requires Sane(e) && InStep(e, t, n) && n in t.phonebook
    ensures InStep(e, Revived(t, n, w), n) <==> RevivesWhole(t.phonebook[n], w)
  {
  }

  lemma MemberEventKeepsInStepIff(e: Effective, cfg: Config, t: Tracker, ev: Event, n: NodeId)
    requires Sane(e) && InStep(e, t, n) && (ev.Insert? || ev.Overwrite? || ev.Quarantine? || ev.Remove?)
    ensures InStep(e, Apply(t, cfg, e, ev), n) <==> Harmless(t, cfg, e, ev, n)
  {
  }

  /** An event keeps status and timer in step with the score if and only if it is harmless. */
  lemma EventKeepsInStepIff(e: Effective, cfg: Config, t: Tracker, ev: Event, n: NodeId)
    requires Sane(e) && InStep(e, t, n)
    ensures InStep(e, Apply(t, cfg, e, ev), n) <==> Harmless(t, cfg, e, ev, n)
  {
    if ev.Insert? || ev.Overwrite? || ev.Quarantine? || ev.Remove? {
      MemberEventKeepsInStepIff(e, cfg, t, ev, n);
    } else if (ev.Failure? || (ev.Update? && !ev.alive)) && ev.n == n && n in t.phonebook {
      SetToKeepsInStepIff(e, t, n, if ev.Failure? then t.phonebook[n].score + cfg.increment else ev.score, ev.at, ev.w);
    } else if ev.Update? && ev.n == n && n in t.phonebook {
      RevivedKeepsInStepIff(e, t, n, ev.w);
    }
  }

  /** The tracker's own events with every write taken and no update that lowers a score, the arrival of active members,
      and the removal of nodes that are not quarantined. */
  predicate Plain(t: Tracker, ev: Event) {
    match ev
    case Failure(_, _, w) => w == TAKEN
    case Success(_, _, w) => w == TAKEN
    case Update(n, y, alive, _, w) => w == TAKEN && (alive || n !in t.phonebook || y >= t.phonebook[n].score)
    case CheckTimeouts(_, _) => true
    case Insert(_, status, _) => status == Active || status == Unset
    case Remove(n, _) => !IsQuarantined(t, n)
    case _ => false
  }

  lemma PlainIsHarmless(e: Effective, cfg: Config, t: Tracker, ev: Event, n: NodeId)
    requires Sane(e) && 0.0 <= cfg.increment && Plain(t, ev)
    ensures Harmless(t, cfg, e, ev, n)
  {
  }

  /** A run from fresh entries, in which the cluster size stays in one scale band. */
  ghost predicate Run(cfg: Config, e: Effective, states: seq<Tracker>, events: seq<Event>) {
    && |states| == |events| + 1 && states[0].timers == map[]
    && (forall n | n in states[0].phonebook :: states[0].phonebook[n] == Entry(0.0, Active))
    && (forall i | 0 <= i < |events| ::
          && Enabled(events[i]) && Scaled(cfg, |states[i].phonebook|) == e
          && states[i + 1] == Apply(states[i], cfg, e, events[i]))
  }

  /** Over every run of harmless events: Active below the first threshold, Suspected between, Quarantined or Failed above
      the second, and a quarantine timer exactly for Quarantined nodes. */
  lemma {:induction false} HealthFollowsScore(cfg: Config, e: Effective, states: seq<Tracker>, events: seq<Event>,
                                              n: NodeId, i: nat)
    requires Run(cfg, e, states, events) && Sane(e) && i <= |events|
    requires forall k | 0 <= k < i :: Harmless(states[k], cfg, e, events[k], n)
    ensures InStep(e, states[i], n)
  {
    if i > 0 {
      HealthFollowsScore(cfg, e, states, events, n, i - 1);
      assert states[i - 1 + 1] == Apply(states[i - 1], cfg, e, events[i - 1]);
      EventKeepsInStepIff(e, cfg, states[i - 1], events[i - 1], n);
    }
  }

  /** A run keeps `n` in step throughout if and only if each event is harmless where it occurs. */
  lemma HealthFollowsScoreIff(cfg: Config, e: Effective, states: seq<Tracker>, events: seq<Event>, n: NodeId)
    requires Run(cfg, e, states, events) && Sane(e)
    ensures (forall i | 0 <= i < |states| :: InStep(e, states[i], n)) <==>
            (forall i | 0 <= i < |events| :: Harmless(states[i], cfg, e, events[i], n))
  {
    if forall i | 0 <= i < |events| :: Harmless(states[i], cfg, e, events[i], n) {
      forall i | 0 <= i < |states| ensures InStep(e, states[i], n) {
        HealthFollowsScore(cfg, e, states, events, n, i);
      }
    }
    if forall i | 0 <= i < |states| :: InStep(e, states[i], n) {
      forall i | 0 <= i < |events| ensures Harmless(states[i], cfg, e, events[i], n) {
        assert InStep(e, states[i + 1], n);
        EventKeepsInStepIff(e, cfg, states[i], events[i], n);
      }
    }
  }

  /** Every plain run keeps every node in step. */
  lemma PlainRunsFollowScore(cfg: Config, e: Effective, states: seq<Tracker>, events: seq<Event>, n: NodeId, i: nat)
    requires Run(cfg, e, states, events) && Sane(e) && 0.0 <= cfg.increment && i <= |events|
    requires forall k | 0 <= k < i :: Plain(states[k], events[k])
    ensures InStep(e, states[i], n)
  {
    forall k | 0 <= k < i ensures Harmless(states[k], cfg, e, events[k], n) {
      PlainIsHarmless(e, cfg, states[k], events[k], n);
    }
    HealthFollowsScore(cfg, e, states, events, n, i);
  }

  function Newcomer(n: NodeId): Tracker { Tracker(map[n := Entry(0.0, Active)], map[]) }

  lemma OneNode(n: NodeId)
    ensures |Newcomer(n).phonebook| == 1
  {
    assert Newcomer(n).phonebook.Keys == {n} && |Newcomer(n).phonebook| == |Newcomer(n).phonebook.Keys|;
  }

  /** The syncer quarantines a node with a good score and sets no timer, so no timeout check will ever fail it. */
  lemma SyncerBreaksStep(cfg: Config, n: NodeId, at: int) returns (states: seq<Tracker>, events: seq<Event>)
    requires Sane(Scaled(cfg, 1))
    ensures Run(cfg, Scaled(cfg, 1), states, events) && |events| == 1
    ensures InStep(Scaled(cfg, 1), states[0], n) && !InStep(Scaled(cfg, 1), states[1], n)
    ensures IsQuarantined(states[1], n) && forall e, now :: !Overdue(states[1], e, n, now)
  {
    events := [Quarantine(n, at)];
    OneNode(n);
    states := [Newcomer(n), Apply(Newcomer(n), cfg, Scaled(cfg, 1), events[0])];
  }

  /** A sync message that says a quarantined node is active resets its score and status and leaves its timer running, so
      that a timeout check fails it although it is active with a score of 0. */
  lemma MergeFailsActiveNode(cfg: Config, n: NodeId, at: int) returns (states: seq<Tracker>, events: seq<Event>)
    requires Sane(Scaled(cfg, 1))
    ensures Run(cfg, Scaled(cfg, 1), states, events) && |events| == 3
    ensures IsQuarantined(states[1], n) && InStep(Scaled(cfg, 1), states[1], n)
    ensures events[1] == Overwrite(n, Active, at)
    ensures n in states[2].phonebook && states[2].phonebook[n] == Entry(0.0, Active)
    ensures n in states[3].phonebook && states[3].phonebook[n] == Entry(0.0, Failed)
  {
    var e := Scaled(cfg, 1);
    events := [Update(n, e.quarantine, false, at, TAKEN), Overwrite(n, Active, at),
               CheckTimeouts(at + e.timeout + 1, {})];
    OneNode(n);
    var t1 := Tracker(map[n := Entry(e.quarantine, Quarantined)], map[n := at]);
    var t2 := Tracker(map[n := Entry(0.0, Active)], map[n := at]);
    var t3 := Tracker(map[n := Entry(0.0, Failed)], map[]);
    assert t1 == Apply(Newcomer(n), cfg, e, events[0]) && t2 == Apply(t1, cfg, e, events[1]);
    assert t3 == Apply(t2, cfg, e, events[2]);
    assert t1.phonebook.Keys == {n} && |t1.phonebook| == |t1.phonebook.Keys|;
    assert t2.phonebook.Keys == {n} && |t2.phonebook| == |t2.phonebook.Keys|;
    states := [Newcomer(n), t1, t2, t3];
  }

  // ----- what a failure needs

  predicate IsQuarantined(t: Tracker, n: NodeId) { n in t.phonebook && t.phonebook[n].status == Quarantined }

  /** The event raises the score of `n` across the quarantine threshold, as far as the tracker sees. */
  predicate Crosses(cfg: Config, e: Effective, t: Tracker, ev: Event, n: NodeId) {
    && ((ev.Failure? && ev.w.score) || (ev.Update? && !ev.alive)) && ev.n == n && n in t.phonebook
    && t.phonebook[n].score < e.quarantine
    && e.quarantine <= if ev.Failure? then t.phonebook[n].score + cfg.increment else ev.score
  }

  /** A success of `n` with both writes taken, or an alive update. */
  predicate Revives(t: Tracker, ev: Event, n: NodeId) {
    (ev.Success? && ev.n == n && n in t.phonebook && ev.w == TAKEN) || (ev.Update? && ev.alive && ev.n == n)
  }

  /** The timer of `n` in state `j` was started by the crossing at `i`, and nothing revived `n` since. */
  ghost predicate TimedSince(cfg: Config, e: Effective, states: seq<Tracker>, events: seq<Event>, n: NodeId,
                             i: nat, j: nat)
    requires |states| == |events| + 1 && j <= |events|
  {
    && i < j && Crosses(cfg, e, states[i], events[i], n)
    && (forall k | i < k <= j :: n in states[k].timers && states[k].timers[n] == events[i].at)
    && (forall k | i < k < j :: !Revives(states[k], events[k], n))
  }

  /** A timer is started by a crossing alone, and a timer that goes on was not revived. */
  lemma TimerStep(cfg: Config, e: Effective, t: Tracker, ev: Event, n: NodeId)
    requires n in Apply(t, cfg, e, ev).timers
    ensures if Crosses(cfg, e, t, ev, n) then Apply(t, cfg, e, ev).timers[n] == ev.at
            else n in t.timers && Apply(t, cfg, e, ev).timers[n] == t.timers[n] && !Revives(t, ev, n)
  {
  }

  lemma TimedOneMore(cfg: Config, e: Effective, states: seq<Tracker>, events: seq<Event>, n: NodeId, i: nat, j: nat)
    requires |states| == |events| + 1 && j < |events| && TimedSince(cfg, e, states, events, n, i, j)
    requires n in states[j + 1].timers && states[j + 1].timers[n] == states[j].timers[n]
    requires !Revives(states[j], events[j], n)
    ensures TimedSince(cfg, e, states, events, n, i, j + 1)
  {
  }

  /** In every run whatsoever, a quarantine timer dates from the latest crossing of the threshold, with no revival
      since. */
  lemma {:induction false} TimerMarksCrossing(cfg: Config, e: Effective, states: seq<Tracker>, events: seq<Event>,
                                              n: NodeId, j: nat) returns (i: nat)
    requires Run(cfg, e, states, events) && j <= |events| && n in states[j].timers
    ensures TimedSince(cfg, e, states, events, n, i, j)
  {
    var k := j - 1;
    RunStep(cfg, e, states, events, k);
    TimerStep(cfg, e, states[k], events[k], n);
    if Crosses(cfg, e, states[k], events[k], n) {
      i := k;
    } else {
      i := TimerMarksCrossing(cfg, e, states, events, n, k);
      TimedOneMore(cfg, e, states, events, n, i, k);
    }
  }

  lemma RunStep(cfg: Config, e: Effective, states: seq<Tracker>, events: seq<Event>, k: nat)
    requires Run(cfg, e, states, events) && k < |events|
    ensures states[k + 1] == Apply(states[k], cfg, e, events[k]) && Enabled(events[k])
  {
  }

  lemma BecomesFailed(cfg: Config, e: Effective, t: Tracker, ev: Event, n: NodeId)
    requires Enabled(ev) && n in t.phonebook && t.phonebook[n].status != Failed
    requires n in Apply(t, cfg, e, ev).phonebook && Apply(t, cfg, e, ev).phonebook[n].status == Failed
    ensures ev.CheckTimeouts? && Overdue(t, e, n, ev.at)
  {
  }

  /** In every run whatsoever, a node becomes Failed only by a timeout check, more than the effective timeout after it
      crossed the quarantine threshold, with no taken success and no alive update in between. */
  lemma FailureNeedsTimeout(cfg: Config, e: Effective, states: seq<Tracker>, events: seq<Event>, n: NodeId, j: nat)
    returns (i: nat)
    requires Run(cfg, e, states, events) && j < |events|
    requires n in states[j + 1].phonebook && states[j + 1].phonebook[n].status == Failed
    requires n in states[j].phonebook && states[j].phonebook[n].status != Failed
    ensures events[j].CheckTimeouts? && TimedSince(cfg, e, states, events, n, i, j)
    ensures events[j].at - events[i].at > e.timeout
  {
    RunStep(cfg, e, states, events, j);
    BecomesFailed(cfg, e, states[j], events[j], n);
    i := TimerMarksCrossing(cfg, e, states, events, n, j);
  }

  /** In runs of harmless events it was also quarantined all that time. */
  lemma FailureNeedsUninterruptedQuarantine(cfg: Config, e: Effective, states: seq<Tracker>, events: seq<Event>,
                                            n: NodeId, j: nat) returns (i: nat)
    requires Run(cfg, e, states, events) && Sane(e) && j < |events|
    requires forall k | 0 <= k <= j :: Harmless(states[k], cfg, e, events[k], n)
    requires n in states[j + 1].phonebook && states[j + 1].phonebook[n].status == Failed
    requires n in states[j].phonebook && states[j].phonebook[n].status != Failed
    ensures events[j].CheckTimeouts? && TimedSince(cfg, e, states, events, n, i, j)
    ensures events[j].at - events[i].at > e.timeout
    ensures forall k | i < k <= j :: IsQuarantined(states[k], n)
  {
    i := FailureNeedsTimeout(cfg, e, states, events, n, j);
    forall k | i < k <= j ensures IsQuarantined(states[k], n) {
      HealthFollowsScore(cfg, e, states, events, n, k);
      assert n in states[k].timers;
    }
  }

  /** A timeout check fails exactly the known nodes whose timer is older than the timeout, unless the phonebook refuses,
      and takes away exactly the timers that are overdue and not refused. */
  lemma CheckFailsOverdue(cfg: Config, e: Effective, t: Tracker, at: int, refused: set<NodeId>, n: NodeId)
    ensures var t' := Apply(t, cfg, e, CheckTimeouts(at, refused));
            var due := n in t.timers && at > t.timers[n] + e.timeout && n !in refused;
            && t'.phonebook.Keys == t.phonebook.Keys
            && (n in t.phonebook ==>
                  && t'.phonebook[n].score == t.phonebook[n].score
                  && t'.phonebook[n].status == if due then Failed else t.phonebook[n].status)
            && (n in t'.timers <==> n in t.timers && !due) && (n in t'.timers ==> t'.timers[n] == t.timers[n])
  {
  }

  /** A success or an alive update of a known node, with its writes taken, makes it as good as new, and touches no other
      node. */
  lemma RevivalStartsOver(cfg: Config, e: Effective, t: Tracker, ev: Event, n: NodeId, m: NodeId)
    requires n in t.phonebook && m != n
    requires (ev.Success? || (ev.Update? && ev.alive)) && ev.n == n && ev.w == TAKEN
    ensures var t' := Apply(t, cfg, e, ev);
            && n in t'.phonebook && t'.phonebook[n] == Entry(0.0, Active) && n !in t'.timers
            && (m in t'.phonebook <==> m in t.phonebook) && (m in t.phonebook ==> t'.phonebook[m] == t.phonebook[m])
            && (m in t'.timers <==> m in t.timers) && (m in t.timers ==> t'.timers[m] == t.timers[m])
  {
  }

  // ----- failures alone

  /** The tracker after `k` failures of `n`, reported at the given times. */
  function AfterFailures(cfg: Config, e: Effective, t: Tracker, n: NodeId, at: seq<int>): Tracker {
    if at == [] then t
    else Apply(AfterFailures(cfg, e, t, n, at[..|at| - 1]), cfg, e, Failure(n, at[|at| - 1], TAKEN))
  }

  /** The score of `k` failures. */
  function Total(k: nat, inc: real): real { Times(k as real, inc) }

  lemma TotalNext(k: nat, inc: real)
    ensures Total(k + 1, inc) == Total(k, inc) + inc
  {
    DistributeRight((k + 1) as real, k as real, inc);
    TimesOne(inc);
  }

  lemma TotalMonotone(j: nat, k: nat, inc: real)
    requires j <= k && 0.0 < inc
    ensures Total(j, inc) <= Total(k, inc)
    decreases k
  {
    if j < k {
      TotalMonotone(j, k - 1, inc);
      TotalNext(k - 1, inc);
    }
  }

  /** `limit` is the least number of failures whose total reaches `q`. */
  predicate FirstReaches(limit: nat, inc: real, q: real) {
    0 < limit && Total(limit - 1, inc) < q <= Total(limit, inc)
  }

  function Ceiling(x: real): int { -((-x).Floor) }

  /** That least number is the threshold divided by the increment, rounded up. */
  lemma FirstReachesIsCeiling(limit: nat, inc: real, q: real)
    requires 0.0 < inc && 0.0 < q
    ensures FirstReaches(limit, inc, q) <==> limit == Ceiling(q / inc)
  {
    DivideTimes(q, inc);
    var x := q / inc;
    assert x > 0.0 by {
      if x <= 0.0 { TimesMonotone(x, 0.0, inc); TimesOne(inc); }
    }
    if 0 < limit {
      ReachesIff(limit - 1, inc, q);
      ReachesIff(limit, inc, q);
    }
  }

  lemma ReachesIff(k: nat, inc: real, q: real)
    requires 0.0 < inc
    ensures Total(k, inc) >= q <==> k as real >= q / inc
  {
    DivideTimes(q, inc);
    var x, y := q / inc, k as real;
    if y < x {
      TimesIncreasing(y, x, inc);
    } else {
      TimesMonotone(x, y, inc);
    }
  }

  lemma Multiples(k: nat, limit: nat, inc: real, q: real)
    requires 0.0 < inc && FirstReaches(limit, inc, q)
    ensures Total(k, inc) >= q <==> k >= limit
  {
    if k < limit {
      TotalMonotone(k, limit - 1, inc);
    } else {
      TotalMonotone(limit, k, inc);
    }
  }

  /** One failure of a node that is in step and not failed. */
  lemma FailureStep(cfg: Config, e: Effective, t: Tracker, n: NodeId, at: int)
    requires Sane(e) && 0.0 < cfg.increment && n in t.phonebook && InStep(e, t, n) && t.phonebook[n].status != Failed
    ensures var t' := Apply(t, cfg, e, Failure(n, at, TAKEN));
            && n in t'.phonebook && t'.phonebook[n].score == t.phonebook[n].score + cfg.increment
            && InStep(e, t', n) && t'.phonebook[n].status != Failed
            && (n in t'.timers ==> t'.timers[n] == if n in t.timers then t.timers[n] else at)
  {
  }

  /** The tracker after `k` failures of a node that started at score 0. */
  ghost predicate AfterCount(e: Effective, t: Tracker, n: NodeId, k: nat, inc: real) {
    n in t.phonebook && t.phonebook[n].score == Total(k, inc) && InStep(e, t, n) && t.phonebook[n].status != Failed
  }

  lemma CountStep(cfg: Config, e: Effective, t: Tracker, n: NodeId, k: nat, at: int)
    requires Sane(e) && 0.0 < cfg.increment && AfterCount(e, t, n, k, cfg.increment)
    ensures AfterCount(e, Apply(t, cfg, e, Failure(n, at, TAKEN)), n, k + 1, cfg.increment)
  {
    FailureStep(cfg, e, t, n, at);
    TotalNext(k, cfg.increment);
  }

  /** From score 0, failures alone quarantine a node at exactly the first count whose total reaches the threshold,
      and start its timer at that failure. */
  lemma {:induction false} QuarantineAtExactCount(cfg: Config, e: Effective, t: Tracker, n: NodeId, at: seq<int>,
                                                  limit: nat)
    requires Sane(e) && 0.0 < cfg.increment && FirstReaches(limit, cfg.increment, e.quarantine)
    requires n in t.phonebook && t.phonebook[n] == Entry(0.0, Active) && n !in t.timers
    ensures AfterCount(e, AfterFailures(cfg, e, t, n, at), n, |at|, cfg.increment)
    ensures AfterFailures(cfg, e, t, n, at).phonebook[n].status == Quarantined <==> |at| >= limit
    ensures |at| >= limit ==> AfterFailures(cfg, e, t, n, at).timers[n] == at[limit - 1]
  {
    Multiples(|at|, limit, cfg.increment, e.quarantine);
    if at == [] {
      assert Total(0, cfg.increment) == 0.0;
    } else {
      var before, last := at[..|at| - 1], at[|at| - 1];
      var t0 := AfterFailures(cfg, e, t, n, before);
      QuarantineAtExactCount(cfg, e, t, n, before, limit);
      CountStep(cfg, e, t0, n, |before|, last);
      FailureStep(cfg, e, t0, n, last);
    }
  }

  /** After a revival it takes the same number of failures again. */
  lemma CountStartsOver(cfg: Config, e: Effective, t: Tracker, ev: Event, n: NodeId, at: seq<int>, limit: nat)
    requires Sane(e) && 0.0 < cfg.increment && FirstReaches(limit, cfg.increment, e.quarantine) && n in t.phonebook
    requires (ev.Success? || (ev.Update? && ev.alive)) && ev.n == n && ev.w == TAKEN
    ensures var t' := AfterFailures(cfg, e, Apply(t, cfg, e, ev), n, at);
            n in t'.phonebook && (t'.phonebook[n].status == Quarantined <==> |at| >= limit)
  {
    RevivalStartsOver(cfg, e, t, ev, n, n + "x");
    QuarantineAtExactCount(cfg, e, Apply(t, cfg, e, ev), n, at, limit);
  }
}
