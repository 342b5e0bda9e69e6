/**
  Elections do not get stuck: some step is always possible, only finitely many steps fit between two ticks
  of the clock, and so every run can be continued past every verdict time.
 */
module ElectionProgress {
  import opened Options
  import opened Claims
  import opened ElectionProtocol
  import opened TopicBuffer
  import opened ElectionSafety
  import opened ElectionTraffic
  import opened ElectionOutcome
  import opened FiniteSets

  // ----- some step is always enabled

  /** If `n` does not let the clock move on, it has a step of its own to take. */
  lemma DueStep(c: Config, s: State, n: NodeId) returns (step: Step)
    requires RoundsInv(c, s) && n in c.nodes && !MayIdle(c, n, s.rounds[n], s.now + 1)
    ensures Enabled(c, s, step) && Undisturbed(step) && !step.Sweep? && !step.Tick?
  {
    var r := s.rounds[n];
    assert RoundInv(c, s.now, n, r);
    match r.phase
    case NotStarted => step := Start(n, false);
    case Waiting(d) =>
      step := if r.claims != [] then HearClaim(n) else if r.failures > 0 then HearFailure(n)
              else if s.now >= c.decision(n).publishAt then PublishTimer(n) else Deadline(n);
    case Ready(_, _) => step := Reserve(n, true);
    case Publishing(_) => step := PublishReturns(n, true, {});
    case Tiebreak(_) => step := if r.claims != [] then HearClaim(n) else WindowCloses(n);
    case RemoteWait(_) =>
      step := if r.claims != [] then HearClaim(n) else if r.failures > 0 then HearFailure(n) else Deadline(n);
  }

  lemma NeverStuck(c: Config, s: State) returns (step: Step)
    requires RoundsInv(c, s)
    ensures Enabled(c, s, step) && Undisturbed(step) && !step.Sweep?
    ensures step.Tick? ==> step.to == s.now + 1
  {
    if p :| p in s.net && s.now + 1 > p.sentAt + c.delay {
      step := Deliver(p);
    } else if n :| n in c.nodes && !MayIdle(c, n, s.rounds[n], s.now + 1) {
      step := DueStep(c, s, n);
    } else {
      step := Tick(s.now + 1);
    }
  }

  // ----- work left at one instant

  function Rank(p: Phase): nat {
    match p
    case NotStarted => 5
    case Waiting(_) => 4
    case Ready(_, _) => 3
    case Publishing(_) => 2
    case Tiebreak(_) => 1
    case RemoteWait(_) => 1
    case _ => 0
  }

  ghost function Work(k: nat, r: Round): nat {
    (2 * k + 1) * Rank(r.phase) + |r.claims| + r.failures + |r.buffer|
  }

  ghost function Total(k: nat, ns: set<NodeId>, rounds: map<NodeId, Round>): nat
    requires ns <= rounds.Keys
  {
    if ns == {} then 0 else
    var n :| n in ns;
    Work(k, rounds[n]) + Total(k, ns - {n}, rounds)
  }

  ghost function Weight(c: Config, s: State): nat
    requires s.rounds.Keys == c.nodes
  {
    Total(|c.nodes|, c.nodes, s.rounds) + 2 * |s.net|
  }

  lemma {:induction false} TotalAt(k: nat, ns: set<NodeId>, rounds: map<NodeId, Round>, x: NodeId)
    requires ns <= rounds.Keys && x in ns
    ensures Total(k, ns, rounds) == Work(k, rounds[x]) + Total(k, ns - {x}, rounds)
  {
    var n :| n in ns && Total(k, ns, rounds) == Work(k, rounds[n]) + Total(k, ns - {n}, rounds);
    if n != x {
      TotalAt(k, ns - {n}, rounds, x);
      TotalAt(k, ns - {x}, rounds, n);
      assert ns - {n} - {x} == ns - {x} - {n};
    }
  }

  lemma {:induction false} TotalFrame(k: nat, ns: set<NodeId>, rounds: map<NodeId, Round>, n: NodeId, r: Round)
    requires ns <= rounds.Keys && n !in ns
    ensures Total(k, ns, rounds[n := r]) == Total(k, ns, rounds)
  {
    if ns != {} {
      var x :| x in ns;
      TotalAt(k, ns, rounds, x);
      TotalAt(k, ns, rounds[n := r], x);
      TotalFrame(k, ns - {x}, rounds, n, r);
    }
  }

  lemma TotalUpdate(k: nat, ns: set<NodeId>, rounds: map<NodeId, Round>, n: NodeId, r: Round)
    requires ns <= rounds.Keys && n in ns
    ensures Total(k, ns, rounds[n := r]) == Total(k, ns, rounds) - Work(k, rounds[n]) + Work(k, r)
  {
    TotalAt(k, ns, rounds, n);
    TotalAt(k, ns, rounds[n := r], n);
    TotalFrame(k, ns - {n}, rounds, n, r);
  }

  lemma {:induction false} BroadcastSize(ns: set<NodeId>, from: NodeId, msg: Message, at: int)
    ensures |set d | d in ns && d != from :: Packet(d, msg, at)| <= |ns|
  {
    var all := set d | d in ns && d != from :: Packet(d, msg, at);
    if ns != {} {
      var x :| x in ns;
      BroadcastSize(ns - {x}, from, msg, at);
      var rest := set d | d in ns - {x} && d != from :: Packet(d, msg, at);
      assert all <= rest + {Packet(x, msg, at)};
      SubsetSize(all, rest + {Packet(x, msg, at)});
    }
  }

  lemma {:induction false} ReplaySize(buffer: seq<Buffered<Message>>)
    ensures |ClaimsIn(buffer)| + FailuresIn(buffer) == |buffer|
  {
    if buffer != [] { ReplaySize(buffer[1..]); }
  }

  /** A step of `n` that adds at most one broadcast must lower its rank; one that adds none must lower its work. */
  lemma LocalStepWorks(c: Config, s: State, s': State, n: NodeId, sent: set<Packet>)
    requires s.rounds.Keys == c.nodes && n in c.nodes && n in s'.rounds && s'.rounds == s.rounds[n := s'.rounds[n]]
    requires s'.net <= s.net + sent && |sent| <= |c.nodes|
    requires 2 * |sent| + Work(|c.nodes|, s'.rounds[n]) < Work(|c.nodes|, s.rounds[n])
    ensures s'.rounds.Keys == c.nodes && Weight(c, s') < Weight(c, s)
  {
    TotalUpdate(|c.nodes|, c.nodes, s.rounds, n, s'.rounds[n]);
    SubsetSize(s'.net, s.net + sent);
    UnionSize(s.net, sent);
  }

  lemma RankDrops(k: nat, r: Round, r': Round)
    requires Rank(r'.phase) < Rank(r.phase)
    requires |r'.claims| + r'.failures + |r'.buffer| <= |r.claims| + r.failures + |r.buffer|
    ensures 2 * k + Work(k, r') < Work(k, r)
  {
    assert (2 * k + 1) * Rank(r.phase) >= (2 * k + 1) * (Rank(r'.phase) + 1);
  }

  lemma DeliverWorks(c: Config, s: State, p: Packet)
    requires RoundsInv(c, s) && Enabled(c, s, Deliver(p))
    ensures var s' := Apply(c, s, Deliver(p)); s'.rounds.Keys == c.nodes && Weight(c, s') < Weight(c, s)
  {
    var s' := Apply(c, s, Deliver(p));
    var r, r' := s.rounds[p.dest], s'.rounds[p.dest];
    assert s'.rounds == s.rounds[p.dest := r'] && |s'.net| == |s.net| - 1;
    assert Work(|c.nodes|, r') <= Work(|c.nodes|, r) + 1 by {
      assert r'.phase == r.phase;
    }
    TotalUpdate(|c.nodes|, c.nodes, s.rounds, p.dest, r');
  }

  lemma StartWorks(c: Config, s: State, n: NodeId, busy: bool)
    requires RoundsInv(c, s) && Enabled(c, s, Start(n, busy)) && s.rounds[n].claims == []
    ensures var s' := Apply(c, s, Start(n, busy)); s'.rounds.Keys == c.nodes && Weight(c, s') < Weight(c, s)
  {
    var s' := Apply(c, s, Start(n, busy));
    var sent := Broadcast(c, n, FailedMsg(n), s.now);
    BroadcastSize(c.nodes, n, FailedMsg(n), s.now);
    ReplaySize(s.rounds[n].buffer);
    RankDrops(|c.nodes|, s.rounds[n], s'.rounds[n]);
    LocalStepWorks(c, s, s', n, sent);
  }

  lemma HearWorks(c: Config, s: State, n: NodeId)
    requires RoundsInv(c, s) && Enabled(c, s, HearClaim(n))
    ensures var s' := Apply(c, s, HearClaim(n)); s'.rounds.Keys == c.nodes && Weight(c, s') < Weight(c, s)
  {
    var s' := Apply(c, s, HearClaim(n));
    var r, r' := s.rounds[n], s'.rounds[n];
    assert |r'.claims| == |r.claims| - 1 && r'.failures == r.failures && r'.buffer == r.buffer;
    if Rank(r'.phase) < Rank(r.phase) {
      RankDrops(|c.nodes|, r, r');
    }
    LocalStepWorks(c, s, s', n, {});
  }

  /** Only the phase, to one of lower rank, and the stamp of `n` change, and at most `msg` is broadcast. */
  lemma PhaseWorks(c: Config, s: State, s': State, n: NodeId, msg: Message)
    requires s.rounds.Keys == c.nodes && n in c.nodes && n in s'.rounds
    requires var r, r' := s.rounds[n], s'.rounds[n];
             s'.rounds == s.rounds[n := r.(phase := r'.phase, stamp := r'.stamp)] && Rank(r'.phase) < Rank(r.phase)
    requires s'.net <= s.net + Broadcast(c, n, msg, s.now)
    ensures s'.rounds.Keys == c.nodes && Weight(c, s') < Weight(c, s)
  {
    BroadcastSize(c.nodes, n, msg, s.now);
    RankDrops(|c.nodes|, s.rounds[n], s'.rounds[n]);
    LocalStepWorks(c, s, s', n, Broadcast(c, n, msg, s.now));
  }

  lemma FailWorks(c: Config, s: State, step: Step)
    requires RoundsInv(c, s) && Enabled(c, s, step) && (step.HearFailure? || step.Deadline? || step.Cancel?)
    ensures var s' := Apply(c, s, step); s'.rounds.Keys == c.nodes && Weight(c, s') < Weight(c, s)
  {
    PhaseWorks(c, s, Apply(c, s, step), step.n, FailedMsg(step.n));
  }

  lemma TimerWorks(c: Config, s: State, step: Step)
    requires RoundsInv(c, s) && Enabled(c, s, step) && (step.PublishTimer? || step.WindowCloses?)
    ensures var s' := Apply(c, s, step); s'.rounds.Keys == c.nodes && Weight(c, s') < Weight(c, s)
  {
    PhaseWorks(c, s, Apply(c, s, step), step.n, FailedMsg(step.n));
  }

  lemma ReserveWorks(c: Config, s: State, n: NodeId, free: bool)
    requires RoundsInv(c, s) && Enabled(c, s, Reserve(n, free))
    ensures var s' := Apply(c, s, Reserve(n, free)); s'.rounds.Keys == c.nodes && Weight(c, s') < Weight(c, s)
  {
    var msg := if free then ClaimMsg(ClaimOf(c, n, s.now)) else FailedMsg(n);
    PhaseWorks(c, s, Apply(c, s, Reserve(n, free)), n, msg);
  }

  lemma PublishReturnsWorks(c: Config, s: State, n: NodeId, ok: bool, unsent: set<NodeId>)
    requires RoundsInv(c, s) && Enabled(c, s, PublishReturns(n, ok, unsent))
    ensures var s' := Apply(c, s, PublishReturns(n, ok, unsent));
            s'.rounds.Keys == c.nodes && Weight(c, s') < Weight(c, s)
  {
    PhaseWorks(c, s, Apply(c, s, PublishReturns(n, ok, unsent)), n, FailedMsg(n));
  }

  /** Every step other than a tick or a sweep uses up some of a finite amount of work. */
  lemma StepWorks(c: Config, s: State, step: Step)
    requires RoundsInv(c, s) && Traffic(c, s) && Enabled(c, s, step) && !step.Tick? && !step.Sweep?
    ensures var s' := Apply(c, s, step); s'.rounds.Keys == c.nodes && Weight(c, s') < Weight(c, s)
  {
    match step
    case Deliver(p) => DeliverWorks(c, s, p);
    case Start(n, busy) =>
      assert RoundTraffic(c, s, n, s.rounds[n]);
      StartWorks(c, s, n, busy);
    case HearClaim(n) => HearWorks(c, s, n);
    case Reserve(n, free) => ReserveWorks(c, s, n, free);
    case PublishReturns(n, ok, unsent) => PublishReturnsWorks(c, s, n, ok, unsent);
    case PublishTimer(_) => TimerWorks(c, s, step);
    case WindowCloses(_) => TimerWorks(c, s, step);
    case _ => FailWorks(c, s, step);
  }

  // ----- runs reach any time

  ghost function WorkLeft(c: Config, s: Option<State>): nat {
    if s.Some? && s.value.rounds.Keys == c.nodes then Weight(c, s.value) else 0
  }

  ghost function TimeOf(s: Option<State>): int { if s.Some? then s.value.now else 0 }

  lemma AfterStep(c: Config, t0: int, steps: seq<Step>, step: Step)
    requires After(c, t0, steps).Some? && Enabled(c, After(c, t0, steps).value, step)
    ensures After(c, t0, steps + [step]) == Some(Apply(c, After(c, t0, steps).value, step))
  {
    assert (steps + [step])[..|steps + [step]| - 1] == steps;
  }

  lemma StepTime(c: Config, s: State, step: Step)
    requires Enabled(c, s, step)
    ensures if step.Tick? then Apply(c, s, step).now > s.now else Apply(c, s, step).now == s.now
  {
  }

  /** Every run has a next step that moves the clock or uses up work. */
  lemma NextStep(c: Config, t0: int, steps: seq<Step>) returns (step: Step)
    requires Sane(c) && (forall n | n in c.nodes :: t0 <= c.start(n)) && After(c, t0, steps).Some?
    ensures Undisturbed(step) && After(c, t0, steps + [step]).Some?
    ensures var s, s' := After(c, t0, steps), After(c, t0, steps + [step]);
            TimeOf(s) < TimeOf(s') || (TimeOf(s) == TimeOf(s') && WorkLeft(c, s') < WorkLeft(c, s))
  {
    var s := After(c, t0, steps).value;
    RunKeepsRounds(c, t0, steps);
    RunKeepsTraffic(c, t0, steps);
    step := NeverStuck(c, s);
    AfterStep(c, t0, steps, step);
    StepTime(c, s, step);
    if !step.Tick? { StepWorks(c, s, step); }
  }

  /** Every undisturbed run can be continued, undisturbed, to any time. */
  lemma {:induction false} RunReaches(c: Config, t0: int, steps: seq<Step>, until: int) returns (all: seq<Step>)
    requires Sane(c) && (forall n | n in c.nodes :: t0 <= c.start(n))
    requires After(c, t0, steps).Some? && forall x | x in steps :: Undisturbed(x)
    ensures steps <= all && After(c, t0, all).Some? && TimeOf(After(c, t0, all)) >= until
    ensures forall x | x in all :: Undisturbed(x)
    decreases until - TimeOf(After(c, t0, steps)), WorkLeft(c, After(c, t0, steps))
  {
    if TimeOf(After(c, t0, steps)) >= until {
      all := steps;
    } else {
      var step := NextStep(c, t0, steps);
      all := RunReaches(c, t0, steps + [step], until);
    }
  }

  lemma {:induction false} LatestVerdict(c: Config, ns: set<NodeId>) returns (t: int)
    requires ns <= c.nodes
    ensures forall n | n in ns :: VerdictBy(c, n) < t
  {
    if ns == {} {
      t := 0;
    } else {
      var n :| n in ns;
      var t' := LatestVerdict(c, ns - {n});
      t := Max(t', VerdictBy(c, n) + 1);
    }
  }

  /** Every undisturbed run of a small cluster has a continuation that ends with the favourite as the one winner and
      every other node a loser. */
  lemma ElectionCompletes(c: Config, t0: int, steps: seq<Step>, best: NodeId) returns (more: seq<Step>)
    requires Timely(c) && Favourite(c, best) && AmpleTime(c, best) && |c.nodes| <= c.capacity + 1
    requires (forall k | k in c.nodes :: t0 <= c.start(k)) && (forall x | x in steps :: Undisturbed(x))
    requires After(c, t0, steps).Some?
    ensures After(c, t0, steps + more).Some?
    ensures var s := After(c, t0, steps + more).value;
            && s.rounds.Keys == c.nodes && s.rounds[best].phase == Won
            && forall n | n in c.nodes && n != best :: s.rounds[n].phase.Lost?
  {
    var end := LatestVerdict(c, c.nodes);
    var all := RunReaches(c, t0, steps, end);
    more := all[|steps|..];
    assert steps + more == all;
    SmallClusterNeverOverflows(c, t0, steps + more);
    RunKeepsRounds(c, t0, steps + more);
    var s := After(c, t0, steps + more).value;
    forall n | n in c.nodes
      ensures if n == best then s.rounds[n].phase.Won? else s.rounds[n].phase.Lost?
    {
      assert VerdictBy(c, n) < end;
      ExactlyTheFavouriteWins(c, t0, steps + more, best, n);
    }
  }
}
