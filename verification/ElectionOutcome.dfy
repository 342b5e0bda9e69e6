/**
  How an election ends: every round reports one verdict by a known time, and an undisturbed election
  with a unique best candidate elects exactly that candidate.
 */
module ElectionOutcome {
  import opened Claims
  import opened ElectionProtocol
  import opened TopicBuffer
  import opened ElectionSafety
  import opened ElectionTraffic

  // ----- one verdict, in time, under any disturbance

  ghost predicate Sane(c: Config) { 0 <= c.timeout && 0 <= c.publishing && 0 <= c.window && 0 <= c.lateness }

  ghost predicate RoundsInv(c: Config, s: State) {
    && s.rounds.Keys == c.nodes
    && (forall n | n in c.nodes :: RoundInv(c, s.now, n, s.rounds[n]))
    && (forall p | p in s.net :: p.dest in c.nodes)
  }

  /** The round of one node changes to another that satisfies the invariant. */
  lemma RoundsFrame(c: Config, s: State, s': State, n: NodeId)
    requires RoundsInv(c, s) && n in c.nodes && n in s'.rounds && s'.rounds == s.rounds[n := s'.rounds[n]]
    requires s'.now == s.now && RoundInv(c, s.now, n, s'.rounds[n])
    requires forall p | p in s'.net && p !in s.net :: p.dest in c.nodes
    ensures RoundsInv(c, s')
  {
  }

  lemma SweepKeepsRounds(c: Config, s: State, n: NodeId)
    requires RoundsInv(c, s) && Enabled(c, s, Sweep(n))
    ensures RoundsInv(c, Apply(c, s, Sweep(n)))
  {
    var s' := Apply(c, s, Sweep(n));
    RoundFrame(c, s.now, n, s.rounds[n], s'.rounds[n]);
    RoundsFrame(c, s, s', n);
  }

  lemma StartKeepsRounds(c: Config, s: State, n: NodeId, busy: bool)
    requires Sane(c) && RoundsInv(c, s) && Enabled(c, s, Start(n, busy))
    ensures RoundsInv(c, Apply(c, s, Start(n, busy)))
  {
    assert RoundInv(c, s.now, n, s.rounds[n]);
    RoundsFrame(c, s, Apply(c, s, Start(n, busy)), n);
  }

  lemma HearKeepsRounds(c: Config, s: State, n: NodeId)
    requires Sane(c) && RoundsInv(c, s) && Enabled(c, s, HearClaim(n))
    ensures RoundsInv(c, Apply(c, s, HearClaim(n)))
  {
    assert RoundInv(c, s.now, n, s.rounds[n]);
    RoundsFrame(c, s, Apply(c, s, HearClaim(n)), n);
  }

  lemma TimerKeepsRounds(c: Config, s: State, step: Step)
    requires Sane(c) && RoundsInv(c, s) && Enabled(c, s, step)
    requires step.HearFailure? || step.PublishTimer? || step.Deadline? || step.Cancel?
    ensures RoundsInv(c, Apply(c, s, step))
  {
    assert RoundInv(c, s.now, step.n, s.rounds[step.n]);
    RoundsFrame(c, s, Apply(c, s, step), step.n);
  }

  lemma ReserveKeepsRounds(c: Config, s: State, n: NodeId, free: bool)
    requires Sane(c) && RoundsInv(c, s) && Enabled(c, s, Reserve(n, free))
    ensures RoundsInv(c, Apply(c, s, Reserve(n, free)))
  {
    assert RoundInv(c, s.now, n, s.rounds[n]);
    RoundsFrame(c, s, Apply(c, s, Reserve(n, free)), n);
  }

  lemma PublishKeepsRounds(c: Config, s: State, step: Step)
    requires Sane(c) && RoundsInv(c, s) && Enabled(c, s, step)
    requires step.PublishReturns? || step.WindowCloses?
    ensures RoundsInv(c, Apply(c, s, step))
  {
    assert RoundInv(c, s.now, step.n, s.rounds[step.n]);
    RoundsFrame(c, s, Apply(c, s, step), step.n);
  }

  lemma TickKeepsRounds(c: Config, s: State, to: int)
    requires RoundsInv(c, s) && Enabled(c, s, Tick(to))
    ensures RoundsInv(c, Apply(c, s, Tick(to)))
  {
    forall n | n in c.nodes ensures RoundInv(c, to, n, s.rounds[n]) {
      assert RoundInv(c, s.now, n, s.rounds[n]) && MayIdle(c, n, s.rounds[n], to);
    }
  }

  lemma DeliverKeepsRounds(c: Config, s: State, p: Packet)
    requires RoundsInv(c, s) && Enabled(c, s, Deliver(p))
    ensures RoundsInv(c, Apply(c, s, Deliver(p)))
  {
    var s' := Apply(c, s, Deliver(p));
    ReceiveFrame(c, s.rounds[p.dest], p.msg, s.now);
    RoundFrame(c, s.now, p.dest, s.rounds[p.dest], s'.rounds[p.dest]);
    RoundsFrame(c, s, s', p.dest);
  }

  lemma StepKeepsRounds(c: Config, s: State, step: Step)
    requires Sane(c) && RoundsInv(c, s) && Enabled(c, s, step)
    ensures RoundsInv(c, Apply(c, s, step))
  {
    match step
    case Tick(to) => TickKeepsRounds(c, s, to);
    case Deliver(p) => DeliverKeepsRounds(c, s, p);
    case Sweep(n) => SweepKeepsRounds(c, s, n);
    case Start(n, busy) => StartKeepsRounds(c, s, n, busy);
    case HearClaim(n) => HearKeepsRounds(c, s, n);
    case Reserve(n, free) => ReserveKeepsRounds(c, s, n, free);
    case PublishReturns(_, _, _) => PublishKeepsRounds(c, s, step);
    case WindowCloses(_) => PublishKeepsRounds(c, s, step);
    case _ => TimerKeepsRounds(c, s, step);
  }

  lemma {:induction false} RunKeepsRounds(c: Config, t0: int, steps: seq<Step>)
    requires Sane(c) && (forall n | n in c.nodes :: t0 <= c.start(n))
    ensures After(c, t0, steps).Some? ==> RoundsInv(c, After(c, t0, steps).value)
  {
    if steps != [] && After(c, t0, steps).Some? {
      var before := steps[..|steps| - 1];
      RunKeepsRounds(c, t0, before);
      StepKeepsRounds(c, After(c, t0, before).value, steps[|steps| - 1]);
    }
  }

  /** The latest time at which the round of `n` can report. */
  function VerdictBy(c: Config, n: NodeId): int {
    c.start(n) + c.timeout + c.lateness + Max(c.publishing, c.window)
  }

  /** Every round has reported once its election timeout, its lateness and one publish or tiebreak window have passed. */
  lemma VerdictInTime(c: Config, t0: int, steps: seq<Step>, n: NodeId)
    requires Sane(c) && (forall k | k in c.nodes :: t0 <= c.start(k)) && n in c.nodes
    requires After(c, t0, steps).Some? && After(c, t0, steps).value.now > VerdictBy(c, n)
    ensures var s := After(c, t0, steps).value; n in s.rounds && IsDone(s.rounds[n].phase)
  {
    RunKeepsRounds(c, t0, steps);
    var s := After(c, t0, steps).value;
    assert RoundInv(c, s.now, n, s.rounds[n]);
  }

  lemma StepKeepsVerdict(c: Config, s: State, step: Step, n: NodeId)
    requires Enabled(c, s, step) && n in s.rounds && IsDone(s.rounds[n].phase)
    ensures var s' := Apply(c, s, step); n in s'.rounds && s'.rounds[n].phase == s.rounds[n].phase
  {
  }

  lemma {:induction false} AfterPrefix(c: Config, t0: int, steps: seq<Step>, more: seq<Step>)
    requires After(c, t0, steps + more).Some?
    ensures After(c, t0, steps).Some?
  {
    if more == [] {
      assert steps + more == steps;
    } else {
      assert (steps + more)[..|steps + more| - 1] == steps + more[..|more| - 1];
      AfterPrefix(c, t0, steps, more[..|more| - 1]);
    }
  }

  /** A reported verdict is final: no continuation of the run changes it. */
  lemma {:induction false} VerdictIsFinal(c: Config, t0: int, steps: seq<Step>, more: seq<Step>, n: NodeId)
    requires After(c, t0, steps + more).Some?
    requires After(c, t0, steps).Some? ==>
               n in After(c, t0, steps).value.rounds && IsDone(After(c, t0, steps).value.rounds[n].phase)
    ensures After(c, t0, steps).Some?
    ensures var s, s' := After(c, t0, steps).value, After(c, t0, steps + more).value;
            n in s.rounds && n in s'.rounds && s'.rounds[n].phase == s.rounds[n].phase
  {
    AfterPrefix(c, t0, steps, more);
    if more == [] {
      assert steps + more == steps;
    } else {
      var k := |more| - 1;
      assert (steps + more)[..|steps + more| - 1] == steps + more[..k];
      assert (steps + more)[|steps + more| - 1] == more[k];
      VerdictIsFinal(c, t0, steps, more[..k], n);
      StepKeepsVerdict(c, After(c, t0, steps + more[..k]).value, more[k], n);
    }
  }

  // ----- the best candidate wins

  /** `best` outscores every other eligible node. */
  ghost predicate Favourite(c: Config, best: NodeId) {
    && best in c.nodes && c.decision(best).eligible
    && (forall n | n in c.nodes && n != best && c.decision(n).eligible ::
          c.decision(n).score < c.decision(best).score)
  }

  /** No candidate's plan runs into its deadline, and the favourite's claim reaches in time the nodes that can only wait
      for it. */
  ghost predicate AmpleTime(c: Config, best: NodeId) {
    && 0 < c.timeout
    && (forall n | n in c.nodes && c.decision(n).eligible :: c.decision(n).publishAt < c.start(n) + c.timeout)
    && (forall n | n in c.nodes && !c.decision(n).eligible ::
          Max(c.start(best), c.decision(best).publishAt) + c.lateness + c.delay < c.start(n) + c.timeout)
  }

  /** Not a cancellation, a publish error or a claim slot held by another replica of the capsule. */
  predicate Undisturbed(step: Step) {
    match step
    case Start(_, busy) => !busy
    case Reserve(_, free) => free
    case PublishReturns(_, ok, _) => ok
    case Cancel(_) => false
    case _ => true
  }

  ghost predicate CalmRound(c: Config, best: NodeId, n: NodeId, r: Round) {
    && r.failures == 0 && FailuresIn(r.buffer) == 0 && !r.phase.Failed?
    && (r.phase.RemoteWait? ==> !c.decision(n).eligible)
    && (n == best ==> !r.phase.Lost?)
    && (n != best ==> !r.phase.Won?)
  }

  ghost predicate Calm(c: Config, s: State, best: NodeId) {
    && Inv(c, s) && Traffic(c, s)
    && (forall n | n in c.nodes :: CalmRound(c, best, n, s.rounds[n]))
    && (forall p | p in s.net :: p.msg.ClaimMsg?)
  }

  lemma {:induction false} FailuresInAppend(buffer: seq<Buffered<Message>>, x: Buffered<Message>)
    ensures FailuresIn(buffer + [x]) == FailuresIn(buffer) + (if x.msg.FailedMsg? then 1 else 0)
  {
    if buffer == [] {
      assert [x][1..] == [];
    } else {
      assert (buffer + [x])[1..] == buffer[1..] + [x];
      FailuresInAppend(buffer[1..], x);
    }
  }

  lemma {:induction false} FailuresInKept(buffer: seq<Buffered<Message>>, cutoff: int)
    ensures FailuresIn(Kept(buffer, cutoff)) <= FailuresIn(buffer)
  {
    if buffer != [] {
      var rest := Kept(buffer[1..], cutoff);
      FailuresInKept(buffer[1..], cutoff);
      if buffer[0].receivedAt > cutoff {
        assert ([buffer[0]] + rest)[1..] == rest;
      } else {
        assert [] + rest == rest;
      }
    }
  }

  /** The favourite's claim beats every other candidate, so nobody else's window closes in victory. */
  lemma OthersDoNotWin(c: Config, s: State, best: NodeId, n: NodeId)
    requires Inv(c, s) && !s.overflowed && Favourite(c, best) && n in c.nodes && n != best
    requires var p := s.rounds[best].phase; Fresh(p) || Live(p)
    ensures !s.rounds[n].phase.Won?
  {
    assert PairInv(c, s.now, s.net, n, s.rounds[n], best, s.rounds[best]);
    assert PairInv(c, s.now, s.net, best, s.rounds[best], n, s.rounds[n]);
    assert RoundInv(c, s.now, n, s.rounds[n]) && RoundInv(c, s.now, best, s.rounds[best]);
  }

  /** No round of a calm election reaches its deadline: a claim is always heard before. */
  lemma NobodyTimesOut(c: Config, s: State, best: NodeId, n: NodeId)
    requires Timely(c) && Favourite(c, best) && AmpleTime(c, best) && Calm(c, s, best) && !s.overflowed
    requires n in c.nodes && (s.rounds[n].phase.Waiting? || s.rounds[n].phase.RemoteWait?)
    ensures s.now < s.rounds[n].phase.deadline
  {
    assert RoundInv(c, s.now, n, s.rounds[n]) && RoundInv(c, s.now, best, s.rounds[best]);
    assert CalmRound(c, best, n, s.rounds[n]) && CalmRound(c, best, best, s.rounds[best]);
    if s.rounds[n].phase.RemoteWait? {
      assert PairInv(c, s.now, s.net, n, s.rounds[n], best, s.rounds[best]);
    }
  }

  lemma RivalsAreWorse(c: Config, s: State, best: NodeId, m: Claim)
    requires Favourite(c, best) && Traffic(c, s) && best in s.rounds && m in s.rounds[best].claims
    ensures !IsBetter(m, c.decision(best), best)
  {
    assert RoundTraffic(c, s, best, s.rounds[best]);
    assert Genuine(c, s, best, m);
    assert RoundTraffic(c, s, m.node, s.rounds[m.node]);
  }

  /** One step of `n` itself: it does not fail, and gossips claims only. */
  ghost predicate CalmStep(c: Config, s: State, s': State, best: NodeId, n: NodeId) {
    && n in s'.rounds && s'.rounds == s.rounds[n := s'.rounds[n]]
    && (forall p | p in s'.net && p !in s.net :: p.msg.ClaimMsg?)
    && var r := s'.rounds[n];
       && r.failures == 0 && FailuresIn(r.buffer) == 0 && !r.phase.Failed?
       && (r.phase.RemoteWait? ==> !c.decision(n).eligible)
       && (n == best ==> !r.phase.Lost?)
  }

  lemma StartIsCalm(c: Config, s: State, best: NodeId, n: NodeId)
    requires Favourite(c, best) && AmpleTime(c, best) && 0 <= c.delay
    requires Calm(c, s, best) && Enabled(c, s, Start(n, false)) && n in c.nodes
    ensures CalmStep(c, s, Apply(c, s, Start(n, false)), best, n)
  {
    assert CalmRound(c, best, n, s.rounds[n]);
  }

  lemma SweepIsCalm(c: Config, s: State, best: NodeId, n: NodeId)
    requires Calm(c, s, best) && Enabled(c, s, Sweep(n)) && n in c.nodes
    ensures CalmStep(c, s, Apply(c, s, Sweep(n)), best, n)
  {
    assert CalmRound(c, best, n, s.rounds[n]);
    FailuresInKept(s.rounds[n].buffer, s.now - c.ttl);
  }

  /** A claim that is read is no better than the favourite's. */
  lemma HearIsCalm(c: Config, s: State, best: NodeId, n: NodeId)
    requires Favourite(c, best) && Calm(c, s, best) && Enabled(c, s, HearClaim(n)) && n in c.nodes
    ensures CalmStep(c, s, Apply(c, s, HearClaim(n)), best, n)
  {
    var r := s.rounds[n];
    assert CalmRound(c, best, n, r);
    if n == best {
      RivalsAreWorse(c, s, best, r.claims[0]);
    }
    HearPhase(c, s.now, n, r);
  }

  lemma HearPhase(c: Config, now: int, n: NodeId, r: Round)
    requires r.claims != [] && (r.phase.Waiting? || r.phase.Tiebreak? || r.phase.RemoteWait?)
    ensures var r' := Hear(c, now, n, r);
            && r'.failures == r.failures && r'.buffer == r.buffer && !r'.phase.Failed? && !r'.phase.RemoteWait?
            && (r'.phase.Lost? ==> IsBetter(r.claims[0], c.decision(n), n) || r.phase.RemoteWait?)
  {
  }

  lemma TimerIsCalm(c: Config, s: State, best: NodeId, step: Step, n: NodeId)
    requires Timely(c) && Favourite(c, best) && AmpleTime(c, best) && Calm(c, s, best)
    requires !s.overflowed && Enabled(c, s, step) && Undisturbed(step) && n in c.nodes
    requires (step.PublishTimer? || step.Reserve? || step.PublishReturns? || step.WindowCloses?) && step.n == n
    ensures CalmStep(c, s, Apply(c, s, step), best, n)
  {
    assert CalmRound(c, best, n, s.rounds[n]);
  }

  /** A calm election offers no failure to hear and no deadline to miss. */
  lemma NoFailureStep(c: Config, s: State, best: NodeId, step: Step)
    requires Timely(c) && Favourite(c, best) && AmpleTime(c, best) && Calm(c, s, best) && !s.overflowed
    requires step.HearFailure? || step.Deadline?
    ensures !Enabled(c, s, step)
  {
    if step.n in c.nodes {
      var r := s.rounds[step.n];
      assert CalmRound(c, best, step.n, r);
      if r.phase.Waiting? || r.phase.RemoteWait? { NobodyTimesOut(c, s, best, step.n); }
    }
  }

  lemma DeliverIsCalm(c: Config, s: State, best: NodeId, p: Packet)
    requires Calm(c, s, best) && Enabled(c, s, Deliver(p))
    ensures CalmStep(c, s, Apply(c, s, Deliver(p)), best, p.dest)
  {
    assert CalmRound(c, best, p.dest, s.rounds[p.dest]);
    FailuresInAppend(s.rounds[p.dest].buffer, Buffered(s.now, p.msg));
  }

  lemma CalmStepKeepsCalm(c: Config, s: State, s': State, best: NodeId, n: NodeId)
    requires Favourite(c, best) && Calm(c, s, best) && n in c.nodes && CalmStep(c, s, s', best, n)
    requires Inv(c, s') && Traffic(c, s') && !s'.overflowed
    ensures Calm(c, s', best)
  {
    assert CalmRound(c, best, best, s.rounds[best]);
    assert Fresh(s'.rounds[best].phase) || Live(s'.rounds[best].phase);
    forall k | k in c.nodes
      ensures CalmRound(c, best, k, s'.rounds[k])
    {
      assert CalmRound(c, best, k, s.rounds[k]);
      if k != best { OthersDoNotWin(c, s', best, k); }
    }
  }

  lemma StepKeepsCalm(c: Config, s: State, best: NodeId, step: Step)
    requires Timely(c) && Favourite(c, best) && AmpleTime(c, best) && Calm(c, s, best)
    requires Enabled(c, s, step) && Undisturbed(step) && !Apply(c, s, step).overflowed
    ensures Calm(c, Apply(c, s, step), best)
  {
    StepKeepsInv(c, s, step);
    StepKeepsTraffic(c, s, step);
    var s' := Apply(c, s, step);
    if step.Tick? {
      forall k | k in c.nodes ensures CalmRound(c, best, k, s'.rounds[k]) {
        assert CalmRound(c, best, k, s.rounds[k]);
      }
    } else if step.Deliver? {
      DeliverIsCalm(c, s, best, step.packet);
      CalmStepKeepsCalm(c, s, s', best, step.packet.dest);
    } else if step.HearFailure? || step.Deadline? {
      NoFailureStep(c, s, best, step);
    } else {
      if step.Start? {
        StartIsCalm(c, s, best, step.n);
      } else if step.Sweep? {
        SweepIsCalm(c, s, best, step.n);
      } else if step.HearClaim? {
        HearIsCalm(c, s, best, step.n);
      } else {
        TimerIsCalm(c, s, best, step, step.n);
      }
      CalmStepKeepsCalm(c, s, s', best, step.n);
    }
  }

  lemma {:induction false} RunKeepsCalm(c: Config, t0: int, steps: seq<Step>, best: NodeId)
    requires Timely(c) && Favourite(c, best) && AmpleTime(c, best)
    requires (forall n | n in c.nodes :: t0 <= c.start(n)) && (forall x | x in steps :: Undisturbed(x))
    requires After(c, t0, steps).Some? && !After(c, t0, steps).value.overflowed
    ensures Calm(c, After(c, t0, steps).value, best)
  {
    if steps != [] {
      var before := steps[..|steps| - 1];
      RunKeepsCalm(c, t0, before, best);
      StepKeepsCalm(c, After(c, t0, before).value, best, steps[|steps| - 1]);
    }
  }

  /** In every undisturbed run the favourite is never beaten, nobody else wins and nobody fails; once the
      verdict times have passed the favourite has won and every other round has lost. */
  lemma ExactlyTheFavouriteWins(c: Config, t0: int, steps: seq<Step>, best: NodeId, n: NodeId)
    requires Timely(c) && Favourite(c, best) && AmpleTime(c, best) && n in c.nodes
    requires (forall k | k in c.nodes :: t0 <= c.start(k)) && (forall x | x in steps :: Undisturbed(x))
    requires After(c, t0, steps).Some? && !After(c, t0, steps).value.overflowed
    ensures var s := After(c, t0, steps).value;
            && n in s.rounds && !s.rounds[n].phase.Failed?
            && (IsDone(s.rounds[n].phase) ==> if n == best then s.rounds[n].phase.Won? else s.rounds[n].phase.Lost?)
            && (s.now > VerdictBy(c, n) ==> IsDone(s.rounds[n].phase))
  {
    RunKeepsCalm(c, t0, steps, best);
    var s := After(c, t0, steps).value;
    assert CalmRound(c, best, n, s.rounds[n]);
    if s.now > VerdictBy(c, n) {
      VerdictInTime(c, t0, steps, n);
    }
  }
}
