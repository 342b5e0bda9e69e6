/**
  Late stamps and equal scores: whenever claims can be stamped late, two nodes of equal score whose plans are close can
  both win, among any number of other nodes; and plans further apart than the lateness are safe.
 */
module ElectionTies {
  import opened Options
  import opened Claims
  import opened ElectionProtocol
  import opened ElectionSafety
  import opened ElectionLimits

  /** Any two plans of equal score are at least `gap` apart. */
  ghost predicate TiesApart(c: Config, gap: int) {
    forall a, b | a in c.nodes && b in c.nodes && Tied(c, a, b) ::
      || c.decision(a).publishAt + gap <= c.decision(b).publishAt
      || c.decision(b).publishAt + gap <= c.decision(a).publishAt
  }

  /** No run at all has two winners, as long as equal-scored nodes do not plan in the past or too close together. */
  ghost predicate SafeApart(p: Bounds, gap: int) {
    forall c: Config, t0: int, steps: seq<Step> | HasBounds(c, p) && TiesPunctual(c) && TiesApart(c, gap) ::
      !TwoWinners(c, t0, steps)
  }

  // ----- runs of two nodes among bystanders

  const IDLE := Round(NotStarted, None, [], 0, [])

  /** A node that only waits for a verdict, or has heard one. */
  ghost predicate Bystander(c: Config, n: NodeId, r: Round) {
    r.claims == [] && r.failures == 0 && (r.phase == RemoteWait(c.start(n) + c.timeout) || r.phase.Lost?)
  }

  ghost predicate OthersStandBy(c: Config, rounds: map<NodeId, Round>, a: NodeId, b: NodeId) {
    forall n | n in c.nodes && n in rounds && n != a && n != b :: Bystander(c, n, rounds[n])
  }

  /** A run under construction in which only `a` and `b` take part. */
  ghost predicate Amid(c: Config, steps: seq<Step>, s: State, a: NodeId, b: NodeId) {
    && After(c, 0, steps) == Some(s) && a != b && a in c.nodes && b in c.nodes
    && s.rounds.Keys == c.nodes && !s.overflowed && OthersStandBy(c, s.rounds, a, b)
  }

  lemma Extended(c: Config, steps: seq<Step>, s: State, step: Step)
    requires After(c, 0, steps) == Some(s) && Enabled(c, s, step)
    ensures After(c, 0, steps + [step]) == Some(Apply(c, s, step))
  {
    assert (steps + [step])[..|steps|] == steps;
  }

  /** A step that leaves the bystanders alone. */
  lemma Move(c: Config, steps: seq<Step>, s: State, a: NodeId, b: NodeId, step: Step)
    returns (steps': seq<Step>, s': State)
    requires Amid(c, steps, s, a, b) && Enabled(c, s, step) && !Apply(c, s, step).overflowed
    requires Apply(c, s, step).rounds.Keys == c.nodes && OthersStandBy(c, Apply(c, s, step).rounds, a, b)
    ensures Amid(c, steps', s', a, b) && s' == Apply(c, s, step)
  {
    Extended(c, steps, s, step);
    steps', s' := steps + [step], Apply(c, s, step);
  }

  lemma StandsBy(c: Config, s: State, n: NodeId)
    requires n in s.rounds && s.rounds[n] == IDLE && s.now == c.start(n) && 0 < c.timeout && !s.overflowed
    ensures Apply(c, s, Start(n, true)) ==
            s.(rounds := s.rounds[n := Round(RemoteWait(s.now + c.timeout), None, [], 0, [])])
  {
  }

  /** Every bystander starts as a node that holds another replica of the capsule. */
  lemma {:induction false} BystandersStart(c: Config, steps0: seq<Step>, s0: State, a: NodeId, b: NodeId, x: int,
                                           todo: set<NodeId>)
    returns (steps: seq<Step>, s: State)
    requires After(c, 0, steps0) == Some(s0) && s0.now == x && s0.net == {} && !s0.overflowed
    requires a != b && a in c.nodes && b in c.nodes && s0.rounds.Keys == c.nodes && 0 < c.timeout
    requires todo <= c.nodes - {a, b} && forall n | n in c.nodes :: c.start(n) == x
    requires forall n | n in c.nodes ::
      if n in todo || n == a || n == b then s0.rounds[n] == IDLE else Bystander(c, n, s0.rounds[n])
    ensures Amid(c, steps, s, a, b) && s.now == x && s.net == {} && s.rounds[a] == s.rounds[b] == IDLE
    decreases todo
  {
    if todo == {} {
      steps, s := steps0, s0;
    } else {
      var n :| n in todo;
      Extended(c, steps0, s0, Start(n, true));
      var s1 := Apply(c, s0, Start(n, true));
      StandsBy(c, s0, n);
      steps, s := BystandersStart(c, steps0 + [Start(n, true)], s1, a, b, x, todo - {n});
    }
  }

  lemma Opens(c: Config, a: NodeId, b: NodeId, x: int) returns (steps: seq<Step>, s: State)
    requires a != b && a in c.nodes && b in c.nodes && 0 < c.timeout && 0 <= x
    requires forall n | n in c.nodes :: c.start(n) == x
    ensures Amid(c, steps, s, a, b) && s.now == x && s.net == {} && s.rounds[a] == s.rounds[b] == IDLE
  {
    steps, s := [], Init(c, 0);
    if x > 0 {
      Extended(c, steps, s, Tick(x));
      steps, s := [Tick(x)], Apply(c, s, Tick(x));
    }
    steps, s := BystandersStart(c, steps, s, a, b, x, c.nodes - {a, b});
  }

  /** A claim reaches a bystander, which takes it for the verdict. */
  lemma Overhears(c: Config, steps0: seq<Step>, s0: State, a: NodeId, b: NodeId, p: Packet)
    returns (steps: seq<Step>, s: State)
    requires Amid(c, steps0, s0, a, b) && p in s0.net && p.msg.ClaimMsg? && p.sentAt == s0.now && c.capacity > 0
    requires p.dest in c.nodes && p.dest != a && p.dest != b
    ensures Amid(c, steps, s, a, b) && s.now == s0.now && s.net == s0.net - {p}
    ensures s.rounds == s0.rounds[p.dest := s.rounds[p.dest]] && s.rounds[p.dest].phase.Lost?
  {
    var n := p.dest;
    assert Bystander(c, n, s0.rounds[n]);
    Extended(c, steps0, s0, Deliver(p));
    steps, s := steps0 + [Deliver(p)], Apply(c, s0, Deliver(p));
    if s0.rounds[n].phase.RemoteWait? {
      assert s.rounds[n].claims == [p.msg.claim] && [p.msg.claim][1..] == [];
      Extended(c, steps, s, HearClaim(n));
      steps, s := steps + [HearClaim(n)], Apply(c, s, HearClaim(n));
    }
  }

  /** All claims on their way to bystanders arrive. */
  lemma {:induction false} AllOverhear(c: Config, steps0: seq<Step>, s0: State, a: NodeId, b: NodeId, todo: set<Packet>)
    returns (steps: seq<Step>, s: State)
    requires Amid(c, steps0, s0, a, b) && todo <= s0.net && c.capacity > 0
    requires forall p | p in todo ::
      p.msg.ClaimMsg? && p.sentAt == s0.now && p.dest in c.nodes && p.dest != a && p.dest != b
    ensures Amid(c, steps, s, a, b) && s.now == s0.now && s.net == s0.net - todo
    ensures s.rounds[a] == s0.rounds[a] && s.rounds[b] == s0.rounds[b]
    ensures forall n | n in c.nodes && n != a && n != b && s0.rounds[n].phase.Lost? :: s.rounds[n].phase.Lost?
    ensures forall p | p in todo :: s.rounds[p.dest].phase.Lost?
    decreases todo
  {
    if todo == {} {
      steps, s := steps0, s0;
    } else {
      var p :| p in todo;
      steps, s := Overhears(c, steps0, s0, a, b, p);
      steps, s := AllOverhear(c, steps, s, a, b, todo - {p});
    }
  }

  ghost predicate AllLost(c: Config, s: State, a: NodeId, b: NodeId) {
    forall n | n in c.nodes && n in s.rounds && n != a && n != b :: s.rounds[n].phase.Lost?
  }

  /** `a`, about to publish, stamps its claim, and the bystanders hear it. */
  lemma Announces(c: Config, steps0: seq<Step>, s0: State, a: NodeId, b: NodeId) returns (steps: seq<Step>, s: State)
    requires Amid(c, steps0, s0, a, b) && s0.rounds[a].phase.Ready? && 0 < c.window && c.capacity > 0
    requires forall p | p in s0.net :: p.dest == a || p.dest == b
    ensures Amid(c, steps, s, a, b) && AllLost(c, s, a, b) && s.now == s0.now && s.rounds[b] == s0.rounds[b]
    ensures s.rounds[a] == s0.rounds[a].(phase := Tiebreak(s0.now), stamp := Some(s0.now))
    ensures s.net == s0.net + {Packet(b, ClaimMsg(ClaimOf(c, a, s0.now)), s0.now)}
  {
    var msg := ClaimMsg(ClaimOf(c, a, s0.now));
    steps, s := Move(c, steps0, s0, a, b, Reserve(a, true));
    var todo := Broadcast(c, a, msg, s0.now) - {Packet(b, msg, s0.now)};
    assert forall n | n in c.nodes && n != a && n != b :: Packet(n, msg, s0.now) in todo;
    var net1 := s.net;
    steps, s := AllOverhear(c, steps, s, a, b, todo);
    assert net1 - todo == s0.net + {Packet(b, msg, s0.now)};
    forall n | n in c.nodes && n != a && n != b ensures s.rounds[n].phase.Lost? {
      assert Packet(n, msg, s0.now) in todo;
    }
    steps, s := Move(c, steps, s, a, b, PublishReturns(a, true, {}));
  }

  lemma Waits(c: Config, steps0: seq<Step>, s0: State, a: NodeId, b: NodeId, to: int)
    returns (steps: seq<Step>, s: State)
    requires Amid(c, steps0, s0, a, b) && s0.now <= to && s0.net == {}
    requires MayIdle(c, a, s0.rounds[a], to) && MayIdle(c, b, s0.rounds[b], to)
    requires AllLost(c, s0, a, b) || forall n | n in c.nodes :: to <= c.start(n) + c.timeout
    ensures Amid(c, steps, s, a, b) && s == s0.(now := to)
  {
    if s0.now == to {
      steps, s := steps0, s0;
    } else {
      forall n | n in c.nodes ensures MayIdle(c, n, s0.rounds[n], to) {
        if n != a && n != b {
          assert Bystander(c, n, s0.rounds[n]);
        }
      }
      steps, s := Move(c, steps0, s0, a, b, Tick(to));
    }
  }

  /** A claim reaches `a` during its tiebreak and does not impress it. */
  lemma ShrugsOff(c: Config, steps0: seq<Step>, s0: State, a: NodeId, b: NodeId, p: Packet)
    returns (steps: seq<Step>, s: State)
    requires Amid(c, steps0, s0, a, b) && AllLost(c, s0, a, b) && p in s0.net && p.dest == a && p.sentAt == s0.now
    requires p.msg.ClaimMsg? && !IsBetter(p.msg.claim, c.decision(a), a) && c.capacity > 0 && 0 < c.window
    requires s0.rounds[a].phase == Tiebreak(s0.now) && s0.rounds[a].claims == []
    ensures Amid(c, steps, s, a, b) && AllLost(c, s, a, b) && s.now == s0.now && s.net == s0.net - {p}
    ensures s.rounds == s0.rounds
  {
    steps, s := Move(c, steps0, s0, a, b, Deliver(p));
    assert s.rounds[a].claims == [p.msg.claim] && [p.msg.claim][1..] == [];
    steps, s := Move(c, steps, s, a, b, HearClaim(a));
    assert s.rounds[a] == s0.rounds[a];
    assert s.rounds == s0.rounds;
  }

  /** Both windows close. */
  lemma BothVictories(c: Config, steps0: seq<Step>, s0: State, a: NodeId, b: NodeId) returns (steps: seq<Step>)
    requires Amid(c, steps0, s0, a, b) && AllLost(c, s0, a, b) && s0.net == {} && 0 < c.window
    requires s0.rounds[a].phase == s0.rounds[b].phase == Tiebreak(s0.now)
    requires s0.rounds[a].claims == s0.rounds[b].claims == [] && forall n | n in c.nodes :: 0 <= c.start(n)
    ensures TwoWinners(c, 0, steps)
  {
    var s;
    steps, s := Waits(c, steps0, s0, a, b, s0.now + c.window);
    steps, s := Move(c, steps, s, a, b, WindowCloses(a));
    steps, s := Move(c, steps, s, a, b, WindowCloses(b));
    assert s.rounds[a].phase == Won && s.rounds[b].phase == Won;
  }

  // ----- the late tie

  /** Nodes that start together, two of them with equal scores and plans so close that a late stamp of the first is not
      before the plan of the second; `at` is that late stamp, on the microsecond. */
  ghost predicate LateScene(c: Config, a: NodeId, b: NodeId, x: int, at: int) {
    var pa, pb := c.decision(a).publishAt, c.decision(b).publishAt;
    && a in c.nodes && b in c.nodes && Tied(c, a, b) && LexLess(b, a)
    && (forall n | n in c.nodes :: c.start(n) == x) && 0 <= x <= pa <= pb
    && 0 < c.lateness && at == pa + c.lateness && at <= x + c.timeout && at % 1000 == 0 && pb < at + 1000
    && c.capacity > 0 && 0 < c.window && 0 <= c.delay <= STALE_AGE
  }

  lemma SameMicrosecond(t: int, at: int)
    requires at % 1000 == 0
    ensures t < at ==> Micros(t) < Micros(at)
    ensures t < at + 1000 ==> Micros(t) <= Micros(at)
  {
    assert 1000 * (at / 1000) == at;
  }

  /** Each compares the other's late stamp with its own plan and finds it no better. */
  lemma LateStandoff(c: Config, a: NodeId, b: NodeId, x: int, at: int)
    requires LateScene(c, a, b, x, at)
    ensures Standoff(a, c.decision(a), at, b, c.decision(b), at)
  {
    LexTotal(a, b);
    SameMicrosecond(c.decision(a).publishAt, at);
    SameMicrosecond(c.decision(b).publishAt, at);
  }

  /** The round of `n` once it has started at `x`. */
  function Started(c: Config, n: NodeId, x: int): Round {
    Round(if c.decision(n).publishAt > x then Waiting(x + c.timeout) else Ready(x + c.timeout, x), None, [], 0, [])
  }

  lemma BothStart(c: Config, a: NodeId, b: NodeId, x: int, at: int) returns (steps: seq<Step>, s: State)
    requires LateScene(c, a, b, x, at)
    ensures Amid(c, steps, s, a, b) && s.now == x && s.net == {}
    ensures s.rounds[a] == Started(c, a, x) && s.rounds[b] == Started(c, b, x)
  {
    steps, s := Opens(c, a, b, x);
    steps, s := Move(c, steps, s, a, b, Start(a, false));
    steps, s := Move(c, steps, s, a, b, Start(b, false));
  }

  /** The plan of `n` is due. */
  lemma Due(c: Config, steps0: seq<Step>, s0: State, a: NodeId, b: NodeId, n: NodeId, x: int)
    returns (steps: seq<Step>, s: State)
    requires Amid(c, steps0, s0, a, b) && (n == a || n == b) && s0.rounds[n] == Started(c, n, x)
    requires s0.now == c.decision(n).publishAt >= x
    ensures Amid(c, steps, s, a, b) && s.now == s0.now && s.net == s0.net
    ensures s.rounds == s0.rounds[n := Round(Ready(x + c.timeout, s0.now), None, [], 0, [])]
  {
    if s0.now == x {
      steps, s := steps0, s0;
      assert s.rounds == s.rounds[n := s.rounds[n]];
    } else {
      steps, s := Move(c, steps0, s0, a, b, PublishTimer(n));
    }
  }

  lemma FirstIsDue(c: Config, a: NodeId, b: NodeId, x: int, at: int) returns (steps: seq<Step>, s: State)
    requires LateScene(c, a, b, x, at)
    ensures Amid(c, steps, s, a, b) && s.now == c.decision(a).publishAt && s.net == {}
    ensures s.rounds[a] == Round(Ready(x + c.timeout, s.now), None, [], 0, []) && s.rounds[b] == Started(c, b, x)
  {
    steps, s := BothStart(c, a, b, x, at);
    steps, s := Waits(c, steps, s, a, b, c.decision(a).publishAt);
    steps, s := Due(c, steps, s, a, b, a, x);
  }

  /** The second plan is due before the first stamp: both stamp at `at`. */
  lemma BothStampLate(c: Config, steps0: seq<Step>, s0: State, a: NodeId, b: NodeId, x: int, at: int)
    returns (steps: seq<Step>)
    requires LateScene(c, a, b, x, at) && Amid(c, steps0, s0, a, b) && s0.net == {}
    requires s0.now == c.decision(a).publishAt && s0.rounds[a] == Round(Ready(x + c.timeout, s0.now), None, [], 0, [])
    requires s0.rounds[b] == Started(c, b, x) && c.decision(b).publishAt <= at
    ensures TwoWinners(c, 0, steps)
  {
    LateStandoff(c, a, b, x, at);
    var s;
    steps, s := Waits(c, steps0, s0, a, b, c.decision(b).publishAt);
    steps, s := Due(c, steps, s, a, b, b, x);
    steps, s := Waits(c, steps, s, a, b, at);
    steps := BothAnnounce(c, steps, s, a, b);
  }

  /** Both publish at the same instant and neither is impressed. */
  lemma BothAnnounce(c: Config, steps0: seq<Step>, s0: State, a: NodeId, b: NodeId) returns (steps: seq<Step>)
    requires Amid(c, steps0, s0, a, b) && s0.net == {} && s0.rounds[a].phase.Ready? && s0.rounds[b].phase.Ready?
    requires s0.rounds[a].claims == s0.rounds[b].claims == [] && c.capacity > 0 && 0 < c.window
    requires Standoff(a, c.decision(a), s0.now, b, c.decision(b), s0.now) && forall n | n in c.nodes :: 0 <= c.start(n)
    ensures TwoWinners(c, 0, steps)
  {
    var s;
    steps, s := Announces(c, steps0, s0, a, b);
    steps, s := AnnouncesToo(c, steps, s, a, b);
    steps, s := ShrugsOffToo(c, steps, s, a, b, Packet(b, ClaimMsg(ClaimOf(c, a, s0.now)), s0.now));
    steps, s := ShrugsOff(c, steps, s, a, b, Packet(a, ClaimMsg(ClaimOf(c, b, s0.now)), s0.now));
    assert s.net == {};
    steps := BothVictories(c, steps, s, a, b);
  }

  /** The same steps taken by the second node. */
  lemma AnnouncesToo(c: Config, steps0: seq<Step>, s0: State, a: NodeId, b: NodeId) returns (steps: seq<Step>, s: State)
    requires Amid(c, steps0, s0, a, b) && s0.rounds[b].phase.Ready? && 0 < c.window && c.capacity > 0
    requires forall p | p in s0.net :: p.dest == a || p.dest == b
    ensures Amid(c, steps, s, a, b) && AllLost(c, s, a, b) && s.now == s0.now && s.rounds[a] == s0.rounds[a]
    ensures s.rounds[b] == s0.rounds[b].(phase := Tiebreak(s0.now), stamp := Some(s0.now))
    ensures s.net == s0.net + {Packet(a, ClaimMsg(ClaimOf(c, b, s0.now)), s0.now)}
  {
    steps, s := Announces(c, steps0, s0, b, a);
  }

  lemma ShrugsOffToo(c: Config, steps0: seq<Step>, s0: State, a: NodeId, b: NodeId, p: Packet)
    returns (steps: seq<Step>, s: State)
    requires Amid(c, steps0, s0, a, b) && AllLost(c, s0, a, b) && p in s0.net && p.dest == b && p.sentAt == s0.now
    requires p.msg.ClaimMsg? && !IsBetter(p.msg.claim, c.decision(b), b) && c.capacity > 0 && 0 < c.window
    requires s0.rounds[b].phase == Tiebreak(s0.now) && s0.rounds[b].claims == []
    ensures Amid(c, steps, s, a, b) && AllLost(c, s, a, b) && s.now == s0.now && s.net == s0.net - {p}
    ensures s.rounds == s0.rounds
  {
    steps, s := ShrugsOff(c, steps0, s0, b, a, p);
  }

  /** The second is still waiting when it hears the late claim of the first, and publishes at once. */
  lemma FirstStampsLate(c: Config, steps0: seq<Step>, s0: State, a: NodeId, b: NodeId, x: int, at: int)
    returns (steps: seq<Step>)
    requires LateScene(c, a, b, x, at) && Amid(c, steps0, s0, a, b) && s0.net == {}
    requires s0.now == c.decision(a).publishAt && s0.rounds[a] == Round(Ready(x + c.timeout, s0.now), None, [], 0, [])
    requires s0.rounds[b] == Started(c, b, x) && at < c.decision(b).publishAt
    ensures TwoWinners(c, 0, steps)
  {
    LateStandoff(c, a, b, x, at);
    var s;
    steps, s := Waits(c, steps0, s0, a, b, at);
    steps, s := Announces(c, steps, s, a, b);
    steps, s := HearsWhileWaiting(c, steps, s, a, b, Packet(b, ClaimMsg(ClaimOf(c, a, at)), at));
    assert s.net == {};
    steps, s := AnnouncesToo(c, steps, s, a, b);
    steps, s := ShrugsOff(c, steps, s, a, b, Packet(a, ClaimMsg(ClaimOf(c, b, at)), at));
    assert s.net == {};
    steps := BothVictories(c, steps, s, a, b);
  }

  lemma HearsWhileWaiting(c: Config, steps0: seq<Step>, s0: State, a: NodeId, b: NodeId, p: Packet)
    returns (steps: seq<Step>, s: State)
    requires Amid(c, steps0, s0, a, b) && p in s0.net && p.dest == b && p.sentAt == s0.now
    requires p.msg.ClaimMsg? && !IsBetter(p.msg.claim, c.decision(b), b) && c.capacity > 0
    requires s0.rounds[b].phase.Waiting? && s0.rounds[b].claims == []
    ensures Amid(c, steps, s, a, b) && s.now == s0.now && s.net == s0.net - {p} && s.rounds[a] == s0.rounds[a]
    ensures s.rounds[b] == s0.rounds[b].(phase := Ready(s0.rounds[b].phase.deadline, s0.now))
  {
    steps, s := Move(c, steps0, s0, a, b, Deliver(p));
    assert s.rounds[b].claims == [p.msg.claim] && [p.msg.claim][1..] == [];
    steps, s := Move(c, steps, s, a, b, HearClaim(b));
  }

  /** Among any nodes that start together, such a tie can end with two winners. */
  lemma LateTieRun(c: Config, a: NodeId, b: NodeId, x: int, at: int) returns (steps: seq<Step>)
    requires LateScene(c, a, b, x, at)
    ensures TwoWinners(c, 0, steps)
  {
    var s;
    steps, s := FirstIsDue(c, a, b, x, at);
    if c.decision(b).publishAt <= at {
      steps := BothStampLate(c, steps, s, a, b, x, at);
    } else {
      steps := FirstStampsLate(c, steps, s, a, b, x, at);
    }
  }

  /** Stamps can be late by a nanosecond or more, and equal-scored plans `gap` apart are closer than the lateness plus a
      microsecond: some such plans give two winners. */
  lemma LateStamps(p: Bounds, gap: int) returns (c: Config, steps: seq<Step>)
    requires Possible(p) && 0 < p.lateness && 0 <= gap < p.lateness + 1000
    ensures HasBounds(c, p) && TiesPunctual(c) && TiesApart(c, gap) && TwoWinners(c, 0, steps)
  {
    XY();
    var pa := (-p.lateness) % 1000;
    c := Pair(Y, X, 0, 0, pa, pa + gap, 1.0, p).(timeout := pa + p.lateness);
    steps := LateTieRun(c, Y, X, 0, pa + p.lateness);
  }

  // ----- the spacing is exact

  lemma ApartIsSpaced(c: Config, gap: int)
    requires TiesApart(c, gap) && 0 <= c.lateness && c.lateness + 1000 <= gap
    ensures TiesSpaced(c)
  {
    forall a, b | a in c.nodes && b in c.nodes && Tied(c, a, b)
      ensures WellBefore(c, a, b) || WellBefore(c, b, a)
    {
      var pa, pb := c.decision(a).publishAt, c.decision(b).publishAt;
      if pa + gap <= pb {
        MicrosMonotone(pa + c.lateness + 1000, pb);
      } else {
        MicrosMonotone(pb + c.lateness + 1000, pa);
      }
    }
  }

  lemma ApartSuffices(c: Config, t0: int, steps: seq<Step>, p: Bounds, gap: int)
    requires HasBounds(c, p) && Possible(p) && Sufficient(p) && TiesPunctual(c) && TiesApart(c, gap)
    requires p.lateness == 0 || p.lateness + 1000 <= gap
    ensures !TwoWinners(c, t0, steps)
  {
    if (forall n | n in c.nodes :: t0 <= c.start(n)) && After(c, t0, steps).Some?
       && !After(c, t0, steps).value.overflowed
    {
      BoundsMakeTimely(c, p);
      RunKeepsInv(c, t0, steps);
      var s := After(c, t0, steps).value;
      if p.lateness == 0 {
        PunctualIsOnTime(c, s);
        BoundsSuffice(c, t0, steps, p);
      } else {
        ApartIsSpaced(c, gap);
        forall a, b | a in s.rounds && b in s.rounds && a != b
          ensures !(s.rounds[a].phase == Won && s.rounds[b].phase == Won)
        {
          SpacedTiesAreSafe(c, t0, steps, a, b);
        }
      }
    }
  }

  /** All runs are safe, with nothing assumed about stamps, if and only if the five bounds hold and stamps are never late
      or plans of equal score are apart by the lateness and a microsecond. */
  lemma SpacingIsExact(p: Bounds, gap: int)
    requires Proper(p) && 0 <= gap
    ensures SafeApart(p, gap) <==> Sufficient(p) && (p.lateness == 0 || p.lateness + 1000 <= gap)
  {
    if !Sufficient(p) {
      var c, steps := InsufficientBoundsFail(p);
      assert TiesPunctual(c) && TiesApart(c, gap);
    } else if p.lateness == 0 || p.lateness + 1000 <= gap {
      forall c: Config, t0: int, steps: seq<Step> | HasBounds(c, p) && TiesPunctual(c) && TiesApart(c, gap)
        ensures !TwoWinners(c, t0, steps)
      {
        ApartSuffices(c, t0, steps, p, gap);
      }
    } else {
      var c, steps := LateStamps(p, gap);
    }
  }
}
