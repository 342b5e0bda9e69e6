/**
  The timing assumptions of `SingleWinner` are exact: whenever one of them fails there is a run of two nodes
  in which both win. A further run shows what plans in the past do to equal-scored nodes.
 */
module ElectionLimits {
  import opened Options
  import opened Claims
  import opened ElectionProtocol
  import opened TopicBuffer
  import opened ElectionSafety

  /** The bounds of an election: `skew` is the largest difference between two starts. */
  datatype Bounds = Bounds(delay: int, window: int, publishing: int, lateness: int, ttl: int, skew: int)

  predicate Proper(p: Bounds) {
    0 <= p.delay && 0 < p.window && 0 <= p.publishing && 0 <= p.lateness && 0 < p.ttl && 0 <= p.skew
  }

  /** ... and messages arrive before they are too old to be looked at. */
  predicate Possible(p: Bounds) { Proper(p) && p.delay <= STALE_AGE }

  /** No message is too old when it arrives; the window outlasts a claim and a late answer, a publish call, and a late
      starter's claim; the buffer outlasts the skew. */
  predicate Sufficient(p: Bounds) {
    && p.delay <= STALE_AGE
    && 2 * p.delay + p.lateness < p.window && p.publishing < p.window
    && p.skew + p.delay + p.lateness < p.window && p.skew < p.ttl
  }

  ghost predicate HasBounds(c: Config, p: Bounds) {
    && c.delay == p.delay && c.window == p.window && c.publishing == p.publishing && c.lateness == p.lateness
    && c.ttl == p.ttl && 0 <= c.timeout
    && forall a, b | a in c.nodes && b in c.nodes :: Skew(c, a, b) <= p.skew
  }

  /** A legal run without overflow after which two different nodes have won. */
  ghost predicate TwoWinners(c: Config, t0: int, steps: seq<Step>) {
    && (forall n | n in c.nodes :: t0 <= c.start(n))
    && After(c, t0, steps).Some? && !After(c, t0, steps).value.overflowed
    && var rounds := After(c, t0, steps).value.rounds;
       exists a, b | a in rounds && b in rounds && a != b :: rounds[a].phase == Won && rounds[b].phase == Won
  }

  ghost predicate NoTies(c: Config) { forall a, b | a in c.nodes && b in c.nodes :: !Tied(c, a, b) }

  ghost predicate RunsOnTime(c: Config, t0: int, steps: seq<Step>) {
    After(c, t0, steps).Some? ==> TiesOnTime(c, After(c, t0, steps).value.rounds)
  }

  /** No run in which publishers of equal score stamp on time has two winners. */
  ghost predicate AlwaysSafe(p: Bounds) {
    forall c: Config, t0: int, steps: seq<Step> | HasBounds(c, p) && RunsOnTime(c, t0, steps) ::
      !TwoWinners(c, t0, steps)
  }

  // ----- building runs of two nodes

  /** A run under construction: its steps and the state they lead to. */
  ghost predicate At(c: Config, steps: seq<Step>, s: State, a: NodeId, b: NodeId) {
    && After(c, 0, steps) == Some(s)
    && a != b && c.nodes == {a, b} && s.rounds.Keys == {a, b} && !s.overflowed
  }

  lemma Go(c: Config, steps: seq<Step>, s: State, a: NodeId, b: NodeId, step: Step)
    returns (steps': seq<Step>, s': State)
    requires At(c, steps, s, a, b) && Enabled(c, s, step) && !Apply(c, s, step).overflowed
    ensures At(c, steps', s', a, b) && s' == Apply(c, s, step)
  {
    steps' := steps + [step];
    s' := Apply(c, s, step);
    assert steps'[..|steps'| - 1] == steps;
  }

  lemma Begin(c: Config, a: NodeId, b: NodeId) returns (steps: seq<Step>, s: State)
    requires a != b && c.nodes == {a, b}
    ensures At(c, steps, s, a, b) && s.now == 0 && s.net == {}
    ensures forall n | n in {a, b} :: s.rounds[n] == Round(NotStarted, None, [], 0, [])
  {
    steps, s := [], Init(c, 0);
  }

  lemma Broadcasts(c: Config, a: NodeId, b: NodeId, msg: Message, at: int)
    requires a != b && c.nodes == {a, b}
    ensures Broadcast(c, a, msg, at) == {Packet(b, msg, at)}
  {
  }

  /** `a` starts with its plan due, reserves its slot and enters the publish call. */
  lemma StartAndReserve(c: Config, steps0: seq<Step>, s0: State, a: NodeId, b: NodeId)
    returns (steps: seq<Step>, s: State)
    requires At(c, steps0, s0, a, b) && s0.now == c.start(a)
    requires s0.rounds[a].phase.NotStarted? && s0.rounds[a].stamp == None
    requires c.decision(a).eligible && c.decision(a).publishAt <= s0.now
    requires |ClaimsIn(s0.rounds[a].buffer)| <= c.capacity && FailuresIn(s0.rounds[a].buffer) == 0
    ensures At(c, steps, s, a, b) && s.now == s0.now && s.rounds[b] == s0.rounds[b]
    ensures s.rounds[a] == Round(Publishing(s.now), Some(s.now), ClaimsIn(s0.rounds[a].buffer), 0, [])
    ensures s.net == s0.net + {Packet(b, ClaimMsg(ClaimOf(c, a, s.now)), s.now)}
  {
    steps, s := Go(c, steps0, s0, a, b, Start(a, false));
    Broadcasts(c, a, b, ClaimMsg(ClaimOf(c, a, s.now)), s.now);
    steps, s := Go(c, steps, s, a, b, Reserve(a, true));
  }

  lemma Published(c: Config, steps0: seq<Step>, s0: State, a: NodeId, b: NodeId)
    returns (steps: seq<Step>, s: State)
    requires At(c, steps0, s0, a, b) && s0.rounds[a].phase == Publishing(s0.now) && 0 < c.window
    ensures At(c, steps, s, a, b)
    ensures s == s0.(rounds := s0.rounds[a := s0.rounds[a].(phase := Tiebreak(s0.now))])
  {
    steps, s := Go(c, steps0, s0, a, b, PublishReturns(a, true, {}));
  }

  /** The packet reaches `a`, which is not listening. */
  lemma Buffers(c: Config, steps0: seq<Step>, s0: State, a: NodeId, b: NodeId, p: Packet)
    returns (steps: seq<Step>, s: State)
    requires At(c, steps0, s0, a, b) && p in s0.net && p.dest == a && s0.now - p.sentAt <= STALE_AGE
    requires !Listening(s0.rounds[a].phase)
    ensures At(c, steps, s, a, b) && s.now == s0.now && s.net == s0.net - {p} && s.rounds[b] == s0.rounds[b]
    ensures s.rounds[a] == s0.rounds[a].(buffer := s0.rounds[a].buffer + [Buffered(s0.now, p.msg)])
  {
    steps, s := Go(c, steps0, s0, a, b, Deliver(p));
  }

  /** A claim reaches `a` during its tiebreak and does not impress it. */
  lemma Shrugs(c: Config, steps0: seq<Step>, s0: State, a: NodeId, b: NodeId, p: Packet)
    returns (steps: seq<Step>, s: State)
    requires At(c, steps0, s0, a, b) && p in s0.net && p.dest == a && s0.now - p.sentAt <= STALE_AGE
    requires p.msg.ClaimMsg? && !IsBetter(p.msg.claim, c.decision(a), a) && c.capacity > 0
    requires s0.rounds[a].phase.Tiebreak? && s0.rounds[a].claims == []
    ensures At(c, steps, s, a, b) && s.now == s0.now && s.net == s0.net - {p} && s.rounds[b] == s0.rounds[b]
    ensures s.rounds[a] ==
            s0.rounds[a].(phase := if s0.now >= s0.rounds[a].phase.at + c.window then Won else s0.rounds[a].phase)
  {
    steps, s := Go(c, steps0, s0, a, b, Deliver(p));
    steps, s := Go(c, steps, s, a, b, HearClaim(a));
    assert [p.msg.claim][1..] == [];
  }

  /** The clock moves to `to`, if it is not there yet. */
  lemma Idle(c: Config, steps0: seq<Step>, s0: State, a: NodeId, b: NodeId, to: int)
    returns (steps: seq<Step>, s: State)
    requires At(c, steps0, s0, a, b) && s0.now <= to
    requires forall p | p in s0.net :: to <= p.sentAt + c.delay
    requires MayIdle(c, a, s0.rounds[a], to) && MayIdle(c, b, s0.rounds[b], to)
    ensures At(c, steps, s, a, b) && s == s0.(now := to)
  {
    if s0.now == to {
      steps, s := steps0, s0;
    } else {
      steps, s := Go(c, steps0, s0, a, b, Tick(to));
    }
  }

  lemma Wins(c: Config, steps0: seq<Step>, s0: State, a: NodeId, b: NodeId)
    returns (steps: seq<Step>, s: State)
    requires At(c, steps0, s0, a, b) && s0.rounds[a].phase.Tiebreak?
    requires s0.now >= s0.rounds[a].phase.at + c.window
    ensures At(c, steps, s, a, b) && s.now == s0.now && s.net == s0.net && s.rounds[b] == s0.rounds[b]
    ensures s.rounds[a] == s0.rounds[a].(phase := Won)
  {
    steps, s := Go(c, steps0, s0, a, b, WindowCloses(a));
  }

  lemma BothWon(c: Config, steps: seq<Step>, s: State, a: NodeId, b: NodeId)
    requires At(c, steps, s, a, b) && s.rounds[a].phase == Won && s.rounds[b].phase == Won
    requires 0 <= c.start(a) && 0 <= c.start(b)
    ensures TwoWinners(c, 0, steps)
  {
  }

  /** Two nodes; the second has the given score. */
  function Pair(a: NodeId, b: NodeId, startA: int, startB: int, planA: int, planB: int, scoreB: real, p: Bounds): Config
    requires a != b
  {
    Config({a, b}, n => if n == a then startA else startB,
           n => if n == a then Decision(true, 1.0, planA) else Decision(true, scoreB, planB),
           p.delay, p.window, p.publishing, p.lateness, planB + planA + p.window, p.ttl, 16)
  }

  const X: NodeId := "x"
  const Y: NodeId := "y"

  lemma XY() ensures X != Y && LexLess(X, Y) { assert X[0] != Y[0]; }

  /** Both nodes are in their tiebreak, and the claim of `b` is not due at `a` before the window of `a` closes. */
  lemma LateVictories(c: Config, steps0: seq<Step>, s0: State, a: NodeId, b: NodeId, ta: int, tb: int)
    returns (steps: seq<Step>, s: State)
    requires At(c, steps0, s0, a, b) && 0 < c.window && 0 <= c.start(a) && 0 <= c.start(b)
    requires s0.rounds[a].phase == Tiebreak(ta) && s0.rounds[b].phase == Tiebreak(tb)
    requires s0.rounds[a].claims == [] && s0.rounds[b].claims == []
    requires s0.net == {Packet(a, ClaimMsg(ClaimOf(c, b, tb)), tb)}
    requires ta <= tb <= s0.now <= ta + c.window <= tb + c.delay && c.delay <= STALE_AGE
    ensures At(c, steps, s, a, b) && TwoWinners(c, 0, steps)
  {
    steps, s := Idle(c, steps0, s0, a, b, ta + c.window);
    steps, s := Wins(c, steps, s, a, b);
    steps, s := Buffers(c, steps, s, a, b, Packet(a, ClaimMsg(ClaimOf(c, b, tb)), tb));
    steps, s := Idle(c, steps, s, a, b, tb + c.window);
    steps, s := Wins(c, steps, s, b, a);
    BothWon(c, steps, s, b, a);
  }

  // ----- a late answer

  /** `b`, about to publish, stamps its claim. */
  lemma Publishes(c: Config, steps0: seq<Step>, s0: State, b: NodeId, a: NodeId)
    returns (steps: seq<Step>, s: State)
    requires At(c, steps0, s0, b, a) && s0.rounds[b].phase.Ready? && 0 < c.window
    ensures At(c, steps, s, b, a) && s.now == s0.now && s.rounds[a] == s0.rounds[a]
    ensures s.rounds[b] == s0.rounds[b].(phase := Tiebreak(s0.now), stamp := Some(s0.now))
    ensures s.net == s0.net + {Packet(a, ClaimMsg(ClaimOf(c, b, s0.now)), s0.now)}
  {
    Broadcasts(c, b, a, ClaimMsg(ClaimOf(c, b, s0.now)), s0.now);
    steps, s := Go(c, steps0, s0, b, a, Reserve(b, true));
    steps, s := Published(c, steps, s, b, a);
  }

  /** `b` has the weaker claim of `a` in its channel and stamps its own so late that it misses the window of `a`. */
  lemma LateAnswer(c: Config, steps0: seq<Step>, s0: State, a: NodeId, b: NodeId, tb: int) returns (steps: seq<Step>)
    requires At(c, steps0, s0, a, b) && s0.net == {} && 0 < c.window && 0 <= c.start(a) && 0 <= c.start(b)
    requires s0.rounds[a].phase == Tiebreak(0) && s0.rounds[a].claims == []
    requires s0.rounds[b].phase.Ready? && s0.rounds[b].claims == [ClaimOf(c, a, 0)]
    requires !IsBetter(ClaimOf(c, a, 0), c.decision(b), b)
    requires s0.rounds[b].phase.since == s0.now <= tb <= s0.now + c.lateness
    requires 0 <= tb <= c.window <= tb + c.delay && c.delay <= STALE_AGE
    ensures TwoWinners(c, 0, steps)
  {
    var s;
    steps, s := Idle(c, steps0, s0, a, b, tb);
    steps, s := Publishes(c, steps, s, b, a);
    steps, s := Go(c, steps, s, a, b, HearClaim(b));
    assert [ClaimOf(c, a, 0)][1..] == [];
    steps, s := LateVictories(c, steps, s, a, b, 0, tb);
  }

  // ----- 2 * delay + lateness >= window

  /** The weaker node's claim is slow, the stronger one answers late, and the answer is slow again. */
  lemma SlowAnswer(p: Bounds) returns (c: Config, steps: seq<Step>)
    requires Possible(p) && p.window <= 2 * p.delay + p.lateness
    ensures HasBounds(c, p) && NoTies(c) && TwoWinners(c, 0, steps)
  {
    XY();
    var tb := if p.window <= p.delay then 0 else p.window - p.delay;
    var q := if tb <= p.delay then tb else p.delay;
    c := Pair(X, Y, 0, 0, 0, q, 2.0, p);
    steps := SlowAnswerRun(c, X, Y, q, tb);
  }

  lemma SlowAnswerRun(c: Config, a: NodeId, b: NodeId, q: int, tb: int) returns (steps: seq<Step>)
    requires a != b && c.nodes == {a, b} && c.start(a) == c.start(b) == 0 && c.capacity > 0
    requires c.decision(a) == Decision(true, 1.0, 0) && c.decision(b) == Decision(true, 2.0, q)
    requires 0 <= q <= tb <= q + c.lateness && q <= c.delay <= STALE_AGE && q <= c.timeout
    requires 0 < c.window && tb <= c.window <= tb + c.delay
    ensures TwoWinners(c, 0, steps)
  {
    var s;
    steps, s := Begin(c, a, b);
    steps, s := StartAndReserve(c, steps, s, a, b);
    steps, s := Published(c, steps, s, a, b);
    steps, s := BecomesReady(c, steps, s, b, a, q);
    steps, s := Go(c, steps, s, a, b, Deliver(Packet(b, ClaimMsg(ClaimOf(c, a, 0)), 0)));
    assert s.net == {};
    steps := LateAnswer(c, steps, s, a, b, tb);
  }

  /** `b` starts at time 0 and waits for its plan `q`. */
  lemma BecomesReady(c: Config, steps0: seq<Step>, s0: State, b: NodeId, a: NodeId, q: int)
    returns (steps: seq<Step>, s: State)
    requires At(c, steps0, s0, b, a) && s0.now == 0 == c.start(b)
    requires s0.rounds[b] == Round(NotStarted, None, [], 0, [])
    requires c.decision(b).eligible && c.decision(b).publishAt == q && 0 <= q <= c.timeout && 0 <= c.lateness
    requires (forall x | x in s0.net :: q <= x.sentAt + c.delay) && MayIdle(c, a, s0.rounds[a], q)
    ensures At(c, steps, s, b, a) && s.now == q && s.net == s0.net && s.rounds[a] == s0.rounds[a]
    ensures s.rounds[b] == Round(Ready(c.timeout, q), None, [], 0, [])
  {
    steps, s := Go(c, steps0, s0, b, a, Start(b, false));
    if q > 0 {
      steps, s := Idle(c, steps, s, b, a, q);
      steps, s := Go(c, steps, s, b, a, PublishTimer(b));
    }
  }

  // ----- publishing >= window

  /** Both publish calls last until the window is over, so neither node looks at the other's claim. */
  lemma SlowPublish(p: Bounds) returns (c: Config, steps: seq<Step>)
    requires Possible(p) && p.window <= p.publishing
    ensures HasBounds(c, p) && NoTies(c) && TwoWinners(c, 0, steps)
  {
    XY();
    c := Pair(X, Y, 0, 0, 0, 0, 2.0, p);
    steps := SlowPublishRun(c, X, Y);
  }

  lemma SlowPublishRun(c: Config, a: NodeId, b: NodeId) returns (steps: seq<Step>)
    requires a != b && c.nodes == {a, b} && c.start(a) == c.start(b) == 0 && c.capacity > 0
    requires c.decision(a) == Decision(true, 1.0, 0) && c.decision(b) == Decision(true, 2.0, 0)
    requires 0 < c.window <= c.publishing && 0 <= c.delay <= STALE_AGE
    ensures TwoWinners(c, 0, steps)
  {
    var s;
    steps, s := Begin(c, a, b);
    steps, s := StartAndReserve(c, steps, s, a, b);
    steps, s := StartAndReserve(c, steps, s, b, a);
    steps := UnreadVictories(c, steps, s, a, b);
  }

  lemma UnreadVictories(c: Config, steps0: seq<Step>, s0: State, a: NodeId, b: NodeId) returns (steps: seq<Step>)
    requires At(c, steps0, s0, a, b) && s0.now == 0 && c.start(a) == c.start(b) == 0 && c.capacity > 0
    requires s0.rounds[a] == s0.rounds[b] == Round(Publishing(0), Some(0), [], 0, [])
    requires s0.net == {Packet(b, ClaimMsg(ClaimOf(c, a, 0)), 0), Packet(a, ClaimMsg(ClaimOf(c, b, 0)), 0)}
    requires 0 < c.window <= c.publishing && 0 <= c.delay <= STALE_AGE
    ensures TwoWinners(c, 0, steps)
  {
    var s;
    steps, s := Go(c, steps0, s0, a, b, Deliver(Packet(b, ClaimMsg(ClaimOf(c, a, 0)), 0)));
    steps, s := Go(c, steps, s, a, b, Deliver(Packet(a, ClaimMsg(ClaimOf(c, b, 0)), 0)));
    assert s.net == {};
    steps, s := Idle(c, steps, s, a, b, c.window);
    steps, s := Go(c, steps, s, a, b, PublishReturns(a, true, {}));
    steps, s := Go(c, steps, s, a, b, PublishReturns(b, true, {}));
    BothWon(c, steps, s, a, b);
  }

  // ----- skew + delay + lateness >= window

  /** The stronger node starts so late that its claim misses the weaker node's window. */
  lemma LateStart(p: Bounds) returns (c: Config, steps: seq<Step>)
    requires Possible(p) && p.window <= p.skew + p.delay + p.lateness
    ensures HasBounds(c, p) && NoTies(c) && TwoWinners(c, 0, steps)
  {
    XY();
    var tb := if p.skew + p.lateness <= p.window then p.skew + p.lateness else p.window;
    var k := if p.skew <= tb then p.skew else tb;
    c := Pair(X, Y, 0, k, 0, k, 2.0, p);
    steps := LateStartRun(c, X, Y, k, tb);
  }

  lemma LateStartRun(c: Config, a: NodeId, b: NodeId, k: int, tb: int) returns (steps: seq<Step>)
    requires a != b && c.nodes == {a, b} && c.start(a) == 0 && c.start(b) == k && c.capacity > 0
    requires c.decision(a) == Decision(true, 1.0, 0) && c.decision(b) == Decision(true, 2.0, k)
    requires 0 <= k <= tb <= k + c.lateness && 0 < c.window && tb <= c.window <= tb + c.delay
    requires 0 <= c.delay <= STALE_AGE
    ensures TwoWinners(c, 0, steps)
  {
    var s;
    var pa := Packet(b, ClaimMsg(ClaimOf(c, a, 0)), 0);
    steps, s := Begin(c, a, b);
    steps, s := StartAndReserve(c, steps, s, a, b);
    steps, s := Published(c, steps, s, a, b);
    steps, s := Buffers(c, steps, s, b, a, pa);
    assert s.net == {} && s.rounds[b] == Round(NotStarted, None, [], 0, [Buffered(0, pa.msg)]);
    steps, s := Idle(c, steps, s, a, b, k);
    steps, s := StartWithOneBuffered(c, steps, s, b, a, ClaimOf(c, a, 0));
    steps := LateAnswer(c, steps, s, a, b, tb);
  }

  /** `b` starts with its plan due and one claim in its buffer. */
  lemma StartWithOneBuffered(c: Config, steps0: seq<Step>, s0: State, b: NodeId, a: NodeId, m: Claim)
    returns (steps: seq<Step>, s: State)
    requires At(c, steps0, s0, b, a) && s0.now == c.start(b) && c.capacity > 0
    requires exists t :: s0.rounds[b] == Round(NotStarted, None, [], 0, [Buffered(t, ClaimMsg(m))])
    requires c.decision(b).eligible && c.decision(b).publishAt <= s0.now
    ensures At(c, steps, s, b, a) && s.now == s0.now && s.net == s0.net && s.rounds[a] == s0.rounds[a]
    ensures s.rounds[b] == Round(Ready(s.now + c.timeout, s.now), None, [m], 0, [])
  {
    OneBuffered(s0.rounds[b].buffer, m);
    steps, s := Go(c, steps0, s0, b, a, Start(b, false));
  }

  lemma {:induction false} OneBuffered(buffer: seq<Buffered<Message>>, m: Claim)
    requires |buffer| == 1 && buffer[0].msg == ClaimMsg(m)
    ensures ClaimsIn(buffer) == [m] && FailuresIn(buffer) == 0
  {
    assert buffer[1..] == [];
  }

  // ----- skew >= ttl

  /** The stronger node's claim is swept from the buffer of a weaker node that has not started yet. */
  lemma SweptClaim(p: Bounds) returns (c: Config, steps: seq<Step>)
    requires Possible(p) && p.ttl <= p.skew
    ensures HasBounds(c, p) && NoTies(c) && TwoWinners(c, 0, steps)
  {
    XY();
    c := Pair(X, Y, p.ttl, 0, p.ttl, 0, 2.0, p);
    steps := SweptClaimRun(c, X, Y);
  }

  ghost predicate SweepScene(c: Config, a: NodeId, b: NodeId) {
    && a != b && c.nodes == {a, b} && c.start(a) == c.ttl && c.start(b) == 0 && c.capacity > 0
    && c.decision(a) == Decision(true, 1.0, c.ttl) && c.decision(b) == Decision(true, 2.0, 0)
    && 0 <= c.delay <= STALE_AGE && 0 < c.window && 0 < c.ttl
  }

  lemma SweptClaimRun(c: Config, a: NodeId, b: NodeId) returns (steps: seq<Step>)
    requires SweepScene(c, a, b)
    ensures TwoWinners(c, 0, steps)
  {
    var s;
    steps, s := Begin(c, a, b);
    steps, s := StartAndReserve(c, steps, s, b, a);
    steps, s := Published(c, steps, s, b, a);
    var pb := Packet(a, ClaimMsg(ClaimOf(c, b, 0)), 0);
    steps, s := Buffers(c, steps, s, a, b, pb);
    assert s.net == {} && s.rounds[a] == Round(NotStarted, None, [], 0, [Buffered(0, pb.msg)]);
    if c.window <= c.ttl {
      steps, s := Idle(c, steps, s, a, b, c.window);
      steps, s := Wins(c, steps, s, b, a);
    }
    steps, s := Idle(c, steps, s, a, b, c.ttl);
    steps, s := Forgets(c, steps, s, a, b);
    assert s.net == {Packet(b, ClaimMsg(ClaimOf(c, a, c.ttl)), c.ttl)};
    steps := SecondVictory(c, steps, s, a, b);
  }

  lemma SecondVictory(c: Config, steps0: seq<Step>, s0: State, a: NodeId, b: NodeId) returns (steps: seq<Step>)
    requires SweepScene(c, a, b) && At(c, steps0, s0, a, b) && s0.now == c.ttl
    requires s0.net == {Packet(b, ClaimMsg(ClaimOf(c, a, c.ttl)), c.ttl)}
    requires s0.rounds[a] == Round(Tiebreak(c.ttl), Some(c.ttl), [], 0, [])
    requires s0.rounds[b] == Round(if c.window <= c.ttl then Won else Tiebreak(0), Some(0), [], 0, [])
    ensures TwoWinners(c, 0, steps)
  {
    var pa := Packet(b, ClaimMsg(ClaimOf(c, a, c.ttl)), c.ttl);
    var s;
    if c.window <= c.ttl {
      steps, s := Buffers(c, steps0, s0, b, a, pa);
    } else {
      steps, s := Shrugs(c, steps0, s0, b, a, pa);
      assert s.net == {};
      steps, s := Idle(c, steps, s, a, b, c.window);
      steps, s := Wins(c, steps, s, b, a);
    }
    assert s.net == {} && s.rounds[b].phase == Won;
    steps, s := Idle(c, steps, s, a, b, c.ttl + c.window);
    steps, s := Wins(c, steps, s, a, b);
    BothWon(c, steps, s, a, b);
  }

  /** The sweep drops the one message `a` received at time 0; `a` then starts and publishes unaware of it. */
  lemma Forgets(c: Config, steps0: seq<Step>, s0: State, a: NodeId, b: NodeId)
    returns (steps: seq<Step>, s: State)
    requires At(c, steps0, s0, a, b) && s0.now == c.start(a) == c.ttl && 0 < c.window
    requires exists m :: s0.rounds[a] == Round(NotStarted, None, [], 0, [Buffered(0, m)])
    requires c.decision(a).eligible && c.decision(a).publishAt <= s0.now
    ensures At(c, steps, s, a, b) && s.now == s0.now && s.rounds[b] == s0.rounds[b]
    ensures s.rounds[a] == Round(Tiebreak(s.now), Some(s.now), [], 0, [])
    ensures s.net == s0.net + {Packet(b, ClaimMsg(ClaimOf(c, a, s.now)), s.now)}
  {
    var buffer := s0.rounds[a].buffer;
    assert buffer[1..] == [] && Kept(buffer, 0) == [];
    steps, s := Go(c, steps0, s0, a, b, Sweep(a));
    steps, s := StartAndReserve(c, steps, s, a, b);
    steps, s := Published(c, steps, s, a, b);
  }

  // ----- delay > maximum age

  /** Claims that travel for longer than the maximum age are dropped on receipt, so neither node hears the other. */
  lemma StaleClaim(p: Bounds) returns (c: Config, steps: seq<Step>)
    requires Proper(p) && p.delay > STALE_AGE
    ensures HasBounds(c, p) && NoTies(c) && TwoWinners(c, 0, steps)
  {
    XY();
    c := Pair(X, Y, 0, 0, 0, 0, 2.0, p);
    steps := StaleClaimRun(c, X, Y);
  }

  lemma StaleClaimRun(c: Config, a: NodeId, b: NodeId) returns (steps: seq<Step>)
    requires a != b && c.nodes == {a, b} && c.start(a) == c.start(b) == 0 && c.capacity > 0
    requires c.decision(a) == Decision(true, 1.0, 0) && c.decision(b) == Decision(true, 2.0, 0)
    requires 0 < c.window && c.delay > STALE_AGE
    ensures TwoWinners(c, 0, steps)
  {
    var s;
    steps, s := Begin(c, a, b);
    steps, s := StartAndReserve(c, steps, s, a, b);
    steps, s := Published(c, steps, s, a, b);
    steps, s := StartAndReserve(c, steps, s, b, a);
    steps, s := Published(c, steps, s, b, a);
    steps := UnheardVictories(c, steps, s, a, b);
  }

  lemma UnheardVictories(c: Config, steps0: seq<Step>, s0: State, a: NodeId, b: NodeId) returns (steps: seq<Step>)
    requires At(c, steps0, s0, a, b) && s0.now == 0 && c.start(a) == c.start(b) == 0
    requires s0.rounds[a] == s0.rounds[b] == Round(Tiebreak(0), Some(0), [], 0, [])
    requires s0.net == {Packet(b, ClaimMsg(ClaimOf(c, a, 0)), 0), Packet(a, ClaimMsg(ClaimOf(c, b, 0)), 0)}
    requires 0 < c.window && c.delay > STALE_AGE
    ensures TwoWinners(c, 0, steps)
  {
    var s;
    steps, s := steps0, s0;
    if STALE_AGE + 1 < c.window {
      steps, s := Idle(c, steps, s, a, b, STALE_AGE + 1);
      steps, s := Go(c, steps, s, a, b, Deliver(Packet(b, ClaimMsg(ClaimOf(c, a, 0)), 0)));
      steps, s := Go(c, steps, s, a, b, Deliver(Packet(a, ClaimMsg(ClaimOf(c, b, 0)), 0)));
      assert s.net == {};
    }
    steps, s := Idle(c, steps, s, a, b, c.window);
    steps, s := Wins(c, steps, s, a, b);
    steps, s := Wins(c, steps, s, b, a);
    BothWon(c, steps, s, b, a);
  }

  // ----- equal scores planned in the past

  /** Whatever the bounds, two equal-scored nodes whose plans lie a microsecond in the past both win. */
  lemma PastPlans(p: Bounds) returns (c: Config, steps: seq<Step>)
    requires Possible(p)
    ensures HasBounds(c, p) && !TiesPunctual(c) && TwoWinners(c, 0, steps) && Tied(c, X, Y)
  {
    XY();
    c := Pair(X, Y, 0, 0, -1000, -1000, 1.0, p).(timeout := 0);
    assert c.start(X) > c.decision(X).publishAt;
    steps := PastPlansRun(c, X, Y);
  }

  lemma PastPlansRun(c: Config, a: NodeId, b: NodeId) returns (steps: seq<Step>)
    requires a != b && c.nodes == {a, b} && c.start(a) == c.start(b) == 0 && c.capacity > 0
    requires c.decision(a) == c.decision(b) == Decision(true, 1.0, -1000)
    requires 0 < c.window && 0 <= c.delay <= STALE_AGE
    ensures TwoWinners(c, 0, steps)
  {
    var s;
    steps, s := Begin(c, a, b);
    steps, s := StartAndReserve(c, steps, s, a, b);
    steps, s := Published(c, steps, s, a, b);
    steps, s := StartAndReserve(c, steps, s, b, a);
    steps, s := Published(c, steps, s, b, a);
    steps := ShruggedVictories(c, steps, s, a, b, 0);
  }

  /** Both nodes stamped at the same time and neither is impressed by the other's claim. */
  lemma ShruggedVictories(c: Config, steps0: seq<Step>, s0: State, a: NodeId, b: NodeId, at: int)
    returns (steps: seq<Step>)
    requires At(c, steps0, s0, a, b) && s0.now == at && 0 <= c.start(a) && 0 <= c.start(b) && c.capacity > 0
    requires s0.rounds[a].phase == s0.rounds[b].phase == Tiebreak(at)
    requires s0.rounds[a].claims == s0.rounds[b].claims == []
    requires s0.net == {Packet(b, ClaimMsg(ClaimOf(c, a, at)), at), Packet(a, ClaimMsg(ClaimOf(c, b, at)), at)}
    requires Standoff(a, c.decision(a), at, b, c.decision(b), at)
    requires 0 < c.window && 0 <= c.delay <= STALE_AGE
    ensures TwoWinners(c, 0, steps)
  {
    var s;
    steps, s := Shrugs(c, steps0, s0, b, a, Packet(b, ClaimMsg(ClaimOf(c, a, at)), at));
    steps, s := Shrugs(c, steps, s, a, b, Packet(a, ClaimMsg(ClaimOf(c, b, at)), at));
    assert s.net == {};
    steps := QuietVictories(c, steps, s, a, b, at);
  }

  lemma QuietVictories(c: Config, steps0: seq<Step>, s0: State, a: NodeId, b: NodeId, at: int)
    returns (steps: seq<Step>)
    requires At(c, steps0, s0, a, b) && s0.now == at && s0.net == {} && 0 <= c.start(a) && 0 <= c.start(b)
    requires s0.rounds[a].phase == s0.rounds[b].phase == Tiebreak(at)
    requires s0.rounds[a].claims == s0.rounds[b].claims == [] && 0 < c.window
    ensures TwoWinners(c, 0, steps)
  {
    var s;
    steps, s := Idle(c, steps0, s0, a, b, at + c.window);
    steps, s := Wins(c, steps, s, a, b);
    steps, s := Wins(c, steps, s, b, a);
    BothWon(c, steps, s, a, b);
  }

  // ----- the bounds are exact

  lemma BoundsMakeTimely(c: Config, p: Bounds)
    requires HasBounds(c, p) && Possible(p) && Sufficient(p)
    ensures Timely(c)
  {
  }

  lemma BoundsSuffice(c: Config, t0: int, steps: seq<Step>, p: Bounds)
    requires HasBounds(c, p) && Possible(p) && Sufficient(p) && RunsOnTime(c, t0, steps)
    ensures !TwoWinners(c, t0, steps)
  {
    if (forall n | n in c.nodes :: t0 <= c.start(n)) && After(c, t0, steps).Some?
       && !After(c, t0, steps).value.overflowed
    {
      BoundsMakeTimely(c, p);
      RunKeepsInv(c, t0, steps);
      var s := After(c, t0, steps).value;
      forall a, b | a in s.rounds && b in s.rounds && a != b
        ensures !(s.rounds[a].phase == Won && s.rounds[b].phase == Won)
      {
        SingleWinner(c, t0, steps, a, b);
      }
    }
  }

  /** When a bound fails, two nodes of different score can both win. */
  lemma InsufficientBoundsFail(p: Bounds) returns (c: Config, steps: seq<Step>)
    requires Proper(p) && !Sufficient(p)
    ensures HasBounds(c, p) && NoTies(c) && TwoWinners(c, 0, steps)
  {
    if STALE_AGE < p.delay {
      c, steps := StaleClaim(p);
    } else if p.window <= 2 * p.delay + p.lateness {
      c, steps := SlowAnswer(p);
    } else if p.window <= p.publishing {
      c, steps := SlowPublish(p);
    } else if p.window <= p.skew + p.delay + p.lateness {
      c, steps := LateStart(p);
    } else {
      c, steps := SweptClaim(p);
    }
  }

  /** Elections are safe, in all runs in which publishers of equal score stamp on time, if and only if the five bounds
      hold. */
  lemma BoundsAreExact(p: Bounds)
    requires Proper(p)
    ensures AlwaysSafe(p) <==> Sufficient(p)
  {
    if Sufficient(p) {
      forall c: Config, t0: int, steps: seq<Step> | HasBounds(c, p) && RunsOnTime(c, t0, steps)
        ensures !TwoWinners(c, t0, steps)
      {
        BoundsSuffice(c, t0, steps, p);
      }
    } else {
      var c, steps := InsufficientBoundsFail(p);
      assert RunsOnTime(c, 0, steps);
    }
  }
}
