/**
  What travels in an election: every claim is the one its sender stamped, reaches a node at most once,
  and therefore a channel of capacity 16 cannot overflow in a cluster of 17 nodes.
 */
module ElectionTraffic {
  import opened Options
  import opened Claims
  import opened ElectionProtocol
  import opened TopicBuffer

  /** `m` is the one claim that its sender, another node, has stamped. */
  ghost predicate Genuine(c: Config, s: State, dest: NodeId, m: Claim) {
    && m.node in c.nodes && m.node in s.rounds && m.node != dest
    && s.rounds[m.node].stamp.Some? && m == ClaimOf(c, m.node, s.rounds[m.node].stamp.value)
  }

  function CountFrom(q: seq<Claim>, x: NodeId): nat {
    if q == [] then 0 else (if q[0].node == x then 1 else 0) + CountFrom(q[1..], x)
  }

  /** How many claims of `x` a node holds, buffered or queued. */
  function HeldFrom(r: Round, x: NodeId): nat {
    CountFrom(ClaimsIn(r.buffer), x) + CountFrom(r.claims, x)
  }

  ghost predicate PhaseOk(c: Config, n: NodeId, r: Round) {
    && (r.phase.Waiting? || r.phase.Ready? || r.stamp.Some? ==> c.decision(n).eligible)
    && (r.phase.NotStarted? ==> r.claims == [])
    && (r.phase.NotStarted? || r.phase.Waiting? || r.phase.Ready? ==> r.stamp == None)
  }

  ghost predicate RoundTraffic(c: Config, s: State, n: NodeId, r: Round) {
    && PhaseOk(c, n, r)
    && (forall m | m in r.claims :: Genuine(c, s, n, m))
    && (forall m | m in ClaimsIn(r.buffer) :: Genuine(c, s, n, m))
    && (forall x :: HeldFrom(r, x) <= 1)
  }

  ghost predicate PacketTraffic(c: Config, s: State, p: Packet) {
    && p.dest in c.nodes && p.dest in s.rounds
    && (p.msg.ClaimMsg? ==>
          && Genuine(c, s, p.dest, p.msg.claim)
          && p.sentAt == s.rounds[p.msg.claim.node].stamp.value
          && HeldFrom(s.rounds[p.dest], p.msg.claim.node) == 0)
  }

  ghost predicate Traffic(c: Config, s: State) {
    && s.rounds.Keys == c.nodes
    && (forall n | n in c.nodes :: RoundTraffic(c, s, n, s.rounds[n]))
    && (forall p | p in s.net :: PacketTraffic(c, s, p))
  }

  // ----- counting

  lemma {:induction false} CountAppend(q: seq<Claim>, m: Claim, x: NodeId)
    ensures CountFrom(q + [m], x) == CountFrom(q, x) + (if m.node == x then 1 else 0)
  {
    if q == [] {
      assert [] + [m] == [m];
    } else {
      assert (q + [m])[1..] == q[1..] + [m];
      CountAppend(q[1..], m, x);
    }
  }

  lemma {:induction false} CountPrefix(q: seq<Claim>, k: nat, x: NodeId)
    requires k <= |q|
    ensures CountFrom(q[..k], x) <= CountFrom(q, x)
  {
    if k > 0 {
      assert q[..k][1..] == q[1..][..k - 1];
      CountPrefix(q[1..], k - 1, x);
    }
  }

  lemma {:induction false} CountZero(q: seq<Claim>, x: NodeId)
    ensures CountFrom(q, x) == 0 <==> forall m | m in q :: m.node != x
  {
    if q != [] {
      CountZero(q[1..], x);
      assert q == [q[0]] + q[1..];
    }
  }

  lemma {:induction false} ClaimsInAppend(buffer: seq<Buffered<Message>>, x: Buffered<Message>)
    ensures ClaimsIn(buffer + [x]) == ClaimsIn(buffer) + (if x.msg.ClaimMsg? then [x.msg.claim] else [])
  {
    if buffer != [] {
      assert (buffer + [x])[1..] == buffer[1..] + [x];
      ClaimsInAppend(buffer[1..], x);
    } else {
      assert [x][1..] == [];
    }
  }

  lemma {:induction false} SweepOnlyRemoves(buffer: seq<Buffered<Message>>, cutoff: int, x: NodeId)
    ensures CountFrom(ClaimsIn(Kept(buffer, cutoff)), x) <= CountFrom(ClaimsIn(buffer), x)
    ensures forall m | m in ClaimsIn(Kept(buffer, cutoff)) :: m in ClaimsIn(buffer)
  {
    if buffer != [] {
      SweepOnlyRemoves(buffer[1..], cutoff, x);
      var rest := Kept(buffer[1..], cutoff);
      if buffer[0].receivedAt > cutoff {
        assert ([buffer[0]] + rest)[1..] == rest;
        assert Kept(buffer, cutoff) == [buffer[0]] + rest;
      } else {
        assert Kept(buffer, cutoff) == rest;
      }
      ClaimsInCons(buffer, x);
      if buffer[0].receivedAt > cutoff { ClaimsInCons(Kept(buffer, cutoff), x); }
    }
  }

  lemma ClaimsInCons(buffer: seq<Buffered<Message>>, x: NodeId)
    requires buffer != []
    ensures var b, rest := buffer[0].msg, ClaimsIn(buffer[1..]);
            && ClaimsIn(buffer) == (if b.ClaimMsg? then [b.claim] else []) + rest
            && CountFrom(ClaimsIn(buffer), x) ==
                 (if b.ClaimMsg? && b.claim.node == x then 1 else 0) + CountFrom(rest, x)
  {
    var b, rest := buffer[0].msg, ClaimsIn(buffer[1..]);
    if b.ClaimMsg? {
      assert ([b.claim] + rest)[1..] == rest;
    } else {
      assert [] + rest == rest;
    }
  }

  // ----- one step

  /** No round forgets its stamp. */
  ghost predicate StampsKept(s: State, s': State) {
    forall k | k in s.rounds ::
      k in s'.rounds && (s.rounds[k].stamp.Some? ==> s'.rounds[k].stamp == s.rounds[k].stamp)
  }

  /** `r'` holds nothing that `r` did not. */
  ghost predicate HoldsLess(r: Round, r': Round) {
    && (forall m | m in r'.claims :: m in r.claims || m in ClaimsIn(r.buffer))
    && (forall m | m in ClaimsIn(r'.buffer) :: m in ClaimsIn(r.buffer))
    && (forall x :: HeldFrom(r', x) <= HeldFrom(r, x))
  }

  lemma RoundShrinks(c: Config, s: State, s': State, n: NodeId, r: Round, r': Round)
    requires RoundTraffic(c, s, n, r) && HoldsLess(r, r') && StampsKept(s, s') && PhaseOk(c, n, r')
    ensures RoundTraffic(c, s', n, r')
  {
    forall x ensures HeldFrom(r', x) <= 1 {
      assert HeldFrom(r, x) <= 1;
    }
  }

  lemma PacketShrinks(c: Config, s: State, s': State, p: Packet)
    requires PacketTraffic(c, s, p) && StampsKept(s, s') && p.dest in s'.rounds
    requires HoldsLess(s.rounds[p.dest], s'.rounds[p.dest])
    ensures PacketTraffic(c, s', p)
  {
  }

  /** `n` holds no more than before, no stamp is lost, and new packets to anyone are failures. */
  lemma ShrinkingKeepsTraffic(c: Config, s: State, s': State, n: NodeId)
    requires Traffic(c, s) && n in c.nodes && n in s'.rounds && s'.rounds == s.rounds[n := s'.rounds[n]]
    requires HoldsLess(s.rounds[n], s'.rounds[n]) && s'.rounds[n].stamp == s.rounds[n].stamp
    requires PhaseOk(c, n, s'.rounds[n])
    requires forall p | p in s'.net && p !in s.net :: p.msg.FailedMsg? && p.dest in c.nodes
    ensures Traffic(c, s')
  {
    forall k | k in c.nodes
      ensures RoundTraffic(c, s', k, s'.rounds[k])
    {
      assert RoundTraffic(c, s, k, s.rounds[k]);
      RoundShrinks(c, s, s', k, s.rounds[k], s'.rounds[k]);
    }
    forall p | p in s'.net
      ensures PacketTraffic(c, s', p)
    {
      if p in s.net {
        assert PacketTraffic(c, s, p);
        PacketShrinks(c, s, s', p);
      }
    }
  }

  /** Receipt of a claim adds at most that one claim. */
  lemma ReceiveHolds(c: Config, r: Round, msg: Message, now: int, x: NodeId)
    ensures var r' := Receive(c, r, msg, now);
            var extra := if msg.ClaimMsg? && msg.claim.node == x then 1 else 0;
            && HeldFrom(r', x) <= HeldFrom(r, x) + extra
            && (forall m | m in r'.claims :: m in r.claims || msg == ClaimMsg(m))
            && (forall m | m in ClaimsIn(r'.buffer) :: m in ClaimsIn(r.buffer) || msg == ClaimMsg(m))
            && r'.phase == r.phase && r'.stamp == r.stamp
  {
    ClaimsInAppend(r.buffer, Buffered(now, msg));
    if msg.ClaimMsg? {
      CountAppend(r.claims, msg.claim, x);
      CountAppend(ClaimsIn(r.buffer), msg.claim, x);
    } else {
      assert ClaimsIn(r.buffer) + [] == ClaimsIn(r.buffer);
    }
  }

  lemma DeliverKeepsTraffic(c: Config, s: State, p: Packet)
    requires Traffic(c, s) && Enabled(c, s, Deliver(p))
    ensures Traffic(c, Apply(c, s, Deliver(p)))
  {
    var s' := Apply(c, s, Deliver(p));
    var n := p.dest;
    var r, r' := s.rounds[n], Receive(c, s.rounds[n], p.msg, s.now);
    assert PacketTraffic(c, s, p);
    assert RoundTraffic(c, s, n, r);
    if s.now - p.sentAt > STALE_AGE {
      ShrinkingKeepsTraffic(c, s, s', n);
    } else if p.msg.FailedMsg? {
      forall x ensures HeldFrom(r', x) <= HeldFrom(r, x) { ReceiveHolds(c, r, p.msg, s.now, x); }
      ReceiveHolds(c, r, p.msg, s.now, "");
      ShrinkingKeepsTraffic(c, s, s', n);
    } else {
      DeliverClaimKeepsTraffic(c, s, s', p, r');
    }
  }

  lemma ReceivedClaimIsNew(c: Config, s: State, p: Packet, r': Round)
    requires Traffic(c, s) && p in s.net && p.dest in s.rounds && p.msg.ClaimMsg?
    requires r' == Receive(c, s.rounds[p.dest], p.msg, s.now)
    ensures RoundTraffic(c, s, p.dest, r')
  {
    var n, r := p.dest, s.rounds[p.dest];
    assert PacketTraffic(c, s, p) && RoundTraffic(c, s, n, r);
    forall x ensures HeldFrom(r', x) <= 1 {
      ReceiveHolds(c, r, p.msg, s.now, x);
      assert HeldFrom(r, x) <= 1;
    }
    ReceiveHolds(c, r, p.msg, s.now, "");
  }

  lemma DeliverClaimKeepsTraffic(c: Config, s: State, s': State, p: Packet, r': Round)
    requires Traffic(c, s) && p in s.net && p.dest in s.rounds && p.msg.ClaimMsg?
    requires r' == Receive(c, s.rounds[p.dest], p.msg, s.now)
    requires s'.rounds == s.rounds[p.dest := r'] && s'.net == s.net - {p}
    ensures Traffic(c, s')
  {
    var n, r := p.dest, s.rounds[p.dest];
    ReceivedClaimIsNew(c, s, p, r');
    ReceiveHolds(c, r, p.msg, s.now, "");
    assert StampsKept(s, s');
    forall k | k in c.nodes
      ensures RoundTraffic(c, s', k, s'.rounds[k])
    {
      assert RoundTraffic(c, s, k, s.rounds[k]);
      RoundShrinks(c, s, s', k, s'.rounds[k], s'.rounds[k]);
    }
    forall q | q in s'.net
      ensures PacketTraffic(c, s', q)
    {
      assert PacketTraffic(c, s, p) && PacketTraffic(c, s, q);
      if q.dest == n && q.msg.ClaimMsg? {
        ReceiveHolds(c, r, p.msg, s.now, q.msg.claim.node);
      }
    }
  }

  lemma ReplayHoldsLess(c: Config, r: Round, r': Round)
    requires r.claims == [] && r'.claims == AtMost(ClaimsIn(r.buffer), c.capacity) && r'.buffer == []
    ensures HoldsLess(r, r')
  {
    forall x ensures HeldFrom(r', x) <= HeldFrom(r, x) {
      if |ClaimsIn(r.buffer)| > c.capacity {
        CountPrefix(ClaimsIn(r.buffer), c.capacity, x);
      }
    }
  }

  lemma StartShape(c: Config, s: State, n: NodeId, busy: bool)
    requires s.rounds.Keys == c.nodes && Enabled(c, s, Start(n, busy))
    ensures var s' := Apply(c, s, Start(n, busy));
            var r, r' := s.rounds[n], s'.rounds[n];
            && s'.rounds == s.rounds[n := r'] && r'.stamp == r.stamp && r'.buffer == []
            && r'.claims == AtMost(ClaimsIn(r.buffer), c.capacity)
            && (r'.phase.Waiting? || r'.phase.Ready? ==> c.decision(n).eligible) && !r'.phase.NotStarted?
            && (forall p | p in s'.net && p !in s.net :: p.msg.FailedMsg? && p.dest in c.nodes)
  {
  }

  lemma StartKeepsTraffic(c: Config, s: State, n: NodeId, busy: bool)
    requires Traffic(c, s) && Enabled(c, s, Start(n, busy))
    ensures Traffic(c, Apply(c, s, Start(n, busy)))
  {
    assert RoundTraffic(c, s, n, s.rounds[n]);
    StartShape(c, s, n, busy);
    var s' := Apply(c, s, Start(n, busy));
    ReplayHoldsLess(c, s.rounds[n], s'.rounds[n]);
    ShrinkingKeepsTraffic(c, s, s', n);
  }

  /** The packets of a node that stamps its claim: old ones as before, new ones the first from `n` to their node. */
  lemma ReserveKeepsPackets(c: Config, s: State, n: NodeId, s': State, p: Packet)
    requires Traffic(c, s) && Enabled(c, s, Reserve(n, true)) && s' == Apply(c, s, Reserve(n, true))
    requires StampsKept(s, s') && p in s'.net
    ensures PacketTraffic(c, s', p)
  {
    if p in s.net {
      assert PacketTraffic(c, s, p);
      PacketShrinks(c, s, s', p);
    } else {
      assert RoundTraffic(c, s, n, s.rounds[n]) && RoundTraffic(c, s, p.dest, s.rounds[p.dest]);
      CountZero(s.rounds[p.dest].claims, n);
      CountZero(ClaimsIn(s.rounds[p.dest].buffer), n);
    }
  }

  lemma ReserveKeepsRounds(c: Config, s: State, n: NodeId, s': State, k: NodeId)
    requires Traffic(c, s) && Enabled(c, s, Reserve(n, true)) && s' == Apply(c, s, Reserve(n, true))
    requires StampsKept(s, s') && k in c.nodes
    ensures RoundTraffic(c, s', k, s'.rounds[k])
  {
    assert RoundTraffic(c, s, k, s.rounds[k]);
    RoundShrinks(c, s, s', k, s.rounds[k], s'.rounds[k]);
  }

  lemma ReserveKeepsTraffic(c: Config, s: State, n: NodeId)
    requires Traffic(c, s) && Enabled(c, s, Reserve(n, true))
    ensures Traffic(c, Apply(c, s, Reserve(n, true)))
  {
    var s' := Apply(c, s, Reserve(n, true));
    assert RoundTraffic(c, s, n, s.rounds[n]);
    assert StampsKept(s, s');
    forall k | k in c.nodes ensures RoundTraffic(c, s', k, s'.rounds[k]) {
      ReserveKeepsRounds(c, s, n, s', k);
    }
    forall p | p in s'.net ensures PacketTraffic(c, s', p) {
      ReserveKeepsPackets(c, s, n, s', p);
    }
  }

  lemma HearHoldsLess(c: Config, now: int, n: NodeId, r: Round)
    requires r.claims != []
    ensures HoldsLess(r, Hear(c, now, n, r))
  {
  }

  lemma SweepHoldsLess(r: Round, cutoff: int)
    ensures HoldsLess(r, r.(buffer := Kept(r.buffer, cutoff)))
  {
    var r' := r.(buffer := Kept(r.buffer, cutoff));
    forall x ensures HeldFrom(r', x) <= HeldFrom(r, x) { SweepOnlyRemoves(r.buffer, cutoff, x); }
    SweepOnlyRemoves(r.buffer, cutoff, "");
  }

  /** Only the phase of `n` changes, and new packets are failures. */
  lemma PhaseChangeKeepsTraffic(c: Config, s: State, s': State, n: NodeId)
    requires Traffic(c, s) && n in c.nodes && n in s'.rounds && n in s.rounds
    requires s'.rounds == s.rounds[n := s.rounds[n].(phase := s'.rounds[n].phase)]
    requires PhaseOk(c, n, s'.rounds[n])
    requires forall p | p in s'.net && p !in s.net :: p.msg.FailedMsg? && p.dest in c.nodes
    ensures Traffic(c, s')
  {
    ShrinkingKeepsTraffic(c, s, s', n);
  }

  /** Steps that neither read nor move a claim. */
  lemma QuietKeepsTraffic(c: Config, s: State, step: Step)
    requires Traffic(c, s) && Enabled(c, s, step)
    requires step.HearFailure? || step.PublishTimer? || step.Deadline?
             || step.WindowCloses? || step.Cancel? || (step.Reserve? && !step.free)
    ensures Traffic(c, Apply(c, s, step))
  {
    assert RoundTraffic(c, s, step.n, s.rounds[step.n]);
    PhaseChangeKeepsTraffic(c, s, Apply(c, s, step), step.n);
  }

  lemma PublishReturnsKeepsTraffic(c: Config, s: State, n: NodeId, ok: bool, unsent: set<NodeId>)
    requires Traffic(c, s) && Enabled(c, s, PublishReturns(n, ok, unsent))
    ensures Traffic(c, Apply(c, s, PublishReturns(n, ok, unsent)))
  {
    assert RoundTraffic(c, s, n, s.rounds[n]);
    PhaseChangeKeepsTraffic(c, s, Apply(c, s, PublishReturns(n, ok, unsent)), n);
  }

  lemma TickKeepsTraffic(c: Config, s: State, to: int)
    requires Traffic(c, s)
    ensures Traffic(c, s.(now := to))
  {
    var s' := s.(now := to);
    forall k | k in c.nodes ensures RoundTraffic(c, s', k, s'.rounds[k]) {
      assert RoundTraffic(c, s, k, s.rounds[k]);
      RoundShrinks(c, s, s', k, s.rounds[k], s.rounds[k]);
    }
    forall p | p in s'.net ensures PacketTraffic(c, s', p) {
      assert PacketTraffic(c, s, p);
      PacketShrinks(c, s, s', p);
    }
  }

  lemma PhaseIsOk(c: Config, s: State, n: NodeId, r': Round)
    requires Traffic(c, s) && n in s.rounds && r'.phase == s.rounds[n].phase && r'.stamp == s.rounds[n].stamp
    requires r'.claims == s.rounds[n].claims
    ensures n in c.nodes && PhaseOk(c, n, r')
  {
    assert RoundTraffic(c, s, n, s.rounds[n]);
  }

  lemma SweepKeepsTraffic(c: Config, s: State, n: NodeId)
    requires Traffic(c, s) && Enabled(c, s, Sweep(n))
    ensures Traffic(c, Apply(c, s, Sweep(n)))
  {
    var s' := Apply(c, s, Sweep(n));
    SweepHoldsLess(s.rounds[n], s.now - c.ttl);
    PhaseIsOk(c, s, n, s'.rounds[n]);
    ShrinkingKeepsTraffic(c, s, s', n);
  }

  lemma HearKeepsTraffic(c: Config, s: State, n: NodeId)
    requires Traffic(c, s) && Enabled(c, s, HearClaim(n))
    ensures Traffic(c, Apply(c, s, HearClaim(n)))
  {
    assert RoundTraffic(c, s, n, s.rounds[n]);
    HearHoldsLess(c, s.now, n, s.rounds[n]);
    ShrinkingKeepsTraffic(c, s, Apply(c, s, HearClaim(n)), n);
  }

  lemma StepKeepsTraffic(c: Config, s: State, step: Step)
    requires Traffic(c, s) && Enabled(c, s, step)
    ensures Traffic(c, Apply(c, s, step))
  {
    match step
    case Tick(to) => TickKeepsTraffic(c, s, to);
    case Deliver(p) => DeliverKeepsTraffic(c, s, p);
    case Start(n, busy) => StartKeepsTraffic(c, s, n, busy);
    case Reserve(n, free) =>
      if free { ReserveKeepsTraffic(c, s, n); } else { QuietKeepsTraffic(c, s, step); }
    case Sweep(n) => SweepKeepsTraffic(c, s, n);
    case HearClaim(n) => HearKeepsTraffic(c, s, n);
    case PublishReturns(n, ok, unsent) => PublishReturnsKeepsTraffic(c, s, n, ok, unsent);
    case _ => QuietKeepsTraffic(c, s, step);
  }

  lemma {:induction false} RunKeepsTraffic(c: Config, t0: int, steps: seq<Step>)
    ensures After(c, t0, steps).Some? ==> Traffic(c, After(c, t0, steps).value)
  {
    if steps != [] && After(c, t0, steps).Some? {
      var before := steps[..|steps| - 1];
      RunKeepsTraffic(c, t0, before);
      StepKeepsTraffic(c, After(c, t0, before).value, steps[|steps| - 1]);
    }
  }

  // ----- channels cannot fill up in a small cluster

  /** Claims that occur at most once per sender are no more than the senders. */
  lemma {:induction false} QueueBound(q: seq<Claim>, senders: set<NodeId>)
    requires forall m | m in q :: m.node in senders
    requires forall x :: CountFrom(q, x) <= 1
    ensures |q| <= |senders|
  {
    if q != [] {
      var m, rest := q[0], q[1..];
      assert CountFrom(q, m.node) <= 1;
      CountZero(rest, m.node);
      forall x ensures CountFrom(rest, x) <= 1 { assert CountFrom(q, x) <= 1; }
      QueueBound(rest, senders - {m.node});
    }
  }

  lemma StepDoesNotOverflow(c: Config, s: State, step: Step)
    requires Traffic(c, s) && Enabled(c, s, step) && !s.overflowed && |c.nodes| <= c.capacity + 1
    ensures !Apply(c, s, step).overflowed
  {
    match step
    case Deliver(p) => if p.msg.ClaimMsg? { DeliveryFits(c, s, p); }
    case Start(n, _) => ReplayFits(c, s, n);
    case _ =>
  }

  lemma DeliveryFits(c: Config, s: State, p: Packet)
    requires Traffic(c, s) && p in s.net && p.msg.ClaimMsg? && |c.nodes| <= c.capacity + 1
    ensures |s.rounds[p.dest].claims| < c.capacity
  {
    var r := s.rounds[p.dest];
    assert RoundTraffic(c, s, p.dest, r) && PacketTraffic(c, s, p);
    var q := r.claims + [p.msg.claim];
    forall x ensures CountFrom(q, x) <= 1 {
      CountAppend(r.claims, p.msg.claim, x);
      assert HeldFrom(r, x) <= 1;
    }
    QueueBound(q, c.nodes - {p.dest});
  }

  lemma ReplayFits(c: Config, s: State, n: NodeId)
    requires Traffic(c, s) && n in s.rounds && |c.nodes| <= c.capacity + 1
    ensures |ClaimsIn(s.rounds[n].buffer)| <= c.capacity
  {
    var r := s.rounds[n];
    assert RoundTraffic(c, s, n, r);
    forall x ensures CountFrom(ClaimsIn(r.buffer), x) <= 1 { assert HeldFrom(r, x) <= 1; }
    QueueBound(ClaimsIn(r.buffer), c.nodes - {n});
  }

  /** In a cluster with at most one node more than a channel holds, no claim is ever dropped for want of room. */
  lemma {:induction false} SmallClusterNeverOverflows(c: Config, t0: int, steps: seq<Step>)
    requires |c.nodes| <= c.capacity + 1
    ensures After(c, t0, steps).Some? ==> !After(c, t0, steps).value.overflowed
  {
    if steps != [] && After(c, t0, steps).Some? {
      var before := steps[..|steps| - 1];
      SmallClusterNeverOverflows(c, t0, before);
      RunKeepsTraffic(c, t0, before);
      StepDoesNotOverflow(c, After(c, t0, before).value, steps[|steps| - 1]);
    }
  }
}
