/**
  Single-winner safety: no run of the timed election lets two nodes win, given bounded delays.
 */
module ElectionSafety {
  import opened Options
  import opened Claims
  import opened ElectionProtocol
  import opened TopicBuffer

  /** The timing assumptions under which the tiebreak window is long enough. */
  ghost predicate Timely(c: Config) {
    && 0 <= c.delay <= STALE_AGE
    && 2 * c.delay + c.lateness < c.window
    && 0 <= c.publishing < c.window
    && 0 <= c.timeout && 0 <= c.lateness
    && (forall a, b | a in c.nodes && b in c.nodes :: Skew(c, a, b) + c.delay + c.lateness < c.window)
    && (forall a, b | a in c.nodes && b in c.nodes :: Skew(c, a, b) < c.ttl)
  }

  /** How much later `b` starts than `a`. */
  ghost function Skew(c: Config, a: NodeId, b: NodeId): int { c.start(b) - c.start(a) }

  /** A node that has published and may still win. */
  predicate Live(p: Phase) { p.Publishing? || p.Tiebreak? || p.Won? }

  /** A node that has not published and still may. */
  predicate Fresh(p: Phase) { p.NotStarted? || p.Waiting? || p.Ready? }

  ghost predicate RoundInv(c: Config, now: int, n: NodeId, r: Round) {
    var d := c.decision(n);
    && (Fresh(r.phase) || r.phase.RemoteWait? ==> r.stamp == None)
    && (r.stamp.Some? ==>
          c.start(n) <= r.stamp.value <= now
          && r.stamp.value <= Max(c.start(n), d.publishAt) + c.lateness
          && r.stamp.value <= c.start(n) + c.timeout + c.lateness)
    && (Live(r.phase) ==> r.stamp.Some? && d.eligible)
    && match r.phase
       case NotStarted => now <= c.start(n)
       case Waiting(t) =>
         c.start(n) <= now <= d.publishAt && t == c.start(n) + c.timeout && now <= t && d.eligible
       case Ready(t, since) =>
         && c.start(n) <= since <= now <= since + c.lateness && since <= Max(c.start(n), d.publishAt)
         && t == c.start(n) + c.timeout && since <= t && d.eligible
       case Publishing(at) => r.stamp == Some(at) && now <= at + c.publishing
       case Tiebreak(at) => r.stamp == Some(at) && now <= at + c.window
       case RemoteWait(t) => c.start(n) <= now <= t && t == c.start(n) + c.timeout
       case Won => now >= r.stamp.value + c.window
       case _ => true
  }

  /** A round that is past reading the claim `m`: it lost interest or judged the claim not better. */
  ghost predicate Handled(c: Config, a: NodeId, p: Phase, m: Claim) {
    match p
    case NotStarted => false
    case Waiting(_) => false
    case RemoteWait(_) => c.decision(a).eligible
    case Lost(_) => true
    case Failed => true
    case _ => !IsBetter(m, c.decision(a), a)
  }

  ghost predicate InBuffer(buffer: seq<Buffered<Message>>, m: Claim, since: int) {
    exists i :: 0 <= i < |buffer| && buffer[i].msg == ClaimMsg(m) && buffer[i].receivedAt >= since
  }

  /** Unless `a` is about to publish, the latest instant at which it can still have the claim stamped `tb` unread in its
      channel. */
  ghost function ReadBy(c: Config, a: NodeId, ra: Round, tb: int): int {
    var base := Max(tb + c.delay, c.start(a));
    if ra.stamp.Some? then Max(base, ra.stamp.value + c.publishing) else base
  }

  /** Where the claim that `b` stamped `tb` is, as seen from `a`. */
  ghost predicate Delivered(c: Config, now: int, net: set<Packet>, a: NodeId, ra: Round, b: NodeId, tb: int) {
    var m := ClaimOf(c, b, tb);
    || Packet(a, ClaimMsg(m), tb) in net
    || (ra.phase.NotStarted? && InBuffer(ra.buffer, m, tb))
    || (Listening(ra.phase) && m in ra.claims && (ra.phase.Ready? || now <= ReadBy(c, a, ra, tb)))
    || Handled(c, a, ra.phase, m)
  }

  ghost predicate PairInv(c: Config, now: int, net: set<Packet>, a: NodeId, ra: Round, b: NodeId, rb: Round) {
    Live(rb.phase) && rb.stamp.Some? ==>
      var tb := rb.stamp.value;
      && Delivered(c, now, net, a, ra, b, tb)
      && (Fresh(ra.phase) ==> (if ra.phase.Ready? then ra.phase.since else now) <= Max(c.start(a), tb + c.delay))
      && (Live(ra.phase) && ra.stamp.Some? ==> ra.stamp.value <= Max(c.start(a), tb + c.delay) + c.lateness)
      && (rb.phase.Won? ==> !Fresh(ra.phase))
      && (ra.phase.Won? ==> !IsBetter(ClaimOf(c, b, tb), c.decision(a), a))
  }

  ghost predicate Inv(c: Config, s: State) {
    && s.rounds.Keys == c.nodes
    && (forall p | p in s.net :: p.sentAt <= s.now <= p.sentAt + c.delay && p.dest in c.nodes)
    && (forall n | n in c.nodes :: RoundInv(c, s.now, n, s.rounds[n]))
    && (!s.overflowed ==>
          forall a, b | a in c.nodes && b in c.nodes && a != b ::
            PairInv(c, s.now, s.net, a, s.rounds[a], b, s.rounds[b]))
  }

  // ----- sequences of buffered messages

  lemma {:induction false} BufferedClaimReplayed(buffer: seq<Buffered<Message>>, m: Claim, since: int)
    requires InBuffer(buffer, m, since)
    ensures m in ClaimsIn(buffer)
  {
    var i :| 0 <= i < |buffer| && buffer[i].msg == ClaimMsg(m) && buffer[i].receivedAt >= since;
    if i > 0 {
      assert buffer[1..][i - 1] == buffer[i];
      BufferedClaimReplayed(buffer[1..], m, since);
    }
  }

  lemma {:induction false} SweepKeepsYoung(buffer: seq<Buffered<Message>>, m: Claim, since: int, cutoff: int)
    requires InBuffer(buffer, m, since) && cutoff < since
    ensures InBuffer(Kept(buffer, cutoff), m, since)
  {
    var i :| 0 <= i < |buffer| && buffer[i].msg == ClaimMsg(m) && buffer[i].receivedAt >= since;
    var rest := Kept(buffer[1..], cutoff);
    if i == 0 {
      assert Kept(buffer, cutoff)[0] == buffer[0];
    } else {
      assert buffer[1..][i - 1] == buffer[i];
      SweepKeepsYoung(buffer[1..], m, since, cutoff);
      var j :| 0 <= j < |rest| && rest[j].msg == ClaimMsg(m) && rest[j].receivedAt >= since;
      var k := |Kept(buffer, cutoff)| - |rest| + j;
      assert Kept(buffer, cutoff)[k] == rest[j];
    }
  }

  lemma BufferAppendKeeps(buffer: seq<Buffered<Message>>, x: Buffered<Message>, m: Claim, since: int)
    requires InBuffer(buffer, m, since) || (x.msg == ClaimMsg(m) && x.receivedAt >= since)
    ensures InBuffer(buffer + [x], m, since)
  {
    if InBuffer(buffer, m, since) {
      var i :| 0 <= i < |buffer| && buffer[i].msg == ClaimMsg(m) && buffer[i].receivedAt >= since;
      assert (buffer + [x])[i] == buffer[i];
    } else {
      assert (buffer + [x])[|buffer|] == x;
    }
  }

  // ----- one step of one round

  /** The round of `n` alone changes and no packet disappears. */
  ghost predicate LocalStep(c: Config, s: State, s': State, n: NodeId) {
    && n in s.rounds && n in s'.rounds && s'.now == s.now && s'.overflowed == s.overflowed && s.net <= s'.net
    && s'.rounds == s.rounds[n := s'.rounds[n]]
    && (forall p | p in s'.net && p !in s.net :: p.sentAt == s.now && p.dest in c.nodes)
  }

  /** `PairInv` reads only the packets addressed to `a` and the phase and stamp of `b`. */
  lemma PairFrame(c: Config, now: int, net: set<Packet>, net': set<Packet>,
                  a: NodeId, ra: Round, b: NodeId, rb: Round, rb': Round)
    requires PairInv(c, now, net, a, ra, b, rb)
    requires rb'.phase == rb.phase && rb'.stamp == rb.stamp
    requires forall p | p in net && p.dest == a :: p in net'
    ensures PairInv(c, now, net', a, ra, b, rb')
  {
  }

  lemma LocalStepKeepsInv(c: Config, s: State, s': State, n: NodeId)
    requires Timely(c) && Inv(c, s) && LocalStep(c, s, s', n)
    requires RoundInv(c, s.now, n, s'.rounds[n])
    requires !s.overflowed ==> forall b | b in c.nodes && b != n ::
      && PairInv(c, s.now, s'.net, n, s'.rounds[n], b, s.rounds[b])
      && PairInv(c, s.now, s'.net, b, s.rounds[b], n, s'.rounds[n])
    ensures Inv(c, s')
  {
    if !s.overflowed {
      forall a, b | a in c.nodes && b in c.nodes && a != b
        ensures PairInv(c, s'.now, s'.net, a, s'.rounds[a], b, s'.rounds[b])
      {
        assert PairInv(c, s.now, s.net, a, s.rounds[a], b, s.rounds[b]);
      }
    }
  }

  /** A round that stops without having won imposes nothing on the others. */
  lemma StoppingKeepsInv(c: Config, s: State, s': State, n: NodeId)
    requires Timely(c) && Inv(c, s) && LocalStep(c, s, s', n)
    requires !Live(s'.rounds[n].phase) && !Fresh(s'.rounds[n].phase)
    requires RoundInv(c, s.now, n, s'.rounds[n])
    requires s'.rounds[n].phase.RemoteWait? ==> c.decision(n).eligible
    ensures Inv(c, s')
  {
    LocalStepKeepsInv(c, s, s', n);
  }

  lemma TickKeepsInv(c: Config, s: State, to: int)
    requires Timely(c) && Inv(c, s) && Enabled(c, s, Tick(to))
    ensures Inv(c, Apply(c, s, Tick(to)))
  {
    var s' := Apply(c, s, Tick(to));
    forall n | n in c.nodes
      ensures RoundInv(c, to, n, s.rounds[n])
    {
      assert MayIdle(c, n, s.rounds[n], to) && RoundInv(c, s.now, n, s.rounds[n]);
    }
    if !s.overflowed {
      forall a, b | a in c.nodes && b in c.nodes && a != b
        ensures PairInv(c, to, s.net, a, s.rounds[a], b, s.rounds[b])
      {
        TickKeepsPair(c, s, to, a, b);
      }
    }
  }

  lemma TickKeepsPair(c: Config, s: State, to: int, a: NodeId, b: NodeId)
    requires Timely(c) && Inv(c, s) && Enabled(c, s, Tick(to)) && !s.overflowed
    requires a in c.nodes && b in c.nodes && a != b
    ensures PairInv(c, to, s.net, a, s.rounds[a], b, s.rounds[b])
  {
    var ra, rb := s.rounds[a], s.rounds[b];
    assert PairInv(c, s.now, s.net, a, ra, b, rb);
    assert RoundInv(c, s.now, a, ra) && RoundInv(c, s.now, b, rb);
    assert MayIdle(c, a, ra, to);
  }

  /** `RoundInv` reads only the phase and the stamp. */
  lemma RoundFrame(c: Config, now: int, n: NodeId, r: Round, r': Round)
    requires RoundInv(c, now, n, r) && r'.phase == r.phase && r'.stamp == r.stamp
    ensures RoundInv(c, now, n, r')
  {
  }

  lemma DeliverShape(c: Config, s: State, p: Packet)
    requires Timely(c) && Inv(c, s) && Enabled(c, s, Deliver(p))
    ensures var s' := Apply(c, s, Deliver(p));
            && p.dest in c.nodes && s'.rounds == s.rounds[p.dest := Receive(c, s.rounds[p.dest], p.msg, s.now)]
            && s'.net == s.net - {p} && s'.now == s.now && (s.overflowed ==> s'.overflowed)
            && (!s'.overflowed && Listening(s.rounds[p.dest].phase) && p.msg.ClaimMsg? ==>
                  |s.rounds[p.dest].claims| < c.capacity)
  {
  }

  lemma ReceiveFrame(c: Config, r: Round, msg: Message, now: int)
    ensures Receive(c, r, msg, now).phase == r.phase && Receive(c, r, msg, now).stamp == r.stamp
  {
  }

  lemma DeliverKeepsInv(c: Config, s: State, p: Packet)
    requires Timely(c) && Inv(c, s) && Enabled(c, s, Deliver(p))
    ensures Inv(c, Apply(c, s, Deliver(p)))
  {
    DeliverShape(c, s, p);
    ReceiveFrame(c, s.rounds[p.dest], p.msg, s.now);
    var s' := Apply(c, s, Deliver(p));
    if !s'.overflowed {
      forall b | b in c.nodes && b != p.dest
        ensures PairInv(c, s.now, s'.net, p.dest, s'.rounds[p.dest], b, s.rounds[b])
      {
        assert RoundInv(c, s.now, b, s.rounds[b]);
        DeliverKeepsPair(c, s.now, s.net, p, s.rounds[p.dest], b, s.rounds[b]);
      }
    }
    DeliveryKeepsInv(c, s, s', p);
  }

  lemma DeliveryKeepsInv(c: Config, s: State, s': State, p: Packet)
    requires Timely(c) && Inv(c, s) && p.dest in c.nodes && p.dest in s'.rounds && p.dest in s.rounds
    requires s'.rounds == s.rounds[p.dest := s'.rounds[p.dest]]
    requires s'.rounds[p.dest].phase == s.rounds[p.dest].phase && s'.rounds[p.dest].stamp == s.rounds[p.dest].stamp
    requires s'.net == s.net - {p} && s'.now == s.now && (s.overflowed ==> s'.overflowed)
    requires !s'.overflowed ==> forall b | b in c.nodes && b != p.dest ::
      PairInv(c, s.now, s'.net, p.dest, s'.rounds[p.dest], b, s.rounds[b])
    ensures Inv(c, s')
  {
    RoundFrame(c, s.now, p.dest, s.rounds[p.dest], s'.rounds[p.dest]);
    if !s'.overflowed {
      forall a, b | a in c.nodes && b in c.nodes && a != b
        ensures PairInv(c, s'.now, s'.net, a, s'.rounds[a], b, s'.rounds[b])
      {
        if a != p.dest {
          assert PairInv(c, s.now, s.net, a, s.rounds[a], b, s.rounds[b]);
          PairFrame(c, s.now, s.net, s'.net, a, s.rounds[a], b, s.rounds[b], s'.rounds[b]);
        }
      }
    }
  }

  lemma DeliverKeepsPair(c: Config, now: int, net: set<Packet>, p: Packet, ra: Round, b: NodeId, rb: Round)
    requires Timely(c) && p in net && p.sentAt <= now <= p.sentAt + c.delay
    requires PairInv(c, now, net, p.dest, ra, b, rb) && RoundInv(c, now, p.dest, ra) && RoundInv(c, now, b, rb)
    requires Listening(ra.phase) && p.msg.ClaimMsg? ==> |ra.claims| < c.capacity
    ensures PairInv(c, now, net - {p}, p.dest, Receive(c, ra, p.msg, now), b, rb)
  {
    if Live(rb.phase) && rb.stamp.Some? {
      var tb := rb.stamp.value;
      var m := ClaimOf(c, b, tb);
      if ra.phase.NotStarted? && (InBuffer(ra.buffer, m, tb) || p == Packet(p.dest, ClaimMsg(m), tb)) {
        BufferAppendKeeps(ra.buffer, Buffered(now, p.msg), m, tb);
      }
    }
  }

  lemma SweepKeepsPair(c: Config, s: State, n: NodeId, b: NodeId, r': Round)
    requires Timely(c) && Inv(c, s) && !s.overflowed && n in c.nodes && b in c.nodes && b != n
    requires r' == s.rounds[n].(buffer := Kept(s.rounds[n].buffer, s.now - c.ttl))
    ensures PairInv(c, s.now, s.net, n, r', b, s.rounds[b])
  {
    var r, rb := s.rounds[n], s.rounds[b];
    assert PairInv(c, s.now, s.net, n, r, b, rb);
    assert RoundInv(c, s.now, n, r) && RoundInv(c, s.now, b, rb);
    if Live(rb.phase) && r.phase.NotStarted? {
      var tb := rb.stamp.value;
      if InBuffer(r.buffer, ClaimOf(c, b, tb), tb) {
        assert Skew(c, b, n) < c.ttl;
        SweepKeepsYoung(r.buffer, ClaimOf(c, b, tb), tb, s.now - c.ttl);
      }
    }
  }

  lemma SweepKeepsInv(c: Config, s: State, n: NodeId)
    requires Timely(c) && Inv(c, s) && Enabled(c, s, Sweep(n))
    ensures Inv(c, Apply(c, s, Sweep(n)))
  {
    var s' := Apply(c, s, Sweep(n));
    RoundFrame(c, s.now, n, s.rounds[n], s'.rounds[n]);
    if !s.overflowed {
      forall b | b in c.nodes && b != n
        ensures PairInv(c, s.now, s.net, n, s'.rounds[n], b, s.rounds[b])
      {
        SweepKeepsPair(c, s, n, b, s'.rounds[n]);
      }
    }
    ListeningKeepsInv(c, s, s', n);
  }

  lemma StartKeepsPair(c: Config, s: State, n: NodeId, busy: bool, b: NodeId)
    requires Timely(c) && Inv(c, s) && Enabled(c, s, Start(n, busy)) && b in c.nodes && b != n
    requires !Apply(c, s, Start(n, busy)).overflowed
    ensures PairInv(c, s.now, s.net, n, Apply(c, s, Start(n, busy)).rounds[n], b, s.rounds[b])
  {
    var r := s.rounds[n];
    assert PairInv(c, s.now, s.net, n, r, b, s.rounds[b]);
    assert RoundInv(c, s.now, b, s.rounds[b]);
    if Live(s.rounds[b].phase) {
      var tb := s.rounds[b].stamp.value;
      if InBuffer(r.buffer, ClaimOf(c, b, tb), tb) {
        BufferedClaimReplayed(r.buffer, ClaimOf(c, b, tb), tb);
      }
    }
  }

  lemma StartShape(c: Config, s: State, n: NodeId, busy: bool)
    requires Timely(c) && Inv(c, s) && Enabled(c, s, Start(n, busy))
    ensures var s' := Apply(c, s, Start(n, busy));
            && LocalStep(c, s.(overflowed := s'.overflowed), s', n) && (s.overflowed ==> s'.overflowed)
            && RoundInv(c, s.now, n, s'.rounds[n]) && !Live(s'.rounds[n].phase)
  {
    assert RoundInv(c, s.now, n, s.rounds[n]);
  }

  lemma StartKeepsInv(c: Config, s: State, n: NodeId, busy: bool)
    requires Timely(c) && Inv(c, s) && Enabled(c, s, Start(n, busy))
    ensures Inv(c, Apply(c, s, Start(n, busy)))
  {
    StartShape(c, s, n, busy);
    var s' := Apply(c, s, Start(n, busy));
    if !s'.overflowed {
      forall b | b in c.nodes && b != n
        ensures PairInv(c, s.now, s'.net, n, s'.rounds[n], b, s.rounds[b])
      {
        StartKeepsPair(c, s, n, busy, b);
        PairFrame(c, s.now, s.net, s'.net, n, s'.rounds[n], b, s.rounds[b], s.rounds[b]);
      }
    }
    ListeningKeepsInv(c, s, s', n);
  }

  /** A round that changes without publishing only needs its own side of each pair checked. */
  lemma ListeningKeepsInv(c: Config, s: State, s': State, n: NodeId)
    requires Timely(c) && Inv(c, s) && LocalStep(c, s.(overflowed := s'.overflowed), s', n)
    requires s.overflowed ==> s'.overflowed
    requires RoundInv(c, s.now, n, s'.rounds[n])
    requires !Live(s'.rounds[n].phase)
             || (s'.rounds[n].phase == s.rounds[n].phase && s'.rounds[n].stamp == s.rounds[n].stamp)
    requires !s'.overflowed ==> forall b | b in c.nodes && b != n ::
      PairInv(c, s.now, s'.net, n, s'.rounds[n], b, s.rounds[b])
    ensures Inv(c, s')
  {
    if !s'.overflowed {
      forall b | b in c.nodes && b != n
        ensures PairInv(c, s.now, s'.net, b, s.rounds[b], n, s'.rounds[n])
      {
        if Live(s'.rounds[n].phase) {
          assert PairInv(c, s.now, s.net, b, s.rounds[b], n, s.rounds[n]);
          PairFrame(c, s.now, s.net, s'.net, b, s.rounds[b], n, s.rounds[n], s'.rounds[n]);
        }
      }
    }
    LocalStepKeepsInv(c, s.(overflowed := s'.overflowed), s', n);
  }

  /** When a window closes on `n`, every rival's claim has been read and none is still to come. */
  lemma WindowHasSeenAll(c: Config, s: State, n: NodeId, b: NodeId)
    requires Timely(c) && Inv(c, s) && !s.overflowed && n in c.nodes && b in c.nodes && b != n
    requires s.rounds[n].phase.Publishing? || s.rounds[n].phase.Tiebreak?
    requires s.now >= s.rounds[n].stamp.value + c.window
    ensures !Fresh(s.rounds[b].phase)
    ensures Live(s.rounds[b].phase) ==>
              !IsBetter(ClaimOf(c, b, s.rounds[b].stamp.value), c.decision(n), n)
  {
    var rn, rb := s.rounds[n], s.rounds[b];
    assert PairInv(c, s.now, s.net, n, rn, b, rb);
    assert PairInv(c, s.now, s.net, b, rb, n, rn);
    assert RoundInv(c, s.now, n, rn) && RoundInv(c, s.now, b, rb);
    assert Skew(c, n, b) + c.delay + c.lateness < c.window;
  }

  lemma WinningKeepsInv(c: Config, s: State, s': State, n: NodeId)
    requires Timely(c) && Inv(c, s) && LocalStep(c, s, s', n)
    requires s.rounds[n].phase.Publishing? || s.rounds[n].phase.Tiebreak?
    requires s.now >= s.rounds[n].stamp.value + c.window
    requires s'.rounds[n].phase == Won && s'.rounds[n].stamp == s.rounds[n].stamp
    ensures Inv(c, s')
  {
    assert RoundInv(c, s.now, n, s.rounds[n]);
    if !s.overflowed {
      forall b | b in c.nodes && b != n
        ensures PairInv(c, s.now, s'.net, n, s'.rounds[n], b, s.rounds[b])
        ensures PairInv(c, s.now, s'.net, b, s.rounds[b], n, s'.rounds[n])
      {
        WindowHasSeenAll(c, s, n, b);
        assert PairInv(c, s.now, s.net, n, s.rounds[n], b, s.rounds[b]);
        assert PairInv(c, s.now, s.net, b, s.rounds[b], n, s.rounds[n]);
      }
    }
    LocalStepKeepsInv(c, s, s', n);
  }

  lemma HearKeepsPair(c: Config, s: State, n: NodeId, b: NodeId)
    requires Timely(c) && Inv(c, s) && Enabled(c, s, HearClaim(n)) && b in c.nodes && b != n && !s.overflowed
    requires var p := Apply(c, s, HearClaim(n)).rounds[n].phase; !p.Won? && !p.Lost?
    ensures PairInv(c, s.now, s.net, n, Apply(c, s, HearClaim(n)).rounds[n], b, s.rounds[b])
  {
    var r := s.rounds[n];
    assert PairInv(c, s.now, s.net, n, r, b, s.rounds[b]);
    assert RoundInv(c, s.now, n, r);
    assert r.claims == [r.claims[0]] + r.claims[1..];
  }

  lemma HearShape(c: Config, s: State, n: NodeId)
    requires Timely(c) && Inv(c, s) && Enabled(c, s, HearClaim(n))
    ensures var s' := Apply(c, s, HearClaim(n));
            var r, r' := s.rounds[n], s'.rounds[n];
            && s' == s.(rounds := s.rounds[n := r']) && r'.stamp == r.stamp
            && LocalStep(c, s, s', n)
            && RoundInv(c, s.now, n, r')
            && (r'.phase.Won? ==> r.phase.Tiebreak? && s.now >= r.stamp.value + c.window)
            && (r'.phase == r.phase || r'.phase.Won? || r'.phase.Lost? || r'.phase.Ready?)
  {
    assert RoundInv(c, s.now, n, s.rounds[n]);
  }

  lemma HearKeepsInv(c: Config, s: State, n: NodeId)
    requires Timely(c) && Inv(c, s) && Enabled(c, s, HearClaim(n))
    ensures Inv(c, Apply(c, s, HearClaim(n)))
  {
    HearShape(c, s, n);
    var s' := Apply(c, s, HearClaim(n));
    if s'.rounds[n].phase.Won? {
      WinningKeepsInv(c, s, s', n);
    } else if s'.rounds[n].phase.Lost? {
      StoppingKeepsInv(c, s, s', n);
    } else {
      if !s.overflowed {
        forall b | b in c.nodes && b != n
          ensures PairInv(c, s.now, s.net, n, s'.rounds[n], b, s.rounds[b])
        {
          HearKeepsPair(c, s, n, b);
        }
      }
      ListeningKeepsInv(c, s, s', n);
    }
  }

  lemma PublishTimerKeepsInv(c: Config, s: State, n: NodeId)
    requires Timely(c) && Inv(c, s) && Enabled(c, s, PublishTimer(n))
    ensures Inv(c, Apply(c, s, PublishTimer(n)))
  {
    var s' := Apply(c, s, PublishTimer(n));
    assert RoundInv(c, s.now, n, s.rounds[n]);
    if !s.overflowed {
      forall b | b in c.nodes && b != n
        ensures PairInv(c, s.now, s.net, n, s'.rounds[n], b, s.rounds[b])
        ensures PairInv(c, s.now, s.net, b, s.rounds[b], n, s'.rounds[n])
      {
        assert PairInv(c, s.now, s.net, n, s.rounds[n], b, s.rounds[b]);
        assert PairInv(c, s.now, s.net, b, s.rounds[b], n, s.rounds[n]);
      }
    }
    LocalStepKeepsInv(c, s, s', n);
  }

  /** The pairs of a node that stamps its claim now. */
  lemma StampKeepsPair(c: Config, s: State, n: NodeId, s': State, b: NodeId)
    requires Timely(c) && Inv(c, s) && !s.overflowed && Enabled(c, s, Reserve(n, true))
    requires s' == Apply(c, s, Reserve(n, true)) && b in c.nodes && b != n
    ensures PairInv(c, s.now, s'.net, n, s'.rounds[n], b, s.rounds[b])
    ensures PairInv(c, s.now, s'.net, b, s.rounds[b], n, s'.rounds[n])
  {
    assert RoundInv(c, s.now, n, s.rounds[n]) && RoundInv(c, s.now, b, s.rounds[b]);
    assert PairInv(c, s.now, s.net, n, s.rounds[n], b, s.rounds[b]);
    assert PairInv(c, s.now, s.net, b, s.rounds[b], n, s.rounds[n]);
    assert Packet(b, ClaimMsg(ClaimOf(c, n, s.now)), s.now) in s'.net;
  }

  lemma ReserveKeepsInv(c: Config, s: State, n: NodeId, free: bool)
    requires Timely(c) && Inv(c, s) && Enabled(c, s, Reserve(n, free))
    ensures Inv(c, Apply(c, s, Reserve(n, free)))
  {
    var s' := Apply(c, s, Reserve(n, free));
    assert RoundInv(c, s.now, n, s.rounds[n]);
    if !free {
      StoppingKeepsInv(c, s, s', n);
    } else {
      if !s.overflowed {
        forall b | b in c.nodes && b != n
          ensures PairInv(c, s.now, s'.net, n, s'.rounds[n], b, s.rounds[b])
          ensures PairInv(c, s.now, s'.net, b, s.rounds[b], n, s'.rounds[n])
        {
          StampKeepsPair(c, s, n, s', b);
        }
      }
      LocalStepKeepsInv(c, s, s', n);
    }
  }

  lemma PublishSucceedsKeepsInv(c: Config, s: State, n: NodeId, unsent: set<NodeId>)
    requires Timely(c) && Inv(c, s) && Enabled(c, s, PublishReturns(n, true, unsent))
    ensures Inv(c, Apply(c, s, PublishReturns(n, true, unsent)))
  {
    var s' := Apply(c, s, PublishReturns(n, true, unsent));
    var r := s.rounds[n];
    assert RoundInv(c, s.now, n, r);
    if !s.overflowed {
      forall b | b in c.nodes && b != n
        ensures PairInv(c, s.now, s'.net, n, s'.rounds[n], b, s.rounds[b])
        ensures PairInv(c, s.now, s'.net, b, s.rounds[b], n, s'.rounds[n])
      {
        assert PairInv(c, s.now, s.net, n, r, b, s.rounds[b]);
        assert PairInv(c, s.now, s.net, b, s.rounds[b], n, r);
      }
    }
    LocalStepKeepsInv(c, s, s', n);
  }

  /** The packets that a failed publish did not send carry the claim of `n` alone. */
  lemma UnsentAreOwn(c: Config, s: State, n: NodeId, unsent: set<NodeId>, p: Packet)
    requires Enabled(c, s, PublishReturns(n, false, unsent)) && p in s.net
    requires p.msg.ClaimMsg? && p.msg.claim.node != n
    ensures p in Apply(c, s, PublishReturns(n, false, unsent)).net
  {
  }

  lemma PublishFailsShape(c: Config, s: State, n: NodeId, unsent: set<NodeId>)
    requires Inv(c, s) && Enabled(c, s, PublishReturns(n, false, unsent))
    ensures var s' := Apply(c, s, PublishReturns(n, false, unsent));
            && s'.rounds == s.rounds[n := s.rounds[n].(phase := Failed)]
            && s'.now == s.now && s'.overflowed == s.overflowed
            && (forall p | p in s'.net && p !in s.net :: p.sentAt == s.now && p.dest in c.nodes)
  {
  }

  lemma PublishFailsKeepsPair(c: Config, s: State, n: NodeId, unsent: set<NodeId>, s': State, a: NodeId, b: NodeId)
    requires Inv(c, s) && Enabled(c, s, PublishReturns(n, false, unsent)) && !s.overflowed
    requires s' == Apply(c, s, PublishReturns(n, false, unsent)) && a in c.nodes && b in c.nodes && a != b && b != n
    requires a != n
    ensures PairInv(c, s.now, s'.net, a, s.rounds[a], b, s.rounds[b])
  {
    assert PairInv(c, s.now, s.net, a, s.rounds[a], b, s.rounds[b]);
    if Live(s.rounds[b].phase) {
      assert RoundInv(c, s.now, b, s.rounds[b]);
      var p := Packet(a, ClaimMsg(ClaimOf(c, b, s.rounds[b].stamp.value)), s.rounds[b].stamp.value);
      if p in s.net {
        UnsentAreOwn(c, s, n, unsent, p);
      }
    }
  }

  /** A failed publish may have reached any subset of the nodes; its sender is out of the race. */
  lemma PublishFailsKeepsInv(c: Config, s: State, n: NodeId, unsent: set<NodeId>)
    requires Timely(c) && Inv(c, s) && Enabled(c, s, PublishReturns(n, false, unsent))
    ensures Inv(c, Apply(c, s, PublishReturns(n, false, unsent)))
  {
    var s' := Apply(c, s, PublishReturns(n, false, unsent));
    PublishFailsShape(c, s, n, unsent);
    if !s.overflowed {
      forall a, b | a in c.nodes && b in c.nodes && a != b && a != n && b != n
        ensures PairInv(c, s.now, s'.net, a, s.rounds[a], b, s.rounds[b])
      {
        PublishFailsKeepsPair(c, s, n, unsent, s', a, b);
      }
    }
    FailedRoundKeepsInv(c, s, s', n);
  }

  /** A failed round satisfies every condition, whatever becomes of the packets addressed to it. */
  lemma FailedRoundKeepsInv(c: Config, s: State, s': State, n: NodeId)
    requires Inv(c, s) && n in c.nodes && s'.rounds == s.rounds[n := s.rounds[n].(phase := Failed)]
    requires s'.now == s.now && s'.overflowed == s.overflowed && 0 <= c.delay
    requires forall p | p in s'.net && p !in s.net :: p.sentAt == s.now && p.dest in c.nodes
    requires !s.overflowed ==> forall a, b | a in c.nodes && b in c.nodes && a != b && a != n && b != n ::
      PairInv(c, s.now, s'.net, a, s.rounds[a], b, s.rounds[b])
    ensures Inv(c, s')
  {
    assert RoundInv(c, s.now, n, s.rounds[n]);
    if !s.overflowed {
      forall b | b in c.nodes && b != n
        ensures PairInv(c, s.now, s'.net, n, s'.rounds[n], b, s.rounds[b])
      {
        assert PairInv(c, s.now, s.net, n, s.rounds[n], b, s.rounds[b]);
      }
    }
  }

  lemma WindowClosesKeepsInv(c: Config, s: State, n: NodeId)
    requires Timely(c) && Inv(c, s) && Enabled(c, s, WindowCloses(n))
    ensures Inv(c, Apply(c, s, WindowCloses(n)))
  {
    assert RoundInv(c, s.now, n, s.rounds[n]);
    WinningKeepsInv(c, s, Apply(c, s, WindowCloses(n)), n);
  }

  lemma FailingKeepsInv(c: Config, s: State, step: Step, n: NodeId)
    requires Timely(c) && Inv(c, s) && Enabled(c, s, step)
    requires step == HearFailure(n) || step == Deadline(n) || step == Cancel(n)
    ensures Inv(c, Apply(c, s, step))
  {
    assert RoundInv(c, s.now, n, s.rounds[n]);
    StoppingKeepsInv(c, s, Apply(c, s, step), n);
  }

  lemma StepKeepsInv(c: Config, s: State, step: Step)
    requires Timely(c) && Inv(c, s) && Enabled(c, s, step)
    ensures Inv(c, Apply(c, s, step))
  {
    match step
    case Tick(to) => TickKeepsInv(c, s, to);
    case Deliver(p) => DeliverKeepsInv(c, s, p);
    case Sweep(n) => SweepKeepsInv(c, s, n);
    case Start(n, busy) => StartKeepsInv(c, s, n, busy);
    case HearClaim(n) => HearKeepsInv(c, s, n);
    case PublishTimer(n) => PublishTimerKeepsInv(c, s, n);
    case Reserve(n, free) => ReserveKeepsInv(c, s, n, free);
    case PublishReturns(n, ok, unsent) =>
      if ok {
        PublishSucceedsKeepsInv(c, s, n, unsent);
      } else {
        PublishFailsKeepsInv(c, s, n, unsent);
      }
    case WindowCloses(n) => WindowClosesKeepsInv(c, s, n);
    case HearFailure(n) => FailingKeepsInv(c, s, step, n);
    case Deadline(n) => FailingKeepsInv(c, s, step, n);
    case Cancel(n) => FailingKeepsInv(c, s, step, n);
  }

  lemma {:induction false} RunKeepsInv(c: Config, t0: int, steps: seq<Step>)
    requires Timely(c) && (forall n | n in c.nodes :: t0 <= c.start(n))
    ensures After(c, t0, steps).Some? ==> Inv(c, After(c, t0, steps).value)
  {
    if steps != [] && After(c, t0, steps).Some? {
      var before := steps[..|steps| - 1];
      RunKeepsInv(c, t0, before);
      StepKeepsInv(c, After(c, t0, before).value, steps[|steps| - 1]);
    }
  }

  // ----- the theorem

  /** Two different winners judged each other's claims and both stood their ground. */
  lemma WinnersStandOff(c: Config, s: State, a: NodeId, b: NodeId)
    requires Timely(c) && Inv(c, s) && !s.overflowed && a != b
    requires a in c.nodes && b in c.nodes && s.rounds[a].phase == Won && s.rounds[b].phase == Won
    ensures s.rounds[a].stamp.Some? && s.rounds[b].stamp.Some?
    ensures Standoff(a, c.decision(a), s.rounds[a].stamp.value, b, c.decision(b), s.rounds[b].stamp.value)
  {
    assert PairInv(c, s.now, s.net, a, s.rounds[a], b, s.rounds[b]);
    assert PairInv(c, s.now, s.net, b, s.rounds[b], a, s.rounds[a]);
    assert RoundInv(c, s.now, a, s.rounds[a]) && RoundInv(c, s.now, b, s.rounds[b]);
  }

  /** The two nodes are eligible with the same score, so only time and node ID can decide between them. */
  predicate Tied(c: Config, a: NodeId, b: NodeId) {
    a != b && c.decision(a).eligible && c.decision(b).eligible && c.decision(a).score == c.decision(b).score
  }

  /** The claim of `n`, if it has one, is stamped no later than planned, to the microsecond. */
  predicate OnTime(c: Config, n: NodeId, r: Round) {
    r.stamp.Some? ==> Micros(r.stamp.value) <= Micros(c.decision(n).publishAt)
  }

  /** Publishers of equal score stamp their claims no later than planned. */
  ghost predicate TiesOnTime(c: Config, rounds: map<NodeId, Round>) {
    forall a, b | a in c.nodes && b in c.nodes && a in rounds && b in rounds && Tied(c, a, b) ::
      OnTime(c, a, rounds[a]) && OnTime(c, b, rounds[b])
  }

  /** In every run with bounded delays and no full channel, in which publishers of equal score stamp no later than
      planned, at most one node reports Won. */
  lemma SingleWinner(c: Config, t0: int, steps: seq<Step>, a: NodeId, b: NodeId)
    requires Timely(c) && (forall n | n in c.nodes :: t0 <= c.start(n))
    requires After(c, t0, steps).Some? && !After(c, t0, steps).value.overflowed
    requires TiesOnTime(c, After(c, t0, steps).value.rounds)
    requires a in c.nodes && b in c.nodes
    ensures var rounds := After(c, t0, steps).value.rounds;
            a in rounds && b in rounds && (rounds[a].phase == Won && rounds[b].phase == Won ==> a == b)
  {
    RunKeepsInv(c, t0, steps);
    var s := After(c, t0, steps).value;
    if s.rounds[a].phase == Won && s.rounds[b].phase == Won && a != b {
      WinnersStandOff(c, s, a, b);
      assert RoundInv(c, s.now, a, s.rounds[a]) && RoundInv(c, s.now, b, s.rounds[b]);
      assert c.decision(a).score == c.decision(b).score ==> Tied(c, a, b);
      OnTimeStampsResolve(a, c.decision(a), s.rounds[a].stamp.value, b, c.decision(b), s.rounds[b].stamp.value);
    }
  }

  // ----- ties judged from the plans

  /** Equal-scored candidates plan to publish no earlier than they start, as the delay strategy does. */
  ghost predicate TiesPunctual(c: Config) {
    forall a, b | a in c.nodes && b in c.nodes && Tied(c, a, b) ::
      c.start(a) <= c.decision(a).publishAt && c.start(b) <= c.decision(b).publishAt
  }

  /** The plan of `a` precedes that of `b` by more than a claim can be late, to the microsecond. */
  predicate WellBefore(c: Config, a: NodeId, b: NodeId) {
    Micros(c.decision(a).publishAt + c.lateness) < Micros(c.decision(b).publishAt)
  }

  /** Any two plans of equal score are further apart than a claim can be late. */
  ghost predicate TiesSpaced(c: Config) {
    forall a, b | a in c.nodes && b in c.nodes && Tied(c, a, b) :: WellBefore(c, a, b) || WellBefore(c, b, a)
  }

  lemma MicrosMonotone(x: int, y: int)
    requires x <= y
    ensures Micros(x) <= Micros(y)
  {
  }

  /** Without lateness, punctual plans make stamps that are on time. */
  lemma PunctualIsOnTime(c: Config, s: State)
    requires TiesPunctual(c) && c.lateness == 0 && Inv(c, s)
    ensures TiesOnTime(c, s.rounds)
  {
    forall a, b | a in c.nodes && b in c.nodes && Tied(c, a, b)
      ensures OnTime(c, a, s.rounds[a]) && OnTime(c, b, s.rounds[b])
    {
      assert RoundInv(c, s.now, a, s.rounds[a]) && RoundInv(c, s.now, b, s.rounds[b]);
    }
  }

  /** A claim whose plan is well before the rival's plan is better even when it is late. */
  lemma SpacedPlansResolve(c: Config, now: int, a: NodeId, ra: Round, b: NodeId, tb: int)
    requires RoundInv(c, now, a, ra) && ra.stamp.Some? && c.start(a) <= c.decision(a).publishAt
    requires Tied(c, a, b) && WellBefore(c, a, b)
    ensures !Standoff(a, c.decision(a), ra.stamp.value, b, c.decision(b), tb)
  {
    MicrosMonotone(ra.stamp.value, c.decision(a).publishAt + c.lateness);
  }

  lemma SpacedWinnersAreOne(c: Config, s: State, a: NodeId, b: NodeId)
    requires Timely(c) && Inv(c, s) && !s.overflowed && TiesPunctual(c) && TiesSpaced(c)
    requires a in c.nodes && b in c.nodes && s.rounds[a].phase == Won && s.rounds[b].phase == Won
    ensures a == b
  {
    if a != b {
      WinnersStandOff(c, s, a, b);
      assert RoundInv(c, s.now, a, s.rounds[a]) && RoundInv(c, s.now, b, s.rounds[b]);
      SpacedOrUnequal(c, s.now, a, s.rounds[a], b, s.rounds[b]);
    }
  }

  lemma SpacedOrUnequal(c: Config, now: int, a: NodeId, ra: Round, b: NodeId, rb: Round)
    requires RoundInv(c, now, a, ra) && RoundInv(c, now, b, rb) && ra.phase == Won && rb.phase == Won
    requires TiesPunctual(c) && TiesSpaced(c) && a in c.nodes && b in c.nodes && a != b
    ensures !Standoff(a, c.decision(a), ra.stamp.value, b, c.decision(b), rb.stamp.value)
  {
    if c.decision(a).score == c.decision(b).score {
      assert Tied(c, a, b) && Tied(c, b, a);
      if WellBefore(c, a, b) {
        SpacedPlansResolve(c, now, a, ra, b, rb.stamp.value);
      } else {
        SpacedPlansResolve(c, now, b, rb, a, ra.stamp.value);
      }
    } else {
      OnTimeStampsResolve(a, c.decision(a), ra.stamp.value, b, c.decision(b), rb.stamp.value);
    }
  }

  /** Late stamps do no harm while equal-scored plans are further apart than the lateness. */
  lemma SpacedTiesAreSafe(c: Config, t0: int, steps: seq<Step>, a: NodeId, b: NodeId)
    requires Timely(c) && TiesPunctual(c) && TiesSpaced(c) && (forall n | n in c.nodes :: t0 <= c.start(n))
    requires After(c, t0, steps).Some? && !After(c, t0, steps).value.overflowed
    requires a in c.nodes && b in c.nodes
    ensures var rounds := After(c, t0, steps).value.rounds;
            a in rounds && b in rounds && (rounds[a].phase == Won && rounds[b].phase == Won ==> a == b)
  {
    RunKeepsInv(c, t0, steps);
    var s := After(c, t0, steps).value;
    if s.rounds[a].phase == Won && s.rounds[b].phase == Won {
      SpacedWinnersAreOne(c, s, a, b);
    }
  }
}
