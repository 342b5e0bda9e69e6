/**
  What a round does with the messages it is sent: claims are read in the order in which they were queued, the first
  claim ends the wait, and a failure anywhere ends every round that is still waiting for a verdict.
 */
module ElectionGossip {
  import opened Options
  import opened Claims
  import opened ElectionProtocol
  import opened TopicBuffer
  import opened ElectionSafety
  import opened ElectionOutcome
  import opened ElectionHistory

  // ----- claims are read in order

  /** The claims that `n` has read. */
  ghost function Heard(c: Config, t0: int, steps: seq<Step>, n: NodeId): seq<Claim> {
    if steps == [] then []
    else
      var before, last := steps[..|steps| - 1], steps[|steps| - 1];
      var s := After(c, t0, before);
      Heard(c, t0, before, n)
      + if last == HearClaim(n) && s.Some? && Enabled(c, s.value, last) then [s.value.rounds[n].claims[0]] else []
  }

  /** What the step puts into the queue of `n`: as many buffered claims as fit, or a fresh claim that finds room. */
  ghost function Enters(c: Config, s: State, step: Step, n: NodeId): seq<Claim>
    requires n in s.rounds
  {
    var r := s.rounds[n];
    if step.Start? && step.n == n then
      ClaimsIn(r.buffer)[..if |ClaimsIn(r.buffer)| <= c.capacity then |ClaimsIn(r.buffer)| else c.capacity]
    else if step.Deliver? && step.packet.dest == n && step.packet.msg.ClaimMsg? && Listening(r.phase)
            && s.now <= step.packet.sentAt + STALE_AGE && |r.claims| < c.capacity then [step.packet.msg.claim]
    else []
  }

  /** The claims that entered the queue of `n`. */
  ghost function Entered(c: Config, t0: int, steps: seq<Step>, n: NodeId): seq<Claim> {
    if steps == [] then []
    else
      var before, last := steps[..|steps| - 1], steps[|steps| - 1];
      var s := After(c, t0, before);
      Entered(c, t0, before, n)
      + if s.Some? && n in s.value.rounds && Enabled(c, s.value, last) then Enters(c, s.value, last, n) else []
  }

  lemma QueueStep(c: Config, s: State, step: Step, n: NodeId)
    requires Enabled(c, s, step) && n in s.rounds && (s.rounds[n].phase.NotStarted? ==> s.rounds[n].claims == [])
    ensures n in Apply(c, s, step).rounds
    ensures var r, r' := s.rounds[n], Apply(c, s, step).rounds[n];
            && (r'.phase.NotStarted? ==> r'.claims == [])
            && (if step == HearClaim(n) then [r.claims[0]] else []) + r'.claims == r.claims + Enters(c, s, step, n)
  {
    match step
    case Deliver(p) => DeliverQueues(c, s, p, n);
    case Sweep(_) =>
    case Start(_, _) =>
    case _ => QuietStep(c, s, step, n);
  }

  lemma DeliverQueues(c: Config, s: State, p: Packet, n: NodeId)
    requires Enabled(c, s, Deliver(p)) && n in s.rounds
    ensures n in Apply(c, s, Deliver(p)).rounds
    ensures var r' := Apply(c, s, Deliver(p)).rounds[n];
            r'.phase == s.rounds[n].phase && r'.claims == s.rounds[n].claims + Enters(c, s, Deliver(p), n)
  {
    ReceiveFrame(c, s.rounds[p.dest], p.msg, s.now);
  }

  /** In every run, what a round has read and what is still queued are together what entered its queue, in order: claims
      are read first in, first out. */
  lemma {:induction false} HeardInOrder(c: Config, t0: int, steps: seq<Step>, n: NodeId)
    requires n in c.nodes && After(c, t0, steps).Some?
    ensures n in After(c, t0, steps).value.rounds
    ensures var r := After(c, t0, steps).value.rounds[n];
            && Heard(c, t0, steps, n) + r.claims == Entered(c, t0, steps, n) && (r.phase.NotStarted? ==> r.claims == [])
  {
    if steps != [] {
      var s := LastStep(c, t0, steps);
      var before, last := steps[..|steps| - 1], steps[|steps| - 1];
      HeardInOrder(c, t0, before, n);
      QueueStep(c, s, last, n);
      var read := if last == HearClaim(n) then [s.rounds[n].claims[0]] else [];
      Regroup(Heard(c, t0, before, n), read, After(c, t0, steps).value.rounds[n].claims,
              Entered(c, t0, before, n), s.rounds[n].claims, Enters(c, s, last, n));
    }
  }

  lemma Regroup(heard: seq<Claim>, read: seq<Claim>, left: seq<Claim>,
                entered: seq<Claim>, queue: seq<Claim>, more: seq<Claim>)
    requires heard + queue == entered && read + left == queue + more
    ensures (heard + read) + left == entered + more
  {
    assert (heard + read) + left == heard + (read + left);
    assert heard + (queue + more) == (heard + queue) + more;
  }

  ghost predicate InArrivalOrder(buffer: seq<Buffered<Message>>, now: int) {
    && (forall i | 0 <= i < |buffer| :: buffer[i].receivedAt <= now)
    && (forall i, j | 0 <= i < j < |buffer| :: buffer[i].receivedAt <= buffer[j].receivedAt)
  }

  lemma KeptInOrder(buffer: seq<Buffered<Message>>, cutoff: int, now: int)
    requires InArrivalOrder(buffer, now)
    ensures InArrivalOrder(Kept(buffer, cutoff), now)
  {
    var at := SweepIsStableFilter(buffer, cutoff);
    var kept := Kept(buffer, cutoff);
    forall i, j | 0 <= i < j < |kept| ensures kept[i].receivedAt <= kept[j].receivedAt {
      assert at[i] < at[j];
    }
  }

  /** In every run, messages wait for the listener in the order in which they arrived. */
  lemma {:induction false} BufferedInOrder(c: Config, t0: int, steps: seq<Step>, n: NodeId)
    requires n in c.nodes && After(c, t0, steps).Some?
    ensures var s := After(c, t0, steps).value; n in s.rounds && InArrivalOrder(s.rounds[n].buffer, s.now)
  {
    if steps != [] {
      var s := LastStep(c, t0, steps);
      BufferedInOrder(c, t0, steps[..|steps| - 1], n);
      StepKeepsOrder(c, s, steps[|steps| - 1], n);
    }
  }

  lemma StepKeepsOrder(c: Config, s: State, step: Step, n: NodeId)
    requires Enabled(c, s, step) && n in s.rounds && InArrivalOrder(s.rounds[n].buffer, s.now)
    ensures n in Apply(c, s, step).rounds
    ensures InArrivalOrder(Apply(c, s, step).rounds[n].buffer, Apply(c, s, step).now)
  {
    match step
    case Sweep(k) => if k == n { KeptInOrder(s.rounds[n].buffer, s.now - c.ttl, s.now); }
    case Deliver(p) => ReceiveBuffer(c, s.rounds[p.dest], p.msg, s.now);
    case Start(_, _) =>
    case _ => QuietStep(c, s, step, n);
  }

  lemma ReceiveBuffer(c: Config, r: Round, msg: Message, now: int)
    ensures Receive(c, r, msg, now).buffer == r.buffer + if Listening(r.phase) then [] else [Buffered(now, msg)]
  {
  }

  // ----- the first claim ends the wait

  /** A round that read a rival's claim at `t` while it was waiting. */
  ghost predicate Hastened(c: Config, s: State, n: NodeId, t: int) {
    && n in s.rounds && !s.rounds[n].phase.NotStarted? && !s.rounds[n].phase.Waiting?
    && (s.rounds[n].phase.Ready? ==> s.rounds[n].phase.since == t && s.now <= t + c.lateness)
    && (s.rounds[n].stamp.Some? ==> s.rounds[n].stamp.value <= t + c.lateness)
  }

  lemma StepHastens(c: Config, s: State, step: Step, n: NodeId, t: int)
    requires Enabled(c, s, step) && Hastened(c, s, n, t)
    ensures Hastened(c, Apply(c, s, step), n, t)
  {
    if step.Deliver? {
      ReceiveFrame(c, s.rounds[step.packet.dest], step.packet.msg, s.now);
    } else if step.Tick? {
      assert MayIdle(c, n, s.rounds[n], step.to);
    }
  }

  /** In every run, a round that reads a claim while it waits does not go on waiting: it loses, or it publishes at once,
      within the lateness, however far away its planned time. */
  lemma {:induction false} FirstClaimEndsWait(c: Config, t0: int, steps: seq<Step>, n: NodeId, i: nat, s: State)
    requires n in c.nodes && After(c, t0, steps).Some? && 0 <= c.lateness
    requires Passes(c, t0, steps, i, s) && steps[i] == HearClaim(n) && s.rounds[n].phase.Waiting?
    ensures Hastened(c, After(c, t0, steps).value, n, s.now)
  {
    var now := LastStep(c, t0, steps);
    if i == |steps| - 1 {
      RunStaysAside(c, t0, steps[..i], n);
    } else {
      assert steps[..|steps| - 1][..i] == steps[..i];
      FirstClaimEndsWait(c, t0, steps[..|steps| - 1], n, i, s);
      StepHastens(c, now, steps[|steps| - 1], n, s.now);
    }
  }

  // ----- failures spread

  ghost predicate FailureIn(buffer: seq<Buffered<Message>>, n: NodeId, since: int) {
    exists i :: 0 <= i < |buffer| && buffer[i].msg == FailedMsg(n) && buffer[i].receivedAt >= since
  }

  /** The failure that `n` reported at `t` is on its way to `d`, waits there, or no longer matters there. */
  ghost predicate Told(s: State, n: NodeId, d: NodeId, t: int) {
    && d in s.rounds
    && var r := s.rounds[d];
       || Packet(d, FailedMsg(n), t) in s.net
       || (r.phase.NotStarted? && FailureIn(r.buffer, n, t))
       || (Listening(r.phase) && r.failures > 0)
       || IsDone(r.phase)
  }

  /** Messages are not stale when they arrive, channels hold something, and no start is later by the buffer's time to
      live. */
  ghost predicate Spreads(c: Config) {
    && 0 <= c.delay <= STALE_AGE && 0 < c.capacity
    && forall a, b | a in c.nodes && b in c.nodes :: Skew(c, a, b) < c.ttl
  }

  ghost predicate Prompt(c: Config, s: State) { forall p | p in s.net :: p.sentAt <= s.now <= p.sentAt + c.delay }

  lemma {:induction false} FailureReplayed(buffer: seq<Buffered<Message>>, n: NodeId, since: int)
    requires FailureIn(buffer, n, since)
    ensures FailuresIn(buffer) > 0
  {
    var i :| 0 <= i < |buffer| && buffer[i].msg == FailedMsg(n) && buffer[i].receivedAt >= since;
    if i > 0 {
      assert buffer[1..][i - 1] == buffer[i];
      FailureReplayed(buffer[1..], n, since);
    }
  }

  lemma {:induction false} SweepKeepsFailure(buffer: seq<Buffered<Message>>, n: NodeId, since: int, cutoff: int)
    requires FailureIn(buffer, n, since) && cutoff < since
    ensures FailureIn(Kept(buffer, cutoff), n, since)
  {
    var i :| 0 <= i < |buffer| && buffer[i].msg == FailedMsg(n) && buffer[i].receivedAt >= since;
    var rest := Kept(buffer[1..], cutoff);
    if i == 0 {
      assert Kept(buffer, cutoff)[0] == buffer[0];
    } else {
      assert buffer[1..][i - 1] == buffer[i];
      SweepKeepsFailure(buffer[1..], n, since, cutoff);
      var j :| 0 <= j < |rest| && rest[j].msg == FailedMsg(n) && rest[j].receivedAt >= since;
      var k := |Kept(buffer, cutoff)| - |rest| + j;
      assert Kept(buffer, cutoff)[k] == rest[j];
    }
  }

  lemma DeliverTells(c: Config, s: State, p: Packet, n: NodeId, d: NodeId, t: int)
    requires Spreads(c) && Prompt(c, s) && Enabled(c, s, Deliver(p)) && Told(s, n, d, t)
    ensures Told(Apply(c, s, Deliver(p)), n, d, t)
  {
    var r, r' := s.rounds[d], Apply(c, s, Deliver(p)).rounds[d];
    if p.dest == d {
      ReceiveFrame(c, r, p.msg, s.now);
      if r.phase.NotStarted? {
        assert r'.buffer == r.buffer + [Buffered(s.now, p.msg)];
        if FailureIn(r.buffer, n, t) {
          var i :| 0 <= i < |r.buffer| && r.buffer[i].msg == FailedMsg(n) && r.buffer[i].receivedAt >= t;
          assert r'.buffer[i] == r.buffer[i];
        } else if p == Packet(d, FailedMsg(n), t) {
          assert r'.buffer[|r.buffer|].msg == FailedMsg(n);
        }
      }
    }
  }

  lemma StepTells(c: Config, s: State, step: Step, n: NodeId, d: NodeId, t: int)
    requires Spreads(c) && Prompt(c, s) && RoundsInv(c, s) && Enabled(c, s, step) && Told(s, n, d, t)
    requires n in c.nodes && d in c.nodes && c.start(n) <= t
    ensures Told(Apply(c, s, step), n, d, t)
  {
    var r := s.rounds[d];
    assert RoundInv(c, s.now, d, r);
    match step
    case Deliver(p) => DeliverTells(c, s, p, n, d, t);
    case Sweep(k) =>
      if k == d && r.phase.NotStarted? && FailureIn(r.buffer, n, t) {
        assert Skew(c, n, d) < c.ttl;
        SweepKeepsFailure(r.buffer, n, t, s.now - c.ttl);
      }
    case Start(k, busy) => StartTells(c, s, k, busy, n, d, t);
    case _ => QuietStep(c, s, step, d);
  }

  lemma StartTells(c: Config, s: State, k: NodeId, busy: bool, n: NodeId, d: NodeId, t: int)
    requires Spreads(c) && Enabled(c, s, Start(k, busy)) && Told(s, n, d, t)
    ensures Told(Apply(c, s, Start(k, busy)), n, d, t)
  {
    if k == d && FailureIn(s.rounds[d].buffer, n, t) {
      FailureReplayed(s.rounds[d].buffer, n, t);
    }
  }

  /** Steps that deliver, sweep and start nothing leave what waits at `d` alone. */
  lemma QuietStep(c: Config, s: State, step: Step, d: NodeId)
    requires Enabled(c, s, step) && d in s.rounds && !step.Deliver? && !step.Sweep? && !step.Start?
    ensures d in Apply(c, s, step).rounds
    ensures forall p | p in s.net && p.msg.FailedMsg? :: p in Apply(c, s, step).net
    ensures var r, r' := s.rounds[d], Apply(c, s, step).rounds[d];
            && r'.buffer == r.buffer && r'.failures == r.failures
            && r'.claims == (if step == HearClaim(d) then r.claims[1..] else r.claims)
            && (r.phase.NotStarted? <==> r'.phase.NotStarted?)
            && (Listening(r.phase) ==> Listening(r'.phase) || IsDone(r'.phase)) && (IsDone(r.phase) ==> IsDone(r'.phase))
  {
  }

  lemma StepStaysPrompt(c: Config, s: State, step: Step)
    requires 0 <= c.delay && Prompt(c, s) && Enabled(c, s, step)
    ensures Prompt(c, Apply(c, s, step))
  {
  }

  lemma {:induction false} RunStaysPrompt(c: Config, t0: int, steps: seq<Step>)
    requires 0 <= c.delay && After(c, t0, steps).Some?
    ensures Prompt(c, After(c, t0, steps).value)
  {
    if steps != [] {
      var s := LastStep(c, t0, steps);
      RunStaysPrompt(c, t0, steps[..|steps| - 1]);
      StepStaysPrompt(c, s, steps[|steps| - 1]);
    }
  }

  /** A round that fails tells every other node. */
  lemma FailingTells(c: Config, s: State, step: Step, n: NodeId, d: NodeId)
    requires RoundsInv(c, s) && Enabled(c, s, step) && n in c.nodes && d in c.nodes && n != d
    requires !IsDone(s.rounds[n].phase) && FailsBy(c, s, step, n)
    ensures Told(Apply(c, s, step), n, d, s.now) && c.start(n) <= s.now
  {
    assert RoundInv(c, s.now, n, s.rounds[n]);
    assert Packet(d, FailedMsg(n), s.now) in Broadcast(c, n, FailedMsg(n), s.now);
  }

  lemma {:induction false} FailureIsTold(c: Config, t0: int, steps: seq<Step>, n: NodeId, d: NodeId, i: nat, s: State)
    requires Spreads(c) && Sane(c) && (forall k | k in c.nodes :: t0 <= c.start(k)) && n in c.nodes && d in c.nodes && n != d
    requires After(c, t0, steps).Some? && Decided(c, t0, steps, n, i, s, Failed)
    ensures Told(After(c, t0, steps).value, n, d, s.now) && c.start(n) <= s.now
  {
    var now := LastStep(c, t0, steps);
    RunKeepsRounds(c, t0, steps[..|steps| - 1]);
    RunStaysPrompt(c, t0, steps[..|steps| - 1]);
    if i == |steps| - 1 {
      FailingTells(c, s, steps[i], n, d);
    } else {
      assert steps[..|steps| - 1][..i] == steps[..i];
      FailureIsTold(c, t0, steps[..|steps| - 1], n, d, i, s);
      StepTells(c, now, steps[|steps| - 1], n, d, s.now);
    }
  }

  /** In every run, once a node has failed and the delay has passed, no other node goes on waiting: a round that is still
      waiting for its timer or for a remote verdict reads the failure before the clock moves on. */
  lemma FailureEndsWaiting(c: Config, t0: int, steps: seq<Step>, n: NodeId, d: NodeId, i: nat, s: State, to: int)
    requires Spreads(c) && Sane(c) && (forall k | k in c.nodes :: t0 <= c.start(k)) && n in c.nodes && d in c.nodes && n != d
    requires After(c, t0, steps).Some? && Decided(c, t0, steps, n, i, s, Failed)
    requires var f := After(c, t0, steps).value;
             && f.now > s.now + c.delay && f.now > c.start(d)
             && d in f.rounds && (f.rounds[d].phase.Waiting? || f.rounds[d].phase.RemoteWait?)
    ensures var f := After(c, t0, steps).value; Enabled(c, f, HearFailure(d)) && !Enabled(c, f, Tick(to))
  {
    FailureIsTold(c, t0, steps, n, d, i, s);
    RunStaysPrompt(c, t0, steps);
    var f := After(c, t0, steps).value;
    assert Packet(d, FailedMsg(n), s.now) !in f.net;
    assert f.rounds[d].failures > 0;
    assert !MayIdle(c, d, f.rounds[d], to);
  }
}
