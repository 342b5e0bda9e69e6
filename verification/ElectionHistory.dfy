/**
  How each verdict comes about: what a run must have done before a node wins, loses or fails, and what a node that
  steps aside never does.
 */
module ElectionHistory {
  import opened Options
  import opened Claims
  import opened ElectionProtocol
  import opened TopicBuffer
  import opened ElectionSafety
  import opened ElectionTraffic

  /** The run reaches `s` and then takes its step number `i`. */
  ghost predicate Passes(c: Config, t0: int, steps: seq<Step>, i: nat, s: State) {
    i < |steps| && After(c, t0, steps[..i]) == Some(s) && Enabled(c, s, steps[i])
  }

  /** The state before the last step of a run. */
  lemma LastStep(c: Config, t0: int, steps: seq<Step>) returns (s: State)
    requires steps != [] && After(c, t0, steps).Some?
    ensures After(c, t0, steps[..|steps| - 1]) == Some(s) && Passes(c, t0, steps, |steps| - 1, s)
    ensures After(c, t0, steps).value == Apply(c, s, steps[|steps| - 1])
  {
    s := After(c, t0, steps[..|steps| - 1]).value;
  }

  lemma PassedBefore(c: Config, t0: int, steps: seq<Step>, i: nat, s: State)
    requires steps != [] && Passes(c, t0, steps[..|steps| - 1], i, s)
    ensures Passes(c, t0, steps, i, s) && steps[i] == steps[..|steps| - 1][i]
  {
    assert steps[..|steps| - 1][..i] == steps[..i];
  }

  // ----- stepping aside

  /** The node is not eligible, had already claimed a replica of the capsule when it decided, or found the local claim slot
      taken when it was about to publish. */
  ghost predicate Aside(c: Config, steps: seq<Step>, n: NodeId) {
    !c.decision(n).eligible || Start(n, true) in steps || Reserve(n, false) in steps
  }

  /** Neither about to publish nor having published. */
  ghost predicate Silent(r: Round) {
    r.stamp == None && !r.phase.Waiting? && !r.phase.Ready? && !Live(r.phase)
  }

  ghost predicate StaysAside(c: Config, steps: seq<Step>, s: State, n: NodeId) {
    && n in s.rounds
    && (Fresh(s.rounds[n].phase) ==> s.rounds[n].stamp == None)
    && (Start(n, true) in steps || Reserve(n, false) in steps ==> !s.rounds[n].phase.NotStarted?)
    && (Aside(c, steps, n) ==> Silent(s.rounds[n]))
    && (s.rounds[n].phase.RemoteWait? ==> Aside(c, steps, n))
  }

  lemma StepStaysAside(c: Config, steps: seq<Step>, s: State, step: Step, n: NodeId)
    requires StaysAside(c, steps, s, n) && Enabled(c, s, step)
    ensures StaysAside(c, steps + [step], Apply(c, s, step), n)
  {
    assert forall x :: x in steps + [step] <==> x in steps || x == step;
    if step.Deliver? {
      ReceiveFrame(c, s.rounds[step.packet.dest], step.packet.msg, s.now);
      assert Apply(c, s, step).rounds[n].phase == s.rounds[n].phase;
    }
  }

  lemma {:induction false} RunStaysAside(c: Config, t0: int, steps: seq<Step>, n: NodeId)
    requires n in c.nodes && After(c, t0, steps).Some?
    ensures StaysAside(c, steps, After(c, t0, steps).value, n)
  {
    if steps != [] {
      var s := LastStep(c, t0, steps);
      var before, last := steps[..|steps| - 1], steps[|steps| - 1];
      RunStaysAside(c, t0, before, n);
      StepStaysAside(c, before, s, last, n);
      assert before + [last] == steps;
    }
  }

  /** A claim of `n` that is on its way, queued or buffered anywhere. */
  ghost predicate ClaimAround(s: State, n: NodeId) {
    || (exists p :: p in s.net && p.msg.ClaimMsg? && p.msg.claim.node == n)
    || (exists d, m :: d in s.rounds && (m in s.rounds[d].claims || m in ClaimsIn(s.rounds[d].buffer)) && m.node == n)
  }

  /** In every run, a node that stepped aside never stamps a claim, never wins or is about to, and no claim of it is
      anywhere. */
  lemma SteppedAside(c: Config, t0: int, steps: seq<Step>, n: NodeId)
    requires n in c.nodes && After(c, t0, steps).Some? && Aside(c, steps, n)
    ensures var s := After(c, t0, steps).value;
            && n in s.rounds && s.rounds[n].stamp == None && !Live(s.rounds[n].phase)
            && !s.rounds[n].phase.Waiting? && !s.rounds[n].phase.Ready? && !ClaimAround(s, n)
  {
    RunStaysAside(c, t0, steps, n);
    RunKeepsTraffic(c, t0, steps);
    var s := After(c, t0, steps).value;
    forall p | p in s.net && p.msg.ClaimMsg? ensures p.msg.claim.node != n {
      assert PacketTraffic(c, s, p);
    }
    forall d, m | d in s.rounds && (m in s.rounds[d].claims || m in ClaimsIn(s.rounds[d].buffer)) ensures m.node != n {
      assert RoundTraffic(c, s, d, s.rounds[d]);
    }
  }

  // ----- the step that decides a round

  predicate WinsBy(c: Config, s: State, step: Step, n: NodeId)
    requires Enabled(c, s, step) && n in s.rounds
  {
    var r := s.rounds[n];
    match step
    case WindowCloses(k) => k == n
    case PublishReturns(k, ok, _) => k == n && ok && s.now >= r.phase.at + c.window
    case HearClaim(k) =>
      k == n && r.phase.Tiebreak? && s.now >= r.phase.at + c.window && !IsBetter(r.claims[0], c.decision(n), n)
    case _ => false
  }

  predicate LosesBy(c: Config, s: State, step: Step, n: NodeId, w: NodeId)
    requires Enabled(c, s, step) && n in s.rounds
  {
    var r := s.rounds[n];
    && step == HearClaim(n) && r.claims[0].node == w
    && (r.phase.RemoteWait? || IsBetter(r.claims[0], c.decision(n), n))
  }

  predicate FailsBy(c: Config, s: State, step: Step, n: NodeId)
    requires Enabled(c, s, step) && n in s.rounds
  {
    match step
    case HearFailure(k) => k == n
    case Deadline(k) => k == n
    case Cancel(k) => k == n
    case PublishReturns(k, ok, _) => k == n && !ok
    case Reserve(k, free) => k == n && !free && s.rounds[n].phase.deadline <= s.now
    case Start(k, busy) => k == n && c.timeout <= 0 && (busy || !c.decision(n).eligible)
    case _ => false
  }

  /** Exactly which steps decide a round, and how. */
  lemma StepDecides(c: Config, s: State, step: Step, n: NodeId, w: NodeId)
    requires Enabled(c, s, step) && n in s.rounds && !IsDone(s.rounds[n].phase)
    ensures n in Apply(c, s, step).rounds
    ensures var p := Apply(c, s, step).rounds[n].phase;
            && (p.Won? <==> WinsBy(c, s, step, n))
            && (p == Lost(w) <==> LosesBy(c, s, step, n, w))
            && (p.Failed? <==> FailsBy(c, s, step, n))
  {
    if step.Deliver? {
      ReceiveFrame(c, s.rounds[step.packet.dest], step.packet.msg, s.now);
    }
  }

  lemma StepKeepsDone(c: Config, s: State, step: Step, n: NodeId)
    requires Enabled(c, s, step) && n in s.rounds && IsDone(s.rounds[n].phase)
    ensures n in Apply(c, s, step).rounds && Apply(c, s, step).rounds[n].phase == s.rounds[n].phase
    ensures Apply(c, s, step).rounds[n].stamp == s.rounds[n].stamp
  {
    if step.Deliver? {
      ReceiveFrame(c, s.rounds[step.packet.dest], step.packet.msg, s.now);
    }
  }

  /** The verdict that step `i`, taken in state `s`, gave to `n`. */
  ghost predicate Decided(c: Config, t0: int, steps: seq<Step>, n: NodeId, i: nat, s: State, verdict: Phase) {
    && Passes(c, t0, steps, i, s) && n in s.rounds && !IsDone(s.rounds[n].phase)
    && match verdict
       case Won => WinsBy(c, s, steps[i], n)
       case Lost(w) => LosesBy(c, s, steps[i], n, w)
       case Failed => FailsBy(c, s, steps[i], n)
       case _ => false
  }

  lemma {:induction false} RoundsExist(c: Config, t0: int, steps: seq<Step>)
    requires After(c, t0, steps).Some?
    ensures After(c, t0, steps).value.rounds.Keys == c.nodes
  {
    RunKeepsTraffic(c, t0, steps);
  }

  /** In every run, every verdict was given by one step, for the reason that the code gives. */
  lemma {:induction false} VerdictHasCause(c: Config, t0: int, steps: seq<Step>, n: NodeId) returns (i: nat, s: State)
    requires n in c.nodes && After(c, t0, steps).Some?
    requires n in After(c, t0, steps).value.rounds && IsDone(After(c, t0, steps).value.rounds[n].phase)
    ensures Decided(c, t0, steps, n, i, s, After(c, t0, steps).value.rounds[n].phase)
  {
    var now := LastStep(c, t0, steps);
    RoundsExist(c, t0, steps[..|steps| - 1]);
    var last := steps[|steps| - 1];
    if IsDone(now.rounds[n].phase) {
      StepKeepsDone(c, now, last, n);
      i, s := VerdictHasCause(c, t0, steps[..|steps| - 1], n);
      PassedBefore(c, t0, steps, i, s);
    } else {
      var p := Apply(c, now, last).rounds[n].phase;
      StepDecides(c, now, last, n, if p.Lost? then p.winner else n);
      i, s := |steps| - 1, now;
    }
  }

  // ----- what a claim and a win need

  /** A round that may still publish has started without a claim of its own for the capsule. */
  lemma {:induction false} CandidateStarted(c: Config, t0: int, steps: seq<Step>, n: NodeId) returns (i: nat, s: State)
    requires n in c.nodes && After(c, t0, steps).Some? && n in After(c, t0, steps).value.rounds
    requires var p := After(c, t0, steps).value.rounds[n].phase; p.Waiting? || p.Ready?
    ensures Passes(c, t0, steps, i, s) && steps[i] == Start(n, false) && s.now == c.start(n) && c.decision(n).eligible
  {
    var now := LastStep(c, t0, steps);
    RoundsExist(c, t0, steps[..|steps| - 1]);
    if now.rounds[n].phase.Waiting? || now.rounds[n].phase.Ready? {
      i, s := CandidateStarted(c, t0, steps[..|steps| - 1], n);
      PassedBefore(c, t0, steps, i, s);
    } else {
      StepToCandidate(c, now, steps[|steps| - 1], n);
      i, s := |steps| - 1, now;
    }
  }

  lemma StepToCandidate(c: Config, s: State, step: Step, n: NodeId)
    requires Enabled(c, s, step) && n in s.rounds && !s.rounds[n].phase.Waiting? && !s.rounds[n].phase.Ready?
    ensures n in Apply(c, s, step).rounds
    ensures var p := Apply(c, s, step).rounds[n].phase;
            p.Waiting? || p.Ready? ==> step == Start(n, false) && s.now == c.start(n) && c.decision(n).eligible
  {
    if step.Deliver? {
      ReceiveFrame(c, s.rounds[step.packet.dest], step.packet.msg, s.now);
    }
  }

  lemma StepStamps(c: Config, s: State, step: Step, n: NodeId)
    requires Enabled(c, s, step) && n in s.rounds
    ensures n in Apply(c, s, step).rounds
    ensures var r, r' := s.rounds[n], Apply(c, s, step).rounds[n];
            r'.stamp == if step == Reserve(n, true) then Some(s.now) else r.stamp
  {
    if step.Deliver? {
      ReceiveFrame(c, s.rounds[step.packet.dest], step.packet.msg, s.now);
    }
  }

  /** In every run, a stamp is the time at which the node took its free local claim slot, having started and waited. */
  lemma {:induction false} StampHasReserve(c: Config, t0: int, steps: seq<Step>, n: NodeId)
    returns (a: nat, sa: State, b: nat, sb: State)
    requires n in c.nodes && After(c, t0, steps).Some? && n in After(c, t0, steps).value.rounds
    requires After(c, t0, steps).value.rounds[n].stamp.Some?
    ensures Passes(c, t0, steps, a, sa) && steps[a] == Start(n, false) && c.decision(n).eligible && a < b
    ensures Passes(c, t0, steps, b, sb) && steps[b] == Reserve(n, true)
    ensures After(c, t0, steps).value.rounds[n].stamp == Some(sb.now)
  {
    var now := LastStep(c, t0, steps);
    RoundsExist(c, t0, steps[..|steps| - 1]);
    StepStamps(c, now, steps[|steps| - 1], n);
    if steps[|steps| - 1] == Reserve(n, true) {
      a, sa := CandidateStarted(c, t0, steps[..|steps| - 1], n);
      PassedBefore(c, t0, steps, a, sa);
      b, sb := |steps| - 1, now;
    } else {
      a, sa, b, sb := StampHasReserve(c, t0, steps[..|steps| - 1], n);
      PassedBefore(c, t0, steps, a, sa);
      PassedBefore(c, t0, steps, b, sb);
    }
  }

  predicate Contends(p: Phase) { p.Tiebreak? || p.Won? }

  lemma StepToContention(c: Config, s: State, step: Step, n: NodeId)
    requires Enabled(c, s, step) && n in s.rounds && !Contends(s.rounds[n].phase)
    ensures n in Apply(c, s, step).rounds
    ensures Contends(Apply(c, s, step).rounds[n].phase) ==>
              step.PublishReturns? && step.n == n && step.ok && s.rounds[n].phase.Publishing?
  {
    if step.Deliver? {
      ReceiveFrame(c, s.rounds[step.packet.dest], step.packet.msg, s.now);
    }
  }

  /** In every run, a node in its tiebreak window, or past it, started while eligible and without a claim of its own, took
      the free slot and stamped its claim, and published it without error, in this order. */
  lemma {:induction false} ContenderPublished(c: Config, t0: int, steps: seq<Step>, n: NodeId)
    returns (a: nat, b: nat, d: nat)
    requires n in c.nodes && After(c, t0, steps).Some? && n in After(c, t0, steps).value.rounds
    requires Contends(After(c, t0, steps).value.rounds[n].phase)
    ensures c.decision(n).eligible && a < b < d < |steps| && steps[a] == Start(n, false) && steps[b] == Reserve(n, true)
    ensures steps[d].PublishReturns? && steps[d].n == n && steps[d].ok
  {
    var now := LastStep(c, t0, steps);
    RoundsExist(c, t0, steps[..|steps| - 1]);
    if Contends(now.rounds[n].phase) {
      a, b, d := ContenderPublished(c, t0, steps[..|steps| - 1], n);
    } else {
      StepToContention(c, now, steps[|steps| - 1], n);
      RunStamped(c, t0, steps[..|steps| - 1], n);
      var sa, sb;
      a, sa, b, sb := StampHasReserve(c, t0, steps[..|steps| - 1], n);
      d := |steps| - 1;
    }
  }

  /** A published claim carries the stamp of its round. */
  lemma {:induction false} RunStamped(c: Config, t0: int, steps: seq<Step>, n: NodeId)
    requires n in c.nodes && After(c, t0, steps).Some? && n in After(c, t0, steps).value.rounds
    ensures var r := After(c, t0, steps).value.rounds[n];
            && (r.phase.Publishing? || r.phase.Tiebreak? ==> r.stamp == Some(r.phase.at)) && (r.phase.Won? ==> r.stamp.Some?)
  {
    if steps != [] {
      var now := LastStep(c, t0, steps);
      RoundsExist(c, t0, steps[..|steps| - 1]);
      RunStamped(c, t0, steps[..|steps| - 1], n);
      StepStamped(c, now, steps[|steps| - 1], n);
    }
  }

  lemma StepStamped(c: Config, s: State, step: Step, n: NodeId)
    requires Enabled(c, s, step) && n in s.rounds
    requires var r := s.rounds[n];
             && (r.phase.Publishing? || r.phase.Tiebreak? ==> r.stamp == Some(r.phase.at)) && (r.phase.Won? ==> r.stamp.Some?)
    ensures n in Apply(c, s, step).rounds
    ensures var r := Apply(c, s, step).rounds[n];
            && (r.phase.Publishing? || r.phase.Tiebreak? ==> r.stamp == Some(r.phase.at)) && (r.phase.Won? ==> r.stamp.Some?)
  {
    if step.Deliver? {
      ReceiveFrame(c, s.rounds[step.packet.dest], step.packet.msg, s.now);
    }
  }

  // ----- whom a loser names

  lemma {:induction false} StampsStay(c: Config, t0: int, steps: seq<Step>, n: NodeId, i: nat)
    requires n in c.nodes && After(c, t0, steps).Some? && i <= |steps|
    ensures After(c, t0, steps[..i]).Some?
    ensures var s, s' := After(c, t0, steps[..i]).value, After(c, t0, steps).value;
            && n in s.rounds && n in s'.rounds && (s.rounds[n].stamp.Some? ==> s'.rounds[n].stamp == s.rounds[n].stamp)
  {
    RoundsExist(c, t0, steps);
    if i == |steps| {
      assert steps[..i] == steps;
    } else {
      var now := LastStep(c, t0, steps);
      assert steps[..|steps| - 1][..i] == steps[..i];
      StampsStay(c, t0, steps[..|steps| - 1], n, i);
      StepStamps(c, now, steps[|steps| - 1], n);
      RunStaysAside(c, t0, steps[..|steps| - 1], n);
    }
  }

  /** In every run, a loser names another node that stamped a claim, and that claim beats the loser's own plan unless the
      loser had stepped aside. */
  lemma LoserNamesClaimant(c: Config, t0: int, steps: seq<Step>, n: NodeId, w: NodeId)
    requires n in c.nodes && After(c, t0, steps).Some? && n in After(c, t0, steps).value.rounds
    requires After(c, t0, steps).value.rounds[n].phase == Lost(w)
    ensures var s := After(c, t0, steps).value;
            && w in c.nodes && w != n && w in s.rounds && s.rounds[w].stamp.Some?
            && (Aside(c, steps, n) || Beats(ClaimOf(c, w, s.rounds[w].stamp.value), Planned(c.decision(n), n)))
  {
    var i, s := VerdictHasCause(c, t0, steps, n);
    var m := s.rounds[n].claims[0];
    RunKeepsTraffic(c, t0, steps[..i]);
    assert RoundTraffic(c, s, n, s.rounds[n]) && Genuine(c, s, n, m);
    StampsStay(c, t0, steps, w, i);
    RunStaysAside(c, t0, steps[..i], n);
    assert Aside(c, steps[..i], n) ==> Aside(c, steps, n);
    TiebreakIsStrictTotalOrder(m, m, m, c.decision(n), n);
  }

  // ----- a publish call that fails

  /** No claim of `n` is at `d` or on its way there. */
  ghost predicate NoneFor(s: State, n: NodeId, d: NodeId) {
    && d in s.rounds && (forall p | p in s.net && p.dest == d && p.msg.ClaimMsg? :: p.msg.claim.node != n)
    && (forall m | m in s.rounds[d].claims :: m.node != n)
    && (forall m | m in ClaimsIn(s.rounds[d].buffer) :: m.node != n)
  }

  lemma SweptClaims(buffer: seq<Buffered<Message>>, cutoff: int, n: NodeId)
    requires forall m | m in ClaimsIn(buffer) :: m.node != n
    ensures forall m | m in ClaimsIn(Kept(buffer, cutoff)) :: m.node != n
  {
    SweepOnlyRemoves(buffer, cutoff, n);
  }

  lemma StepKeepsNone(c: Config, s: State, step: Step, n: NodeId, d: NodeId)
    requires Enabled(c, s, step) && NoneFor(s, n, d) && n in s.rounds && IsDone(s.rounds[n].phase)
    ensures NoneFor(Apply(c, s, step), n, d)
  {
    match step
    case Deliver(p) => DeliverKeepsNone(c, s, p, n, d);
    case Sweep(k) => if k == d { SweptClaims(s.rounds[d].buffer, s.now - c.ttl, n); }
    case Start(k, busy) => StartKeepsNone(c, s, k, busy, n, d);
    case _ => OthersKeepNone(c, s, step, n, d);
  }

  lemma DeliverKeepsNone(c: Config, s: State, p: Packet, n: NodeId, d: NodeId)
    requires Enabled(c, s, Deliver(p)) && NoneFor(s, n, d)
    ensures NoneFor(Apply(c, s, Deliver(p)), n, d)
  {
    if p.dest == d {
      ClaimsInAppend(s.rounds[d].buffer, Buffered(s.now, p.msg));
    }
  }

  lemma StartKeepsNone(c: Config, s: State, k: NodeId, busy: bool, n: NodeId, d: NodeId)
    requires Enabled(c, s, Start(k, busy)) && NoneFor(s, n, d)
    ensures NoneFor(Apply(c, s, Start(k, busy)), n, d)
  {
    assert ClaimsIn([]) == [];
  }

  lemma OthersKeepNone(c: Config, s: State, step: Step, n: NodeId, d: NodeId)
    requires Enabled(c, s, step) && NoneFor(s, n, d) && n in s.rounds && IsDone(s.rounds[n].phase)
    requires !step.Deliver? && !step.Sweep? && !step.Start?
    ensures NoneFor(Apply(c, s, step), n, d)
  {
  }

  lemma WithdrawnIsNone(c: Config, s: State, n: NodeId, unsent: set<NodeId>, d: NodeId)
    requires Traffic(c, s) && Enabled(c, s, PublishReturns(n, false, unsent)) && d in unsent && d in c.nodes
    requires s.rounds[n].stamp == Some(s.rounds[n].phase.at) && HeldFrom(s.rounds[d], n) == 0
    ensures NoneFor(Apply(c, s, PublishReturns(n, false, unsent)), n, d)
  {
    var s' := Apply(c, s, PublishReturns(n, false, unsent));
    forall p | p in s'.net && p.dest == d && p.msg.ClaimMsg? ensures p.msg.claim.node != n {
      assert PacketTraffic(c, s, p);
    }
    CountZero(s.rounds[d].claims, n);
    CountZero(ClaimsIn(s.rounds[d].buffer), n);
  }

  /** In every run, when a publish call fails, a node that it did not reach, and that holds no claim of the publisher yet,
      never gets one. */
  lemma {:induction false} UnsentNeverArrives(c: Config, t0: int, steps: seq<Step>, n: NodeId, d: NodeId, i: nat,
                                              s: State, unsent: set<NodeId>)
    requires n in c.nodes && d in c.nodes && After(c, t0, steps).Some?
    requires Passes(c, t0, steps, i, s) && steps[i] == PublishReturns(n, false, unsent) && d in unsent
    requires d in s.rounds && HeldFrom(s.rounds[d], n) == 0
    ensures NoneFor(After(c, t0, steps).value, n, d)
    ensures n in After(c, t0, steps).value.rounds && After(c, t0, steps).value.rounds[n].phase == Failed
  {
    var now := LastStep(c, t0, steps);
    if i == |steps| - 1 {
      RunKeepsTraffic(c, t0, steps[..i]);
      RunStamped(c, t0, steps[..i], n);
      WithdrawnIsNone(c, s, n, unsent, d);
      StepDecides(c, s, steps[i], n, n);
    } else {
      assert steps[..|steps| - 1][..i] == steps[..i];
      UnsentNeverArrives(c, t0, steps[..|steps| - 1], n, d, i, s, unsent);
      StepKeepsNone(c, now, steps[|steps| - 1], n, d);
      StepKeepsDone(c, now, steps[|steps| - 1], n);
    }
  }

  /** The step delivers the packet, or is a failed publish call that did not reach its destination. */
  predicate Ends(step: Step, p: Packet) {
    || step == Deliver(p)
    || (step.PublishReturns? && !step.ok && p.msg.ClaimMsg? && p.msg.claim.node == step.n && p.dest in step.unsent)
  }

  lemma StepCarries(c: Config, s: State, step: Step, p: Packet)
    requires Enabled(c, s, step) && p in s.net && p !in Apply(c, s, step).net
    ensures Ends(step, p)
  {
  }

  /** In every run, a packet that was on its way and no longer is was delivered, or withdrawn by a failed publish call. */
  lemma {:induction false} NothingIsLostOnTheWay(c: Config, t0: int, steps: seq<Step>, i: nat, p: Packet) returns (j: nat)
    requires After(c, t0, steps).Some? && i <= |steps| && p !in After(c, t0, steps).value.net
    requires After(c, t0, steps[..i]).Some? && p in After(c, t0, steps[..i]).value.net
    ensures i <= j < |steps| && Ends(steps[j], p)
  {
    assert steps[..|steps|] == steps;
    var now := LastStep(c, t0, steps);
    if p in now.net {
      StepCarries(c, now, steps[|steps| - 1], p);
      j := |steps| - 1;
    } else {
      assert steps[..|steps| - 1][..i] == steps[..i];
      j := NothingIsLostOnTheWay(c, t0, steps[..|steps| - 1], i, p);
    }
  }
}
