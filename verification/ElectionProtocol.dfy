/**
  One (capsule, replica) election as a timed step system over any set of nodes
  (election/manager.go `runElection`, election/topic.go `Listen` and `dispatchClaim`).

  Time is urgent: the clock may not pass the instant at which a timer fires, a packet must have
  arrived, or a message waits in a channel that a round is reading. Steps that share an instant
  interleave in every order, which covers Go's random choice among ready `select` cases. The one
  exception is the way from a fired publish timer to the claim's time stamp, which may take up to
  `lateness`, so that a claim can be stamped after its planned time.
 */
module ElectionProtocol {
  import opened Options
  import opened Claims
  import opened TopicBuffer

  /** Envelopes older than this are dropped on receipt, in nanoseconds. */
  const STALE_AGE := 30_000_000_000

  datatype Config = Config(
    nodes: set<NodeId>,
    start: NodeId -> int,          // when each node's round registers its listener
    decision: NodeId -> Decision,  // what the strategy answered there
    delay: int,                    // bound on the time from a claim's stamp to its receipt
    window: int,                   // tiebreakWindow
    publishing: int,               // bound on the time a publish call takes
    lateness: int,                 // bound on the time from deciding to publish to stamping the claim
    timeout: int,                  // election timeout
    ttl: int,                      // bufferTTL
    capacity: nat)                 // channel capacity given to Listen

  datatype Phase =
    | NotStarted
    | Waiting(deadline: int)
    | Ready(deadline: int, since: int)  // about to reserve the local claim slot, stamp and publish
    | Publishing(at: int)          // inside the publish call, stamped `at`
    | Tiebreak(at: int)
    | RemoteWait(deadline: int)
    | Won
    | Lost(winner: NodeId)
    | Failed

  datatype Message = ClaimMsg(claim: Claim) | FailedMsg(sender: NodeId)
  datatype Packet = Packet(dest: NodeId, msg: Message, sentAt: int)

  /** A node's round, its listener's two channels, and the topic buffer for the election's key. */
  datatype Round = Round(
    phase: Phase, stamp: Option<int>, claims: seq<Claim>, failures: nat, buffer: seq<Buffered<Message>>)

  datatype State = State(now: int, rounds: map<NodeId, Round>, net: set<Packet>, overflowed: bool)

  datatype Step =
    | Tick(to: int)
    | Deliver(packet: Packet)
    | Sweep(n: NodeId)
    | Start(n: NodeId, busy: bool)             // busy: the node already holds a claim for the capsule
    | HearClaim(n: NodeId)
    | HearFailure(n: NodeId)
    | PublishTimer(n: NodeId)
    | Deadline(n: NodeId)
    | Reserve(n: NodeId, free: bool)           // free: the local claim slot was not taken meanwhile
    | PublishReturns(n: NodeId, ok: bool, unsent: set<NodeId>)
    | WindowCloses(n: NodeId)
    | Cancel(n: NodeId)

  predicate Listening(p: Phase) {
    p.Waiting? || p.Ready? || p.Publishing? || p.Tiebreak? || p.RemoteWait?
  }

  predicate IsDone(p: Phase) { p.Won? || p.Lost? || p.Failed? }

  function ClaimOf(c: Config, n: NodeId, at: int): Claim {
    Claim(n, c.decision(n).score, Micros(at))
  }

  function ClaimsIn(buffer: seq<Buffered<Message>>): seq<Claim> {
    if buffer == [] then []
    else (if buffer[0].msg.ClaimMsg? then [buffer[0].msg.claim] else []) + ClaimsIn(buffer[1..])
  }

  function FailuresIn(buffer: seq<Buffered<Message>>): nat {
    if buffer == [] then 0
    else (if buffer[0].msg.FailedMsg? then 1 else 0) + FailuresIn(buffer[1..])
  }

  function Broadcast(c: Config, from: NodeId, msg: Message, at: int): set<Packet> {
    set d | d in c.nodes && d != from :: Packet(d, msg, at)
  }

  function AtMost<T>(s: seq<T>, k: nat): seq<T> { if |s| <= k then s else s[..k] }

  function Init(c: Config, t0: int): State {
    State(t0, map n | n in c.nodes :: Round(NotStarted, None, [], 0, []), {}, false)
  }

  /** The clock may move to `to` as far as this node is concerned. */
  predicate MayIdle(c: Config, n: NodeId, r: Round, to: int) {
    match r.phase
    case NotStarted => to <= c.start(n)
    case Waiting(d) => r.claims == [] && r.failures == 0 && to <= c.decision(n).publishAt && to <= d
    case Ready(_, since) => to <= since + c.lateness
    case Publishing(at) => to <= at + c.publishing
    case Tiebreak(at) => r.claims == [] && to <= at + c.window
    case RemoteWait(d) => r.claims == [] && r.failures == 0 && to <= d
    case _ => true
  }

  predicate Enabled(c: Config, s: State, step: Step)
  {
    match step
    case Tick(to) =>
      && to > s.now
      && (forall p | p in s.net :: to <= p.sentAt + c.delay)
      && (forall n | n in s.rounds :: MayIdle(c, n, s.rounds[n], to))
    case Deliver(p) => p in s.net && p.dest in s.rounds
    case Sweep(n) => n in s.rounds
    case Start(n, _) => n in s.rounds && s.rounds[n].phase.NotStarted? && s.now == c.start(n)
    case HearClaim(n) =>
      && n in s.rounds && s.rounds[n].claims != []
      && (s.rounds[n].phase.Waiting? || s.rounds[n].phase.Tiebreak? || s.rounds[n].phase.RemoteWait?)
    case HearFailure(n) =>
      && n in s.rounds && s.rounds[n].failures > 0
      && (s.rounds[n].phase.Waiting? || s.rounds[n].phase.RemoteWait?)
    case PublishTimer(n) =>
      n in s.rounds && s.rounds[n].phase.Waiting? && s.now >= c.decision(n).publishAt
    case Deadline(n) =>
      && n in s.rounds && (s.rounds[n].phase.Waiting? || s.rounds[n].phase.RemoteWait?)
      && s.now >= s.rounds[n].phase.deadline
    case Reserve(n, _) => n in s.rounds && s.rounds[n].phase.Ready?
    case PublishReturns(n, _, _) => n in s.rounds && s.rounds[n].phase.Publishing?
    case WindowCloses(n) =>
      n in s.rounds && s.rounds[n].phase.Tiebreak? && s.now >= s.rounds[n].phase.at + c.window
    case Cancel(n) =>
      && n in s.rounds
      && (s.rounds[n].phase.Waiting? || s.rounds[n].phase.Tiebreak? || s.rounds[n].phase.RemoteWait?)
  }

  function SetRound(s: State, n: NodeId, r: Round): State { s.(rounds := s.rounds[n := r]) }

  function SetPhase(s: State, n: NodeId, p: Phase): State
    requires n in s.rounds
  {
    SetRound(s, n, s.rounds[n].(phase := p))
  }

  /** `report` with a Failed outcome: the failure is gossiped to every other node. */
  function Fail(c: Config, s: State, n: NodeId): State
    requires n in s.rounds
  {
    SetPhase(s, n, Failed).(net := s.net + Broadcast(c, n, FailedMsg(n), s.now))
  }

  /** Entering `waitForRemoteVerdict`, which gives up at once past the deadline. */
  function AwaitVerdict(c: Config, s: State, n: NodeId, deadline: int): State
    requires n in s.rounds
  {
    if deadline <= s.now then Fail(c, s, n) else SetPhase(s, n, RemoteWait(deadline))
  }

  /** A listening round queues the message unless its channel is full; otherwise it is buffered. */
  function Receive(c: Config, r: Round, msg: Message, now: int): Round {
    if !Listening(r.phase) then r.(buffer := r.buffer + [Buffered(now, msg)])
    else match msg
      case ClaimMsg(m) => if |r.claims| < c.capacity then r.(claims := r.claims + [m]) else r
      case FailedMsg(_) => if r.failures < c.capacity then r.(failures := r.failures + 1) else r
  }

  /** `Listen`: the buffered messages for the key move into the new listener's channels. */
  function Replay(c: Config, r: Round): Round {
    r.(claims := AtMost(ClaimsIn(r.buffer), c.capacity),
       failures := if FailuresIn(r.buffer) <= c.capacity then FailuresIn(r.buffer) else c.capacity,
       buffer := [])
  }

  /** Reading the oldest queued claim. */
  function Hear(c: Config, now: int, n: NodeId, r: Round): Round
    requires r.claims != []
  {
    var rival := r.claims[0];
    var phase :=
      match r.phase
      case Waiting(d) => if IsBetter(rival, c.decision(n), n) then Lost(rival.node) else Ready(d, now)
      case Tiebreak(at) =>
        if IsBetter(rival, c.decision(n), n) then Lost(rival.node)
        else if now >= at + c.window then Won else r.phase
      case _ => Lost(rival.node);
    r.(phase := phase, claims := r.claims[1..])
  }

  /** Where a round goes once the strategy has decided: a node that cannot claim waits for a remote verdict, and fails at
      once if there is no time left for one. */
  function StartPhase(c: Config, now: int, n: NodeId, busy: bool): Phase {
    var deadline := now + c.timeout;
    if !c.decision(n).eligible || busy then if deadline <= now then Failed else RemoteWait(deadline)
    else if c.decision(n).publishAt > now then Waiting(deadline) else Ready(deadline, now)
  }

  function Apply(c: Config, s: State, step: Step): State
    requires Enabled(c, s, step)
  {
    match step
    case Tick(to) => s.(now := to)
    case Deliver(p) =>
      var r := s.rounds[p.dest];
      var s' := s.(net := s.net - {p});
      if s.now - p.sentAt > STALE_AGE then s'
      else SetRound(s', p.dest, Receive(c, r, p.msg, s.now)).(
        overflowed := s.overflowed || (Listening(r.phase) && p.msg.ClaimMsg? && |r.claims| >= c.capacity))
    case Sweep(n) =>
      SetRound(s, n, s.rounds[n].(buffer := Kept(s.rounds[n].buffer, s.now - c.ttl)))
    case Start(n, busy) =>
      var r := Replay(c, s.rounds[n]).(phase := StartPhase(c, s.now, n, busy));
      var s' := SetRound(s, n, r).(overflowed := s.overflowed || |ClaimsIn(s.rounds[n].buffer)| > c.capacity);
      if r.phase.Failed? then s'.(net := s.net + Broadcast(c, n, FailedMsg(n), s.now)) else s'
    case HearClaim(n) => SetRound(s, n, Hear(c, s.now, n, s.rounds[n]))
    case HearFailure(n) => Fail(c, s, n)
    case PublishTimer(n) => SetPhase(s, n, Ready(s.rounds[n].phase.deadline, s.now))
    case Deadline(n) => Fail(c, s, n)
    case Reserve(n, free) =>
      if !free then AwaitVerdict(c, s, n, s.rounds[n].phase.deadline)
      else SetRound(s, n, s.rounds[n].(phase := Publishing(s.now), stamp := Some(s.now))).(
        net := s.net + Broadcast(c, n, ClaimMsg(ClaimOf(c, n, s.now)), s.now))
    case PublishReturns(n, ok, unsent) =>
      var at := s.rounds[n].phase.at;
      if !ok then
        Fail(c, s.(net := set p | p in s.net && !(p.dest in unsent && p.msg == ClaimMsg(ClaimOf(c, n, at)))), n)
      else if s.now >= at + c.window then SetPhase(s, n, Won)
      else SetPhase(s, n, Tiebreak(at))
    case WindowCloses(n) => SetPhase(s, n, Won)
    case Cancel(n) => Fail(c, s, n)
  }

  /** The state after a sequence of steps from the empty network, if every step was enabled. */
  function After(c: Config, t0: int, steps: seq<Step>): Option<State> {
    if steps == [] then Some(Init(c, t0))
    else match After(c, t0, steps[..|steps| - 1])
      case None => None
      case Some(s) =>
        if Enabled(c, s, steps[|steps| - 1]) then Some(Apply(c, s, steps[|steps| - 1])) else None
  }
}
