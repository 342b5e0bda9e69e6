/**
  One node's election manager: the in-flight table that collapses repeated requests and the local claim flags
  that keep a node from winning two replicas of one capsule (election/manager.go `HandleRequest`, `report`,
  `tryClaimCapsule`, `releaseCapsuleClaim`).

  Rounds run concurrently. An `Event` is what one round does in one critical section; a run is any
  interleaving of the events of all rounds.
 */
module ElectionManager {
  import opened Options

  datatype Key = Key(capsule: string, replica: string)
  datatype Outcome = Won | Lost | Failed

  /** Where a round stands with respect to the shared tables. */
  datatype Stage =
    | Begun                     // registered, not decided
    | Pending                   // eligible, waiting to publish
    | Holding                   // holds the claim flag: publishing or in its tiebreak window
    | Aside                     // waiting for a remote verdict
    | Released(failed: bool)    // gave the flag back, about to report failure or loss
    | Reported

  /** What a request depends on outside the manager's tables: the manager is started and has its store, lifecycle,
      calculator and provider, the capsule is found, its cluster is joined, and a strategy is configured. */
  datatype Environment = Environment(started: bool, wired: bool, found: bool, joined: bool, strategy: bool)

  const READY := Environment(true, true, true, true, true)

  datatype Refusal = NotStarted | MissingDependency | CapsuleNotFound | NotJoined | NoStrategy

  /** Why a request is refused, if it is: a running round answers for its cluster and strategy. */
  function Refused(env: Environment, running: bool): Option<Refusal> {
    if !env.started then Some(NotStarted)
    else if !env.wired then Some(MissingDependency)
    else if !env.found then Some(CapsuleNotFound)
    else if running then None
    else if !env.joined then Some(NotJoined)
    else if !env.strategy then Some(NoStrategy)
    else None
  }

  datatype Event =
    | Request(k: Key, env: Environment)
    | Decide(k: Key, eligible: bool)
    | GiveUp(k: Key, outcome: Outcome)     // lost or failed before publishing
    | TryClaim(k: Key)
    | Release(k: Key, failed: bool)        // publish error, or outbid in the tiebreak
    | ReportReleased(k: Key)
    | Resolve(k: Key, outcome: Outcome)    // window closed, or cancelled in it
    | Verdict(k: Key, outcome: Outcome)    // a remote claim, a remote failure or the deadline
    | Finish(k: Key)
    | Forget(capsule: string)

  /** The shared tables, the rounds, and the history of accepted requests and reports. */
  datatype Ledger = Ledger(
    rounds: map<Key, Stage>, claimed: set<string>, accepted: seq<Key>, reports: seq<(Key, Outcome)>)

  const EMPTY := Ledger(map[], {}, [], [])

  predicate StageIs(l: Ledger, k: Key, s: Stage) { k in l.rounds && l.rounds[k] == s }

  predicate Enabled(l: Ledger, e: Event) {
    match e
    case Request(_, _) => true
    case Decide(k, _) => StageIs(l, k, Begun)
    case GiveUp(k, o) => StageIs(l, k, Pending) && o != Won
    case TryClaim(k) => StageIs(l, k, Pending)
    case Release(k, _) => StageIs(l, k, Holding)
    case ReportReleased(k) => k in l.rounds && l.rounds[k].Released?
    case Resolve(k, o) => StageIs(l, k, Holding) && o != Lost
    case Verdict(k, o) => StageIs(l, k, Aside) && o != Won
    case Finish(k) => StageIs(l, k, Reported)
    case Forget(_) => true
  }

  function SetStage(l: Ledger, k: Key, s: Stage): Ledger { l.(rounds := l.rounds[k := s]) }

  /** `report`: a failure also clears the capsule's claim flag, whoever holds it. */
  function Report(l: Ledger, k: Key, o: Outcome): Ledger {
    SetStage(l, k, Reported).(
      claimed := if o == Failed then l.claimed - {k.capsule} else l.claimed,
      reports := l.reports + [(k, o)])
  }

  function Apply(l: Ledger, e: Event): Ledger
    requires Enabled(l, e)
  {
    match e
    case Request(k, env) =>
      if k in l.rounds || Refused(env, false).Some? then l
      else SetStage(l, k, Begun).(accepted := l.accepted + [k])
    case Decide(k, eligible) => SetStage(l, k, if eligible && k.capsule !in l.claimed then Pending else Aside)
    case GiveUp(k, o) => Report(l, k, o)
    case TryClaim(k) =>
      if k.capsule in l.claimed then SetStage(l, k, Aside)
      else SetStage(l, k, Holding).(claimed := l.claimed + {k.capsule})
    case Release(k, failed) => SetStage(l, k, Released(failed)).(claimed := l.claimed - {k.capsule})
    case ReportReleased(k) => Report(l, k, if l.rounds[k].failed then Failed else Lost)
    case Resolve(k, o) => Report(l, k, o)
    case Verdict(k, o) => Report(l, k, o)
    case Finish(k) => l.(rounds := l.rounds - {k})
    case Forget(c) => l.(claimed := l.claimed - {c})
  }

  ghost predicate Run(states: seq<Ledger>, events: seq<Event>) {
    && |states| == |events| + 1 && states[0] == EMPTY
    && forall i | 0 <= i < |events| :: Enabled(states[i], events[i]) && states[i + 1] == Apply(states[i], events[i])
  }

  // ----- which requests start a round

  /** What each refusal says is missing. */
  predicate Missing(env: Environment, r: Refusal) {
    match r
    case NotStarted => !env.started
    case MissingDependency => !env.wired
    case CapsuleNotFound => !env.found
    case NotJoined => !env.joined
    case NoStrategy => !env.strategy
  }

  const CHECKS := [NotStarted, MissingDependency, CapsuleNotFound, NotJoined, NoStrategy]

  /** A refusal names the first of the five checks that fails, and the last two are made for a new round only. */
  lemma RefusalIsFirstMissing(env: Environment, running: bool, i: nat)
    requires i < |CHECKS|
    ensures Refused(env, running) == Some(CHECKS[i]) <==>
            && Missing(env, CHECKS[i]) && (running ==> i < 3)
            && forall j | 0 <= j < i :: !Missing(env, CHECKS[j])
    ensures Refused(env, running).None? <==>
            forall j | 0 <= j < |CHECKS| :: Missing(env, CHECKS[j]) ==> running && j >= 3
  {
    assert CHECKS[0] == NotStarted && CHECKS[1] == MissingDependency && CHECKS[2] == CapsuleNotFound;
    assert CHECKS[3] == NotJoined && CHECKS[4] == NoStrategy;
  }

  /** A request leaves a round of `k` in flight if and only if there was one or nothing is missing, and it touches no
      other round. */
  lemma RequestStartsIff(l: Ledger, k: Key, env: Environment)
    ensures var l' := Apply(l, Request(k, env));
            && (k in l'.rounds <==> k in l.rounds || env == READY)
            && (k in l.rounds || env != READY ==> l' == l)
            && (l' != l ==> StageIs(l', k, Begun) && l'.rounds - {k} == l.rounds && l'.claimed == l.claimed)
  {
  }

  // ----- the claim guard

  ghost function Holders(l: Ledger, c: string): set<Key> {
    set k | k in l.rounds && k.capsule == c && l.rounds[k] == Holding
  }

  function Wins(reports: seq<(Key, Outcome)>, c: string): nat {
    if reports == [] then 0
    else Wins(reports[..|reports| - 1], c)
         + (if reports[|reports| - 1].0.capsule == c && reports[|reports| - 1].1 == Won then 1 else 0)
  }

  /** The flag is set exactly when one round holds it or one replica has been won. */
  ghost predicate Guarded(l: Ledger, c: string) {
    |Holders(l, c)| + Wins(l.reports, c) == if c in l.claimed then 1 else 0
  }

  /** The capsule whose flag an event clears as a side effect of reporting failure or forgetting. */
  predicate Clears(l: Ledger, e: Event, c: string)
    requires Enabled(l, e)
  {
    match e
    case GiveUp(k, o) => k.capsule == c && o == Failed
    case ReportReleased(k) => k.capsule == c && l.rounds[k].failed
    case Resolve(k, o) => k.capsule == c && o == Failed
    case Verdict(k, o) => k.capsule == c && o == Failed
    case Forget(f) => f == c
    case _ => false
  }

  /** The event clears a flag that some other round holds or that marks a win. */
  predicate Steals(l: Ledger, e: Event, c: string)
    requires Enabled(l, e)
  {
    Clears(l, e, c) && c in l.claimed && !(e.Resolve? && e.k.capsule == c)
  }

  lemma WinsAppend(reports: seq<(Key, Outcome)>, k: Key, o: Outcome, c: string)
    ensures Wins(reports + [(k, o)], c) == Wins(reports, c) + (if k.capsule == c && o == Won then 1 else 0)
  {
    assert (reports + [(k, o)])[..|reports|] == reports;
  }

  /** A round that is not holding leaves the holders as they are when it moves to another such stage. */
  lemma HoldersFrame(l: Ledger, l': Ledger, k: Key, c: string)
    requires forall x | x != k :: (x in l.rounds <==> x in l'.rounds) && (x in l.rounds ==> l'.rounds[x] == l.rounds[x])
    ensures !StageIs(l, k, Holding) && !StageIs(l', k, Holding) ==> Holders(l', c) == Holders(l, c)
    ensures k.capsule != c ==> Holders(l', c) == Holders(l, c)
    ensures k.capsule == c && StageIs(l, k, Holding) && !StageIs(l', k, Holding) ==>
              Holders(l, c) == Holders(l', c) + {k} && k !in Holders(l', c)
    ensures k.capsule == c && !StageIs(l, k, Holding) && StageIs(l', k, Holding) ==>
              Holders(l', c) == Holders(l, c) + {k} && k !in Holders(l, c)
  {
  }

  lemma ReportGuard(l: Ledger, k: Key, o: Outcome, c: string)
    requires Guarded(l, c) && k in l.rounds && (o == Won ==> l.rounds[k] == Holding)
    requires l.rounds[k] == Holding ==> o != Lost
    ensures Guarded(Report(l, k, o), c) <==>
              !(k.capsule == c && o == Failed && c in l.claimed && l.rounds[k] != Holding)
  {
    HoldersFrame(l, Report(l, k, o), k, c);
    WinsAppend(l.reports, k, o, c);
  }

  /** Events that report nothing keep the guard. */
  lemma MoveGuard(l: Ledger, e: Event, c: string)
    requires Guarded(l, c) && Enabled(l, e)
    requires e.Request? || e.Decide? || e.TryClaim? || e.Release? || e.Finish?
    ensures Guarded(Apply(l, e), c)
  {
    HoldersFrame(l, Apply(l, e), e.k, c);
  }

  /** An event keeps a capsule's guard if and only if it does not clear a flag it does not own. */
  lemma GuardKeptIffNotStolen(l: Ledger, e: Event, c: string)
    requires Guarded(l, c) && Enabled(l, e)
    ensures Guarded(Apply(l, e), c) <==> !Steals(l, e, c)
  {
    match e
    case GiveUp(k, o) => ReportGuard(l, k, o, c);
    case ReportReleased(k) => ReportGuard(l, k, if l.rounds[k].failed then Failed else Lost, c);
    case Resolve(k, o) => ReportGuard(l, k, o, c);
    case Verdict(k, o) => ReportGuard(l, k, o, c);
    case Forget(f) => assert Holders(Apply(l, e), c) == Holders(l, c);
    case _ => MoveGuard(l, e, c);
  }

  /** Over every interleaving in which no failure report or `Forget` takes a capsule's flag away from its owner,
      the flag is set exactly when one round holds it or one replica is won. */
  lemma {:induction false} ClaimGuard(states: seq<Ledger>, events: seq<Event>, c: string, i: nat)
    requires Run(states, events) && i <= |events|
    requires forall j | 0 <= j < i :: Enabled(states[j], events[j]) && !Steals(states[j], events[j], c)
    ensures Guarded(states[i], c)
  {
    if i == 0 {
      assert Holders(EMPTY, c) == {};
    } else {
      ClaimGuard(states, events, c, i - 1);
      assert Enabled(states[i - 1], events[i - 1]) && !Steals(states[i - 1], events[i - 1], c);
      GuardKeptIffNotStolen(states[i - 1], events[i - 1], c);
    }
  }

  /** ... and so the node wins at most one replica of the capsule, and two rounds never hold its flag at once. */
  lemma AtMostOneReplicaWon(states: seq<Ledger>, events: seq<Event>, c: string, i: nat)
    requires Run(states, events) && i <= |events|
    requires forall j | 0 <= j < i :: Enabled(states[j], events[j]) && !Steals(states[j], events[j], c)
    ensures Wins(states[i].reports, c) <= 1
    ensures forall x, y | x in Holders(states[i], c) && y in Holders(states[i], c) :: x == y
    ensures Wins(states[i].reports, c) == 1 ==> Holders(states[i], c) == {}
  {
    ClaimGuard(states, events, c, i);
    var h := Holders(states[i], c);
    forall x, y | x in h && y in h
      ensures x == y
    {
      assert {x, y} <= h && |h - {x}| <= 0;
      assert y in h - {x} || y == x;
    }
  }

  /** A whole round of `k` that wins, on a node without the capsule's flag. */
  lemma WinningRound(states: seq<Ledger>, events: seq<Event>, k: Key)
    returns (states': seq<Ledger>, events': seq<Event>)
    requires Run(states, events) && k !in states[|events|].rounds && k.capsule !in states[|events|].claimed
    ensures Run(states', events')
    ensures var l, l' := states[|events|], states'[|events'|];
            && l'.rounds == l.rounds[k := Reported] && k.capsule in l'.claimed
            && Wins(l'.reports, k.capsule) == Wins(l.reports, k.capsule) + 1
  {
    var l := states[|events|];
    states', events' := Extend(states, events, Request(k, READY));
    states', events' := Extend(states', events', Decide(k, true));
    states', events' := Extend(states', events', TryClaim(k));
    states', events' := Extend(states', events', Resolve(k, Won));
    assert states'[|events'|].rounds == l.rounds[k := Reported];
    WinsAppend(l.reports, k, Won, k.capsule);
  }

  /** A whole round of `k` that steps aside for the flag and times out. */
  lemma TimedOutRound(states: seq<Ledger>, events: seq<Event>, k: Key)
    returns (states': seq<Ledger>, events': seq<Event>)
    requires Run(states, events) && k !in states[|events|].rounds && k.capsule in states[|events|].claimed
    ensures Run(states', events')
    ensures var l, l' := states[|events|], states'[|events'|];
            && l'.rounds == l.rounds[k := Reported] && k.capsule !in l'.claimed
            && Wins(l'.reports, k.capsule) == Wins(l.reports, k.capsule)
  {
    var l := states[|events|];
    states', events' := Extend(states, events, Request(k, READY));
    states', events' := Extend(states', events', Decide(k, true));
    states', events' := Extend(states', events', Verdict(k, Failed));
    assert states'[|events'|].rounds == l.rounds[k := Reported];
    WinsAppend(l.reports, k, Failed, k.capsule);
  }

  /** A replica that merely times out while waiting for a remote verdict takes the flag of a replica already won
      here, after which a third replica is won as well. */
  lemma TimeoutLetsNodeWinTwice(c: string) returns (states: seq<Ledger>, events: seq<Event>)
    ensures Run(states, events) && Wins(states[|events|].reports, c) == 2
  {
    var k0, k1, k2 := Key(c, "0"), Key(c, "1"), Key(c, "2");
    assert k0 != k1 && k1 != k2 && k0 != k2 by { assert "0"[0] != "1"[0] && "1"[0] != "2"[0] && "0"[0] != "2"[0]; }
    states, events := [EMPTY], [];
    states, events := WinningRound(states, events, k0);
    states, events := TimedOutRound(states, events, k1);
    states, events := WinningRound(states, events, k2);
  }

  /** A longer run, whose further events take no flag of `c` from anyone. */
  ghost predicate Continues(states: seq<Ledger>, events: seq<Event>, states': seq<Ledger>, events': seq<Event>, c: string)
  {
    && Run(states, events) && Run(states', events') && events <= events' && states <= states'
    && forall i | |events| <= i < |events'| :: Enabled(states'[i], events'[i]) && !Steals(states'[i], events'[i], c)
  }

  lemma ContinueOne(states: seq<Ledger>, events: seq<Event>, states0: seq<Ledger>, events0: seq<Event>, e: Event,
                    c: string)
    returns (states': seq<Ledger>, events': seq<Event>)
    requires Continues(states0, events0, states, events, c)
    requires Enabled(states[|events|], e) && !Steals(states[|events|], e, c)
    ensures Continues(states0, events0, states', events', c)
    ensures states'[|events'|] == Apply(states[|events|], e)
  {
    states', events' := Extend(states, events, e);
  }

  /** A whole round of `k` that wins, from its request on. */
  lemma WinningContinuation(states: seq<Ledger>, events: seq<Event>, states0: seq<Ledger>, events0: seq<Event>, k: Key)
    returns (states': seq<Ledger>, events': seq<Event>)
    requires Continues(states0, events0, states, events, k.capsule)
    requires k !in states[|events|].rounds && k.capsule !in states[|events|].claimed
    ensures Continues(states0, events0, states', events', k.capsule)
    ensures var l, l' := states[|events|], states'[|events'|];
            && l'.rounds == l.rounds[k := Reported]
            && Wins(l'.reports, k.capsule) == Wins(l.reports, k.capsule) + 1
  {
    var l := states[|events|];
    states', events' := ContinueOne(states, events, states0, events0, Request(k, READY), k.capsule);
    states', events' := ContinueOne(states', events', states0, events0, Decide(k, true), k.capsule);
    states', events' := ContinueOne(states', events', states0, events0, TryClaim(k), k.capsule);
    states', events' := ContinueOne(states', events', states0, events0, Resolve(k, Won), k.capsule);
    assert states'[|events'|].rounds == l.rounds[k := Reported];
    WinsAppend(l.reports, k, Won, k.capsule);
  }

  lemma {:induction false} FreshReplica(keys: set<Key>) returns (length: nat)
    ensures forall k | k in keys :: |k.replica| < length
  {
    if keys == {} {
      length := 0;
    } else {
      var k :| k in keys;
      var rest := FreshReplica(keys - {k});
      length := if rest <= |k.replica| then |k.replica| + 1 else rest;
    }
  }

  lemma FreshKey(l: Ledger, c: string) returns (k: Key)
    ensures k.capsule == c && k !in l.rounds
  {
    var length := FreshReplica(l.rounds.Keys);
    k := Key(c, seq(length, _ => '0'));
    assert |k.replica| == length;
  }

  /** A theft leaves the win or the holder that the flag stood for. */
  lemma TheftLeavesOwner(l: Ledger, e: Event, c: string) returns (k: Key)
    requires Guarded(l, c) && Enabled(l, e) && Steals(l, e, c)
    ensures c !in Apply(l, e).claimed && k.capsule == c
    ensures Wins(Apply(l, e).reports, c) == 1 || StageIs(Apply(l, e), k, Holding)
  {
    if Wins(l.reports, c) == 1 {
      TheftKeepsWins(l, e, c);
      k := Key(c, "");
    } else {
      assert |Holders(l, c)| == 1;
      k :| k in Holders(l, c);
    }
  }

  lemma TheftKeepsWins(l: Ledger, e: Event, c: string)
    requires Enabled(l, e) && Steals(l, e, c)
    ensures Wins(Apply(l, e).reports, c) == Wins(l.reports, c)
  {
    if !e.Forget? {
      WinsAppend(l.reports, e.k, Failed, c);
    }
  }

  /** Once the flag has been taken from its owner, the run can go on, without further thefts, to a second win. */
  lemma TheftLetsNodeWinTwice(states: seq<Ledger>, events: seq<Event>, e: Event, c: string)
    returns (states': seq<Ledger>, events': seq<Event>)
    requires Run(states, events) && Guarded(states[|events|], c)
    requires Enabled(states[|events|], e) && Steals(states[|events|], e, c)
    ensures Continues(states + [Apply(states[|events|], e)], events + [e], states', events', c)
    ensures Wins(states'[|events'|].reports, c) >= 2
  {
    var l := states[|events|];
    var holder := TheftLeavesOwner(l, e, c);
    var states0, events0 := Extend(states, events, e);
    assert states0 == states + [Apply(l, e)] && events0 == events + [e];
    var k := FreshKey(Apply(l, e), c);
    states', events' := WinningContinuation(states0, events0, states0, events0, k);
    if Wins(Apply(l, e).reports, c) != 1 {
      var before := states'[|events'|];
      states', events' := ContinueOne(states', events', states0, events0, Resolve(holder, Won), c);
      WinsAppend(before.reports, holder, Won, c);
    }
  }

  /** Some continuation without a theft has two wins. */
  ghost predicate CanWinTwice(states: seq<Ledger>, events: seq<Event>, c: string) {
    exists states': seq<Ledger>, events': seq<Event> ::
      Continues(states, events, states', events', c) && Wins(states'[|events'|].reports, c) >= 2
  }

  /** After an event of a run without thefts, a node can go on to win two replicas without a further theft if and only if the
      event was a theft. */
  lemma SecondWinIffTheft(states: seq<Ledger>, events: seq<Event>, e: Event, c: string)
    requires Run(states, events) && Enabled(states[|events|], e)
    requires forall i | 0 <= i < |events| :: Enabled(states[i], events[i]) && !Steals(states[i], events[i], c)
    ensures CanWinTwice(states + [Apply(states[|events|], e)], events + [e], c) <==> Steals(states[|events|], e, c)
  {
    ClaimGuard(states, events, c, |events|);
    if Steals(states[|events|], e, c) {
      var states', events' := TheftLetsNodeWinTwice(states, events, e, c);
    } else {
      forall states': seq<Ledger>, events': seq<Event> |
        Continues(states + [Apply(states[|events|], e)], events + [e], states', events', c)
        ensures Wins(states'[|events'|].reports, c) <= 1
      {
        NoTheftNoSecondWin(states, events, e, c, states', events');
      }
    }
  }

  lemma NoTheftNoSecondWin(states: seq<Ledger>, events: seq<Event>, e: Event, c: string,
                           states': seq<Ledger>, events': seq<Event>)
    requires Run(states, events) && Enabled(states[|events|], e) && !Steals(states[|events|], e, c)
    requires forall i | 0 <= i < |events| :: Enabled(states[i], events[i]) && !Steals(states[i], events[i], c)
    requires Continues(states + [Apply(states[|events|], e)], events + [e], states', events', c)
    ensures Wins(states'[|events'|].reports, c) <= 1
  {
    var n := |events|;
    forall i | 0 <= i < |events'| ensures Enabled(states'[i], events'[i]) && !Steals(states'[i], events'[i], c) {
      if i < n {
        assert events'[i] == (events + [e])[i] == events[i];
        assert states'[i] == (states + [Apply(states[n], e)])[i] == states[i];
      } else if i == n {
        assert events'[n] == (events + [e])[n] && states'[n] == (states + [Apply(states[n], e)])[n];
      }
    }
    ClaimGuard(states', events', c, |events'|);
  }

  lemma Extend(states: seq<Ledger>, events: seq<Event>, e: Event) returns (states': seq<Ledger>, events': seq<Event>)
    requires Run(states, events) && Enabled(states[|events|], e)
    ensures Run(states', events') && events' == events + [e] && states' == states + [Apply(states[|events|], e)]
    ensures states'[|events'|] == Apply(states[|events|], e)
  {
    events' := events + [e];
    states' := states + [Apply(states[|events|], e)];
  }

  // ----- what a win needs

  /** The round of `k` was accepted at `r` and is the one still in flight at `i`. */
  ghost predicate RoundSince(states: seq<Ledger>, events: seq<Event>, k: Key, r: nat, i: nat)
    requires |states| == |events| + 1 && i <= |events|
  {
    && r < i && events[r].Request? && events[r].k == k && events[r].env == READY && k !in states[r].rounds
    && forall j | r < j <= i :: k in states[j].rounds
  }

  /** The strategy found the node eligible at `d`, when no replica of the capsule was claimed, and gave no other answer
      since the request at `r`. */
  ghost predicate EligibleSince(states: seq<Ledger>, events: seq<Event>, k: Key, r: nat, d: nat, i: nat)
    requires |states| == |events| + 1 && i <= |events|
  {
    && r < d < i && events[d] == Decide(k, true) && k.capsule !in states[d].claimed
    && forall j | r < j < i && j != d :: !(events[j].Decide? && events[j].k == k)
  }

  /** The round took the clear flag at `t` and has not given it back. */
  ghost predicate TookFlag(states: seq<Ledger>, events: seq<Event>, k: Key, t: nat, i: nat)
    requires |states| == |events| + 1 && i <= |events|
  {
    && t < i && events[t] == TryClaim(k) && k.capsule !in states[t].claimed
    && forall j | t < j <= i :: StageIs(states[j], k, Holding)
  }

  lemma RunStep(states: seq<Ledger>, events: seq<Event>, i: nat)
    requires Run(states, events) && i < |events|
    ensures Enabled(states[i], events[i]) && states[i + 1] == Apply(states[i], events[i])
  {
  }

  /** How the stage of `k` can change in one event. */
  lemma StageStep(l: Ledger, e: Event, k: Key)
    requires Enabled(l, e) && k in Apply(l, e).rounds
    ensures k !in l.rounds ==> e.Request? && e.k == k && e.env == READY && StageIs(Apply(l, e), k, Begun)
    ensures e.Decide? && e.k == k ==> StageIs(l, k, Begun) && !StageIs(Apply(l, e), k, Begun)
    ensures k in l.rounds && StageIs(Apply(l, e), k, Begun) ==> StageIs(l, k, Begun)
    ensures StageIs(Apply(l, e), k, Pending) && !StageIs(l, k, Pending) ==>
              e == Decide(k, true) && k.capsule !in l.claimed
    ensures StageIs(Apply(l, e), k, Holding) && !StageIs(l, k, Holding) ==>
              e == TryClaim(k) && StageIs(l, k, Pending) && k.capsule !in l.claimed
  {
  }

  /** A round steps aside exactly when it is found ineligible or its capsule is claimed, at its decision or when it is
      about to publish; and it is about to report a loss or failure only after it has given the flag back. */
  lemma StepsAsideIff(l: Ledger, e: Event, k: Key, failed: bool)
    requires Enabled(l, e)
    ensures StageIs(Apply(l, e), k, Aside) && !StageIs(l, k, Aside) <==>
            || (e.Decide? && e.k == k && (!e.eligible || k.capsule in l.claimed))
            || (e == TryClaim(k) && k.capsule in l.claimed)
    ensures StageIs(Apply(l, e), k, Released(failed)) && !StageIs(l, k, Released(failed)) <==> e == Release(k, failed)
    ensures e.Release? && e.k == k ==> k.capsule !in Apply(l, e).claimed
  {
  }

  /** A round in flight has its accepted request. */
  lemma {:induction false} RoundHasRequest(states: seq<Ledger>, events: seq<Event>, k: Key, i: nat) returns (r: nat)
    requires Run(states, events) && i <= |events| && k in states[i].rounds
    ensures RoundSince(states, events, k, r, i)
    ensures StageIs(states[i], k, Begun) ==> forall j | r < j < i :: !(events[j].Decide? && events[j].k == k)
  {
    RunStep(states, events, i - 1);
    StageStep(states[i - 1], events[i - 1], k);
    if k in states[i - 1].rounds {
      r := RoundHasRequest(states, events, k, i - 1);
    } else {
      r := i - 1;
    }
  }

  /** A round that waits to publish or holds the flag was found eligible. */
  lemma {:induction false} CandidateIsEligible(states: seq<Ledger>, events: seq<Event>, k: Key, i: nat)
    returns (r: nat, d: nat)
    requires Run(states, events) && i <= |events| && (StageIs(states[i], k, Pending) || StageIs(states[i], k, Holding))
    ensures RoundSince(states, events, k, r, i) && EligibleSince(states, events, k, r, d, i)
  {
    RunStep(states, events, i - 1);
    StageStep(states[i - 1], events[i - 1], k);
    if StageIs(states[i - 1], k, Pending) || StageIs(states[i - 1], k, Holding) {
      r, d := CandidateIsEligible(states, events, k, i - 1);
    } else {
      r := RoundHasRequest(states, events, k, i - 1);
      d := i - 1;
    }
  }

  /** A round that holds the flag took it when it was clear. */
  lemma {:induction false} HolderTookFlag(states: seq<Ledger>, events: seq<Event>, k: Key, i: nat) returns (t: nat)
    requires Run(states, events) && i <= |events| && StageIs(states[i], k, Holding)
    ensures TookFlag(states, events, k, t, i)
  {
    RunStep(states, events, i - 1);
    StageStep(states[i - 1], events[i - 1], k);
    if StageIs(states[i - 1], k, Holding) {
      t := HolderTookFlag(states, events, k, i - 1);
    } else {
      t := i - 1;
    }
  }

  /** In every run, each round that holds its capsule's flag was requested, then found eligible while the flag was clear,
      then took the clear flag; and nothing decided otherwise since the request. */
  lemma HolderIsEligible(states: seq<Ledger>, events: seq<Event>, k: Key, i: nat) returns (r: nat, d: nat, t: nat)
    requires Run(states, events) && i <= |events| && StageIs(states[i], k, Holding)
    ensures RoundSince(states, events, k, r, i) && EligibleSince(states, events, k, r, d, i)
    ensures TookFlag(states, events, k, t, i) && d < t
  {
    r, d := CandidateIsEligible(states, events, k, i);
    t := HolderTookFlag(states, events, k, i);
    RunStep(states, events, d);
    RunStep(states, events, t);
  }

  lemma ReportStep(l: Ledger, e: Event, x: (Key, Outcome))
    requires Enabled(l, e) && x in Apply(l, e).reports && x !in l.reports
    ensures x.1 == Won ==> e == Resolve(x.0, Won) && StageIs(l, x.0, Holding)
  {
  }

  /** In every run, each reported win is a window that closed on a round which held the flag and had been found eligible
      since its request. So an ineligible node never wins. */
  lemma {:induction false} WinnerWasEligible(states: seq<Ledger>, events: seq<Event>, k: Key, i: nat)
    returns (r: nat, d: nat, t: nat, w: nat)
    requires Run(states, events) && i <= |events| && (k, Won) in states[i].reports
    ensures w < i && events[w] == Resolve(k, Won)
    ensures RoundSince(states, events, k, r, w) && EligibleSince(states, events, k, r, d, w)
    ensures TookFlag(states, events, k, t, w) && d < t
  {
    RunStep(states, events, i - 1);
    if (k, Won) in states[i - 1].reports {
      r, d, t, w := WinnerWasEligible(states, events, k, i - 1);
    } else {
      ReportStep(states[i - 1], events[i - 1], (k, Won));
      w := i - 1;
      r, d, t := HolderIsEligible(states, events, k, w);
    }
  }

  // ----- one request, one report

  function Accepted(accepted: seq<Key>, k: Key): nat {
    if accepted == [] then 0
    else Accepted(accepted[..|accepted| - 1], k) + (if accepted[|accepted| - 1] == k then 1 else 0)
  }

  function Reports(reports: seq<(Key, Outcome)>, k: Key): nat {
    if reports == [] then 0
    else Reports(reports[..|reports| - 1], k) + (if reports[|reports| - 1].0 == k then 1 else 0)
  }

  /** Accepted requests for `k` are those reported plus the one still running, if any. */
  ghost predicate Accounted(l: Ledger, k: Key) {
    Accepted(l.accepted, k) == Reports(l.reports, k) + (if k in l.rounds && l.rounds[k] != Reported then 1 else 0)
  }

  lemma AcceptedOneMore(accepted: seq<Key>, x: Key, k: Key)
    ensures Accepted(accepted + [x], k) == Accepted(accepted, k) + (if x == k then 1 else 0)
  {
    assert (accepted + [x])[..|accepted|] == accepted;
  }

  lemma ReportsOneMore(reports: seq<(Key, Outcome)>, x: Key, o: Outcome, k: Key)
    ensures Reports(reports + [(x, o)], k) == Reports(reports, k) + (if x == k then 1 else 0)
  {
    assert (reports + [(x, o)])[..|reports|] == reports;
  }

  lemma ReportKeepsAccount(l: Ledger, x: Key, o: Outcome, k: Key)
    requires x in l.rounds && l.rounds[x] != Reported && Accounted(l, k)
    ensures Accounted(Report(l, x, o), k)
  {
    ReportsOneMore(l.reports, x, o, k);
  }

  lemma EventKeepsAccount(l: Ledger, e: Event, k: Key)
    requires Enabled(l, e) && Accounted(l, k)
    ensures Accounted(Apply(l, e), k)
  {
    match e
    case Request(x, _) => AcceptedOneMore(l.accepted, x, k);
    case GiveUp(x, o) => ReportKeepsAccount(l, x, o, k);
    case ReportReleased(x) => ReportKeepsAccount(l, x, if l.rounds[x].failed then Failed else Lost, k);
    case Resolve(x, o) => ReportKeepsAccount(l, x, o, k);
    case Verdict(x, o) => ReportKeepsAccount(l, x, o, k);
    case _ =>
  }

  /** Every accepted request yields exactly one report; a repeated request for a running round yields none. */
  lemma {:induction false} OneReportPerRequest(states: seq<Ledger>, events: seq<Event>, k: Key, i: nat)
    requires Run(states, events) && i <= |events|
    ensures Accounted(states[i], k)
    ensures i < |events| && events[i].Request? && events[i].k in states[i].rounds ==> states[i + 1] == states[i]
  {
    if i > 0 {
      OneReportPerRequest(states, events, k, i - 1);
      assert Enabled(states[i - 1], events[i - 1]);
      EventKeepsAccount(states[i - 1], events[i - 1], k);
    }
    if i < |events| {
      assert states[i + 1] == Apply(states[i], events[i]);
    }
  }

  // ----- the manager's own tables

  /** The manager's mutable tables. `stages` is the position of each round's goroutine. */
  class Manager {
    var inflight: set<Key>
    var localClaims: map<string, bool>
    var stages: map<Key, Stage>
    var accepted: seq<Key>
    var reports: seq<(Key, Outcome)>

    ghost predicate Valid() reads this {
      stages.Keys == inflight && forall c | c in localClaims :: localClaims[c]
    }

    ghost function Value(): Ledger reads this {
      Ledger(stages, localClaims.Keys, accepted, reports)
    }

    constructor ()
      ensures Valid() && Value() == EMPTY
    {
      inflight, localClaims, stages, accepted, reports := {}, map[], map[], [], [];
    }

    method HandleRequest(k: Key, env: Environment) returns (refusal: Option<Refusal>)
      requires Valid()
      modifies this
      ensures Valid() && Value() == Apply(old(Value()), Request(k, env))
      ensures refusal == Refused(env, k in old(inflight))
      ensures refusal.None? ==> k in inflight
    {
      if !env.started { return Some(NotStarted); }
      if !env.wired { return Some(MissingDependency); }
      if !env.found { return Some(CapsuleNotFound); }
      if k in inflight { return None; }
      if !env.joined { return Some(NotJoined); }
      if !env.strategy { return Some(NoStrategy); }
      inflight := inflight + {k};
      stages := stages[k := Begun];
      accepted := accepted + [k];
      return None;
    }

    method HasLocalClaim(id: string) returns (has: bool)
      requires Valid()
      ensures has <==> id in Value().claimed
    {
      has := id in localClaims && localClaims[id];
    }

    method TryClaimCapsule(id: string) returns (ok: bool)
      requires Valid()
      modifies this`localClaims
      ensures Valid() && ok == (id !in old(Value()).claimed)
      ensures Value() == old(Value()).(claimed := old(Value()).claimed + {id})
    {
      if id in localClaims && localClaims[id] { return false; }
      localClaims := localClaims[id := true];
      return true;
    }

    method ReleaseCapsuleClaim(id: string)
      requires Valid()
      modifies this`localClaims
      ensures Valid() && Value() == old(Value()).(claimed := old(Value()).claimed - {id})
    {
      localClaims := localClaims - {id};
    }

    /** The check before the wait: an ineligible node, or one that already claimed the capsule, steps aside. */
    method DecideRound(k: Key, eligible: bool)
      requires Valid() && Enabled(Value(), Decide(k, eligible))
      modifies this
      ensures Valid() && Value() == Apply(old(Value()), Decide(k, eligible))
    {
      var has := HasLocalClaim(k.capsule);
      stages := stages[k := if eligible && !has then Pending else Aside];
    }

    method Claim(k: Key)
      requires Valid() && Enabled(Value(), TryClaim(k))
      modifies this
      ensures Valid() && Value() == Apply(old(Value()), TryClaim(k))
    {
      var ok := TryClaimCapsule(k.capsule);
      stages := stages[k := if ok then Holding else Aside];
    }

    method Surrender(k: Key, failed: bool)
      requires Valid() && Enabled(Value(), Release(k, failed))
      modifies this
      ensures Valid() && Value() == Apply(old(Value()), Release(k, failed))
    {
      ReleaseCapsuleClaim(k.capsule);
      stages := stages[k := Released(failed)];
    }

    method ReportOutcome(k: Key, o: Outcome)
      requires Valid() && k in stages
      modifies this
      ensures Valid() && Value() == Report(old(Value()), k, o)
    {
      if o == Failed {
        ReleaseCapsuleClaim(k.capsule);
      }
      reports := reports + [(k, o)];
      stages := stages[k := Reported];
    }

    method RemoveInflight(k: Key)
      requires Valid() && Enabled(Value(), Finish(k))
      modifies this
      ensures Valid() && Value() == Apply(old(Value()), Finish(k)) && k !in inflight
    {
      inflight := inflight - {k};
      stages := stages - {k};
    }

    method ForgetCapsule(id: string)
      requires Valid()
      modifies this`localClaims
      ensures Valid() && Value() == Apply(old(Value()), Forget(id))
    {
      ReleaseCapsuleClaim(id);
    }
  }
}
