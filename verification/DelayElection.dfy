/**
  The delay strategy inside an election: gravity scores of the candidates' nodes become the decisions that the network
  model of the election runs on (election/delay/strategy.go `Decide`, election/manager.go `runElection`).
 */
module DelayElection {
  import opened Claims
  import opened ElectionProtocol
  import opened ElectionSafety
  import opened ElectionOutcome
  import opened ElectionLimits
  import opened ElectionTies
  import P = Placement
  import G = Gravity
  import L = GravityLaws
  import D = Delay
  import Decimal
  import Reals

  /** What each candidate knows when it decides, and the jitter it draws. */
  datatype Setup = Setup(
    strategy: D.Strategy,
    weights: G.Weights,
    capsule: P.Capsule,
    replicaId: string,
    node: NodeId -> P.Node,
    lookup: NodeId -> P.Lookup,
    snapshots: NodeId -> G.Snapshots,
    jitter: NodeId -> int)

  function ScoreOf(s: Setup, n: NodeId): real {
    G.Score(s.weights, s.capsule, s.node(n), s.lookup(n), s.snapshots(n))
  }

  function Decide(s: Setup, n: NodeId, now: int): Decision {
    if !P.Eligible(s.capsule, s.node(n), s.lookup(n)) then Decision(false, 0.0, 0)
    else Decision(true, ScoreOf(s, n), now + D.Wait(s.strategy, ScoreOf(s, n), s.replicaId, s.jitter(n)))
  }

  /** Every node decides by the delay strategy as its round starts. */
  ghost predicate Scheduled(c: Config, s: Setup) {
    forall n | n in c.nodes ::
      D.IsJitter(s.jitter(n), s.strategy.maxJitter) && c.decision(n) == Decide(s, n, c.start(n))
  }

  lemma PlansWithin(c: Config, s: Setup, n: NodeId)
    requires Scheduled(c, s) && D.Sane(s.strategy) && D.Longest(s.strategy, s.replicaId) <= Decimal.MAX_INT64
    requires n in c.nodes && c.decision(n).eligible
    ensures c.start(n) <= c.decision(n).publishAt <= c.start(n) + D.Longest(s.strategy, s.replicaId)
  {
    D.WaitIsExact(s.strategy, ScoreOf(s, n), s.replicaId, s.jitter(n));
  }

  /** The delay strategy never plans a claim in the past. */
  lemma DelayIsPunctual(c: Config, s: Setup)
    requires Scheduled(c, s) && D.Sane(s.strategy) && D.Longest(s.strategy, s.replicaId) <= Decimal.MAX_INT64
    ensures TiesPunctual(c)
  {
    forall n | n in c.nodes && c.decision(n).eligible
      ensures c.start(n) <= c.decision(n).publishAt
    {
      PlansWithin(c, s, n);
    }
  }

  lemma ScoreRange(s: Setup, n: NodeId)
    ensures 0.0 <= ScoreOf(s, n) <= 100.0
  {
  }

  /** Of two eligible nodes, the fitter one plans its claim first, whatever the jitter, when it starts no later and the wait
      that the difference of their scores is worth covers the jitter. */
  lemma FitterNodePlansFirst(c: Config, s: Setup, a: NodeId, b: NodeId)
    requires Scheduled(c, s) && D.Sane(s.strategy) && D.Longest(s.strategy, s.replicaId) <= Decimal.MAX_INT64
    requires a in c.nodes && b in c.nodes && MayHost(s, a) && MayHost(s, b) && c.start(a) <= c.start(b)
    requires ScoreOf(s, b) <= ScoreOf(s, a) && 0 < s.strategy.maxJitter
    requires Reals.Times((ScoreOf(s, a) - ScoreOf(s, b)) / 100.0, s.strategy.maxWait as real) >= s.strategy.maxJitter as real
    ensures c.decision(a).eligible && c.decision(b).eligible && c.decision(a).publishAt < c.decision(b).publishAt
  {
    ScoreRange(s, a);
    ScoreRange(s, b);
    D.GapDecides(s.strategy, s.replicaId, ScoreOf(s, a), ScoreOf(s, b));
  }

  /** Elections run by the delay strategy have at most one winner when publishers of equal score stamp on time, as they
      do when no stamp is late, or plan further apart than a stamp can be late. */
  lemma DelayElectionIsSafe(c: Config, s: Setup, t0: int, steps: seq<Step>, a: NodeId, b: NodeId)
    requires Timely(c) && Scheduled(c, s) && D.Sane(s.strategy)
    requires D.Longest(s.strategy, s.replicaId) <= Decimal.MAX_INT64
    requires (forall n | n in c.nodes :: t0 <= c.start(n)) && a in c.nodes && b in c.nodes
    requires After(c, t0, steps).Some? && !After(c, t0, steps).value.overflowed
    requires TiesOnTime(c, After(c, t0, steps).value.rounds) || c.lateness == 0 || TiesApart(c, c.lateness + 1000)
    ensures var rounds := After(c, t0, steps).value.rounds;
            a in rounds && b in rounds && (rounds[a].phase == Won && rounds[b].phase == Won ==> a == b)
  {
    DelayIsPunctual(c, s);
    if TiesOnTime(c, After(c, t0, steps).value.rounds) {
      SingleWinner(c, t0, steps, a, b);
    } else if c.lateness == 0 {
      RunKeepsInv(c, t0, steps);
      PunctualIsOnTime(c, After(c, t0, steps).value);
      SingleWinner(c, t0, steps, a, b);
    } else {
      ApartIsSpaced(c, c.lateness + 1000);
      SpacedTiesAreSafe(c, t0, steps, a, b);
    }
  }

  // ----- ties and late stamps

  ghost predicate MayHost(s: Setup, n: NodeId) { P.Eligible(s.capsule, s.node(n), s.lookup(n)) }

  /** Any two nodes that may host the capsule have different scores. */
  ghost predicate Untied(s: Setup, nodes: set<NodeId>) {
    forall a, b | a in nodes && b in nodes && a != b && MayHost(s, a) && MayHost(s, b) :: ScoreOf(s, a) != ScoreOf(s, b)
  }

  /** The election of the given nodes, with the given starts, decided by the delay strategy. */
  function Held(s: Setup, nodes: set<NodeId>, start: NodeId -> int, p: Bounds, timeout: int): Config {
    Config(nodes, start, n => Decide(s, n, start(n)), p.delay, p.window, p.publishing, p.lateness, timeout, p.ttl, 16)
  }

  ghost predicate JitterIsFair(s: Setup, jitter: NodeId -> int) {
    forall n :: D.IsJitter(jitter(n), s.strategy.maxJitter)
  }

  ghost predicate StartsWithin(nodes: set<NodeId>, start: NodeId -> int, skew: int) {
    forall a, b | a in nodes && b in nodes :: start(b) - start(a) <= skew
  }

  /** With these starts no draw of jitter and no schedule gives two winners. */
  ghost predicate SafeFrom(s: Setup, nodes: set<NodeId>, start: NodeId -> int, p: Bounds, timeout: int) {
    forall jitter: NodeId -> int, t0: int, steps: seq<Step> | JitterIsFair(s, jitter) ::
      !TwoWinners(Held(s.(jitter := jitter), nodes, start, p, timeout), t0, steps)
  }

  /** No starts within the skew do. */
  ghost predicate SafeFromAllStarts(s: Setup, nodes: set<NodeId>, p: Bounds, timeout: int) {
    forall start: NodeId -> int | StartsWithin(nodes, start, p.skew) :: SafeFrom(s, nodes, start, p, timeout)
  }

  /** The bounds suffice, stamps can be late, and the longest wait and lateness stay within the timeout. */
  ghost predicate LateButSound(s: Setup, p: Bounds, timeout: int) {
    && Possible(p) && Sufficient(p) && 0 < p.lateness && D.Sane(s.strategy)
    && D.Longest(s.strategy, s.replicaId) + p.lateness <= timeout && timeout <= Decimal.MAX_INT64
  }

  /** Two nodes of equal score that plan the same instant, with a late stamp on the microsecond, can both win. */
  lemma EqualScoresCanBothWin(s: Setup, nodes: set<NodeId>, a: NodeId, b: NodeId, x: int, j: int, p: Bounds, timeout: int)
    returns (steps: seq<Step>)
    requires LateButSound(s, p, timeout) && a in nodes && b in nodes && LexLess(b, a) && a != b
    requires MayHost(s, a) && MayHost(s, b) && ScoreOf(s, a) == ScoreOf(s, b)
    requires 0 <= x && D.IsJitter(j, s.strategy.maxJitter)
    requires (x + D.Wait(s.strategy, ScoreOf(s, a), s.replicaId, j) + p.lateness) % 1000 == 0
    ensures TwoWinners(Held(s.(jitter := n => j), nodes, n => x, p, timeout), 0, steps)
  {
    var wait := D.Wait(s.strategy, ScoreOf(s, a), s.replicaId, j);
    WaitWithin(s, ScoreOf(s, a), j);
    var c := Held(s.(jitter := n => j), nodes, n => x, p, timeout);
    SamePlans(s, nodes, a, b, x, j, p, timeout);
    steps := LateTieRun(c, a, b, x, x + wait + p.lateness);
  }

  lemma WaitWithin(s: Setup, score: real, j: int)
    requires D.Sane(s.strategy) && D.IsJitter(j, s.strategy.maxJitter)
    requires D.Longest(s.strategy, s.replicaId) <= Decimal.MAX_INT64
    ensures 0 <= D.Wait(s.strategy, score, s.replicaId, j) <= D.Longest(s.strategy, s.replicaId)
  {
    D.WaitIsExact(s.strategy, score, s.replicaId, j);
  }

  lemma SamePlans(s: Setup, nodes: set<NodeId>, a: NodeId, b: NodeId, x: int, j: int, p: Bounds, timeout: int)
    requires a in nodes && b in nodes && a != b && MayHost(s, a) && MayHost(s, b) && ScoreOf(s, a) == ScoreOf(s, b)
    ensures var c := Held(s.(jitter := n => j), nodes, n => x, p, timeout);
            var plan := x + D.Wait(s.strategy, ScoreOf(s, a), s.replicaId, j);
            && c.decision(a) == Decision(true, ScoreOf(s, a), plan) == c.decision(b) && Tied(c, a, b)
            && c.start(a) == c.start(b) == x
  {
  }

  /** A tie comes with its nodes in the order of the tiebreak. */
  lemma TiedPair(s: Setup, nodes: set<NodeId>) returns (a: NodeId, b: NodeId)
    requires !Untied(s, nodes)
    ensures a in nodes && b in nodes && LexLess(b, a) && a != b
    ensures MayHost(s, a) && MayHost(s, b) && ScoreOf(s, a) == ScoreOf(s, b)
  {
    a, b :| a in nodes && b in nodes && a != b && MayHost(s, a) && MayHost(s, b) && ScoreOf(s, a) == ScoreOf(s, b);
    LexTotal(a, b);
    if !LexLess(b, a) {
      a, b := b, a;
    }
  }

  lemma UntiedIsSafe(s: Setup, nodes: set<NodeId>, start: NodeId -> int, p: Bounds, timeout: int, t0: int,
                     steps: seq<Step>)
    requires Possible(p) && Sufficient(p) && 0 <= timeout && Untied(s, nodes) && StartsWithin(nodes, start, p.skew)
    ensures !TwoWinners(Held(s, nodes, start, p, timeout), t0, steps)
  {
    var c := Held(s, nodes, start, p, timeout);
    HeldHasBounds(s, nodes, start, p, timeout);
    HeldHasNoTies(s, nodes, start, p, timeout);
    BoundsSuffice(c, t0, steps, p);
  }

  lemma HeldHasBounds(s: Setup, nodes: set<NodeId>, start: NodeId -> int, p: Bounds, timeout: int)
    requires 0 <= timeout && StartsWithin(nodes, start, p.skew)
    ensures HasBounds(Held(s, nodes, start, p, timeout), p)
  {
  }

  lemma HeldHasNoTies(s: Setup, nodes: set<NodeId>, start: NodeId -> int, p: Bounds, timeout: int)
    requires Untied(s, nodes)
    ensures NoTies(Held(s, nodes, start, p, timeout))
  {
    var c := Held(s, nodes, start, p, timeout);
    forall a, b | a in nodes && b in nodes && a != b ensures !Tied(c, a, b) {
      assert c.decision(a).eligible == MayHost(s, a) && c.decision(b).eligible == MayHost(s, b);
    }
  }

  lemma UntiedIsSafeFrom(s: Setup, nodes: set<NodeId>, start: NodeId -> int, p: Bounds, timeout: int)
    requires Possible(p) && Sufficient(p) && 0 <= timeout && Untied(s, nodes) && StartsWithin(nodes, start, p.skew)
    ensures SafeFrom(s, nodes, start, p, timeout)
  {
    forall jitter: NodeId -> int, t0: int, steps: seq<Step>
      ensures !TwoWinners(Held(s.(jitter := jitter), nodes, start, p, timeout), t0, steps)
    {
      SameScores(s, nodes, jitter);
      UntiedIsSafe(s.(jitter := jitter), nodes, start, p, timeout, t0, steps);
    }
  }

  lemma SameScores(s: Setup, nodes: set<NodeId>, jitter: NodeId -> int)
    ensures Untied(s.(jitter := jitter), nodes) <==> Untied(s, nodes)
  {
    var t := s.(jitter := jitter);
    assert forall n :: ScoreOf(t, n) == ScoreOf(s, n) && MayHost(t, n) == MayHost(s, n);
  }

  lemma FillsUp(x: int)
    ensures ((-x) % 1000 + x) % 1000 == 0 && 0 <= (-x) % 1000 < 1000
  {
  }

  lemma TiedIsUnsafe(s: Setup, nodes: set<NodeId>, p: Bounds, timeout: int)
    requires LateButSound(s, p, timeout) && !Untied(s, nodes)
    ensures !SafeFromAllStarts(s, nodes, p, timeout)
  {
    var a, b := TiedPair(s, nodes);
    var wait := D.Wait(s.strategy, ScoreOf(s, a), s.replicaId, 0);
    var x := (-(wait + p.lateness)) % 1000;
    FillsUp(wait + p.lateness);
    var steps := EqualScoresCanBothWin(s, nodes, a, b, x, 0, p, timeout);
    UnsafeFrom(s, nodes, n => x, p, timeout, n => 0, steps);
    assert StartsWithin(nodes, n => x, p.skew);
  }

  /** Where stamps can be late at all, any set of nodes elects at most one winner under all starts, jitter and schedules
      if and only if the scores of the nodes that may host the capsule differ pairwise. */
  lemma SafeIffUntied(s: Setup, nodes: set<NodeId>, p: Bounds, timeout: int)
    requires LateButSound(s, p, timeout)
    ensures SafeFromAllStarts(s, nodes, p, timeout) <==> Untied(s, nodes)
  {
    D.WaitIsExact(s.strategy, 0.0, s.replicaId, 0);
    if Untied(s, nodes) {
      forall start: NodeId -> int | StartsWithin(nodes, start, p.skew) ensures SafeFrom(s, nodes, start, p, timeout) {
        UntiedIsSafeFrom(s, nodes, start, p, timeout);
      }
    } else {
      TiedIsUnsafe(s, nodes, p, timeout);
    }
  }

  lemma UnsafeFrom(s: Setup, nodes: set<NodeId>, start: NodeId -> int, p: Bounds, timeout: int, jitter: NodeId -> int,
                   steps: seq<Step>)
    requires JitterIsFair(s, jitter) && TwoWinners(Held(s.(jitter := jitter), nodes, start, p, timeout), 0, steps)
    ensures !SafeFrom(s, nodes, start, p, timeout)
  {
  }

  /** A jitter that puts the latest stamp on the microsecond. */
  lemma AlignedJitter(s: Setup, score: real, x: int, lateness: int) returns (j: int)
    requires D.Sane(s.strategy) && D.Longest(s.strategy, s.replicaId) <= Decimal.MAX_INT64
    requires 1000 <= s.strategy.maxJitter
    ensures D.IsJitter(j, s.strategy.maxJitter)
    ensures (x + D.Wait(s.strategy, score, s.replicaId, j) + lateness) % 1000 == 0
  {
    var wait := D.Wait(s.strategy, score, s.replicaId, 0);
    FillsUp(x + wait + lateness);
    j := (-(x + wait + lateness)) % 1000;
    D.WaitIsExact(s.strategy, score, s.replicaId, 0);
    D.WaitIsExact(s.strategy, score, s.replicaId, j);
  }

  lemma TiedTogetherIsUnsafe(s: Setup, nodes: set<NodeId>, x: int, p: Bounds, timeout: int)
    requires LateButSound(s, p, timeout) && 0 <= x && 1000 <= s.strategy.maxJitter && !Untied(s, nodes)
    ensures !SafeFrom(s, nodes, n => x, p, timeout)
  {
    var a, b := TiedPair(s, nodes);
    var j := AlignedJitter(s, ScoreOf(s, a), x, p.lateness);
    var steps := EqualScoresCanBothWin(s, nodes, a, b, x, j, p, timeout);
    UnsafeFrom(s, nodes, n => x, p, timeout, n => j, steps);
  }

  /** For nodes that start together the same holds of each instant they may start at, once the jitter spans more than a
      microsecond. */
  lemma SafeTogetherIffUntied(s: Setup, nodes: set<NodeId>, x: int, p: Bounds, timeout: int)
    requires LateButSound(s, p, timeout) && 0 <= x && 1000 <= s.strategy.maxJitter
    ensures SafeFrom(s, nodes, n => x, p, timeout) <==> Untied(s, nodes)
  {
    D.WaitIsExact(s.strategy, 0.0, s.replicaId, 0);
    if Untied(s, nodes) {
      UntiedIsSafeFrom(s, nodes, n => x, p, timeout);
    } else {
      TiedTogetherIsUnsafe(s, nodes, x, p, timeout);
    }
  }

  /** Tied nodes whose starts are further apart than jitter, lateness and a microsecond are safe all the same. */
  lemma FarStartsAreSafe(c: Config, s: Setup, t0: int, steps: seq<Step>, a: NodeId, b: NodeId)
    requires Timely(c) && Scheduled(c, s) && D.Sane(s.strategy)
    requires D.Longest(s.strategy, s.replicaId) <= Decimal.MAX_INT64
    requires (forall n | n in c.nodes :: t0 <= c.start(n)) && a in c.nodes && b in c.nodes
    requires After(c, t0, steps).Some? && !After(c, t0, steps).value.overflowed
    requires forall m, n | m in c.nodes && n in c.nodes && Tied(c, m, n) ::
      var far := s.strategy.maxJitter + c.lateness + 1000;
      c.start(m) + far <= c.start(n) || c.start(n) + far <= c.start(m)
    ensures var rounds := After(c, t0, steps).value.rounds;
            a in rounds && b in rounds && (rounds[a].phase == Won && rounds[b].phase == Won ==> a == b)
  {
    forall m, n | m in c.nodes && n in c.nodes && Tied(c, m, n)
      ensures var gap := c.lateness + 1000;
              || c.decision(m).publishAt + gap <= c.decision(n).publishAt
              || c.decision(n).publishAt + gap <= c.decision(m).publishAt
    {
      FarPlans(c, s, m, n);
    }
    DelayElectionIsSafe(c, s, t0, steps, a, b);
  }

  lemma FarPlans(c: Config, s: Setup, m: NodeId, n: NodeId)
    requires Scheduled(c, s) && D.Sane(s.strategy) && D.Longest(s.strategy, s.replicaId) <= Decimal.MAX_INT64
    requires m in c.nodes && n in c.nodes && Tied(c, m, n)
    ensures var difference := (c.decision(m).publishAt - c.start(m)) - (c.decision(n).publishAt - c.start(n));
            -s.strategy.maxJitter <= difference <= s.strategy.maxJitter
  {
    D.WaitIsExact(s.strategy, ScoreOf(s, m), s.replicaId, s.jitter(m));
    D.WaitIsExact(s.strategy, ScoreOf(s, n), s.replicaId, s.jitter(n));
  }

  // ----- the fittest node wins

  /** `best` may host the capsule and has the highest gravity of all nodes that may. */
  ghost predicate Fittest(c: Config, s: Setup, best: NodeId) {
    && best in c.nodes && P.Eligible(s.capsule, s.node(best), s.lookup(best))
    && (forall n | n in c.nodes && n != best && P.Eligible(s.capsule, s.node(n), s.lookup(n)) ::
          ScoreOf(s, n) < ScoreOf(s, best))
  }

  /** The longest wait is below the election timeout, and the favourite's claim reaches the nodes that may not host the
      capsule before they give up. */
  ghost predicate Roomy(c: Config, s: Setup, best: NodeId) {
    && D.Longest(s.strategy, s.replicaId) < c.timeout
    && (forall n | n in c.nodes && !P.Eligible(s.capsule, s.node(n), s.lookup(n)) ::
          c.start(best) + D.Longest(s.strategy, s.replicaId) + c.lateness + c.delay < c.start(n) + c.timeout)
  }

  lemma RoomyIsAmple(c: Config, s: Setup, best: NodeId)
    requires Timely(c) && Scheduled(c, s) && D.Sane(s.strategy) && Fittest(c, s, best) && Roomy(c, s, best)
    requires D.Longest(s.strategy, s.replicaId) <= Decimal.MAX_INT64
    ensures Favourite(c, best) && AmpleTime(c, best)
  {
    forall n | n in c.nodes && c.decision(n).eligible
      ensures c.decision(n).publishAt < c.start(n) + c.timeout
    {
      PlansWithin(c, s, n);
    }
    PlansWithin(c, s, best);
  }

  /** In every undisturbed run the fittest node wins, every other node loses, and all know it by their time bound. */
  lemma FittestNodeWins(c: Config, s: Setup, t0: int, steps: seq<Step>, best: NodeId, n: NodeId)
    requires Timely(c) && Scheduled(c, s) && D.Sane(s.strategy) && Fittest(c, s, best) && Roomy(c, s, best)
    requires n in c.nodes
    requires D.Longest(s.strategy, s.replicaId) <= Decimal.MAX_INT64
    requires (forall k | k in c.nodes :: t0 <= c.start(k)) && (forall x | x in steps :: Undisturbed(x))
    requires After(c, t0, steps).Some? && !After(c, t0, steps).value.overflowed
    ensures var state := After(c, t0, steps).value;
            && n in state.rounds && !state.rounds[n].phase.Failed?
            && (IsDone(state.rounds[n].phase) ==>
                  if n == best then state.rounds[n].phase.Won? else state.rounds[n].phase.Lost?)
            && (state.now > VerdictBy(c, n) ==> IsDone(state.rounds[n].phase))
  {
    RoomyIsAmple(c, s, best);
    ExactlyTheFavouriteWins(c, t0, steps, best, n);
  }

  /** More matches, free resources, snapshots or reliability and fewer capsules never make a node ineligible, never lower
      its score and never lengthen its base wait. */
  lemma BetterNodeNeverWaitsLonger(s: Setup, node: P.Node, better: P.Node, lookup: P.Lookup, snapshots: G.Snapshots,
                                   more: G.Snapshots)
    requires L.NonNegative(s.weights) && L.Improves(s.capsule, lookup, node, better) && L.HoldsMore(snapshots, more)
    requires 0 <= s.strategy.maxWait
    requires P.Eligible(s.capsule, node, lookup)
    ensures P.Eligible(s.capsule, better, lookup)
    ensures G.Score(s.weights, s.capsule, node, lookup, snapshots)
         <= G.Score(s.weights, s.capsule, better, lookup, more)
    ensures D.WaitForScore(G.Score(s.weights, s.capsule, better, lookup, more), s.strategy.maxWait)
         <= D.WaitForScore(G.Score(s.weights, s.capsule, node, lookup, snapshots), s.strategy.maxWait)
  {
    L.BetterNodeScoresHigher(s.weights, s.capsule, node, better, lookup, snapshots, more);
    D.BaseWaitMonotone(G.Score(s.weights, s.capsule, node, lookup, snapshots),
                       G.Score(s.weights, s.capsule, better, lookup, more), s.strategy.maxWait);
  }

  /** Two nodes with the default settings, of which only the first is healthy. */
  function SampleSetup(first: NodeId): Setup {
    var active := P.Node(P.Place(first, "prod", "dc1", map[]), P.Resources(0, 0, 0, 0, 0, 0), P.Active, 1.0, 0);
    Setup(D.DEFAULT_STRATEGY, G.DEFAULT_WEIGHTS,
          P.Capsule("c", "web", "img", "", map[], P.Demand(0, 0, 0), 1, 0, []), Decimal.Show(0),
          n => if n == first then active else active.(status := P.Failed),
          n => P.NoLookup, n => G.NoSnapshots, n => 0)
  }

  function SampleConfig(s: Setup, a: NodeId, b: NodeId): Config {
    Config({a, b}, n => 0, n => Decide(s, n, 0), D.MILLISECOND, 300 * D.MILLISECOND, 100 * D.MILLISECOND,
           D.MILLISECOND, D.ELECTION_TIMEOUT, 3_000 * D.MILLISECOND, 16)
  }

  /** The assumptions of the two theorems can be met. */
  lemma AssumptionsAreMet(a: NodeId, b: NodeId) returns (c: Config, s: Setup)
    requires a != b
    ensures c.nodes == {a, b} && Timely(c) && Scheduled(c, s) && D.Sane(s.strategy) && Fittest(c, s, a) && Roomy(c, s, a)
    ensures D.Longest(s.strategy, s.replicaId) <= Decimal.MAX_INT64
  {
    s := SampleSetup(a);
    c := SampleConfig(s, a, b);
    D.SlotOfNumeral(0);
    assert D.Longest(s.strategy, s.replicaId) == 500_199_999;
  }

  /** Two healthy nodes of equal score, with the default strategy, window, TTL and timeout and a lateness of one
      nanosecond, can both win. */
  lemma TiesExist(a: NodeId, b: NodeId) returns (s: Setup, p: Bounds)
    requires a != b
    ensures s.strategy == D.DEFAULT_STRATEGY && LateButSound(s, p, D.ELECTION_TIMEOUT) && !Untied(s, {a, b})
    ensures !SafeFromAllStarts(s, {a, b}, p, D.ELECTION_TIMEOUT)
  {
    var sample := SampleSetup(a);
    var healthy := sample.node(a);
    s := sample.(node := n => healthy);
    p := Bounds(D.MILLISECOND, 300 * D.MILLISECOND, 100 * D.MILLISECOND, 1, 3_000 * D.MILLISECOND, 0);
    D.SlotOfNumeral(0);
    assert D.Longest(s.strategy, s.replicaId) == 500_199_999;
    assert MayHost(s, a) && MayHost(s, b) && ScoreOf(s, a) == ScoreOf(s, b);
    SafeIffUntied(s, {a, b}, p, D.ELECTION_TIMEOUT);
  }
}
