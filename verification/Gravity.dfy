/**
  The gravity score of a node for a capsule (election/gravity/factors.go, gravity.go, weights.go), over the reals.
 */
module Gravity {
  import opened Placement
  import opened Reals

  /** A factor takes part in the score with a value in [0, 1], or does not take part. */
  datatype Contribution = NotApplicable | Applied(value: real)

  datatype Snapshots = NoSnapshots | Snapshots(has: (string, string) -> bool)

  datatype Weights = Weights(cpu: real, memory: real, disk: real, soft: real, affinity: real, hardware: real,
                             load: real, reliability: real, diversity: real, snapshot: real)

  const DEFAULT_WEIGHTS := Weights(1.0, 1.0, 0.5, 0.3, 0.8, 0.2, 0.5, 0.4, 0.2, 0.6)

  const SOFT_CAP := 50.0

  function Clamp(v: real): (r: real)
    ensures 0.0 <= r <= 1.0
  {
    if v < 0.0 then 0.0 else if v > 1.0 then 1.0 else v
  }

  function Apply(v: real): Contribution { Applied(Clamp(v)) }

  // ----- factors

  function Headroom(demand: int, total: int, free: int): Contribution {
    if demand <= 0 || total <= 0 then NotApplicable
    else if free - demand < 0 then Apply(0.0)
    else Apply((free - demand) as real / total as real)
  }

  function Load(running: int): real {
    var utilization := running as real / SOFT_CAP;
    Clamp(1.0 - if utilization > 1.0 then 1.0 else utilization)
  }

  function Diversity(c: Capsule, place: Place): Contribution {
    if c.minReplicas < 2 && c.exactReplicas < 2 then NotApplicable
    else if place.datacenter == "" then Apply(0.0)
    else Apply(1.0)
  }

  function SnapshotLocality(c: Capsule, snapshots: Snapshots): Contribution {
    if snapshots.NoSnapshots? then NotApplicable
    else if snapshots.has(c.id, if c.digest == "" then c.image else c.digest) then Apply(1.0)
    else Apply(0.0)
  }

  function Fraction(part: nat, whole: nat): Contribution {
    if whole == 0 then NotApplicable else Apply(part as real / whole as real)
  }

  function SoftRules(rules: seq<Rule>): seq<Rule> {
    if rules == [] then []
    else
      var rest, last := SoftRules(rules[..|rules| - 1]), rules[|rules| - 1];
      if last.required then rest else rest + [last]
  }

  function NearRules(rules: seq<Rule>): seq<Rule> {
    if rules == [] then []
    else
      var rest, last := NearRules(rules[..|rules| - 1]), rules[|rules| - 1];
      if last.kind.OnCapsule? && last.mode.Near? then rest + [last] else rest
  }

  function CountSatisfied(rules: seq<Rule>, place: Place, lookup: Lookup): nat {
    if rules == [] then 0
    else
      CountSatisfied(rules[..|rules| - 1], place, lookup)
      + if Satisfies(rules[|rules| - 1], place, lookup) then 1 else 0
  }

  /** The fraction of soft rules that hold. */
  function SoftPlacement(c: Capsule, place: Place, lookup: Lookup): Contribution {
    Fraction(CountSatisfied(SoftRules(c.rules), place, lookup), |SoftRules(c.rules)|)
  }

  /** The fraction of `near` rules that hold, when the lookup is there. */
  function Affinity(c: Capsule, place: Place, lookup: Lookup): Contribution {
    if lookup.NoLookup? then NotApplicable
    else Fraction(CountSatisfied(NearRules(c.rules), place, lookup), |NearRules(c.rules)|)
  }

  function SharedLabels(wanted: Labels, labels: Labels): set<string> {
    set k | k in wanted && k in labels && labels[k] == wanted[k]
  }

  function LabelMatch(c: Capsule, place: Place): Contribution {
    Fraction(|SharedLabels(c.labels, place.labels)|, |c.labels|)
  }

  // ----- the counting loops

  lemma CountOneMore(rules: seq<Rule>, r: Rule, place: Place, lookup: Lookup)
    ensures CountSatisfied(rules + [r], place, lookup)
         == CountSatisfied(rules, place, lookup) + if Satisfies(r, place, lookup) then 1 else 0
  {
    assert (rules + [r])[..|rules|] == rules;
  }

  method CountSoft(c: Capsule, place: Place, lookup: Lookup) returns (r: Contribution)
    ensures r == SoftPlacement(c, place, lookup)
  {
    var total, matched := 0, 0;
    for i := 0 to |c.rules|
      invariant total == |SoftRules(c.rules[..i])|
      invariant matched == CountSatisfied(SoftRules(c.rules[..i]), place, lookup)
    {
      assert c.rules[..i + 1][..i] == c.rules[..i];
      if !c.rules[i].required {
        CountOneMore(SoftRules(c.rules[..i]), c.rules[i], place, lookup);
        total := total + 1;
        var ok := RuleMatchesNode(c.rules[i], place, lookup);
        if ok {
          matched := matched + 1;
        }
      }
    }
    assert c.rules[..|c.rules|] == c.rules;
    r := Fraction(matched, total);
  }

  method RunsOneOf(lookup: Lookup, place: Place, names: seq<string>) returns (found: bool)
    requires lookup.Lookup?
    ensures found <==> RunsAny(lookup, place, names)
  {
    for i := 0 to |names|
      invariant forall j | 0 <= j < i :: !Runs(lookup, place, names[j])
    {
      if place.id in lookup.runners(place.cluster, names[i]) {
        assert Runs(lookup, place, names[i]);
        return true;
      }
    }
    return false;
  }

  method CountAffinity(c: Capsule, place: Place, lookup: Lookup) returns (r: Contribution)
    ensures r == Affinity(c, place, lookup)
  {
    if lookup.NoLookup? {
      return NotApplicable;
    }
    var total, satisfied := 0, 0;
    for i := 0 to |c.rules|
      invariant total == |NearRules(c.rules[..i])|
      invariant satisfied == CountSatisfied(NearRules(c.rules[..i]), place, lookup)
    {
      assert c.rules[..i + 1][..i] == c.rules[..i];
      if c.rules[i].kind.OnCapsule? && c.rules[i].mode.Near? {
        CountOneMore(NearRules(c.rules[..i]), c.rules[i], place, lookup);
        total := total + 1;
        var found := RunsOneOf(lookup, place, c.rules[i].names);
        if found {
          satisfied := satisfied + 1;
        }
      }
    }
    assert c.rules[..|c.rules|] == c.rules;
    r := Fraction(satisfied, total);
  }

  method CountLabels(c: Capsule, place: Place) returns (r: Contribution)
    ensures r == LabelMatch(c, place)
  {
    if |c.labels| == 0 {
      return NotApplicable;
    }
    var matched := 0;
    ghost var counted := {};
    var left := c.labels.Keys;
    while left != {}
      invariant left <= c.labels.Keys
      invariant counted == SharedLabels(c.labels, place.labels) - left
      invariant matched == |counted|
      decreases left
    {
      var k :| k in left;
      if k in place.labels && place.labels[k] == c.labels[k] {
        matched := matched + 1;
        counted := counted + {k};
      }
      left := left - {k};
    }
    assert counted == SharedLabels(c.labels, place.labels);
    r := Fraction(matched, |c.labels|);
  }

  // ----- the weighted sum

  datatype Part = Part(name: string, contribution: Contribution, weight: real)

  /** The factors that add to the score, in the order in which they are added. */
  function Parts(w: Weights, c: Capsule, node: Node, lookup: Lookup, snapshots: Snapshots): seq<Part> {
    var r := node.resources;
    [Part("cpu_headroom", Headroom(c.demand.cpu, r.cpuTotal, r.cpuFree), w.cpu),
     Part("memory_headroom", Headroom(c.demand.memory, r.memoryTotal, r.memoryFree), w.memory),
     Part("disk_headroom", Headroom(c.demand.disk, r.diskTotal, r.diskFree), w.disk),
     Part("soft_placement_match", SoftPlacement(c, node.place, lookup), w.soft),
     Part("affinity_proximity", Affinity(c, node.place, lookup), w.affinity),
     Part("hardware_label_match", LabelMatch(c, node.place), w.hardware),
     Part("reliability", Apply(node.reliability), w.reliability),
     Part("diversity", Diversity(c, node.place), w.diversity),
     Part("snapshot_locality", SnapshotLocality(c, snapshots), w.snapshot)]
  }

  function Weighed(p: Part): real { if p.contribution.Applied? then Times(p.contribution.value, p.weight) else 0.0 }

  function Allowed(p: Part): real { if p.contribution.Applied? then p.weight else 0.0 }

  /** The weighted sum of the values that apply. */
  function Gain(parts: seq<Part>): real {
    if parts == [] then 0.0 else Gain(parts[..|parts| - 1]) + Weighed(parts[|parts| - 1])
  }

  /** The sum of the weights that apply. */
  function Room(parts: seq<Part>): real {
    if parts == [] then 0.0 else Room(parts[..|parts| - 1]) + Allowed(parts[|parts| - 1])
  }

  function Breakdown(parts: seq<Part>): map<string, real> {
    if parts == [] then map[]
    else
      var p := parts[|parts| - 1];
      var rest := Breakdown(parts[..|parts| - 1]);
      if p.contribution.Applied? then rest[p.name := p.contribution.value] else rest
  }

  function Penalty(load: real, weight: real): real { Times(1.0 - load, weight) }

  /** A share of a positive whole, in percent. */
  function Percent(sum: real, whole: real): real
    requires whole > 0.0
  {
    Clamp(sum / whole) * 100.0
  }

  function Normalized(gain: real, room: real, load: real, penalty: real): real {
    if room + penalty <= 0.0 then 50.0 else Percent(gain - Penalty(load, penalty), room + penalty)
  }

  function Score(w: Weights, c: Capsule, node: Node, lookup: Lookup, snapshots: Snapshots): real {
    var parts := Parts(w, c, node, lookup, snapshots);
    Normalized(Gain(parts), Room(parts), Load(node.running), w.load)
  }

  // ----- the calculator

  datatype Tally = Tally(gain: real, room: real, factors: map<string, real>)

  function Tallied(parts: seq<Part>): Tally { Tally(Gain(parts), Room(parts), Breakdown(parts)) }

  method AddFactor(tally: Tally, p: Part, ghost parts: seq<Part>) returns (r: Tally)
    requires tally == Tallied(parts)
    ensures r == Tallied(parts + [p])
  {
    assert (parts + [p])[..|parts|] == parts;
    if p.contribution.NotApplicable? {
      return tally;
    }
    r := Tally(tally.gain + p.contribution.value * p.weight, tally.room + p.weight,
               tally.factors[p.name := p.contribution.value]);
  }

  /** Adds the factor that comes next after `n` of them. */
  method AddNext(tally: Tally, p: Part, ghost parts: seq<Part>, ghost n: nat) returns (r: Tally)
    requires n < |parts| && p == parts[n] && tally == Tallied(parts[..n])
    ensures r == Tallied(parts[..n + 1])
  {
    assert parts[..n + 1] == parts[..n] + [p];
    r := AddFactor(tally, p, parts[..n]);
  }

  /** Subtracts the load penalty and scales to 0..100. */
  method Normalize(gain: real, room: real, load: real, penalty: real) returns (score: real)
    ensures score == Normalized(gain, room, load, penalty)
    ensures 0.0 <= score <= 100.0
  {
    var weightedSum := gain - (1.0 - load) * penalty;
    var maxWeightedSum := room + penalty;
    if maxWeightedSum <= 0.0 {
      return 50.0;
    }
    var normalized := weightedSum / maxWeightedSum;
    if normalized < 0.0 {
      normalized := 0.0;
    }
    if normalized > 1.0 {
      normalized := 1.0;
    }
    score := normalized * 100.0;
  }

  datatype Result = Result(eligible: bool, reason: Reason, score: real, factors: map<string, real>)

  class Calculator {
    const weights: Weights
    const lookup: Lookup
    const snapshots: Snapshots

    constructor (weights: Weights, lookup: Lookup, snapshots: Snapshots)
      ensures this.weights == weights && this.lookup == lookup && this.snapshots == snapshots
    {
      this.weights, this.lookup, this.snapshots := weights, lookup, snapshots;
    }

    method AddFactors(c: Capsule, node: Node) returns (t: Tally)
      ensures t == Tallied(Parts(weights, c, node, lookup, snapshots))
    {
      var r := node.resources;
      ghost var parts := Parts(weights, c, node, lookup, snapshots);
      t := Tally(0.0, 0.0, map[]);
      t := AddNext(t, Part("cpu_headroom", Headroom(c.demand.cpu, r.cpuTotal, r.cpuFree), weights.cpu), parts, 0);
      t := AddNext(t, Part("memory_headroom", Headroom(c.demand.memory, r.memoryTotal, r.memoryFree), weights.memory),
                   parts, 1);
      t := AddNext(t, Part("disk_headroom", Headroom(c.demand.disk, r.diskTotal, r.diskFree), weights.disk), parts, 2);
      t := AddMatches(c, node, t, parts);
      t := AddNext(t, Part("reliability", Apply(node.reliability), weights.reliability), parts, 6);
      t := AddNext(t, Part("diversity", Diversity(c, node.place), weights.diversity), parts, 7);
      t := AddNext(t, Part("snapshot_locality", SnapshotLocality(c, snapshots), weights.snapshot), parts, 8);
      assert parts[..9] == parts;
    }

    /** The three factors that count matches. */
    method AddMatches(c: Capsule, node: Node, tally: Tally, ghost parts: seq<Part>) returns (t: Tally)
      requires |parts| == 9 && tally == Tallied(parts[..3])
      requires parts[3] == Part("soft_placement_match", SoftPlacement(c, node.place, lookup), weights.soft)
      requires parts[4] == Part("affinity_proximity", Affinity(c, node.place, lookup), weights.affinity)
      requires parts[5] == Part("hardware_label_match", LabelMatch(c, node.place), weights.hardware)
      ensures t == Tallied(parts[..6])
    {
      var soft := CountSoft(c, node.place, lookup);
      t := AddNext(tally, Part("soft_placement_match", soft, weights.soft), parts, 3);
      var affinity := CountAffinity(c, node.place, lookup);
      t := AddNext(t, Part("affinity_proximity", affinity, weights.affinity), parts, 4);
      var hardware := CountLabels(c, node.place);
      t := AddNext(t, Part("hardware_label_match", hardware, weights.hardware), parts, 5);
    }

    method Calculate(c: Capsule, node: Node) returns (r: Result)
      ensures r.eligible <==> Eligible(c, node, lookup)
      ensures Explains(r.reason, c, node, lookup)
      ensures !r.eligible ==> r.score == 0.0 && r.factors == map[]
      ensures r.eligible ==>
                && r.score == Score(weights, c, node, lookup, snapshots)
                && r.factors == Breakdown(Parts(weights, c, node, lookup, snapshots))["load_penalty" := Load(node.running)]
    {
      var reason := IsEligible(c, node, lookup);
      if !reason.Passed? {
        return Result(false, reason, 0.0, map[]);
      }
      var tally := AddFactors(c, node);
      var load := Load(node.running);
      var score := Normalize(tally.gain, tally.room, load, weights.load);
      return Result(true, Passed, score, tally.factors["load_penalty" := load]);
    }
  }
}
