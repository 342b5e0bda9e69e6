/**
  Laws of the gravity score: its exact upper bound and when it is reached, invariance under scaling of the weights, and
  monotonicity in a node's capacity and in what it matches.
 */
module GravityLaws {
  import opened Placement
  import opened Gravity
  import opened GravityFactors
  import opened Reals

  predicate NonNegative(w: Weights) {
    && w.cpu >= 0.0 && w.memory >= 0.0 && w.disk >= 0.0 && w.soft >= 0.0 && w.affinity >= 0.0 && w.hardware >= 0.0
    && w.load >= 0.0 && w.reliability >= 0.0 && w.diversity >= 0.0 && w.snapshot >= 0.0
  }

  predicate Sound(p: Part) { p.weight >= 0.0 && (p.contribution.Applied? ==> 0.0 <= p.contribution.value <= 1.0) }

  predicate AllSound(parts: seq<Part>) { forall i | 0 <= i < |parts| :: Sound(parts[i]) }

  /** Every factor with a positive weight that applies is at its best. */
  predicate Full(parts: seq<Part>) { forall i | 0 <= i < |parts| :: Best(parts[i]) }

  predicate Best(p: Part) { p.contribution.Applied? && p.weight > 0.0 ==> p.contribution.value == 1.0 }

  lemma PartsAreSound(w: Weights, c: Capsule, node: Node, lookup: Lookup, snapshots: Snapshots)
    requires NonNegative(w)
    ensures AllSound(Parts(w, c, node, lookup, snapshots))
  {
  }

  // ----- the tight bound

  lemma WeighedIsAllowed(p: Part)
    requires Sound(p)
    ensures 0.0 <= Weighed(p) <= Allowed(p)
    ensures Weighed(p) == Allowed(p) <==> Best(p)
  {
    if p.contribution.Applied? {
      TimesFraction(p.contribution.value, p.weight);
    }
  }

  lemma {:induction false} GainWithinRoom(parts: seq<Part>)
    requires AllSound(parts)
    ensures 0.0 <= Gain(parts) <= Room(parts)
    ensures Gain(parts) == Room(parts) <==> Full(parts)
  {
    if parts != [] {
      GainWithinRoom(parts[..|parts| - 1]);
      WeighedIsAllowed(parts[|parts| - 1]);
      FullOneMore(parts);
    }
  }

  lemma FullOneMore(parts: seq<Part>)
    requires parts != []
    ensures Full(parts) <==> Full(parts[..|parts| - 1]) && Best(parts[|parts| - 1])
  {
    var init := parts[..|parts| - 1];
    assert forall i | 0 <= i < |init| :: init[i] == parts[i];
  }

  lemma PercentMonotone(a: real, b: real, d: real)
    requires a <= b && d > 0.0
    ensures Percent(a, d) <= Percent(b, d)
    ensures 0.0 <= b <= d ==> Percent(b, d) == 100.0 * (b / d)
    ensures 0.0 <= b <= d ==> (Percent(a, d) == Percent(b, d) <==> b == 0.0 || a == b)
  {
    DivideMonotone(a, b, d);
    if 0.0 <= b <= d {
      DivideMonotone(0.0, b, d);
      DivideMonotone(b, d, d);
    }
  }

  lemma PenaltyIsZeroIff(load: real, weight: real)
    requires 0.0 <= load <= 1.0 && weight >= 0.0
    ensures Penalty(load, weight) >= 0.0
    ensures Penalty(load, weight) == 0.0 <==> weight == 0.0 || load == 1.0
  {
    TimesNonNegative(1.0 - load, weight);
    TimesOne(weight);
    if load < 1.0 && weight > 0.0 {
      TimesPositive(1.0 - load, weight);
    }
  }

  lemma NormalizedBound(gain: real, room: real, load: real, penalty: real)
    requires 0.0 <= gain <= room && 0.0 <= load <= 1.0 && penalty >= 0.0 && room + penalty > 0.0
    ensures 0.0 <= Normalized(gain, room, load, penalty) <= 100.0 * (room / (room + penalty)) <= 100.0
    ensures Normalized(gain, room, load, penalty) == 100.0 * (room / (room + penalty)) <==>
            room == 0.0 || (gain == room && (penalty == 0.0 || load == 1.0))
  {
    PenaltyIsZeroIff(load, penalty);
    PercentMonotone(gain - Penalty(load, penalty), room, room + penalty);
  }

  /** The score lies in [0, 100 * S / (S + P)], where S is the sum of the weights that apply and P the load penalty, and
      it reaches the bound exactly when every factor that counts is at its best on a node without load. */
  lemma TightBound(w: Weights, c: Capsule, node: Node, lookup: Lookup, snapshots: Snapshots, parts: seq<Part>)
    requires NonNegative(w) && parts == Parts(w, c, node, lookup, snapshots) && Room(parts) + w.load > 0.0
    ensures 0.0 <= Score(w, c, node, lookup, snapshots) <= 100.0 * (Room(parts) / (Room(parts) + w.load)) <= 100.0
    ensures Score(w, c, node, lookup, snapshots) == 100.0 * (Room(parts) / (Room(parts) + w.load)) <==>
            Room(parts) == 0.0 || (Full(parts) && (w.load == 0.0 || node.running <= 0))
  {
    PartsAreSound(w, c, node, lookup, snapshots);
    GainWithinRoom(parts);
    LoadIsLinear(node.running);
    NormalizedBound(Gain(parts), Room(parts), Load(node.running), w.load);
  }

  // ----- scaling

  function Scale(w: Weights, k: real): Weights {
    Weights(Times(k, w.cpu), Times(k, w.memory), Times(k, w.disk), Times(k, w.soft), Times(k, w.affinity),
            Times(k, w.hardware), Times(k, w.load), Times(k, w.reliability), Times(k, w.diversity),
            Times(k, w.snapshot))
  }

  predicate PartScaled(p: Part, q: Part, k: real) {
    q.contribution == p.contribution && q.weight == Times(k, p.weight)
  }

  predicate ScaledBy(parts: seq<Part>, scaled: seq<Part>, k: real) {
    |parts| == |scaled| && forall i | 0 <= i < |parts| :: PartScaled(parts[i], scaled[i], k)
  }

  lemma PartScales(p: Part, q: Part, k: real)
    requires PartScaled(p, q, k)
    ensures Weighed(q) == Times(k, Weighed(p)) && Allowed(q) == Times(k, Allowed(p))
  {
    if p.contribution.Applied? {
      Reorder(p.contribution.value, k, p.weight);
    }
  }

  lemma {:induction false} GainScales(parts: seq<Part>, scaled: seq<Part>, k: real)
    requires ScaledBy(parts, scaled, k)
    ensures Gain(scaled) == Times(k, Gain(parts))
  {
    if parts != [] {
      var n := |parts| - 1;
      GainScales(parts[..n], scaled[..n], k);
      PartScales(parts[n], scaled[n], k);
      Distribute(k, Gain(parts[..n]), Weighed(parts[n]));
    }
  }

  lemma {:induction false} RoomScales(parts: seq<Part>, scaled: seq<Part>, k: real)
    requires ScaledBy(parts, scaled, k)
    ensures Room(scaled) == Times(k, Room(parts))
  {
    if parts != [] {
      var n := |parts| - 1;
      RoomScales(parts[..n], scaled[..n], k);
      PartScales(parts[n], scaled[n], k);
      Distribute(k, Room(parts[..n]), Allowed(parts[n]));
    }
  }

  lemma PercentScales(a: real, d: real, k: real)
    requires d > 0.0 && k > 0.0
    ensures Times(k, d) > 0.0
    ensures Percent(Times(k, a), Times(k, d)) == Percent(a, d)
  {
    DivideCancels(a, d, k);
  }

  lemma NormalizedScales(gain: real, room: real, load: real, penalty: real, k: real)
    requires k > 0.0
    ensures Normalized(Times(k, gain), Times(k, room), load, Times(k, penalty))
         == Normalized(gain, room, load, penalty)
  {
    var taken, d := Penalty(load, penalty), room + penalty;
    Distribute(k, room, penalty);
    assert Times(k, room) + Times(k, penalty) == Times(k, d);
    Reorder(1.0 - load, k, penalty);
    assert Penalty(load, Times(k, penalty)) == Times(k, taken);
    Distribute(k, gain, taken);
    assert Times(k, gain) - Penalty(load, Times(k, penalty)) == Times(k, gain - taken);
    if d > 0.0 {
      PercentScales(gain - taken, d, k);
    } else {
      TimesNonPositive(k, d);
    }
  }

  lemma PartsScale(w: Weights, k: real, c: Capsule, node: Node, lookup: Lookup, snapshots: Snapshots)
    ensures ScaledBy(Parts(w, c, node, lookup, snapshots), Parts(Scale(w, k), c, node, lookup, snapshots), k)
  {
    var parts, scaled := Parts(w, c, node, lookup, snapshots), Parts(Scale(w, k), c, node, lookup, snapshots);
    assert PartScaled(parts[0], scaled[0], k) && PartScaled(parts[1], scaled[1], k) && PartScaled(parts[2], scaled[2], k);
    assert PartScaled(parts[3], scaled[3], k) && PartScaled(parts[4], scaled[4], k) && PartScaled(parts[5], scaled[5], k);
    assert PartScaled(parts[6], scaled[6], k) && PartScaled(parts[7], scaled[7], k) && PartScaled(parts[8], scaled[8], k);
  }

  /** Only the ratios of the weights matter, whatever their signs. */
  lemma ScaleInvariant(w: Weights, k: real, c: Capsule, node: Node, lookup: Lookup, snapshots: Snapshots)
    requires k > 0.0
    ensures Score(Scale(w, k), c, node, lookup, snapshots) == Score(w, c, node, lookup, snapshots)
  {
    var parts, scaled := Parts(w, c, node, lookup, snapshots), Parts(Scale(w, k), c, node, lookup, snapshots);
    PartsScale(w, k, c, node, lookup, snapshots);
    GainScales(parts, scaled, k);
    RoomScales(parts, scaled, k);
    NormalizedScales(Gain(parts), Room(parts), Load(node.running), w.load, k);
  }

  // ----- monotonicity

  /** Whatever rule or label of the capsule holds at `place` holds at `better`. */
  ghost predicate MatchesMore(c: Capsule, lookup: Lookup, place: Place, better: Place) {
    && (forall r | r in c.rules && Satisfies(r, place, lookup) :: Satisfies(r, better, lookup))
    && (forall k | k in c.labels && k in place.labels && place.labels[k] == c.labels[k] ::
          k in better.labels && better.labels[k] == c.labels[k])
    && (place.datacenter != "" ==> better.datacenter != "")
    && (Runs(lookup, better, c.name) ==> Runs(lookup, place, c.name))
  }

  /** `better` matches at least as many rules and labels, has at least as much free, no more capsules running and no less
      reliability. */
  ghost predicate Improves(c: Capsule, lookup: Lookup, node: Node, better: Node) {
    && MatchesMore(c, lookup, node.place, better.place) && (node.status == Active ==> better.status == Active)
    && better.resources.cpuTotal == node.resources.cpuTotal && better.resources.cpuFree >= node.resources.cpuFree
    && better.resources.memoryTotal == node.resources.memoryTotal
    && better.resources.memoryFree >= node.resources.memoryFree
    && better.resources.diskTotal == node.resources.diskTotal && better.resources.diskFree >= node.resources.diskFree
    && better.reliability >= node.reliability && better.running <= node.running
  }

  /** Both nodes can tell which snapshots they have, or neither can, and the second has all that the first has. */
  ghost predicate HoldsMore(snapshots: Snapshots, more: Snapshots) {
    && snapshots.Snapshots? == more.Snapshots?
    && (snapshots.Snapshots? ==> forall id, image | snapshots.has(id, image) :: more.has(id, image))
  }

  predicate PartAtLeast(q: Part, p: Part) { q.weight == p.weight && AtLeast(q.contribution, p.contribution) }

  predicate Pointwise(parts: seq<Part>, better: seq<Part>) {
    |parts| == |better| && forall i | 0 <= i < |parts| :: PartAtLeast(better[i], parts[i])
  }

  lemma HeadroomMonotone(demand: int, total: int, free: int, more: int)
    requires free <= more
    ensures AtLeast(Headroom(demand, total, more), Headroom(demand, total, free))
  {
    if total > 0 {
      DivideMonotone((free - demand) as real, (more - demand) as real, total as real);
    }
  }

  lemma LoadMonotone(running: int, fewer: int)
    requires fewer <= running
    ensures Load(fewer) >= Load(running)
  {
    DivideMonotone(fewer as real, running as real, SOFT_CAP);
  }

  /** Matching one more rule or label never lowers the factor that counts it. */
  lemma MatchesMonotone(c: Capsule, lookup: Lookup, place: Place, better: Place)
    requires MatchesMore(c, lookup, place, better)
    ensures AtLeast(SoftPlacement(c, better, lookup), SoftPlacement(c, place, lookup))
    ensures AtLeast(Affinity(c, better, lookup), Affinity(c, place, lookup))
    ensures AtLeast(LabelMatch(c, better), LabelMatch(c, place))
  {
    RulesMonotone(c, lookup, place, better);
    LabelsAreShare(c, place);
    LabelsAreShare(c, better);
    var met := set k | k in c.labels && k in place.labels && place.labels[k] == c.labels[k];
    var more := set k | k in c.labels && k in better.labels && better.labels[k] == c.labels[k];
    ShareMonotone(LabelMatch(c, place), met, LabelMatch(c, better), more, c.labels.Keys);
  }

  lemma RulesMonotone(c: Capsule, lookup: Lookup, place: Place, better: Place)
    requires MatchesMore(c, lookup, place, better)
    ensures AtLeast(SoftPlacement(c, better, lookup), SoftPlacement(c, place, lookup))
    ensures AtLeast(Affinity(c, better, lookup), Affinity(c, place, lookup))
  {
    var soft, near := SoftAt(c.rules), NearAt(c.rules);
    MetMonotone(soft, c, lookup, place, better);
    MetMonotone(near, c, lookup, place, better);
    SoftIsShare(c, place, lookup);
    SoftIsShare(c, better, lookup);
    ShareMonotone(SoftPlacement(c, place, lookup), MetAt(soft, c.rules, place, lookup),
                  SoftPlacement(c, better, lookup), MetAt(soft, c.rules, better, lookup), soft);
    AffinityIsShare(c, place, lookup);
    AffinityIsShare(c, better, lookup);
    if lookup.Lookup? {
      ShareMonotone(Affinity(c, place, lookup), MetAt(near, c.rules, place, lookup),
                    Affinity(c, better, lookup), MetAt(near, c.rules, better, lookup), near);
    }
  }

  lemma MetMonotone(at: set<nat>, c: Capsule, lookup: Lookup, place: Place, better: Place)
    requires MatchesMore(c, lookup, place, better)
    ensures MetAt(at, c.rules, place, lookup) <= MetAt(at, c.rules, better, lookup)
  {
  }

  lemma PartsMonotone(w: Weights, c: Capsule, node: Node, better: Node, lookup: Lookup, snapshots: Snapshots,
                      more: Snapshots)
    requires Improves(c, lookup, node, better) && HoldsMore(snapshots, more)
    ensures Pointwise(Parts(w, c, node, lookup, snapshots), Parts(w, c, better, lookup, more))
  {
    var p, q := Parts(w, c, node, lookup, snapshots), Parts(w, c, better, lookup, more);
    FirstPartsMonotone(w, c, node, better, lookup, snapshots, more, p, q);
    MiddlePartsMonotone(w, c, node, better, lookup, snapshots, more, p, q);
    LastPartsMonotone(w, c, node, better, lookup, snapshots, more, p, q);
  }

  lemma FirstPartsMonotone(w: Weights, c: Capsule, node: Node, better: Node, lookup: Lookup, snapshots: Snapshots,
                           more: Snapshots, p: seq<Part>, q: seq<Part>)
    requires Improves(c, lookup, node, better) && HoldsMore(snapshots, more)
    requires p == Parts(w, c, node, lookup, snapshots) && q == Parts(w, c, better, lookup, more)
    ensures PartAtLeast(q[0], p[0]) && PartAtLeast(q[1], p[1]) && PartAtLeast(q[2], p[2])
  {
    HeadroomsMonotone(c, node.resources, better.resources);
  }

  lemma MiddlePartsMonotone(w: Weights, c: Capsule, node: Node, better: Node, lookup: Lookup, snapshots: Snapshots,
                            more: Snapshots, p: seq<Part>, q: seq<Part>)
    requires Improves(c, lookup, node, better) && HoldsMore(snapshots, more)
    requires p == Parts(w, c, node, lookup, snapshots) && q == Parts(w, c, better, lookup, more)
    ensures PartAtLeast(q[3], p[3]) && PartAtLeast(q[4], p[4]) && PartAtLeast(q[5], p[5])
  {
    MatchesMonotone(c, lookup, node.place, better.place);
  }

  lemma LastPartsMonotone(w: Weights, c: Capsule, node: Node, better: Node, lookup: Lookup, snapshots: Snapshots,
                          more: Snapshots, p: seq<Part>, q: seq<Part>)
    requires Improves(c, lookup, node, better) && HoldsMore(snapshots, more)
    requires p == Parts(w, c, node, lookup, snapshots) && q == Parts(w, c, better, lookup, more)
    ensures PartAtLeast(q[6], p[6]) && PartAtLeast(q[7], p[7]) && PartAtLeast(q[8], p[8])
  {
    OthersMonotone(c, node, better, snapshots, more);
  }

  lemma HeadroomsMonotone(c: Capsule, r: Resources, more: Resources)
    requires more.cpuTotal == r.cpuTotal && more.memoryTotal == r.memoryTotal && more.diskTotal == r.diskTotal
    requires more.cpuFree >= r.cpuFree && more.memoryFree >= r.memoryFree && more.diskFree >= r.diskFree
    ensures AtLeast(Headroom(c.demand.cpu, more.cpuTotal, more.cpuFree), Headroom(c.demand.cpu, r.cpuTotal, r.cpuFree))
    ensures AtLeast(Headroom(c.demand.memory, more.memoryTotal, more.memoryFree),
                    Headroom(c.demand.memory, r.memoryTotal, r.memoryFree))
    ensures AtLeast(Headroom(c.demand.disk, more.diskTotal, more.diskFree),
                    Headroom(c.demand.disk, r.diskTotal, r.diskFree))
  {
    HeadroomMonotone(c.demand.cpu, r.cpuTotal, r.cpuFree, more.cpuFree);
    HeadroomMonotone(c.demand.memory, r.memoryTotal, r.memoryFree, more.memoryFree);
    HeadroomMonotone(c.demand.disk, r.diskTotal, r.diskFree, more.diskFree);
  }

  lemma OthersMonotone(c: Capsule, node: Node, better: Node, snapshots: Snapshots, more: Snapshots)
    requires better.reliability >= node.reliability && HoldsMore(snapshots, more)
    requires node.place.datacenter != "" ==> better.place.datacenter != ""
    ensures AtLeast(Apply(better.reliability), Apply(node.reliability))
    ensures AtLeast(Diversity(c, better.place), Diversity(c, node.place))
    ensures AtLeast(SnapshotLocality(c, more), SnapshotLocality(c, snapshots))
  {
  }

  lemma PartMonotone(p: Part, q: Part)
    requires PartAtLeast(q, p) && p.weight >= 0.0
    ensures Weighed(p) <= Weighed(q) && Allowed(p) == Allowed(q)
  {
    if p.contribution.Applied? {
      TimesMonotone(p.contribution.value, q.contribution.value, p.weight);
    }
  }

  lemma {:induction false} SumsMonotone(parts: seq<Part>, better: seq<Part>)
    requires Pointwise(parts, better) && AllSound(parts)
    ensures Gain(parts) <= Gain(better) && Room(parts) == Room(better)
  {
    if parts != [] {
      var n := |parts| - 1;
      SumsMonotone(parts[..n], better[..n]);
      assert Sound(parts[n]);
      PartMonotone(parts[n], better[n]);
    }
  }

  lemma NormalizedMonotone(gain: real, more: real, room: real, load: real, less: real, penalty: real)
    requires gain <= more && load <= less && penalty >= 0.0
    ensures Normalized(gain, room, load, penalty) <= Normalized(more, room, less, penalty)
  {
    TimesMonotone(1.0 - less, 1.0 - load, penalty);
    assert Penalty(less, penalty) <= Penalty(load, penalty);
    if room + penalty > 0.0 {
      PercentMonotone(gain - Penalty(load, penalty), more - Penalty(less, penalty), room + penalty);
    }
  }

  lemma StaysEligible(c: Capsule, lookup: Lookup, node: Node, better: Node)
    requires Improves(c, lookup, node, better)
    ensures Eligible(c, node, lookup) ==> Eligible(c, better, lookup)
  {
    if Eligible(c, node, lookup) {
      forall i | 0 <= i < |c.rules| && c.rules[i].required ensures Satisfies(c.rules[i], better.place, lookup) {
        assert c.rules[i] in c.rules && Satisfies(c.rules[i], node.place, lookup);
      }
    }
  }

  /** A node that matches more rules and labels, has more free, runs less, is more reliable or has more snapshots is never
      ineligible instead and never scores lower. */
  lemma BetterNodeScoresHigher(w: Weights, c: Capsule, node: Node, better: Node, lookup: Lookup, snapshots: Snapshots,
                               more: Snapshots)
    requires NonNegative(w) && Improves(c, lookup, node, better) && HoldsMore(snapshots, more)
    ensures Eligible(c, node, lookup) ==> Eligible(c, better, lookup)
    ensures Score(w, c, node, lookup, snapshots) <= Score(w, c, better, lookup, more)
  {
    var p, q := Parts(w, c, node, lookup, snapshots), Parts(w, c, better, lookup, more);
    PartsAreSound(w, c, node, lookup, snapshots);
    PartsMonotone(w, c, node, better, lookup, snapshots, more);
    SumsMonotone(p, q);
    LoadMonotone(node.running, better.running);
    StaysEligible(c, lookup, node, better);
    NormalizedMonotone(Gain(p), Gain(q), Room(p), Load(node.running), Load(better.running), w.load);
  }
}
