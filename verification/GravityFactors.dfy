/**
  What each factor of the gravity score measures (election/gravity/factors.go), and that each is weighed with its own
  weight and reported under its own name (election/gravity/gravity.go).
 */
module GravityFactors {
  import opened Placement
  import opened Gravity
  import opened Reals
  import opened FiniteSets

  // ----- shares

  /** The value is the part of `all` that is met; it does not apply when there is nothing to meet. */
  ghost predicate IsShare<T>(x: Contribution, met: set<T>, all: set<T>) {
    if all == {} then x.NotApplicable? else x.Applied? && Times(x.value, |all| as real) == |met| as real
  }

  lemma FractionIsShare<T>(met: set<T>, all: set<T>)
    requires met <= all
    ensures IsShare(Fraction(|met|, |all|), met, all)
  {
    SubsetSize(met, all);
    if all != {} {
      var d := |all| as real;
      DivideTimes(|met| as real, d);
      DivideTimes(0.0, d);
      DivideTimes(d, d);
      DivideMonotone(0.0, |met| as real, d);
      DivideMonotone(|met| as real, d, d);
    }
  }

  /** A share is 1 exactly when everything is met and 0 exactly when nothing is. */
  lemma ShareExtremes<T>(x: Contribution, met: set<T>, all: set<T>)
    requires IsShare(x, met, all) && met <= all && all != {}
    ensures x.Applied? && (x.value == 1.0 <==> met == all) && (x.value == 0.0 <==> met == {})
  {
    var d := |all| as real;
    TimesOne(d);
    if met != {} { assert |met| > 0; }
    if |met| == |all| {
      SubsetFull(met, all);
      DivideIsUnique(d, d, x.value);
      DivideIsUnique(d, d, 1.0);
    }
    if met == {} {
      DivideIsUnique(0.0, d, x.value);
      DivideIsUnique(0.0, d, 0.0);
    }
  }

  predicate AtLeast(a: Contribution, b: Contribution) {
    a.Applied? == b.Applied? && (a.Applied? ==> a.value >= b.value)
  }

  /** Meeting more never lowers a share. */
  lemma ShareMonotone<T>(x: Contribution, met: set<T>, y: Contribution, more: set<T>, all: set<T>)
    requires IsShare(x, met, all) && IsShare(y, more, all) && met <= more
    ensures AtLeast(y, x)
  {
    SubsetSize(met, more);
    if all != {} && y.value < x.value {
      TimesIncreasing(y.value, x.value, |all| as real);
    }
  }

  // ----- the three factors that count matches

  ghost function SoftAt(rules: seq<Rule>): set<nat> { set i: nat | i < |rules| && !rules[i].required }

  ghost function NearAt(rules: seq<Rule>): set<nat> {
    set i: nat | i < |rules| && rules[i].kind == OnCapsule && rules[i].mode == Near
  }

  /** Those of the chosen rules that hold of the place. */
  ghost function MetAt(at: set<nat>, rules: seq<Rule>, place: Place, lookup: Lookup): set<nat> {
    set i | i in at && i < |rules| && Satisfies(rules[i], place, lookup)
  }

  /** One more rule adds its index, if it is chosen and holds. */
  lemma MetOneMore(at: set<nat>, rules: seq<Rule>, r: Rule, place: Place, lookup: Lookup)
    requires forall i | i in at :: i < |rules|
    ensures MetAt(at, rules + [r], place, lookup) == MetAt(at, rules, place, lookup)
    ensures |MetAt(at + {|rules|}, rules + [r], place, lookup)|
         == |MetAt(at, rules, place, lookup)| + if Satisfies(r, place, lookup) then 1 else 0
  {
    MetBefore(at, rules, r, place, lookup);
    var n, last := |rules|, if Satisfies(r, place, lookup) then {|rules|} else {};
    assert (rules + [r])[n] == r;
    assert MetAt(at + {n}, rules + [r], place, lookup) == MetAt(at, rules + [r], place, lookup) + last;
  }

  lemma MetBefore(at: set<nat>, rules: seq<Rule>, r: Rule, place: Place, lookup: Lookup)
    requires forall i | i in at :: i < |rules|
    ensures MetAt(at, rules + [r], place, lookup) == MetAt(at, rules, place, lookup)
  {
    assert forall i | i in at :: (rules + [r])[i] == rules[i];
  }

  lemma SoftRulesOneMore(rules: seq<Rule>, r: Rule)
    ensures SoftRules(rules + [r]) == if r.required then SoftRules(rules) else SoftRules(rules) + [r]
  {
    assert (rules + [r])[..|rules|] == rules;
  }

  lemma NearRulesOneMore(rules: seq<Rule>, r: Rule)
    ensures NearRules(rules + [r]) ==
            if r.kind == OnCapsule && r.mode == Near then NearRules(rules) + [r] else NearRules(rules)
  {
    assert (rules + [r])[..|rules|] == rules;
  }

  lemma AtOneMore(rules: seq<Rule>, r: Rule)
    ensures SoftAt(rules + [r]) == if r.required then SoftAt(rules) else SoftAt(rules) + {|rules|}
    ensures NearAt(rules + [r]) ==
            if r.kind == OnCapsule && r.mode == Near then NearAt(rules) + {|rules|} else NearAt(rules)
  {
    var all := rules + [r];
    assert all[|rules|] == r;
    assert forall i: nat | i < |rules| :: all[i] == rules[i];
  }

  lemma {:induction false} SoftSize(rules: seq<Rule>)
    ensures |SoftRules(rules)| == |SoftAt(rules)|
  {
    if rules == [] {
      assert SoftAt(rules) == {};
    } else {
      var init, last := rules[..|rules| - 1], rules[|rules| - 1];
      assert rules == init + [last];
      SoftSize(init);
      SoftRulesOneMore(init, last);
      AtOneMore(init, last);
    }
  }

  lemma {:induction false} SoftCounts(rules: seq<Rule>, place: Place, lookup: Lookup)
    ensures CountSatisfied(SoftRules(rules), place, lookup) == |MetAt(SoftAt(rules), rules, place, lookup)|
  {
    if rules == [] {
      assert SoftAt(rules) == {} && MetAt({}, rules, place, lookup) == {};
    } else {
      var init, last := rules[..|rules| - 1], rules[|rules| - 1];
      assert rules == init + [last];
      SoftCounts(init, place, lookup);
      SoftRulesOneMore(init, last);
      AtOneMore(init, last);
      CountOneMore(SoftRules(init), last, place, lookup);
      MetOneMore(SoftAt(init), init, last, place, lookup);
    }
  }

  lemma {:induction false} NearSize(rules: seq<Rule>)
    ensures |NearRules(rules)| == |NearAt(rules)|
  {
    if rules == [] {
      assert NearAt(rules) == {};
    } else {
      var init, last := rules[..|rules| - 1], rules[|rules| - 1];
      assert rules == init + [last];
      NearSize(init);
      NearRulesOneMore(init, last);
      AtOneMore(init, last);
    }
  }

  lemma {:induction false} NearCounts(rules: seq<Rule>, place: Place, lookup: Lookup)
    ensures CountSatisfied(NearRules(rules), place, lookup) == |MetAt(NearAt(rules), rules, place, lookup)|
  {
    if rules == [] {
      assert NearAt(rules) == {} && MetAt({}, rules, place, lookup) == {};
    } else {
      var init, last := rules[..|rules| - 1], rules[|rules| - 1];
      assert rules == init + [last];
      NearCounts(init, place, lookup);
      NearRulesOneMore(init, last);
      AtOneMore(init, last);
      CountOneMore(NearRules(init), last, place, lookup);
      MetOneMore(NearAt(init), init, last, place, lookup);
    }
  }

  /** The soft factor is the share of the rules that are not required which hold of the node. */
  lemma SoftIsShare(c: Capsule, place: Place, lookup: Lookup)
    ensures IsShare(SoftPlacement(c, place, lookup), MetAt(SoftAt(c.rules), c.rules, place, lookup), SoftAt(c.rules))
  {
    SoftSize(c.rules);
    SoftCounts(c.rules, place, lookup);
    FractionIsShare(MetAt(SoftAt(c.rules), c.rules, place, lookup), SoftAt(c.rules));
  }

  /** The affinity factor is the share of the near rules which hold of the node, where a lookup can tell. */
  lemma AffinityIsShare(c: Capsule, place: Place, lookup: Lookup)
    ensures lookup.NoLookup? ==> Affinity(c, place, lookup).NotApplicable?
    ensures lookup.Lookup? ==>
              IsShare(Affinity(c, place, lookup), MetAt(NearAt(c.rules), c.rules, place, lookup), NearAt(c.rules))
  {
    NearSize(c.rules);
    NearCounts(c.rules, place, lookup);
    FractionIsShare(MetAt(NearAt(c.rules), c.rules, place, lookup), NearAt(c.rules));
  }

  /** The label factor is the share of the capsule's labels which the node has. */
  lemma LabelsAreShare(c: Capsule, place: Place)
    ensures var met := set k | k in c.labels && k in place.labels && place.labels[k] == c.labels[k];
            IsShare(LabelMatch(c, place), met, c.labels.Keys)
  {
    var met := set k | k in c.labels && k in place.labels && place.labels[k] == c.labels[k];
    assert met == SharedLabels(c.labels, place.labels) && |c.labels| == |c.labels.Keys|;
    FractionIsShare(met, c.labels.Keys);
  }

  /** The counting factors are at their best exactly on a node of which every soft rule, near rule or label holds, and at
      their worst exactly where none does. */
  lemma MatchExtremes(c: Capsule, place: Place, lookup: Lookup)
    ensures var x := SoftPlacement(c, place, lookup);
            && (x.Applied? <==> exists r :: r in c.rules && !r.required)
            && (x == Applied(1.0) <==> x.Applied? && forall r | r in c.rules && !r.required :: Satisfies(r, place, lookup))
            && (x == Applied(0.0) <==> x.Applied? && forall r | r in c.rules && !r.required :: !Satisfies(r, place, lookup))
    ensures var x := LabelMatch(c, place);
            && (x.Applied? <==> c.labels != map[])
            && (x == Applied(1.0) <==> x.Applied? && HasLabels(place.labels, c.labels))
            && (x == Applied(0.0) <==>
                  x.Applied? && forall k | k in c.labels && k in place.labels :: place.labels[k] != c.labels[k])
  {
    SoftExtremes(c, place, lookup);
    LabelExtremes(c, place);
  }

  lemma SoftExtremes(c: Capsule, place: Place, lookup: Lookup)
    ensures var x := SoftPlacement(c, place, lookup);
            && (x.Applied? <==> exists r :: r in c.rules && !r.required)
            && (x == Applied(1.0) <==> x.Applied? && forall r | r in c.rules && !r.required :: Satisfies(r, place, lookup))
            && (x == Applied(0.0) <==> x.Applied? && forall r | r in c.rules && !r.required :: !Satisfies(r, place, lookup))
  {
    var rules := c.rules;
    var all, met := SoftAt(rules), MetAt(SoftAt(rules), rules, place, lookup);
    SoftIsShare(c, place, lookup);
    assert forall i: nat | i < |rules| :: i in all <==> !rules[i].required;
    assert forall i: nat | i < |rules| :: i in met <==> !rules[i].required && Satisfies(rules[i], place, lookup);
    if all != {} {
      ShareExtremes(SoftPlacement(c, place, lookup), met, all);
    }
  }

  lemma LabelExtremes(c: Capsule, place: Place)
    ensures var x := LabelMatch(c, place);
            && (x.Applied? <==> c.labels != map[])
            && (x == Applied(1.0) <==> x.Applied? && HasLabels(place.labels, c.labels))
            && (x == Applied(0.0) <==>
                  x.Applied? && forall k | k in c.labels && k in place.labels :: place.labels[k] != c.labels[k])
  {
    LabelsAreShare(c, place);
    var met := set k | k in c.labels && k in place.labels && place.labels[k] == c.labels[k];
    assert c.labels.Keys == {} <==> c.labels == map[];
    if c.labels.Keys != {} {
      ShareExtremes(LabelMatch(c, place), met, c.labels.Keys);
      assert met == c.labels.Keys <==> HasLabels(place.labels, c.labels);
      forall k | k in c.labels && k in place.labels ensures k in met <==> place.labels[k] == c.labels[k] { }
    }
  }

  // ----- the other factors

  /** Headroom is what would be left of the whole: nothing exactly when the demand takes all that is free. */
  lemma HeadroomIsRemainder(demand: int, total: int, free: int)
    ensures var x := Headroom(demand, total, free);
            && (x.Applied? <==> 0 < demand && 0 < total)
            && (x.Applied? ==>
                  && (x.value == 0.0 <==> free <= demand) && (x.value == 1.0 <==> total <= free - demand)
                  && (0 <= free - demand <= total ==> Times(x.value, total as real) == (free - demand) as real))
  {
    if 0 < demand && 0 < total {
      var left, whole := (free - demand) as real, total as real;
      DivideTimes(left, whole);
      DivideIsUnique(0.0, whole, 0.0);
      DivideIsUnique(whole, whole, 1.0);
      if 0.0 <= left { DivideMonotone(0.0, left, whole); }
      if left <= whole { DivideMonotone(left, whole, whole); } else { DivideMonotone(whole, left, whole); }
    }
  }

  /** A demand that leaves headroom fits, and one that does not fit leaves none. */
  lemma HeadroomMeansFit(demand: int, total: int, free: int)
    requires Headroom(demand, total, free).Applied?
    ensures Headroom(demand, total, free).value > 0.0 ==> Fits(demand, free) && !Fits(free + 1, free)
    ensures Headroom(demand, total, free).value == 0.0 ==> (Fits(demand, free) <==> demand == free)
  {
    HeadroomIsRemainder(demand, total, free);
  }

  /** Load falls from 1 on an empty node to 0 at the soft cap of 50 capsules, by a fiftieth for each. */
  lemma LoadIsLinear(running: int)
    ensures Load(running) == 1.0 <==> running <= 0
    ensures Load(running) == 0.0 <==> running >= 50
    ensures 0 <= running <= 50 ==> Times(1.0 - Load(running), 50.0) == running as real
  {
  }

  /** Diversity asks for a known datacenter, of capsules that want two or more replicas. */
  lemma DiversityIsKnownDatacenter(c: Capsule, place: Place)
    ensures Diversity(c, place).Applied? <==> 2 <= c.minReplicas || 2 <= c.exactReplicas
    ensures Diversity(c, place).Applied? ==> Diversity(c, place) == Applied(if place.datacenter != "" then 1.0 else 0.0)
  {
  }

  /** Snapshot locality goes by the digest where there is one: then the image does not matter. */
  lemma SnapshotGoesByDigest(c: Capsule, snapshots: Snapshots, image: string)
    requires snapshots.Snapshots?
    ensures c.digest != "" ==>
              && SnapshotLocality(c, snapshots) == SnapshotLocality(c.(image := image), snapshots)
              && (SnapshotLocality(c, snapshots) == Applied(1.0) <==> snapshots.has(c.id, c.digest))
    ensures c.digest == "" ==> (SnapshotLocality(c, snapshots) == Applied(1.0) <==> snapshots.has(c.id, c.image))
    ensures SnapshotLocality(c, snapshots) == Applied(1.0) || SnapshotLocality(c, snapshots) == Applied(0.0)
  {
  }

  // ----- each factor has its weight and its name

  datatype Factor = Cpu | Memory | Disk | Soft | Proximity | Hardware | Reliability | Spread | Local

  function Measure(f: Factor, c: Capsule, node: Node, lookup: Lookup, snapshots: Snapshots): Contribution {
    match f
    case Cpu => Headroom(c.demand.cpu, node.resources.cpuTotal, node.resources.cpuFree)
    case Memory => Headroom(c.demand.memory, node.resources.memoryTotal, node.resources.memoryFree)
    case Disk => Headroom(c.demand.disk, node.resources.diskTotal, node.resources.diskFree)
    case Soft => SoftPlacement(c, node.place, lookup)
    case Proximity => Affinity(c, node.place, lookup)
    case Hardware => LabelMatch(c, node.place)
    case Reliability => Applied(Clamp(node.reliability))
    case Spread => Diversity(c, node.place)
    case Local => SnapshotLocality(c, snapshots)
  }

  const NO_WEIGHTS := Weights(0.0, 0.0, 0.0, 0.0, 0.0, 0.0, 0.0, 0.0, 0.0, 0.0)

  /** Only one factor has a weight. */
  function Only(f: Factor, x: real): Weights {
    match f
    case Cpu => NO_WEIGHTS.(cpu := x)
    case Memory => NO_WEIGHTS.(memory := x)
    case Disk => NO_WEIGHTS.(disk := x)
    case Soft => NO_WEIGHTS.(soft := x)
    case Proximity => NO_WEIGHTS.(affinity := x)
    case Hardware => NO_WEIGHTS.(hardware := x)
    case Reliability => NO_WEIGHTS.(reliability := x)
    case Spread => NO_WEIGHTS.(diversity := x)
    case Local => NO_WEIGHTS.(snapshot := x)
  }

  lemma {:induction false} SingleWeight(parts: seq<Part>, i: nat)
    requires i < |parts| && forall j | 0 <= j < |parts| && j != i :: parts[j].weight == 0.0
    ensures Gain(parts) == Weighed(parts[i]) && Room(parts) == Allowed(parts[i])
  {
    var n := |parts| - 1;
    if i == n {
      NoWeight(parts[..n]);
    } else {
      SingleWeight(parts[..n], i);
    }
  }

  lemma {:induction false} NoWeight(parts: seq<Part>)
    requires forall j | 0 <= j < |parts| :: parts[j].weight == 0.0
    ensures Gain(parts) == 0.0 && Room(parts) == 0.0
  {
    if parts != [] {
      NoWeight(parts[..|parts| - 1]);
    }
  }

  function IndexOf(f: Factor): nat {
    match f
    case Cpu => 0 case Memory => 1 case Disk => 2 case Soft => 3 case Proximity => 4 case Hardware => 5
    case Reliability => 6 case Spread => 7 case Local => 8
  }

  lemma PartOf(f: Factor, x: real, c: Capsule, node: Node, lookup: Lookup, snapshots: Snapshots)
    ensures var parts := Parts(Only(f, x), c, node, lookup, snapshots);
            && |parts| == 9 && parts[IndexOf(f)].weight == x
            && parts[IndexOf(f)].contribution == Measure(f, c, node, lookup, snapshots)
            && forall j | 0 <= j < 9 && j != IndexOf(f) :: parts[j].weight == 0.0
  {
  }

  /** Where only one factor has a weight the score is that factor in percent, or 50 if it does not apply: each factor is
      paired with its own weight. */
  lemma OneWeightDecides(f: Factor, x: real, c: Capsule, node: Node, lookup: Lookup, snapshots: Snapshots)
    requires x > 0.0
    ensures Score(Only(f, x), c, node, lookup, snapshots) == InPercent(Measure(f, c, node, lookup, snapshots))
  {
    PartOf(f, x, c, node, lookup, snapshots);
    ScoreOfOne(Only(f, x), c, node, lookup, snapshots, Parts(Only(f, x), c, node, lookup, snapshots), IndexOf(f));
  }

  function InPercent(m: Contribution): real { if m.Applied? then 100.0 * Clamp(m.value) else 50.0 }

  lemma ScoreOfOne(w: Weights, c: Capsule, node: Node, lookup: Lookup, snapshots: Snapshots, parts: seq<Part>, i: nat)
    requires parts == Parts(w, c, node, lookup, snapshots) && w.load == 0.0
    requires i < |parts| && parts[i].weight > 0.0 && forall j | 0 <= j < |parts| && j != i :: parts[j].weight == 0.0
    ensures Score(w, c, node, lookup, snapshots) == InPercent(parts[i].contribution)
  {
    SingleWeight(parts, i);
    Unpenalized(Gain(parts), Room(parts), Load(node.running));
    SharePercent(parts[i]);
  }

  lemma SharePercent(p: Part)
    requires p.weight > 0.0
    ensures (if Allowed(p) <= 0.0 then 50.0 else Percent(Weighed(p), Allowed(p))) == InPercent(p.contribution)
  {
    if p.contribution.Applied? {
      DivideIsUnique(Times(p.contribution.value, p.weight), p.weight, p.contribution.value);
    }
  }

  lemma Unpenalized(gain: real, room: real, load: real)
    ensures Normalized(gain, room, load, 0.0) == if room <= 0.0 then 50.0 else Percent(gain, room)
  {
    assert Penalty(load, 0.0) == 0.0;
  }

  function NameOf(f: Factor): string {
    match f
    case Cpu => "cpu_headroom"
    case Memory => "memory_headroom"
    case Disk => "disk_headroom"
    case Soft => "soft_placement_match"
    case Proximity => "affinity_proximity"
    case Hardware => "hardware_label_match"
    case Reliability => "reliability"
    case Spread => "diversity"
    case Local => "snapshot_locality"
  }

  predicate DistinctNames(parts: seq<Part>) { forall i, j | 0 <= i < j < |parts| :: parts[i].name != parts[j].name }

  lemma {:induction false} BreakdownAt(parts: seq<Part>, name: string)
    requires DistinctNames(parts)
    ensures name in Breakdown(parts) <==>
            exists i :: 0 <= i < |parts| && parts[i].name == name && parts[i].contribution.Applied?
    ensures forall i | 0 <= i < |parts| && parts[i].name == name && parts[i].contribution.Applied? ::
              name in Breakdown(parts) && Breakdown(parts)[name] == parts[i].contribution.value
  {
    if parts != [] {
      var n := |parts| - 1;
      BreakdownAt(parts[..n], name);
      assert forall i | 0 <= i < n :: parts[..n][i] == parts[i];
    }
  }

  lemma NamesAreDistinct(w: Weights, c: Capsule, node: Node, lookup: Lookup, snapshots: Snapshots)
    ensures DistinctNames(Parts(w, c, node, lookup, snapshots))
  {
    var parts := Parts(w, c, node, lookup, snapshots);
    var lengths := [12, 15, 13, 20, 18, 20, 11, 9, 17];
    assert forall i | 0 <= i < 9 :: |parts[i].name| == lengths[i];
    assert parts[3].name[0] == 's' && parts[5].name[0] == 'h';
  }

  /** The breakdown reports each factor that applies, with its value, under its own name. */
  lemma BreakdownNamesFactors(f: Factor, w: Weights, c: Capsule, node: Node, lookup: Lookup, snapshots: Snapshots)
    ensures var b, m := Breakdown(Parts(w, c, node, lookup, snapshots)), Measure(f, c, node, lookup, snapshots);
            (NameOf(f) in b <==> m.Applied?) && (m.Applied? ==> b[NameOf(f)] == m.value)
  {
    var parts := Parts(w, c, node, lookup, snapshots);
    NamesAreDistinct(w, c, node, lookup, snapshots);
    BreakdownAt(parts, NameOf(f));
    assert parts[IndexOf(f)].name == NameOf(f) && parts[IndexOf(f)].contribution == Measure(f, c, node, lookup, snapshots);
  }
}
