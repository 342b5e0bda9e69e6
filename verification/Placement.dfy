/**
  The eligibility filter of the gravity calculator (election/gravity/eligibility.go): health, resources, hard placement
  rules and the rule that no node runs two replicas of one capsule.
 */
module Placement {

  type Labels = map<string, string>

  datatype Kind = OnNode | OnCluster | OnDatacenter | OnCapsule | UnknownKind

  datatype Mode = Near | Away | NoMode

  datatype Rule = Rule(kind: Kind, mode: Mode, names: seq<string>, labels: Labels, required: bool)

  datatype Demand = Demand(cpu: int, memory: int, disk: int)

  datatype Capsule = Capsule(id: string, name: string, image: string, digest: string, labels: Labels, demand: Demand,
                             minReplicas: int, exactReplicas: int, rules: seq<Rule>)

  datatype Resources = Resources(cpuTotal: int, cpuFree: int, memoryTotal: int, memoryFree: int,
                                 diskTotal: int, diskFree: int)

  datatype Status = Active | Suspected | Quarantined | Failed

  /** What placement rules look at: the identity of a node, as opposed to its load. */
  datatype Place = Place(id: string, cluster: string, datacenter: string, labels: Labels)

  datatype Node = Node(place: Place, resources: Resources, status: Status, reliability: real, running: int)

  /** `runners(cluster, capsule)` lists the nodes that run a capsule; the lookup may be missing. */
  datatype Lookup = NoLookup | Lookup(runners: (string, string) -> seq<string>)

  datatype Reason = Passed | Excluded | NotHealthy | LacksCpu | LacksMemory | LacksDisk | RuleFailed

  // ----- rules

  predicate Runs(lookup: Lookup, place: Place, name: string) {
    lookup.Lookup? && place.id in lookup.runners(place.cluster, name)
  }

  predicate RunsAny(lookup: Lookup, place: Place, names: seq<string>) {
    exists i :: 0 <= i < |names| && Runs(lookup, place, names[i])
  }

  predicate HasLabels(labels: Labels, wanted: Labels) {
    forall k | k in wanted :: k in labels && labels[k] == wanted[k]
  }

  predicate Named(names: seq<string>, name: string) { names == [] || name in names }

  /** What a rule means: membership for the three location kinds; for a capsule rule, `near` wants the node to run one of
      the named capsules and `away` wants it to run none. */
  predicate Satisfies(rule: Rule, place: Place, lookup: Lookup) {
    match rule.kind
    case OnNode => Named(rule.names, place.id) && HasLabels(place.labels, rule.labels)
    case OnCluster => Named(rule.names, place.cluster) && rule.labels == map[]
    case OnDatacenter => Named(rule.names, place.datacenter) && rule.labels == map[]
    case OnCapsule =>
      || (rule.mode.Near? && RunsAny(lookup, place, rule.names))
      || (rule.mode.Away? && !RunsAny(lookup, place, rule.names))
    case UnknownKind => false
  }

  method MatchCapsuleRule(rule: Rule, place: Place, lookup: Lookup) returns (ok: bool)
    requires rule.kind.OnCapsule?
    ensures ok <==> Satisfies(rule, place, lookup)
  {
    if lookup.NoLookup? || |rule.names| == 0 {
      return rule.mode == Away;
    }
    var targets: seq<string> := [];
    for i := 0 to |rule.names|
      invariant place.id in targets <==> RunsAny(lookup, place, rule.names[..i])
    {
      targets := targets + lookup.runners(place.cluster, rule.names[i]);
      RunsAnyOneMore(lookup, place, rule.names, i);
    }
    assert rule.names[..|rule.names|] == rule.names;
    if |targets| == 0 {
      return rule.mode == Away;
    }
    var isRunner := place.id in targets;
    if rule.mode == Near {
      return isRunner;
    }
    if rule.mode == Away {
      return !isRunner;
    }
    return false;
  }

  lemma RunsAnyOneMore(lookup: Lookup, place: Place, names: seq<string>, i: nat)
    requires i < |names|
    ensures RunsAny(lookup, place, names[..i + 1]) <==>
            RunsAny(lookup, place, names[..i]) || Runs(lookup, place, names[i])
  {
    var shorter, longer := names[..i], names[..i + 1];
    assert longer[i] == names[i];
    if RunsAny(lookup, place, shorter) {
      var j :| 0 <= j < |shorter| && Runs(lookup, place, shorter[j]);
      assert longer[j] == shorter[j];
    }
    if j :| 0 <= j < |longer| && Runs(lookup, place, longer[j]) {
      assert j < i ==> shorter[j] == longer[j];
    }
  }

  method RuleMatchesNode(rule: Rule, place: Place, lookup: Lookup) returns (ok: bool)
    ensures ok <==> Satisfies(rule, place, lookup)
  {
    match rule.kind
    case OnNode => ok := Named(rule.names, place.id) && HasLabels(place.labels, rule.labels);
    case OnCluster => ok := Named(rule.names, place.cluster) && |rule.labels| == 0;
    case OnDatacenter => ok := Named(rule.names, place.datacenter) && |rule.labels| == 0;
    case OnCapsule => ok := MatchCapsuleRule(rule, place, lookup);
    case UnknownKind => ok := false;
  }

  /** A location rule that names one place holds exactly there, and one that names none holds everywhere; cluster and
      datacenter rules with labels hold nowhere, and node labels must all be there. */
  lemma LocationRules(x: string, y: string, place: Place, lookup: Lookup, mode: Mode, labels: Labels, required: bool)
    ensures Satisfies(Rule(OnNode, mode, [x], map[], required), place, lookup) <==> place.id == x
    ensures Satisfies(Rule(OnCluster, mode, [x], map[], required), place, lookup) <==> place.cluster == x
    ensures Satisfies(Rule(OnDatacenter, mode, [x, y], map[], required), place, lookup) <==>
            place.datacenter == x || place.datacenter == y
    ensures Satisfies(Rule(OnNode, mode, [], labels, required), place, lookup) <==>
            forall k | k in labels :: k in place.labels && place.labels[k] == labels[k]
    ensures Satisfies(Rule(OnCluster, mode, [], labels, required), place, lookup) <==> labels == map[]
    ensures Satisfies(Rule(OnDatacenter, mode, [], labels, required), place, lookup) <==> labels == map[]
  {
  }

  /** Of a near rule and the same rule with `away` exactly one holds, and a rule with neither mode never does. A near rule
      holds exactly where one of its capsules runs. */
  lemma CapsuleRules(r: Rule, place: Place, lookup: Lookup)
    requires r.kind == OnCapsule
    ensures Satisfies(r.(mode := Near), place, lookup) <==> !Satisfies(r.(mode := Away), place, lookup)
    ensures !Satisfies(r.(mode := NoMode), place, lookup)
    ensures Satisfies(r.(mode := Near), place, lookup) <==>
            lookup.Lookup? && exists name :: name in r.names && place.id in lookup.runners(place.cluster, name)
  {
    if lookup.Lookup? {
      forall name | name in r.names && place.id in lookup.runners(place.cluster, name)
        ensures RunsAny(lookup, place, r.names)
      {
        var i :| 0 <= i < |r.names| && r.names[i] == name;
        assert Runs(lookup, place, r.names[i]);
      }
    }
  }

  // ----- eligibility

  predicate Fits(demand: int, free: int) { demand <= 0 || demand <= free }

  predicate MeetsHardRules(rules: seq<Rule>, place: Place, lookup: Lookup) {
    forall i | 0 <= i < |rules| && rules[i].required :: Satisfies(rules[i], place, lookup)
  }

  /** A node may host a capsule: it does not run it already, it is healthy, every demand fits and every hard rule
      holds. */
  predicate Eligible(c: Capsule, node: Node, lookup: Lookup) {
    && !Runs(lookup, node.place, c.name)
    && node.status == Active
    && Fits(c.demand.cpu, node.resources.cpuFree)
    && Fits(c.demand.memory, node.resources.memoryFree)
    && Fits(c.demand.disk, node.resources.diskFree)
    && MeetsHardRules(c.rules, node.place, lookup)
  }

  /** The reason given is the first obstacle in the order self-exclusion, health, CPU, memory, disk, rules. */
  predicate Explains(reason: Reason, c: Capsule, node: Node, lookup: Lookup) {
    match reason
    case Passed => Eligible(c, node, lookup)
    case Excluded => Runs(lookup, node.place, c.name)
    case NotHealthy => !Runs(lookup, node.place, c.name) && node.status != Active
    case LacksCpu => Host(c, node, lookup) && !Fits(c.demand.cpu, node.resources.cpuFree)
    case LacksMemory =>
      && Host(c, node, lookup) && Fits(c.demand.cpu, node.resources.cpuFree)
      && !Fits(c.demand.memory, node.resources.memoryFree)
    case LacksDisk =>
      && Host(c, node, lookup) && Fits(c.demand.cpu, node.resources.cpuFree)
      && Fits(c.demand.memory, node.resources.memoryFree) && !Fits(c.demand.disk, node.resources.diskFree)
    case RuleFailed =>
      && Host(c, node, lookup) && Fits(c.demand.cpu, node.resources.cpuFree)
      && Fits(c.demand.memory, node.resources.memoryFree) && Fits(c.demand.disk, node.resources.diskFree)
      && !MeetsHardRules(c.rules, node.place, lookup)
  }

  predicate Host(c: Capsule, node: Node, lookup: Lookup) {
    !Runs(lookup, node.place, c.name) && node.status == Active
  }

  method IsEligible(c: Capsule, node: Node, lookup: Lookup) returns (reason: Reason)
    ensures Explains(reason, c, node, lookup)
  {
    if lookup.Lookup? && node.place.id in lookup.runners(node.place.cluster, c.name) {
      return Excluded;
    }
    if node.status != Active {
      return NotHealthy;
    }
    if c.demand.cpu > 0 && node.resources.cpuFree < c.demand.cpu {
      return LacksCpu;
    }
    if c.demand.memory > 0 && node.resources.memoryFree < c.demand.memory {
      return LacksMemory;
    }
    if c.demand.disk > 0 && node.resources.diskFree < c.demand.disk {
      return LacksDisk;
    }
    for i := 0 to |c.rules|
      invariant forall j | 0 <= j < i && c.rules[j].required :: Satisfies(c.rules[j], node.place, lookup)
    {
      if c.rules[i].required {
        var ok := RuleMatchesNode(c.rules[i], node.place, lookup);
        if !ok {
          return RuleFailed;
        }
      }
    }
    return Passed;
  }

  /** Exactly one reason explains each case, so the filter passes exactly the eligible nodes. */
  lemma OneReason(r0: Reason, r1: Reason, c: Capsule, node: Node, lookup: Lookup)
    requires Explains(r0, c, node, lookup) && Explains(r1, c, node, lookup)
    ensures r0 == r1
  {
  }
}
