/**
  Self-selection of the nodes that answer a ping request (node/health/monitor.go `isTopResponder`).
 */
module Responder {
  import opened FiniteSets
  import opened Options

  type NodeId = string

  /** The phonebook fields that the selection reads; `firstSeen` is a time. */
  datatype Peer = Peer(id: NodeId, firstSeen: int, active: bool)

  predicate Candidate(p: Peer, target: NodeId) { p.id != target && p.active }

  // ----- sorting by age

  predicate ByAge(s: seq<Peer>) { forall i, j | 0 <= i < j < |s| :: s[i].firstSeen <= s[j].firstSeen }

  function Insert(p: Peer, s: seq<Peer>): seq<Peer> {
    if s == [] then [p]
    else if p.firstSeen < s[0].firstSeen then [p] + s
    else [s[0]] + Insert(p, s[1..])
  }

  function Sorted(s: seq<Peer>): seq<Peer> {
    if s == [] then [] else Insert(s[0], Sorted(s[1..]))
  }

  lemma {:induction false} InsertSorts(p: Peer, s: seq<Peer>)
    requires ByAge(s)
    ensures var r := Insert(p, s); ByAge(r) && |r| == |s| + 1 && forall x :: x in r <==> x == p || x in s
  {
    if s != [] && p.firstSeen >= s[0].firstSeen {
      InsertSorts(p, s[1..]);
      var rest := Insert(p, s[1..]);
      assert s == [s[0]] + s[1..];
      forall i | 0 <= i < |rest| ensures s[0].firstSeen <= rest[i].firstSeen {
        assert rest[i] in rest;
      }
    }
  }

  lemma {:induction false} SortedSorts(s: seq<Peer>)
    ensures ByAge(Sorted(s)) && |Sorted(s)| == |s| && forall x :: x in Sorted(s) <==> x in s
  {
    if s != [] {
      SortedSorts(s[1..]);
      InsertSorts(s[0], Sorted(s[1..]));
      assert s == [s[0]] + s[1..];
    }
  }

  // ----- the selection

  /** One phonebook view: node IDs are unique and no two nodes were first seen at the same instant. */
  ghost predicate View(peers: seq<Peer>) {
    forall i, j | 0 <= i < j < |peers| :: peers[i].id != peers[j].id && peers[i].firstSeen != peers[j].firstSeen
  }

  ghost function Candidates(peers: seq<Peer>, target: NodeId): set<Peer> {
    set p | p in peers && Candidate(p, target)
  }

  /** The members of `s` that are older than `p`. */
  ghost function Older(s: set<Peer>, p: Peer): set<Peer> { set q | q in s && q.firstSeen < p.firstSeen }

  /** The candidates with fewer than `n` candidates older than themselves. */
  ghost function Oldest(s: set<Peer>, n: int): set<Peer> { set p | p in s && |Older(s, p)| < n }

  ghost predicate Chosen(peers: seq<Peer>, self: NodeId, target: NodeId, n: int) {
    exists p | p in Oldest(Candidates(peers, target), n) :: p.id == self
  }

  /** `peers` is what the phonebook returns, or nothing if it fails. */
  method IsTopResponder(peers: Option<seq<Peer>>, self: NodeId, target: NodeId, maxResponders: int) returns (top: bool)
    ensures peers.None? ==> !top
    ensures peers.Some? && View(peers.value) ==> (top <==> Chosen(peers.value, self, target, maxResponders))
  {
    if peers.None? {
      return false;
    }
    SortedSorts(peers.value);
    if View(peers.value) {
      SortedView(peers.value);
      assert Candidates(Sorted(peers.value), target) == Candidates(peers.value, target);
    }
    top := WalkByAge(Sorted(peers.value), self, target, maxResponders);
  }

  /** A node probes the target of a request that is not its own, if the target's ID decodes and it is a top responder. */
  method OnPingRequest(peers: Option<seq<Peer>>, self: NodeId, requester: NodeId, target: Option<NodeId>,
                       maxResponders: int)
    returns (probes: bool)
    ensures self == requester || target.None? || peers.None? ==> !probes
    ensures target.Some? && peers.Some? && View(peers.value) ==>
              (probes <==> Probes(peers.value, self, requester, target.value, maxResponders))
  {
    if requester == self || target.None? {
      return false;
    }
    probes := IsTopResponder(peers, self, target.value, maxResponders);
  }

  ghost predicate Probes(peers: seq<Peer>, self: NodeId, requester: NodeId, target: NodeId, n: int) {
    self != requester && Chosen(peers, self, target, n)
  }

  /** Counts candidates from the oldest until it meets itself or enough others. */
  method WalkByAge(peers: seq<Peer>, self: NodeId, target: NodeId, maxResponders: int) returns (top: bool)
    requires ByAge(peers)
    ensures View(peers) ==> (top <==> Chosen(peers, self, target, maxResponders))
  {
    var position := 0;
    for i := 0 to |peers|
      invariant View(peers) ==> position == |Candidates(peers[..i], target)|
      invariant forall q | q in peers[..i] && Candidate(q, target) :: q.id != self
    {
      var p := peers[i];
      assert peers[..i + 1] == peers[..i] + [p];
      if p.id == target || !p.active {
        NotCounted(peers, i, target);
        continue;
      }
      if p.id == self {
        if View(peers) {
          OlderArePrefix(peers, target, i);
          SelfFound(peers, target, i, maxResponders, self);
        }
        return position < maxResponders;
      }
      position := position + 1;
      if View(peers) { Counted(peers, i, target); }
      if position >= maxResponders {
        if View(peers) { EnoughOlder(peers, target, i, maxResponders, self); }
        return false;
      }
    }
    assert peers[..|peers|] == peers;
    return false;
  }

  lemma SortedView(peers: seq<Peer>)
    requires View(peers) && ByAge(Sorted(peers)) && |Sorted(peers)| == |peers|
    requires forall x :: x in Sorted(peers) <==> x in peers
    ensures View(Sorted(peers))
  {
    DistinctBySize(peers, Sorted(peers));
    var s := Sorted(peers);
    forall i, j | 0 <= i < j < |s| ensures s[i].id != s[j].id && s[i].firstSeen != s[j].firstSeen {
      assert s[i] in peers && s[j] in peers && s[i] != s[j];
    }
  }

  /** A sequence as long as one without repetition, with the same elements, has no repetition either. */
  lemma DistinctBySize(a: seq<Peer>, b: seq<Peer>)
    requires |a| == |b| && (forall x :: x in a <==> x in b)
    requires forall i, j | 0 <= i < j < |a| :: a[i] != a[j]
    ensures forall i, j | 0 <= i < j < |b| :: b[i] != b[j]
  {
    Elements(a);
    assert (set x | x in a) == (set x | x in b);
    forall i, j | 0 <= i < j < |b| ensures b[i] != b[j] {
      if b[i] == b[j] {
        var c := b[..j] + b[j + 1..];
        forall x | x in b ensures x in c {
          var k :| 0 <= k < |b| && b[k] == x;
          if k < j { assert c[k] == x; } else if k > j { assert c[k - 1] == x; } else { assert c[i] == x; }
        }
        assert (set x | x in c) == (set x | x in b);
        SizeAtMost(c);
      }
    }
  }

  lemma {:induction false} Elements(a: seq<Peer>)
    requires forall i, j | 0 <= i < j < |a| :: a[i] != a[j]
    ensures |set x | x in a| == |a|
  {
    if a != [] {
      var rest := a[..|a| - 1];
      Elements(rest);
      assert (set x | x in a) == (set x | x in rest) + {a[|a| - 1]};
    }
  }

  lemma {:induction false} SizeAtMost(a: seq<Peer>)
    ensures |set x | x in a| <= |a|
  {
    if a != [] {
      var rest := a[..|a| - 1];
      SizeAtMost(rest);
      assert (set x | x in a) == (set x | x in rest) + {a[|a| - 1]};
    }
  }

  lemma NotCounted(sorted: seq<Peer>, i: nat, target: NodeId)
    requires i < |sorted| && !Candidate(sorted[i], target)
    ensures Candidates(sorted[..i + 1], target) == Candidates(sorted[..i], target)
  {
    assert sorted[..i + 1] == sorted[..i] + [sorted[i]];
  }

  lemma Counted(sorted: seq<Peer>, i: nat, target: NodeId)
    requires View(sorted) && i < |sorted| && Candidate(sorted[i], target)
    ensures |Candidates(sorted[..i + 1], target)| == |Candidates(sorted[..i], target)| + 1
  {
    assert sorted[..i + 1] == sorted[..i] + [sorted[i]];
    assert Candidates(sorted[..i + 1], target) == Candidates(sorted[..i], target) + {sorted[i]};
  }

  /** In a sorted view the candidates older than the one at `i` are those before it. */
  lemma OlderArePrefix(peers: seq<Peer>, target: NodeId, i: nat)
    requires ByAge(peers) && View(peers) && i < |peers|
    ensures Older(Candidates(peers, target), peers[i]) == Candidates(peers[..i], target)
  {
    forall q | q in Older(Candidates(peers, target), peers[i]) ensures q in peers[..i] {
      var k :| 0 <= k < |peers| && peers[k] == q;
      assert k < i;
      assert peers[..i][k] == q;
    }
  }

  lemma SelfFound(peers: seq<Peer>, target: NodeId, i: nat, n: int, self: NodeId)
    requires View(peers) && i < |peers| && Candidate(peers[i], target) && peers[i].id == self
    ensures Chosen(peers, self, target, n) <==> |Older(Candidates(peers, target), peers[i])| < n
  {
    forall q | q in peers && q.id == self ensures q == peers[i] {
      var k :| 0 <= k < |peers| && peers[k] == q;
    }
  }

  /** Once `n` candidates precede it, a node later in the order is not chosen. */
  lemma EnoughOlder(peers: seq<Peer>, target: NodeId, i: nat, n: int, self: NodeId)
    requires ByAge(peers) && View(peers) && i < |peers|
    requires |Candidates(peers[..i + 1], target)| >= n
    requires forall q | q in peers[..i + 1] && Candidate(q, target) :: q.id != self
    ensures !Chosen(peers, self, target, n)
  {
    var s := Candidates(peers, target);
    forall p | p in s && p.id == self ensures |Older(s, p)| >= n {
      forall m | 0 <= m <= i ensures peers[m] != p { assert peers[m] == peers[..i + 1][m]; }
      var k :| 0 <= k < |peers| && peers[k] == p;
      OlderArePrefix(peers, target, k);
      forall x | x in peers[..i + 1] ensures x in peers[..k] {
        var m :| 0 <= m < i + 1 && peers[m] == x;
        assert peers[..k][m] == x;
      }
      SubsetSize(Candidates(peers[..i + 1], target), Candidates(peers[..k], target));
    }
  }

  // ----- how many nodes respond

  ghost predicate DistinctAges(s: set<Peer>) {
    forall p, q | p in s && q in s && p != q :: p.firstSeen != q.firstSeen
  }

  lemma {:induction false} Youngest(s: set<Peer>) returns (y: Peer)
    requires s != {}
    ensures y in s && forall p | p in s :: p.firstSeen <= y.firstSeen
  {
    var x :| x in s;
    if s == {x} {
      y := x;
    } else {
      y := Youngest(s - {x});
      if y.firstSeen < x.firstSeen { y := x; }
    }
  }

  lemma OldestWithYoungest(s: set<Peer>, y: Peer, n: nat)
    requires DistinctAges(s) && y in s && forall p | p in s :: p.firstSeen <= y.firstSeen
    ensures Oldest(s, n) == Oldest(s - {y}, n) + (if |s| - 1 < n then {y} else {})
  {
    forall p | p in s - {y} ensures Older(s, p) == Older(s - {y}, p) { }
    assert Older(s, y) == s - {y};
  }

  /** The size of the chosen set: `n`, or everyone if there are fewer. */
  lemma {:induction false} OldestCount(s: set<Peer>, n: nat)
    requires DistinctAges(s)
    ensures |Oldest(s, n)| == if n <= |s| then n else |s|
    decreases |s|
  {
    if s == {} {
      assert Oldest(s, n) == {};
    } else {
      var y := Youngest(s);
      var rest := s - {y};
      OldestCount(rest, n);
      OldestWithYoungest(s, y, n);
      if |rest| < n {
        SubsetFull(Oldest(rest, n), rest);
        assert Oldest(s, n) == s;
      }
    }
  }

  /** Everyone chosen is older than everyone left out. */
  lemma {:induction false} OldestFirst(s: set<Peer>, n: nat)
    requires DistinctAges(s)
    ensures forall p, q | p in Oldest(s, n) && q in s && q !in Oldest(s, n) :: p.firstSeen < q.firstSeen
    decreases |s|
  {
    if s != {} {
      var y := Youngest(s);
      var rest := s - {y};
      OldestCount(rest, n);
      OldestFirst(rest, n);
      OldestWithYoungest(s, y, n);
      if |rest| < n {
        SubsetFull(Oldest(rest, n), rest);
        assert Oldest(s, n) == s;
      }
    }
  }

  /** All nodes sharing a view agree: those for which the test holds are exactly the oldest active nodes other than
      the target, as many as allowed or as there are. */
  lemma RespondersAreTheOldest(peers: seq<Peer>, target: NodeId, n: nat)
    requires View(peers)
    ensures var all := set p | p in peers && p.active && p.id != target;
            var chosen := set p | p in peers && Chosen(peers, p.id, target, n);
            && chosen == Oldest(all, n) && |chosen| == (if n <= |all| then n else |all|)
            && forall p, q | p in chosen && q in all && q !in chosen :: p.firstSeen < q.firstSeen
  {
    var all := Candidates(peers, target);
    assert all == set p | p in peers && p.active && p.id != target;
    OldestCount(all, n);
    OldestFirst(all, n);
    assert (set p | p in peers && Chosen(peers, p.id, target, n)) == Oldest(all, n);
  }

  ghost function Probers(peers: seq<Peer>, requester: NodeId, target: NodeId, n: int): set<Peer> {
    set p | p in peers && Probes(peers, p.id, requester, target, n)
  }

  lemma ProbersAreOthers(peers: seq<Peer>, requester: NodeId, target: NodeId, n: int)
    requires View(peers)
    ensures Probers(peers, requester, target, n) ==
            set p | p in Oldest(Candidates(peers, target), n) && p.id != requester
  {
  }

  /** Leaving out the requester takes at most one node away. */
  lemma WithoutRequester(chosen: set<Peer>, requester: NodeId)
    requires forall p, q | p in chosen && q in chosen && p.id == q.id :: p == q
    ensures var others := set p | p in chosen && p.id != requester;
            |others| == if exists r :: r in chosen && r.id == requester then |chosen| - 1 else |chosen|
  {
    var others := set p | p in chosen && p.id != requester;
    if r :| r in chosen && r.id == requester {
      assert others == chosen - {r};
    } else {
      assert others == chosen;
    }
  }

  /** The nodes that probe are the responders without the requester: one fewer when the requester is among them. */
  lemma ProbersAreTheOldestOthers(peers: seq<Peer>, requester: NodeId, target: NodeId, n: nat)
    requires View(peers)
    ensures var all := set p | p in peers && p.active && p.id != target;
            var count := if n <= |all| then n else |all|;
            && Probers(peers, requester, target, n) == (set p | p in Oldest(all, n) && p.id != requester)
            && |Probers(peers, requester, target, n)| ==
               if Chosen(peers, requester, target, n) then count - 1 else count
  {
    var all := Candidates(peers, target);
    assert all == set p | p in peers && p.active && p.id != target;
    OldestCount(all, n);
    ProbersAreOthers(peers, requester, target, n);
    WithoutRequester(Oldest(all, n), requester);
  }
}
