/**
  Replica slots of a capsule: choosing the next slot for a scale-up and assigning a slot to a node
  (node/capsule_handler.go `nextReplicaSlot`, `parseReplicaSlot`, `replicaSlotID`;
  capsule/manager.go `AssignReplica`).
 */
module ReplicaSlots {
  import opened Options
  import opened Decimal

  datatype Replica = Replica(id: string, node: string, isAssigned: bool, startedAt: int)

  /** Go's conversion of an int to int32. */
  function ToInt32(n: int): int { (n + 0x8000_0000) % 0x1_0000_0000 - 0x8000_0000 }

  function SlotId(i: int): string { Show(i) }

  function ParseSlot(id: string): int {
    match Scan(id)
    case Some(n) => n
    case None => -1
  }

  /** The highest slot in use, or -1. */
  function Highest(replicas: seq<Replica>): int {
    if replicas == [] then -1
    else
      var h, n := Highest(replicas[..|replicas| - 1]), ParseSlot(replicas[|replicas| - 1].id);
      if n > h then n else h
  }

  predicate HasId(replicas: seq<Replica>, id: string) { exists i :: 0 <= i < |replicas| && replicas[i].id == id }

  method NextReplicaSlot(replicas: seq<Replica>) returns (slot: string)
    ensures slot == SlotId(ToInt32(Highest(replicas) + 1))
  {
    var highest := -1;
    for i := 0 to |replicas|
      invariant highest == Highest(replicas[..i])
    {
      assert replicas[..i + 1][..i] == replicas[..i];
      var idx := ParseSlot(replicas[i].id);
      if idx > highest {
        highest := idx;
      }
    }
    assert replicas[..|replicas|] == replicas;
    slot := SlotId(ToInt32(highest + 1));
  }

  lemma {:induction false} HighestBounds(replicas: seq<Replica>)
    ensures -1 <= Highest(replicas) <= MAX_INT64
    ensures forall i | 0 <= i < |replicas| :: ParseSlot(replicas[i].id) <= Highest(replicas)
    ensures Highest(replicas) != -1 ==> exists i :: 0 <= i < |replicas| && ParseSlot(replicas[i].id) == Highest(replicas)
  {
    if replicas != [] {
      var init, n := replicas[..|replicas| - 1], |replicas| - 1;
      HighestBounds(init);
      forall i | 0 <= i < |replicas| ensures ParseSlot(replicas[i].id) <= Highest(replicas) {
        if i < n { assert init[i] == replicas[i]; }
      }
      if Highest(replicas) == Highest(init) != -1 {
        var i :| 0 <= i < |init| && ParseSlot(init[i].id) == Highest(init);
        assert replicas[i] == init[i];
      }
    }
  }

  /** The highest slot is the largest number that an ID parses to; IDs that do not parse do not count. */
  lemma HighestIff(replicas: seq<Replica>, h: int)
    ensures Highest(replicas) == -1 <==>
            forall i | 0 <= i < |replicas| && Scan(replicas[i].id).Some? :: Scan(replicas[i].id).value < 0
    ensures 0 <= h ==>
              (Highest(replicas) == h <==>
                 && (exists i :: 0 <= i < |replicas| && Scan(replicas[i].id) == Some(h))
                 && (forall i | 0 <= i < |replicas| && Scan(replicas[i].id).Some? :: Scan(replicas[i].id).value <= h))
  {
    HighestBounds(replicas);
    assert forall i | 0 <= i < |replicas| ::
        ParseSlot(replicas[i].id) == if Scan(replicas[i].id).Some? then Scan(replicas[i].id).value else -1;
  }

  /** The next slot is not in use, whatever the other IDs look like, as long as it fits an int32. */
  lemma NextSlotIsFresh(replicas: seq<Replica>)
    requires Highest(replicas) + 1 <= 0x7fff_ffff
    ensures !HasId(replicas, SlotId(ToInt32(Highest(replicas) + 1)))
  {
    HighestBounds(replicas);
    var next := Highest(replicas) + 1;
    assert ToInt32(next) == next;
    ParsersReadBack(next);
  }

  /** The wrapped-around slot number collides with a replica that has it already. */
  lemma WrappedSlotCollides(highest: int) returns (replicas: seq<Replica>)
    requires 0x7fff_ffff <= highest <= MAX_INT64
    ensures Highest(replicas) == highest && HasId(replicas, SlotId(ToInt32(highest + 1)))
  {
    var wrapped := ToInt32(highest + 1);
    var a, b := Replica(SlotId(highest), "", true, 0), Replica(SlotId(wrapped), "", true, 0);
    ParsersReadBack(highest);
    ParsersReadBack(wrapped);
    replicas := [a, b];
    assert [a][..0] == [];
    assert Highest([a]) == highest;
    assert replicas[..1] == [a];
    assert replicas[1].id == SlotId(wrapped);
  }

  /** Slot numbers are handed out safely from a given highest slot if and only if the successor fits an int32. */
  lemma FreshIffFits(highest: int)
    requires -1 <= highest <= MAX_INT64
    ensures (forall replicas: seq<Replica> | Highest(replicas) == highest ::
               !HasId(replicas, SlotId(ToInt32(highest + 1)))) <==> highest + 1 <= 0x7fff_ffff
  {
    if highest + 1 <= 0x7fff_ffff {
      forall replicas: seq<Replica> | Highest(replicas) == highest
        ensures !HasId(replicas, SlotId(ToInt32(highest + 1)))
      {
        NextSlotIsFresh(replicas);
      }
    } else {
      var replicas := WrappedSlotCollides(highest);
    }
  }

  // ----- assignment

  /** The position of the first replica with the given ID, or the length. */
  function FirstAt(replicas: seq<Replica>, id: string): (i: nat)
    ensures i <= |replicas|
    ensures i < |replicas| ==> replicas[i].id == id
    ensures forall j | 0 <= j < i :: replicas[j].id != id
  {
    if replicas == [] || replicas[0].id == id then 0 else 1 + FirstAt(replicas[1..], id)
  }

  function Assigned(replicas: seq<Replica>, id: string, node: string, now: int): seq<Replica> {
    var i := FirstAt(replicas, id);
    if i < |replicas| then replicas[i := Replica(id, node, true, now)]
    else replicas + [Replica(id, node, true, now)]
  }

  /** The capsule's replica list, updated in place. */
  class ReplicaTable {
    var replicas: seq<Replica>

    /** `known`: the store has the capsule; `saved`: the database takes the change, which stays in memory either way. */
    method AssignReplica(id: string, node: string, now: int, known: bool, saved: bool) returns (ok: bool)
      modifies this
      ensures replicas == if known then Assigned(old(replicas), id, node, now) else old(replicas)
      ensures ok == (known && saved)
    {
      if !known {
        return false;
      }
      var found := false;
      var i := 0;
      while i < |replicas| && !found
        invariant 0 <= i <= |replicas| == |old(replicas)|
        invariant !found ==> replicas == old(replicas) && forall j | 0 <= j < i :: replicas[j].id != id
        invariant found ==> i < |old(replicas)| && FirstAt(old(replicas), id) == i
                            && replicas == old(replicas)[i := Replica(id, node, true, now)]
        decreases |replicas| - i, !found
      {
        if replicas[i].id == id {
          replicas := replicas[i := replicas[i].(node := node, isAssigned := true, startedAt := now)];
          found := true;
        } else {
          i := i + 1;
        }
      }
      if !found {
        replicas := replicas + [Replica(id, node, true, now)];
      }
      return saved;
    }
  }

  predicate UniqueIds(replicas: seq<Replica>) {
    forall i, j | 0 <= i < j < |replicas| :: replicas[i].id != replicas[j].id
  }

  /** Assignment keeps IDs unique, touches no other slot, places the replica on the node, and appends exactly when the
      ID is new. */
  lemma AssignmentIsLocal(replicas: seq<Replica>, id: string, node: string, now: int)
    requires UniqueIds(replicas)
    ensures var r := Assigned(replicas, id, node, now);
            && UniqueIds(r)
            && (if HasId(replicas, id) then |r| == |replicas| else |r| == |replicas| + 1 && r[..|replicas|] == replicas)
            && (forall i | 0 <= i < |replicas| && replicas[i].id != id :: r[i] == replicas[i])
            && Replica(id, node, true, now) in r
            && (forall i | 0 <= i < |r| && r[i].id == id :: r[i] == Replica(id, node, true, now))
  {
    var i, r := FirstAt(replicas, id), Assigned(replicas, id, node, now);
    if i < |replicas| {
      assert r[i] == Replica(id, node, true, now);
    } else {
      assert r[|replicas|] == Replica(id, node, true, now);
    }
  }

  lemma AppendedIsHighest(replicas: seq<Replica>, entry: Replica, next: int)
    requires ParseSlot(entry.id) == next == Highest(replicas) + 1
    ensures Highest(replicas + [entry]) == next
  {
    var r := replicas + [entry];
    assert r[..|r| - 1] == replicas;
  }

  lemma SlotReadsBack(next: int)
    requires 0 <= next <= 0x7fff_ffff
    ensures ParseSlot(SlotId(ToInt32(next))) == next
  {
    assert ToInt32(next) == next;
    ParsersReadBack(next);
  }

  lemma AppendNew(replicas: seq<Replica>, id: string, node: string, now: int)
    requires !HasId(replicas, id)
    ensures Assigned(replicas, id, node, now) == replicas + [Replica(id, node, true, now)]
  {
    assert FirstAt(replicas, id) == |replicas|;
  }

  /** A scale-up with the next slot adds one entry, disturbs none, and moves the highest slot up by one. */
  lemma ScaleUpAppends(replicas: seq<Replica>, id: string, node: string, now: int)
    requires UniqueIds(replicas) && Highest(replicas) + 1 <= 0x7fff_ffff
    requires id == SlotId(ToInt32(Highest(replicas) + 1))
    ensures Assigned(replicas, id, node, now) == replicas + [Replica(id, node, true, now)]
    ensures UniqueIds(replicas + [Replica(id, node, true, now)])
    ensures Highest(replicas + [Replica(id, node, true, now)]) == Highest(replicas) + 1
  {
    NextSlotIsFresh(replicas);
    AppendNew(replicas, id, node, now);
    AssignmentIsLocal(replicas, id, node, now);
    HighestBounds(replicas);
    SlotReadsBack(Highest(replicas) + 1);
    AppendedIsHighest(replicas, Replica(id, node, true, now), Highest(replicas) + 1);
  }
}
