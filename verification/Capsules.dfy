/**
  The capsule manager (capsule/manager.go): the store of capsules, the lifecycle machine of each, and the database rows
  behind the store (capsule/store.go, capsule/lifecycle.go).

  Whether a database statement succeeds is a parameter of the operation that issues it.
 */
module Capsules {
  import opened Options

  type Id = string

  datatype Status =
    | Created | Announced | Electing | Assigned | Executing | Running | Stopping | Stopped
    | Other(text: string)          // a status string that is none of the eight

  predicate Valid(s: Status) { !s.Other? }

  datatype Trigger =
    | Announce | ElectionStarted | ElectionWon | ElectionTimeout | ExecutionStarted | ExecutionFailed
    | ContainerReady | StopRequested | NodeFailed | ScaleUpNeeded | ScaleDownNeeded | ContainerStopped
    | OtherTrigger(text: string)

  datatype Capsule = Capsule(cluster: string, spec: string, status: Status)

  /** The transitions a lifecycle machine permits. */
  function Next(s: Status, t: Trigger): Option<Status> {
    match (s, t)
    case (Created, Announce) => Some(Announced)
    case (Announced, ElectionStarted) => Some(Electing)
    case (Electing, ElectionWon) => Some(Assigned)
    case (Electing, ElectionTimeout) => Some(Announced)
    case (Assigned, ExecutionStarted) => Some(Executing)
    case (Assigned, ExecutionFailed) => Some(Announced)
    case (Executing, ContainerReady) => Some(Running)
    case (Executing, ExecutionFailed) => Some(Announced)
    case (Running, StopRequested) => Some(Stopping)
    case (Running, NodeFailed) => Some(Announced)
    case (Running, ScaleUpNeeded) => Some(Announced)
    case (Running, ScaleDownNeeded) => Some(Stopping)
    case (Stopping, ContainerStopped) => Some(Stopped)
    case (Stopped, Announce) => Some(Announced)
    case _ => None
  }

  /** The state a new machine starts in. */
  function Initial(s: Status): Status { if Valid(s) then s else Created }

  /** The capsules in memory, the state of each lifecycle machine, and the rows in the database. */
  datatype State = State(store: map<Id, Capsule>, machines: map<Id, Status>, rows: map<Id, Capsule>)

  datatype Event =
    | Create(id: Id, cluster: string, spec: string, accepted: bool, inserted: bool, saved: bool)
    | Receive(id: Id, capsule: Capsule, saved: bool)
    | Fire(id: Id, trigger: Trigger, saved: bool)
    | SyncStatus(id: Id, status: Status, saved: bool)
    | Update(id: Id, spec: string, accepted: bool, saved: bool)
    | Delete(id: Id, saved: bool)
    | Restart

  // ----- the operations as functions

  function Write(rows: map<Id, Capsule>, id: Id, c: Capsule, saved: bool): map<Id, Capsule> {
    if saved then rows[id := c] else rows
  }

  /** A stored capsule is changed in memory first and stays changed when the database refuses it. */
  function Change(s: State, id: Id, c: Capsule, saved: bool): State {
    s.(store := s.store[id := c], rows := Write(s.rows, id, c, saved))
  }

  function Fired(s: State, id: Id, t: Trigger, saved: bool): State {
    if id !in s.machines || Next(s.machines[id], t).None? then s
    else
      var to := Next(s.machines[id], t).value;
      var moved := s.(machines := s.machines[id := to]);
      if id !in s.store then moved else Change(moved, id, s.store[id].(status := to), saved)
  }

  function Inserted(s: State, id: Id, c: Capsule, start: Status): State {
    State(s.store[id := c], s.machines[id := Initial(start)], s.rows[id := c])
  }

  function Apply(s: State, e: Event): State {
    match e
    case Create(id, cluster, spec, accepted, inserted, saved) =>
      if cluster == "" || !accepted || id in s.store || !inserted then s
      else Fired(Inserted(s, id, Capsule(cluster, spec, Created), Created), id, Announce, saved)
    case Receive(id, c, saved) =>
      if !saved then s
      else if id in s.store then s.(store := s.store[id := c], rows := s.rows[id := c])
      else Inserted(s, id, c, if Valid(c.status) then c.status else Announced)
    case Fire(id, t, saved) => Fired(s, id, t, saved)
    case SyncStatus(id, status, saved) =>
      if !Valid(status) || id !in s.store then s
      else
        var changed := Change(s, id, s.store[id].(status := status), saved);
        if saved then changed.(machines := s.machines[id := Initial(status)]) else changed
    case Update(id, spec, accepted, saved) =>
      if !accepted || id !in s.store then s else Change(s, id, s.store[id].(spec := spec), saved)
    case Delete(id, saved) =>
      if id !in s.store || !saved then s else State(s.store - {id}, s.machines - {id}, s.rows - {id})
    case Restart =>
      State(s.rows, map id | id in s.rows :: Initial(s.rows[id].status), s.rows)
  }

  ghost predicate Run(states: seq<State>, events: seq<Event>) {
    && |states| == |events| + 1
    && forall i | 0 <= i < |events| :: states[i + 1] == Apply(states[i], events[i])
  }

  // ----- the manager

  class Manager {
    var store: map<Id, Capsule>
    var machines: map<Id, Status>
    var rows: map<Id, Capsule>

    ghost function Value(): State
      reads this
    {
      State(store, machines, rows)
    }

    /** Opens the database: the store is what the rows say, and every machine starts at its capsule's status. */
    constructor (rows: map<Id, Capsule>)
      ensures forall s: State | s.rows == rows :: Value() == Apply(s, Restart)
    {
      this.store := rows;
      this.rows := rows;
      this.machines := map id | id in rows :: Initial(rows[id].status);
    }

    /** The handler of a transition: the new status is stored and saved. */
    method OnTransition(id: Id, to: Status, saved: bool)
      modifies this`store, this`rows
      ensures store == if id in old(store) then old(store)[id := old(store)[id].(status := to)] else old(store)
      ensures rows == if id in old(store) then Write(old(rows), id, old(store)[id].(status := to), saved) else old(rows)
    {
      if id !in store {
        return;
      }
      store := store[id := store[id].(status := to)];
      if saved {
        rows := rows[id := store[id]];
      }
    }

    method Fire(id: Id, t: Trigger, saved: bool) returns (ok: bool)
      modifies this
      ensures Value() == Apply(old(Value()), Event.Fire(id, t, saved))
      ensures ok <==> id in old(machines) && Next(old(machines)[id], t).Some?
    {
      if id !in machines {
        return false;
      }
      match Next(machines[id], t)
      case None => return false;
      case Some(to) =>
        machines := machines[id := to];
        OnTransition(id, to, saved);
        return true;
    }

    method Create(id: Id, cluster: string, spec: string, accepted: bool, inserted: bool, saved: bool) returns (ok: bool)
      modifies this
      ensures Value() == Apply(old(Value()), Event.Create(id, cluster, spec, accepted, inserted, saved))
      ensures ok <==> cluster != "" && accepted && id !in old(store) && inserted
      ensures ok ==> store[id] == Capsule(cluster, spec, Announced) && machines[id] == Announced
    {
      if cluster == "" || !accepted || id in store || !inserted {
        return false;
      }
      store := store[id := Capsule(cluster, spec, Created)];
      rows := rows[id := Capsule(cluster, spec, Created)];
      machines := machines[id := Created];
      var _ := Fire(id, Announce, saved);
      return true;
    }

    method Receive(id: Id, c: Capsule, saved: bool) returns (ok: bool)
      modifies this
      ensures Value() == Apply(old(Value()), Event.Receive(id, c, saved))
      ensures ok == saved
    {
      if id in store {
        if !saved {
          return false;
        }
        store := store[id := c];
        rows := rows[id := c];
      } else {
        if !saved {
          return false;
        }
        store := store[id := c];
        rows := rows[id := c];
        var initial := c.status;
        if !Valid(initial) {
          initial := Announced;
        }
        machines := machines[id := Initial(initial)];
      }
      return true;
    }

    method SyncStatus(id: Id, status: Status, saved: bool) returns (ok: bool)
      modifies this
      ensures Value() == Apply(old(Value()), Event.SyncStatus(id, status, saved))
      ensures ok <==> Valid(status) && id in old(store) && saved
    {
      if !Valid(status) || id !in store {
        return false;
      }
      store := store[id := store[id].(status := status)];
      if !saved {
        return false;
      }
      rows := rows[id := store[id]];
      machines := machines[id := Initial(status)];
      return true;
    }

    method Update(id: Id, spec: string, accepted: bool, saved: bool) returns (ok: bool)
      modifies this`store, this`rows
      ensures Value() == Apply(old(Value()), Event.Update(id, spec, accepted, saved))
      ensures ok <==> accepted && id in old(store) && saved
    {
      if !accepted || id !in store {
        return false;
      }
      store := store[id := store[id].(spec := spec)];
      if !saved {
        return false;
      }
      rows := rows[id := store[id]];
      return true;
    }

    method Delete(id: Id, saved: bool) returns (ok: bool)
      modifies this
      ensures Value() == Apply(old(Value()), Event.Delete(id, saved))
      ensures ok <==> id in old(store) && saved
    {
      if id !in store || !saved {
        return false;
      }
      store := store - {id};
      rows := rows - {id};
      machines := machines - {id};
      return true;
    }
  }

  // ----- store and machines in step

  /** A capsule has a machine exactly when it is stored, and the two agree on its status. */
  predicate SyncedAt(s: State, id: Id) {
    && (id in s.store <==> id in s.machines)
    && (id in s.store ==> s.store[id].status == s.machines[id])
  }

  ghost predicate Synced(s: State) { forall id: Id :: SyncedAt(s, id) }

  /** The event cannot pull the store and the machines apart: a capsule received for the first time has a valid status;
      one received again has the status its machine is in; a mirrored status is saved or changes nothing; and every
      saved status is valid at a restart. */
  ghost predicate Harmless(s: State, e: Event) {
    match e
    case Receive(id, c, saved) =>
      saved ==> if id in s.store then c.status == s.store[id].status else Valid(c.status)
    case SyncStatus(id, status, saved) =>
      Valid(status) && id in s.store && !saved ==> status == s.store[id].status
    case Restart => forall id | id in s.rows :: Valid(s.rows[id].status)
    case _ => true
  }

  lemma OthersUntouched(s: State, e: Event, id: Id)
    requires !e.Restart? && e.id != id
    ensures id in Apply(s, e).store <==> id in s.store
    ensures id in s.store ==> Apply(s, e).store[id] == s.store[id]
    ensures id in Apply(s, e).machines <==> id in s.machines
    ensures id in s.machines ==> Apply(s, e).machines[id] == s.machines[id]
  {
  }

  lemma TargetSyncedIff(s: State, e: Event)
    requires !e.Restart? && SyncedAt(s, e.id)
    ensures SyncedAt(Apply(s, e), e.id) <==> Harmless(s, e)
  {
  }

  lemma RestartSyncedIff(s: State)
    ensures Synced(Apply(s, Restart)) <==> Harmless(s, Restart)
  {
    var s' := Apply(s, Restart);
    if Synced(s') {
      forall id | id in s.rows ensures Valid(s.rows[id].status) {
        assert SyncedAt(s', id);
      }
    }
  }

  /** An event keeps the store and the machines in step if and only if it is harmless. */
  lemma EventKeepsSyncIff(s: State, e: Event)
    requires Synced(s)
    ensures Synced(Apply(s, e)) <==> Harmless(s, e)
  {
    if e.Restart? {
      RestartSyncedIff(s);
    } else {
      assert SyncedAt(s, e.id);
      TargetSyncedIff(s, e);
      if Synced(Apply(s, e)) {
        assert SyncedAt(Apply(s, e), e.id);
      }
      forall id: Id | id != e.id ensures SyncedAt(Apply(s, e), id) {
        assert SyncedAt(s, id);
        OthersUntouched(s, e, id);
      }
    }
  }

  lemma {:induction false} HarmlessRunsStaySynced(states: seq<State>, events: seq<Event>, n: nat)
    requires Run(states, events) && Synced(states[0]) && n < |states|
    requires forall i | 0 <= i < n :: Harmless(states[i], events[i])
    ensures Synced(states[n])
  {
    if n > 0 {
      HarmlessRunsStaySynced(states, events, n - 1);
      EventKeepsSyncIff(states[n - 1], events[n - 1]);
    }
  }

  /** A run that starts in step stays in step throughout if and only if each of its events is harmless where it occurs. */
  lemma RunStaysSyncedIff(states: seq<State>, events: seq<Event>)
    requires Run(states, events) && Synced(states[0])
    ensures (forall i | 0 <= i < |states| :: Synced(states[i])) <==>
            (forall i | 0 <= i < |events| :: Harmless(states[i], events[i]))
  {
    if forall i | 0 <= i < |events| :: Harmless(states[i], events[i]) {
      forall i | 0 <= i < |states| ensures Synced(states[i]) {
        HarmlessRunsStaySynced(states, events, i);
      }
    }
    if forall i | 0 <= i < |states| :: Synced(states[i]) {
      forall i | 0 <= i < |events| ensures Harmless(states[i], events[i]) {
        assert Synced(states[i + 1]);
        EventKeepsSyncIff(states[i], events[i]);
      }
    }
  }

  /** The operations of one node on its own: no restart, nothing received twice, no database error on a mirrored
      status, and no unknown status from the mesh. */
  predicate Plain(s: State, e: Event) {
    match e
    case Receive(id, c, saved) => id !in s.store && Valid(c.status)
    case SyncStatus(id, status, saved) => saved
    case Restart => false
    case _ => true
  }

  /** Every run of plain operations from an empty manager keeps the store and the machines in step. */
  lemma PlainRunsStaySynced(states: seq<State>, events: seq<Event>)
    requires Run(states, events) && states[0] == State(map[], map[], map[])
    requires forall i | 0 <= i < |events| :: Plain(states[i], events[i])
    ensures forall i | 0 <= i < |states| :: Synced(states[i])
  {
    forall i | 0 <= i < |events| ensures Harmless(states[i], events[i]) {
      assert Plain(states[i], events[i]);
    }
    RunStaysSyncedIff(states, events);
  }

  /** A capsule that is announced again with another status leaves its machine behind. */
  lemma ReceivedAgainBreaksSync() returns (states: seq<State>, events: seq<Event>)
    ensures Run(states, events) && states[0] == State(map[], map[], map[]) && |events| == 2
    ensures Synced(states[1]) && !Synced(states[2])
    ensures "c" in states[2].store && "c" in states[2].machines
    ensures states[2].store["c"].status == Running && states[2].machines["c"] == Announced
  {
    events := [Create("c", "prod", "web", true, true, true), Receive("c", Capsule("prod", "web", Running), true)];
    var s0 := State(map[], map[], map[]);
    var s1 := Apply(s0, events[0]);
    var s2 := Apply(s1, events[1]);
    states := [s0, s1, s2];
    EventKeepsSyncIff(s0, events[0]);
    assert s2.store["c"].status == Running && s2.machines["c"] == Announced;
    assert !SyncedAt(s2, "c");
  }

  // ----- the database

  /** The database can be reloaded without loss. */
  predicate Saved(s: State) { s.rows == s.store }

  predicate NoDatabaseError(e: Event) {
    match e
    case Create(_, _, _, _, inserted, saved) => saved
    case Fire(_, _, saved) => saved
    case SyncStatus(_, _, saved) => saved
    case Update(_, _, _, saved) => saved
    case _ => true
  }

  lemma EventKeepsSaved(s: State, e: Event)
    requires Saved(s) && NoDatabaseError(e)
    ensures Saved(Apply(s, e))
  {
  }

  /** While no database update fails, a restart at any point of a run gives back the same store, and the same machines
      where the run was in step and every status is valid. */
  lemma {:induction false} RestartLosesNothing(states: seq<State>, events: seq<Event>)
    requires Run(states, events) && Saved(states[0])
    requires forall i | 0 <= i < |events| :: NoDatabaseError(events[i])
    ensures var s := states[|events|];
            && Saved(s) && Apply(s, Restart).store == s.store
            && (Synced(s) && Harmless(s, Restart) ==> Apply(s, Restart) == s)
  {
    if events != [] {
      var n := |events| - 1;
      assert Run(states[..n + 1], events[..n]);
      RestartLosesNothing(states[..n + 1], events[..n]);
      EventKeepsSaved(states[n], events[n]);
    }
    var s := states[|events|];
    if Synced(s) && Harmless(s, Restart) {
      SyncedMachines(s);
    }
  }

  lemma SyncedMachines(s: State)
    requires Synced(s) && Saved(s) && Harmless(s, Restart)
    ensures Apply(s, Restart).machines == s.machines
  {
    forall id: Id ensures id in Apply(s, Restart).machines <==> id in s.machines {
      assert SyncedAt(s, id);
    }
    forall id | id in s.machines ensures Apply(s, Restart).machines[id] == s.machines[id] {
      assert SyncedAt(s, id);
    }
  }

  // ----- the path to Running

  /** Only transitions touch the capsule: other operations are about other capsules. */
  predicate OnlyFires(e: Event, id: Id) { e.Fire? || (!e.Restart? && e.id != id) }

  /** A run in which `id` stays stored and is changed by transitions only. */
  ghost predicate FireRun(states: seq<State>, events: seq<Event>, id: Id) {
    && Run(states, events) && (forall i | 0 <= i < |events| :: OnlyFires(events[i], id))
    && (forall i | 0 <= i < |states| :: id in states[i].store && SyncedAt(states[i], id))
  }

  function StatusAt(states: seq<State>, i: nat, id: Id): Status
    requires i < |states| && id in states[i].store
  {
    states[i].store[id].status
  }

  /** Where a capsule starts stored and in step, transitions keep it so. */
  lemma {:induction false} FiresKeepStored(states: seq<State>, events: seq<Event>, id: Id)
    requires Run(states, events) && (forall i | 0 <= i < |events| :: OnlyFires(events[i], id))
    requires id in states[0].store && SyncedAt(states[0], id)
    ensures FireRun(states, events, id)
  {
    var i := 0;
    while i < |events|
      invariant 0 <= i <= |events|
      invariant forall k | 0 <= k <= i :: id in states[k].store && SyncedAt(states[k], id)
    {
      StepIsTransition(states[i], events[i], id);
      i := i + 1;
    }
  }

  /** The one status from which the election and execution statuses are reached. */
  function Before(s: Status): Option<Status> {
    match s
    case Electing => Some(Announced)
    case Assigned => Some(Electing)
    case Executing => Some(Assigned)
    case Running => Some(Executing)
    case _ => None
  }

  lemma OnlyFromBefore(s: Status, t: Trigger, s': Status)
    requires Next(s, t) == Some(s') && Before(s').Some?
    ensures Some(s) == Before(s')
  {
  }

  /** The capsule stays stored and in step, and enters one of those statuses only from the preceding one. */
  lemma StepIsTransition(s: State, e: Event, id: Id)
    requires OnlyFires(e, id) && id in s.store && SyncedAt(s, id)
    ensures var s' := Apply(s, e);
            && id in s'.store && SyncedAt(s', id)
            && (s'.store[id].status != s.store[id].status && Before(s'.store[id].status).Some? ==>
                  Some(s.store[id].status) == Before(s'.store[id].status))
  {
    if e.id != id {
      OthersUntouched(s, e, id);
    } else if Next(s.store[id].status, e.trigger).Some? {
      var to := Next(s.store[id].status, e.trigger).value;
      assert Apply(s, e).store[id].status == to;
      if Before(to).Some? {
        OnlyFromBefore(s.store[id].status, e.trigger, to);
      }
    }
  }

  /** One step may enter one of those statuses from the preceding one only. */
  predicate Follows(s: Status, s': Status) { s == s' || Before(s').None? || Some(s) == Before(s') }

  predicate Path(trace: seq<Status>) { forall i | 0 <= i < |trace| - 1 :: Follows(trace[i], trace[i + 1]) }

  ghost function Trace(states: seq<State>, events: seq<Event>, id: Id): seq<Status>
    requires FireRun(states, events, id)
  {
    seq(|states|, i requires 0 <= i < |states| => StatusAt(states, i, id))
  }

  lemma TraceIsPath(states: seq<State>, events: seq<Event>, id: Id)
    requires FireRun(states, events, id)
    ensures Path(Trace(states, events, id))
  {
    var trace := Trace(states, events, id);
    forall i | 0 <= i < |trace| - 1 ensures Follows(trace[i], trace[i + 1]) {
      StepIsTransition(states[i], events[i], id);
    }
  }

  /** A capsule that is now in one of those statuses and was not before passed through the preceding one. */
  lemma {:induction false} CameThrough(trace: seq<Status>, i: nat, j: nat) returns (k: nat)
    requires Path(trace) && i < j < |trace| && Before(trace[j]).Some? && trace[i] != trace[j]
    ensures i <= k < j && Some(trace[k]) == Before(trace[j])
  {
    assert Follows(trace[j - 1], trace[j - 1 + 1]);
    if trace[j - 1] == trace[j] {
      k := CameThrough(trace, i, j - 1);
    } else {
      k := j - 1;
    }
  }

  /** Between any two entries to Running a capsule is Announced, Electing, Assigned and Executing, in this order. */
  lemma RunningNeedsElection(states: seq<State>, events: seq<Event>, id: Id, i: nat, j: nat)
    returns (a: nat, b: nat, c: nat, d: nat)
    requires FireRun(states, events, id) && i < j < |states|
    requires StatusAt(states, i, id) == Running && StatusAt(states, j - 1, id) != Running
    requires StatusAt(states, j, id) == Running
    ensures i < a < b < c < d < j
    ensures StatusAt(states, a, id) == Announced && StatusAt(states, b, id) == Electing
    ensures StatusAt(states, c, id) == Assigned && StatusAt(states, d, id) == Executing
  {
    TraceIsPath(states, events, id);
    var trace := Trace(states, events, id);
    d := CameThrough(trace, j - 1, j);
    c := CameThrough(trace, i, d);
    b := CameThrough(trace, i, c);
    a := CameThrough(trace, i, b);
  }

  // ----- what the triggers mean

  /** Where a trigger leads, wherever it is permitted. */
  function Target(t: Trigger): Status {
    match t
    case Announce => Announced
    case ElectionStarted => Electing
    case ElectionWon => Assigned
    case ElectionTimeout => Announced
    case ExecutionStarted => Executing
    case ExecutionFailed => Announced
    case ContainerReady => Running
    case StopRequested => Stopping
    case NodeFailed => Announced
    case ScaleUpNeeded => Announced
    case ScaleDownNeeded => Stopping
    case ContainerStopped => Stopped
    case OtherTrigger(_) => Created
  }

  /** The statuses in which a trigger is permitted. */
  function Sources(t: Trigger): set<Status> {
    match t
    case Announce => {Created, Stopped}
    case ElectionStarted => {Announced}
    case ElectionWon => {Electing}
    case ElectionTimeout => {Electing}
    case ExecutionStarted => {Assigned}
    case ExecutionFailed => {Assigned, Executing}
    case ContainerReady => {Executing}
    case StopRequested => {Running}
    case NodeFailed => {Running}
    case ScaleUpNeeded => {Running}
    case ScaleDownNeeded => {Running}
    case ContainerStopped => {Stopping}
    case OtherTrigger(_) => {}
  }

  /** Read by trigger instead of by status: each has its sources and one target. So every failure and every timeout leads
      back to Announced, where a new election can start. */
  lemma TriggersHaveOneTarget(s: Status, t: Trigger)
    ensures Next(s, t) == if s in Sources(t) then Some(Target(t)) else None
  {
  }

  /** The status after a sequence of triggers, if all are permitted. */
  function Driven(s: Status, triggers: seq<Trigger>): Option<Status>
    decreases |triggers|
  {
    if triggers == [] then Some(s)
    else match Next(s, triggers[0])
      case None => None
      case Some(s') => Driven(s', triggers[1..])
  }

  lemma {:induction false} DrivenOn(s: Status, first: seq<Trigger>, more: seq<Trigger>)
    requires Driven(s, first).Some?
    ensures Driven(s, first + more) == Driven(Driven(s, first).value, more)
    decreases |first|
  {
    if first == [] {
      assert first + more == more;
    } else {
      assert (first + more)[1..] == first[1..] + more;
      DrivenOn(Next(s, first[0]).value, first[1..], more);
    }
  }

  /** No capsule gets stuck: from every status some triggers lead to Announced, and from there to every other status except
      Created, which is never entered again. */
  lemma NoDeadEnd(s: Status, goal: Status) returns (triggers: seq<Trigger>)
    requires Valid(s) && Valid(goal) && goal != Created
    ensures Driven(s, triggers) == Some(goal)
  {
    var back := ToAnnounced(s);
    var on := FromAnnounced(goal);
    DrivenOn(s, back, on);
    triggers := back + on;
  }

  lemma ToAnnounced(s: Status) returns (triggers: seq<Trigger>)
    requires Valid(s)
    ensures Driven(s, triggers) == Some(Announced)
  {
    match s
    case Created => triggers := [Announce]; assert triggers[1..] == [];
    case Announced => triggers := [];
    case Electing => triggers := [ElectionTimeout]; assert triggers[1..] == [];
    case Assigned => triggers := [ExecutionFailed]; assert triggers[1..] == [];
    case Executing => triggers := [ExecutionFailed]; assert triggers[1..] == [];
    case Running => triggers := [NodeFailed]; assert triggers[1..] == [];
    case Stopping =>
      triggers := [ContainerStopped, Announce];
      assert triggers[1..] == [Announce] && [Announce][1..] == [];
    case Stopped => triggers := [Announce]; assert triggers[1..] == [];
  }

  /** The way through an election, the start of the container, its stop and the end. */
  function Way(): seq<Trigger> {
    [ElectionStarted, ElectionWon, ExecutionStarted, ContainerReady, StopRequested, ContainerStopped]
  }

  function Stations(): seq<Status> { [Announced, Electing, Assigned, Executing, Running, Stopping, Stopped] }

  lemma {:induction false} AlongTheWay(k: nat)
    requires k <= |Way()|
    ensures Driven(Announced, Way()[..k]) == Some(Stations()[k])
  {
    if k > 0 {
      AlongTheWay(k - 1);
      assert Way()[..k] == Way()[..k - 1] + [Way()[k - 1]];
      DrivenOn(Announced, Way()[..k - 1], [Way()[k - 1]]);
      assert [Way()[k - 1]][1..] == [];
    }
  }

  lemma FromAnnounced(goal: Status) returns (triggers: seq<Trigger>)
    requires Valid(goal) && goal != Created
    ensures Driven(Announced, triggers) == Some(goal)
  {
    var k :| 0 <= k <= |Way()| && Stations()[k] == goal by {
      assert Stations()[0] == Announced && Stations()[1] == Electing && Stations()[2] == Assigned;
      assert Stations()[3] == Executing && Stations()[4] == Running && Stations()[5] == Stopping;
      assert Stations()[6] == Stopped;
    }
    AlongTheWay(k);
    triggers := Way()[..k];
  }

  /** No triggers lead to Created. */
  lemma {:induction false} CreatedIsNeverEntered(s: Status, triggers: seq<Trigger>)
    requires triggers != []
    ensures Driven(s, triggers) != Some(Created)
    decreases |triggers|
  {
    if Next(s, triggers[0]).Some? && triggers[1..] != [] {
      CreatedIsNeverEntered(Next(s, triggers[0]).value, triggers[1..]);
    }
  }

  // ----- what stays of a capsule

  /** The event brings a capsule into being. */
  predicate Introduces(e: Event, id: Id) { (e.Create? || e.Receive?) && e.id == id }

  predicate Gone(s: State, id: Id) { id !in s.store && id !in s.machines && id !in s.rows }

  /** A deleted capsule is gone from memory, machines and database, and stays gone, restarts included, until it is created
      or received again. */
  lemma {:induction false} DeletedStaysGone(states: seq<State>, events: seq<Event>, id: Id, i: nat, j: nat)
    requires Run(states, events) && i < j <= |events| && events[i] == Delete(id, true) && id in states[i].store
    requires forall k | i < k < j :: !Introduces(events[k], id)
    ensures Gone(states[j], id)
    decreases j
  {
    assert states[j - 1 + 1] == Apply(states[j - 1], events[j - 1]);
    if i + 1 < j {
      DeletedStaysGone(states, events, id, i, j - 1);
      assert !Introduces(events[j - 1], id);
    }
  }

  /** A refused statement leaves the rows alone; one that is taken leaves the row as the store has it. */
  lemma RowsFollowWrites(s: State, e: Event)
    requires !e.Restart? && !e.Create?
    ensures !e.saved ==> Apply(s, e).rows == s.rows
    ensures e.saved && Apply(s, e).store != s.store ==>
              if e.id in Apply(s, e).store then e.id in Apply(s, e).rows && Apply(s, e).rows[e.id] == Apply(s, e).store[e.id]
              else e.id !in Apply(s, e).rows
    ensures forall id | id != e.id :: (id in Apply(s, e).rows <==> id in s.rows)
              && (id in s.rows ==> Apply(s, e).rows[id] == s.rows[id])
  {
  }

  /** Transitions and mirrored statuses change nothing but the status; a new spec changes nothing else. */
  lemma OnlyWhatIsMeant(s: State, e: Event)
    requires (e.Fire? || e.SyncStatus? || e.Update?) && e.id in s.store
    ensures e.id in Apply(s, e).store
    ensures var c, c' := s.store[e.id], Apply(s, e).store[e.id];
            && c'.cluster == c.cluster && c'.spec == (if e.Update? && e.accepted then e.spec else c.spec)
            && (e.Update? ==> c'.status == c.status) && (e.SyncStatus? && Valid(e.status) ==> c'.status == e.status)
  {
  }

  /** In every run, a capsule keeps its spec and its cluster until it is updated, deleted or received again, or the node
      restarts. */
  lemma {:induction false} SpecStays(states: seq<State>, events: seq<Event>, id: Id, i: nat, j: nat)
    requires Run(states, events) && i <= j <= |events| && id in states[i].store
    requires forall k | i <= k < j ::
               && !events[k].Restart?
               && (events[k].id == id ==> events[k].Fire? || events[k].SyncStatus? || events[k].Create?)
    ensures id in states[j].store
    ensures states[j].store[id].spec == states[i].store[id].spec
    ensures states[j].store[id].cluster == states[i].store[id].cluster
    decreases j
  {
    if i < j {
      SpecStays(states, events, id, i, j - 1);
      var s, e := states[j - 1], events[j - 1];
      assert states[j - 1 + 1] == Apply(s, e);
      if e.id != id {
        OthersUntouched(s, e, id);
      } else if e.Fire? || e.SyncStatus? {
        OnlyWhatIsMeant(s, e);
      }
    }
  }
}
