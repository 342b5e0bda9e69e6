/**
  What every interleaving of the election topic's critical sections keeps: each accepted message is in exactly
  one place, a buffer, a hand, a channel or the record of what became of it (election/topic.go).
 */
module TopicConservation {
  import opened TopicBuffer
  import opened ElectionTopic

  datatype Place = Waiting | Carried(hand: nat) | Queued(listener: nat) | Gone(fate: Fate)

  ghost predicate IsAt(t: Topic, m: Message, p: Place) {
    match p
    case Waiting => InBuffer(t, m)
    case Carried(h) => h in t.hands && m in t.hands[h].msgs
    case Queued(l) => l in t.channels && (m in t.channels[l].claims || m in t.channels[l].failures)
    case Gone(f) => m in t.fates && t.fates[m] == f
  }

  predicate Distinct<T(==)>(s: seq<T>) { forall i, j | 0 <= i < j < |s| :: s[i] != s[j] }

  /** Claims and failures in their own queues, none of them twice, within the capacity. */
  ghost predicate ChannelShape(ch: Channel) {
    && Distinct(ch.claims) && Distinct(ch.failures) && |ch.claims| <= ch.capacity && |ch.failures| <= ch.capacity
    && (forall m | m in ch.claims :: m.isClaim) && (forall m | m in ch.failures :: !m.isClaim)
  }

  ghost predicate Shape(t: Topic) {
    && (forall k | k in t.buffered ::
          && t.buffered[k] != [] && k !in t.listeners
          && Distinct(Messages(t.buffered[k])) && forall m | m in Messages(t.buffered[k]) :: m.key == k)
    && (forall h | h in t.hands :: h < t.next && Distinct(t.hands[h].msgs) && t.hands[h].listener in t.channels)
    && (forall l | l in t.channels :: l < t.next && ChannelShape(t.channels[l]))
    && (forall k | k in t.listeners :: t.listeners[k] in t.channels)
  }

  /** `at` says where each accepted message is, and nothing is anywhere else. */
  ghost predicate Located(t: Topic, at: map<Message, Place>) {
    && Shape(t) && at.Keys == t.accepted
    && forall m, p :: IsAt(t, m, p) <==> m in at && at[m] == p
  }

  lemma MessagesAppend(buffer: seq<Buffered<Message>>, x: Buffered<Message>)
    ensures Messages(buffer + [x]) == Messages(buffer) + [x.msg]
  {
  }

  lemma DistinctAppend<T>(s: seq<T>, x: T)
    requires Distinct(s) && x !in s
    ensures Distinct(s + [x])
  {
  }

  /** All messages other than `m` stay where they are, and `m` is now at `p`. */
  ghost predicate Moved(t: Topic, t': Topic, m: Message, p: Place) {
    && (forall x, q | x != m :: IsAt(t', x, q) <==> IsAt(t, x, q))
    && (forall q :: IsAt(t', m, q) <==> q == p)
    && t'.accepted == t.accepted + {m}
  }

  lemma MoveLocates(t: Topic, t': Topic, at: map<Message, Place>, m: Message, p: Place)
    requires Located(t, at) && Shape(t') && Moved(t, t', m, p)
    ensures Located(t', at[m := p])
  {
    var at' := at[m := p];
    forall x, q ensures IsAt(t', x, q) <==> x in at' && at'[x] == q {
      assert IsAt(t, x, q) <==> x in at && at[x] == q;
    }
  }

  lemma DispatchKeeps(t: Topic, at: map<Message, Place>, m: Message, now: int) returns (at': map<Message, Place>)
    requires Located(t, at) && Enabled(t, Dispatch(m, now))
    ensures Located(Apply(t, Dispatch(m, now)), at')
  {
    var t' := Apply(t, Dispatch(m, now));
    assert m !in at;
    if m.key in t.listeners {
      DispatchCarries(t, t', m);
      at' := at[m := Carried(t.next)];
      MoveLocates(t, t', at, m, Carried(t.next));
    } else {
      DispatchBuffers(t, t', m, now);
      at' := at[m := Waiting];
      MoveLocates(t, t', at, m, Waiting);
    }
  }

  function CarriedIn(t: Topic, m: Message): Topic
    requires m.key in t.listeners
  {
    t.(accepted := t.accepted + {m}, next := t.next + 1, hands := t.hands[t.next := Hand(t.listeners[m.key], [m])])
  }

  lemma CarriedShape(t: Topic, m: Message)
    requires Shape(t) && m.key in t.listeners
    ensures Shape(CarriedIn(t, m))
  {
  }

  lemma DispatchCarries(t: Topic, t': Topic, m: Message)
    requires Shape(t) && (forall p :: !IsAt(t, m, p)) && m.key in t.listeners && t' == CarriedIn(t, m)
    ensures Shape(t') && Moved(t, t', m, Carried(t.next))
  {
    CarriedShape(t, m);
    CarriedMoves(t, t', m);
  }

  lemma CarriedMoves(t: Topic, t': Topic, m: Message)
    requires Shape(t) && (forall p :: !IsAt(t, m, p)) && m.key in t.listeners && t' == CarriedIn(t, m)
    ensures Moved(t, t', m, Carried(t.next))
  {
    assert t.next !in t.hands;
    forall q ensures IsAt(t', m, q) <==> q == Carried(t.next) { assert !IsAt(t, m, q); }
  }

  function Before(t: Topic, k: MessageKey): seq<Buffered<Message>> { if k in t.buffered then t.buffered[k] else [] }

  function BufferedIn(t: Topic, m: Message, now: int): Topic {
    t.(accepted := t.accepted + {m}, buffered := t.buffered[m.key := Before(t, m.key) + [Buffered(now, m)]])
  }

  lemma BufferedShape(t: Topic, m: Message, now: int)
    requires Shape(t) && m.key !in t.listeners && m !in Messages(Before(t, m.key))
    ensures Shape(BufferedIn(t, m, now))
  {
    MessagesAppend(Before(t, m.key), Buffered(now, m));
    DistinctAppend(Messages(Before(t, m.key)), m);
  }

  lemma BufferedMoves(t: Topic, t': Topic, m: Message, now: int)
    requires Shape(t) && (forall p :: !IsAt(t, m, p)) && t' == BufferedIn(t, m, now)
    ensures Moved(t, t', m, Waiting)
  {
    MessagesAppend(Before(t, m.key), Buffered(now, m));
    forall q ensures IsAt(t', m, q) <==> q == Waiting { assert !IsAt(t, m, q); }
    forall x, q | x != m ensures IsAt(t', x, q) <==> IsAt(t, x, q) { }
  }

  lemma DispatchBuffers(t: Topic, t': Topic, m: Message, now: int)
    requires Shape(t) && (forall p :: !IsAt(t, m, p)) && m.key !in t.listeners && t' == BufferedIn(t, m, now)
    ensures Shape(t') && Moved(t, t', m, Waiting)
  {
    assert m !in Messages(Before(t, m.key)) by { assert !IsAt(t, m, Waiting); }
    BufferedShape(t, m, now);
    BufferedMoves(t, t', m, now);
  }

  lemma HandOverKeeps(t: Topic, at: map<Message, Place>, h: nat) returns (at': map<Message, Place>)
    requires Located(t, at) && Enabled(t, HandOver(h))
    ensures Located(Apply(t, HandOver(h)), at')
  {
    var t' := Apply(t, HandOver(h));
    var hand := t.hands[h];
    if hand.msgs == [] {
      at' := at;
      forall x, p ensures IsAt(t', x, p) <==> x in at' && at'[x] == p {
        assert IsAt(t, x, p) <==> x in at && at[x] == p;
      }
    } else {
      var m, l := hand.msgs[0], hand.listener;
      assert IsAt(t, m, Carried(h));
      forall p | p != Carried(h) ensures !IsAt(t, m, p) { assert IsAt(t, m, p) <==> m in at && at[m] == p; }
      var p := HandOverMoves(t, t', h, m, l);
      at' := at[m := p];
      MoveLocates(t, t', at, m, p);
    }
  }

  lemma OfferShape(ch: Channel, m: Message)
    requires ChannelShape(ch) && m !in ch.claims && m !in ch.failures
    ensures var (ch', fate) := Offer(ch, m);
            && ChannelShape(ch') && ch'.key == ch.key && ch'.capacity == ch.capacity
            && (forall x | x != m :: x in ch'.claims <==> x in ch.claims)
            && (forall x | x != m :: x in ch'.failures <==> x in ch.failures)
            && |fate| <= 1 && (m in ch'.claims || m in ch'.failures <==> fate == [])
  {
    DistinctAppend(ch.claims, m);
    DistinctAppend(ch.failures, m);
  }

  lemma HandOverMoves(t: Topic, t': Topic, h: nat, m: Message, l: nat) returns (p: Place)
    requires Shape(t) && Enabled(t, HandOver(h)) && t' == Apply(t, HandOver(h)) && m in t.accepted
    requires t.hands[h].msgs != [] && m == t.hands[h].msgs[0] && l == t.hands[h].listener
    requires IsAt(t, m, Carried(h)) && forall p | p != Carried(h) :: !IsAt(t, m, p)
    ensures Shape(t') && Moved(t, t', m, p)
  {
    var (ch, fate) := Offer(t.channels[l], m);
    var rest := t.hands[h].msgs[1..];
    assert !IsAt(t, m, Queued(l));
    OfferShape(t.channels[l], m);
    assert t.hands[h].msgs == [m] + rest && m !in rest && Distinct(rest);
    p := if fate == [] then Queued(l) else Gone(fate[0]);
    HandOverPlaces(t, t', h, m, l, ch, fate, p);
  }

  lemma HandOverPlaces(t: Topic, t': Topic, h: nat, m: Message, l: nat, ch: Channel, fate: seq<Fate>, p: Place)
    requires h in t.hands && l in t.channels && m in t.accepted && t.hands[h].msgs != [] && l == t.hands[h].listener
    requires t.hands[h].msgs == [m] + t.hands[h].msgs[1..] && m !in t.hands[h].msgs[1..]
    requires forall q | q != Carried(h) :: !IsAt(t, m, q)
    requires forall x | x != m :: (x in ch.claims <==> x in t.channels[l].claims)
                                  && (x in ch.failures <==> x in t.channels[l].failures)
    requires |fate| <= 1 && (m in ch.claims || m in ch.failures <==> fate == [])
    requires t' == t.(channels := t.channels[l := ch], hands := t.hands[h := Hand(l, t.hands[h].msgs[1..])],
                      fates := if fate == [] then t.fates else t.fates[m := fate[0]])
    requires p == if fate == [] then Queued(l) else Gone(fate[0])
    ensures Moved(t, t', m, p)
  {
    forall q ensures IsAt(t', m, q) <==> q == p {
      if q != Carried(h) { assert !IsAt(t, m, q); }
    }
  }

  lemma ListenKeeps(t: Topic, at: map<Message, Place>, k: MessageKey, bufferSize: int)
    returns (at': map<Message, Place>)
    requires Located(t, at)
    ensures Located(Apply(t, Listen(k, bufferSize)), at')
  {
    var t' := Apply(t, Listen(k, bufferSize));
    ListenShape(t, k, bufferSize);
    at' := map m | m in at :: if at[m] == Waiting && m.key == k then Carried(t.next + 1) else at[m];
    forall x, p ensures IsAt(t', x, p) <==> x in at' && at'[x] == p {
      assert IsAt(t, x, p) <==> x in at && at[x] == p;
      assert IsAt(t, x, Waiting) <==> x in at && at[x] == Waiting;
      ListenPlaces(t, k, bufferSize, x, p);
    }
  }

  lemma ListenShape(t: Topic, k: MessageKey, bufferSize: int)
    requires Shape(t)
    ensures Shape(Apply(t, Listen(k, bufferSize)))
  {
  }

  lemma ListenPlaces(t: Topic, k: MessageKey, bufferSize: int, x: Message, p: Place)
    requires Shape(t)
    ensures IsAt(Apply(t, Listen(k, bufferSize)), x, p) <==>
              if p == Carried(t.next + 1) then IsAt(t, x, Waiting) && x.key == k
              else IsAt(t, x, p) && !(p == Waiting && x.key == k)
  {
  }

  lemma UnregisterKeeps(t: Topic, at: map<Message, Place>, l: nat)
    requires Located(t, at) && Enabled(t, Unregister(l))
    ensures Located(Apply(t, Unregister(l)), at)
  {
    var t' := Apply(t, Unregister(l));
    forall x, p ensures IsAt(t', x, p) <==> x in at && at[x] == p {
      assert IsAt(t, x, p) <==> x in at && at[x] == p;
    }
  }

  lemma CloseKeeps(t: Topic, at: map<Message, Place>, l: nat)
    requires Located(t, at) && Enabled(t, Close(l))
    ensures Located(Apply(t, Close(l)), at)
  {
    var t' := Apply(t, Close(l));
    forall x, p ensures IsAt(t', x, p) <==> x in at && at[x] == p {
      assert IsAt(t, x, p) <==> x in at && at[x] == p;
    }
  }

  lemma KeptMessages(buffer: seq<Buffered<Message>>, cutoff: int)
    requires Distinct(Messages(buffer))
    ensures Distinct(Messages(Kept(buffer, cutoff)))
    ensures forall m | m in Messages(Kept(buffer, cutoff)) :: m in Messages(buffer)
  {
    var at := SweepIsStableFilter(buffer, cutoff);
    var kept := Kept(buffer, cutoff);
    forall i, j | 0 <= i < j < |kept| ensures Messages(kept)[i] != Messages(kept)[j] {
      assert at[i] < at[j];
      assert Messages(buffer)[at[i]] != Messages(buffer)[at[j]];
    }
    forall m | m in Messages(kept) ensures m in Messages(buffer) {
      var i :| 0 <= i < |kept| && Messages(kept)[i] == m;
      assert Messages(buffer)[at[i]] == m;
    }
  }

  lemma SweepShape(t: Topic, cutoff: int)
    requires Shape(t)
    ensures Shape(Apply(t, Sweep(cutoff)))
    ensures forall k | k in t.buffered ::
              forall m | m in Messages(Kept(t.buffered[k], cutoff)) :: m in Messages(t.buffered[k])
  {
    forall k | k in t.buffered
      ensures Distinct(Messages(Kept(t.buffered[k], cutoff)))
      ensures forall m | m in Messages(Kept(t.buffered[k], cutoff)) :: m in Messages(t.buffered[k])
    {
      KeptMessages(t.buffered[k], cutoff);
    }
  }

  lemma SweepPlaces(t: Topic, cutoff: int, x: Message, p: Place)
    requires Shape(t) && (InBuffer(t, x) ==> x in t.accepted && forall q | q != Waiting :: !IsAt(t, x, q))
    ensures IsAt(Apply(t, Sweep(cutoff)), x, p) <==>
            if InBuffer(t, x) && !SurvivesSweep(t, x, cutoff) then p == Gone(Expired) else IsAt(t, x, p)
  {
    SweptInBuffer(t, cutoff, x);
    assert p != Waiting && InBuffer(t, x) ==> !IsAt(t, x, p);
  }

  lemma SweptInBuffer(t: Topic, cutoff: int, x: Message)
    requires Shape(t)
    ensures InBuffer(Apply(t, Sweep(cutoff)), x) <==> InBuffer(t, x) && SurvivesSweep(t, x, cutoff)
  {
    SweepShape(t, cutoff);
  }

  lemma SweepKeeps(t: Topic, at: map<Message, Place>, cutoff: int) returns (at': map<Message, Place>)
    requires Located(t, at)
    ensures Located(Apply(t, Sweep(cutoff)), at')
  {
    at' := map m | m in at :: if at[m] == Waiting && !SurvivesSweep(t, m, cutoff) then Gone(Expired) else at[m];
    SweepShape(t, cutoff);
    forall x, p ensures IsAt(Apply(t, Sweep(cutoff)), x, p) <==> x in at' && at'[x] == p {
      BufferedOnce(t, at, x);
      assert IsAt(t, x, p) <==> x in at && at[x] == p;
      SweepPlaces(t, cutoff, x, p);
    }
  }

  lemma BufferedOnce(t: Topic, at: map<Message, Place>, x: Message)
    requires Located(t, at)
    ensures InBuffer(t, x) <==> x in at && at[x] == Waiting
    ensures InBuffer(t, x) ==> x in t.accepted && forall q | q != Waiting :: !IsAt(t, x, q)
  {
    assert IsAt(t, x, Waiting) <==> x in at && at[x] == Waiting;
  }

  lemma ReadShape(t: Topic, l: nat, claim: bool)
    requires Shape(t) && Enabled(t, Read(l, claim))
    ensures Shape(Apply(t, Read(l, claim)))
  {
  }

  lemma ReadPlaces(t: Topic, l: nat, claim: bool, m: Message, x: Message, p: Place)
    requires Shape(t) && Enabled(t, Read(l, claim))
    requires m == (if claim then t.channels[l].claims else t.channels[l].failures)[0]
    requires forall q | q != Queued(l) :: !IsAt(t, m, q)
    ensures IsAt(Apply(t, Read(l, claim)), x, p) <==> if x == m then p == Gone(Consumed) else IsAt(t, x, p)
  {
    var q := if claim then t.channels[l].claims else t.channels[l].failures;
    assert q == [m] + q[1..];
    assert p != Queued(l) ==> !IsAt(t, m, p);
    assert m.isClaim == claim;
  }

  lemma ReadKeeps(t: Topic, at: map<Message, Place>, l: nat, claim: bool) returns (at': map<Message, Place>)
    requires Located(t, at) && Enabled(t, Read(l, claim))
    ensures Located(Apply(t, Read(l, claim)), at')
  {
    var m := (if claim then t.channels[l].claims else t.channels[l].failures)[0];
    assert IsAt(t, m, Queued(l));
    at' := at[m := Gone(Consumed)];
    ReadShape(t, l, claim);
    forall q | q != Queued(l) ensures !IsAt(t, m, q) { }
    forall x, p ensures IsAt(Apply(t, Read(l, claim)), x, p) <==> x in at' && at'[x] == p {
      ReadPlaces(t, l, claim, m, x, p);
      assert IsAt(t, x, p) <==> x in at && at[x] == p;
    }
  }

  lemma StopShape(t: Topic)
    requires Shape(t)
    ensures Shape(Apply(t, Stop))
  {
  }

  lemma StopPlaces(t: Topic, x: Message, p: Place)
    requires Shape(t) && (InBuffer(t, x) ==> x in t.accepted && forall q | q != Waiting :: !IsAt(t, x, q))
    ensures IsAt(Apply(t, Stop), x, p) <==> if InBuffer(t, x) then p == Gone(Closed) else IsAt(t, x, p)
  {
    assert p != Waiting && InBuffer(t, x) ==> !IsAt(t, x, p);
  }

  lemma StopKeeps(t: Topic, at: map<Message, Place>) returns (at': map<Message, Place>)
    requires Located(t, at)
    ensures Located(Apply(t, Stop), at')
  {
    at' := map m | m in at :: if at[m] == Waiting then Gone(Closed) else at[m];
    StopShape(t);
    forall x, p ensures IsAt(Apply(t, Stop), x, p) <==> x in at' && at'[x] == p {
      BufferedOnce(t, at, x);
      assert IsAt(t, x, p) <==> x in at && at[x] == p;
      StopPlaces(t, x, p);
    }
  }

  lemma EventKeeps(t: Topic, at: map<Message, Place>, e: Event) returns (at': map<Message, Place>)
    requires Located(t, at) && Enabled(t, e)
    ensures Located(Apply(t, e), at')
  {
    match e
    case Dispatch(m, now) => at' := DispatchKeeps(t, at, m, now);
    case HandOver(h) => at' := HandOverKeeps(t, at, h);
    case Listen(k, size) => at' := ListenKeeps(t, at, k, size);
    case Unregister(l) => UnregisterKeeps(t, at, l); at' := at;
    case Close(l) => CloseKeeps(t, at, l); at' := at;
    case Sweep(cutoff) => at' := SweepKeeps(t, at, cutoff);
    case Read(l, claim) => at' := ReadKeeps(t, at, l, claim);
    case Stop => at' := StopKeeps(t, at);
  }

  lemma {:induction false} RunLocates(states: seq<Topic>, events: seq<Event>, i: nat)
    returns (at: map<Message, Place>)
    requires Run(states, events) && i <= |events|
    ensures Located(states[i], at)
  {
    if i == 0 {
      at := map[];
    } else {
      at := RunLocates(states, events, i - 1);
      assert Enabled(states[i - 1], events[i - 1]);
      at := EventKeeps(states[i - 1], at, events[i - 1]);
    }
  }

  /** At every point of every run each accepted message is in exactly one place, no message turns up from
      nowhere, no key has both a listener and a buffer, no buffer is empty and no channel exceeds its capacity. */
  lemma MessagesAreConserved(states: seq<Topic>, events: seq<Event>, i: nat)
    requires Run(states, events) && i <= |events|
    ensures var t := states[i];
            && (forall m | m in t.accepted :: exists p :: IsAt(t, m, p) && forall q :: IsAt(t, m, q) ==> q == p)
            && (forall m, p | IsAt(t, m, p) :: m in t.accepted)
            && Shape(t)
  {
    var t := states[i];
    var at := RunLocates(states, events, i);
    forall m | m in t.accepted
      ensures exists p :: IsAt(t, m, p) && forall q :: IsAt(t, m, q) ==> q == p
    {
      assert IsAt(t, m, at[m]);
    }
  }
}
