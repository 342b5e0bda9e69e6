/**
  Order and causes in the election topic (election/topic.go): messages are read in the order in which they were queued,
  replayed in the order in which they arrived, and dropped for a reason only; a listener stays registered and open until
  something ends it.
 */
module TopicOrder {
  import opened TopicBuffer
  import opened ElectionTopic
  import opened TopicConservation

  lemma RunStep(states: seq<Topic>, events: seq<Event>, i: nat)
    requires Run(states, events) && i < |events|
    ensures Enabled(states[i], events[i]) && states[i + 1] == Apply(states[i], events[i]) && Shape(states[i])
  {
    MessagesAreConserved(states, events, i);
  }

  // ----- first in, first out

  function Queue(t: Topic, l: nat, claim: bool): seq<Message> {
    if l !in t.channels then [] else if claim then t.channels[l].claims else t.channels[l].failures
  }

  /** The message that `e` takes from a hand into the queue, if there is room. */
  function Enters(t: Topic, e: Event, l: nat, claim: bool): seq<Message> {
    if && e.HandOver? && e.hand in t.hands && t.hands[e.hand].listener == l && t.hands[e.hand].msgs != []
       && t.hands[e.hand].msgs[0].isClaim == claim && l in t.channels && !t.channels[l].closed
       && |Queue(t, l, claim)| < t.channels[l].capacity
    then [t.hands[e.hand].msgs[0]] else []
  }

  function Reads(t: Topic, e: Event, l: nat, claim: bool): seq<Message> {
    if e == Read(l, claim) && Queue(t, l, claim) != [] then [Queue(t, l, claim)[0]] else []
  }

  function EnteredSoFar(states: seq<Topic>, events: seq<Event>, l: nat, claim: bool, i: nat): seq<Message>
    requires i <= |events| < |states|
  {
    if i == 0 then [] else EnteredSoFar(states, events, l, claim, i - 1) + Enters(states[i - 1], events[i - 1], l, claim)
  }

  function ReadSoFar(states: seq<Topic>, events: seq<Event>, l: nat, claim: bool, i: nat): seq<Message>
    requires i <= |events| < |states|
  {
    if i == 0 then [] else ReadSoFar(states, events, l, claim, i - 1) + Reads(states[i - 1], events[i - 1], l, claim)
  }

  lemma QueueStep(t: Topic, e: Event, l: nat, claim: bool)
    requires Shape(t) && Enabled(t, e)
    ensures Reads(t, e, l, claim) + Queue(Apply(t, e), l, claim) == Queue(t, l, claim) + Enters(t, e, l, claim)
  {
    match e
    case HandOver(h) => HandOverQueues(t, h, l, claim);
    case Listen(k, size) => ListenQueues(t, k, size, l, claim);
    case Read(x, c) => ReadQueues(t, x, c, l, claim);
    case _ => QuietQueues(t, e, l, claim);
  }

  lemma ReadQueues(t: Topic, x: nat, c: bool, l: nat, claim: bool)
    requires Enabled(t, Read(x, c))
    ensures Reads(t, Read(x, c), l, claim) + Queue(Apply(t, Read(x, c)), l, claim) == Queue(t, l, claim)
  {
  }

  lemma QuietQueues(t: Topic, e: Event, l: nat, claim: bool)
    requires Enabled(t, e) && !e.HandOver? && !e.Listen? && !e.Read?
    ensures Queue(Apply(t, e), l, claim) == Queue(t, l, claim)
  {
  }

  lemma HandOverQueues(t: Topic, h: nat, l: nat, claim: bool)
    requires Shape(t) && Enabled(t, HandOver(h))
    ensures Queue(Apply(t, HandOver(h)), l, claim) == Queue(t, l, claim) + Enters(t, HandOver(h), l, claim)
  {
  }

  lemma ListenQueues(t: Topic, k: MessageKey, size: int, l: nat, claim: bool)
    requires Shape(t)
    ensures Queue(Apply(t, Listen(k, size)), l, claim) == Queue(t, l, claim)
  {
  }

  /** In every run and for every listener, what has been read and what is still queued are together what was queued, in
      order: of two messages of a kind, the one queued first is read first. */
  lemma {:induction false} ReadInOrder(states: seq<Topic>, events: seq<Event>, l: nat, claim: bool, i: nat)
    requires Run(states, events) && i <= |events|
    ensures ReadSoFar(states, events, l, claim, i) + Queue(states[i], l, claim)
         == EnteredSoFar(states, events, l, claim, i)
  {
    if i > 0 {
      ReadInOrder(states, events, l, claim, i - 1);
      RunStep(states, events, i - 1);
      var t, e := states[i - 1], events[i - 1];
      QueueStep(t, e, l, claim);
      Regroup(ReadSoFar(states, events, l, claim, i - 1), Reads(t, e, l, claim), Queue(states[i], l, claim),
              EnteredSoFar(states, events, l, claim, i - 1), Queue(t, l, claim), Enters(t, e, l, claim));
    }
  }

  lemma Regroup(read: seq<Message>, taken: seq<Message>, left: seq<Message>,
                entered: seq<Message>, queue: seq<Message>, enters: seq<Message>)
    requires read + queue == entered && taken + left == queue + enters
    ensures (read + taken) + left == entered + enters
  {
    assert (read + taken) + left == read + (taken + left);
    assert read + (queue + enters) == (read + queue) + enters;
  }

  // ----- replay

  function InHand(t: Topic, h: nat): seq<Message> { if h in t.hands then t.hands[h].msgs else [] }

  /** The message that `e` takes out of the hand. */
  function Leaves(t: Topic, e: Event, h: nat): seq<Message> {
    if e == HandOver(h) && InHand(t, h) != [] then [InHand(t, h)[0]] else []
  }

  function LeftSoFar(states: seq<Topic>, events: seq<Event>, h: nat, i: nat, j: nat): seq<Message>
    requires i <= j <= |events| < |states|
    decreases j
  {
    if i == j then [] else LeftSoFar(states, events, h, i, j - 1) + Leaves(states[j - 1], events[j - 1], h)
  }

  lemma HandStep(t: Topic, e: Event, h: nat)
    requires Shape(t) && Enabled(t, e) && h < t.next
    ensures Leaves(t, e, h) + InHand(Apply(t, e), h) == InHand(t, h) && h < Apply(t, e).next
  {
    match e
    case HandOver(x) => HandOverLeaves(t, x, h);
    case _ => OtherHands(t, e, h);
  }

  lemma OtherHands(t: Topic, e: Event, h: nat)
    requires Enabled(t, e) && h < t.next && !e.HandOver?
    ensures InHand(Apply(t, e), h) == InHand(t, h) && t.next <= Apply(t, e).next
  {
  }

  lemma HandOverLeaves(t: Topic, x: nat, h: nat)
    requires Enabled(t, HandOver(x)) && h < t.next
    ensures var t' := Apply(t, HandOver(x));
            Leaves(t, HandOver(x), h) + InHand(t', h) == InHand(t, h) && t'.next == t.next
  {
  }

  lemma HandRunStep(states: seq<Topic>, events: seq<Event>, h: nat, i: nat)
    requires Run(states, events) && i < |events| && h < states[i].next
    ensures Leaves(states[i], events[i], h) + InHand(states[i + 1], h) == InHand(states[i], h) + []
    ensures h < states[i + 1].next
  {
    RunStep(states, events, i);
    HandStep(states[i], events[i], h);
  }

  /** A hand is emptied from the front: what has left it since `i` and what is still in it are what it held then. */
  lemma {:induction false} HandInOrder(states: seq<Topic>, events: seq<Event>, h: nat, i: nat, j: nat)
    requires Run(states, events) && i <= j <= |events| && h < states[i].next
    ensures LeftSoFar(states, events, h, i, j) + InHand(states[j], h) == InHand(states[i], h) && h < states[j].next
    decreases j
  {
    if i < j {
      HandInOrder(states, events, h, i, j - 1);
      HandRunStep(states, events, h, j - 1);
      Regroup(LeftSoFar(states, events, h, i, j - 1), Leaves(states[j - 1], events[j - 1], h), InHand(states[j], h),
              InHand(states[i], h), InHand(states[j - 1], h), []);
      assert InHand(states[i], h) + [] == InHand(states[i], h);
    }
  }

  /** In every run, a new listener is offered everything that was buffered for its key, each message once, in the order of
      the buffer. */
  lemma ReplayInOrder(states: seq<Topic>, events: seq<Event>, k: MessageKey, i: nat, j: nat)
    requires Run(states, events) && i < j <= |events| && events[i].Listen? && events[i].key == k && k in states[i].buffered
    ensures var h := states[i].next + 1;
            && h in states[i + 1].hands && states[i + 1].hands[h].listener == states[i].next
            && k in states[i + 1].listeners && states[i + 1].listeners[k] == states[i].next
            && LeftSoFar(states, events, h, i + 1, j) + InHand(states[j], h) == Messages(states[i].buffered[k])
  {
    RunStep(states, events, i);
    HandInOrder(states, events, states[i].next + 1, i + 1, j);
  }

  ghost predicate Dispatched(events: seq<Event>, m: Message, p: nat) {
    p < |events| && events[p].Dispatch? && events[p].msg == m
  }

  /** `x` arrived before `y`, both before step `i`. */
  ghost predicate ArrivedBefore(events: seq<Event>, i: nat, x: Message, y: Message) {
    exists p: nat, q: nat :: p < q < i && Dispatched(events, x, p) && Dispatched(events, y, q)
  }

  ghost predicate InArrivalOrder(msgs: seq<Message>, events: seq<Event>, i: nat) {
    && (forall m | m in msgs :: exists p: nat :: p < i && Dispatched(events, m, p))
    && (forall a, b | 0 <= a < b < |msgs| :: ArrivedBefore(events, i, msgs[a], msgs[b]))
  }

  lemma KeptInOrder(buffer: seq<Buffered<Message>>, cutoff: int, events: seq<Event>, i: nat)
    requires InArrivalOrder(Messages(buffer), events, i)
    ensures InArrivalOrder(Messages(Kept(buffer, cutoff)), events, i)
  {
    var at := SweepIsStableFilter(buffer, cutoff);
    var kept, msgs := Messages(Kept(buffer, cutoff)), Messages(buffer);
    assert forall a | 0 <= a < |kept| :: kept[a] == msgs[at[a]];
    assert forall m | m in kept :: m in msgs;
    forall a, b | 0 <= a < b < |kept| ensures ArrivedBefore(events, i, kept[a], kept[b]) {
      assert at[a] < at[b];
    }
  }

  lemma LaterInOrder(msgs: seq<Message>, events: seq<Event>, i: nat)
    requires InArrivalOrder(msgs, events, i)
    ensures InArrivalOrder(msgs, events, i + 1)
  {
    forall a, b | 0 <= a < b < |msgs| ensures ArrivedBefore(events, i + 1, msgs[a], msgs[b]) {
      assert ArrivedBefore(events, i, msgs[a], msgs[b]);
    }
  }

  lemma AppendInOrder(msgs: seq<Message>, m: Message, events: seq<Event>, i: nat)
    requires InArrivalOrder(msgs, events, i) && Dispatched(events, m, i)
    ensures InArrivalOrder(msgs + [m], events, i + 1)
  {
    LaterInOrder(msgs, events, i);
    var all := msgs + [m];
    forall a, b | 0 <= a < b < |all| ensures ArrivedBefore(events, i + 1, all[a], all[b]) {
      if b < |msgs| {
        assert ArrivedBefore(events, i + 1, msgs[a], msgs[b]);
      } else {
        assert msgs[a] in msgs;
        var p: nat :| p < i && Dispatched(events, msgs[a], p);
        assert p < i < i + 1 && Dispatched(events, all[b], i);
      }
    }
  }

  /** In every run, messages are buffered in the order in which they arrived, whatever is swept in between. */
  lemma {:induction false} BufferInOrder(states: seq<Topic>, events: seq<Event>, k: MessageKey, i: nat)
    requires Run(states, events) && i <= |events| && k in states[i].buffered
    ensures InArrivalOrder(Messages(states[i].buffered[k]), events, i)
  {
    RunStep(states, events, i - 1);
    if k in states[i - 1].buffered {
      BufferInOrder(states, events, k, i - 1);
    }
    OrderStep(states[i - 1], events, k, i - 1);
  }

  lemma OrderStep(t: Topic, events: seq<Event>, k: MessageKey, i: nat)
    requires Shape(t) && i < |events| && Enabled(t, events[i]) && k in Apply(t, events[i]).buffered
    requires k in t.buffered ==> InArrivalOrder(Messages(t.buffered[k]), events, i)
    ensures InArrivalOrder(Messages(Apply(t, events[i]).buffered[k]), events, i + 1)
  {
    var e := events[i];
    BufferStep(t, e, k);
    var before := if k in t.buffered then t.buffered[k] else [];
    if e.Dispatch? && e.msg.key == k {
      AppendInOrder(Messages(before), e.msg, events, i);
      MessagesAppend(before, Buffered(e.now, e.msg));
    } else if e.Sweep? {
      KeptInOrder(before, e.cutoff, events, i);
      LaterInOrder(Messages(Kept(before, e.cutoff)), events, i);
    } else {
      LaterInOrder(Messages(before), events, i);
    }
  }

  lemma BufferStep(t: Topic, e: Event, k: MessageKey)
    requires Shape(t) && Enabled(t, e) && k in Apply(t, e).buffered
    ensures var before := if k in t.buffered then t.buffered[k] else [];
            Apply(t, e).buffered[k] ==
              if e.Dispatch? && e.msg.key == k then before + [Buffered(e.now, e.msg)]
              else if e.Sweep? then Kept(before, e.cutoff) else before
  {
    if e.Sweep? {
      assert k in t.buffered;
    }
  }

  // ----- why a message is gone

  predicate FirstInHand(t: Topic, e: Event, m: Message) {
    e.HandOver? && InHand(t, e.hand) != [] && InHand(t, e.hand)[0] == m && t.hands[e.hand].listener in t.channels
  }

  /** What must have happened for `m` to get its fate. */
  ghost predicate Causes(t: Topic, e: Event, m: Message, fate: Fate) {
    match fate
    case Consumed => e.Read? && Queue(t, e.listener, e.claim) != [] && Queue(t, e.listener, e.claim)[0] == m
    case Overflowed =>
      && FirstInHand(t, e, m)
      && var l := t.hands[e.hand].listener; !t.channels[l].closed && |Queue(t, l, m.isClaim)| >= t.channels[l].capacity
    case Closed =>
      || (FirstInHand(t, e, m) && t.channels[t.hands[e.hand].listener].closed)
      || (e.Stop? && InBuffer(t, m))
    case Expired =>
      && e.Sweep? && m.key in t.buffered
      && exists x :: x in t.buffered[m.key] && x.msg == m && x.receivedAt <= e.cutoff
  }

  lemma ExpiredIsOld(t: Topic, m: Message, cutoff: int)
    requires InBuffer(t, m) && !SurvivesSweep(t, m, cutoff)
    ensures Causes(t, Sweep(cutoff), m, Expired)
  {
    var buffer := t.buffered[m.key];
    var k :| 0 <= k < |buffer| && Messages(buffer)[k] == m;
    if buffer[k].receivedAt > cutoff {
      YoungSurvives(buffer, k, cutoff);
    }
  }

  lemma YoungSurvives(buffer: seq<Buffered<Message>>, k: nat, cutoff: int)
    requires k < |buffer| && buffer[k].receivedAt > cutoff
    ensures buffer[k].msg in Messages(Kept(buffer, cutoff))
  {
    var at := SweepIsStableFilter(buffer, cutoff);
    assert k in at;
    var i :| 0 <= i < |at| && at[i] == k;
    assert Messages(Kept(buffer, cutoff))[i] == buffer[k].msg;
  }

  lemma FateStep(t: Topic, e: Event, m: Message)
    requires Enabled(t, e) && m in Apply(t, e).fates
    ensures (m in t.fates && Apply(t, e).fates[m] == t.fates[m]) || Causes(t, e, m, Apply(t, e).fates[m])
  {
    match e
    case Sweep(cutoff) => if InBuffer(t, m) && !SurvivesSweep(t, m, cutoff) { ExpiredIsOld(t, m, cutoff); }
    case HandOver(h) => HandOverFate(t, h, m);
    case _ => OtherFates(t, e, m);
  }

  lemma OtherFates(t: Topic, e: Event, m: Message)
    requires Enabled(t, e) && !e.Sweep? && !e.HandOver? && m in Apply(t, e).fates
    ensures (m in t.fates && Apply(t, e).fates[m] == t.fates[m]) || Causes(t, e, m, Apply(t, e).fates[m])
  {
  }

  lemma HandOverFate(t: Topic, h: nat, m: Message)
    requires Enabled(t, HandOver(h)) && m in Apply(t, HandOver(h)).fates
    ensures var t' := Apply(t, HandOver(h));
            (m in t.fates && t'.fates[m] == t.fates[m]) || Causes(t, HandOver(h), m, t'.fates[m])
  {
  }

  /** In every run, a message is gone only because it was read, because its listener's queue was full or closed, because
      the topic stopped, or because it was swept when old enough. */
  lemma {:induction false} FateHasCause(states: seq<Topic>, events: seq<Event>, m: Message, i: nat) returns (j: nat)
    requires Run(states, events) && i <= |events| && m in states[i].fates
    ensures j < i && Causes(states[j], events[j], m, states[i].fates[m])
  {
    RunStep(states, events, i - 1);
    FateStep(states[i - 1], events[i - 1], m);
    if m in states[i - 1].fates && states[i - 1].fates[m] == states[i].fates[m] {
      j := FateHasCause(states, events, m, i - 1);
    } else {
      j := i - 1;
    }
  }

  // ----- how long a listener lives

  /** The event replaces, cancels or stops the listener `l` of `k`. */
  predicate Ends(e: Event, k: MessageKey, l: nat) {
    e == Unregister(l) || (e.Listen? && e.key == k) || e.Stop?
  }

  /** A listener stays registered until it is cancelled itself, replaced, or the topic stops. */
  lemma {:induction false} StaysRegistered(states: seq<Topic>, events: seq<Event>, k: MessageKey, l: nat, i: nat, j: nat)
    requires Run(states, events) && i <= j <= |events| && k in states[i].listeners && states[i].listeners[k] == l
    requires forall x | i <= x < j :: !Ends(events[x], k, l)
    ensures k in states[j].listeners && states[j].listeners[k] == l
    decreases j
  {
    if i < j {
      StaysRegistered(states, events, k, l, i, j - 1);
      assert !Ends(events[j - 1], k, l);
      RegisteredStep(states, events, k, l, j - 1);
    }
  }

  lemma RegisteredStep(states: seq<Topic>, events: seq<Event>, k: MessageKey, l: nat, i: nat)
    requires Run(states, events) && i < |events| && k in states[i].listeners && states[i].listeners[k] == l
    requires !Ends(events[i], k, l)
    ensures k in states[i + 1].listeners && states[i + 1].listeners[k] == l
  {
    RunStep(states, events, i);
  }

  /** In every run, each channel was made by a `Listen` for its key and holds the number of messages asked for, or 8. */
  lemma {:induction false} ChannelHasListen(states: seq<Topic>, events: seq<Event>, l: nat, i: nat) returns (j: nat)
    requires Run(states, events) && i <= |events| && l in states[i].channels
    ensures j < i && events[j].Listen? && events[j].key == states[i].channels[l].key && l == states[j].next
    ensures states[i].channels[l].capacity == if events[j].bufferSize <= 0 then 8 else events[j].bufferSize
  {
    RunStep(states, events, i - 1);
    MadeStep(states[i - 1], events[i - 1], l);
    if l in states[i - 1].channels {
      j := ChannelHasListen(states, events, l, i - 1);
    } else {
      j := i - 1;
    }
  }

  lemma MadeStep(t: Topic, e: Event, l: nat)
    requires Shape(t) && Enabled(t, e) && l in Apply(t, e).channels
    ensures var ch := Apply(t, e).channels[l];
            if l in t.channels then ch.key == t.channels[l].key && ch.capacity == t.channels[l].capacity
            else e.Listen? && l == t.next && ch.key == e.key && ch.capacity == if e.bufferSize <= 0 then 8 else e.bufferSize
  {
    match e
    case HandOver(h) => HandOverKeepsChannels(t, h, l);
    case Listen(_, _) =>
    case _ => OthersKeepChannels(t, e, l);
  }

  lemma OthersKeepChannels(t: Topic, e: Event, l: nat)
    requires Enabled(t, e) && !e.HandOver? && !e.Listen?
    ensures var t' := Apply(t, e);
            && (l in t'.channels <==> l in t.channels)
            && (l in t.channels ==>
                  t'.channels[l].key == t.channels[l].key && t'.channels[l].capacity == t.channels[l].capacity)
  {
  }

  lemma HandOverKeepsChannels(t: Topic, h: nat, l: nat)
    requires Enabled(t, HandOver(h))
    ensures var t' := Apply(t, HandOver(h));
            && (l in t'.channels <==> l in t.channels)
            && (l in t.channels ==>
                  && t'.channels[l].key == t.channels[l].key && t'.channels[l].capacity == t.channels[l].capacity
                  && t'.channels[l].closed == t.channels[l].closed)
  {
  }

  /** The event closes the channel `l`: it is closed itself, replaced, or registered when the topic stops. */
  predicate Closes(t: Topic, e: Event, l: nat) {
    || e == Close(l)
    || (e.Listen? && e.key in t.listeners && t.listeners[e.key] == l)
    || (e.Stop? && l in t.listeners.Values)
  }

  ghost predicate EndedBefore(states: seq<Topic>, events: seq<Event>, l: nat, i: nat)
    requires i <= |events| < |states|
  {
    exists j :: 0 <= j < i && l in states[j].channels && Closes(states[j], events[j], l)
  }

  lemma EndedOneMore(states: seq<Topic>, events: seq<Event>, l: nat, i: nat)
    requires i < |events| < |states|
    ensures EndedBefore(states, events, l, i + 1) <==>
            EndedBefore(states, events, l, i) || (l in states[i].channels && Closes(states[i], events[i], l))
  {
  }

  /** In every run, a channel is closed if and only if some event since it was made closed it. */
  lemma {:induction false} ClosedIffEnded(states: seq<Topic>, events: seq<Event>, l: nat, i: nat)
    requires Run(states, events) && i <= |events| && l in states[i].channels
    ensures states[i].channels[l].closed <==> EndedBefore(states, events, l, i)
  {
    EndedOneMore(states, events, l, i - 1);
    if l in states[i - 1].channels {
      ClosedIffEnded(states, events, l, i - 1);
      ClosedStep(states, events, l, i - 1);
    } else {
      FreshChannel(states, events, l, i - 1);
    }
  }

  lemma CloseStep(t: Topic, e: Event, l: nat)
    requires Shape(t) && Enabled(t, e) && l in t.channels
    ensures l in Apply(t, e).channels
    ensures Apply(t, e).channels[l].closed <==> t.channels[l].closed || Closes(t, e, l)
  {
    match e
    case HandOver(h) => HandOverKeepsChannels(t, h, l);
    case Listen(k, size) => ListenCloses(t, k, size, l);
    case Stop => StopCloses(t, l);
    case _ => OthersClose(t, e, l);
  }

  lemma ListenCloses(t: Topic, k: MessageKey, size: int, l: nat)
    requires Shape(t) && l in t.channels
    ensures var t', e := Apply(t, Listen(k, size)), Listen(k, size);
            l in t'.channels && (t'.channels[l].closed <==> t.channels[l].closed || Closes(t, e, l))
  {
  }

  lemma StopCloses(t: Topic, l: nat)
    requires l in t.channels
    ensures var t' := Apply(t, Stop);
            l in t'.channels && (t'.channels[l].closed <==> t.channels[l].closed || Closes(t, Stop, l))
  {
  }

  lemma OthersClose(t: Topic, e: Event, l: nat)
    requires Enabled(t, e) && l in t.channels && !e.HandOver? && !e.Listen? && !e.Stop?
    ensures l in Apply(t, e).channels
    ensures Apply(t, e).channels[l].closed <==> t.channels[l].closed || e == Close(l)
  {
  }

  lemma ClosedStep(states: seq<Topic>, events: seq<Event>, l: nat, i: nat)
    requires Run(states, events) && i < |events| && l in states[i].channels
    ensures l in states[i + 1].channels
    ensures states[i + 1].channels[l].closed <==> states[i].channels[l].closed || Closes(states[i], events[i], l)
  {
    RunStep(states, events, i);
    CloseStep(states[i], events[i], l);
  }

  lemma FreshChannel(states: seq<Topic>, events: seq<Event>, l: nat, i: nat)
    requires Run(states, events) && i < |events| && l !in states[i].channels && l in states[i + 1].channels
    ensures !states[i + 1].channels[l].closed && !EndedBefore(states, events, l, i)
  {
    NotThereBefore(states, events, l, i);
    RunStep(states, events, i);
    MadeStep(states[i], events[i], l);
  }

  lemma {:induction false} NotThereBefore(states: seq<Topic>, events: seq<Event>, l: nat, i: nat)
    requires Run(states, events) && i <= |events| && l !in states[i].channels
    ensures forall j | 0 <= j <= i :: l !in states[j].channels
  {
    if i > 0 {
      RunStep(states, events, i - 1);
      if l in states[i - 1].channels {
        CloseStep(states[i - 1], events[i - 1], l);
      }
      NotThereBefore(states, events, l, i - 1);
    }
  }
}
