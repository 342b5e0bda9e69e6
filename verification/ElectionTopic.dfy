/**
  One node's view of a cluster's election topic: listeners, buffered messages and bounded channels
  (election/topic.go `listener`, `Listen`, `dispatchClaim`, `dispatchFailure`, `sweepBuffer`, `Stop`).

  The topic lock and each listener's lock are taken separately, so between them a message is in the hand of
  the goroutine that carries it. An `Event` is one critical section; a run is any interleaving of them.
 */
module ElectionTopic {
  import opened TopicBuffer

  datatype MessageKey = MessageKey(capsule: string, replica: string)

  /** An accepted message; `id` tells apart messages with equal contents. */
  datatype Message = Message(id: nat, key: MessageKey, isClaim: bool)

  datatype Channel = Channel(key: MessageKey, claims: seq<Message>, failures: seq<Message>, capacity: nat, closed: bool)

  /** Messages that a goroutine has taken out of the topic for a listener. */
  datatype Hand = Hand(listener: nat, msgs: seq<Message>)

  datatype Fate = Consumed | Expired | Overflowed | Closed

  datatype Topic = Topic(
    listeners: map<MessageKey, nat>,
    buffered: map<MessageKey, seq<Buffered<Message>>>,
    channels: map<nat, Channel>,                       // every listener ever made, by its number
    hands: map<nat, Hand>,
    fates: map<Message, Fate>,                         // history of messages that left the topic
    accepted: set<Message>,
    next: nat)

  const EMPTY := Topic(map[], map[], map[], map[], map[], {}, 0)

  datatype Event =
    | Dispatch(msg: Message, now: int)        // under the topic lock
    | HandOver(hand: nat)                     // under the listener lock
    | Listen(key: MessageKey, bufferSize: int)
    | Unregister(listener: nat)
    | Close(listener: nat)
    | Sweep(cutoff: int)
    | Read(listener: nat, claim: bool)
    | Stop

  function Messages(buffer: seq<Buffered<Message>>): seq<Message> {
    seq(|buffer|, i requires 0 <= i < |buffer| => buffer[i].msg)
  }

  predicate Enabled(t: Topic, e: Event) {
    match e
    case Dispatch(m, _) => m !in t.accepted
    case HandOver(h) => h in t.hands && t.hands[h].listener in t.channels
    case Listen(_, _) => true
    case Unregister(l) => l in t.channels
    case Close(l) => l in t.channels
    case Sweep(_) => true
    case Read(l, claim) => l in t.channels && (if claim then t.channels[l].claims else t.channels[l].failures) != []
    case Stop => true
  }

  /** Non-blocking delivery: a closed or full channel drops the message. */
  function Offer(ch: Channel, m: Message): (Channel, seq<Fate>) {
    if ch.closed then (ch, [Closed])
    else if m.isClaim then
      if |ch.claims| < ch.capacity then (ch.(claims := ch.claims + [m]), []) else (ch, [Overflowed])
    else
      if |ch.failures| < ch.capacity then (ch.(failures := ch.failures + [m]), []) else (ch, [Overflowed])
  }

  function CloseChannel(channels: map<nat, Channel>, l: nat): map<nat, Channel> {
    if l in channels then channels[l := channels[l].(closed := true)] else channels
  }

  /** What is left of every buffer after a sweep; emptied keys disappear. */
  function SweptBuffers(buffered: map<MessageKey, seq<Buffered<Message>>>, cutoff: int)
    : map<MessageKey, seq<Buffered<Message>>>
  {
    map k | k in buffered && Kept(buffered[k], cutoff) != [] :: Kept(buffered[k], cutoff)
  }

  predicate InBuffer(t: Topic, m: Message) {
    m.key in t.buffered && m in Messages(t.buffered[m.key])
  }

  predicate SurvivesSweep(t: Topic, m: Message, cutoff: int) {
    m.key in t.buffered && m in Messages(Kept(t.buffered[m.key], cutoff))
  }

  function Apply(t: Topic, e: Event): Topic
    requires Enabled(t, e)
  {
    match e
    case Dispatch(m, now) =>
      var t' := t.(accepted := t.accepted + {m});
      if m.key in t.listeners then
        t'.(hands := t.hands[t.next := Hand(t.listeners[m.key], [m])], next := t.next + 1)
      else
        var before := if m.key in t.buffered then t.buffered[m.key] else [];
        t'.(buffered := t.buffered[m.key := before + [Buffered(now, m)]])
    case HandOver(h) =>
      var hand := t.hands[h];
      if hand.msgs == [] then t.(hands := t.hands - {h})
      else
        var (ch, fate) := Offer(t.channels[hand.listener], hand.msgs[0]);
        t.(channels := t.channels[hand.listener := ch],
           hands := t.hands[h := Hand(hand.listener, hand.msgs[1..])],
           fates := if fate == [] then t.fates else t.fates[hand.msgs[0] := fate[0]])
    case Listen(k, bufferSize) =>
      var l, h := t.next, t.next + 1;
      var closed := if k in t.listeners then CloseChannel(t.channels, t.listeners[k]) else t.channels;
      t.(listeners := t.listeners[k := l],
         channels := closed[l := Channel(k, [], [], if bufferSize <= 0 then 8 else bufferSize, false)],
         hands := if k in t.buffered then t.hands[h := Hand(l, Messages(t.buffered[k]))] else t.hands,
         buffered := t.buffered - {k},
         next := t.next + 2)
    case Unregister(l) =>
      var k := t.channels[l].key;
      if k in t.listeners && t.listeners[k] == l then t.(listeners := t.listeners - {k}) else t
    case Close(l) => t.(channels := CloseChannel(t.channels, l))
    case Sweep(cutoff) =>
      var expired := map m | m in t.accepted && InBuffer(t, m) && !SurvivesSweep(t, m, cutoff) :: Expired;
      t.(buffered := SweptBuffers(t.buffered, cutoff), fates := t.fates + expired)
    case Read(l, claim) =>
      var ch := t.channels[l];
      if claim then
        t.(channels := t.channels[l := ch.(claims := ch.claims[1..])], fates := t.fates[ch.claims[0] := Consumed])
      else
        t.(channels := t.channels[l := ch.(failures := ch.failures[1..])], fates := t.fates[ch.failures[0] := Consumed])
    case Stop =>
      var dropped := map m | m in t.accepted && InBuffer(t, m) :: Closed;
      t.(listeners := map[], buffered := map[], fates := t.fates + dropped,
         channels := map l | l in t.channels :: if l in t.listeners.Values then t.channels[l].(closed := true) else t.channels[l])
  }

  ghost predicate Run(states: seq<Topic>, events: seq<Event>) {
    && |states| == |events| + 1 && states[0] == EMPTY
    && forall i | 0 <= i < |events| :: Enabled(states[i], events[i]) && states[i + 1] == Apply(states[i], events[i])
  }

  // ----- the topic object

  class ClusterTopic {
    var listeners: map<MessageKey, nat>
    var buffered: map<MessageKey, seq<Buffered<Message>>>
    var channels: map<nat, Channel>
    var hands: map<nat, Hand>
    var next: nat
    ghost var fates: map<Message, Fate>
    ghost var accepted: set<Message>

    ghost function Value(): Topic reads this {
      Topic(listeners, buffered, channels, hands, fates, accepted, next)
    }

    constructor ()
      ensures Value() == EMPTY
    {
      listeners, buffered, channels, hands, next := map[], map[], map[], map[], 0;
      fates, accepted := map[], {};
    }

    method DispatchMessage(m: Message, now: int)
      requires Enabled(Value(), Dispatch(m, now))
      modifies this
      ensures Value() == Apply(old(Value()), Dispatch(m, now))
    {
      accepted := accepted + {m};
      if m.key in listeners {
        hands := hands[next := Hand(listeners[m.key], [m])];
        next := next + 1;
      } else {
        var queue := if m.key in buffered then buffered[m.key] else [];
        buffered := buffered[m.key := queue + [Buffered(now, m)]];
      }
    }

    method DeliverNext(h: nat)
      requires Enabled(Value(), HandOver(h))
      modifies this
      ensures Value() == Apply(old(Value()), HandOver(h))
    {
      var hand := hands[h];
      if hand.msgs == [] {
        hands := hands - {h};
        return;
      }
      var m := hand.msgs[0];
      var ch := channels[hand.listener];
      if ch.closed {
        fates := fates[m := Closed];
      } else if m.isClaim && |ch.claims| < ch.capacity {
        ch := ch.(claims := ch.claims + [m]);
      } else if !m.isClaim && |ch.failures| < ch.capacity {
        ch := ch.(failures := ch.failures + [m]);
      } else {
        fates := fates[m := Overflowed];
      }
      channels := channels[hand.listener := ch];
      hands := hands[h := Hand(hand.listener, hand.msgs[1..])];
    }

    method Register(k: MessageKey, bufferSize: int) returns (l: nat)
      modifies this
      ensures Value() == Apply(old(Value()), Listen(k, bufferSize)) && l == listeners[k]
    {
      var size := if bufferSize <= 0 then 8 else bufferSize;
      l := next;
      if k in listeners {
        CloseListener(listeners[k]);
      }
      listeners := listeners[k := l];
      channels := channels[l := Channel(k, [], [], size, false)];
      if k in buffered {
        var queued := Messages(buffered[k]);
        hands := hands[next + 1 := Hand(l, queued)];
      }
      buffered := buffered - {k};
      next := next + 2;
    }

    method CloseListener(l: nat)
      modifies this`channels
      ensures channels == CloseChannel(old(channels), l) == CloseChannel(channels, l)
      ensures l in channels ==> channels[l].closed
    {
      if l in channels {
        channels := channels[l := channels[l].(closed := true)];
      }
    }

    method Cancel(l: nat)
      requires Enabled(Value(), Unregister(l))
      modifies this
      ensures var t := Apply(old(Value()), Unregister(l)); Enabled(t, Close(l)) && Value() == Apply(t, Close(l))
    {
      var k := channels[l].key;
      if k in listeners && listeners[k] == l {
        listeners := listeners - {k};
      }
      CloseListener(l);
    }

    method ReadClaim(l: nat) returns (m: Message)
      requires Enabled(Value(), Read(l, true))
      modifies this
      ensures Value() == Apply(old(Value()), Read(l, true)) && m == old(channels[l].claims[0])
    {
      m := channels[l].claims[0];
      channels := channels[l := channels[l].(claims := channels[l].claims[1..])];
      fates := fates[m := Consumed];
    }

    method SweepBuffer(cutoff: int)
      modifies this
      ensures Value() == Apply(old(Value()), Sweep(cutoff))
    {
      fates := Apply(Value(), Sweep(cutoff)).fates;
      SweepKeys(cutoff);
    }

    /** Sweeps every key's slice in place; a key whose slice becomes empty is deleted. */
    method SweepKeys(cutoff: int)
      modifies this`buffered
      ensures buffered == SweptBuffers(old(buffered), cutoff)
    {
      var todo := buffered.Keys;
      while todo != {}
        invariant todo <= buffered.Keys <= old(buffered.Keys)
        invariant forall k | k in todo :: buffered[k] == old(buffered)[k]
        invariant forall k | k in old(buffered) && k !in todo ::
                    if Kept(old(buffered)[k], cutoff) == [] then k !in buffered
                    else k in buffered && buffered[k] == Kept(old(buffered)[k], cutoff)
        decreases todo
      {
        var k :| k in todo;
        var kept := SweepSlice(buffered[k], cutoff);
        buffered := if kept == [] then buffered - {k} else buffered[k := kept];
        todo := todo - {k};
      }
    }
  }

  method SweepSlice(queue: seq<Buffered<Message>>, cutoff: int) returns (kept: seq<Buffered<Message>>)
    ensures kept == Kept(queue, cutoff)
  {
    var slice := new Buffered<Message>[|queue|](i requires 0 <= i < |queue| => queue[i]);
    assert slice[..|queue|] == queue;
    var n := Compact(slice, |queue|, cutoff);
    kept := slice[..n];
  }
}
