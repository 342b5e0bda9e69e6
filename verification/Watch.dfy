/**
  The lossy buffer between an event source and a watch client (api/core/watch.go `Watch`).

  The producer works in separate non-blocking channel operations; the client may take any number of items
  before each of them. `Gaps` records how many, so that every interleaving is some sequence of gaps.
 */
module Watch {
  import opened Options

  const WATCH_BUFFER_SIZE := 512

  /** A source event, by its position in the source, or the synthetic error event. */
  datatype Item = Event(index: nat) | Marker

  /** The channel, what the client has received, and the history of losses. `lossAt` is how much the client had
      received at the most recent loss of a source event. */
  datatype Stream = Stream(queue: seq<Item>, delivered: seq<Item>, sent: nat, lost: set<nat>, lossAt: Option<nat>)

  datatype Gaps = Gaps(beforeSend: nat, beforeDrop: nat, beforeMarker: nat, beforeRetry: nat)

  const EMPTY := Stream([], [], 0, {}, None)

  /** The client takes up to `k` items. */
  function Take(s: Stream, k: nat): Stream {
    var n := if k <= |s.queue| then k else |s.queue|;
    s.(queue := s.queue[n..], delivered := s.delivered + s.queue[..n])
  }

  function Lose(s: Stream, x: Item): Stream {
    if x.Event? then s.(lost := s.lost + {x.index}, lossAt := Some(|s.delivered|)) else s
  }

  function DropOldest(s: Stream): Stream {
    if s.queue == [] then s else Lose(s.(queue := s.queue[1..]), s.queue[0])
  }

  function TrySend(s: Stream, capacity: nat, x: Item): Stream {
    if |s.queue| < capacity then s.(queue := s.queue + [x]) else Lose(s, x)
  }

  /** One iteration of the producer loop for the next source event. */
  function Iterate(s: Stream, capacity: nat, g: Gaps): Stream {
    var s0 := Take(s, g.beforeSend);
    if |s0.queue| < capacity then Sent(s0, Event(s0.sent)) else Overflowed(s0, capacity, g)
  }

  function Sent(s: Stream, x: Item): Stream { s.(queue := s.queue + [x], sent := s.sent + 1) }

  function Overflowed(s: Stream, capacity: nat, g: Gaps): Stream {
    Retry(Take(Marked(s, capacity, g), g.beforeRetry), capacity)
  }

  /** A full channel gives up its oldest item and takes a marker. */
  function Marked(s: Stream, capacity: nat, g: Gaps): Stream {
    var s1 := DropOldest(Take(s, g.beforeDrop));
    TrySend(Take(s1, g.beforeMarker), capacity, Marker)
  }

  /** The second attempt to send the event itself. */
  function Retry(s: Stream, capacity: nat): Stream {
    TrySend(s, capacity, Event(s.sent)).(sent := s.sent + 1)
  }

  // ----- what every interleaving keeps

  ghost predicate Ordered(items: seq<Item>) {
    forall i, j | 0 <= i < j < |items| && items[i].Event? && items[j].Event? :: items[i].index < items[j].index
  }

  /** A marker is still queued, or reached the client after the most recent loss. */
  ghost predicate Warned(s: Stream) {
    s.lossAt.Some? ==>
      s.lossAt.value <= |s.delivered| && (Marker in s.queue || Marker in s.delivered[s.lossAt.value..])
  }

  /** Delivered then queued events are in source order, and each source event so far is there or lost, not both. */
  ghost predicate Faithful(s: Stream) {
    && Ordered(s.delivered + s.queue)
    && (forall n: nat :: Event(n) in s.delivered + s.queue || n in s.lost <==> n < s.sent)
    && (forall n: nat :: !(Event(n) in s.delivered + s.queue && n in s.lost))
    && (s.lost != {} <==> s.lossAt.Some?)
  }

  lemma TakeKeeps(s: Stream, k: nat)
    ensures var s' := Take(s, k);
            && s'.delivered + s'.queue == s.delivered + s.queue && |s'.queue| <= |s.queue|
            && (Faithful(s) ==> Faithful(s')) && (Warned(s) ==> Warned(s'))
  {
    var s' := Take(s, k);
    var n := if k <= |s.queue| then k else |s.queue|;
    assert s.queue == s.queue[..n] + s.queue[n..];
    assert s'.delivered + s'.queue == s.delivered + s.queue;
    if Warned(s) && s.lossAt.Some? {
      var i := s.lossAt.value;
      assert s'.delivered[i..] == s.delivered[i..] + s.queue[..n];
    }
  }

  lemma SendKeeps(s: Stream, x: Item)
    requires Faithful(s) && (x.Event? ==> x.index == s.sent)
    ensures Faithful(s.(queue := s.queue + [x], sent := if x.Event? then s.sent + 1 else s.sent))
  {
    var s' := s.(queue := s.queue + [x], sent := if x.Event? then s.sent + 1 else s.sent);
    assert s'.delivered + s'.queue == (s.delivered + s.queue) + [x];
  }

  lemma LoseKeeps(s: Stream)
    requires Faithful(s)
    ensures Faithful(Lose(s, Event(s.sent)).(sent := s.sent + 1))
  {
  }

  /** Taking one item out of a sequence in order keeps the others, in order, and leaves no copy of an event. */
  lemma RemoveOne(all: seq<Item>, k: nat, all': seq<Item>)
    requires k < |all| && all' == all[..k] + all[k + 1..] && Ordered(all)
    ensures Ordered(all')
    ensures forall y :: y in all' ==> y in all
    ensures forall y :: y in all ==> y in all' || y == all[k]
    ensures all[k].Event? ==> all[k] !in all'
  {
    assert forall i | 0 <= i < |all'| :: all'[i] == if i < k then all[i] else all[i + 1];
    forall y | y in all ensures y in all' || y == all[k] {
      var i :| 0 <= i < |all| && all[i] == y;
      if i < k { assert all'[i] == y; } else if i > k { assert all'[i - 1] == y; }
    }
  }

  lemma DropKeeps(s: Stream)
    requires Faithful(s)
    ensures Faithful(DropOldest(s))
  {
    if s.queue != [] {
      var s' := DropOldest(s);
      var all, all', k := s.delivered + s.queue, s'.delivered + s'.queue, |s.delivered|;
      assert all[k] == s.queue[0];
      assert all' == all[..k] + all[k + 1..];
      RemoveOne(all, k, all');
    }
  }

  lemma RetryKeeps(s: Stream, capacity: nat)
    requires Faithful(s)
    ensures Faithful(Retry(s, capacity))
  {
    if |s.queue| < capacity { SendKeeps(s, Event(s.sent)); } else { LoseKeeps(s); }
  }

  /** Once the drop has been tried there is room for the marker. */
  lemma MarkerFits(s: Stream, capacity: nat, k: nat)
    requires |s.queue| < capacity && Faithful(s)
    ensures var s' := TrySend(Take(s, k), capacity, Marker);
            && s'.queue != [] && s'.queue[|s'.queue| - 1] == Marker && |s'.queue| <= capacity
            && s'.sent == s.sent && Faithful(s') && s'.lossAt == s.lossAt && |s'.delivered| >= |s.delivered|
  {
    TakeKeeps(s, k);
    SendKeeps(Take(s, k), Marker);
  }

  /** If the event then finds the channel full, the marker is still in it. */
  lemma RetryWarns(s: Stream, capacity: nat, k: nat)
    requires 0 < capacity && s.queue != [] && s.queue[|s.queue| - 1] == Marker && |s.queue| <= capacity
    requires s.lossAt.Some? ==> s.lossAt.value <= |s.delivered|
    ensures var s' := Retry(Take(s, k), capacity); Warned(s') && |s'.queue| <= capacity
  {
    var t := Take(s, k);
    assert Warned(s);
    TakeKeeps(s, k);
    var s' := Retry(t, capacity);
    if |t.queue| >= capacity {
      assert t.queue == s.queue;
    } else {
      assert Marker in t.queue ==> Marker in s'.queue;
    }
  }

  lemma OverflowKeeps(s0: Stream, capacity: nat, g: Gaps)
    requires 0 < capacity && Faithful(s0) && Warned(s0) && |s0.queue| <= capacity
    ensures var s' := Overflowed(s0, capacity, g);
            Faithful(s') && Warned(s') && |s'.queue| <= capacity && s'.sent == s0.sent + 1
  {
    var t0 := Take(s0, g.beforeDrop);
    TakeKeeps(s0, g.beforeDrop);
    DropKeeps(t0);
    var s1 := DropOldest(t0);
    MarkerFits(s1, capacity, g.beforeMarker);
    var s2 := Marked(s0, capacity, g);
    RetryWarns(s2, capacity, g.beforeRetry);
    TakeKeeps(s2, g.beforeRetry);
    RetryKeeps(Take(s2, g.beforeRetry), capacity);
  }

  lemma IterateKeeps(s: Stream, capacity: nat, g: Gaps)
    requires 0 < capacity && Faithful(s) && Warned(s) && |s.queue| <= capacity
    ensures var s' := Iterate(s, capacity, g);
            Faithful(s') && Warned(s') && |s'.queue| <= capacity && s'.sent == s.sent + 1
  {
    var s0 := Take(s, g.beforeSend);
    TakeKeeps(s, g.beforeSend);
    if |s0.queue| < capacity {
      SendKeeps(s0, Event(s.sent));
    } else {
      OverflowKeeps(s0, capacity, g);
    }
  }

  /** The stream after the producer has handled one event per entry of `gaps`. */
  function After(capacity: nat, gaps: seq<Gaps>): Stream {
    if gaps == [] then EMPTY else Iterate(After(capacity, gaps[..|gaps| - 1]), capacity, gaps[|gaps| - 1])
  }

  /** For every interleaving: delivered then queued events form a subsequence of the source in order, nothing is
      duplicated or invented, every loss is accounted for, the channel keeps its bound, and after an iteration
      the client has been or will be warned of the most recent loss. */
  lemma {:induction false} WatchIsFaithful(capacity: nat, gaps: seq<Gaps>)
    requires 0 < capacity
    ensures var s := After(capacity, gaps);
            Faithful(s) && Warned(s) && |s.queue| <= capacity && s.sent == |gaps|
  {
    if gaps != [] {
      WatchIsFaithful(capacity, gaps[..|gaps| - 1]);
      IterateKeeps(After(capacity, gaps[..|gaps| - 1]), capacity, gaps[|gaps| - 1]);
    }
  }

  /** The stream as configured. */
  lemma WatchAsConfigured(gaps: seq<Gaps>)
    ensures var s := After(WATCH_BUFFER_SIZE, gaps);
            Faithful(s) && Warned(s) && |s.queue| <= 512 && s.sent == |gaps|
  {
    WatchIsFaithful(WATCH_BUFFER_SIZE, gaps);
  }

  // ----- when the new event itself is lost

  /** The client reads often enough, or at the right moment, for the new event to find room. A channel of one item has
      room for it only if the client reads before the first attempt or takes the marker. */
  predicate FindsRoom(s: Stream, capacity: nat, g: Gaps) {
    || |s.queue| < capacity || g.beforeSend > 0 || g.beforeRetry > 0
    || (capacity >= 2 && (g.beforeDrop > 0 || g.beforeMarker > 0))
  }

  lemma TakeLength(s: Stream, k: nat)
    ensures |Take(s, k).queue| == if k <= |s.queue| then |s.queue| - k else 0
    ensures Take(s, k).lost == s.lost && Take(s, k).sent == s.sent
    ensures forall x | x in Take(s, k).queue :: x in s.queue
  {
  }

  lemma MarkedLength(s: Stream, capacity: nat, g: Gaps)
    requires 0 < capacity == |s.queue| && Event(s.sent) !in s.queue && s.sent !in s.lost
    ensures var s2 := Marked(s, capacity, g);
            && s2.sent == s.sent && s.sent !in s2.lost && 0 < |s2.queue| <= capacity
            && (|s2.queue| == capacity <==> capacity == 1 || (g.beforeDrop == 0 && g.beforeMarker == 0))
  {
    var t0 := Take(s, g.beforeDrop);
    TakeLength(s, g.beforeDrop);
    var s1 := DropOldest(t0);
    assert t0.queue != [] ==> t0.queue[0] in t0.queue;
    TakeLength(s1, g.beforeMarker);
  }

  lemma OverflowedLoses(s: Stream, capacity: nat, g: Gaps)
    requires 0 < capacity == |s.queue| && Event(s.sent) !in s.queue && s.sent !in s.lost
    ensures s.sent in Overflowed(s, capacity, g).lost <==>
            g.beforeRetry == 0 && (capacity == 1 || (g.beforeDrop == 0 && g.beforeMarker == 0))
  {
    MarkedLength(s, capacity, g);
    TakeLength(Marked(s, capacity, g), g.beforeRetry);
  }

  /** One iteration keeps the new event if and only if the client leaves it room. */
  lemma KeptIffFindsRoom(s: Stream, capacity: nat, g: Gaps)
    requires 0 < capacity && |s.queue| <= capacity && Event(s.sent) !in s.queue && s.sent !in s.lost
    ensures s.sent !in Iterate(s, capacity, g).lost <==> FindsRoom(s, capacity, g)
  {
    var s0 := Take(s, g.beforeSend);
    TakeLength(s, g.beforeSend);
    if |s0.queue| == capacity {
      OverflowedLoses(s0, capacity, g);
    }
  }

  /** Some interleaving leads to `s` once `n` source events have been handled. */
  ghost predicate Reached(capacity: nat, s: Stream, n: nat) {
    exists gaps: seq<Gaps> :: |gaps| == n && After(capacity, gaps) == s
  }

  /** At every point of every run, the source event handled next survives its iteration if and only if the client leaves
      it room. */
  lemma NewEventSurvivesIff(capacity: nat, s: Stream, n: nat, g: Gaps)
    requires 0 < capacity && Reached(capacity, s, n)
    ensures Reached(capacity, Iterate(s, capacity, g), n + 1)
    ensures n !in Iterate(s, capacity, g).lost <==> FindsRoom(s, capacity, g)
  {
    var gaps: seq<Gaps> :| |gaps| == n && After(capacity, gaps) == s;
    assert (gaps + [g])[..n] == gaps;
    assert After(capacity, gaps + [g]) == Iterate(s, capacity, g);
    WatchIsFaithful(capacity, gaps);
    assert Event(s.sent) in s.queue ==> Event(s.sent) in s.delivered + s.queue;
    KeptIffFindsRoom(s, capacity, g);
  }

  const UNREAD := Gaps(0, 0, 0, 0)

  function Unread(n: nat): seq<Gaps> { seq(n, _ => UNREAD) }

  function Events(n: nat): seq<Item> { seq(n, i requires 0 <= i => Event(i)) }

  lemma TakeNone(s: Stream)
    ensures Take(s, 0) == s
  {
  }

  lemma UnreadSend(s: Stream, capacity: nat)
    requires |s.queue| < capacity
    ensures Iterate(s, capacity, UNREAD) == Sent(s, Event(s.sent))
  {
    TakeNone(s);
  }

  /** Left unread, the channel fills with the first events. */
  lemma {:induction false} UnreadFills(capacity: nat, n: nat)
    requires n <= capacity
    ensures After(capacity, Unread(n)) == Stream(Events(n), [], n, {}, None)
  {
    if n == 0 {
      assert Unread(0) == [] && Events(0) == [];
    } else {
      UnreadFills(capacity, n - 1);
      assert Unread(n)[..n - 1] == Unread(n - 1);
      UnreadSend(Stream(Events(n - 1), [], n - 1, {}, None), capacity);
      assert Events(n) == Events(n - 1) + [Event(n - 1)];
    }
  }

  /** A full channel that is left alone gives up its oldest event for the marker and loses the new event as well. */
  lemma UnreadOverflow(s: Stream, capacity: nat)
    requires 0 < capacity == |s.queue| && s.queue[0].Event?
    ensures var s' := Iterate(s, capacity, UNREAD);
            && s'.queue == s.queue[1..] + [Marker] && s'.lost == s.lost + {s.queue[0].index, s.sent}
            && s'.delivered == s.delivered
  {
    TakeNone(s);
    UnreadMark(s, capacity);
    var s2 := Marked(s, capacity, UNREAD);
    TakeNone(s2);
    assert Overflowed(s, capacity, UNREAD) == Retry(s2, capacity);
  }

  lemma UnreadMark(s: Stream, capacity: nat)
    requires 0 < capacity == |s.queue| && s.queue[0].Event?
    ensures var s2 := Marked(s, capacity, UNREAD);
            && s2.queue == s.queue[1..] + [Marker] && s2.lost == s.lost + {s.queue[0].index} && s2.sent == s.sent
            && s2.delivered == s.delivered
  {
    TakeNone(s);
    TakeNone(DropOldest(s));
  }

  /** A client that reads nothing loses the first event and the one that does not fit, whatever the capacity. */
  lemma UnreadOverflowLosesTwo(capacity: nat) returns (gaps: seq<Gaps>, s: Stream)
    requires 0 < capacity
    ensures |gaps| == capacity + 1 && (forall g | g in gaps :: g == UNREAD) && s == After(capacity, gaps)
    ensures s.lost == {0, capacity} && s.delivered == [] && s.queue == Events(capacity)[1..] + [Marker]
  {
    gaps := Unread(capacity + 1);
    s := After(capacity, gaps);
    UnreadFills(capacity, capacity);
    assert gaps[..capacity] == Unread(capacity);
    UnreadOverflow(After(capacity, Unread(capacity)), capacity);
  }

  // ----- the producer's channel operations

  class WatchChannel {
    var queue: seq<Item>
    const capacity: nat
    ghost var delivered: seq<Item>
    ghost var sent: nat
    ghost var lost: set<nat>
    ghost var lossAt: Option<nat>

    ghost function Value(): Stream reads this { Stream(queue, delivered, sent, lost, lossAt) }

    constructor (capacity: nat)
      ensures Value() == EMPTY && this.capacity == capacity
    {
      queue, delivered, sent, lost, lossAt := [], [], 0, {}, None;
      this.capacity := capacity;
    }

    /** The client side: receives up to `k` items. */
    method Receive(k: nat)
      modifies this`queue, this`delivered
      ensures Value() == Take(old(Value()), k)
    {
      var n := if k <= |queue| then k else |queue|;
      delivered := delivered + queue[..n];
      queue := queue[n..];
    }

    ghost method NoteLoss(x: Item)
      modifies this`lost, this`lossAt
      ensures Value() == Lose(old(Value()), x)
    {
      if x.Event? {
        lost, lossAt := lost + {x.index}, Some(|delivered|);
      }
    }

    /** The producer takes the oldest item out, if there is one, and throws it away. */
    method Discard()
      modifies this`queue, this`lost, this`lossAt
      ensures Value() == DropOldest(old(Value()))
    {
      if queue != [] {
        ghost var oldest := queue[0];
        queue := queue[1..];
        NoteLoss(oldest);
      }
    }

    /** A send that gives up at once when the channel is full. */
    method Offer(x: Item)
      modifies this`queue, this`lost, this`lossAt
      ensures Value() == TrySend(old(Value()), capacity, x)
    {
      if |queue| < capacity {
        queue := queue + [x];
      } else {
        NoteLoss(x);
      }
    }

    ghost method Advance()
      modifies this`sent
      ensures Value() == old(Value()).(sent := old(Value()).sent + 1)
    {
      sent := sent + 1;
    }

    /** The branch taken when the channel is full. */
    method MakeRoom(g: Gaps)
      modifies this`queue, this`delivered, this`lost, this`lossAt
      ensures Value() == Marked(old(Value()), capacity, g)
    {
      Receive(g.beforeDrop);
      Discard();
      Receive(g.beforeMarker);
      Offer(Marker);
    }

    /** The second attempt at the source event. */
    method Resend(x: Item)
      requires x == Event(sent)
      modifies this`queue, this`lost, this`lossAt, this`sent
      ensures Value() == Retry(old(Value()), capacity)
    {
      Offer(x);
      Advance();
    }

    /** The channel was full at the first attempt. */
    method Overflow(x: Item, g: Gaps)
      requires x == Event(sent)
      modifies this
      ensures Value() == Overflowed(old(Value()), capacity, g)
    {
      MakeRoom(g);
      Receive(g.beforeRetry);
      Resend(x);
    }

    method Enqueue(x: Item)
      modifies this`queue, this`sent
      ensures Value() == Sent(old(Value()), x)
    {
      queue := queue + [x];
      Advance();
    }

    /** One iteration of the producer loop on the source event `x`. */
    method Produce(x: Item, g: Gaps)
      requires x == Event(sent)
      modifies this
      ensures Value() == Iterate(old(Value()), capacity, g)
    {
      Receive(g.beforeSend);
      if |queue| < capacity {
        Enqueue(x);
      } else {
        Overflow(x, g);
      }
    }
  }
}
