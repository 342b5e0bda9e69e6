/**
  The per-key buffer of messages that arrived before anyone listened (election/topic.go `bufferedMessage`,
  `sweepBuffer`).
 */
module TopicBuffer {

  datatype Buffered<T> = Buffered(receivedAt: int, msg: T)

  /** What a sweep keeps: the messages received after `cutoff`, in order. */
  function Kept<T>(buffer: seq<Buffered<T>>, cutoff: int): seq<Buffered<T>> {
    if buffer == [] then []
    else (if buffer[0].receivedAt > cutoff then [buffer[0]] else []) + Kept(buffer[1..], cutoff)
  }

  /** The positions of the messages received after `cutoff`, counted from `from`. */
  function YoungAt<T>(buffer: seq<Buffered<T>>, cutoff: int, from: nat): seq<nat> {
    if buffer == [] then []
    else (if buffer[0].receivedAt > cutoff then [from] else []) + YoungAt(buffer[1..], cutoff, from + 1)
  }

  lemma {:induction false} KeptAppend<T>(buffer: seq<Buffered<T>>, x: Buffered<T>, cutoff: int)
    ensures Kept(buffer + [x], cutoff) == Kept(buffer, cutoff) + (if x.receivedAt > cutoff then [x] else [])
  {
    if buffer == [] {
      assert ([] + [x])[1..] == [];
    } else {
      assert (buffer + [x])[1..] == buffer[1..] + [x];
      KeptAppend(buffer[1..], x, cutoff);
    }
  }

  lemma {:induction false} YoungAtRange<T>(buffer: seq<Buffered<T>>, cutoff: int, from: nat)
    ensures forall x | x in YoungAt(buffer, cutoff, from) :: from <= x < from + |buffer|
    ensures forall k | 0 <= k < |buffer| ::
              from + k in YoungAt(buffer, cutoff, from) <==> buffer[k].receivedAt > cutoff
  {
    if buffer != [] {
      YoungAtRange(buffer[1..], cutoff, from + 1);
      var rest := YoungAt(buffer[1..], cutoff, from + 1);
      forall k | 0 <= k < |buffer|
        ensures from + k in YoungAt(buffer, cutoff, from) <==> buffer[k].receivedAt > cutoff
      {
        if k > 0 {
          assert buffer[1..][k - 1] == buffer[k];
          assert from + 1 + (k - 1) in rest <==> buffer[k].receivedAt > cutoff;
        }
      }
    }
  }

  /** Each position in `at`, counted from `from`, is where the corresponding element of `kept` is in the buffer. */
  predicate Locates<T(==)>(at: seq<nat>, kept: seq<Buffered<T>>, buffer: seq<Buffered<T>>, from: nat) {
    && |at| == |kept|
    && forall i | 0 <= i < |at| :: from <= at[i] < from + |buffer| && kept[i] == buffer[at[i] - from]
  }

  lemma LocatesTail<T>(at: seq<nat>, kept: seq<Buffered<T>>, buffer: seq<Buffered<T>>, from: nat)
    requires buffer != [] && Locates(at, kept, buffer[1..], from + 1)
    ensures Locates(at, kept, buffer, from)
    ensures Locates([from] + at, [buffer[0]] + kept, buffer, from)
  {
    forall i | 0 <= i < |at| ensures from <= at[i] < from + |buffer| && kept[i] == buffer[at[i] - from] {
      assert buffer[1..][at[i] - (from + 1)] == buffer[at[i] - from];
    }
  }

  lemma {:induction false} YoungAtElements<T>(buffer: seq<Buffered<T>>, cutoff: int, from: nat)
    ensures Locates(YoungAt(buffer, cutoff, from), Kept(buffer, cutoff), buffer, from)
  {
    if buffer != [] {
      YoungAtElements(buffer[1..], cutoff, from + 1);
      var at, kept := YoungAt(buffer[1..], cutoff, from + 1), Kept(buffer[1..], cutoff);
      LocatesTail(at, kept, buffer, from);
      if buffer[0].receivedAt <= cutoff {
        assert [] + at == at && [] + kept == kept;
      }
    }
  }

  predicate Increasing(at: seq<nat>) { forall i, j | 0 <= i < j < |at| :: at[i] < at[j] }

  lemma {:induction false} YoungAtIncreasing<T>(buffer: seq<Buffered<T>>, cutoff: int, from: nat)
    ensures Increasing(YoungAt(buffer, cutoff, from))
  {
    if buffer != [] {
      YoungAtIncreasing(buffer[1..], cutoff, from + 1);
      YoungAtRange(buffer[1..], cutoff, from + 1);
      var at, rest := YoungAt(buffer, cutoff, from), YoungAt(buffer[1..], cutoff, from + 1);
      var h := if buffer[0].receivedAt > cutoff then 1 else 0;
      assert at == (if h == 1 then [from] else []) + rest;
      forall i, j | 0 <= i < j < |at| ensures at[i] < at[j] {
        assert at[j] == rest[j - h] && rest[j - h] in rest;
        if i >= h { assert at[i] == rest[i - h] < rest[j - h]; } else { assert at[i] == from; }
        assert from + 1 <= rest[j - h];
      }
    }
  }

  /** The sweep is a stable filter: it keeps exactly the young messages, in their order of arrival. */
  lemma SweepIsStableFilter<T>(buffer: seq<Buffered<T>>, cutoff: int) returns (at: seq<nat>)
    ensures Increasing(at)
    ensures forall k: nat :: k in at <==> k < |buffer| && buffer[k].receivedAt > cutoff
    ensures |Kept(buffer, cutoff)| == |at|
    ensures forall i | 0 <= i < |at| :: at[i] < |buffer| && Kept(buffer, cutoff)[i] == buffer[at[i]]
  {
    at := YoungAt(buffer, cutoff, 0);
    YoungAtIncreasing(buffer, cutoff, 0);
    YoungAtRange(buffer, cutoff, 0);
    YoungAtElements(buffer, cutoff, 0);
    forall k: nat ensures k in at <==> k < |buffer| && buffer[k].receivedAt > cutoff {
      if k < |buffer| { assert 0 + k in at <==> buffer[k].receivedAt > cutoff; }
    }
  }

  /** The compaction loop of the sweep: survivors are moved to the front of the same backing array. */
  method Compact<T>(msgs: array<Buffered<T>>, n: nat, cutoff: int) returns (kept: nat)
    requires n <= msgs.Length
    modifies msgs
    ensures kept <= n && msgs[..kept] == Kept(old(msgs[..n]), cutoff)
    ensures msgs[n..] == old(msgs[n..])
  {
    kept := 0;
    for i := 0 to n
      invariant kept <= i
      invariant msgs[..kept] == Kept(old(msgs[..i]), cutoff)
      invariant msgs[i..] == old(msgs[i..])
    {
      KeptAppend(old(msgs[..i]), old(msgs[i]), cutoff);
      assert old(msgs[..i + 1]) == old(msgs[..i]) + [old(msgs[i])];
      assert msgs[i] == msgs[i..][0] == old(msgs[i..])[0] == old(msgs[i]);
      if msgs[i].receivedAt > cutoff {
        msgs[kept] := msgs[i];
        kept := kept + 1;
      }
      assert msgs[i + 1..] == old(msgs[i + 1..]);
    }
  }
}
