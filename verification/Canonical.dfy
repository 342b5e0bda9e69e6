/**
  The byte sequences that envelopes are signed over (election/topic.go `canonicalContent`, `appendField`;
  capsule/orbit/signing.go `canonicalContent`, `writeField`).
 */
module Canonical {
  import opened Options

  newtype byte = x: int | 0 <= x < 256

  type bytes = seq<byte>

  /** The signed fields of an envelope; the timestamp is in nanoseconds. */
  datatype Envelope = Envelope(kind: bytes, payload: bytes, sender: bytes, timestamp: Option<int>)

  function Pow256(w: nat): nat { if w == 0 then 1 else 256 * Pow256(w - 1) }

  /** The low `w` bytes of `n`, most significant first. */
  function BigEndian(n: nat, w: nat): (b: bytes)
    ensures |b| == w
  {
    if w == 0 then [] else BigEndian(n / 256, w - 1) + [(n % 256) as byte]
  }

  function Number(b: bytes): nat {
    if b == [] then 0 else 256 * Number(b[..|b| - 1]) + b[|b| - 1] as nat
  }

  /** Go's conversion of an int64 to uint64, on the low 64 bits of any integer. */
  function AsUint64(t: int): nat { t % 0x1_0000_0000_0000_0000 }

  function AsInt64(n: nat): int { if n < 0x8000_0000_0000_0000 then n else n - 0x1_0000_0000_0000_0000 }

  function Field(data: bytes): bytes { BigEndian(|data| % 0x1_0000_0000, 4) + data }

  function Stamp(t: Option<int>): bytes { if t.None? then [] else BigEndian(AsUint64(t.value), 8) }

  /** [length][kind][length][payload][length][sender][length][timestamp] */
  function Content(e: Envelope): bytes {
    Field(e.kind) + Field(e.payload) + Field(e.sender) + Field(Stamp(e.timestamp))
  }

  // ----- the two encoders

  method AppendField(buf: bytes, data: bytes) returns (r: bytes)
    ensures r == buf + Field(data)
  {
    var lenBuf := BigEndian(|data| % 0x1_0000_0000, 4);
    r := buf + lenBuf;
    r := r + data;
  }

  /** Eight big-endian bytes, or none for an absent timestamp. */
  method TimestampBytes(t: Option<int>) returns (b: bytes)
    ensures b == Stamp(t)
  {
    b := [];
    if t.Some? {
      b := BigEndian(AsUint64(t.value), 8);
    }
  }

  method ElectionContent(e: Envelope) returns (buf: bytes)
    ensures buf == Content(e)
  {
    buf := [];
    buf := AppendField(buf, e.kind);
    assert buf == Field(e.kind);
    buf := AppendField(buf, e.payload);
    buf := AppendField(buf, e.sender);
    var tsBytes := TimestampBytes(e.timestamp);
    buf := AppendField(buf, tsBytes);
  }

  method WriteField(buf: bytes, data: bytes) returns (r: bytes)
    ensures r == buf + Field(data)
  {
    r := buf + BigEndian(|data| % 0x1_0000_0000, 4) + data;
  }

  method OrbitContent(e: Envelope) returns (buf: bytes)
    ensures buf == Content(e)
  {
    buf := [];
    buf := WriteField(buf, e.kind);
    assert buf == Field(e.kind);
    buf := WriteField(buf, e.payload);
    buf := WriteField(buf, e.sender);
    var tsBytes := TimestampBytes(e.timestamp);
    buf := WriteField(buf, tsBytes);
  }

  // ----- a decoder

  function TakeField(b: bytes): Option<(bytes, bytes)> {
    if |b| < 4 then None
    else
      var n := Number(b[..4]);
      if |b| < 4 + n then None else Some((b[4..4 + n], b[4 + n..]))
  }

  function TakeStamp(data: bytes): Option<Option<int>> {
    if |data| == 0 then Some(None)
    else if |data| == 8 then Some(Some(AsInt64(Number(data))))
    else None
  }

  function Decode(b: bytes): Option<Envelope> {
    match TakeField(b)
    case None => None
    case Some((kind, b1)) =>
      match TakeField(b1)
      case None => None
      case Some((payload, b2)) =>
        match TakeField(b2)
        case None => None
        case Some((sender, b3)) =>
          match TakeField(b3)
          case None => None
          case Some((stamp, rest)) =>
            match TakeStamp(stamp)
            case None => None
            case Some(t) => if rest == [] then Some(Envelope(kind, payload, sender, t)) else None
  }

  /** Fields that the length prefix can count and a timestamp that int64 nanoseconds can hold. */
  predicate Representable(e: Envelope) {
    && |e.kind| < 0x1_0000_0000 && |e.payload| < 0x1_0000_0000 && |e.sender| < 0x1_0000_0000
    && (e.timestamp.Some? ==> IsInt64(e.timestamp.value))
  }

  lemma Divided(n: nat, m: nat)
    requires n < 256 * m
    ensures n / 256 < m && 256 * (n / 256) + n % 256 == n
  {
  }

  lemma NumberAppend(b: bytes, x: byte)
    ensures Number(b + [x]) == 256 * Number(b) + x as nat
  {
    assert (b + [x])[..|b|] == b;
  }

  lemma {:induction false} NumberOfBigEndian(n: nat, w: nat)
    requires n < Pow256(w)
    ensures Number(BigEndian(n, w)) == n
  {
    if w > 0 {
      Divided(n, Pow256(w - 1));
      NumberOfBigEndian(n / 256, w - 1);
      NumberAppend(BigEndian(n / 256, w - 1), (n % 256) as byte);
    }
  }

  lemma {:induction false} BigEndianOfNumber(b: bytes)
    ensures Number(b) < Pow256(|b|) && BigEndian(Number(b), |b|) == b
  {
    if b != [] {
      var init, last := b[..|b| - 1], b[|b| - 1];
      BigEndianOfNumber(init);
      assert Number(b) / 256 == Number(init) && Number(b) % 256 == last as nat;
      assert b == init + [last];
    }
  }

  lemma Widths()
    ensures Pow256(4) == 0x1_0000_0000 && Pow256(8) == 0x1_0000_0000_0000_0000
  {
    assert Pow256(1) == 256 && Pow256(2) == 65536 && Pow256(3) == 0x100_0000 && Pow256(4) == 0x1_0000_0000;
    assert Pow256(5) == 0x100_0000_0000 && Pow256(6) == 0x1_0000_0000_0000 && Pow256(7) == 0x100_0000_0000_0000;
  }

  lemma Slices(prefix: bytes, data: bytes, rest: bytes)
    requires |prefix| == 4
    ensures var b := prefix + data + rest;
            b[..4] == prefix && b[4..4 + |data|] == data && b[4 + |data|..] == rest
  {
  }

  lemma TakeFieldOfField(data: bytes, rest: bytes)
    requires |data| < 0x1_0000_0000
    ensures TakeField(Field(data) + rest) == Some((data, rest))
  {
    var prefix := Prefix(data);
    Slices(prefix, data, rest);
  }

  /** The four bytes in front of a field hold its length. */
  lemma Prefix(data: bytes) returns (p: bytes)
    requires |data| < 0x1_0000_0000
    ensures |p| == 4 && Number(p) == |data| && Field(data) == p + data
  {
    Widths();
    p := BigEndian(|data|, 4);
    NumberOfBigEndian(|data|, 4);
  }

  lemma FieldOfTakeField(b: bytes)
    requires TakeField(b).Some?
    ensures var (data, rest) := TakeField(b).value; |data| < 0x1_0000_0000 && b == Field(data) + rest
  {
    Widths();
    BigEndianOfNumber(b[..4]);
    var n := Number(b[..4]);
    assert b == b[..4] + b[4..4 + n] + b[4 + n..];
  }

  predicate IsInt64(t: int) { -0x8000_0000_0000_0000 <= t < 0x8000_0000_0000_0000 }

  lemma SignRoundTrip(t: int)
    requires IsInt64(t)
    ensures AsInt64(AsUint64(t)) == t && AsUint64(t) < 0x1_0000_0000_0000_0000
  {
  }

  lemma UnsignRoundTrip(n: nat)
    requires n < 0x1_0000_0000_0000_0000
    ensures AsUint64(AsInt64(n)) == n && IsInt64(AsInt64(n))
  {
  }

  lemma StampRoundTrip(t: Option<int>)
    requires t.Some? ==> IsInt64(t.value)
    ensures TakeStamp(Stamp(t)) == Some(t) && |Stamp(t)| < 0x1_0000_0000
  {
    if t.Some? {
      Widths();
      SignRoundTrip(t.value);
      NumberOfBigEndian(AsUint64(t.value), 8);
    }
  }

  lemma StampOfTakeStamp(data: bytes)
    requires TakeStamp(data).Some?
    ensures Stamp(TakeStamp(data).value) == data
    ensures TakeStamp(data).value.Some? ==> IsInt64(TakeStamp(data).value.value)
  {
    if |data| == 8 {
      Widths();
      BigEndianOfNumber(data);
      UnsignRoundTrip(Number(data));
    }
  }

  /** Signed bytes determine the envelope they were made from. */
  lemma ContentDecodes(e: Envelope)
    requires Representable(e)
    ensures Decode(Content(e)) == Some(e)
  {
    var f4 := Field(Stamp(e.timestamp));
    var f3 := Field(e.sender) + f4;
    var f2 := Field(e.payload) + f3;
    assert Content(e) == Field(e.kind) + f2;
    TakeFieldOfField(e.kind, f2);
    TakeFieldOfField(e.payload, f3);
    TakeFieldOfField(e.sender, f4);
    StampRoundTrip(e.timestamp);
    assert f4 == f4 + [];
    TakeFieldOfField(Stamp(e.timestamp), []);
  }

  /** The decoder accepts nothing but canonical content. */
  lemma DecodedIsCanonical(b: bytes)
    requires Decode(b).Some?
    ensures Representable(Decode(b).value) && Content(Decode(b).value) == b
  {
    FieldOfTakeField(b);
    var (kind, b1) := TakeField(b).value;
    FieldOfTakeField(b1);
    var (payload, b2) := TakeField(b1).value;
    FieldOfTakeField(b2);
    var (sender, b3) := TakeField(b2).value;
    FieldOfTakeField(b3);
    var (stamp, rest) := TakeField(b3).value;
    StampOfTakeStamp(stamp);
    Regroup(Field(kind), Field(payload), Field(sender), Field(stamp));
  }

  lemma Regroup(a: bytes, b: bytes, c: bytes, d: bytes)
    ensures a + (b + (c + (d + []))) == a + b + c + d
  {
  }

  /** Equal signed bytes mean equal kind, payload, sender and timestamp, absent told apart from present. */
  lemma ContentIsInjective(e: Envelope, f: Envelope)
    requires Representable(e) && Representable(f)
    ensures Content(e) == Content(f) <==> e == f
  {
    ContentDecodes(e);
    ContentDecodes(f);
  }

  function Zeros(n: nat): bytes { seq(n, _ => 0) }

  lemma {:induction false} BigEndianOfZero(w: nat)
    ensures BigEndian(0, w) == Zeros(w)
  {
    if w > 0 {
      BigEndianOfZero(w - 1);
      assert Zeros(w) == Zeros(w - 1) + [0];
    }
  }

  lemma ZerosAppend(m: nat, n: nat)
    ensures Zeros(m) + Zeros(n) == Zeros(m + n)
  {
  }

  lemma FieldOfZeros(n: nat)
    requires n % 0x1_0000_0000 == 0
    ensures Field(Zeros(n)) == Zeros(4 + n)
  {
    BigEndianOfZero(4);
    ZerosAppend(4, n);
  }

  /** A field of 2^32 bytes has the length prefix of an empty one. */
  lemma LongFieldsCollide(sender: bytes, t: Option<int>)
    ensures var long := Zeros(0x1_0000_0000);
            Content(Envelope(long, [], sender, t)) == Content(Envelope([], long, sender, t))
  {
    var n := 0x1_0000_0000;
    FieldOfZeros(n);
    FieldOfZeros(0);
    assert Zeros(0) == [];
    ZerosAppend(4 + n, 4);
    ZerosAppend(4, 4 + n);
  }

  lemma StampWraps(t: int)
    ensures AsUint64(t + 0x1_0000_0000_0000_0000) == AsUint64(t)
  {
  }

  /** Both bounds are needed: a field of 2^32 bytes or a timestamp 2^64 nanoseconds away signs the same bytes
      as a different envelope. */
  lemma CollisionsBeyondBounds(e: Envelope, t: int)
    ensures Content(e.(timestamp := Some(t))) == Content(e.(timestamp := Some(t + 0x1_0000_0000_0000_0000)))
    ensures var long := Zeros(0x1_0000_0000);
            Content(Envelope(long, [], e.sender, e.timestamp)) == Content(Envelope([], long, e.sender, e.timestamp))
  {
    StampWraps(t);
    LongFieldsCollide(e.sender, e.timestamp);
  }

  // ----- the layout

  /** `b` comes before `c` at the first byte where they differ. */
  ghost predicate BytesBefore(b: bytes, c: bytes) {
    exists i: nat :: i < |b| && i < |c| && b[..i] == c[..i] && b[i] < c[i]
  }

  /** The most significant byte comes first: byte order is numerical order. */
  lemma {:induction false} BigEndianIsOrdered(n: nat, m: nat, w: nat)
    requires n < m < Pow256(w)
    ensures BytesBefore(BigEndian(n, w), BigEndian(m, w))
  {
    var b0, c0, x, y := BigEndian(n / 256, w - 1), BigEndian(m / 256, w - 1), (n % 256) as byte, (m % 256) as byte;
    if n / 256 < m / 256 {
      Divided(m, Pow256(w - 1));
      BigEndianIsOrdered(n / 256, m / 256, w - 1);
    }
    LongerBefore(b0, c0, x, y);
  }

  lemma LongerBefore(b: bytes, c: bytes, x: byte, y: byte)
    requires |b| == |c| && (BytesBefore(b, c) || (b == c && x < y))
    ensures BytesBefore(b + [x], c + [y])
  {
    var b1, c1 := b + [x], c + [y];
    if BytesBefore(b, c) {
      var i: nat :| i < |b| && i < |c| && b[..i] == c[..i] && b[i] < c[i];
      assert b1[..i] == b[..i] && c1[..i] == c[..i] && b1[i] < c1[i];
    } else {
      assert b1[..|b|] == c1[..|b|] && b1[|b|] < c1[|b|];
    }
  }

  /** At offset `i` there are four bytes that hold the length of `data`, and then `data`. */
  ghost predicate FieldAt(b: bytes, i: nat, data: bytes) {
    i + 4 + |data| <= |b| && Number(b[i..i + 4]) == |data| && b[i + 4..i + 4 + |data|] == data
  }

  /** Where each field of an envelope is in the signed bytes: kind, payload, sender and timestamp, each behind its length,
      and nothing after them. The timestamp is eight bytes, or none. */
  lemma Layout(e: Envelope)
    requires Representable(e)
    ensures var b, stamp := Content(e), Stamp(e.timestamp);
            && FieldAt(b, 0, e.kind) && FieldAt(b, 4 + |e.kind|, e.payload)
            && FieldAt(b, 8 + |e.kind| + |e.payload|, e.sender)
            && FieldAt(b, 12 + |e.kind| + |e.payload| + |e.sender|, stamp)
            && |b| == 16 + |e.kind| + |e.payload| + |e.sender| + |stamp|
            && if e.timestamp.None? then stamp == []
               else |stamp| == 8 && Number(stamp) == TwosComplement(e.timestamp.value)
  {
    FieldsFound(e.kind, e.payload, e.sender, Stamp(e.timestamp));
    if e.timestamp.Some? {
      StampNumber(e.timestamp.value);
    }
  }

  lemma FieldsFound(k: bytes, p: bytes, s: bytes, t: bytes)
    requires |k| < 0x1_0000_0000 && |p| < 0x1_0000_0000 && |s| < 0x1_0000_0000 && |t| < 0x1_0000_0000
    ensures var b := Field(k) + Field(p) + Field(s) + Field(t);
            && FieldAt(b, 0, k) && FieldAt(b, 4 + |k|, p) && FieldAt(b, 8 + |k| + |p|, s)
            && FieldAt(b, 12 + |k| + |p| + |s|, t) && |b| == 16 + |k| + |p| + |s| + |t|
  {
    KindFound(k, p, s, t);
    PayloadFound(k, p, s, t);
    SenderFound(k, p, s, t);
    StampFound(k, p, s, t);
  }

  lemma KindFound(k: bytes, p: bytes, s: bytes, t: bytes)
    requires |k| < 0x1_0000_0000 && |p| < 0x1_0000_0000 && |s| < 0x1_0000_0000 && |t| < 0x1_0000_0000
    ensures FieldAt(Field(k) + Field(p) + Field(s) + Field(t), 0, k)
  {
    Associate(Field(k), Field(p), Field(s), Field(t));
    FieldFound([], k, Field(p) + Field(s) + Field(t), Field(k) + Field(p) + Field(s) + Field(t));
  }

  lemma PayloadFound(k: bytes, p: bytes, s: bytes, t: bytes)
    requires |k| < 0x1_0000_0000 && |p| < 0x1_0000_0000 && |s| < 0x1_0000_0000 && |t| < 0x1_0000_0000
    ensures FieldAt(Field(k) + Field(p) + Field(s) + Field(t), 4 + |k|, p)
  {
    Associate(Field(k), Field(p), Field(s), Field(t));
    FieldFound(Field(k), p, Field(s) + Field(t), Field(k) + Field(p) + Field(s) + Field(t));
  }

  lemma SenderFound(k: bytes, p: bytes, s: bytes, t: bytes)
    requires |k| < 0x1_0000_0000 && |p| < 0x1_0000_0000 && |s| < 0x1_0000_0000 && |t| < 0x1_0000_0000
    ensures FieldAt(Field(k) + Field(p) + Field(s) + Field(t), 8 + |k| + |p|, s)
  {
    Associate(Field(k), Field(p), Field(s), Field(t));
    FieldFound(Field(k) + Field(p), s, Field(t), Field(k) + Field(p) + Field(s) + Field(t));
  }

  lemma StampFound(k: bytes, p: bytes, s: bytes, t: bytes)
    requires |k| < 0x1_0000_0000 && |p| < 0x1_0000_0000 && |s| < 0x1_0000_0000 && |t| < 0x1_0000_0000
    ensures FieldAt(Field(k) + Field(p) + Field(s) + Field(t), 12 + |k| + |p| + |s|, t)
  {
    Associate(Field(k), Field(p), Field(s), Field(t));
    FieldFound(Field(k) + Field(p) + Field(s), t, [], Field(k) + Field(p) + Field(s) + Field(t));
  }

  lemma Associate(a: bytes, b: bytes, c: bytes, d: bytes)
    ensures var all := a + b + c + d;
            all == [] + a + (b + c + d) && all == a + b + (c + d) && all == (a + b) + c + d && all == (a + b + c) + d + []
  {
  }

  lemma FieldFound(before: bytes, data: bytes, rest: bytes, b: bytes)
    requires |data| < 0x1_0000_0000 && b == before + Field(data) + rest
    ensures FieldAt(b, |before|, data) && |Field(data)| == 4 + |data|
  {
    var p := Prefix(data);
    SlicesAt(before, p, data, rest);
  }

  lemma SlicesAt(before: bytes, p: bytes, data: bytes, rest: bytes)
    ensures var b, i, j := before + (p + data) + rest, |before|, |before| + |p|;
            b[i..j] == p && b[j..j + |data|] == data
  {
  }

  function TwosComplement(t: int): int { if t >= 0 then t else t + 0x1_0000_0000_0000_0000 }

  lemma StampNumber(t: int)
    requires IsInt64(t)
    ensures Number(Stamp(Some(t))) == TwosComplement(t)
  {
    Widths();
    NumberOfBigEndian(AsUint64(t), 8);
  }
}
