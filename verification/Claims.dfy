/**
  Claims, decisions and the tiebreak of the delay election (election/manager.go).

  Times are nanoseconds since the epoch on one clock shared by all nodes; a claim carries its time
  truncated to microseconds.
 */
module Claims {
  type NodeId = string

  /** The fields of a published claim that the tiebreak reads. */
  datatype Claim = Claim(node: NodeId, score: real, micros: int)

  /** A strategy's verdict for the local node. */
  datatype Decision = Decision(eligible: bool, score: real, publishAt: int)

  /** Truncation of a nanosecond time to whole microseconds, rounding towards the past. */
  function Micros(t: int): int { t / 1000 }

  function Max(a: int, b: int): int { if a < b then b else a }

  /** Go's `<` on strings: lexicographic, a proper prefix comes first. */
  predicate LexLess(a: string, b: string) {
    if b == "" then false
    else if a == "" then true
    else if a[0] != b[0] then a[0] < b[0]
    else LexLess(a[1..], b[1..])
  }

  predicate IsBetter(rival: Claim, ours: Decision, ourId: NodeId) {
    if rival.score != ours.score then rival.score > ours.score
    else if rival.micros != Micros(ours.publishAt) then rival.micros < Micros(ours.publishAt)
    else LexLess(rival.node, ourId)
  }

  /** `a` is a proper prefix of `b`, or smaller at the first position where they differ. */
  ghost predicate Precedes(a: string, b: string) { a < b || exists i: nat :: DiffersAt(a, b, i) && a[i] < b[i] }

  ghost predicate DiffersAt(a: string, b: string, i: nat) { i < |a| && i < |b| && a[..i] == b[..i] && a[i] != b[i] }

  /** The order the documentation describes: higher score, then earlier time, then lexicographically smaller node ID. */
  ghost predicate Beats(x: Claim, y: Claim) {
    || x.score > y.score
    || (x.score == y.score && x.micros < y.micros)
    || (x.score == y.score && x.micros == y.micros && Precedes(x.node, y.node))
  }

  /** The claim a node would publish if it stamped exactly its planned time. */
  function Planned(d: Decision, id: NodeId): Claim { Claim(id, d.score, Micros(d.publishAt)) }

  /** The recursive comparison looks at the first position where the strings differ. */
  lemma {:induction false} LexIsFirstDifference(a: string, b: string)
    ensures LexLess(a, b) <==> Precedes(a, b)
  {
    if a != "" && b != "" && a[0] == b[0] {
      LexIsFirstDifference(a[1..], b[1..]);
      PrecedesTail(a, b);
    } else if a != "" && b != "" {
      assert a[..0] == b[..0] && DiffersAt(a, b, 0);
    }
  }

  /** Equal first characters do not matter. */
  lemma PrecedesTail(a: string, b: string)
    requires a != "" && b != "" && a[0] == b[0]
    ensures Precedes(a, b) <==> Precedes(a[1..], b[1..])
  {
    assert a == [a[0]] + a[1..] && b == [b[0]] + b[1..];
    if i: nat :| DiffersAt(a, b, i) && a[i] < b[i] {
      assert i > 0 && a[1..][..i - 1] == a[..i][1..] && b[1..][..i - 1] == b[..i][1..];
      assert DiffersAt(a[1..], b[1..], i - 1);
    }
    if i: nat :| DiffersAt(a[1..], b[1..], i) && a[1..][i] < b[1..][i] {
      assert a[..i + 1] == [a[0]] + a[1..][..i] && b[..i + 1] == [b[0]] + b[1..][..i];
      assert DiffersAt(a, b, i + 1);
    }
  }

  lemma {:induction false} LexTotal(a: string, b: string)
    ensures a == b || LexLess(a, b) || LexLess(b, a)
    ensures !(LexLess(a, b) && LexLess(b, a))
  {
    if a != "" && b != "" {
      LexTotal(a[1..], b[1..]);
      if a[0] == b[0] && a[1..] == b[1..] {
        assert a == [a[0]] + a[1..] == b;
      }
    }
  }

  lemma {:induction false} LexTransitive(a: string, b: string, c: string)
    requires LexLess(a, b) && LexLess(b, c)
    ensures LexLess(a, c)
  {
    if a != "" && b != "" && c != "" && a[0] == b[0] == c[0] {
      LexTransitive(a[1..], b[1..], c[1..]);
    }
  }

  /** `IsBetter` is the comparison with the local node's planned claim in the documented order, which is strict and
      total on claims of different nodes. */
  lemma TiebreakIsStrictTotalOrder(x: Claim, y: Claim, z: Claim, d: Decision, id: NodeId)
    ensures IsBetter(x, d, id) <==> Beats(x, Planned(d, id))
    ensures !Beats(x, x)
    ensures Beats(x, y) && Beats(y, z) ==> Beats(x, z)
    ensures x.node != y.node ==> (Beats(x, y) <==> !Beats(y, x))
  {
    LexIsFirstDifference(x.node, id);
    LexIsFirstDifference(x.node, x.node);
    LexIsFirstDifference(x.node, y.node);
    LexIsFirstDifference(y.node, x.node);
    LexIsFirstDifference(y.node, z.node);
    LexIsFirstDifference(x.node, z.node);
    LexTotal(x.node, x.node);
    LexTotal(x.node, y.node);
    if LexLess(x.node, y.node) && LexLess(y.node, z.node) {
      LexTransitive(x.node, y.node, z.node);
    }
  }

  /** Two nodes, each comparing the other's stamped claim with its own plan, both stand their ground. */
  predicate Standoff(a: NodeId, da: Decision, ta: int, b: NodeId, db: Decision, tb: int) {
    && !IsBetter(Claim(b, db.score, Micros(tb)), da, a)
    && !IsBetter(Claim(a, da.score, Micros(ta)), db, b)
  }

  /** Stamps that are not later than planned, to the microsecond, leave no standoff. */
  lemma OnTimeStampsResolve(a: NodeId, da: Decision, ta: int, b: NodeId, db: Decision, tb: int)
    requires a != b
    requires da.score == db.score ==> Micros(ta) <= Micros(da.publishAt) && Micros(tb) <= Micros(db.publishAt)
    ensures !Standoff(a, da, ta, b, db, tb)
  {
    LexTotal(a, b);
  }

  /** Stamping on time, at microsecond precision, is exactly what rules out a standoff with punctual rivals. */
  lemma OnTimeIffNoStandoff(a: NodeId, da: Decision, ta: int)
    ensures Micros(ta) <= Micros(da.publishAt) <==>
            forall b: NodeId, tb: int | b != a ::
              !Standoff(a, da, ta, b, Decision(true, da.score, tb), tb)
  {
    if Micros(ta) <= Micros(da.publishAt) {
      forall b: NodeId, tb: int | b != a
        ensures !Standoff(a, da, ta, b, Decision(true, da.score, tb), tb)
      {
        LexTotal(a, b);
      }
    } else {
      var b := a + "x";
      LexTotal(a, b);
      var tb := if LexLess(a, b) then da.publishAt else ta;
      assert Standoff(a, da, ta, b, Decision(true, da.score, tb), tb);
    }
  }
}
