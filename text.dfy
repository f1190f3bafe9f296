/** Strings built by repeated concatenation, and where a piece sits in them. */
module Text {

  /** `acc = acc + piece` over the pieces, left to right, from "". */
  function Concat(ss: seq<string>): string
  {
    if ss == [] then "" else Concat(ss[..|ss| - 1]) + ss[|ss| - 1]
  }

  /** `sub` is the slice of `s` that starts at `p`. */
  predicate OccursAt(sub: string, s: string, p: nat)
  {
    p + |sub| <= |s| && s[p..p + |sub|] == sub
  }

  ghost predicate Occurs(sub: string, s: string)
  {
    exists p: nat :: OccursAt(sub, s, p)
  }

  /** One more piece appends it to the accumulated string. */
  lemma ConcatSnoc(ss: seq<string>, s: string)
    ensures Concat(ss + [s]) == Concat(ss) + s
  {
    assert (ss + [s])[..|ss|] == ss;
  }

  lemma {:induction false} ConcatAppend(a: seq<string>, b: seq<string>)
    ensures Concat(a + b) == Concat(a) + Concat(b)
    decreases |b|
  {
    if b == [] {
      assert a + b == a;
    } else {
      var b' := b[..|b| - 1];
      var last := b[|b| - 1];
      assert a + b == (a + b') + [last];
      assert b == b' + [last];
      ConcatSnoc(a + b', last);
      ConcatAppend(a, b');
      ConcatSnoc(b', last);
    }
  }

  /** Piece `k` is the slice of the concatenation that starts where the
      concatenation of the pieces before it ends. */
  lemma ConcatAt(ss: seq<string>, k: nat)
    requires k < |ss|
    ensures OccursAt(ss[k], Concat(ss), |Concat(ss[..k])|)
    ensures |Concat(ss[..k])| + |ss[k]| <= |Concat(ss)|
  {
    assert ss == ss[..k] + [ss[k]] + ss[k + 1..];
    ConcatAppend(ss[..k] + [ss[k]], ss[k + 1..]);
    ConcatSnoc(ss[..k], ss[k]);
  }

  /** A piece of a piece is a piece of the whole, at the summed offset. */
  lemma OccursTrans(sub: string, mid: string, s: string, p: nat, q: nat)
    requires OccursAt(sub, mid, p) && OccursAt(mid, s, q)
    ensures OccursAt(sub, s, q + p)
  {
    assert s[q..q + |mid|] == mid;
    forall i | 0 <= i < |sub|
      ensures s[q + p + i] == sub[i]
    {
      assert s[q + p + i] == s[q..q + |mid|][p + i];
    }
  }

  /** A piece of a concatenation's right operand, seen in the whole. */
  lemma OccursShift(sub: string, a: string, b: string, p: nat)
    requires OccursAt(sub, b, p)
    ensures OccursAt(sub, a + b, |a| + p)
  {
    assert (a + b)[|a| + p..|a| + p + |sub|] == b[p..p + |sub|];
  }

  /** A piece of a concatenation's left operand, seen in the whole. */
  lemma OccursWiden(sub: string, a: string, b: string, p: nat)
    requires OccursAt(sub, a, p)
    ensures OccursAt(sub, a + b, p)
  {
    assert (a + b)[p..p + |sub|] == a[p..p + |sub|];
  }

  /** Each piece of a concatenation occurs in it. */
  lemma PieceOccurs(ss: seq<string>, k: nat)
    requires k < |ss|
    ensures Occurs(ss[k], Concat(ss))
  {
    ConcatAt(ss, k);
  }

  /** Occurrence is transitive. */
  lemma OccursIn(sub: string, mid: string, s: string)
    requires Occurs(sub, mid) && Occurs(mid, s)
    ensures Occurs(sub, s)
  {
    var p: nat :| OccursAt(sub, mid, p);
    var q: nat :| OccursAt(mid, s, q);
    OccursTrans(sub, mid, s, p, q);
  }

  /** What occurs in a part occurs in the concatenation of three parts. */
  lemma OccursInPart(sub: string, a: string, b: string, c: string)
    requires Occurs(sub, a) || Occurs(sub, b) || Occurs(sub, c)
    ensures Occurs(sub, a + b + c)
  {
    if Occurs(sub, a) {
      var p: nat :| OccursAt(sub, a, p);
      OccursWiden(sub, a, b, p);
      OccursWiden(sub, a + b, c, p);
    } else if Occurs(sub, b) {
      var p: nat :| OccursAt(sub, b, p);
      OccursShift(sub, a, b, p);
      OccursWiden(sub, a + b, c, |a| + p);
    } else {
      var p: nat :| OccursAt(sub, c, p);
      OccursShift(sub, a + b, c, p);
    }
  }

  /** Two adjacent pieces form one piece. */
  lemma OccursJoin(x: string, y: string, s: string, p: nat)
    requires OccursAt(x, s, p) && OccursAt(y, s, p + |x|)
    ensures OccursAt(x + y, s, p)
  {
    assert s[p..p + |x| + |y|] == s[p..p + |x|] + s[p + |x|..p + |x| + |y|];
  }

  /** Two neighbouring pieces appear together in the concatenation, where
      the first of them starts. */
  lemma AdjacentPiecesAt(ss: seq<string>, k: nat)
    requires k + 1 < |ss|
    ensures OccursAt(ss[k] + ss[k + 1], Concat(ss), |Concat(ss[..k])|)
  {
    assert ss[..k + 1] == ss[..k] + [ss[k]];
    ConcatSnoc(ss[..k], ss[k]);
    ConcatAt(ss, k);
    ConcatAt(ss, k + 1);
    OccursJoin(ss[k], ss[k + 1], Concat(ss), |Concat(ss[..k])|);
  }

  lemma AdjacentPieces(ss: seq<string>, k: nat)
    requires k + 1 < |ss|
    ensures Occurs(ss[k] + ss[k + 1], Concat(ss))
  {
    AdjacentPiecesAt(ss, k);
  }

  /** A nine-piece concatenation written out. */
  lemma ConcatNine(s1: string, s2: string, s3: string, s4: string, s5: string,
                   s6: string, s7: string, s8: string, s9: string)
    ensures Concat([s1, s2, s3, s4, s5, s6, s7, s8, s9]) == s1 + s2 + s3 + s4 + s5 + s6 + s7 + s8 + s9
  {
    assert Concat([s1]) == s1 by {
      ConcatSnoc([], s1);
      assert [] + [s1] == [s1];
    }
    assert Concat([s1, s2]) == s1 + s2 by {
      ConcatSnoc([s1], s2);
      assert [s1] + [s2] == [s1, s2];
    }
    assert Concat([s1, s2, s3]) == s1 + s2 + s3 by {
      ConcatSnoc([s1, s2], s3);
      assert [s1, s2] + [s3] == [s1, s2, s3];
    }
    assert Concat([s1, s2, s3, s4]) == s1 + s2 + s3 + s4 by {
      ConcatSnoc([s1, s2, s3], s4);
      assert [s1, s2, s3] + [s4] == [s1, s2, s3, s4];
    }
    assert Concat([s1, s2, s3, s4, s5]) == s1 + s2 + s3 + s4 + s5 by {
      ConcatSnoc([s1, s2, s3, s4], s5);
      assert [s1, s2, s3, s4] + [s5] == [s1, s2, s3, s4, s5];
    }
    assert Concat([s1, s2, s3, s4, s5, s6]) == s1 + s2 + s3 + s4 + s5 + s6 by {
      ConcatSnoc([s1, s2, s3, s4, s5], s6);
      assert [s1, s2, s3, s4, s5] + [s6] == [s1, s2, s3, s4, s5, s6];
    }
    assert Concat([s1, s2, s3, s4, s5, s6, s7]) == s1 + s2 + s3 + s4 + s5 + s6 + s7 by {
      ConcatSnoc([s1, s2, s3, s4, s5, s6], s7);
      assert [s1, s2, s3, s4, s5, s6] + [s7] == [s1, s2, s3, s4, s5, s6, s7];
    }
    assert Concat([s1, s2, s3, s4, s5, s6, s7, s8]) == s1 + s2 + s3 + s4 + s5 + s6 + s7 + s8 by {
      ConcatSnoc([s1, s2, s3, s4, s5, s6, s7], s8);
      assert [s1, s2, s3, s4, s5, s6, s7] + [s8] == [s1, s2, s3, s4, s5, s6, s7, s8];
    }
    ConcatSnoc([s1, s2, s3, s4, s5, s6, s7, s8], s9);
    assert [s1, s2, s3, s4, s5, s6, s7, s8] + [s9] == [s1, s2, s3, s4, s5, s6, s7, s8, s9];
  }

  /** Piece `k` of `ss` inside a seven-part text `t` whose second part is
      `Concat(ss)`: it sits after the first part and pieces 0 to k-1, and it
      ends inside the second part. */
  lemma PieceInSecond(ss: seq<string>, k: nat, sub: string, s1: string, s3: string, s4: string,
                      s5: string, s6: string, s7: string, t: string, q: nat)
    requires k < |ss| && ss[k] == sub
    requires t == s1 + Concat(ss) + s3 + s4 + s5 + s6 + s7 && q == |s1| + |Concat(ss[..k])|
    ensures OccursAt(sub, t, q)
    ensures q + |sub| <= |s1| + |Concat(ss)|
  {
    ConcatAt(ss, k);
    OccursShift(sub, s1, Concat(ss), |Concat(ss[..k])|);
    OccursWiden(sub, s1 + Concat(ss), s3 + s4 + s5 + s6 + s7, q);
    assert s1 + Concat(ss) + (s3 + s4 + s5 + s6 + s7) == t;
  }

  /** The same for a text whose third part is `Concat(ss)`. */
  lemma PieceInThird(ss: seq<string>, k: nat, sub: string, s1: string, s2: string, s4: string,
                     s5: string, s6: string, s7: string, t: string, q: nat)
    requires k < |ss| && ss[k] == sub
    requires t == s1 + s2 + Concat(ss) + s4 + s5 + s6 + s7 && q == |s1| + |s2| + |Concat(ss[..k])|
    ensures OccursAt(sub, t, q)
    ensures q + |sub| <= |s1| + |s2| + |Concat(ss)|
  {
    ConcatAt(ss, k);
    OccursShift(sub, s1 + s2, Concat(ss), |Concat(ss[..k])|);
    OccursWiden(sub, s1 + s2 + Concat(ss), s4 + s5 + s6 + s7, q);
    assert s1 + s2 + Concat(ss) + (s4 + s5 + s6 + s7) == t;
  }

  /** The same for a text whose sixth part is `Concat(ss)`. */
  lemma PieceInSixth(ss: seq<string>, k: nat, sub: string, s1: string, s2: string, s3: string,
                     s4: string, s5: string, s7: string, t: string, q: nat)
    requires k < |ss| && ss[k] == sub
    requires t == s1 + s2 + s3 + s4 + s5 + Concat(ss) + s7
    requires q == |s1| + |s2| + |s3| + |s4| + |s5| + |Concat(ss[..k])|
    ensures OccursAt(sub, t, q)
  {
    ConcatAt(ss, k);
    OccursShift(sub, s1 + s2 + s3 + s4 + s5, Concat(ss), |Concat(ss[..k])|);
    OccursWiden(sub, s1 + s2 + s3 + s4 + s5 + Concat(ss), s7, q);
  }
}
