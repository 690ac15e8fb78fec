/** The Sylvester construction that the Hadamard matrix of the source is meant to follow,
    H(2n) = [[H(n), H(n)], [H(n), -H(n)]] scaled by a gain, as a reference definition beside
    the as-written matrix of module Matrices. */
module SylvesterRef {
  import opened CppArith
  import opened Matrices

  /** The scaled Sylvester-Hadamard matrix of size `2^k`. */
  function Sylvester(k: nat, gain: real): (h: seq<seq<real>>)
    ensures IsGrid(h, Pow(2, k), Pow(2, k))
  {
    if k == 0 then [[gain]]
    else
      Doubled(Sylvester(k - 1, gain), Pow(2, k - 1))
  }

  /** The block matrix [[H, H], [H, -H]] for a `half` by `half` matrix H. */
  function Doubled(prev: seq<seq<real>>, half: nat): (h: seq<seq<real>>)
    requires IsGrid(prev, half, half)
    ensures IsGrid(h, 2 * half, 2 * half)
  {
    seq(2 * half, r requires 0 <= r < 2 * half =>
      seq(2 * half, c requires 0 <= c < 2 * half => Quad(prev, half, r, c)))
  }

  /** Row `r` of the block matrix joins two rows of H: one repeated in the top half, one
      followed by its negation in the bottom half. */
  lemma {:induction false} DoubledRow(prev: seq<seq<real>>, half: nat, r: nat)
    requires IsGrid(prev, half, half) && r < 2 * half
    ensures var r' := if r < half then r else r - half;
      r' < half && Doubled(prev, half)[r] == prev[r'] + (if r < half then prev[r'] else Negated(prev[r']))
  {
    var r' := if r < half then r else r - half;
    var row := Doubled(prev, half)[r];
    var rhs := prev[r'] + (if r < half then prev[r'] else Negated(prev[r']));
    assert |row| == 2 * half == |rhs|;
    forall c | 0 <= c < 2 * half
      ensures row[c] == rhs[c]
    {
      assert row[c] == Quad(prev, half, r, c);
    }
  }

  /** Dot product of two rows. */
  function Dot(a: seq<real>, b: seq<real>): real
    requires |a| == |b|
  {
    if |a| == 0 then 0.0 else a[0] * b[0] + Dot(a[1..], b[1..])
  }

  function Negated(a: seq<real>): (r: seq<real>)
    ensures |r| == |a| && forall k :: 0 <= k < |a| ==> r[k] == -a[k]
  {
    seq(|a|, k requires 0 <= k < |a| => -a[k])
  }

  lemma {:induction false} DotAppend(a1: seq<real>, a2: seq<real>, b1: seq<real>, b2: seq<real>)
    requires |a1| == |b1| && |a2| == |b2|
    ensures Dot(a1 + a2, b1 + b2) == Dot(a1, b1) + Dot(a2, b2)
  {
    if |a1| > 0 {
      assert (a1 + a2)[1..] == a1[1..] + a2;
      assert (b1 + b2)[1..] == b1[1..] + b2;
      DotAppend(a1[1..], a2, b1[1..], b2);
    } else {
      assert a1 + a2 == a2;
      assert b1 + b2 == b2;
    }
  }

  lemma {:induction false} DotNegatedRight(a: seq<real>, b: seq<real>)
    requires |a| == |b|
    ensures Dot(a, Negated(b)) == -Dot(a, b)
  {
    if |a| > 0 {
      assert Negated(b)[1..] == Negated(b[1..]);
      DotNegatedRight(a[1..], b[1..]);
    }
  }

  lemma {:induction false} DotNegatedBoth(a: seq<real>, b: seq<real>)
    requires |a| == |b|
    ensures Dot(Negated(a), Negated(b)) == Dot(a, b)
  {
    if |a| > 0 {
      assert Negated(a)[1..] == Negated(a[1..]);
      assert Negated(b)[1..] == Negated(b[1..]);
      DotNegatedBoth(a[1..], b[1..]);
    }
  }

  /** Row `r` of `Sylvester(k)` is the concatenation of two rows of `Sylvester(k - 1)`:
      a row repeated in the top half, a row followed by its negation in the bottom half. */
  lemma {:induction false} SylvesterRow(k: nat, gain: real, r: nat)
    requires k >= 1 && r < Pow(2, k)
    ensures var prev := Sylvester(k - 1, gain); var half := Pow(2, k - 1);
      var r' := if r < half then r else r - half;
      half <= r' + half < 2 * half
      && Sylvester(k, gain)[r] == prev[r'] + (if r < half then prev[r'] else Negated(prev[r']))
  {
    DoubledRow(Sylvester(k - 1, gain), Pow(2, k - 1), r);
  }

  /** Squared norm of a row of `Sylvester(k, gain)`, doubling with each step of the construction. */
  function RowNorm(k: nat, gain: real): real
  {
    if k == 0 then gain * gain else 2.0 * RowNorm(k - 1, gain)
  }

  lemma {:induction false} RowNormIsScaledSize(k: nat, gain: real)
    ensures RowNorm(k, gain) == gain * gain * (Pow(2, k) as real)
  {
    if k > 0 {
      RowNormIsScaledSize(k - 1, gain);
      DoubleScaled(gain * gain, Pow(2, k - 1));
    }
  }

  /** Rows of the Sylvester matrix are mutually orthogonal and each has squared norm
      `gain^2 * 2^k`. */
  lemma {:induction false} SylvesterOrthogonal(k: nat, gain: real, r: nat, s: nat)
    requires r < Pow(2, k) && s < Pow(2, k)
    ensures Dot(Sylvester(k, gain)[r], Sylvester(k, gain)[s])
         == if r == s then gain * gain * (Pow(2, k) as real) else 0.0
  {
    SylvesterDots(k, gain, r, s);
    RowNormIsScaledSize(k, gain);
  }

  lemma {:induction false} SylvesterDots(k: nat, gain: real, r: nat, s: nat)
    requires r < Pow(2, k) && s < Pow(2, k)
    ensures Dot(Sylvester(k, gain)[r], Sylvester(k, gain)[s]) == if r == s then RowNorm(k, gain) else 0.0
  {
    if k == 0 {
      assert Sylvester(k, gain)[r] == [gain];
    } else {
      var prev := Sylvester(k - 1, gain);
      var half := Pow(2, k - 1);
      assert Pow(2, k) == 2 * half;
      var r' := if r < half then r else r - half;
      var s' := if s < half then s else s - half;
      SylvesterRow(k, gain, r);
      SylvesterRow(k, gain, s);
      SylvesterDots(k - 1, gain, r', s');
      BlockRowsDot(prev[r'], prev[s'], r >= half, s >= half, Sylvester(k, gain)[r], Sylvester(k, gain)[s]);
      if r != s && (r >= half) == (s >= half) {
        assert r' != s';
      }
    }
  }

  lemma {:induction false} DoubleScaled(g: real, h: nat)
    ensures g * ((2 * h) as real) == 2.0 * (g * (h as real))
  {
  }

  /** A row of the doubled matrix is `a + a` (top half) or `a + -a` (bottom half). Two such
      rows have twice the dot product of their halves when they come from the same half of
      the matrix, and are orthogonal otherwise. */
  lemma {:induction false} BlockRowsDot(a: seq<real>, b: seq<real>, bottomA: bool, bottomB: bool, rowA: seq<real>, rowB: seq<real>)
    requires |a| == |b|
    requires rowA == a + (if bottomA then Negated(a) else a)
    requires rowB == b + (if bottomB then Negated(b) else b)
    ensures |rowA| == |rowB|
    ensures Dot(rowA, rowB) == if bottomA == bottomB then 2.0 * Dot(a, b) else 0.0
  {
    if !bottomA && !bottomB {
      DotAppend(a, a, b, b);
    } else if !bottomA {
      DotAppend(a, a, b, Negated(b));
      DotNegatedRight(a, b);
    } else if !bottomB {
      DotAppend(a, Negated(a), b, b);
      DotNegatedRight(b, a);
      DotSymmetric(Negated(a), b);
      DotSymmetric(a, b);
    } else {
      DotAppend(a, Negated(a), b, Negated(b));
      DotNegatedBoth(a, b);
    }
  }

  lemma {:induction false} DotSymmetric(a: seq<real>, b: seq<real>)
    requires |a| == |b|
    ensures Dot(a, b) == Dot(b, a)
  {
    if |a| > 0 {
      DotSymmetric(a[1..], b[1..]);
    }
  }

  /** Every entry of the Sylvester matrix is `gain` or `-gain`, and the top-left one is `gain`. */
  lemma {:induction false} SylvesterEntries(k: nat, gain: real, r: nat, c: nat)
    requires r < Pow(2, k) && c < Pow(2, k)
    ensures Sylvester(k, gain)[r][c] == gain || Sylvester(k, gain)[r][c] == -gain
    ensures r == 0 && c == 0 ==> Sylvester(k, gain)[r][c] == gain
  {
    if k > 0 {
      var prev := Sylvester(k - 1, gain);
      var half := Pow(2, k - 1);
      assert Pow(2, k) == 2 * half;
      assert Sylvester(k, gain)[r][c] == Quad(prev, half, r, c);
      SylvesterEntries(k - 1, gain, if r < half then r else r - half, if c < half then c else c - half);
    }
  }

  /** The matrix `NewHadamarMatrix` builds for a size of two or more (all zeros) is not the
      Sylvester matrix: its rows have squared norm 0 instead of `gain^2 * 2^k`. */
  lemma {:induction false} AsWrittenIsNotSylvester(k: nat, gain: real)
    requires k >= 1 && gain != 0.0
    ensures Grid(Pow(2, k), Pow(2, k), 0.0) != Sylvester(k, gain)
    ensures Dot(Grid(Pow(2, k), Pow(2, k), 0.0)[0], Grid(Pow(2, k), Pow(2, k), 0.0)[0]) == 0.0
  {
    PowPositive(2, k);
    SylvesterEntries(k, gain, 0, 0);
    ZeroDot(Grid(Pow(2, k), Pow(2, k), 0.0)[0]);
  }

  lemma {:induction false} ZeroDot(a: seq<real>)
    requires forall i :: 0 <= i < |a| ==> a[i] == 0.0
    ensures Dot(a, a) == 0.0
  {
    if |a| > 0 {
      ZeroDot(a[1..]);
    }
  }
}
