/** The few facts about dot products and linear combinations the recurrence needs, over the reals. */
module Vectors {
  type Vec = seq<real>

  /** A product by name: most of what follows needs its laws, not its arithmetic. */
  function Times(a: real, b: real): real {
    a * b
  }

  lemma TimesLaws(c: real, a: real, d: real, b: real)
    ensures Times(c, a) + Times(Times(c, d), b) == Times(c, a + Times(d, b))
    ensures Times(c, a + b) == Times(c, a) + Times(c, b) && Times(c + d, b) == Times(c, b) + Times(d, b)
    ensures Times(a, b) == Times(b, a) && Times(c, 0.0) == 0.0 && Times(1.0, a) == a && Times(0.0, a) == 0.0 == Times(a, 0.0)
    ensures Times(Times(a, b), c) == Times(a, Times(b, c))
  {
  }

  function Zero(n: nat): (z: Vec)
    ensures |z| == n && forall i :: 0 <= i < n ==> z[i] == 0.0
  {
    seq(n, _ => 0.0)
  }

  function Add(a: Vec, b: Vec): (c: Vec)
    requires |a| == |b|
    ensures |c| == |a| && forall i :: 0 <= i < |a| ==> c[i] == a[i] + b[i]
  {
    seq(|a|, i requires 0 <= i < |a| => a[i] + b[i])
  }

  function Scale(c: real, a: Vec): (b: Vec)
    ensures |b| == |a| && forall i :: 0 <= i < |a| ==> b[i] == Times(c, a[i])
  {
    seq(|a|, i requires 0 <= i < |a| => Times(c, a[i]))
  }

  function Dot(a: Vec, b: Vec): real
    requires |a| == |b|
  {
    if |a| == 0 then 0.0
    else Dot(a[..|a| - 1], b[..|b| - 1]) + Times(a[|a| - 1], b[|b| - 1])
  }

  predicate Rows(rows: seq<Vec>, n: nat) {
    forall m :: 0 <= m < |rows| ==> |rows[m]| == n
  }

  /** The combination of `rows` with coefficients `cs`. */
  function Comb(cs: Vec, rows: seq<Vec>, n: nat): (c: Vec)
    requires |cs| == |rows| && Rows(rows, n)
    ensures |c| == n
  {
    if |cs| == 0 then Zero(n)
    else Add(Comb(cs[..|cs| - 1], rows[..|cs| - 1], n), Scale(cs[|cs| - 1], rows[|cs| - 1]))
  }

  lemma CombGrows(cs: Vec, rows: seq<Vec>, x: real, row: Vec, n: nat)
    requires |cs| == |rows| && Rows(rows, n) && |row| == n
    ensures Rows(rows + [row], n) && Comb(cs + [x], rows + [row], n) == Add(Comb(cs, rows, n), Scale(x, row))
  {
    hide Add, Scale, Times;
    assert (cs + [x])[..|cs|] == cs && (rows + [row])[..|cs|] == rows;
  }

  function Dots(rows: seq<Vec>, x: Vec): (d: Vec)
    requires Rows(rows, |x|)
    ensures |d| == |rows| && forall m :: 0 <= m < |rows| ==> d[m] == Dot(rows[m], x)
  {
    seq(|rows|, m requires 0 <= m < |rows| => Dot(rows[m], x))
  }

  lemma {:induction false} DotAdd(a: Vec, b: Vec, x: Vec)
    requires |a| == |b| == |x|
    ensures Dot(Add(a, b), x) == Dot(a, x) + Dot(b, x)
  {
    hide Times, Scale, Add, Zero, Dots;
    if |a| > 0 {
      var n := |a| - 1;
      DotAdd(a[..n], b[..n], x[..n]);
      assert Add(a, b)[..n] == Add(a[..n], b[..n]);
      TimesLaws(a[n], x[n], b[n], x[n]);
    }
  }

  lemma ScaleCut(c: real, a: Vec, n: nat)
    requires n <= |a|
    ensures Scale(c, a)[..n] == Scale(c, a[..n])
  {
    hide *;
  }

  lemma {:induction false} DotScale(c: real, a: Vec, x: Vec)
    requires |a| == |x|
    ensures Dot(Scale(c, a), x) == Times(c, Dot(a, x))
  {
    hide Times, Scale, Add, Zero, Dots;
    TimesLaws(c, c, c, c);
    if |a| > 0 {
      var n := |a| - 1;
      DotScale(c, a[..n], x[..n]);
      ScaleCut(c, a, n);
      TimesLaws(c, Dot(a[..n], x[..n]), a[n], x[n]);
    }
  }

  lemma {:induction false} DotFlips(a: Vec, b: Vec)
    requires |a| == |b|
    ensures Dot(a, b) == Dot(b, a)
  {
    hide Times, Scale, Add, Zero, Dots;
    if |a| > 0 {
      DotFlips(a[..|a| - 1], b[..|b| - 1]);
      TimesLaws(0.0, a[|a| - 1], 0.0, b[|b| - 1]);
    }
  }

  lemma {:induction false} DotZero(x: Vec)
    ensures Dot(Zero(|x|), x) == 0.0
  {
    hide Times, Scale, Add, Zero, Dots;
    if |x| > 0 {
      DotZero(x[..|x| - 1]);
      TimesLaws(0.0, x[|x| - 1], 0.0, 0.0);
      assert Zero(|x|)[..|x| - 1] == Zero(|x| - 1);
    }
  }

  /** Entries beyond `n` that are zero add nothing. */
  lemma {:induction false} DotTrims(a: Vec, x: Vec, n: nat)
    requires |a| == |x| && n <= |a| && forall j :: n <= j < |a| ==> a[j] == 0.0
    ensures Dot(a, x) == Dot(a[..n], x[..n])
    decreases |a|
  {
    hide Times, Scale, Add, Zero, Dots;
    if n < |a| {
      var l := |a| - 1;
      DotTrims(a[..l], x[..l], n);
      TimesLaws(0.0, x[l], 0.0, 0.0);
      assert a[..l][..n] == a[..n] && x[..l][..n] == x[..n];
    } else {
      assert a[..n] == a && x[..n] == x;
    }
  }

  /** A dot product with a combination is the combination of the dot products. */
  lemma {:induction false} DotComb(cs: Vec, rows: seq<Vec>, x: Vec)
    requires |cs| == |rows| && Rows(rows, |x|)
    ensures Dot(Comb(cs, rows, |x|), x) == Dot(cs, Dots(rows, x))
  {
    hide Times, Scale, Add, Zero, Dots;
    if |cs| == 0 {
      DotZero(x);
    } else {
      var n := |cs| - 1;
      DotComb(cs[..n], rows[..n], x);
      DotAdd(Comb(cs[..n], rows[..n], |x|), Scale(cs[n], rows[n]), x);
      DotScale(cs[n], rows[n], x);
      assert Dots(rows, x)[..n] == Dots(rows[..n], x);
    }
  }

  lemma {:induction false} CombScale(c: real, cs: Vec, rows: seq<Vec>, n: nat)
    requires |cs| == |rows| && Rows(rows, n)
    ensures Comb(Scale(c, cs), rows, n) == Scale(c, Comb(cs, rows, n))
  {
    hide Times, Scale, Add, Zero;
    if |cs| == 0 {
      TimesLaws(c, c, c, c);
      assert Scale(c, Zero(n)) == Zero(n);
    } else {
      var l := |cs| - 1;
      CombScale(c, cs[..l], rows[..l], n);
      ScaleCut(c, cs, l);
      ScaleSpreads(c, Comb(cs[..l], rows[..l], n), cs[l], rows[l]);
    }
  }

  lemma ScaleSpreads(c: real, a: Vec, d: real, b: Vec)
    requires |a| == |b|
    ensures Scale(c, Add(a, Scale(d, b))) == Add(Scale(c, a), Scale(Times(c, d), b))
  {
    hide *;
    forall i | 0 <= i < |a| ensures Scale(c, Add(a, Scale(d, b)))[i] == Add(Scale(c, a), Scale(Times(c, d), b))[i] {
      TimesLaws(c, a[i], d, b[i]);
    }
  }

  /** Cutting every row to its first `w` entries cuts the combination. */
  lemma {:induction false} CombCuts(cs: Vec, rows: seq<Vec>, n: nat, w: nat)
    requires |cs| == |rows| && Rows(rows, n) && w <= n
    ensures Comb(cs, Cut(rows, n, w), w) == Comb(cs, rows, n)[..w]
  {
    hide Times, Scale, Add, Zero, Dots;
    if |cs| > 0 {
      var l := |cs| - 1;
      CombCuts(cs[..l], rows[..l], n, w);
      assert Cut(rows, n, w)[..l] == Cut(rows[..l], n, w);
      AddCut(Comb(cs[..l], rows[..l], n), cs[l], rows[l], w);
    }
  }

  lemma AddCut(a: Vec, c: real, b: Vec, w: nat)
    requires |a| == |b| && w <= |a|
    ensures Add(a[..w], Scale(c, b[..w])) == Add(a, Scale(c, b))[..w]
  {
    hide *;
    forall i | 0 <= i < w ensures Add(a[..w], Scale(c, b[..w]))[i] == Add(a, Scale(c, b))[..w][i] {
    }
  }

  function Cut(rows: seq<Vec>, n: nat, w: nat): (cut: seq<Vec>)
    requires Rows(rows, n) && w <= n
    ensures Rows(cut, w) && |cut| == |rows|
  {
    seq(|rows|, m requires 0 <= m < |rows| => rows[m][..w])
  }

  lemma {:induction false} CombOfZeros(cs: Vec, rows: seq<Vec>, n: nat, j: nat)
    requires |cs| == |rows| && Rows(rows, n) && j < n && forall m :: 0 <= m < |rows| ==> rows[m][j] == 0.0
    ensures Comb(cs, rows, n)[j] == 0.0
  {
    hide Times, Scale, Add, Zero, Dots;
    if |cs| > 0 {
      CombOfZeros(cs[..|cs| - 1], rows[..|cs| - 1], n, j);
      TimesLaws(0.0, cs[|cs| - 1], 0.0, 0.0);
    }
  }

  lemma {:induction false} DotSame(a: Vec, b: Vec, c: Vec, d: Vec)
    requires |a| == |b| == |c| == |d|
    requires forall j :: 0 <= j < |a| ==> Times(a[j], b[j]) == Times(c[j], d[j])
    ensures Dot(a, b) == Dot(c, d)
  {
    hide Times;
    if |a| > 0 {
      var n := |a| - 1;
      assert Times(a[n], b[n]) == Times(c[n], d[n]);
      DotSame(a[..n], b[..n], c[..n], d[..n]);
    }
  }

  lemma DotAddRight(a: Vec, x: Vec, y: Vec)
    requires |a| == |x| == |y|
    ensures Dot(a, Add(x, y)) == Dot(a, x) + Dot(a, y)
  {
    hide *;
    DotFlips(a, Add(x, y));
    DotAdd(x, y, a);
    DotFlips(x, a);
    DotFlips(y, a);
  }

  lemma DotScaleRight(a: Vec, c: real, x: Vec)
    requires |a| == |x|
    ensures Dot(a, Scale(c, x)) == Times(c, Dot(a, x))
  {
    hide *;
    DotFlips(a, Scale(c, x));
    DotScale(c, x, a);
    DotFlips(x, a);
  }

  /** Adding one at `i` adds that entry of the other side. */
  lemma {:induction false} DotBump(a: Vec, x: Vec, i: nat)
    requires |a| == |x| && i < |a|
    ensures Dot(a[i := a[i] + 1.0], x) == Dot(a, x) + x[i]
  {
    hide Times;
    var n := |a| - 1;
    var b := a[i := a[i] + 1.0];
    if i < n {
      DotBump(a[..n], x[..n], i);
      assert b[..n] == a[..n][i := a[i] + 1.0];
    } else {
      assert b[..n] == a[..n];
      TimesLaws(a[n], 0.0, 1.0, x[n]);
      TimesLaws(0.0, x[n], 0.0, 0.0);
    }
  }

  /** Every row times its own weight. */
  function Weighted(ws: Vec, rows: seq<Vec>, n: nat): (w: seq<Vec>)
    requires |ws| == |rows| && Rows(rows, n)
    ensures Rows(w, n) && |w| == |rows| && forall m :: 0 <= m < |rows| ==> w[m] == Scale(ws[m], rows[m])
  {
    seq(|rows|, m requires 0 <= m < |rows| => Scale(ws[m], rows[m]))
  }

  lemma ScaleTwice(a: real, b: real, c: real, x: Vec)
    requires Times(a, b) == c
    ensures Scale(a, Scale(b, x)) == Scale(c, x)
  {
    hide *;
    forall i | 0 <= i < |x| ensures Scale(a, Scale(b, x))[i] == Scale(c, x)[i] {
      TimesLaws(x[i], a, 0.0, b);
    }
  }

  lemma {:induction false} CombWeighted(cs: Vec, ws: Vec, all: Vec, rows: seq<Vec>, n: nat)
    requires |cs| == |ws| == |all| == |rows| && Rows(rows, n)
    requires forall m :: 0 <= m < |cs| ==> all[m] == Times(cs[m], ws[m])
    ensures Comb(cs, Weighted(ws, rows, n), n) == Comb(all, rows, n)
  {
    hide Times, Scale, Add, Weighted;
    if |cs| > 0 {
      var l := |cs| - 1;
      CombWeighted(cs[..l], ws[..l], all[..l], rows[..l], n);
      ScaleTwice(cs[l], ws[l], all[l], rows[l]);
      assert Weighted(ws, rows, n)[..l] == Weighted(ws[..l], rows[..l], n);
    }
  }
}
