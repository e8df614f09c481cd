/** One chunk of the gated delta rule (app/architectures/qwen35_delta_kernels.py:82-119): the masked
    triangle, its inverse by forward substitution, and the outputs and state read off it. */
module DeltaChunks {
  import opened Vectors
  import opened DeltaRules

  /** Row `i` of the strictly lower triangle, negated. */
  function Masked(exp: real -> real, toks: seq<Token>, dk: nat, i: nat): (row: Vec)
    requires Fits(toks, dk) && i < |toks|
    ensures |row| == |toks| && forall j :: i <= j < |toks| ==> row[j] == 0.0
  {
    seq(|toks|, j requires 0 <= j < |toks| =>
      if j < i then -Times(Dot(Scale(toks[i].beta, toks[i].k), toks[j].k), exp(Cum(toks, i + 1) - Cum(toks, j + 1)))
      else 0.0)
  }

  /** Forward substitution of one row by the rows already solved. */
  function Substituted(row: Vec, solved: seq<Vec>): (r: Vec)
    requires |solved| <= |row| && Rows(solved, |row|)
    ensures |r| == |row| && r[|solved|..] == row[|solved|..]
  {
    var i := |solved|;
    Add(row[..i], Comb(row[..i], Cut(solved, |row|, i), i)) + row[i..]
  }

  function Solved(exp: real -> real, toks: seq<Token>, dk: nat, n: nat): (rows: seq<Vec>)
    requires Fits(toks, dk) && n <= |toks|
    ensures |rows| == n && Rows(rows, |toks|)
  {
    if n == 0 then []
    else
      var rows := Solved(exp, toks, dk, n - 1);
      rows + [Substituted(Masked(exp, toks, dk, n - 1), rows)]
  }

  /** The rows with the identity added. */
  function WithEye(rows: seq<Vec>, n: nat): (inv: seq<Vec>)
    requires |rows| <= n && Rows(rows, n)
    ensures |inv| == |rows| && Rows(inv, n)
    ensures forall i :: 0 <= i < |rows| ==> inv[i] == rows[i][i := rows[i][i] + 1.0]
  {
    seq(|rows|, i requires 0 <= i < |rows| => rows[i][i := rows[i][i] + 1.0])
  }

  /** Zero from the diagonal on. */
  predicate Strict(rows: seq<Vec>, n: nat) {
    Rows(rows, n) && forall m, j :: 0 <= m < |rows| && m <= j < n ==> rows[m][j] == 0.0
  }

  lemma {:induction false} SolvedIsStrict(exp: real -> real, toks: seq<Token>, dk: nat, n: nat)
    requires Fits(toks, dk) && n <= |toks|
    ensures Strict(Solved(exp, toks, dk, n), |toks|)
    ensures forall m: nat :: m <= n ==> Solved(exp, toks, dk, n)[..m] == Solved(exp, toks, dk, m)
  {
    hide Substituted, Masked, Fits;
    if n > 0 {
      SolvedIsStrict(exp, toks, dk, n - 1);
      var row := Masked(exp, toks, dk, n - 1);
      var rows := Solved(exp, toks, dk, n - 1);
      forall j | n - 1 <= j < |toks| ensures Substituted(row, rows)[j] == 0.0 {
        assert Substituted(row, rows)[n - 1..][j - (n - 1)] == row[n - 1..][j - (n - 1)];
      }
    }
  }

  /** What the solved rows give for any right-hand side, one row in terms of the earlier ones. */
  lemma RowSolves(row: Vec, solved: seq<Vec>, x: Vec, y: Vec)
    requires |row| == |x| && |solved| < |x| && Strict(solved, |x|) && Rows(solved, |x|)
    requires forall j :: |solved| <= j < |row| ==> row[j] == 0.0
    requires |y| == |solved| && forall m :: 0 <= m < |y| ==> y[m] == Dot(solved[m], x) + x[m]
    ensures Dot(Substituted(row, solved), x) == Dot(row[..|solved|], y)
  {
    hide *;
    var i := |solved|;
    var low, r := row[..i], Substituted(row, solved);
    SubstitutedShape(row, solved);
    SolvedDots(solved, x, y);
    var cut := Cut(solved, |row|, i);
    DotTrims(r, x, i);
    DotAdd(low, Comb(low, cut, i), x[..i]);
    DotComb(low, cut, x[..i]);
    DotAddRight(low, x[..i], Dots(cut, x[..i]));
  }

  lemma SubstitutedShape(row: Vec, solved: seq<Vec>)
    requires |solved| <= |row| && Rows(solved, |row|)
    ensures var i, r := |solved|, Substituted(row, solved);
            && r[..i] == Add(row[..i], Comb(row[..i], Cut(solved, |row|, i), i))
            && forall j :: i <= j < |r| ==> r[j] == row[j]
  {
    hide Comb, Add, Cut;
    var i, r := |solved|, Substituted(row, solved);
    assert forall j :: i <= j < |r| ==> r[j] == r[i..][j - i] == row[i..][j - i];
  }

  lemma SolvedDots(solved: seq<Vec>, x: Vec, y: Vec)
    requires |solved| < |x| && Strict(solved, |x|)
    requires |y| == |solved| && forall m :: 0 <= m < |y| ==> y[m] == Dot(solved[m], x) + x[m]
    ensures Rows(solved, |x|)
    ensures var i := |solved|; Add(x[..i], Dots(Cut(solved, |x|, i), x[..i])) == y
  {
    var i := |solved|;
    var cut := Cut(solved, |x|, i);
    hide Times, Dot, Add, Dots;
    forall m | 0 <= m < i ensures Add(x[..i], Dots(cut, x[..i]))[m] == y[m] {
      DotTrims(solved[m], x, i);
      assert cut[m] == solved[m][..i];
    }
  }

  function Inverse(exp: real -> real, toks: seq<Token>, dk: nat): (inv: seq<Vec>)
    requires Fits(toks, dk)
    ensures |inv| == |toks| && Rows(inv, |toks|)
  {
    WithEye(Solved(exp, toks, dk, |toks|), |toks|)
  }

  /** The rows do invert the triangle: they solve it for every right-hand side. */
  lemma InverseSolves(exp: real -> real, toks: seq<Token>, dk: nat, x: Vec, i: nat)
    requires Fits(toks, dk) && |x| == |toks| && i < |toks|
    ensures var y := Dots(Inverse(exp, toks, dk), x);
            y[i] == x[i] + Dot(Masked(exp, toks, dk, i)[..i], y[..i])
  {
    hide *;
    var rows := Solved(exp, toks, dk, |toks|);
    var y := Dots(Inverse(exp, toks, dk), x);
    SolvedPrefix(exp, toks, dk, i);
    SolvedNext(exp, toks, dk, i);
    InverseIs(exp, toks, dk);
    EyeDots(rows, x);
    RowSolves(Masked(exp, toks, dk, i), rows[..i], x, y[..i]);
  }

  lemma SolvedPrefix(exp: real -> real, toks: seq<Token>, dk: nat, i: nat)
    requires Fits(toks, dk) && i < |toks|
    ensures var rows := Solved(exp, toks, dk, |toks|);
            rows[..i] == Solved(exp, toks, dk, i) && Strict(rows[..i], |toks|) && Rows(rows[..i], |toks|)
  {
    SolvedIsStrict(exp, toks, dk, |toks|);
    SolvedIsStrict(exp, toks, dk, i);
    hide Solved;
  }

  lemma EyeDots(rows: seq<Vec>, x: Vec)
    requires |rows| == |x| && Rows(rows, |x|)
    ensures forall m :: 0 <= m < |x| ==> Dots(WithEye(rows, |x|), x)[m] == Dot(rows[m], x) + x[m]
  {
    hide Times, Dot, Dots, WithEye;
    forall m | 0 <= m < |x| ensures Dots(WithEye(rows, |x|), x)[m] == Dot(rows[m], x) + x[m] {
      DotBump(rows[m], x, m);
    }
  }

  lemma InverseIs(exp: real -> real, toks: seq<Token>, dk: nat)
    requires Fits(toks, dk)
    ensures Inverse(exp, toks, dk) == WithEye(Solved(exp, toks, dk, |toks|), |toks|)
  {
  }

  lemma SolvedNext(exp: real -> real, toks: seq<Token>, dk: nat, i: nat)
    requires Fits(toks, dk) && i < |toks|
    ensures Solved(exp, toks, dk, |toks|)[i] == Substituted(Masked(exp, toks, dk, i), Solved(exp, toks, dk, i))
  {
    SolvedIsStrict(exp, toks, dk, |toks|);
    hide Substituted, Masked;
    assert Solved(exp, toks, dk, |toks|)[..i + 1][i] == Solved(exp, toks, dk, i + 1)[i];
  }

  // what the recurrence writes solves the same triangle

  lemma DotMix(exp: real -> real, toks: seq<Token>, d: Vec, s: Vec, at: real, x: Vec)
    requires Fits(toks, |s|) && |d| <= |toks| && |x| == |s|
    ensures Rows(Keys(toks, |d|), |x|)
    ensures Dot(Mix(exp, toks, d, s, at), x)
            == Times(exp(at), Dot(s, x)) + Dot(Faded(exp, toks, d, at), Dots(Keys(toks, |d|), x))
  {
    hide Times, Scale, Add, Dot, Dots, Comb, Faded, Keys;
    DotAdd(Scale(exp(at), s), Comb(Faded(exp, toks, d, at), Keys(toks, |d|), |s|), x);
    DotScale(exp(at), s, x);
    DotComb(Faded(exp, toks, d, at), Keys(toks, |d|), x);
  }

  function ValueBeta(toks: seq<Token>, vs: Vec): (vb: Vec)
    requires |vs| == |toks|
    ensures |vb| == |toks| && forall j :: 0 <= j < |toks| ==> vb[j] == Times(vs[j], toks[j].beta)
  {
    seq(|toks|, j requires 0 <= j < |toks| => Times(vs[j], toks[j].beta))
  }

  function KeyBetaDecay(exp: real -> real, toks: seq<Token>, dk: nat): (kb: seq<Vec>)
    requires Fits(toks, dk)
    ensures |kb| == |toks| && Rows(kb, dk)
    ensures forall j :: 0 <= j < |toks| ==> kb[j] == Scale(exp(Cum(toks, j + 1)), Scale(toks[j].beta, toks[j].k))
  {
    seq(|toks|, j requires 0 <= j < |toks| => Scale(exp(Cum(toks, j + 1)), Scale(toks[j].beta, toks[j].k)))
  }

  /** The right-hand side: each value, less what the start column already predicts. */
  function Asked(exp: real -> real, toks: seq<Token>, vs: Vec, s: Vec): (x: Vec)
    requires Fits(toks, |s|) && |vs| == |toks|
    ensures |x| == |toks|
  {
    Add(ValueBeta(toks, vs), Scale(-1.0, Dots(KeyBetaDecay(exp, toks, |s|), s)))
  }

  /** What token `i` writes, from what the earlier tokens of the chunk wrote. */
  lemma WroteSolves(exp: real -> real, toks: seq<Token>, vs: Vec, s: Vec, i: nat)
    requires Exponential(exp) && Fits(toks, |s|) && |vs| == |toks| && i < |toks|
    ensures var d := Wrote(exp, toks, vs, s, |toks|);
            d[i] == Asked(exp, toks, vs, s)[i] + Dot(Masked(exp, toks, |s|, i)[..i], d[..i])
  {
    hide *;
    var all, d, at, tok := Wrote(exp, toks, vs, s, |toks|), Wrote(exp, toks, vs, s, i), Cum(toks, i + 1), toks[i];
    WrotePrefix(exp, toks, vs, s, i);
    KeyFits(toks, |s|, i);
    Unrolled(exp, toks, vs, s, i);
    MixShifts(exp, toks, d, s, tok.g, Cum(toks, i));
    OneTokenOn(exp, toks, vs, s, i);
    DotMix(exp, toks, d, s, at, tok.k);
    DeltaIs(exp, tok, vs[i], After(exp, toks, vs, s, i));
    AskedIs(exp, toks, vs, s, i);
    Coupled(exp, toks, d, |s|, i);
    var p, q := Times(exp(at), Dot(s, tok.k)), Dot(Faded(exp, toks, d, at), Dots(Keys(toks, i), tok.k));
    SplitDelta(vs[i], p, q, tok.beta);
  }

  lemma SplitDelta(v: real, p: real, q: real, beta: real)
    ensures Times(v - (p + q), beta) == Times(v, beta) - Times(beta, p) + Times(-beta, q)
  {
  }

  lemma KeyFits(toks: seq<Token>, dk: nat, i: nat)
    requires Fits(toks, dk) && i < |toks|
    ensures |toks[i].k| == dk && |toks[i].q| == dk
  {
  }

  lemma DeltaIs(exp: real -> real, tok: Token, v: real, s: Vec)
    requires |tok.k| == |s|
    ensures Delta(exp, tok, v, s) == Times(v - Dot(Scale(exp(tok.g), s), tok.k), tok.beta)
  {
  }

  lemma WrotePrefix(exp: real -> real, toks: seq<Token>, vs: Vec, s: Vec, n: nat)
    requires Fits(toks, |s|) && |vs| == |toks| && n < |toks|
    ensures var all := Wrote(exp, toks, vs, s, |toks|);
            all[..n] == Wrote(exp, toks, vs, s, n) && |toks[n].k| == |s|
            && all[n] == Delta(exp, toks[n], vs[n], After(exp, toks, vs, s, n))
  {
    hide Wrote, Delta, After;
  }

  lemma AskedIs(exp: real -> real, toks: seq<Token>, vs: Vec, s: Vec, i: nat)
    requires Fits(toks, |s|) && |vs| == |toks| && i < |toks|
    ensures Asked(exp, toks, vs, s)[i]
            == Times(vs[i], toks[i].beta) - Times(toks[i].beta, Times(exp(Cum(toks, i + 1)), Dot(s, toks[i].k)))
  {
    var e, b, k := exp(Cum(toks, i + 1)), toks[i].beta, toks[i].k;
    hide Times, Scale, Add, Dot, Dots, ValueBeta, KeyBetaDecay, Cum;
    DotScale(e, Scale(b, k), s);
    DotScale(b, k, s);
    DotFlips(k, s);
    TimesLaws(Dot(s, k), e, 0.0, b);
    TimesLaws(Dot(s, k), b, 0.0, e);
    MinusOne(Times(e, Times(b, Dot(s, k))));
  }

  lemma MinusOne(x: real)
    ensures Times(-1.0, x) == -x
  {
  }

  /** The masked row weighs the earlier writes as the recurrence does. */
  lemma Coupled(exp: real -> real, toks: seq<Token>, d: Vec, dk: nat, i: nat)
    requires Fits(toks, dk) && |d| == i < |toks|
    requires |toks[i].k| == dk && Rows(Keys(toks, i), dk)
    ensures Times(-toks[i].beta, Dot(Faded(exp, toks, d, Cum(toks, i + 1)), Dots(Keys(toks, i), toks[i].k)))
            == Dot(Masked(exp, toks, dk, i)[..i], d)
  {
    hide *;
    var b, k := toks[i].beta, toks[i].k;
    var f, kk, row := Faded(exp, toks, d, Cum(toks, i + 1)), Dots(Keys(toks, i), k), Masked(exp, toks, dk, i)[..i];
    DotScale(-b, f, kk);
    forall j | 0 <= j < i ensures Times(Scale(-b, f)[j], kk[j]) == Times(row[j], d[j]) {
      MaskedAt(exp, toks, dk, i, j);
      Regroup(b, exp(Cum(toks, i + 1) - Cum(toks, j + 1)), d[j], Dot(toks[j].k, k));
    }
    DotSame(Scale(-b, f), kk, row, d);
  }

  lemma MaskedAt(exp: real -> real, toks: seq<Token>, dk: nat, i: nat, j: nat)
    requires Fits(toks, dk) && j < i < |toks|
    ensures |toks[i].k| == |toks[j].k| == dk
    ensures Masked(exp, toks, dk, i)[j]
            == -Times(Times(toks[i].beta, Dot(toks[j].k, toks[i].k)), exp(Cum(toks, i + 1) - Cum(toks, j + 1)))
  {
    hide Times, Scale, Dot, Cum;
    DotScale(toks[i].beta, toks[i].k, toks[j].k);
    DotFlips(toks[i].k, toks[j].k);
  }

  lemma Regroup(b: real, e: real, d: real, k: real)
    ensures Times(Times(-b, Times(e, d)), k) == Times(-Times(Times(b, k), e), d)
  {
  }

  // what the chunked form computes from the inverse

  /** The corrected value of each token, less what the start column adds through the decayed keys. */
  function Corrected(exp: real -> real, inv: seq<Vec>, toks: seq<Token>, vs: Vec, s: Vec): (d: Vec)
    requires Fits(toks, |s|) && |vs| == |toks| == |inv| && Rows(inv, |toks|)
    ensures |d| == |toks|
  {
    seq(|toks|, i requires 0 <= i < |toks| =>
      Dot(inv[i], ValueBeta(toks, vs)) - Dot(Comb(inv[i], KeyBetaDecay(exp, toks, |s|), |s|), s))
  }

  function VNew(exp: real -> real, toks: seq<Token>, vs: Vec, s: Vec): (d: Vec)
    requires Fits(toks, |s|) && |vs| == |toks|
    ensures |d| == |toks|
  {
    Corrected(exp, Inverse(exp, toks, |s|), toks, vs, s)
  }

  /** How query `i` sees the writes of its chunk, up to its own. */
  function Local(exp: real -> real, toks: seq<Token>, dk: nat, i: nat): (row: Vec)
    requires Fits(toks, dk) && i < |toks|
    ensures |row| == |toks| && forall j :: i < j < |toks| ==> row[j] == 0.0
  {
    seq(|toks|, j requires 0 <= j < |toks| =>
      if j <= i then Times(Dot(toks[i].q, toks[j].k), exp(Cum(toks, i + 1) - Cum(toks, j + 1))) else 0.0)
  }

  function ChunkOutput(exp: real -> real, toks: seq<Token>, d: Vec, s: Vec, i: nat): real
    requires Fits(toks, |s|) && |d| == |toks| && i < |toks|
  {
    Dot(Scale(exp(Cum(toks, i + 1)), toks[i].q), s) + Dot(Local(exp, toks, |s|, i), d)
  }

  function LeftOver(exp: real -> real, toks: seq<Token>): (w: Vec)
    ensures |w| == |toks| && forall j :: 0 <= j < |toks| ==> w[j] == exp(Cum(toks, |toks|) - Cum(toks, j + 1))
  {
    seq(|toks|, j requires 0 <= j < |toks| => exp(Cum(toks, |toks|) - Cum(toks, j + 1)))
  }

  function ChunkState(exp: real -> real, toks: seq<Token>, d: Vec, s: Vec): (s': Vec)
    requires Fits(toks, |s|) && |d| == |toks|
    ensures |s'| == |s|
  {
    Add(Scale(exp(Cum(toks, |toks|)), s), Comb(d, Weighted(LeftOver(exp, toks), Keys(toks, |toks|), |s|), |s|))
  }

  /** The inverse applied to the right-hand side is what the chunk computes. */
  lemma VNewSolves(exp: real -> real, toks: seq<Token>, vs: Vec, s: Vec)
    requires Fits(toks, |s|) && |vs| == |toks|
    ensures VNew(exp, toks, vs, s) == Dots(Inverse(exp, toks, |s|), Asked(exp, toks, vs, s))
  {
    var inv, vb, kb := Inverse(exp, toks, |s|), ValueBeta(toks, vs), KeyBetaDecay(exp, toks, |s|);
    var minus := Scale(-1.0, Dots(kb, s));
    hide Times, Scale, Add, Dot, Dots, Comb, Inverse, ValueBeta, KeyBetaDecay, Fits;
    forall i | 0 <= i < |toks| ensures VNew(exp, toks, vs, s)[i] == Dots(inv, Add(vb, minus))[i] {
      DotAddRight(inv[i], vb, minus);
      DotScaleRight(inv[i], -1.0, Dots(kb, s));
      DotComb(inv[i], kb, s);
      MinusOne(Dot(inv[i], Dots(kb, s)));
    }
  }

  /** Forward substitution has one answer, and it is what the recurrence writes. */
  lemma {:induction false} SolvesToWrote(exp: real -> real, toks: seq<Token>, vs: Vec, s: Vec, n: nat)
    requires Exponential(exp) && Fits(toks, |s|) && |vs| == |toks| && n <= |toks|
    ensures VNew(exp, toks, vs, s)[..n] == Wrote(exp, toks, vs, s, |toks|)[..n]
  {
    hide *;
    if n > 0 {
      var i, y, d := n - 1, VNew(exp, toks, vs, s), Wrote(exp, toks, vs, s, |toks|);
      SolvesToWrote(exp, toks, vs, s, i);
      VNewSolves(exp, toks, vs, s);
      InverseSolves(exp, toks, |s|, Asked(exp, toks, vs, s), i);
      WroteSolves(exp, toks, vs, s, i);
      assert y[i] == d[i];
      assert y[..n] == y[..i] + [y[i]] && d[..n] == d[..i] + [d[i]];
    }
  }

  lemma LocalSees(exp: real -> real, toks: seq<Token>, d: Vec, dk: nat, i: nat)
    requires Fits(toks, dk) && |d| == |toks| && i < |toks|
    ensures |toks[i].q| == dk && Rows(Keys(toks, i + 1), dk)
    ensures Dot(Local(exp, toks, dk, i), d)
            == Dot(Faded(exp, toks, d[..i + 1], Cum(toks, i + 1)), Dots(Keys(toks, i + 1), toks[i].q))
  {
    hide *;
    KeysFit(toks, dk, i);
    var row, f, kq := Local(exp, toks, dk, i), Faded(exp, toks, d[..i + 1], Cum(toks, i + 1)), Dots(Keys(toks, i + 1), toks[i].q);
    LocalAt(exp, toks, dk, i);
    DotTrims(row, d, i + 1);
    forall j | 0 <= j < i + 1 ensures Times(row[..i + 1][j], d[..i + 1][j]) == Times(f[j], kq[j]) {
      var e, k := exp(Cum(toks, i + 1) - Cum(toks, j + 1)), Dot(toks[j].k, toks[i].q);
      TimesLaws(d[j], k, 0.0, e);
      TimesLaws(0.0, k, 0.0, Times(e, d[j]));
    }
    DotSame(row[..i + 1], d[..i + 1], f, kq);
  }

  lemma KeysFit(toks: seq<Token>, dk: nat, i: nat)
    requires Fits(toks, dk) && i < |toks|
    ensures |toks[i].q| == dk && Rows(Keys(toks, i + 1), dk)
  {
  }

  lemma LocalAt(exp: real -> real, toks: seq<Token>, dk: nat, i: nat)
    requires Fits(toks, dk) && i < |toks|
    ensures forall j :: 0 <= j <= i ==>
              && |toks[j].k| == |toks[i].q|
              && Local(exp, toks, dk, i)[j] == Times(Dot(toks[j].k, toks[i].q), exp(Cum(toks, i + 1) - Cum(toks, j + 1)))
  {
    hide Times, Dot, Cum;
    forall j | 0 <= j <= i
      ensures Local(exp, toks, dk, i)[j] == Times(Dot(toks[j].k, toks[i].q), exp(Cum(toks, i + 1) - Cum(toks, j + 1)))
    {
      DotFlips(toks[i].q, toks[j].k);
    }
  }

  /** One chunk does to a column what its tokens do one after the other: the same writes, the same
      output for every token, the same column at the end. */
  lemma ChunkIsSequential(exp: real -> real, toks: seq<Token>, vs: Vec, s: Vec)
    requires Exponential(exp) && Fits(toks, |s|) && |vs| == |toks|
    ensures VNew(exp, toks, vs, s) == Wrote(exp, toks, vs, s, |toks|)
    ensures ChunkState(exp, toks, VNew(exp, toks, vs, s), s) == After(exp, toks, vs, s, |toks|)
    ensures forall i :: 0 <= i < |toks| ==>
              ChunkOutput(exp, toks, VNew(exp, toks, vs, s), s, i) == Output(exp, toks, vs, s, i)
  {
    hide *;
    var d := VNew(exp, toks, vs, s);
    SolvesToWrote(exp, toks, vs, s, |toks|);
    assert d[..|toks|] == d && Wrote(exp, toks, vs, s, |toks|)[..|toks|] == Wrote(exp, toks, vs, s, |toks|);
    ChunkStateIsAfter(exp, toks, vs, s);
    forall i | 0 <= i < |toks| ensures ChunkOutput(exp, toks, d, s, i) == Output(exp, toks, vs, s, i) {
      ChunkOutputIs(exp, toks, vs, s, i);
    }
  }

  lemma ChunkStateIsAfter(exp: real -> real, toks: seq<Token>, vs: Vec, s: Vec)
    requires Exponential(exp) && Fits(toks, |s|) && |vs| == |toks|
    ensures ChunkState(exp, toks, Wrote(exp, toks, vs, s, |toks|), s) == After(exp, toks, vs, s, |toks|)
  {
    hide *;
    Unrolled(exp, toks, vs, s, |toks|);
    ChunkStateIsMix(exp, toks, Wrote(exp, toks, vs, s, |toks|), s);
  }

  lemma ChunkStateIsMix(exp: real -> real, toks: seq<Token>, d: Vec, s: Vec)
    requires Fits(toks, |s|) && |d| == |toks|
    ensures ChunkState(exp, toks, d, s) == Mix(exp, toks, d, s, Cum(toks, |toks|))
  {
    var ks, w, f := Keys(toks, |toks|), LeftOver(exp, toks), Faded(exp, toks, d, Cum(toks, |toks|));
    hide Times, Scale, Add, Comb, Faded, Cum, Keys, LeftOver, Weighted;
    forall j | 0 <= j < |toks| ensures f[j] == Times(d[j], w[j]) {
      TimesLaws(0.0, d[j], 0.0, w[j]);
    }
    CombWeighted(d, w, f, ks, |s|);
  }

  lemma ChunkOutputIs(exp: real -> real, toks: seq<Token>, vs: Vec, s: Vec, i: nat)
    requires Exponential(exp) && Fits(toks, |s|) && |vs| == |toks| && i < |toks|
    ensures ChunkOutput(exp, toks, Wrote(exp, toks, vs, s, |toks|), s, i) == Output(exp, toks, vs, s, i)
  {
    hide *;
    OutputIs(exp, toks, vs, s, i);
    var all := Wrote(exp, toks, vs, s, |toks|);
    Unrolled(exp, toks, vs, s, i + 1);
    WroteStarts(exp, toks, vs, s, i + 1);
    ChunkOutputIsMix(exp, toks, all, s, i);
  }

  lemma OutputIs(exp: real -> real, toks: seq<Token>, vs: Vec, s: Vec, i: nat)
    requires Fits(toks, |s|) && |vs| == |toks| && i < |toks|
    ensures |toks[i].q| == |s| && Output(exp, toks, vs, s, i) == Dot(After(exp, toks, vs, s, i + 1), toks[i].q)
  {
    hide Dot, After;
  }

  lemma WroteStarts(exp: real -> real, toks: seq<Token>, vs: Vec, s: Vec, n: nat)
    requires Fits(toks, |s|) && |vs| == |toks| && n <= |toks|
    ensures Wrote(exp, toks, vs, s, |toks|)[..n] == Wrote(exp, toks, vs, s, n)
  {
    hide Wrote, Delta, After;
  }

  lemma ChunkOutputIsMix(exp: real -> real, toks: seq<Token>, d: Vec, s: Vec, i: nat)
    requires Fits(toks, |s|) && |d| == |toks| && i < |toks|
    ensures |toks[i].q| == |s|
    ensures ChunkOutput(exp, toks, d, s, i) == Dot(Mix(exp, toks, d[..i + 1], s, Cum(toks, i + 1)), toks[i].q)
  {
    var q, at := toks[i].q, Cum(toks, i + 1);
    hide Times, Scale, Add, Dot, Dots, Faded, Cum, Mix, Local, Keys;
    LocalSees(exp, toks, d, |s|, i);
    DotMix(exp, toks, d[..i + 1], s, at, q);
    DotScale(exp(at), q, s);
    DotFlips(q, s);
  }
}
