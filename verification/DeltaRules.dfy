/** The gated delta rule (app/architectures/qwen35_delta_kernels.py) for one head, over the reals: the
    token-by-token recurrence, the chunked form with its triangular solve, and why they agree. */
module DeltaRules {
  import opened Vectors

  /** What one token brings to a head, its value aside. */
  datatype Token = Token(q: Vec, k: Vec, g: real, beta: real)

  /** All the proofs ask of the exponential. */
  ghost predicate Exponential(exp: real -> real) {
    exp(0.0) == 1.0 && forall a, b :: AddsUp(exp, a, b)
  }

  predicate AddsUp(exp: real -> real, a: real, b: real) {
    exp(a + b) == Times(exp(a), exp(b))
  }

  predicate Fits(toks: seq<Token>, dk: nat) {
    forall t :: 0 <= t < |toks| ==> |toks[t].q| == dk && |toks[t].k| == dk
  }

  // token by token, for one column of the state

  function Delta(exp: real -> real, tok: Token, v: real, s: Vec): real
    requires |tok.k| == |s|
  {
    Times(v - Dot(Scale(exp(tok.g), s), tok.k), tok.beta)
  }

  function Stepped(exp: real -> real, tok: Token, v: real, s: Vec): (s': Vec)
    requires |tok.k| == |s|
    ensures |s'| == |s|
  {
    Add(Scale(exp(tok.g), s), Scale(Delta(exp, tok, v, s), tok.k))
  }

  /** The column after the first `n` tokens. */
  function After(exp: real -> real, toks: seq<Token>, vs: Vec, s: Vec, n: nat): (s': Vec)
    requires Fits(toks, |s|) && |vs| == |toks| && n <= |toks|
    ensures |s'| == |s|
  {
    if n == 0 then s else Stepped(exp, toks[n - 1], vs[n - 1], After(exp, toks, vs, s, n - 1))
  }

  function Output(exp: real -> real, toks: seq<Token>, vs: Vec, s: Vec, t: nat): real
    requires Fits(toks, |s|) && |vs| == |toks| && t < |toks|
  {
    Dot(After(exp, toks, vs, s, t + 1), toks[t].q)
  }

  /** `after` is what was answered `before`, faded by `f`, and, as far as the query lies along the key, the part
      of the value `v` the faded column did not predict. */
  ghost predicate ReadsOn(after: real, f: real, before: real, v: real, predicted: real, beta: real, along: real) {
    after == f * before + (v - f * predicted) * beta * along
  }

  /** What the column answers to any query after one more token. */
  lemma TokenCorrects(exp: real -> real, toks: seq<Token>, vs: Vec, s: Vec, t: nat, x: Vec)
    requires Fits(toks, |s|) && |vs| == |toks| && t < |toks| && |x| == |s|
    ensures var tok, before, after := toks[t], After(exp, toks, vs, s, t), After(exp, toks, vs, s, t + 1);
            ReadsOn(Dot(after, x), exp(tok.g), Dot(before, x), vs[t], Dot(before, tok.k), tok.beta, Dot(tok.k, x))
  {
    hide Dot, After, Stepped, Delta, Add, Scale, Times, ReadsOn;
    var tok, before := toks[t], After(exp, toks, vs, s, t);
    var f, d := exp(tok.g), Delta(exp, tok, vs[t], before);
    OneTokenOn(exp, toks, vs, s, t);
    DeltaIs(exp, tok, vs[t], before);
    DotAdd(Scale(f, before), Scale(d, tok.k), x);
    DotScale(f, before, x);
    DotScale(d, tok.k, x);
    DotScale(f, before, tok.k);
    InNumbers(Dot(After(exp, toks, vs, s, t + 1), x), f, Dot(before, x), vs[t], Dot(before, tok.k), tok.beta, Dot(tok.k, x));
  }

  lemma InNumbers(after: real, f: real, before: real, v: real, predicted: real, beta: real, along: real)
    requires after == Times(f, before) + Times(Times(v - Times(f, predicted), beta), along)
    ensures ReadsOn(after, f, before, v, predicted, beta, along)
  {
  }

  lemma DeltaIs(exp: real -> real, tok: Token, v: real, s: Vec)
    requires |tok.k| == |s|
    ensures Delta(exp, tok, v, s) == Times(v - Dot(Scale(exp(tok.g), s), tok.k), tok.beta)
  {
  }

  /** Written and read back: a token of full strength with a key of length one leaves its very value for its
      key. */
  lemma ValueIsReadBack(exp: real -> real, toks: seq<Token>, vs: Vec, s: Vec, t: nat)
    requires Fits(toks, |s|) && |vs| == |toks| && t < |toks|
    requires Dot(toks[t].k, toks[t].k) == 1.0 && toks[t].beta == 1.0
    ensures Dot(After(exp, toks, vs, s, t + 1), toks[t].k) == vs[t]
    ensures toks[t].q == toks[t].k ==> Output(exp, toks, vs, s, t) == vs[t]
  {
    hide Dot, After, Output, ReadsOn;
    var key, before := toks[t].k, After(exp, toks, vs, s, t);
    TokenCorrects(exp, toks, vs, s, t, key);
    FullStrength(Dot(After(exp, toks, vs, s, t + 1), key), exp(toks[t].g), Dot(before, key), vs[t]);
    OutputReads(exp, toks, vs, s, t);
  }

  /** What the column answers to a query across a token's key only fades. */
  lemma AcrossOnlyFades(exp: real -> real, toks: seq<Token>, vs: Vec, s: Vec, t: nat, x: Vec)
    requires Fits(toks, |s|) && |vs| == |toks| && t < |toks| && |x| == |s|
    requires Dot(toks[t].k, x) == 0.0
    ensures Dot(After(exp, toks, vs, s, t + 1), x) == exp(toks[t].g) * Dot(After(exp, toks, vs, s, t), x)
  {
    hide Dot, After, ReadsOn;
    var before := After(exp, toks, vs, s, t);
    TokenCorrects(exp, toks, vs, s, t, x);
    NoStrength(Dot(After(exp, toks, vs, s, t + 1), x), exp(toks[t].g), Dot(before, x), vs[t], Dot(before, toks[t].k), toks[t].beta);
  }

  lemma FullStrength(after: real, f: real, before: real, v: real)
    requires ReadsOn(after, f, before, v, before, 1.0, 1.0)
    ensures after == v
  {
  }

  lemma NoStrength(after: real, f: real, before: real, v: real, predicted: real, beta: real)
    requires ReadsOn(after, f, before, v, predicted, beta, 0.0)
    ensures after == f * before
  {
  }

  lemma OutputReads(exp: real -> real, toks: seq<Token>, vs: Vec, s: Vec, t: nat)
    requires Fits(toks, |s|) && |vs| == |toks| && t < |toks|
    ensures Output(exp, toks, vs, s, t) == Dot(After(exp, toks, vs, s, t + 1), toks[t].q)
  {
    hide Dot, After;
  }

  /** What each of the first `n` tokens writes along its key. */
  function Wrote(exp: real -> real, toks: seq<Token>, vs: Vec, s: Vec, n: nat): (d: Vec)
    requires Fits(toks, |s|) && |vs| == |toks| && n <= |toks|
    ensures |d| == n
    ensures forall t {:trigger d[t]} :: 0 <= t < n ==> d[t] == Delta(exp, toks[t], vs[t], After(exp, toks, vs, s, t))
  {
    seq(n, t requires 0 <= t < n => Delta(exp, toks[t], vs[t], After(exp, toks, vs, s, t)))
  }

  // the recurrence unrolled

  /** The log decay up to and including token `n - 1`. */
  function Cum(toks: seq<Token>, n: nat): real
    requires n <= |toks|
  {
    if n == 0 then 0.0 else Cum(toks, n - 1) + toks[n - 1].g
  }

  function Keys(toks: seq<Token>, n: nat): (ks: seq<Vec>)
    requires n <= |toks|
    ensures |ks| == n && forall j :: 0 <= j < n ==> ks[j] == toks[j].k
  {
    seq(n, j requires 0 <= j < n => toks[j].k)
  }

  /** How much of what the first tokens wrote is left when the log decay has reached `at`. */
  function Faded(exp: real -> real, toks: seq<Token>, d: Vec, at: real): (c: Vec)
    requires |d| <= |toks|
    ensures |c| == |d| && forall j :: 0 <= j < |d| ==> c[j] == Times(exp(at - Cum(toks, j + 1)), d[j])
  {
    seq(|d|, j requires 0 <= j < |d| => Times(exp(at - Cum(toks, j + 1)), d[j]))
  }

  /** A start column faded to `at`, and every key along which something was written since. */
  function Mix(exp: real -> real, toks: seq<Token>, d: Vec, s: Vec, at: real): (m: Vec)
    requires Fits(toks, |s|) && |d| <= |toks|
    ensures |m| == |s|
  {
    Add(Scale(exp(at), s), Comb(Faded(exp, toks, d, at), Keys(toks, |d|), |s|))
  }

  lemma ExpShifts(exp: real -> real, g: real, at: real, from: real, x: real)
    requires Exponential(exp)
    ensures Times(exp(g), Times(exp(at - from), x)) == Times(exp(at + g - from), x)
  {
    hide Times;
    assert AddsUp(exp, g, at - from);
    assert g + (at - from) == at + g - from;
    TimesLaws(x, exp(g), 0.0, exp(at - from));
  }

  lemma FadedShifts(exp: real -> real, toks: seq<Token>, d: Vec, g: real, at: real)
    requires Exponential(exp) && |d| <= |toks|
    ensures Scale(exp(g), Faded(exp, toks, d, at)) == Faded(exp, toks, d, at + g)
  {
    hide *;
    forall j | 0 <= j < |d| ensures Scale(exp(g), Faded(exp, toks, d, at))[j] == Faded(exp, toks, d, at + g)[j] {
      ExpShifts(exp, g, at, Cum(toks, j + 1), d[j]);
    }
  }

  lemma StartShifts(exp: real -> real, s: Vec, rest: Vec, g: real, at: real)
    requires Exponential(exp) && |s| == |rest|
    ensures Scale(exp(g), Add(Scale(exp(at), s), rest)) == Add(Scale(exp(at + g), s), Scale(exp(g), rest))
  {
    hide *;
    forall i | 0 <= i < |s|
      ensures Scale(exp(g), Add(Scale(exp(at), s), rest))[i] == Add(Scale(exp(at + g), s), Scale(exp(g), rest))[i]
    {
      ExpShifts(exp, g, at, 0.0, s[i]);
      assert at - 0.0 == at && at + g - 0.0 == at + g;
      TimesLaws(exp(g), Times(exp(at), s[i]), 0.0, rest[i]);
    }
  }

  /** One token's decay only moves the point the earlier writes are seen from. */
  lemma MixShifts(exp: real -> real, toks: seq<Token>, d: Vec, s: Vec, g: real, at: real)
    requires Exponential(exp) && Fits(toks, |s|) && |d| <= |toks|
    ensures Scale(exp(g), Mix(exp, toks, d, s, at)) == Mix(exp, toks, d, s, at + g)
  {
    hide Faded, Keys, Comb, Scale, Add, Times, Exponential;
    FadedShifts(exp, toks, d, g, at);
    CombScale(exp(g), Faded(exp, toks, d, at), Keys(toks, |d|), |s|);
    StartShifts(exp, s, Comb(Faded(exp, toks, d, at), Keys(toks, |d|), |s|), g, at);
  }

  /** What token `n` writes is added on top, unfaded. */
  lemma MixGrows(exp: real -> real, toks: seq<Token>, d: Vec, x: real, s: Vec)
    requires Exponential(exp) && Fits(toks, |s|) && |d| < |toks|
    ensures var at := Cum(toks, |d| + 1);
            Mix(exp, toks, d + [x], s, at) == Add(Mix(exp, toks, d, s, at), Scale(x, toks[|d|].k))
  {
    hide *;
    var n, at := |d|, Cum(toks, |d| + 1);
    var c, ks, k := Faded(exp, toks, d, at), Keys(toks, |d|), toks[|d|].k;
    LastIsWhole(exp, toks, d, x);
    KeysGrow(toks, |s|, n);
    AddsOneMore(Scale(exp(at), s), c, ks, x, k);
    var more := d + [x];
    assert |more| == n + 1 && Faded(exp, toks, more, at) == c + [x] && Keys(toks, n + 1) == ks + [k];
    MixIs(exp, toks, d, s, at);
    MixIs(exp, toks, more, s, at);
  }

  lemma AddsOneMore(start: Vec, c: Vec, ks: seq<Vec>, x: real, k: Vec)
    requires |c| == |ks| && Rows(ks, |start|) && |k| == |start|
    ensures Rows(ks + [k], |start|)
    ensures Add(start, Comb(c + [x], ks + [k], |start|)) == Add(Add(start, Comb(c, ks, |start|)), Scale(x, k))
  {
    hide *;
    CombGrows(c, ks, x, k, |start|);
    AddInTurn(start, Comb(c, ks, |start|), Scale(x, k));
  }

  lemma KeysGrow(toks: seq<Token>, dk: nat, n: nat)
    requires Fits(toks, dk) && n < |toks|
    ensures Keys(toks, n + 1) == Keys(toks, n) + [toks[n].k] && Rows(Keys(toks, n), dk) && |toks[n].k| == dk
  {
  }

  lemma MixIs(exp: real -> real, toks: seq<Token>, d: Vec, s: Vec, at: real)
    requires Fits(toks, |s|) && |d| <= |toks|
    ensures Rows(Keys(toks, |d|), |s|)
    ensures Mix(exp, toks, d, s, at) == Add(Scale(exp(at), s), Comb(Faded(exp, toks, d, at), Keys(toks, |d|), |s|))
  {
    hide Add, Scale, Comb, Faded;
  }

  lemma LastIsWhole(exp: real -> real, toks: seq<Token>, d: Vec, x: real)
    requires Exponential(exp) && |d| < |toks|
    ensures var at := Cum(toks, |d| + 1);
            Faded(exp, toks, d + [x], at) == Faded(exp, toks, d, at) + [x]
  {
    var at := Cum(toks, |d| + 1);
    assert exp(0.0) == 1.0;
    hide *;
    TimesLaws(x, x, x, x);
    assert at - at == 0.0;
  }

  lemma AddInTurn(a: Vec, b: Vec, c: Vec)
    requires |a| == |b| == |c|
    ensures Add(Add(a, b), c) == Add(a, Add(b, c))
  {
    hide *;
    forall i | 0 <= i < |a| ensures Add(Add(a, b), c)[i] == Add(a, Add(b, c))[i] {
    }
  }

  /** After `n` tokens the column is the faded start plus every key along which something was written. */
  lemma {:induction false} Unrolled(exp: real -> real, toks: seq<Token>, vs: Vec, s: Vec, n: nat)
    requires Exponential(exp) && Fits(toks, |s|) && |vs| == |toks| && n <= |toks|
    ensures After(exp, toks, vs, s, n) == Mix(exp, toks, Wrote(exp, toks, vs, s, n), s, Cum(toks, n))
  {
    hide *;
    if n == 0 {
      MixOfNothing(exp, toks, s);
      NothingYet(exp, toks, vs, s);
    } else {
      Unrolled(exp, toks, vs, s, n - 1);
      var d := Wrote(exp, toks, vs, s, n - 1);
      var x := Wrote(exp, toks, vs, s, n)[n - 1];
      MixShifts(exp, toks, d, s, toks[n - 1].g, Cum(toks, n - 1));
      MixGrows(exp, toks, d, x, s);
      OneTokenOn(exp, toks, vs, s, n - 1);
      WroteGrows(exp, toks, vs, s, n - 1);
    }
  }

  lemma NothingYet(exp: real -> real, toks: seq<Token>, vs: Vec, s: Vec)
    requires Fits(toks, |s|) && |vs| == |toks|
    ensures After(exp, toks, vs, s, 0) == s && Wrote(exp, toks, vs, s, 0) == [] && Cum(toks, 0) == 0.0
  {
  }

  lemma OneTokenOn(exp: real -> real, toks: seq<Token>, vs: Vec, s: Vec, n: nat)
    requires Fits(toks, |s|) && |vs| == |toks| && n < |toks|
    ensures var was := After(exp, toks, vs, s, n);
            && After(exp, toks, vs, s, n + 1)
               == Add(Scale(exp(toks[n].g), was), Scale(Delta(exp, toks[n], vs[n], was), toks[n].k))
            && Cum(toks, n + 1) == Cum(toks, n) + toks[n].g
  {
    hide Delta, Scale, Add;
  }

  lemma WroteGrows(exp: real -> real, toks: seq<Token>, vs: Vec, s: Vec, n: nat)
    requires Fits(toks, |s|) && |vs| == |toks| && n < |toks|
    ensures Wrote(exp, toks, vs, s, n + 1)
            == Wrote(exp, toks, vs, s, n) + [Delta(exp, toks[n], vs[n], After(exp, toks, vs, s, n))]
  {
    hide After, Delta, Wrote;
  }

  lemma MixOfNothing(exp: real -> real, toks: seq<Token>, s: Vec)
    requires Exponential(exp) && Fits(toks, |s|)
    ensures Mix(exp, toks, [], s, 0.0) == s
  {
    hide Times, Scale, Add, Faded, Zero;
    forall i | 0 <= i < |s| ensures Mix(exp, toks, [], s, 0.0)[i] == s[i] {
      TimesLaws(0.0, s[i], 0.0, 0.0);
    }
  }
}
