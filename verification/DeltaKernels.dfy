/** The two kernels for one head (app/architectures/qwen35_delta_kernels.py:43-123), tokens by
    channels: the token loop, and the chunked form over padded tokens. Both are proved against the
    same recurrence, column by column of the state. */
module DeltaKernels {
  import opened Vectors
  import opened DeltaRules
  import opened DeltaChunks

  /** Channel `i` of every token's value. */
  function Column(v: seq<Vec>, dv: nat, i: nat): (c: Vec)
    requires Rows(v, dv) && i < dv
    ensures |c| == |v| && forall t :: 0 <= t < |v| ==> c[t] == v[t][i]
  {
    seq(|v|, t requires 0 <= t < |v| => v[t][i])
  }

  /** A head's inputs: tokens and values of one length, and a state of `dv` columns of `dk`. */
  predicate Shaped(toks: seq<Token>, v: seq<Vec>, state: seq<Vec>, dk: nat, dv: nat) {
    Fits(toks, dk) && |v| == |toks| && Rows(v, dv) && |state| == dv && Rows(state, dk)
  }

  /** The state after `n` tokens, one column per channel. */
  ghost predicate StateAt(exp: real -> real, toks: seq<Token>, v: seq<Vec>, state: seq<Vec>, dk: nat, dv: nat,
                          n: nat, s: seq<Vec>)
    requires Shaped(toks, v, state, dk, dv) && n <= |toks|
  {
    |s| == dv && Rows(s, dk)
    && forall i :: 0 <= i < dv ==> s[i] == After(exp, toks, Column(v, dv, i), state[i], n)
  }

  /** The output row of token `t`. */
  ghost predicate OutputAt(exp: real -> real, toks: seq<Token>, v: seq<Vec>, state: seq<Vec>, dk: nat, dv: nat,
                           t: nat, row: Vec)
    requires Shaped(toks, v, state, dk, dv) && t < |toks|
  {
    |row| == dv && forall i :: 0 <= i < dv ==> row[i] == Output(exp, toks, Column(v, dv, i), state[i], t)
  }

  /** One token, all channels at once. */
  method Step(exp: real -> real, tok: Token, vs: Vec, s: seq<Vec>, dk: nat) returns (s': seq<Vec>, row: Vec)
    requires |tok.k| == dk == |tok.q| && |vs| == |s| && Rows(s, dk)
    ensures |s'| == |row| == |s| && Rows(s', dk)
    ensures forall i :: 0 <= i < |s| ==> s'[i] == Stepped(exp, tok, vs[i], s[i]) && row[i] == Dot(s'[i], tok.q)
  {
    hide Times, Dot, Scale, Add, Stepped;
    var decayed := seq(|s|, i requires 0 <= i < |s| => Scale(exp(tok.g), s[i]));
    var predicted := seq(|s|, i requires 0 <= i < |s| => Dot(decayed[i], tok.k));
    var delta := seq(|s|, i requires 0 <= i < |s| => Times(vs[i] - predicted[i], tok.beta));
    s' := seq(|s|, i requires 0 <= i < |s| => Add(decayed[i], Scale(delta[i], tok.k)));
    row := seq(|s|, i requires 0 <= i < |s| => Dot(s'[i], tok.q));
    forall i | 0 <= i < |s| ensures s'[i] == Stepped(exp, tok, vs[i], s[i]) {
      SteppedIs(exp, tok, vs[i], s[i]);
    }
  }

  lemma SteppedIs(exp: real -> real, tok: Token, v: real, s: Vec)
    requires |tok.k| == |s|
    ensures var decayed := Scale(exp(tok.g), s);
            Stepped(exp, tok, v, s) == Add(decayed, Scale(Times(v - Dot(decayed, tok.k), tok.beta), tok.k))
  {
  }

  lemma StateSteps(exp: real -> real, toks: seq<Token>, v: seq<Vec>, state: seq<Vec>, dk: nat, dv: nat,
                   t: nat, s: seq<Vec>, s': seq<Vec>, row: Vec)
    requires Shaped(toks, v, state, dk, dv) && t < |toks| && StateAt(exp, toks, v, state, dk, dv, t, s)
    requires |s'| == |row| == dv && Rows(s', dk)
    requires forall i :: 0 <= i < dv ==> s'[i] == Stepped(exp, toks[t], v[t][i], s[i]) && row[i] == Dot(s'[i], toks[t].q)
    ensures StateAt(exp, toks, v, state, dk, dv, t + 1, s') && OutputAt(exp, toks, v, state, dk, dv, t, row)
  {
    hide Stepped, Dot;
  }

  lemma Shapes(toks: seq<Token>, v: seq<Vec>, state: seq<Vec>, dk: nat, dv: nat, t: nat)
    requires Shaped(toks, v, state, dk, dv) && t < |toks|
    ensures |v| == |toks| && |v[t]| == dv == |state| && |toks[t].k| == |toks[t].q| == dk
  {
  }

  /** Token by token. */
  method Reference(exp: real -> real, toks: seq<Token>, v: seq<Vec>, state: seq<Vec>, dk: nat, dv: nat)
    returns (outputs: seq<Vec>, after: seq<Vec>)
    requires Shaped(toks, v, state, dk, dv)
    ensures |outputs| == |toks| && StateAt(exp, toks, v, state, dk, dv, |toks|, after)
    ensures forall t :: 0 <= t < |toks| ==> OutputAt(exp, toks, v, state, dk, dv, t, outputs[t])
  {
    hide *;
    var out := new Vec[|toks|];
    after := state;
    NothingRead(exp, toks, v, state, dk, dv);
    for t := 0 to |toks|
      invariant StateAt(exp, toks, v, state, dk, dv, t, after)
      invariant forall u :: 0 <= u < t ==> OutputAt(exp, toks, v, state, dk, dv, u, out[u])
    {
      Shapes(toks, v, state, dk, dv, t);
      StateShape(exp, toks, v, state, dk, dv, t, after);
      var next, row := Step(exp, toks[t], v[t], after, dk);
      StateSteps(exp, toks, v, state, dk, dv, t, after, next, row);
      after, out[t] := next, row;
    }
    outputs := out[..];
  }

  lemma NothingRead(exp: real -> real, toks: seq<Token>, v: seq<Vec>, state: seq<Vec>, dk: nat, dv: nat)
    requires Shaped(toks, v, state, dk, dv)
    ensures StateAt(exp, toks, v, state, dk, dv, 0, state)
  {
  }

  lemma StateShape(exp: real -> real, toks: seq<Token>, v: seq<Vec>, state: seq<Vec>, dk: nat, dv: nat,
                   n: nat, s: seq<Vec>)
    requires Shaped(toks, v, state, dk, dv) && n <= |toks| && StateAt(exp, toks, v, state, dk, dv, n, s)
    ensures |s| == dv && Rows(s, dk)
  {
    hide After;
  }

  // a run in blocks, and padding

  lemma {:induction false} BlockOfRun(exp: real -> real, toks: seq<Token>, vs: Vec, s: Vec, lo: nat, hi: nat, k: nat)
    requires Fits(toks, |s|) && |vs| == |toks| && lo + k <= hi <= |toks|
    ensures Fits(toks[lo..hi], |s|)
    ensures After(exp, toks[lo..hi], vs[lo..hi], After(exp, toks, vs, s, lo), k) == After(exp, toks, vs, s, lo + k)
  {
    hide Stepped;
    if k > 0 {
      BlockOfRun(exp, toks, vs, s, lo, hi, k - 1);
    }
  }

  /** A padded token: no key, no query, no decay, nothing written. */
  function Pad(dk: nat): (tok: Token)
    ensures |tok.q| == |tok.k| == dk
  {
    Token(Zero(dk), Zero(dk), 0.0, 0.0)
  }

  function Pads(dk: nat, p: nat): (pads: seq<Token>)
    ensures |pads| == p && forall t :: 0 <= t < p ==> pads[t] == Pad(dk)
  {
    seq(p, _ => Pad(dk))
  }

  lemma PadRests(exp: real -> real, s: Vec)
    requires Exponential(exp)
    ensures Stepped(exp, Pad(|s|), 0.0, s) == s
  {
    var x := Delta(exp, Pad(|s|), 0.0, s);
    hide Delta, Times, Dot, Scale, Add, Zero;
    forall i | 0 <= i < |s| ensures Stepped(exp, Pad(|s|), 0.0, s)[i] == s[i] {
      TimesLaws(x, s[i], 0.0, 0.0);
    }
  }

  lemma {:induction false} PrefixOfRun(exp: real -> real, toks: seq<Token>, more: seq<Token>, vs: Vec, mores: Vec, s: Vec, n: nat)
    requires Fits(toks, |s|) && Fits(toks + more, |s|) && |vs| == |toks| && |mores| == |more| && n <= |toks|
    ensures After(exp, toks + more, vs + mores, s, n) == After(exp, toks, vs, s, n)
  {
    hide Stepped;
    if n > 0 {
      PrefixOfRun(exp, toks, more, vs, mores, s, n - 1);
    }
  }

  lemma PadsFit(toks: seq<Token>, dk: nat, p: nat)
    requires Fits(toks, dk)
    ensures Fits(toks + Pads(dk, p), dk)
  {
  }

  /** Padding leaves the column as the last real token left it. */
  lemma {:induction false} PaddingRests(exp: real -> real, toks: seq<Token>, vs: Vec, s: Vec, p: nat, n: nat)
    requires Exponential(exp) && Fits(toks, |s|) && |vs| == |toks| && n <= p
    requires Fits(toks + Pads(|s|, p), |s|)
    ensures After(exp, toks + Pads(|s|, p), vs + Zero(p), s, |toks| + n) == After(exp, toks, vs, s, |toks|)
  {
    hide *;
    if n == 0 {
      PrefixOfRun(exp, toks, Pads(|s|, p), vs, Zero(p), s, |toks|);
    } else {
      PaddingRests(exp, toks, vs, s, p, n - 1);
      AfterPad(exp, toks, vs, s, p, n - 1);
      PadRests(exp, After(exp, toks, vs, s, |toks|));
    }
  }

  lemma AfterPad(exp: real -> real, toks: seq<Token>, vs: Vec, s: Vec, p: nat, n: nat)
    requires Fits(toks, |s|) && |vs| == |toks| && n < p
    requires Fits(toks + Pads(|s|, p), |s|)
    ensures var all, vals := toks + Pads(|s|, p), vs + Zero(p);
            After(exp, all, vals, s, |toks| + n + 1) == Stepped(exp, Pad(|s|), 0.0, After(exp, all, vals, s, |toks| + n))
  {
    hide Stepped, Pads, Zero, Pad;
    var all, vals := toks + Pads(|s|, p), vs + Zero(p);
    assert all[|toks| + n] == Pad(|s|) && vals[|toks| + n] == 0.0;
  }

  /** Python's `(-n) % chunk`: the padding that fills the last chunk. */
  function Padding(n: int, chunk: int): (pad: nat)
    requires chunk >= 1
    ensures pad < chunk
  {
    (-n) % chunk
  }

  lemma Cover(n: int, chunk: int) returns (blocks: int)
    requires chunk >= 1 && n >= 0
    ensures blocks >= 0 && blocks * chunk == n + Padding(n, chunk)
  {
    var q := (-n) / chunk;
    assert -n == chunk * q + Padding(n, chunk);
    blocks := -q;
    assert blocks * chunk == -(chunk * q);
    assert q > 0 ==> chunk * q >= chunk;
  }

  lemma SolvedSteps(exp: real -> real, toks: seq<Token>, dk: nat, i: nat)
    requires Fits(toks, dk) && i < |toks|
    ensures Solved(exp, toks, dk, 0) == []
    ensures var solved, row := Solved(exp, toks, dk, i), Masked(exp, toks, dk, i);
            Solved(exp, toks, dk, i + 1)
            == solved + [Add(row[..i], Comb(row[..i], Cut(solved, |toks|, i), i)) + row[i..]]
  {
    hide Masked, Add, Comb, Cut;
  }

  lemma FirstRow(row: Vec)
    requires |row| > 0
    ensures Add(row[..0], Comb(row[..0], Cut([], |row|, 0), 0)) + row[0..] == row
  {
  }

  /** The inverse of a chunk's triangle, row by row in place. */
  method Invert(exp: real -> real, toks: seq<Token>, dk: nat) returns (inv: seq<Vec>)
    requires Fits(toks, dk)
    ensures inv == Inverse(exp, toks, dk)
  {
    hide Masked, Solved, Cut, Comb, Add, Fits, WithEye;
    var n := |toks|;
    var attn := new Vec[n](i requires 0 <= i < n => Masked(exp, toks, dk, i));
    if n > 0 {
      SolvedSteps(exp, toks, dk, 0);
      FirstRow(Masked(exp, toks, dk, 0));
      for i := 1 to n
        invariant attn[..i] == Solved(exp, toks, dk, i)
        invariant forall j :: i <= j < n ==> attn[j] == Masked(exp, toks, dk, j)
      {
        SolvedSteps(exp, toks, dk, i);
        var row := attn[i][..i];
        attn[i] := Add(row, Comb(row, Cut(attn[..i], n, i), i)) + attn[i][i..];
      }
      assert attn[..n] == attn[..];
    } else {
      NoRows(exp, toks, dk);
    }
    inv := WithEye(attn[..], n);
    InverseIs(exp, toks, dk);
  }

  lemma NoRows(exp: real -> real, toks: seq<Token>, dk: nat)
    requires Fits(toks, dk)
    ensures Solved(exp, toks, dk, 0) == []
  {
  }

  /** The state loop's body: one chunk, all channels. */
  method Block(exp: real -> real, inv: seq<Vec>, toks: seq<Token>, v: seq<Vec>, state: seq<Vec>, dk: nat, dv: nat)
    returns (rows: seq<Vec>, after: seq<Vec>)
    requires Exponential(exp) && Shaped(toks, v, state, dk, dv) && inv == Inverse(exp, toks, dk)
    ensures |rows| == |toks| && StateAt(exp, toks, v, state, dk, dv, |toks|, after)
    ensures forall t :: 0 <= t < |toks| ==> OutputAt(exp, toks, v, state, dk, dv, t, rows[t])
  {
    hide Inverse, Exponential, Corrected, ChunkState, ChunkOutput, After, Output, Fits, Column;
    var d := seq(dv, i requires 0 <= i < dv => Corrected(exp, inv, toks, Column(v, dv, i), state[i]));
    after := seq(dv, i requires 0 <= i < dv => ChunkState(exp, toks, d[i], state[i]));
    rows := seq(|toks|, t requires 0 <= t < |toks| =>
      seq(dv, i requires 0 <= i < dv => ChunkOutput(exp, toks, d[i], state[i], t)));
    forall i | 0 <= i < dv
      ensures after[i] == After(exp, toks, Column(v, dv, i), state[i], |toks|)
      ensures forall t :: 0 <= t < |toks| ==> rows[t][i] == Output(exp, toks, Column(v, dv, i), state[i], t)
    {
      ChunkIsSequential(exp, toks, Column(v, dv, i), state[i]);
    }
  }

  lemma ColumnCuts(v: seq<Vec>, dv: nat, i: nat, lo: nat, hi: nat)
    requires Rows(v, dv) && i < dv && lo <= hi <= |v|
    ensures Rows(v[lo..hi], dv) && Column(v[lo..hi], dv, i) == Column(v, dv, i)[lo..hi]
  {
  }

  lemma ShapedCuts(exp: real -> real, toks: seq<Token>, v: seq<Vec>, state: seq<Vec>, s: seq<Vec>, dk: nat, dv: nat, lo: nat, hi: nat)
    requires Shaped(toks, v, state, dk, dv) && lo <= hi <= |toks|
    requires StateAt(exp, toks, v, state, dk, dv, lo, s)
    ensures |v| == |toks| && Shaped(toks[lo..hi], v[lo..hi], s, dk, dv) && Fits(toks[lo..hi], dk)
  {
    hide After;
  }

  /** What a block does from where the run stands is what the run does next. */
  lemma BlockContinues(exp: real -> real, toks: seq<Token>, v: seq<Vec>, state: seq<Vec>, s: seq<Vec>, dk: nat, dv: nat,
                       lo: nat, hi: nat, rows: seq<Vec>, after: seq<Vec>)
    requires Shaped(toks, v, state, dk, dv) && lo <= hi <= |toks| == |v| && StateAt(exp, toks, v, state, dk, dv, lo, s)
    requires Shaped(toks[lo..hi], v[lo..hi], s, dk, dv) && |rows| == hi - lo
    requires StateAt(exp, toks[lo..hi], v[lo..hi], s, dk, dv, hi - lo, after)
    requires forall t :: 0 <= t < hi - lo ==> OutputAt(exp, toks[lo..hi], v[lo..hi], s, dk, dv, t, rows[t])
    ensures StateAt(exp, toks, v, state, dk, dv, hi, after)
    ensures forall t :: 0 <= t < hi - lo ==> OutputAt(exp, toks, v, state, dk, dv, lo + t, rows[t])
  {
    hide After, Column, Fits, Dot;
    forall i | 0 <= i < dv ensures after[i] == After(exp, toks, Column(v, dv, i), state[i], hi) {
      ColumnCuts(v, dv, i, lo, hi);
      BlockOfRun(exp, toks, Column(v, dv, i), state[i], lo, hi, hi - lo);
    }
    forall t | 0 <= t < hi - lo ensures OutputAt(exp, toks, v, state, dk, dv, lo + t, rows[t]) {
      assert OutputAt(exp, toks[lo..hi], v[lo..hi], s, dk, dv, t, rows[t]);
      forall i | 0 <= i < dv ensures rows[t][i] == Output(exp, toks, Column(v, dv, i), state[i], lo + t) {
        ColumnCuts(v, dv, i, lo, hi);
        BlockOfRun(exp, toks, Column(v, dv, i), state[i], lo, hi, t + 1);
      }
    }
  }

  lemma ColumnPads(v: seq<Vec>, dv: nat, i: nat, p: nat)
    requires Rows(v, dv) && i < dv
    ensures Rows(v + seq(p, _ => Zero(dv)), dv) && Column(v + seq(p, _ => Zero(dv)), dv, i) == Column(v, dv, i) + Zero(p)
  {
  }

  /** The state and the kept outputs of the padded run are those of the run itself. */
  lemma PaddingDrops(exp: real -> real, toks: seq<Token>, v: seq<Vec>, state: seq<Vec>, dk: nat, dv: nat, p: nat)
    requires Exponential(exp) && Shaped(toks, v, state, dk, dv)
    ensures var all, vals := toks + Pads(dk, p), v + seq(p, _ => Zero(dv));
            && Shaped(all, vals, state, dk, dv)
            && (forall s :: StateAt(exp, all, vals, state, dk, dv, |all|, s) ==> StateAt(exp, toks, v, state, dk, dv, |toks|, s))
            && (forall t, row :: 0 <= t < |toks| && OutputAt(exp, all, vals, state, dk, dv, t, row) ==>
                  OutputAt(exp, toks, v, state, dk, dv, t, row))
  {
    var all, vals := toks + Pads(dk, p), v + seq(p, _ => Zero(dv));
    PaddedShape(toks, v, state, dk, dv, p);
    hide After, Column, Output, Pads, Zero, Exponential, Fits;
    forall i | 0 <= i < dv
      ensures After(exp, all, Column(vals, dv, i), state[i], |all|) == After(exp, toks, Column(v, dv, i), state[i], |toks|)
      ensures forall t :: 0 <= t < |toks| ==>
                Output(exp, all, Column(vals, dv, i), state[i], t) == Output(exp, toks, Column(v, dv, i), state[i], t)
    {
      PaddedColumn(exp, toks, v, state, dk, dv, p, i);
    }
  }

  lemma PaddedShape(toks: seq<Token>, v: seq<Vec>, state: seq<Vec>, dk: nat, dv: nat, p: nat)
    requires Shaped(toks, v, state, dk, dv)
    ensures Shaped(toks + Pads(dk, p), v + seq(p, _ => Zero(dv)), state, dk, dv)
  {
    PadsFit(toks, dk, p);
  }

  lemma PaddedColumn(exp: real -> real, toks: seq<Token>, v: seq<Vec>, state: seq<Vec>, dk: nat, dv: nat, p: nat, i: nat)
    requires Exponential(exp) && Shaped(toks, v, state, dk, dv) && i < dv
    requires Shaped(toks + Pads(dk, p), v + seq(p, _ => Zero(dv)), state, dk, dv)
    ensures var all, vals := toks + Pads(dk, p), v + seq(p, _ => Zero(dv));
            && After(exp, all, Column(vals, dv, i), state[i], |all|) == After(exp, toks, Column(v, dv, i), state[i], |toks|)
            && forall t :: 0 <= t < |toks| ==>
                 Output(exp, all, Column(vals, dv, i), state[i], t) == Output(exp, toks, Column(v, dv, i), state[i], t)
  {
    hide *;
    StateFits(toks, v, state, dk, dv, p, i);
    ColumnPads(v, dv, i, p);
    PaddedRun(exp, toks, Column(v, dv, i), state[i], p);
  }

  lemma StateFits(toks: seq<Token>, v: seq<Vec>, state: seq<Vec>, dk: nat, dv: nat, p: nat, i: nat)
    requires Shaped(toks, v, state, dk, dv) && i < dv
    ensures |state| == dv && |state[i]| == dk && Fits(toks, dk) && Fits(toks + Pads(dk, p), dk) && |v| == |toks| && Rows(v, dv)
  {
    PadsFit(toks, dk, p);
  }

  lemma PaddedRun(exp: real -> real, toks: seq<Token>, vs: Vec, s: Vec, p: nat)
    requires Exponential(exp) && Fits(toks, |s|) && |vs| == |toks| && Fits(toks + Pads(|s|, p), |s|)
    ensures After(exp, toks + Pads(|s|, p), vs + Zero(p), s, |toks| + p) == After(exp, toks, vs, s, |toks|)
    ensures forall t :: 0 <= t < |toks| ==>
              Output(exp, toks + Pads(|s|, p), vs + Zero(p), s, t) == Output(exp, toks, vs, s, t)
  {
    hide *;
    PaddingRests(exp, toks, vs, s, p, p);
    PrefixOutputs(exp, toks, Pads(|s|, p), vs, Zero(p), s);
  }

  lemma PrefixOutputs(exp: real -> real, toks: seq<Token>, more: seq<Token>, vs: Vec, mores: Vec, s: Vec)
    requires Fits(toks, |s|) && Fits(toks + more, |s|) && |vs| == |toks| && |mores| == |more|
    ensures forall t :: 0 <= t < |toks| ==> Output(exp, toks + more, vs + mores, s, t) == Output(exp, toks, vs, s, t)
  {
    hide *;
    forall t | 0 <= t < |toks| ensures Output(exp, toks + more, vs + mores, s, t) == Output(exp, toks, vs, s, t) {
      PrefixOfRun(exp, toks, more, vs, mores, s, t + 1);
      OutputIs(exp, toks, vs, s, t);
      OutputIs(exp, toks + more, vs + mores, s, t);
    }
  }

  /** Chunk by chunk, with the last chunk padded: exactly what the token loop returns. */
  method Chunked(exp: real -> real, toks: seq<Token>, v: seq<Vec>, state: seq<Vec>, dk: nat, dv: nat, chunk: nat)
    returns (outputs: seq<Vec>, after: seq<Vec>)
    requires Exponential(exp) && Shaped(toks, v, state, dk, dv) && chunk >= 1
    ensures |outputs| == |toks| && StateAt(exp, toks, v, state, dk, dv, |toks|, after)
    ensures forall t :: 0 <= t < |toks| ==> OutputAt(exp, toks, v, state, dk, dv, t, outputs[t])
  {
    hide *;
    var p := Padding(|toks|, chunk);
    var all, vals := toks + Pads(dk, p), v + seq(p, _ => Zero(dv));
    PaddingDrops(exp, toks, v, state, dk, dv, p);
    NothingRead(exp, all, vals, state, dk, dv);
    ghost var blocks := Cover(|toks|, chunk);
    ghost var c := 0;
    var lo := 0;
    var out := new Vec[|all|];
    after := state;
    while lo < |all|
      invariant lo == c * chunk <= |all| == blocks * chunk
      invariant StateAt(exp, all, vals, state, dk, dv, lo, after)
      invariant forall t :: 0 <= t < lo ==> OutputAt(exp, all, vals, state, dk, dv, t, out[t])
      decreases |all| - lo
    {
      NextBlock(c, blocks, chunk);
      var hi := lo + chunk;
      ShapedCuts(exp, all, vals, state, after, dk, dv, lo, hi);
      var inv := Invert(exp, all[lo..hi], dk);
      var rows, next := Block(exp, inv, all[lo..hi], vals[lo..hi], after, dk, dv);
      BlockContinues(exp, all, vals, state, after, dk, dv, lo, hi, rows, next);
      forall t | lo <= t < hi {
        out[t] := rows[t - lo];
      }
      forall t | lo <= t < hi ensures OutputAt(exp, all, vals, state, dk, dv, t, out[t]) {
        assert OutputAt(exp, all, vals, state, dk, dv, lo + (t - lo), rows[t - lo]);
      }
      after, lo, c := next, hi, c + 1;
    }
    outputs := out[..|toks|];
  }

  lemma NextBlock(c: nat, blocks: nat, chunk: nat)
    requires c * chunk < blocks * chunk
    ensures c * chunk + chunk == (c + 1) * chunk <= blocks * chunk
  {
    if c >= blocks {
      TimesGrows(blocks, c, chunk);
    }
    TimesGrows(c + 1, blocks, chunk);
  }

  lemma TimesGrows(a: nat, b: nat, chunk: nat)
    requires a <= b
    ensures a * chunk <= b * chunk
  {
  }

  /** So for the same inputs the chunked form and the token loop return the very same rows and state. */
  lemma OneAnswer(exp: real -> real, toks: seq<Token>, v: seq<Vec>, state: seq<Vec>, dk: nat, dv: nat,
                  rows: seq<Vec>, after: seq<Vec>, rows': seq<Vec>, after': seq<Vec>)
    requires Shaped(toks, v, state, dk, dv) && |rows| == |rows'| == |toks|
    requires StateAt(exp, toks, v, state, dk, dv, |toks|, after) && StateAt(exp, toks, v, state, dk, dv, |toks|, after')
    requires forall t :: 0 <= t < |toks| ==>
               OutputAt(exp, toks, v, state, dk, dv, t, rows[t]) && OutputAt(exp, toks, v, state, dk, dv, t, rows'[t])
    ensures rows == rows' && after == after'
  {
    hide After, Output, Column, Fits;
    forall t | 0 <= t < |toks| ensures rows[t] == rows'[t] {
      assert OutputAt(exp, toks, v, state, dk, dv, t, rows[t]) && OutputAt(exp, toks, v, state, dk, dv, t, rows'[t]);
    }
  }
}
