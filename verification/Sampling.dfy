/** Drawing a token (app/native/fused_ops_numba.py:103-133) when `top_p` does not cut: penalties and
    temperature, the top-k threshold, and the inverse-CDF draw, over the reals. */
module Sampling {
  import opened Heaps

  predicate Within(ids: seq<nat>, n: nat) {
    forall j :: 0 <= j < |ids| ==> ids[j] < n
  }

  function Repelled(x: real, penalty: real): real
    requires penalty != 0.0
  {
    if x > 0.0 then x / penalty else x * penalty
  }

  /** Penalties are applied one id after the other, so a repeated id is penalised again. */
  function Penalised(work: seq<real>, ids: seq<nat>, penalty: real): (r: seq<real>)
    requires penalty != 0.0 && Within(ids, |work|)
    ensures |r| == |work|
  {
    if ids == [] then work
    else
      var before, i := Penalised(work, ids[..|ids| - 1], penalty), ids[|ids| - 1];
      before[i := Repelled(before[i], penalty)]
  }

  /** An id that is not listed keeps its score; with a penalty of at least one a listed id never scores
      above where it started, and a penalty above one lowers every listed score but zero. */
  lemma {:induction false} PenaltiesOnlyLower(work: seq<real>, ids: seq<nat>, penalty: real, i: nat)
    requires penalty != 0.0 && Within(ids, |work|) && i < |work|
    ensures i !in ids ==> Penalised(work, ids, penalty)[i] == work[i]
    ensures penalty >= 1.0 ==> Penalised(work, ids, penalty)[i] <= work[i]
    ensures penalty > 1.0 && i in ids && work[i] != 0.0 ==> Penalised(work, ids, penalty)[i] < work[i]
  {
    if ids != [] {
      var rest, last := ids[..|ids| - 1], ids[|ids| - 1];
      assert ids == rest + [last];
      PenaltiesOnlyLower(work, rest, penalty, i);
      if penalty >= 1.0 {
        RepelledIsLower(Penalised(work, rest, penalty)[i], penalty);
      }
    }
  }

  lemma RepelledIsLower(x: real, penalty: real)
    requires penalty >= 1.0
    ensures Repelled(x, penalty) <= x && (penalty > 1.0 && x != 0.0 ==> Repelled(x, penalty) < x)
    ensures (x > 0.0 ==> Repelled(x, penalty) * penalty == x) && (x <= 0.0 ==> Repelled(x, penalty) == x * penalty)
  {
    if x > 0.0 {
      var y := x / penalty;
      assert y * penalty == x && y > 0.0;
      assert y * (penalty - 1.0) >= 0.0;
    } else {
      assert (0.0 - x) * (penalty - 1.0) >= 0.0;
    }
  }

  function Scores(logits: seq<real>, ids: seq<nat>, penalty: real, temperature: real): (r: seq<real>)
    requires penalty != 0.0 && temperature != 0.0 && Within(ids, |logits|)
    ensures |r| == |logits|
  {
    var p := Penalised(logits, ids, penalty);
    seq(|p|, i requires 0 <= i < |p| => p[i] / temperature)
  }

  /** The temperature scales every score alike. */
  lemma ScoresScale(logits: seq<real>, ids: seq<nat>, penalty: real, temperature: real, i: nat)
    requires penalty != 0.0 && temperature != 0.0 && Within(ids, |logits|) && i < |logits|
    ensures Scores(logits, ids, penalty, temperature)[i] * temperature == Penalised(logits, ids, penalty)[i]
  {
    var x := Penalised(logits, ids, penalty)[i];
    assert x / temperature * temperature == x;
  }

  datatype Floor = Everything | From(value: real)

  predicate Passes(x: real, floor: Floor) {
    floor.From? ==> x >= floor.value
  }

  /** The ids that pass, in order. */
  function Passing(work: seq<real>, floor: Floor): (ids: seq<nat>)
    ensures Within(ids, |work|)
  {
    if work == [] then []
    else
      var n := |work| - 1;
      Passing(work[..n], floor) + if Passes(work[n], floor) then [n] else []
  }

  /** The weight of the first `n` passing ids. */
  function Mass(exp: real -> real, work: seq<real>, ids: seq<nat>, peak: real, n: nat): real
    requires n <= |ids| && Within(ids, |work|)
  {
    if n == 0 then 0.0 else Mass(exp, work, ids, peak, n - 1) + exp(work[ids[n - 1]] - peak)
  }

  /** Exactly the ids at or above the threshold, each once and in order. */
  lemma {:induction false} PassingIsExact(work: seq<real>, floor: Floor)
    ensures var ids := Passing(work, floor);
            && (forall i :: i in ids <==> 0 <= i < |work| && Passes(work[i], floor))
            && (forall a, b :: 0 <= a < b < |ids| ==> ids[a] < ids[b])
  {
    if work != [] {
      var n := |work| - 1;
      PassingIsExact(work[..n], floor);
      assert forall i :: 0 <= i < n ==> work[..n][i] == work[i];
    }
  }

  /** A top-k threshold lets as many ids pass as have a value at least the k-th largest: `k`, and more
      only on a tie. */
  lemma {:induction false} PassingCounts(work: seq<real>, r: real)
    ensures |Passing(work, From(r))| == AtLeast(work, r)
  {
    if work != [] {
      PassingCounts(work[..|work| - 1], r);
    }
  }

  ghost predicate Positive(exp: real -> real) {
    forall x :: exp(x) > 0.0
  }

  function Target(u: real, total: real): real {
    u * total
  }

  /** The id at place `c`: the target falls into its share of the mass, or beyond all of them. */
  ghost predicate Draws(exp: real -> real, work: seq<real>, ids: seq<nat>, peak: real, target: real, c: nat)
    requires c < |ids| && Within(ids, |work|)
  {
    && (c > 0 ==> Mass(exp, work, ids, peak, c) <= target)
    && (target < Mass(exp, work, ids, peak, c + 1) || (c == |ids| - 1 && Mass(exp, work, ids, peak, |ids|) <= target))
  }

  /** For a draw below one the target falls strictly into one id's share, and into only one. */
  lemma DrawsOne(exp: real -> real, work: seq<real>, ids: seq<nat>, peak: real, u: real, c: nat, c': nat)
    requires c < |ids| && c' < |ids| && Within(ids, |work|)
    requires Positive(exp) && 0.0 <= u < 1.0
    requires Draws(exp, work, ids, peak, Target(u, Mass(exp, work, ids, peak, |ids|)), c)
    ensures Mass(exp, work, ids, peak, c) <= u * Mass(exp, work, ids, peak, |ids|) < Mass(exp, work, ids, peak, c + 1)
    ensures Mass(exp, work, ids, peak, 0) == 0.0
    ensures Mass(exp, work, ids, peak, c + 1) - Mass(exp, work, ids, peak, c) == exp(work[ids[c]] - peak)
    ensures Draws(exp, work, ids, peak, Target(u, Mass(exp, work, ids, peak, |ids|)), c') ==> c == c'
  {
    var total := Mass(exp, work, ids, peak, |ids|);
    assert Target(u, total) == u * total;
    hide Target;
    MassGrows(exp, work, ids, peak, 0, |ids|);
    MassGrows(exp, work, ids, peak, c + 1, |ids|);
    ShareOf(u, total);
    if Draws(exp, work, ids, peak, Target(u, total), c') {
      if c < c' {
        MassGrows(exp, work, ids, peak, c + 1, c');
      } else if c' < c {
        MassGrows(exp, work, ids, peak, c' + 1, c);
      }
    }
  }

  lemma ShareOf(u: real, total: real)
    requires 0.0 <= u < 1.0 && total > 0.0
    ensures 0.0 <= Target(u, total) < total
  {
  }

  lemma {:induction false} MassGrows(exp: real -> real, work: seq<real>, ids: seq<nat>, peak: real, m: nat, n: nat)
    requires m <= n <= |ids| && Within(ids, |work|) && Positive(exp)
    ensures Mass(exp, work, ids, peak, m) <= Mass(exp, work, ids, peak, n)
    ensures m < n ==> Mass(exp, work, ids, peak, m) < Mass(exp, work, ids, peak, n)
  {
    if m < n {
      MassGrows(exp, work, ids, peak, m, n - 1);
      assert exp(work[ids[n - 1]] - peak) > 0.0;
    }
  }

  /** Applies the penalties in place. */
  method Penalise(work: array<real>, ids: seq<nat>, penalty: real)
    requires penalty != 0.0 && Within(ids, work.Length)
    modifies work
    ensures work[..] == Penalised(old(work[..]), ids, penalty)
  {
    for n := 0 to |ids|
      invariant work[..] == Penalised(old(work[..]), ids[..n], penalty)
    {
      hide Repelled;
      assert ids[..n + 1][..n] == ids[..n] && ids[..n + 1][n] == ids[n];
      var x := work[ids[n]];
      work[ids[n]] := Repelled(x, penalty);
    }
    assert ids[..|ids|] == ids;
  }

  method Divide(work: array<real>, temperature: real)
    requires temperature != 0.0
    modifies work
    ensures forall i :: 0 <= i < work.Length ==> work[i] == old(work[i]) / temperature
  {
    for n := 0 to work.Length
      invariant forall i :: 0 <= i < n ==> work[i] == old(work[i]) / temperature
      invariant forall i :: n <= i < work.Length ==> work[i] == old(work[i])
    {
      work[n] := work[n] / temperature;
    }
  }

  /** The greatest value among the ids. */
  method PeakOf(work: seq<real>, ids: seq<nat>) returns (peak: real)
    requires ids != [] && Within(ids, |work|)
    ensures (forall a :: 0 <= a < |ids| ==> work[ids[a]] <= peak) && exists a :: 0 <= a < |ids| && work[ids[a]] == peak
  {
    peak := work[ids[0]];
    for n := 1 to |ids|
      invariant forall a :: 0 <= a < n ==> work[ids[a]] <= peak
      invariant exists a :: 0 <= a < |ids| && work[ids[a]] == peak
    {
      if work[ids[n]] > peak {
        peak := work[ids[n]];
      }
    }
  }

  method MassOf(exp: real -> real, work: seq<real>, ids: seq<nat>, peak: real) returns (total: real)
    requires Within(ids, |work|)
    ensures total == Mass(exp, work, ids, peak, |ids|)
  {
    total := 0.0;
    for n := 0 to |ids|
      invariant total == Mass(exp, work, ids, peak, n)
    {
      total := total + exp(work[ids[n]] - peak);
    }
  }

  /** The first id whose running mass exceeds the target, or the last one. */
  method Draw(exp: real -> real, work: seq<real>, ids: seq<nat>, peak: real, target: real) returns (c: nat)
    requires ids != [] && Within(ids, |work|) && Positive(exp)
    ensures c < |ids| && Draws(exp, work, ids, peak, target, c)
  {
    MassGrows(exp, work, ids, peak, |ids| - 1, |ids|);
    hide Positive;
    var running := 0.0;
    for n := 0 to |ids|
      invariant running == Mass(exp, work, ids, peak, n)
      invariant n > 0 ==> running <= target
    {
      running := running + exp(work[ids[n]] - peak);
      if running > target {
        return n;
      }
    }
    c := |ids| - 1;
  }

  /** The threshold `top_k` asks for: the k-th largest value, if that cuts anything. */
  predicate Threshold(work: seq<real>, topK: nat, floor: Floor) {
    if 0 < topK < |work| then floor.From? && IsKthLargest(work, topK, floor.value) else floor == Everything
  }

  /** `id` is at place `c` of the passing ids, and the target falls into its share of their mass, each
      weighed by `exp` of its distance from the greatest of them. */
  ghost predicate DrawnAt(exp: real -> real, work: seq<real>, floor: Floor, u: real, id: nat, peak: real, c: nat) {
    var ids := Passing(work, floor);
    && c < |ids| && id == ids[c]
    && (forall a :: 0 <= a < |ids| ==> work[ids[a]] <= peak) && (exists a :: 0 <= a < |ids| && work[ids[a]] == peak)
    && Draws(exp, work, ids, peak, Target(u, Mass(exp, work, ids, peak, |ids|)), c)
  }

  ghost predicate Drawn(exp: real -> real, work: seq<real>, floor: Floor, u: real, id: nat) {
    exists peak, c :: DrawnAt(exp, work, floor, u, id, peak, c)
  }

  /** The whole draw without a nucleus cut. */
  method Sample(exp: real -> real, logits: seq<real>, penaltyIds: seq<nat>, penalty: real, temperature: real,
                topK: nat, u: real)
    returns (id: nat)
    requires Positive(exp) && logits != [] && penalty != 0.0 && temperature != 0.0 && Within(penaltyIds, |logits|)
    ensures exists floor ::
              Threshold(Scores(logits, penaltyIds, penalty, temperature), topK, floor)
              && Drawn(exp, Scores(logits, penaltyIds, penalty, temperature), floor, u, id)
  {
    hide Positive, IsKthLargest, Penalised, Drawn;
    var n := |logits|;
    var work := new real[n](i requires 0 <= i < n => logits[i]);
    assert work[..] == logits;
    Penalise(work, penaltyIds, penalty);
    Divide(work, temperature);
    var values := work[..];
    assert values == Scores(logits, penaltyIds, penalty, temperature);
    var floor := Everything;
    if 0 < topK < n {
      var r := KthLargest(values, topK);
      floor := From(r);
    }
    SomethingPasses(values, topK, floor);
    id := DrawFrom(exp, values, floor, u);
  }

  /** The draw among the values that pass. */
  method DrawFrom(exp: real -> real, work: seq<real>, floor: Floor, u: real) returns (id: nat)
    requires Positive(exp) && exists i :: 0 <= i < |work| && Passes(work[i], floor)
    ensures Drawn(exp, work, floor, u, id)
  {
    hide Target, Mass, Draws, Positive;
    PassingIsExact(work, floor);
    var ids := Passing(work, floor);
    var peak := PeakOf(work, ids);
    var total := MassOf(exp, work, ids, peak);
    var c := Draw(exp, work, ids, peak, Target(u, total));
    id := ids[c];
    assert DrawnAt(exp, work, floor, u, id, peak, c);
  }

  lemma SomethingPasses(work: seq<real>, k: nat, floor: Floor)
    requires work != [] && (floor.From? ==> IsKthLargest(work, k, floor.value))
    ensures exists i :: 0 <= i < |work| && Passes(work[i], floor)
  {
    if floor.From? {
      var i :| 0 <= i < |work| && work[i] == floor.value;
      assert Passes(work[i], floor);
    } else {
      assert Passes(work[0], floor);
    }
  }
}
