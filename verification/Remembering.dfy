/** How long the bounded result memory keeps a command from being applied again. */
module Remembering {
  import opened StateMachines
  import opened Replays
  import opened Histories

  /** The `n`th step along the log applies a command (it is not skipped). */
  ghost predicate Applies(genesis: Members, log: Log, n: nat) {
    var r := Replay(genesis, log, n);
    At(r) in log && !Skipped(r, log[At(r)])
  }

  /** The `n`th step along the log applies the command `id`. */
  ghost predicate AppliesId(genesis: Members, log: Log, n: nat, id: string) {
    Applies(genesis, log, n) && log[At(Replay(genesis, log, n))].cmdId == id
  }

  /** How many commands the steps from `n` up to `m` apply. */
  ghost function Count(genesis: Members, log: Log, n: nat, m: nat): nat
    decreases m - n
  {
    if n >= m then 0
    else Count(genesis, log, n, m - 1) + if Applies(genesis, log, m - 1) then 1 else 0
  }

  lemma {:induction false} MemoryIsBounded(genesis: Members, log: Log, n: nat)
    ensures |Replay(genesis, log, n).results| <= MAX_REMEMBERED_RESULTS
  {
    if n > 0 {
      MemoryIsBounded(genesis, log, n - 1);
    }
  }

  lemma ApplyingRemembers(r: Progress, c: Command) returns (result: bool)
    requires !Skipped(r, c)
    ensures ApplyChosen(r, c).results == Remember(r.results, c.cmdId, result)
  {
    result := match c.payload
      case Reconfigure(epoch, _) => epoch == r.epoch
      case Op(op) => Apply(r.machine, op).1;
  }

  /** Where the `k`th id from the end, and the new id, are after one more is remembered. */
  lemma RememberShifts(results: Results, id: string, result: bool, k: nat)
    requires |results| <= MAX_REMEMBERED_RESULTS && k < |results| && k + 1 < MAX_REMEMBERED_RESULTS
    ensures var longer := Remember(results, id, result);
            && |longer| >= k + 2
            && longer[|longer| - 1].0 == id
            && longer[|longer| - 2 - k] == results[|results| - 1 - k]
  {
  }

  /** An applied id moves one place towards the front per command applied after it. */
  lemma {:induction false} StillRemembered(genesis: Members, log: Log, n: nat, m: nat, id: string)
    requires n < m && AppliesId(genesis, log, n, id)
    requires Count(genesis, log, n + 1, m) < MAX_REMEMBERED_RESULTS
    ensures var results := Replay(genesis, log, m).results;
            var i := |results| - 1 - Count(genesis, log, n + 1, m);
            0 <= i && results[i].0 == id
    decreases m
  {
    hide ApplyChosen;
    MemoryIsBounded(genesis, log, m - 1);
    var r := Replay(genesis, log, m - 1);
    if n + 1 < m {
      StillRemembered(genesis, log, n, m - 1, id);
    }
    if Applies(genesis, log, m - 1) {
      var c := log[At(r)];
      var result := ApplyingRemembers(r, c);
      if n + 1 < m {
        RememberShifts(r.results, c.cmdId, result, Count(genesis, log, n + 1, m - 1));
      }
    } else {
      if At(r) in log { SkippingForgetsNothing(r, log); }
    }
  }

  lemma SkippingForgetsNothing(r: Progress, log: Log)
    requires At(r) in log && Skipped(r, log[At(r)])
    ensures ApplyChosen(r, log[At(r)]).results == r.results
  {
  }

  /** A command is applied once for as long as its id is remembered: between two applications of one
      id at least `MAX_REMEMBERED_RESULTS` other commands are applied. */
  lemma AppliedOncePerMemory(genesis: Members, log: Log, n: nat, m: nat, id: string)
    requires n < m && AppliesId(genesis, log, n, id) && AppliesId(genesis, log, m, id)
    ensures Count(genesis, log, n + 1, m) >= 10_000
  {
    if Count(genesis, log, n + 1, m) < MAX_REMEMBERED_RESULTS {
      StillRemembered(genesis, log, n, m, id);
    }
  }
}
