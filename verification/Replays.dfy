/** The chosen log as a function (app/consensus/replica.py): what applying one chosen command does,
    how far a set of chosen commands carries a replica, and what a snapshot may forget. */
module Replays {
  import opened StateMachines

  /** A place in the whole log: epoch, then slot. */
  datatype Pos = Pos(epoch: nat, slot: nat)

  predicate Precedes(p: Pos, q: Pos) {
    p.epoch < q.epoch || (p.epoch == q.epoch && p.slot < q.slot)
  }

  type Log = map<Pos, Command>

  const MAX_REMEMBERED_RESULTS := 10_000

  type Results = seq<(string, bool)>

  /** Everything a snapshot holds: where the replica stands and what the log up to there made. */
  datatype Progress = Progress(epoch: nat, nextSlot: nat, members: Members, machine: Machine,
                               results: Results, stops: map<nat, nat>)

  function At(r: Progress): Pos {
    Pos(r.epoch, r.nextSlot)
  }

  function Genesis(members: Members): Progress {
    Progress(0, 0, members, EMPTY, [], map[])
  }

  predicate Remembered(results: Results, id: string) {
    exists i :: 0 <= i < |results| && results[i].0 == id
  }

  function Remember(results: Results, id: string, result: bool): Results {
    var longer := results + [(id, result)];
    if |longer| > MAX_REMEMBERED_RESULTS then longer[1..] else longer
  }

  /** A command that leaves only its slot behind: a no-op, or an id already applied. */
  predicate Skipped(r: Progress, c: Command) {
    c.Noop? || Remembered(r.results, c.cmdId)
  }

  function ApplyChosen(r: Progress, c: Command): (r': Progress) {
    if Skipped(r, c) then
      r.(nextSlot := r.nextSlot + 1)
    else match c.payload
      case Reconfigure(epoch, members) =>
        if epoch != r.epoch then
          r.(nextSlot := r.nextSlot + 1, results := Remember(r.results, c.cmdId, false))
        else
          r.(epoch := r.epoch + 1, nextSlot := 0, members := members,
             stops := r.stops[r.epoch := r.nextSlot],
             results := Remember(r.results, c.cmdId, true))
      case Op(op) =>
        var (machine, result) := Apply(r.machine, op);
        r.(nextSlot := r.nextSlot + 1, machine := machine,
           results := Remember(r.results, c.cmdId, result))
  }

  /** Chosen commands still ahead of `p`. */
  function Ahead(log: Log, p: Pos): set<Pos> {
    set q | q in log && !Precedes(q, p)
  }

  lemma AheadShrinks(log: Log, r: Progress)
    requires At(r) in log
    ensures |Ahead(log, At(ApplyChosen(r, log[At(r)])))| < |Ahead(log, At(r))|
  {
    var small, big := Ahead(log, At(ApplyChosen(r, log[At(r)]))), Ahead(log, At(r));
    assert small <= big - {At(r)};
    Cardinality(small, big - {At(r)});
  }

  lemma {:induction false} Cardinality<T>(a: set<T>, b: set<T>)
    requires a <= b
    ensures |a| <= |b|
  {
    if a != {} {
      var x :| x in a;
      Cardinality(a - {x}, b - {x});
    }
  }

  /** Applies chosen commands in order for as long as the next one is known. */
  ghost function Advance(r: Progress, log: Log): Progress
    decreases |Ahead(log, At(r))|
  {
    if At(r) in log then
      AheadShrinks(log, r);
      Advance(ApplyChosen(r, log[At(r)]), log)
    else r
  }

  function DropBelow(log: Log, p: Pos): Log {
    map q | q in log && !Precedes(q, p) :: log[q]
  }

  ghost predicate Extends(bigger: Log, smaller: Log) {
    forall p :: p in smaller ==> p in bigger && bigger[p] == smaller[p]
  }

  lemma {:induction false} AdvanceStops(r: Progress, log: Log)
    ensures At(Advance(r, log)) !in log
    ensures !Precedes(At(Advance(r, log)), At(r))
    ensures At(Advance(r, log)) == At(r) ==> Advance(r, log) == r
    decreases |Ahead(log, At(r))|
  {
    if At(r) in log {
      AheadShrinks(log, r);
      AdvanceStops(ApplyChosen(r, log[At(r)]), log);
    }
  }

  /** Advancing first over an older log and then over a longer one is advancing over the longer. */
  lemma {:induction false} AdvanceInTwoSteps(r: Progress, some: Log, all: Log)
    requires Extends(all, some)
    ensures Advance(Advance(r, some), all) == Advance(r, all)
    decreases |Ahead(some, At(r))|
  {
    if At(r) in some {
      AheadShrinks(some, r);
      AdvanceInTwoSteps(ApplyChosen(r, some[At(r)]), some, all);
    }
  }

  /** Commands below where a replica stands never matter again. */
  lemma {:induction false} AdvanceIgnoresThePast(r: Progress, log: Log, p: Pos)
    requires !Precedes(At(r), p)
    ensures Advance(r, DropBelow(log, p)) == Advance(r, log)
    decreases |Ahead(log, At(r))|
  {
    if At(r) in log {
      AheadShrinks(log, r);
      AdvanceIgnoresThePast(ApplyChosen(r, log[At(r)]), log, p);
    }
  }
}
