/** The replica (app/consensus/replica.py) and the machine it drives
    (app/consensus/state_machine.py), as the objects they are. */
module Replicas {
  import opened Ballots
  import opened StateMachines
  import opened Replays
  import opened Ledgers
  import opened Nodes
  import opened Stores
  import opened Acceptors
  import opened Operations

  class ClusterMachine {
    var config: map<string, Value>
    var nodes: map<NodeId, string>

    constructor ()
      ensures State() == EMPTY
    {
      config := map[];
      nodes := map[];
    }

    function State(): Machine
      reads this
    {
      Machine(config, nodes)
    }

    method Restore(m: Machine)
      modifies this
      ensures State() == m
    {
      config := m.config;
      nodes := m.nodes;
    }

    method Execute(op: Operation) returns (result: bool)
      modifies this
      ensures (State(), result) == Apply(old(State()), op)
      ensures Does(old(State()), op, State(), result)
    {
      ApplyDoesExactly(State(), op, Apply(State(), op).0, Apply(State(), op).1);
      match op {
        case Set(key, value) =>
          config := config[key := value];
          return true;
        case Delete(key) =>
          result := Get(config, key) != Null;
          config := config - {key};
        case Cas(key, expected, value) =>
          if Get(config, key) != expected {
            return false;
          }
          config := config[key := value];
          return true;
        case AddNode(id, address) =>
          nodes := nodes[id := address];
          return true;
        case RemoveNode(id) =>
          result := id in nodes;
          nodes := nodes - {id};
      }
    }
  }

  /** What `commit` reports: nothing new, recorded, or a second command for a decided place. */
  datatype CommitResult = Known | Recorded | SafetyViolation

  class Replica {
    const store: MemoryStore
    const every: nat
    const machine: ClusterMachine
    var epoch: nat
    var nextSlot: nat
    var members: Members
    var chosen: Log
    var stops: map<nat, nat>
    var results: Results
    var base: Option<Progress>
    var pending: Option<Progress>
    var pendingTotal: int

    /** Where the replica stands: what a snapshot taken now would hold. */
    ghost function Stand(): Progress
      reads this, machine
    {
      Progress(epoch, nextSlot, members, machine.State(), results, stops)
    }

    ghost predicate Valid()
      reads this, store
    {
      store.disk.chosen == chosen
    }

    /** Rebuilds the replica from what is stored. */
    constructor (machine: ClusterMachine, store: MemoryStore, every: nat)
      requires machine.State() == EMPTY
      modifies machine
      ensures this.machine == machine && this.store == store && this.every == every
      ensures Valid() && chosen == store.disk.chosen && base == store.disk.snapshot && pending == None
      ensures Stand() == Loaded(store.disk) && pendingTotal == AppliedTotal(Stand())
    {
      hide Advance, AppliedTotal;
      this.machine := machine;
      this.store := store;
      this.every := every;
      epoch := 0;
      nextSlot := 0;
      members := if store.disk.genesis.Some? then store.disk.genesis.value else map[];
      chosen := store.disk.chosen;
      stops := map[];
      results := [];
      base := store.disk.snapshot;
      pending := None;
      pendingTotal := 0;
      new;
      Rebuild();
    }

    /** From the base, if there is one, as far as the log leads. */
    method Rebuild()
      modifies this`epoch, this`nextSlot, this`members, this`stops, this`results, this`pendingTotal, machine
      ensures Stand() == Advance(if base.Some? then base.value else old(Stand()), chosen)
      ensures pendingTotal == AppliedTotal(Stand())
    {
      hide Advance, AppliedTotal;
      if base.Some? {
        RestoreFrom(base.value);
      }
      AdvanceAll();
      pendingTotal := Total();
    }

    /** Records a chosen command, unless the place is known or behind; then applies what follows. */
    method Commit(p: Pos, c: Command) returns (result: CommitResult)
      requires Valid()
      modifies this`epoch, this`nextSlot, this`members, this`chosen, this`stops, this`results, machine, store
      ensures Valid()
      ensures p in old(chosen) ==>
                result == (if old(chosen)[p] == c then Known else SafetyViolation)
                && Stand() == old(Stand()) && chosen == old(chosen) && store.disk == old(store.disk)
      ensures p !in old(chosen) && Precedes(p, At(old(Stand()))) ==>
                result == Known && Stand() == old(Stand()) && chosen == old(chosen) && store.disk == old(store.disk)
      ensures p !in old(chosen) && !Precedes(p, At(old(Stand()))) ==>
                result == Recorded && chosen == old(chosen)[p := c]
                && store.disk == old(store.disk).(chosen := chosen) && Stand() == Advance(old(Stand()), chosen)
    {
      if p !in chosen && Precedes(p, Pos(epoch, nextSlot)) {
        return Known;
      }
      if p in chosen {
        return if chosen[p] != c then SafetyViolation else Known;
      }
      store.SaveChosen(p, c);
      chosen := chosen[p := c];
      AdvanceAll();
      result := Recorded;
    }

    method AdvanceAll()
      modifies this`epoch, this`nextSlot, this`members, this`stops, this`results, machine
      ensures Stand() == Advance(old(Stand()), chosen)
    {
      while Pos(epoch, nextSlot) in chosen
        invariant Advance(Stand(), chosen) == Advance(old(Stand()), chosen)
        decreases |Ahead(chosen, Pos(epoch, nextSlot))|
      {
        var c := chosen[Pos(epoch, nextSlot)];
        ghost var before := Stand();
        AheadShrinks(chosen, before);
        if c.Noop? || InMemory(c.cmdId) {
          nextSlot := nextSlot + 1;
        } else {
          match c.payload {
            case Reconfigure(e, m) => Reconfigured(c.cmdId, e, m);
            case Op(op) =>
              var result := machine.Execute(op);
              RememberResult(c.cmdId, result);
              nextSlot := nextSlot + 1;
          }
        }
        assert Stand() == ApplyChosen(before, c);
      }
    }

    predicate InMemory(id: string)
      reads this
    {
      Remembered(results, id)
    }

    method Reconfigured(id: string, e: int, m: Members)
      modifies this`epoch, this`nextSlot, this`members, this`stops, this`results
      ensures Stand() == if e != old(epoch)
                         then old(Stand()).(nextSlot := old(nextSlot) + 1, results := Remember(old(results), id, false))
                         else old(Stand()).(epoch := old(epoch) + 1, nextSlot := 0, members := m,
                                            stops := old(stops)[old(epoch) := old(nextSlot)],
                                            results := Remember(old(results), id, true))
    {
      if e != epoch {
        RememberResult(id, false);
        nextSlot := nextSlot + 1;
        return;
      }
      RememberResult(id, true);
      stops := stops[epoch := nextSlot];
      members := m;
      epoch, nextSlot := epoch + 1, 0;
    }

    method RememberResult(id: string, result: bool)
      modifies this`results
      ensures results == Remember(old(results), id, result)
    {
      results := results + [(id, result)];
      if |results| > MAX_REMEMBERED_RESULTS {
        results := results[1..];
      }
    }

    method Total() returns (total: int)
      ensures total == AppliedTotal(Stand())
    {
      total := 0;
      for e := 0 to epoch
        invariant total == StopsBelow(stops, e)
      {
        if e in stops {
          total := total + stops[e];
        }
      }
      total := total + nextSlot;
    }

    method Capture() returns (snap: Progress)
      ensures snap == Stand()
    {
      snap := Progress(epoch, nextSlot, members, machine.State(), results, stops);
    }

    method RestoreFrom(snap: Progress)
      modifies this`epoch, this`nextSlot, this`members, this`stops, this`results, machine
      ensures Stand() == snap
    {
      machine.Restore(snap.machine);
      results := snap.results;
      epoch, nextSlot := snap.epoch, snap.nextSlot;
      members := snap.members;
      stops := snap.stops;
    }

    method Drop(snap: Progress)
      modifies this`chosen
      ensures chosen == DropBelow(old(chosen), At(snap))
    {
      chosen := map p | p in chosen && !Precedes(p, At(snap)) :: chosen[p];
    }

    /** Every `every` applied slots takes a snapshot; the previous one becomes the base and the log
        below it is dropped. True when the base moved. */
    method Rotate() returns (moved: bool)
      modifies this`base, this`chosen, this`pending, this`pendingTotal
      ensures Stand() == old(Stand())
      ensures var total := AppliedTotal(Stand());
              if total - old(pendingTotal) < every then
                !moved && base == old(base) && chosen == old(chosen) && pending == old(pending) && pendingTotal == old(pendingTotal)
              else
                && moved == old(pending).Some? && pending == Some(Stand()) && pendingTotal == total
                && base == (if moved then old(pending) else old(base))
                && chosen == (if moved then DropBelow(old(chosen), At(old(pending).value)) else old(chosen))
    {
      var total := Total();
      if total - pendingTotal < every {
        return false;
      }
      moved := pending.Some?;
      if moved {
        base := pending;
        Drop(pending.value);
      }
      var snap := Capture();
      pending, pendingTotal := Some(snap), total;
    }

    /** Jumps to a peer's snapshot, if it is ahead of what is applied here. */
    method Install(snap: Progress) returns (done: bool)
      modifies this`epoch, this`nextSlot, this`members, this`stops, this`results, this`base, this`chosen, this`pending, this`pendingTotal, machine
      ensures done <==> Precedes(At(old(Stand())), At(snap))
      ensures !done ==> Stand() == old(Stand()) && base == old(base) && chosen == old(chosen)
                        && pending == old(pending) && pendingTotal == old(pendingTotal)
      ensures done ==> base == Some(snap) && chosen == DropBelow(old(chosen), At(snap)) && pending == None
                       && Stand() == Advance(snap, chosen) && pendingTotal == AppliedTotal(Stand())
    {
      if !Precedes(Pos(epoch, nextSlot), Pos(snap.epoch, snap.nextSlot)) {
        return false;
      }
      RestoreFrom(snap);
      base, pending := Some(snap), None;
      Drop(snap);
      AdvanceAll();
      pendingTotal := Total();
      done := true;
    }

    /** The first `limit` chosen commands of `e` from `slot` on, up to the one that sealed it. */
    method ChosenFrom(e: nat, slot: nat, limit: nat) returns (found: seq<(nat, Command)>)
      ensures found == FirstChosen(chosen, e, slot, ServedTop(chosen, stops, e), limit)
    {
      var top := TopOf(set p | p in chosen && p.epoch == e :: p.slot);
      if e in stops && stops[e] < top {
        top := stops[e] + 1;
      }
      found := [];
      var s := slot;
      while s < top && |found| < limit
        invariant slot <= s && |found| <= limit
        invariant found + FirstChosen(chosen, e, s, top, limit - |found|) == FirstChosen(chosen, e, slot, top, limit)
      {
        if Pos(e, s) in chosen {
          found := found + [(s, chosen[Pos(e, s)])];
        }
        s := s + 1;
      }
    }
  }

  /** One above the last slot of `e` that may be served. */
  ghost function ServedTop(chosen: Log, stops: map<nat, nat>, e: nat): nat {
    var top := Above(set p | p in chosen && p.epoch == e :: p.slot);
    if e in stops && stops[e] < top then stops[e] + 1 else top
  }

  /** The first `limit` chosen commands of `e` from `lo` up to `hi`, in slot order. */
  function FirstChosen(chosen: Log, e: nat, lo: nat, hi: nat, limit: nat): seq<(nat, Command)>
    decreases hi - lo
  {
    if lo >= hi || limit == 0 then []
    else if Pos(e, lo) in chosen then [(lo, chosen[Pos(e, lo)])] + FirstChosen(chosen, e, lo + 1, hi, limit - 1)
    else FirstChosen(chosen, e, lo + 1, hi, limit)
  }

  /** A batch is in slot order, names only what is chosen in its range, and skips nothing: a chosen slot
      it leaves out is above all of a full batch. */
  lemma {:induction false} BatchIsExact(chosen: Log, e: nat, lo: nat, hi: nat, limit: nat)
    ensures var found := FirstChosen(chosen, e, lo, hi, limit);
            && |found| <= limit
            && (forall i, j :: 0 <= i < j < |found| ==> found[i].0 < found[j].0)
            && (forall x :: x in found ==> lo <= x.0 < hi && Pos(e, x.0) in chosen && x.1 == chosen[Pos(e, x.0)])
            && (forall s :: lo <= s < hi && Pos(e, s) in chosen ==>
                  (s, chosen[Pos(e, s)]) in found || (|found| == limit && forall x :: x in found ==> x.0 < s))
    decreases hi - lo
  {
    if lo < hi && limit > 0 {
      if Pos(e, lo) in chosen {
        BatchIsExact(chosen, e, lo + 1, hi, limit - 1);
      } else {
        BatchIsExact(chosen, e, lo + 1, hi, limit);
      }
    }
  }
}
