/** The acceptor of one epoch (app/consensus/acceptor.py): it saves what it promises and accepts
    before it answers. */
module Acceptors {
  import opened Ballots
  import opened Messages
  import opened Ledgers
  import opened Nodes
  import opened Stores

  /** The first slot above every one of `slots`. */
  method TopOf(slots: set<nat>) returns (top: nat)
    ensures top == Above(slots)
  {
    top := 0;
    var rest := slots;
    while rest != {}
      invariant rest <= slots
      invariant forall s :: s in slots && s !in rest ==> s < top
      invariant top > 0 ==> top - 1 in slots
      decreases rest
    {
      var s :| s in rest;
      if top <= s {
        top := s + 1;
      }
      rest := rest - {s};
    }
  }

  /** The votes at `from` and above, in slot order. */
  method SortedVotes(accepted: map<nat, Vote>, from: nat) returns (es: seq<Entry>)
    ensures es == Report(accepted, from)
  {
    var top := TopOf(accepted.Keys);
    es := [];
    var slot := from;
    while slot < top
      invariant from <= slot
      invariant es + Scan(accepted, slot, top) == Report(accepted, from)
    {
      if slot in accepted {
        es := es + [Entry(slot, accepted[slot].ballot, accepted[slot].command)];
      }
      slot := slot + 1;
    }
  }

  class Acceptor {
    const id: NodeId
    const epoch: nat
    const store: MemoryStore
    var promised: Ballot
    var accepted: map<nat, Vote>
    var floor: nat

    ghost function State(): Ledger
      reads this
    {
      Ledger(promised, accepted)
    }

    /** Nothing is held in memory that a crash would forget. */
    ghost predicate Durable()
      reads this, store
    {
      LedgerOf(store.disk.ledgers, epoch) == State()
    }

    constructor (id: NodeId, epoch: nat, store: MemoryStore)
      ensures this.id == id && this.epoch == epoch && this.store == store && floor == 0
      ensures Durable()
    {
      this.id := id;
      this.epoch := epoch;
      this.store := store;
      promised := LedgerOf(store.disk.ledgers, epoch).promised;
      accepted := LedgerOf(store.disk.ledgers, epoch).accepted;
      floor := 0;
    }

    /** The votes below the snapshot are gone, here as in the rewritten journal. */
    method Forget(slot: nat)
      modifies this`accepted
      ensures State() == Pruned(old(State()), slot)
    {
      accepted := map s | s in accepted && slot <= s :: accepted[s];
    }

    method RaiseFloor(slot: nat)
      modifies this`floor
      ensures floor == slot
    {
      floor := slot;
    }

    method HighestRound() returns (round: nat)
      ensures round == MaxRound(State())
    {
      round := promised.round;
      var rest := accepted.Keys;
      ghost var rounds := {promised.round} + set s | s in accepted :: accepted[s].ballot.round;
      while rest != {}
        invariant rest <= accepted.Keys
        invariant round in rounds && promised.round <= round
        invariant forall s :: s in accepted && s !in rest ==> accepted[s].ballot.round <= round
        decreases rest
      {
        var s :| s in rest;
        assert accepted[s].ballot.round in rounds;
        if round < accepted[s].ballot.round {
          round := accepted[s].ballot.round;
        }
        rest := rest - {s};
      }
      assert forall x :: x in rounds ==> x <= round;
    }

    method Raise(ballot: Ballot)
      requires Durable()
      modifies this`promised, store
      ensures Durable() && State() == Raised(old(State()), ballot)
      ensures store.disk == Stored(old(store.disk), epoch, State())
    {
      if Less(promised, ballot) {
        promised := ballot;
        store.SavePromise(epoch, ballot);
      }
    }

    method Prepare(m: Message) returns (reply: Message)
      requires m.Prepare? && Durable()
      modifies this`promised, store
      ensures Durable() && (State(), reply) == AnswerPrepare(id, epoch, old(State()), m)
      ensures store.disk == Stored(old(store.disk), epoch, State())
    {
      if Less(m.ballot, promised) {
        return Nack(id, epoch, m.ballot, promised);
      }
      Raise(m.ballot);
      var entries := SortedVotes(accepted, m.fromSlot);
      reply := Promise(id, epoch, m.ballot, entries);
    }

    method Accept(m: Message) returns (reply: Message)
      requires m.Accept? && Durable()
      modifies this`promised, this`accepted, store
      ensures Durable() && (State(), reply) == AnswerAccept(id, epoch, old(State()), floor, m)
      ensures store.disk == Stored(old(store.disk), epoch, State())
    {
      if m.slot < floor || Less(m.ballot, promised) {
        return Nack(id, epoch, m.ballot, promised);
      }
      Raise(m.ballot);
      if m.slot in accepted && accepted[m.slot] == Vote(m.ballot, m.command) {
        assert accepted == accepted[m.slot := Vote(m.ballot, m.command)];
        return Accepted(id, epoch, m.ballot, m.slot);
      }
      accepted := accepted[m.slot := Vote(m.ballot, m.command)];
      store.SaveAccept(epoch, m.slot, m.ballot, m.command);
      reply := Accepted(id, epoch, m.ballot, m.slot);
    }
  }
}
