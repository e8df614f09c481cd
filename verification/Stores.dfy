/** The store that survives a crash of the node object (app/consensus/storage.py: `MemoryStore`). */
module Stores {
  import opened Ballots
  import opened StateMachines
  import opened Replays
  import opened Ledgers
  import opened Nodes

  class MemoryStore {
    var disk: Disk

    constructor ()
      ensures disk == Disk(None, map[], map[], None)
    {
      disk := Disk(None, map[], map[], None);
    }

    method SaveGenesis(members: Members)
      modifies this
      ensures disk == old(disk).(genesis := Some(members))
    {
      disk := disk.(genesis := Some(members));
    }

    method SavePromise(epoch: nat, ballot: Ballot)
      modifies this
      ensures disk == old(disk).(ledgers := old(disk).ledgers[epoch := LedgerOf(old(disk).ledgers, epoch).(promised := ballot)])
    {
      disk := disk.(ledgers := disk.ledgers[epoch := LedgerOf(disk.ledgers, epoch).(promised := ballot)]);
    }

    method SaveAccept(epoch: nat, slot: nat, ballot: Ballot, command: Command)
      modifies this
      ensures var l := LedgerOf(old(disk).ledgers, epoch);
              disk == old(disk).(ledgers := old(disk).ledgers[epoch :=
                        l.(accepted := l.accepted[slot := Vote(ballot, command)])])
    {
      var l := LedgerOf(disk.ledgers, epoch);
      disk := disk.(ledgers := disk.ledgers[epoch := l.(accepted := l.accepted[slot := Vote(ballot, command)])]);
    }

    method SaveChosen(p: Pos, command: Command)
      modifies this
      ensures disk == old(disk).(chosen := old(disk).chosen[p := command])
    {
      disk := disk.(chosen := disk.chosen[p := command]);
    }

    method Compact(state: Disk)
      modifies this
      ensures disk == state
    {
      disk := state;
    }
  }
}
