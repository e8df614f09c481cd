/** What nodes say to each other (app/consensus/messages.py). */
module Messages {
  import opened Ballots
  import opened StateMachines
  import opened Replays

  /** One accepted proposal as a Promise reports it. */
  datatype Entry = Entry(slot: nat, ballot: Ballot, command: Command)

  datatype Message =
    | Prepare(sender: NodeId, epoch: nat, ballot: Ballot, fromSlot: nat)
    | Promise(sender: NodeId, epoch: nat, ballot: Ballot, accepted: seq<Entry>)
    | Accept(sender: NodeId, epoch: nat, ballot: Ballot, slot: nat, command: Command)
    | Accepted(sender: NodeId, epoch: nat, ballot: Ballot, slot: nat)
    | Nack(sender: NodeId, epoch: nat, ballot: Ballot, promised: Ballot)
    | Commit(sender: NodeId, epoch: nat, slot: nat, command: Command)
    | Snapshot(sender: NodeId, atEpoch: nat, atSlot: nat, state: Progress)
}
