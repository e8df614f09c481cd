/** Elections and leading (app/consensus/proposer.py), as functions: counting promises, choosing the
    values a new leader must propose again, handing out slots and counting votes. */
module Proposals {
  import opened Ballots
  import opened StateMachines
  import opened Replays
  import opened Messages
  import opened Ledgers

  /** Python dict: a repeated sender keeps its place, its entries are replaced. */
  type Promises = seq<(NodeId, seq<Entry>)>

  datatype Campaign = Campaign(ballot: Ballot, quorum: nat, promises: Promises)

  datatype Flight = Flight(command: Command, acks: set<NodeId>)

  datatype Leadership = Leadership(ballot: Ballot, quorum: nat, nextFree: nat,
                                   inflight: map<nat, Flight>, ids: set<string>)

  function Put(ps: Promises, sender: NodeId, es: seq<Entry>): Promises {
    if ps == [] then [(sender, es)]
    else if ps[0].0 == sender then [(sender, es)] + ps[1..]
    else [ps[0]] + Put(ps[1..], sender, es)
  }

  function Joined(ps: Promises): seq<Entry> {
    if ps == [] then [] else Joined(ps[..|ps| - 1]) + ps[|ps| - 1].1
  }

  /** The entry a scan in order keeps for `slot`: a later one wins only under a higher ballot. */
  function Best(es: seq<Entry>, slot: nat): Option<Vote> {
    if es == [] then None
    else
      var before, e := Best(es[..|es| - 1], slot), es[|es| - 1];
      if e.slot == slot && (before.None? || Less(before.value.ballot, e.ballot))
      then Some(Vote(e.ballot, e.command)) else before
  }

  /** The first slot above every reported one. */
  function ReportedTop(es: seq<Entry>): nat {
    if es == [] then 0
    else
      var before, e := ReportedTop(es[..|es| - 1]), es[|es| - 1];
      if e.slot + 1 > before then e.slot + 1 else before
  }

  function Replacement(es: seq<Entry>, slot: nat): Command {
    match Best(es, slot) case Some(v) => v.command case None => Noop
  }

  /** What a new leader proposes again: every slot from `from` to the last reported one, unless it
      knows what was chosen there. */
  function Plan(es: seq<Entry>, from: nat, epoch: nat, chosen: Log): map<nat, Command> {
    map s: nat | from <= s < ReportedTop(es) && Pos(epoch, s) !in chosen :: Replacement(es, s)
  }

  ghost function ChosenTop(epoch: nat, chosen: Log): nat {
    Above(set p | p in chosen && p.epoch == epoch :: p.slot)
  }

  function Max(a: nat, b: nat): nat {
    if a < b then b else a
  }

  /** The first slot a new leader gives to a new command. */
  ghost function FirstFree(es: seq<Entry>, from: nat, epoch: nat, chosen: Log): nat {
    Max(from, Max(ChosenTop(epoch, chosen), Above(Plan(es, from, epoch, chosen).Keys)))
  }

  function ProposedAt(l: Leadership, slot: nat, c: Command): Leadership {
    l.(inflight := l.inflight[slot := Flight(c, {})],
       nextFree := Max(l.nextFree, slot + 1),
       ids := l.ids + {IdOf(c)})
  }

  function IdOf(c: Command): string {
    if c.Noop? then "" else c.cmdId
  }

  /** The leadership once every slot of the plan was proposed. */
  function Taken(ballot: Ballot, quorum: nat, firstFree: nat, plan: map<nat, Command>): Leadership {
    Leadership(ballot, quorum, firstFree,
               map s | s in plan :: Flight(plan[s], {}),
               set s | s in plan :: IdOf(plan[s]))
  }

  /** Counting a vote: the leadership after it, and the command if that completes a majority. */
  function Counted(l: Leadership, slot: nat, sender: NodeId): (Leadership, Option<Command>) {
    if slot !in l.inflight then (l, None)
    else
      var f := l.inflight[slot];
      var acks := f.acks + {sender};
      if |acks| < l.quorum then (l.(inflight := l.inflight[slot := Flight(f.command, acks)]), None)
      else (l.(inflight := l.inflight - {slot}), Some(f.command))
  }

  // what the scan keeps

  lemma {:induction false} BestIsHighest(es: seq<Entry>, slot: nat)
    ensures Best(es, slot).None? ==> forall x :: x in es ==> x.slot != slot
    ensures Best(es, slot).Some? ==>
              var v := Best(es, slot).value;
              && Entry(slot, v.ballot, v.command) in es
              && forall x :: x in es && x.slot == slot ==> AtMost(x.ballot, v.ballot)
  {
    BallotsAreOrdered();
    if es != [] {
      var rest, e := es[..|es| - 1], es[|es| - 1];
      BestIsHighest(rest, slot);
      assert es == rest + [e];
    }
  }

  lemma {:induction false} ReportedTopBounds(es: seq<Entry>)
    ensures forall x :: x in es ==> x.slot < ReportedTop(es)
  {
    if es != [] {
      var rest, e := es[..|es| - 1], es[|es| - 1];
      ReportedTopBounds(rest);
      assert es == rest + [e];
    }
  }

  lemma {:induction false} JoinedHolds(ps: Promises, x: Entry)
    ensures x in Joined(ps) <==> exists i :: 0 <= i < |ps| && x in ps[i].1
  {
    if ps != [] {
      var rest, last := ps[..|ps| - 1], ps[|ps| - 1];
      JoinedHolds(rest, x);
      if x in Joined(rest) {
        var i :| 0 <= i < |rest| && x in rest[i].1;
        assert x in ps[i].1;
      }
      if i :| 0 <= i < |ps| && x in ps[i].1 {
        assert i == |ps| - 1 || x in rest[i].1;
      }
    }
  }

  predicate DistinctSenders(ps: Promises) {
    forall i, j :: 0 <= i < j < |ps| ==> ps[i].0 != ps[j].0
  }

  lemma {:induction false} PutReplaces(ps: Promises, sender: NodeId, es: seq<Entry>)
    requires DistinctSenders(ps)
    ensures DistinctSenders(Put(ps, sender, es))
    ensures forall x :: x in Put(ps, sender, es) <==> x == (sender, es) || (x in ps && x.0 != sender)
    ensures |Put(ps, sender, es)| <= |ps| + 1
  {
    if ps != [] && ps[0].0 != sender {
      PutReplaces(ps[1..], sender, es);
      var tail := Put(ps[1..], sender, es);
      assert forall j :: 0 <= j < |tail| ==> tail[j] in tail;
      assert forall x :: x in ps[1..] ==> x in ps;
    } else if ps != [] {
      assert forall x :: x in ps[1..] ==> x in ps && x.0 != sender;
    }
  }
}
