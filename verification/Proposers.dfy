/** The two objects behind a leader (app/consensus/proposer.py): the campaign that collects promises
    and the leadership that counts votes. */
module Proposers {
  import opened Ballots
  import opened StateMachines
  import opened Replays
  import opened Messages
  import opened Ledgers
  import opened Proposals
  import opened Acceptors

  class CampaignCount {
    const ballot: Ballot
    const quorum: nat
    var promises: Promises

    constructor (ballot: Ballot, quorum: nat)
      ensures this.ballot == ballot && this.quorum == quorum && promises == []
    {
      this.ballot := ballot;
      this.quorum := quorum;
      promises := [];
    }

    ghost function View(): Campaign
      reads this
    {
      Campaign(ballot, quorum, promises)
    }

    /** True exactly once: when this promise completes the majority. */
    method Add(sender: NodeId, es: seq<Entry>) returns (complete: bool)
      modifies this
      ensures promises == Put(old(promises), sender, es)
      ensures complete <==> |old(promises)| < quorum <= |promises|
    {
      var before := quorum <= |promises|;
      promises := Put(promises, sender, es);
      complete := !before && quorum <= |promises|;
    }

    /** Per slot the command voted under the highest ballot, and a no-op for a gap. */
    method MakePlan(from: nat, epoch: nat, chosen: Log) returns (plan: map<nat, Command>, top: nat)
      ensures plan == Plan(Joined(promises), from, epoch, chosen) && top == ReportedTop(Joined(promises))
    {
      var best: map<nat, Vote> := map[];
      ghost var seen: seq<Entry> := [];
      for i := 0 to |promises|
        invariant seen == Joined(promises[..i])
        invariant Summarises(best, seen)
      {
        var es := promises[i].1;
        for j := 0 to |es|
          invariant seen == Joined(promises[..i]) + es[..j]
          invariant Summarises(best, seen)
        {
          var e := es[j];
          SeenOneMore(best, seen, e);
          seen := seen + [e];
          if e.slot !in best || Less(best[e.slot].ballot, e.ballot) {
            best := best[e.slot := Vote(e.ballot, e.command)];
          }
          assert es[..j + 1] == es[..j] + [e];
        }
        assert es[..|es|] == es;
        assert promises[..i + 1][..i] == promises[..i];
      }
      assert promises[..|promises|] == promises;
      top := TopOf(best.Keys);
      SummaryTop(best, seen);
      plan := map s: nat | from <= s < top && Pos(epoch, s) !in chosen :: if s in best then best[s].command else Noop;
    }
  }

  /** `best` holds what a scan of `es` keeps, slot by slot. */
  ghost predicate Summarises(best: map<nat, Vote>, es: seq<Entry>) {
    forall s :: (s in best <==> Best(es, s).Some?) && (s in best ==> best[s] == Best(es, s).value)
  }

  lemma SeenOneMore(best: map<nat, Vote>, es: seq<Entry>, e: Entry)
    requires Summarises(best, es)
    ensures Summarises(if e.slot !in best || Less(best[e.slot].ballot, e.ballot)
                       then best[e.slot := Vote(e.ballot, e.command)] else best, es + [e])
  {
    assert (es + [e])[..|es|] == es;
  }

  lemma SummaryTop(best: map<nat, Vote>, es: seq<Entry>)
    requires Summarises(best, es)
    ensures Above(best.Keys) == ReportedTop(es)
  {
    ReportedTopBounds(es);
    forall s | s in best.Keys ensures s < ReportedTop(es) { BestIsHighest(es, s); }
    if ReportedTop(es) > 0 {
      TopIsReported(es);
      BestIsHighest(es, ReportedTop(es) - 1);
    }
  }

  lemma {:induction false} TopIsReported(es: seq<Entry>)
    requires ReportedTop(es) > 0
    ensures exists x :: x in es && x.slot == ReportedTop(es) - 1
  {
    var rest, e := es[..|es| - 1], es[|es| - 1];
    if e.slot + 1 > ReportedTop(rest) {
      assert e in es;
    } else {
      TopIsReported(rest);
      var x :| x in rest && x.slot == ReportedTop(rest) - 1;
      assert x in es;
    }
  }

  class LeadershipCount {
    const ballot: Ballot
    const quorum: nat
    var nextFree: nat
    var inflight: map<nat, Flight>
    var ids: set<string>

    constructor (ballot: Ballot, quorum: nat, firstFree: nat)
      ensures View() == Leadership(ballot, quorum, firstFree, map[], {})
    {
      this.ballot := ballot;
      this.quorum := quorum;
      nextFree := firstFree;
      inflight := map[];
      ids := {};
    }

    ghost function View(): Leadership
      reads this
    {
      Leadership(ballot, quorum, nextFree, inflight, ids)
    }

    method ProposeAt(slot: nat, c: Command)
      modifies this
      ensures View() == ProposedAt(old(View()), slot, c)
    {
      inflight := inflight[slot := Flight(c, {})];
      nextFree := Max(nextFree, slot + 1);
      ids := ids + {IdOf(c)};
    }

    /** Proposing a whole plan below the first free slot. */
    method ProposePlan(plan: map<nat, Command>, from: nat, top: nat)
      requires View() == Leadership(ballot, quorum, nextFree, map[], {})
      requires forall s :: s in plan ==> from <= s < top
      requires forall s :: s in plan ==> s < nextFree
      modifies this
      ensures View() == Taken(ballot, quorum, old(nextFree), plan)
    {
      var slot := from;
      while slot < top
        invariant from <= slot
        invariant nextFree == old(nextFree)
        invariant inflight == map s | s in plan && s < slot :: Flight(plan[s], {})
        invariant ids == set s | s in plan && s < slot :: IdOf(plan[s])
      {
        if slot in plan {
          ProposeAt(slot, plan[slot]);
        }
        slot := slot + 1;
      }
      assert inflight == map s | s in plan :: Flight(plan[s], {});
      assert ids == set s | s in plan :: IdOf(plan[s]);
    }

    /** The command, once a majority accepted `slot`; only the first time. */
    method Count(slot: nat, sender: NodeId) returns (done: Option<Command>)
      modifies this
      ensures (View(), done) == Counted(old(View()), slot, sender)
    {
      if slot !in inflight {
        return None;
      }
      var f := inflight[slot];
      var acks := f.acks + {sender};
      inflight := inflight[slot := Flight(f.command, acks)];
      if |acks| < quorum {
        return None;
      }
      inflight := inflight - {slot};
      assert inflight == old(inflight) - {slot};
      done := Some(f.command);
    }
  }
}
