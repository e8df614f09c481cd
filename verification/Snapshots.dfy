/** When a snapshot is taken, what becomes of the log and the votes before it, and when a peer's is taken in
    (app/consensus/replica.py: `rotate`, `install`; app/consensus/snapshots.py). */
module Snapshots {
  import opened Ballots
  import opened StateMachines
  import opened Replays
  import opened Histories
  import opened Messages
  import opened Ledgers
  import opened Nodes
  import opened Clusters
  import opened Batches

  /** The applied total counts every command along the log but those that sealed an epoch. */
  lemma {:induction false} TotalCountsCommands(genesis: Members, log: Log, n: nat)
    requires n > 0 ==> At(Replay(genesis, log, n - 1)) in log
    ensures AppliedTotal(Replay(genesis, log, n)) == n - Replay(genesis, log, n).epoch
    ensures StopsBefore(Replay(genesis, log, n))
  {
    hide ApplyChosen, AppliedTotal, StopsBefore;
    if n == 0 {
      NothingAppliedYet(genesis);
    } else {
      ReplayedBefore(genesis, log, n);
      TotalCountsCommands(genesis, log, n - 1);
      var r := Replay(genesis, log, n - 1);
      ApplyingCounts(r, log[At(r)]);
    }
  }

  lemma NothingAppliedYet(genesis: Members)
    ensures AppliedTotal(Genesis(genesis)) == 0 && StopsBefore(Genesis(genesis))
  {
  }

  lemma ApplyingCounts(r: Progress, c: Command)
    requires StopsBefore(r)
    ensures var r' := ApplyChosen(r, c);
            StopsBefore(r') && AppliedTotal(r') == AppliedTotal(r) + if r'.epoch == r.epoch then 1 else 0
    ensures r.epoch <= ApplyChosen(r, c).epoch <= r.epoch + 1
  {
    StopsBelowKept(r.stops, r.stops[r.epoch := r.nextSlot], r.epoch);
    hide Apply, Remember, Skipped;
  }

  /** A log that led on this far did so all the way. */
  lemma ReplayedBefore(genesis: Members, log: Log, n: nat)
    requires n > 0 && At(Replay(genesis, log, n - 1)) in log
    ensures n > 1 ==> At(Replay(genesis, log, n - 2)) in log
  {
    hide ApplyChosen;
  }

  lemma {:induction false} StopsBelowKept(stops: map<nat, nat>, stops': map<nat, nat>, e: nat)
    requires forall x :: x < e ==> (x in stops' <==> x in stops) && (x in stops ==> stops'[x] == stops[x])
    ensures StopsBelow(stops', e) == StopsBelow(stops, e)
  {
    if e > 0 {
      StopsBelowKept(stops, stops', e - 1);
    }
  }

  /** Behind `base` nothing is kept, and from it on everything is. */
  ghost predicate KeepsFrom(disk: Disk, disk': Disk, base: Progress) {
    && disk'.snapshot == Some(base) && disk'.genesis == disk.genesis
    && (forall p :: p in disk'.chosen <==> p in disk.chosen && !Precedes(p, At(base)))
    && (forall p :: p in disk'.chosen ==> disk'.chosen[p] == disk.chosen[p])
    && (forall e: nat ::
          var l, l' := LedgerOf(disk.ledgers, e), LedgerOf(disk'.ledgers, e);
          && (e < base.epoch ==> l' == FRESH) && (e > base.epoch ==> l' == l)
          && (e == base.epoch ==>
                && l'.promised == l.promised
                && (forall s :: s in l'.accepted <==> s in l.accepted && base.nextSlot <= s)
                && (forall s :: s in l'.accepted ==> l'.accepted[s] == l.accepted[s])))
  }

  lemma CompactionKeepsFrom(disk: Disk, base: Progress)
    ensures KeepsFrom(disk, Compacted(disk, base), base)
  {
    var disk' := Compacted(disk, base);
    forall e: nat ensures LedgerOf(disk'.ledgers, e)
                          == if e < base.epoch then FRESH
                             else if e == base.epoch then Pruned(LedgerOf(disk.ledgers, e), base.nextSlot)
                             else LedgerOf(disk.ledgers, e)
    {
    }
  }

  /** A snapshot is taken exactly when as many slots as an interval were applied since the last one; the one
      before it becomes the base, and what lies behind that is forgotten. */
  lemma RotatesWhenDue(cl: Cluster, h: Happening)
    requires Enabled(cl, h) && h.event.Rotate?
    ensures h.id in Step(cl, h).nodes
    ensures var nd, nd' := cl.nodes[h.id], Step(cl, h).nodes[h.id];
            if AppliedTotal(nd.r) - nd.pendingTotal < cl.every then nd' == nd
            else
              && nd'.pending == Some(nd.r) && nd'.pendingTotal == AppliedTotal(nd.r)
              && nd' == nd.(disk := nd'.disk, pending := nd'.pending, pendingTotal := nd'.pendingTotal)
              && if nd.pending.Some? then KeepsFrom(nd.disk, nd'.disk, nd.pending.value) else nd'.disk == nd.disk
  {
    var nd := cl.nodes[h.id];
    if nd.pending.Some? {
      CompactionKeepsFrom(nd.disk, nd.pending.value);
    }
    hide Compacted, KeepsFrom, AppliedTotal;
  }

  /** A peer's snapshot is taken in exactly when it is what its message says and lies ahead; then nothing waits
      to become the base, and the replica stands where the snapshot and the log kept lead, never before it. */
  lemma InstallsWhenAhead(id: NodeId, nd: Node, m: Message)
    requires m.Snapshot?
    ensures var nd' := Handle(id, nd, m).node;
            if At(m.state) != Pos(m.atEpoch, m.atSlot) || !Precedes(At(nd.r), At(m.state)) then nd' == nd
            else
              && KeepsFrom(nd.disk, nd'.disk, m.state) && nd'.pending == None
              && nd'.r == Loaded(nd'.disk) && !Precedes(At(nd'.r), At(m.state)) && nd'.pendingTotal == AppliedTotal(nd'.r)
  {
    CompactionKeepsFrom(nd.disk, m.state);
    AdvanceStops(m.state, Compacted(nd.disk, m.state).chosen);
    hide Advance, MaxRound, AppliedTotal, KeepsFrom;
  }
}
