/** Stable storage and the replica in memory tell the same story: committing, taking snapshots,
    compacting, installing a peer's snapshot and restarting all keep "what a restart would rebuild"
    equal to what is running, and keep it on the agreed log. */
module Recoveries {
  import opened Ballots
  import opened StateMachines
  import opened Replays
  import opened Histories
  import opened Ledgers
  import opened Nodes
  import opened Clusters
  import opened Invariants

  /** Snapshot plus suffix is full replay: a replica that stood where some of a log led, and restores
      that over what the compacted log still holds, ends where the whole log leads from the start. */
  lemma SnapshotPlusSuffix(start: Progress, some: Log, log: Log)
    requires Extends(log, some)
    ensures var base := Advance(start, some);
            Advance(base, DropBelow(log, At(base))) == Advance(start, log)
  {
    var base := Advance(start, some);
    AdvanceInTwoSteps(start, some, log);
    AdvanceIgnoresThePast(base, log, At(base));
  }

  /** What `LogOk` asks of a replica standing at `r` over `chosen`. */
  ghost predicate Rebuilds(cl: Cluster, disk: Disk, r: Progress) {
    && Extends(cl.log, disk.chosen)
    && Faithful(cl.genesis, cl.log, r)
    && r == Loaded(disk)
  }

  lemma LongerLogRebuilds(cl: Cluster, disk: Disk, r: Progress, chosen: Log)
    requires Rebuilds(cl, disk, r) && Extends(chosen, disk.chosen) && Extends(cl.log, chosen)
    ensures Rebuilds(cl, disk.(chosen := chosen), Advance(r, chosen))
  {
    AdvanceInTwoSteps(Start(disk), disk.chosen, chosen);
    AdvanceIsFaithful(cl.genesis, cl.log, r, chosen);
    assert Start(disk.(chosen := chosen)) == Start(disk);
  }

  lemma CommitKeepsLog(cl: Cluster, nd: Node, p: Pos, c: Command)
    requires LogOk(cl, nd) && p in cl.log && cl.log[p] == c
    ensures LogOk(cl, Committed(nd, p, c))
  {
    if p !in nd.disk.chosen && !Precedes(p, At(nd.r)) {
      var chosen := nd.disk.chosen[p := c];
      LongerLogRebuilds(cl, nd.disk, nd.r, chosen);
      if nd.pending.Some? { AdvanceInTwoSteps(nd.pending.value, nd.disk.chosen, chosen); }
      var nd' := Committed(nd, p, c);
      assert nd'.disk == nd.disk.(chosen := chosen) && nd'.r == Advance(nd.r, chosen) && nd'.pending == nd.pending;
    }
  }

  lemma CommitMovesOn(nd: Node, p: Pos, c: Command)
    ensures NodeMovesOn(nd, Committed(nd, p, c))
  {
    AdvanceStops(nd.r, nd.disk.chosen[p := c]);
  }

  /** The base never moves back, and is never ahead of what is applied. */
  lemma BaseIsBehind(cl: Cluster, nd: Node)
    requires LogOk(cl, nd)
    ensures nd.disk.snapshot.Some? ==> !Precedes(At(nd.r), At(nd.disk.snapshot.value))
    ensures nd.pending.Some? ==> !Precedes(At(nd.r), At(nd.pending.value))
    ensures At(nd.r) !in nd.disk.chosen
  {
    AdvanceStops(Start(nd.disk), nd.disk.chosen);
    if nd.pending.Some? { AdvanceStops(nd.pending.value, nd.disk.chosen); }
  }

  lemma CompactionMovesOn(nd: Node, nd': Node, base: Progress)
    requires nd'.disk == Compacted(nd.disk, base) && !Precedes(At(nd'.r), At(nd.r))
    requires !Precedes(At(nd'.r), At(base))
    requires nd.disk.snapshot.Some? ==> !Precedes(At(base), At(nd.disk.snapshot.value))
    ensures NodeMovesOn(nd, nd')
  {
    if nd'.r.epoch == nd.r.epoch {
      assert base.epoch <= nd.r.epoch;
    }
  }

  lemma CompactionRebuilds(cl: Cluster, disk: Disk, r: Progress, base: Progress)
    requires Rebuilds(cl, disk, r) && Advance(base, disk.chosen) == r
    ensures Rebuilds(cl, Compacted(disk, base), r)
  {
    AdvanceIgnoresThePast(base, disk.chosen, At(base));
  }

  lemma RotationKeepsLog(cl: Cluster, nd: Node, every: nat)
    requires LogOk(cl, nd)
    ensures LogOk(cl, Rotated(nd, every))
  {
    hide AppliedTotal;
    BaseIsBehind(cl, nd);
    var nd' := Rotated(nd, every);
    if nd.pending.Some? && nd' != nd {
      CompactionRebuilds(cl, nd.disk, nd.r, nd.pending.value);
      assert nd'.disk == Compacted(nd.disk, nd.pending.value) && nd'.r == nd.r;
      assert At(nd.r) !in nd'.disk.chosen;
      assert Advance(nd.r, nd'.disk.chosen) == nd.r;
      assert nd'.pending == Some(nd.r);
    }
  }

  /** The places of the base, of the waiting snapshot and of the replica, in this order. */
  ghost predicate InLine(nd: Node) {
    && (nd.disk.snapshot.Some? ==> !Precedes(At(nd.r), At(nd.disk.snapshot.value)))
    && (nd.pending.Some? ==>
          && !Precedes(At(nd.r), At(nd.pending.value))
          && (nd.disk.snapshot.Some? ==> !Precedes(At(nd.pending.value), At(nd.disk.snapshot.value))))
  }

  lemma RotationMovesOn(nd: Node, every: nat)
    requires InLine(nd)
    ensures NodeMovesOn(nd, Rotated(nd, every))
  {
    BallotsAreOrdered();
    var nd' := Rotated(nd, every);
    if nd.pending.Some? && nd'.disk != nd.disk {
      CompactionMovesOn(nd, nd', nd.pending.value);
    }
  }

  lemma InstallKeepsLog(cl: Cluster, nd: Node, snap: Progress)
    requires LogOk(cl, nd) && Faithful(cl.genesis, cl.log, snap)
    ensures LogOk(cl, Installed(nd, snap))
    ensures NodeMovesOn(nd, Installed(nd, snap))
  {
    BaseIsBehind(cl, nd);
    if Precedes(At(nd.r), At(snap)) {
      var disk := Compacted(nd.disk, snap);
      AdvanceIsFaithful(cl.genesis, cl.log, snap, disk.chosen);
      AdvanceStops(snap, disk.chosen);
      var nd' := Installed(nd, snap);
      CompactionMovesOn(nd, nd', snap);
    }
  }

  lemma RestartKeepsLog(cl: Cluster, nd: Node)
    requires LogOk(cl, nd)
    ensures LogOk(cl, Restarted(nd.disk))
    ensures Restarted(nd.disk).r == nd.r
    ensures NodeMovesOn(nd, Restarted(nd.disk))
  {
    hide MaxRound, AppliedTotal;
    BallotsAreOrdered();
  }

  /** Two replicas that differ only in the members they start from go through the same places, and in
      the same members once an epoch was sealed. */
  lemma {:induction false} AdvanceIgnoresMembers(r: Progress, members: Members, log: Log)
    ensures var end, other := Advance(r, log), Advance(r.(members := members), log);
            if end.epoch == r.epoch then other == end.(members := members) && end.members == r.members else other == end
    decreases |Ahead(log, At(r))|
  {
    AdvanceStops(r, log);
    if At(r) in log {
      AheadShrinks(log, r);
      var c := log[At(r)];
      MembersDoNotMatter(r, c, members);
      AdvanceStops(ApplyChosen(r, c), log);
      AdvanceIgnoresMembers(ApplyChosen(r, c), members, log);
    }
  }

  /** Where a process stands that is started again and told the first voters. */
  lemma ToldStandsThere(disk: Disk, voters: Option<Members>)
    ensures var r, r' := Loaded(disk), Loaded(Told(disk, voters));
            r' == r.(members := r'.members) && (r.epoch > 0 || disk.snapshot.Some? || disk.genesis.Some? ==> r' == r)
  {
    if disk.genesis.None? && voters.Some? && disk.snapshot.None? {
      AdvanceIgnoresMembers(Genesis(map[]), voters.value, disk.chosen);
    }
  }

  lemma ToldKeepsLog(cl: Cluster, nd: Node, voters: Option<Members>)
    requires LogOk(cl, nd) && (voters == None || voters == Some(cl.genesis))
    ensures LogOk(cl, Restarted(Told(nd.disk, voters)))
    ensures NodeMovesOn(nd, Restarted(Told(nd.disk, voters)))
  {
    hide MaxRound, AppliedTotal, Faithful, Advance, Extends;
    var disk := Told(nd.disk, voters);
    assert disk.ledgers == nd.disk.ledgers && disk.chosen == nd.disk.chosen && disk.snapshot == nd.disk.snapshot;
    ToldStandsThere(nd.disk, voters);
    GenesisIsFaithful(cl.genesis, cl.log);
    AdvanceIsFaithful(cl.genesis, cl.log, Start(disk), disk.chosen);
    ToldMovesOn(nd, Restarted(disk));
  }

  lemma ToldMovesOn(nd: Node, nd': Node)
    requires At(nd'.r) == At(nd.r) && nd'.disk.ledgers == nd.disk.ledgers && nd'.disk.snapshot == nd.disk.snapshot
    ensures NodeMovesOn(nd, nd')
  {
    BallotsAreOrdered();
  }

  /** A node's members are the voters of its epoch, unless it does not know the first ones yet. */
  lemma MembersAreVoters(cl: Cluster, nd: Node)
    requires LogOk(cl, nd)
    ensures nd.r.epoch in VotersOf(cl)
    ensures nd.r.members.Keys == VotersOf(cl)[nd.r.epoch] || (nd.r.epoch == 0 && nd.r.members == map[])
  {
    if Reached(cl.genesis, cl.log, nd.r) {
      VotersAreTheMembers(cl.genesis, cl.log, nd.r);
    } else {
      VotersAreTheMembers(cl.genesis, cl.log, nd.r.(members := cl.genesis));
    }
  }

  lemma RoundCoversPromise(l: Ledger)
    ensures l.promised.round <= MaxRound(l)
  {
  }
}
