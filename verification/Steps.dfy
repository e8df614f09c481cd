/** Every step keeps the invariant: first the steps that send nothing new. */
module Steps {
  import opened Ballots
  import opened StateMachines
  import opened Replays
  import opened Histories
  import opened Messages
  import opened Ledgers
  import opened Nodes
  import opened Clusters
  import opened Invariants
  import opened Recoveries

  /** The role is given up, or kept in the same epoch. */
  ghost predicate RoleKept(cl: Cluster, id: NodeId, nd: Node, nd': Node) {
    || nd'.role.Follower?
    || (&& nd'.role == nd.role && nd'.r.epoch == nd.r.epoch && nd.r.nextSlot <= nd'.r.nextSlot
        && nd.maxRound <= nd'.maxRound && CampaignBinds(cl, id, nd'))
  }

  lemma InvOfNode(cl: Cluster, id: NodeId)
    requires Inv(cl) && id in cl.nodes
    ensures var nd := cl.nodes[id];
            && LogOk(cl, nd) && VotesOk(cl, nd) && RoundOk(nd) && RoleOk(VotersOf(cl), cl, id, nd)
            && LocalOk(cl, nd) && CampaignBinds(cl, id, nd)
  {
    hide LogOk, VotesOk, RoundOk, RoleOk, LocalOk, CampaignBinds;
    assert NodeOk(VotersOf(cl), cl, id, cl.nodes[id]);
  }

  /** A step that sends nothing. */
  ghost predicate Silent(cl: Cluster, id: NodeId, nd': Node, cl': Cluster) {
    id in cl.nodes && cl' == After(cl, id, Quiet(nd'))
  }

  lemma SilentEvolves(cl: Cluster, id: NodeId, nd': Node, cl': Cluster)
    requires Silent(cl, id, nd', cl') && NodeMovesOn(cl.nodes[id], nd')
    ensures Evolves(id, cl, cl') && NoNewProposal(id, cl, cl')
    ensures VotersOf(cl') == VotersOf(cl) && Grows(VotersOf(cl), VotersOf(cl'))
    ensures id in cl'.nodes && cl'.nodes[id] == nd' && cl'.sent == cl.sent && cl'.testimony == cl.testimony
    ensures cl'.log == cl.log && cl'.genesis == cl.genesis
  {
    hide NodeMovesOn, Voters;
    assert cl'.log == cl.log;
  }

  lemma SilentRole(cl: Cluster, id: NodeId, nd': Node, cl': Cluster)
    requires Silent(cl, id, nd', cl') && NodeMovesOn(cl.nodes[id], nd')
    requires RoleOk(VotersOf(cl), cl, id, cl.nodes[id])
    requires RoleKept(cl, id, cl.nodes[id], nd')
    ensures RoleOk(VotersOf(cl'), cl', id, nd') && CampaignBinds(cl', id, nd')
  {
    hide Voters, VotersOf, CandidateOk, LeaderOk, NodeMovesOn, Evolves, After;
    SilentEvolves(cl, id, nd', cl');
    OrdersStay(id, cl, cl');
    if !nd'.role.Follower? {
      RoleStays(VotersOf(cl), VotersOf(cl'), id, cl, cl', id, cl.nodes[id], nd');
    }
  }

  lemma SilentStep(cl: Cluster, id: NodeId, nd': Node, cl': Cluster)
    requires Inv(cl) && Silent(cl, id, nd', cl') && NodeMovesOn(cl.nodes[id], nd')
    requires LogOk(cl, nd') && VotesOk(cl, nd') && RoundOk(nd') && LocalOk(cl, nd')
    requires RoleKept(cl, id, cl.nodes[id], nd')
    ensures Inv(cl')
  {
    hide VotersOf, LogOk, RoundOk, RoleOk, CampaignBinds, NodeMovesOn, Evolves, After, RoleKept, MessageOk,
      TestimonyOk, Decided;
    assert id in cl.nodes;
    InvOfNode(cl, id);
    SilentEvolves(cl, id, nd', cl');
    SilentRole(cl, id, nd', cl');
    LogStays(cl, cl', nd');
    StepKeepsInv(id, cl, cl');
  }

  lemma SameNodeMovesOn(nd: Node, nd': Node)
    requires nd'.r == nd.r && nd'.disk == nd.disk
    ensures NodeMovesOn(nd, nd')
  {
  }

  lemma YieldStep(cl: Cluster, id: NodeId)
    requires Inv(cl) && id in cl.nodes
    ensures Inv(After(cl, id, Quiet(StepDown(cl.nodes[id]))))
  {
    var nd := cl.nodes[id];
    SameNodeMovesOn(nd, StepDown(nd));
    SilentStep(cl, id, StepDown(nd), After(cl, id, Quiet(StepDown(nd))));
  }

  lemma HeartbeatStep(cl: Cluster, id: NodeId, ballot: Ballot, sender: NodeId)
    requires Inv(cl) && id in cl.nodes
    ensures Inv(After(cl, id, Quiet(HeardLeader(id, cl.nodes[id], ballot, sender))))
  {
    var nd := cl.nodes[id];
    var nd' := HeardLeader(id, nd, ballot, sender);
    SameNodeMovesOn(nd, nd');
    assert RoleKept(cl, id, nd, nd') by { assert CampaignBinds(cl, id, nd); }
    SilentStep(cl, id, nd', After(cl, id, Quiet(nd')));
  }

  /** What survives of the role and the queue when only the log or the snapshot moved. */
  ghost predicate OnlyLogMoved(nd: Node, nd': Node) {
    && nd'.local == nd.local
    && (|| nd'.role.Follower?
        || (nd'.role == nd.role && nd'.r.epoch == nd.r.epoch && nd.r.nextSlot <= nd'.r.nextSlot
            && nd'.maxRound == nd.maxRound))
  }

  lemma CompactedVotes(cl: Cluster, nd: Node, nd': Node, base: Progress)
    requires VotesOk(cl, nd) && nd'.disk == Compacted(nd.disk, base)
    ensures VotesOk(cl, nd')
  {
    forall e, s | s in LedgerOf(nd'.disk.ledgers, e).accepted
      ensures s in LedgerOf(nd.disk.ledgers, e).accepted
              && LedgerOf(nd.disk.ledgers, e).accepted[s] == LedgerOf(nd'.disk.ledgers, e).accepted[s]
              && LedgerOf(nd.disk.ledgers, e).promised == LedgerOf(nd'.disk.ledgers, e).promised
    {
      assert e in nd'.disk.ledgers;
    }
  }

  lemma RotatedVotes(cl: Cluster, nd: Node, every: nat)
    requires VotesOk(cl, nd) && RoundOk(nd) && InLine(nd)
    ensures var nd' := Rotated(nd, every);
            VotesOk(cl, nd') && RoundOk(nd') && OnlyLogMoved(nd, nd')
  {
    hide VotesOk, AppliedTotal;
    var nd' := Rotated(nd, every);
    if nd.pending.Some? && nd'.disk != nd.disk {
      CompactedVotes(cl, nd, nd', nd.pending.value);
    } else {
      SameVotes(cl, nd, nd');
    }
  }

  lemma SameLog(cl: Cluster, nd: Node, nd': Node)
    requires LogOk(cl, nd) && VotesOk(cl, nd) && LocalOk(cl, nd)
    requires nd'.disk == nd.disk && nd'.r == nd.r && nd'.pending == nd.pending && nd'.violated == nd.violated
    requires nd'.local == nd.local
    ensures LogOk(cl, nd') && VotesOk(cl, nd') && LocalOk(cl, nd')
  {
  }

  lemma SameVotes(cl: Cluster, nd: Node, nd': Node)
    requires VotesOk(cl, nd) && nd'.disk.ledgers == nd.disk.ledgers
    ensures VotesOk(cl, nd')
  {
  }

  lemma CommittedVotes(cl: Cluster, nd: Node, p: Pos, c: Command)
    requires VotesOk(cl, nd) && RoundOk(nd)
    ensures var nd' := Committed(nd, p, c);
            VotesOk(cl, nd') && RoundOk(nd') && OnlyLogMoved(nd, nd')
  {
    hide VotesOk;
    var nd' := Committed(nd, p, c);
    AdvanceStops(nd.r, nd.disk.chosen[p := c]);
    RoundCoversPromise(Own(nd'));
    SameVotes(cl, nd, nd');
  }

  lemma InstalledVotes(cl: Cluster, nd: Node, snap: Progress)
    requires VotesOk(cl, nd) && RoundOk(nd)
    ensures var nd' := Installed(nd, snap);
            VotesOk(cl, nd') && RoundOk(nd') && OnlyLogMoved(nd, nd')
  {
    hide VotesOk, AppliedTotal;
    var nd' := Installed(nd, snap);
    if Precedes(At(nd.r), At(snap)) {
      AdvanceStops(snap, Compacted(nd.disk, snap).chosen);
      RoundCoversPromise(Own(nd'));
      CompactedVotes(cl, nd, nd', snap);
    }
  }

  /** The log moved; the role is one the node may keep. */
  lemma LogMoveStep(cl: Cluster, id: NodeId, nd: Node, nd': Node, cl': Cluster)
    requires Inv(cl) && Silent(cl, id, nd', cl') && nd == cl.nodes[id].(local := nd.local)
    requires NodeMovesOn(nd, nd') && LogOk(cl, nd') && VotesOk(cl, nd') && RoundOk(nd') && LocalOk(cl, nd)
    requires OnlyLogMoved(nd, nd')
    requires OwnAcceptorBound(cl, id, nd) || (CampaignBinds(cl, id, nd) && nd'.r == nd.r)
    ensures Inv(cl')
  {
    hide LogOk, VotesOk, RoundOk, Inv, After, Bound;
    assert NodeMovesOn(cl.nodes[id], nd');
    assert RoleKept(cl, id, cl.nodes[id], nd');
    SilentStep(cl, id, nd', cl');
  }

  lemma RotateStep(cl: Cluster, id: NodeId)
    requires Inv(cl) && id in cl.nodes
    ensures Inv(After(cl, id, Quiet(Rotated(cl.nodes[id], cl.every))))
  {
    hide LogOk, VotesOk, RoundOk, RoleOk, LocalOk, CampaignBinds, Inv, Compacted, NodeMovesOn, OnlyLogMoved,
      AppliedTotal;
    InvOfNode(cl, id);
    var nd := cl.nodes[id];
    var nd' := Rotated(nd, cl.every);
    assert nd'.r == nd.r;
    InLineByLog(cl, nd);
    RotationMovesOn(nd, cl.every);
    RotationKeepsLog(cl, nd, cl.every);
    RotatedVotes(cl, nd, cl.every);
    LogMoveStep(cl, id, nd, nd', After(cl, id, Quiet(nd')));
  }

  lemma InLineByLog(cl: Cluster, nd: Node)
    requires LogOk(cl, nd)
    ensures InLine(nd)
  {
    BaseIsBehind(cl, nd);
  }

  lemma CrashStep(cl: Cluster, id: NodeId, voters: Option<Members>)
    requires Inv(cl) && id in cl.nodes && (voters == None || voters == Some(cl.genesis))
    ensures Inv(After(cl, id, Quiet(Restarted(Told(cl.nodes[id].disk, voters)))))
  {
    hide LogOk, VotesOk, RoleOk, LocalOk, CampaignBinds, Inv, NodeMovesOn, Loaded, AppliedTotal, MaxRound;
    InvOfNode(cl, id);
    var nd := cl.nodes[id];
    var nd' := Restarted(Told(nd.disk, voters));
    ToldKeepsLog(cl, nd, voters);
    SameVotes(cl, nd, nd');
    RoundCoversPromise(Own(nd'));
    EmptyQueue(cl, nd');
    SilentStep(cl, id, nd', After(cl, id, Quiet(nd')));
  }

  /** What storing a ledger changes, and what it leaves. */
  lemma StoredShape(disk: Disk, e: nat, l: Ledger)
    ensures var disk' := Stored(disk, e, l);
            && disk'.chosen == disk.chosen && disk'.snapshot == disk.snapshot && disk'.genesis == disk.genesis
            && LedgerOf(disk'.ledgers, e) == l
            && forall x :: x != e ==> LedgerOf(disk'.ledgers, x) == LedgerOf(disk.ledgers, x)
  {
  }

  /** A ledger that only promised or voted higher moves its node on. */
  lemma StoredMovesOn(nd: Node, nd': Node, l: Ledger)
    requires nd'.r == nd.r && nd'.disk == Stored(nd.disk, nd.r.epoch, l)
    requires AtMost(Own(nd).promised, l.promised)
    requires forall s :: s in Own(nd).accepted ==>
               s in l.accepted && AtMost(Own(nd).accepted[s].ballot, l.accepted[s].ballot)
    ensures NodeMovesOn(nd, nd') && Own(nd') == l && Floor(nd') == Floor(nd)
  {
    StoredShape(nd.disk, nd.r.epoch, l);
    hide Stored, AtMost;
  }

  lemma StoredLog(cl: Cluster, nd: Node, nd': Node, l: Ledger)
    requires LogOk(cl, nd) && nd'.r == nd.r && nd'.pending == nd.pending && nd'.violated == nd.violated
    requires nd'.disk == Stored(nd.disk, nd.r.epoch, l)
    ensures LogOk(cl, nd')
  {
    StoredShape(nd.disk, nd.r.epoch, l);
    hide Stored, Advance, Faithful;
    assert Start(nd'.disk) == Start(nd.disk);
  }

  lemma StoredVotes(cl: Cluster, nd: Node, nd': Node, l: Ledger)
    requires VotesOk(cl, nd) && nd'.disk == Stored(nd.disk, nd.r.epoch, l)
    requires forall s :: s in l.accepted ==>
               var v := l.accepted[s];
               Accept(v.ballot.node, nd.r.epoch, v.ballot, s, v.command) in cl.sent && AtMost(v.ballot, l.promised)
    ensures VotesOk(cl, nd')
  {
    StoredShape(nd.disk, nd.r.epoch, l);
    hide Stored, AtMost;
    forall e, s | s in LedgerOf(nd'.disk.ledgers, e).accepted
      ensures var k := LedgerOf(nd'.disk.ledgers, e);
              Accept(k.accepted[s].ballot.node, e, k.accepted[s].ballot, s, k.accepted[s].command) in cl.sent
              && AtMost(k.accepted[s].ballot, k.promised)
    {
      if e != nd.r.epoch {
        assert s in LedgerOf(nd.disk.ledgers, e).accepted;
      }
    }
  }

  /** The votes of its current epoch, seen through `Own`. */
  lemma OwnVotes(cl: Cluster, nd: Node)
    requires VotesOk(cl, nd)
    ensures forall s :: s in Own(nd).accepted ==>
              var v := Own(nd).accepted[s];
              Accept(v.ballot.node, nd.r.epoch, v.ballot, s, v.command) in cl.sent && AtMost(v.ballot, Own(nd).promised)
  {
    forall s | s in Own(nd).accepted
      ensures var v := Own(nd).accepted[s];
              Accept(v.ballot.node, nd.r.epoch, v.ballot, s, v.command) in cl.sent && AtMost(v.ballot, Own(nd).promised)
    {
      assert s in LedgerOf(nd.disk.ledgers, nd.r.epoch).accepted;
    }
  }

  /** Raising a promise keeps every vote at or below it. */
  lemma RaisedLedger(l: Ledger, b: Ballot)
    ensures AtMost(l.promised, Raised(l, b).promised) && Raised(l, b).accepted == l.accepted
    ensures !Less(b, l.promised) ==> Raised(l, b).promised == b
    ensures forall x :: AtMost(x, l.promised) ==> AtMost(x, Raised(l, b).promised)
    ensures forall x :: AtMost(x, x)
  {
    BallotsAreOrdered();
  }

  lemma RaisedPromise(cl: Cluster, nd: Node, ballot: Ballot)
    requires LogOk(cl, nd) && VotesOk(cl, nd)
    ensures var nd' := Restarted(WithPromise(nd, ballot));
            LogOk(cl, nd') && VotesOk(cl, nd') && NodeMovesOn(nd, nd') && nd'.r == nd.r
  {
    hide LogOk, VotesOk, NodeMovesOn, Stored, Raised, AtMost, Loaded, AppliedTotal, MaxRound;
    var l := Raised(Own(nd), ballot);
    RaisedLedger(Own(nd), ballot);
    OwnVotes(cl, nd);
    var stored := nd.(disk := WithPromise(nd, ballot));
    StoredLog(cl, nd, stored, l);
    StoredVotes(cl, nd, stored, l);
    RestartKeepsLog(cl, stored);
    SameVotes(cl, stored, Restarted(stored.disk));
    StoredMovesOn(nd, Restarted(stored.disk), l);
  }

  lemma TornAcceptStep(cl: Cluster, id: NodeId, ballot: Ballot)
    requires Inv(cl) && id in cl.nodes
    ensures Inv(After(cl, id, Quiet(Restarted(WithPromise(cl.nodes[id], ballot)))))
  {
    hide LogOk, VotesOk, RoleOk, LocalOk, CampaignBinds, Inv, NodeMovesOn, WithPromise;
    InvOfNode(cl, id);
    var nd := cl.nodes[id];
    var nd' := Restarted(WithPromise(nd, ballot));
    RaisedPromise(cl, nd, ballot);
    RoundCoversPromise(Own(nd'));
    EmptyQueue(cl, nd');
    SilentStep(cl, id, nd', After(cl, id, Quiet(nd')));
  }

  lemma EmptyQueue(cl: Cluster, nd: Node)
    requires nd.local == []
    ensures LocalOk(cl, nd)
  {
  }

  // messages that send nothing

  /** The node about to handle `m`, once `m` is off its own queue. */
  ghost predicate Ready(cl: Cluster, id: NodeId, nd: Node, m: Message) {
    && id in cl.nodes && nd == cl.nodes[id].(local := nd.local)
    && NodeOk(VotersOf(cl), cl, id, nd)
    && m in cl.sent
    && (OwnAcceptorBound(cl, id, nd) || AsksItselfBy(id, nd, m))
  }

  ghost predicate OwnAcceptorBound(cl: Cluster, id: NodeId, nd: Node) {
    nd.role.Candidate? ==> Bound(cl, id, nd.r.epoch, nd.role.campaign.ballot)
  }

  /** `m` is the node's own Prepare for the campaign under way. */
  ghost predicate AsksItselfBy(id: NodeId, nd: Node, m: Message) {
    && nd.role.Candidate? && id in nd.r.members
    && exists from :: m == Prepare(id, nd.r.epoch, nd.role.campaign.ballot, from)
  }

  lemma ReadyGives(cl: Cluster, id: NodeId, nd: Node, m: Message)
    requires Inv(cl) && Ready(cl, id, nd, m)
    ensures LogOk(cl, nd) && VotesOk(cl, nd) && RoundOk(nd) && RoleOk(VotersOf(cl), cl, id, nd) && LocalOk(cl, nd)
    ensures MessageOk(VotersOf(cl), cl, m)
    ensures !m.Prepare? ==> OwnAcceptorBound(cl, id, nd) && CampaignBinds(cl, id, nd)
    ensures OwnAcceptorBound(cl, id, nd) || AsksItselfBy(id, nd, m)
  {
    hide LogOk, VotesOk, RoundOk, RoleOk, LocalOk, MessageOk, Bound;
  }

  lemma CommitStep(cl: Cluster, id: NodeId, nd: Node, m: Message, cl': Cluster)
    requires Inv(cl) && Ready(cl, id, nd, m) && m.Commit?
    requires cl' == After(cl, id, Quiet(Committed(nd, Pos(m.epoch, m.slot), m.command)))
    ensures Inv(cl')
  {
    hide LogOk, VotesOk, RoundOk, RoleOk, LocalOk, CampaignBinds, Inv, Committed, NodeMovesOn, OnlyLogMoved;
    ReadyGives(cl, id, nd, m);
    var p := Pos(m.epoch, m.slot);
    CommitKeepsLog(cl, nd, p, m.command);
    CommitMovesOn(nd, p, m.command);
    CommittedVotes(cl, nd, p, m.command);
    LogMoveStep(cl, id, nd, Committed(nd, p, m.command), cl');
  }

  lemma SnapshotStep(cl: Cluster, id: NodeId, nd: Node, m: Message, cl': Cluster)
    requires Inv(cl) && Ready(cl, id, nd, m) && m.Snapshot?
    requires cl' == After(cl, id, Quiet(OnSnapshot(nd, m)))
    ensures Inv(cl')
  {
    hide LogOk, VotesOk, RoundOk, RoleOk, LocalOk, CampaignBinds, Inv, Installed;
    ReadyGives(cl, id, nd, m);
    InstallKeepsLog(cl, nd, m.state);
    InstalledVotes(cl, nd, m.state);
    SameNodeMovesOn(nd, nd);
    LogMoveStep(cl, id, nd, OnSnapshot(nd, m), cl');
  }

  lemma NackStep(cl: Cluster, id: NodeId, nd: Node, m: Message, cl': Cluster)
    requires Inv(cl) && Ready(cl, id, nd, m) && m.Nack?
    requires cl' == After(cl, id, Quiet(OnNack(nd, m)))
    ensures Inv(cl')
  {
    hide LogOk, VotesOk, RoleOk, LocalOk, MessageOk, Inv, NodeMovesOn, Bound;
    ReadyGives(cl, id, nd, m);
    SameNodeMovesOn(cl.nodes[id], OnNack(nd, m));
    SameLog(cl, nd, OnNack(nd, m));
    SilentStep(cl, id, OnNack(nd, m), cl');
  }

  lemma IgnoredStep(cl: Cluster, id: NodeId, nd: Node, m: Message, cl': Cluster)
    requires Inv(cl) && Ready(cl, id, nd, m) && CampaignBinds(cl, id, nd)
    requires cl' == After(cl, id, Quiet(nd))
    ensures Inv(cl')
  {
    SameNodeMovesOn(nd, nd);
    hide LogOk, VotesOk, RoundOk, RoleOk, LocalOk, CampaignBinds, Inv;
    LogMoveStep(cl, id, nd, nd, cl');
  }
}
