/** Snapshots of nodes that were never told the first voters (app/consensus/snapshots.py, replica.py:
    `install`): when a voter that installs one still knows who votes. */
module Joiners {
  import opened Ballots
  import opened StateMachines
  import opened Replays
  import opened Histories
  import opened Messages
  import opened Nodes
  import opened Clusters
  import opened Invariants
  import opened Recoveries
  import opened Steps
  import opened Safety

  /** A node that installs a snapshot sent in the cluster knows the voters of its epoch afterwards if and
      only if it was not left in epoch 0 by a snapshot that names no members. */
  lemma InstallKeepsVotersExactly(states: seq<Cluster>, run: Run, n: nat, i: NodeId, m: Message)
    requires Execution(states, run) && Sound(states, run) && n < |states|
    requires i in states[n].nodes && m in states[n].sent && m.Snapshot?
    requires Precedes(At(states[n].nodes[i].r), At(m.state))
    ensures var r, V := Installed(states[n].nodes[i], m.state).r, VotersOf(states[n]);
            && r.epoch in V
            && (r.members.Keys == V[r.epoch] <==> !(r.epoch == 0 && m.state.members == map[] && states[n].genesis != map[]))
  {
    hide Execution, Sound, Inv, VotersOf;
    RunKeeps(states, run, n);
    InvOfNode(states[n], i);
    hide LogOk, VotesOk, RoundOk, RoleOk, LocalOk, CampaignBinds;
    SentSnapshot(states[n], m);
    InstalledVoters(states[n], states[n].nodes[i], m.state);
  }

  lemma SentSnapshot(cl: Cluster, m: Message)
    requires Inv(cl) && m in cl.sent && m.Snapshot?
    ensures Faithful(cl.genesis, cl.log, m.state)
  {
    assert MessageOk(VotersOf(cl), cl, m);
    hide NodeOk, CampaignBinds, TestimonyOk, VotersOf, Faithful;
  }

  lemma InstalledVoters(cl: Cluster, nd: Node, snap: Progress)
    requires LogOk(cl, nd) && Faithful(cl.genesis, cl.log, snap) && Precedes(At(nd.r), At(snap))
    ensures var r, V := Installed(nd, snap).r, VotersOf(cl);
            && r.epoch in V
            && (r.members.Keys == V[r.epoch] <==> !(r.epoch == 0 && snap.members == map[] && cl.genesis != map[]))
  {
    var chosen := Compacted(nd.disk, snap).chosen;
    InstallKeepsLog(cl, nd, snap);
    MembersAreVoters(cl, Installed(nd, snap));
    FirstVotersAreGenesis(cl);
    AdvanceStops(snap, chosen);
    AdvanceIgnoresMembers(snap, snap.members, chosen);
    hide LogOk, Faithful, VotersOf, Advance, AppliedTotal, MaxRound;
  }

  lemma FirstVotersAreGenesis(cl: Cluster)
    ensures 0 in VotersOf(cl) && VotersOf(cl)[0] == cl.genesis.Keys
  {
    GenesisIsFaithful(cl.genesis, cl.log);
    assert Replay(cl.genesis, cl.log, 0) == Genesis(cl.genesis);
    VotersAreTheMembers(cl.genesis, cl.log, Genesis(cl.genesis));
  }

  const VOTERS: Members := map["a" := "", "b" := "", "c" := ""]

  /** A joiner that learned one no-op holds a snapshot without members; a voter that installs it knows no
      voters, answers no Prepare, and does not recover by starting again. */
  lemma JoinerSnapshotSilencesAVoter(b: Ballot)
    ensures var joiner := Committed(Restarted(Disk(None, map[], map[], None)), Pos(0, 0), Noop);
            var voter := Restarted(Disk(Some(VOTERS), map[], map[], None));
            var after := Installed(voter, joiner.r);
            && "a" in voter.r.members && Hears("a", voter, Prepare("b", 0, b, 0))
            && after.r.members == map[] && Restarted(after.disk).r.members == map[]
            && !Hears("a", after, Prepare("b", 0, b, 0))
  {
    hide MaxRound, AppliedTotal;
    var joiner := Committed(Restarted(Disk(None, map[], map[], None)), Pos(0, 0), Noop);
    assert map[Pos(0, 0) := Noop][Pos(0, 0)] == Noop;
    assert ApplyChosen(Genesis(map[]), Noop) == Genesis(map[]).(nextSlot := 1);
    assert Advance(Genesis(map[]).(nextSlot := 1), map[Pos(0, 0) := Noop]) == Genesis(map[]).(nextSlot := 1);
    assert joiner.r == Genesis(map[]).(nextSlot := 1);
    var voter := Restarted(Disk(Some(VOTERS), map[], map[], None));
    assert Compacted(voter.disk, joiner.r).chosen == map[];
  }
}
