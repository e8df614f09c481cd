/** What every node keeps by itself, in every run, whichever promises were counted: its memory is what
    its disk rebuilds, its replies bind it, and its ballots are led once. */
module Locals {
  import opened Ballots
  import opened StateMachines
  import opened Replays
  import opened Messages
  import opened Ledgers
  import opened Proposals
  import opened Nodes
  import opened Clusters
  import opened Invariants
  import opened Recoveries
  import opened Steps
  import opened Voting
  import opened Counting
  import opened Elections

  /** The replica stands where a restart would put it, and where its waiting snapshot leads. */
  ghost predicate Rebuilt(nd: Node) {
    && nd.r == Loaded(nd.disk)
    && (nd.pending.Some? ==>
          && Advance(nd.pending.value, nd.disk.chosen) == nd.r
          && (nd.disk.snapshot.Some? ==> !Precedes(At(nd.pending.value), At(nd.disk.snapshot.value))))
  }

  /** What having said `m` binds its sender to. */
  ghost predicate Binds(cl: Cluster, m: Message) {
    match m
    case Promise(a, e, b, _) => Bound(cl, a, e, b)
    case Accepted(a, e, b, s) => Bound(cl, a, e, b) && Kept(cl, a, e, b, s)
    case Accept(x, e, b, _, _) => x == b.node && Bound(cl, x, e, b)
    case _ => true
  }

  /** A ballot is the node's own; a candidate's was never proposed under, a leader's only below its
      free slot. */
  ghost predicate PostOk(cl: Cluster, id: NodeId, nd: Node) {
    match nd.role
    case Follower => true
    case Candidate(c) =>
      && c.ballot.node == id && c.ballot.round <= nd.maxRound
      && forall s, cmd :: Accept(id, nd.r.epoch, c.ballot, s, cmd) !in cl.sent
    case Leader(l) =>
      && l.ballot.node == id && Bound(cl, id, nd.r.epoch, l.ballot)
      && (forall s: nat, cmd :: Accept(id, nd.r.epoch, l.ballot, s, cmd) in cl.sent ==> s < l.nextFree)
      && (forall s :: s in l.inflight ==> Accept(id, nd.r.epoch, l.ballot, s, l.inflight[s].command) in cl.sent)
  }

  ghost predicate OwnOk(cl: Cluster, id: NodeId, nd: Node) {
    Rebuilt(nd) && VotesOk(cl, nd) && RoundOk(nd) && PostOk(cl, id, nd) && LocalOk(cl, nd)
  }

  ghost predicate LocalInv(cl: Cluster) {
    && (forall m :: m in cl.sent ==> Binds(cl, m))
    && (forall id :: id in cl.nodes ==> OwnOk(cl, id, cl.nodes[id]) && CampaignBinds(cl, id, cl.nodes[id]))
    && OneProposal(cl.sent)
  }

  // what a step leaves in order

  lemma BindingsStay(id: NodeId, cl: Cluster, cl': Cluster)
    requires Evolves(id, cl, cl')
    ensures forall m :: Binds(cl, m) ==> Binds(cl', m)
  {
    OrdersStay(id, cl, cl');
    hide Evolves, Bound, Kept;
  }

  /** A role kept in its epoch stays in order while its node proposes nothing new. */
  lemma PostStays(id: NodeId, cl: Cluster, cl': Cluster, x: NodeId, nd: Node, nd': Node)
    requires Evolves(id, cl, cl') && PostOk(cl, x, nd) && NoNewProposal(x, cl, cl')
    requires nd'.role == nd.role && nd'.r.epoch == nd.r.epoch && nd.maxRound <= nd'.maxRound
    ensures PostOk(cl', x, nd')
  {
    OrdersStay(id, cl, cl');
    assert cl.sent <= cl'.sent;
    hide Evolves, Bound;
  }

  lemma OthersStay(id: NodeId, cl: Cluster, cl': Cluster, x: NodeId)
    requires LocalInv(cl) && Evolves(id, cl, cl') && x in cl.nodes && x != id
    ensures OwnOk(cl', x, cl'.nodes[x]) && CampaignBinds(cl', x, cl'.nodes[x])
  {
    var nd := cl.nodes[x];
    assert OwnOk(cl, x, nd) && CampaignBinds(cl, x, nd);
    assert NoNewProposal(x, cl, cl');
    PostStays(id, cl, cl', x, nd, nd);
    OrdersStay(id, cl, cl');
    VotesStay(cl, cl', nd);
    hide PostOk, Rebuilt, VotesOk, LocalOk, Bound, AsksItself;
  }

  /** What is left to show of a step. */
  lemma FinishLocally(cl: Cluster, id: NodeId, o: Effect, cl': Cluster)
    requires LocalInv(cl) && cl' == After(cl, id, o) && Evolves(id, cl, cl')
    requires OwnOk(cl', id, o.node) && CampaignBinds(cl', id, o.node)
    requires forall m :: m in o.sent ==> Binds(cl', m)
    requires OneProposal(cl'.sent)
    ensures LocalInv(cl')
  {
    BindingsStay(id, cl, cl');
    hide OwnOk, CampaignBinds, Binds, Evolves;
    assert id in cl.nodes && cl'.nodes[id] == o.node && cl'.sent == cl.sent + o.sent && cl'.nodes.Keys == cl.nodes.Keys by {
      assert Evolves(id, cl, cl');
    }
    forall x | x in cl'.nodes ensures OwnOk(cl', x, cl'.nodes[x]) && CampaignBinds(cl', x, cl'.nodes[x]) {
      if x != id {
        OthersStay(id, cl, cl', x);
      }
    }
  }

  // what memory and disk hold

  lemma RebuiltInLine(nd: Node)
    requires Rebuilt(nd)
    ensures InLine(nd) && At(nd.r) !in nd.disk.chosen
  {
    AdvanceStops(Start(nd.disk), nd.disk.chosen);
    if nd.pending.Some? {
      AdvanceStops(nd.pending.value, nd.disk.chosen);
    }
  }

  lemma SameDiskRebuilt(nd: Node, nd': Node)
    requires Rebuilt(nd) && nd'.r == nd.r && nd'.pending == nd.pending
    requires nd'.disk.genesis == nd.disk.genesis && nd'.disk.chosen == nd.disk.chosen && nd'.disk.snapshot == nd.disk.snapshot
    ensures Rebuilt(nd')
  {
    assert Start(nd'.disk) == Start(nd.disk);
    hide Advance, Start;
  }

  lemma CommitRebuilt(nd: Node, p: Pos, c: Command)
    requires Rebuilt(nd)
    ensures Rebuilt(Committed(nd, p, c))
  {
    hide MaxRound, Advance;
    if p !in nd.disk.chosen && !Precedes(p, At(nd.r)) {
      var chosen := nd.disk.chosen[p := c];
      AdvanceInTwoSteps(Start(nd.disk), nd.disk.chosen, chosen);
      if nd.pending.Some? {
        AdvanceInTwoSteps(nd.pending.value, nd.disk.chosen, chosen);
      }
      assert Start(nd.disk.(chosen := chosen)) == Start(nd.disk);
    }
  }

  lemma RotationRebuilt(nd: Node, every: nat)
    requires Rebuilt(nd)
    ensures Rebuilt(Rotated(nd, every))
  {
    hide AppliedTotal;
    RebuiltInLine(nd);
    var nd' := Rotated(nd, every);
    if nd.pending.Some? && nd' != nd {
      AdvanceIgnoresThePast(nd.pending.value, nd.disk.chosen, At(nd.pending.value));
      assert nd'.disk == Compacted(nd.disk, nd.pending.value) && nd'.r == nd.r && nd'.pending == Some(nd.r);
      assert At(nd.r) !in nd'.disk.chosen;
    }
  }

  lemma InstallRebuilt(nd: Node, snap: Progress)
    requires Rebuilt(nd)
    ensures Rebuilt(Installed(nd, snap)) && NodeMovesOn(nd, Installed(nd, snap))
  {
    hide AppliedTotal, MaxRound;
    RebuiltInLine(nd);
    if Precedes(At(nd.r), At(snap)) {
      AdvanceStops(snap, Compacted(nd.disk, snap).chosen);
      CompactionMovesOn(nd, Installed(nd, snap), snap);
    } else {
      SameNodeMovesOn(nd, Installed(nd, snap));
    }
  }

  lemma RestartRebuilt(nd: Node, disk: Disk)
    ensures Rebuilt(Restarted(disk))
  {
  }

  // steps that propose nothing

  lemma TalkLocally(cl: Cluster, id: NodeId, o: Effect, cl': Cluster)
    requires LocalInv(cl) && id in cl.nodes && cl' == After(cl, id, o) && NodeMovesOn(cl.nodes[id], o.node)
    requires forall a, e, b, s :: Accepted(a, e, b, s) in o.sent ==>
               a == id && cl.nodes[id].r.epoch == e && AtMost(Own(cl.nodes[id]).promised, b)
    requires forall m :: m in o.sent ==> !m.Accept? && Binds(cl', m)
    requires Rebuilt(o.node) && VotesOk(cl, o.node) && RoundOk(o.node) && LocalOk(cl', o.node)
    requires PostOk(cl, id, o.node) && CampaignBinds(cl', id, o.node)
    ensures LocalInv(cl')
  {
    hide LocalInv, NodeMovesOn, Rebuilt, VotesOk, LocalOk, PostOk, CampaignBinds, VotersOf, Binds;
    SpeakingEvolves(cl, id, o, cl');
    PostStays(id, cl, cl', id, o.node, o.node);
    VotesStay(cl, cl', o.node);
    OnceStill(cl, id, o, cl');
    hide Evolves, After;
    FinishLocally(cl, id, o, cl');
  }

  lemma OnceStill(cl: Cluster, id: NodeId, o: Effect, cl': Cluster)
    requires LocalInv(cl) && cl' == After(cl, id, o) && forall m :: m in o.sent ==> !m.Accept?
    ensures OneProposal(cl'.sent) && NoNewProposal(id, cl, cl')
  {
    hide OwnOk, CampaignBinds, Binds;
    assert forall m :: m in cl'.sent && m.Accept? ==> m in cl.sent;
  }

  /** A step that sends nothing. */
  lemma SilentLocally(cl: Cluster, id: NodeId, nd': Node, cl': Cluster)
    requires LocalInv(cl) && id in cl.nodes && cl' == After(cl, id, Quiet(nd')) && NodeMovesOn(cl.nodes[id], nd')
    requires Rebuilt(nd') && VotesOk(cl, nd') && RoundOk(nd') && LocalOk(cl, nd')
    requires PostOk(cl, id, nd') && CampaignBinds(cl, id, nd')
    ensures LocalInv(cl')
  {
    hide LocalInv, NodeMovesOn, Rebuilt, VotesOk, PostOk, CampaignBinds;
    SilentEvolves(cl, id, nd', cl');
    BindingStays(id, cl, cl', nd');
    hide Evolves;
    TalkLocally(cl, id, Quiet(nd'), cl');
  }

  lemma KeptPost(cl: Cluster, id: NodeId, nd: Node, nd': Node)
    requires PostOk(cl, id, nd)
    requires nd'.role.Follower? || (nd'.role == nd.role && nd'.r.epoch == nd.r.epoch && nd.maxRound <= nd'.maxRound)
    ensures PostOk(cl, id, nd')
  {
    hide Bound;
  }

  lemma LocalOfNode(cl: Cluster, id: NodeId)
    requires LocalInv(cl) && id in cl.nodes
    ensures OwnOk(cl, id, cl.nodes[id]) && CampaignBinds(cl, id, cl.nodes[id])
  {
    hide OwnOk, CampaignBinds, Binds;
  }

  lemma YieldLocally(cl: Cluster, id: NodeId)
    requires LocalInv(cl) && id in cl.nodes
    ensures LocalInv(After(cl, id, Quiet(StepDown(cl.nodes[id]))))
  {
    hide LocalInv, Rebuilt, VotesOk, CampaignBinds, NodeMovesOn, PostOk;
    LocalOfNode(cl, id);
    var nd := cl.nodes[id];
    var nd' := StepDown(nd);
    SameNodeMovesOn(nd, nd');
    SameDiskRebuilt(nd, nd');
    SameVotes(cl, nd, nd');
    KeptPost(cl, id, nd, nd');
    assert CampaignBinds(cl, id, nd') by { FollowersBind(cl, id, nd'); }
    SilentLocally(cl, id, nd', After(cl, id, Quiet(nd')));
  }

  lemma FollowersBind(cl: Cluster, id: NodeId, nd: Node)
    requires !nd.role.Candidate?
    ensures CampaignBinds(cl, id, nd)
  {
  }

  /** A campaign that goes on in its epoch is bound as before. */
  lemma CampaignStays(cl: Cluster, id: NodeId, nd: Node, nd': Node)
    requires CampaignBinds(cl, id, nd) && HeadKept(nd, nd')
    requires nd'.role.Follower? || (nd'.role == nd.role && nd'.r == nd.r)
    ensures CampaignBinds(cl, id, nd')
  {
    hide Bound;
  }

  lemma HeartbeatLocally(cl: Cluster, id: NodeId, ballot: Ballot, sender: NodeId)
    requires LocalInv(cl) && id in cl.nodes
    ensures LocalInv(After(cl, id, Quiet(HeardLeader(id, cl.nodes[id], ballot, sender))))
  {
    hide LocalInv, Rebuilt, VotesOk, CampaignBinds, NodeMovesOn, PostOk;
    LocalOfNode(cl, id);
    var nd := cl.nodes[id];
    var nd' := HeardLeader(id, nd, ballot, sender);
    SameNodeMovesOn(nd, nd');
    SameDiskRebuilt(nd, nd');
    SameVotes(cl, nd, nd');
    KeptPost(cl, id, nd, nd');
    CampaignStays(cl, id, nd, nd');
    SilentLocally(cl, id, nd', After(cl, id, Quiet(nd')));
  }

  lemma RotateLocally(cl: Cluster, id: NodeId)
    requires LocalInv(cl) && id in cl.nodes
    ensures LocalInv(After(cl, id, Quiet(Rotated(cl.nodes[id], cl.every))))
  {
    hide LocalInv, Rebuilt, VotesOk, CampaignBinds, NodeMovesOn, PostOk, Rotated, RoundOk;
    LocalOfNode(cl, id);
    var nd := cl.nodes[id];
    var nd' := Rotated(nd, cl.every);
    RebuiltInLine(nd);
    RotationMovesOn(nd, cl.every);
    RotationRebuilt(nd, cl.every);
    RotatedVotes(cl, nd, cl.every);
    RotationStands(nd, cl.every);
    KeptPost(cl, id, nd, nd');
    CampaignStays(cl, id, nd, nd');
    SilentLocally(cl, id, nd', After(cl, id, Quiet(nd')));
  }

  lemma RotationStands(nd: Node, every: nat)
    ensures var nd' := Rotated(nd, every); nd'.r == nd.r && nd'.role == nd.role && nd'.local == nd.local && nd'.maxRound == nd.maxRound
  {
    hide AppliedTotal;
  }

  lemma RestartLocally(cl: Cluster, id: NodeId, disk: Disk)
    requires LocalInv(cl) && id in cl.nodes && NodeMovesOn(cl.nodes[id], Restarted(disk))
    requires VotesOk(cl, Restarted(disk))
    ensures LocalInv(After(cl, id, Quiet(Restarted(disk))))
  {
    hide LocalInv, VotesOk, NodeMovesOn, Loaded, AppliedTotal, MaxRound;
    var nd' := Restarted(disk);
    RestartRebuilt(cl.nodes[id], disk);
    RoundCoversPromise(Own(nd'));
    EmptyQueue(cl, nd');
    SilentLocally(cl, id, nd', After(cl, id, Quiet(nd')));
  }

  lemma CrashLocally(cl: Cluster, id: NodeId, voters: Option<Members>)
    requires LocalInv(cl) && id in cl.nodes
    ensures LocalInv(After(cl, id, Quiet(Restarted(Told(cl.nodes[id].disk, voters)))))
  {
    hide LocalInv, VotesOk, CampaignBinds, NodeMovesOn, PostOk, Loaded, AppliedTotal, MaxRound;
    LocalOfNode(cl, id);
    var nd := cl.nodes[id];
    var disk := Told(nd.disk, voters);
    ToldStandsThere(nd.disk, voters);
    ToldMovesOn(nd, Restarted(disk));
    SameVotes(cl, nd, Restarted(disk));
    RestartLocally(cl, id, disk);
  }

  lemma TornAcceptLocally(cl: Cluster, id: NodeId, ballot: Ballot)
    requires LocalInv(cl) && id in cl.nodes
    ensures LocalInv(After(cl, id, Quiet(Restarted(WithPromise(cl.nodes[id], ballot)))))
  {
    hide LocalInv, VotesOk, CampaignBinds, NodeMovesOn, PostOk, Stored, Raised, AtMost, AppliedTotal, MaxRound;
    LocalOfNode(cl, id);
    var nd := cl.nodes[id];
    var l := Raised(Own(nd), ballot);
    RaisedLedger(Own(nd), ballot);
    OwnVotes(cl, nd);
    StoredShape(nd.disk, nd.r.epoch, l);
    var nd' := Restarted(WithPromise(nd, ballot));
    assert nd'.r == nd.r by {
      assert Start(nd'.disk) == Start(nd.disk);
      hide Advance;
    }
    StoredVotes(cl, nd, nd', l);
    StoredMovesOn(nd, nd', l);
    RestartLocally(cl, id, WithPromise(nd, ballot));
  }

  lemma AnswerLocally(cl: Cluster, id: NodeId, p: Pos, cl': Cluster)
    requires LocalInv(cl) && id in cl.nodes
    requires cl' == After(cl, id, Quiet(cl.nodes[id]).(sent := Serve(id, cl.nodes[id], p)))
    ensures LocalInv(cl')
  {
    hide LocalInv, Rebuilt, VotesOk, NodeMovesOn, PostOk, Evolves;
    LocalOfNode(cl, id);
    var nd := cl.nodes[id];
    var o := Quiet(nd).(sent := Serve(id, nd, p));
    SameNodeMovesOn(nd, nd);
    VotesStay(cl, cl', nd);
    SpeakingEvolves(cl, id, o, cl');
    BindingStays(id, cl, cl', nd);
    TalkLocally(cl, id, o, cl');
  }

  // campaigning

  /** Rounds only grow, also over a crash: every ballot a node proposed under in its epoch is at or
      below the round it counts on from. */
  lemma UsedRounds(cl: Cluster, id: NodeId, b: Ballot, s: nat, c: Command)
    requires LocalInv(cl) && id in cl.nodes && b.node == id && Accept(id, cl.nodes[id].r.epoch, b, s, c) in cl.sent
    ensures b.round <= cl.nodes[id].maxRound
  {
    LocalOfNode(cl, id);
    hide CampaignBinds, Rebuilt, VotesOk, PostOk, LocalOk;
    assert Binds(cl, Accept(id, cl.nodes[id].r.epoch, b, s, c));
  }

  lemma UnusedBallot(cl: Cluster, id: NodeId, b: Ballot)
    requires LocalInv(cl) && id in cl.nodes && b.node == id && cl.nodes[id].maxRound < b.round
    ensures forall s, c :: Accept(id, cl.nodes[id].r.epoch, b, s, c) !in cl.sent
  {
    hide LocalInv;
    forall s: nat, c | Accept(id, cl.nodes[id].r.epoch, b, s, c) in cl.sent ensures false {
      UsedRounds(cl, id, b, s, c);
    }
  }

  lemma ElectLocally(cl: Cluster, id: NodeId, cl': Cluster)
    requires LocalInv(cl) && id in cl.nodes && cl.nodes[id].local == [] && id in cl.nodes[id].r.members
    requires cl' == After(cl, id, StartCampaign(id, cl.nodes[id]))
    ensures LocalInv(cl')
  {
    hide LocalInv, Rebuilt, VotesOk, NodeMovesOn;
    LocalOfNode(cl, id);
    var nd := cl.nodes[id];
    var b := Ballot(nd.maxRound + 1, id);
    var o := StartCampaign(id, nd);
    UnusedBallot(cl, id, b);
    SameNodeMovesOn(nd, o.node);
    SameDiskRebuilt(nd, o.node);
    SameVotes(cl, nd, o.node);
    assert cl'.nodes[id].local == [Prepare(id, nd.r.epoch, b, nd.r.nextSlot)];
    hide Bound;
    TalkLocally(cl, id, o, cl');
  }

  // messages

  /** The node about to handle `m`, once `m` is off its own queue. */
  ghost predicate LocalReady(cl: Cluster, id: NodeId, nd: Node, m: Message) {
    && id in cl.nodes && nd == cl.nodes[id].(local := nd.local) && OwnOk(cl, id, nd) && m in cl.sent
    && (OwnAcceptorBound(cl, id, nd) || AsksItselfBy(id, nd, m))
  }

  lemma ReadyBindsLocally(cl: Cluster, id: NodeId, nd: Node, m: Message)
    requires LocalInv(cl) && LocalReady(cl, id, nd, m)
    ensures Binds(cl, m) && (!m.Prepare? ==> OwnAcceptorBound(cl, id, nd))
  {
    hide OwnOk, CampaignBinds, Binds, Bound;
  }

  lemma BoundCampaign(cl: Cluster, id: NodeId, nd: Node, nd': Node)
    requires OwnAcceptorBound(cl, id, nd)
    requires !nd'.role.Candidate? || (nd.role.Candidate? && nd'.r.epoch == nd.r.epoch
                                      && nd'.role.campaign.ballot == nd.role.campaign.ballot)
    ensures CampaignBinds(cl, id, nd')
  {
    hide Bound;
  }

  lemma PrepareLocally(cl: Cluster, id: NodeId, nd: Node, m: Message, cl': Cluster)
    requires LocalInv(cl) && LocalReady(cl, id, nd, m) && m.Prepare? && m.epoch == nd.r.epoch
    requires cl' == After(cl, id, OnPrepare(id, nd, m))
    ensures LocalInv(cl')
  {
    hide LocalInv, Rebuilt, VotesOk, NodeMovesOn, PostOk, OnPrepare, AnswerPrepare, LocalOk, Stored, AsksItselfBy,
      OwnAcceptorBound, CampaignBinds, Binds, RoundOk;
    var o := OnPrepare(id, nd, m);
    PrepareReplyShape(cl, id, nd, m);
    PreparedLedger(cl, id, nd, m, o);
    StoredShape(nd.disk, nd.r.epoch, AnswerPrepare(id, nd.r.epoch, Own(nd), m).0);
    SameDiskRebuilt(nd, o.node);
    MovesOnAnyway(cl, id, nd, o.node);
    KeptPost(cl, id, nd, o.node);
    PrepareLocal(cl, id, nd, m, o, cl');
    PromiseBinds(cl, id, nd, m, o, cl');
    TalkLocally(cl, id, o, cl');
  }

  /** The promise binds its acceptor, and answers the node's own Prepare if that was asked. */
  lemma PromiseBinds(cl: Cluster, id: NodeId, nd: Node, m: Message, o: Effect, cl': Cluster)
    requires LocalReady(cl, id, nd, m) && m.Prepare? && m.epoch == nd.r.epoch
    requires o == OnPrepare(id, nd, m) && cl' == After(cl, id, o) && NodeMovesOn(cl.nodes[id], o.node)
    requires Own(o.node) == AnswerPrepare(id, nd.r.epoch, Own(nd), m).0 && o.node.r == nd.r && HeadKept(nd, o.node)
    requires o.node.role == nd.role || o.node.role.Follower?
    requires forall x :: x in o.sent ==> x.Promise? || x.Nack?
    ensures forall x :: x in o.sent ==> !x.Accept? && Binds(cl', x)
    ensures CampaignBinds(cl', id, o.node)
  {
    BallotsAreOrdered();
    hide OwnOk, Report, Stored, HeadKept, NodeMovesOn;
    assert cl'.nodes[id] == o.node;
    if o.node.role.Candidate? {
      if OwnAcceptorBound(cl, id, nd) {
        assert NodeMovesOn(cl.nodes[id], o.node);
        StillBound(cl, id, nd, o.node, cl', nd.role.campaign.ballot);
      }
    }
  }

  lemma StillBound(cl: Cluster, id: NodeId, nd: Node, nd': Node, cl': Cluster, b: Ballot)
    requires id in cl.nodes && nd == cl.nodes[id].(local := nd.local) && NodeMovesOn(cl.nodes[id], nd')
    requires Bound(cl, id, nd.r.epoch, b) && id in cl'.nodes && cl'.nodes[id] == nd' && nd'.r == nd.r
    ensures Bound(cl', id, nd.r.epoch, b)
  {
    BallotsAreOrdered();
  }

  lemma AcceptLocally(cl: Cluster, id: NodeId, nd: Node, m: Message, cl': Cluster)
    requires LocalInv(cl) && LocalReady(cl, id, nd, m) && m.Accept? && m.epoch == nd.r.epoch
    requires cl' == After(cl, id, OnAccept(id, nd, m))
    ensures LocalInv(cl')
  {
    hide LocalInv, Rebuilt, VotesOk, NodeMovesOn, PostOk, OnAccept, AnswerAccept, LocalOk, Stored, OwnAcceptorBound,
      CampaignBinds, RoundOk, Bound, Kept;
    var o := OnAccept(id, nd, m);
    ReadyBindsLocally(cl, id, nd, m);
    VoterLedger(cl, nd, id, m);
    HearingKeeps(id, nd, m);
    VoterRound(cl, nd, id, m);
    QueueGrows(cl, id, nd, m, cl');
    StoredShape(nd.disk, nd.r.epoch, AnswerAccept(id, nd.r.epoch, Own(nd), Floor(nd), m).0);
    SameDiskRebuilt(nd, o.node);
    MovesOnAnyway(cl, id, nd, o.node);
    KeptPost(cl, id, nd, o.node);
    VoteBinds(cl, id, nd, m, o, cl');
    TalkLocally(cl, id, o, cl');
  }

  /** A vote binds its acceptor. */
  lemma VoteBinds(cl: Cluster, id: NodeId, nd: Node, m: Message, o: Effect, cl': Cluster)
    requires id in cl.nodes && nd == cl.nodes[id].(local := nd.local) && m.Accept? && m.epoch == nd.r.epoch
    requires OwnAcceptorBound(cl, id, nd) && NodeMovesOn(cl.nodes[id], o.node)
    requires o == OnAccept(id, nd, m) && cl' == After(cl, id, o) && o.node.r == nd.r
    requires Own(o.node) == AnswerAccept(id, nd.r.epoch, Own(nd), Floor(nd), m).0
    requires o.node.role == nd.role || o.node.role.Follower?
    ensures forall x :: x in o.sent ==> !x.Accept? && Binds(cl', x)
    ensures forall a, e, b, s :: Accepted(a, e, b, s) in o.sent ==>
              a == id && cl.nodes[id].r.epoch == e && AtMost(Own(cl.nodes[id]).promised, b)
    ensures CampaignBinds(cl', id, o.node)
  {
    BallotsAreOrdered();
    hide Stored, HeardLeader, NodeMovesOn;
    assert cl'.nodes[id] == o.node;
    if o.node.role.Candidate? {
      StillBound(cl, id, nd, o.node, cl', nd.role.campaign.ballot);
    }
  }

  /** The log moved; the role is kept or given up. */
  lemma LogMovesLocally(cl: Cluster, id: NodeId, nd: Node, nd': Node, cl': Cluster)
    requires LocalInv(cl) && id in cl.nodes && nd == cl.nodes[id].(local := nd.local)
    requires LocalOk(cl, nd) && OwnAcceptorBound(cl, id, nd) && PostOk(cl, id, nd)
    requires cl' == After(cl, id, Quiet(nd')) && NodeMovesOn(nd, nd') && OnlyLogMoved(nd, nd')
    requires Rebuilt(nd') && VotesOk(cl, nd') && RoundOk(nd')
    ensures LocalInv(cl')
  {
    hide LocalInv, Rebuilt, VotesOk, NodeMovesOn, PostOk, OwnAcceptorBound, CampaignBinds, RoundOk;
    MovesOnAnyway(cl, id, nd, nd');
    KeptPost(cl, id, nd, nd');
    BoundCampaign(cl, id, nd, nd');
    QueueKept(cl, nd, nd');
    SilentLocally(cl, id, nd', cl');
  }

  lemma CommitLocally(cl: Cluster, id: NodeId, nd: Node, m: Message, cl': Cluster)
    requires LocalInv(cl) && LocalReady(cl, id, nd, m) && m.Commit?
    requires cl' == After(cl, id, Quiet(Committed(nd, Pos(m.epoch, m.slot), m.command)))
    ensures LocalInv(cl')
  {
    hide LocalInv, Rebuilt, VotesOk, NodeMovesOn, PostOk, OwnAcceptorBound, CampaignBinds, RoundOk, Committed,
      OnlyLogMoved, LocalOk;
    var p := Pos(m.epoch, m.slot);
    ReadyBindsLocally(cl, id, nd, m);
    CommitRebuilt(nd, p, m.command);
    CommitMovesOn(nd, p, m.command);
    CommittedVotes(cl, nd, p, m.command);
    LogMovesLocally(cl, id, nd, Committed(nd, p, m.command), cl');
  }

  lemma SnapshotLocally(cl: Cluster, id: NodeId, nd: Node, m: Message, cl': Cluster)
    requires LocalInv(cl) && LocalReady(cl, id, nd, m) && m.Snapshot?
    requires cl' == After(cl, id, Quiet(OnSnapshot(nd, m)))
    ensures LocalInv(cl')
  {
    hide LocalInv, Rebuilt, VotesOk, NodeMovesOn, PostOk, OwnAcceptorBound, CampaignBinds, RoundOk, Installed,
      LocalOk;
    ReadyBindsLocally(cl, id, nd, m);
    InstallRebuilt(nd, m.state);
    InstalledVotes(cl, nd, m.state);
    SameNodeMovesOn(nd, nd);
    LogMovesLocally(cl, id, nd, OnSnapshot(nd, m), cl');
  }

  lemma NackLocally(cl: Cluster, id: NodeId, nd: Node, m: Message, cl': Cluster)
    requires LocalInv(cl) && LocalReady(cl, id, nd, m) && m.Nack?
    requires cl' == After(cl, id, Quiet(OnNack(nd, m)))
    ensures LocalInv(cl')
  {
    hide LocalInv, Rebuilt, VotesOk, NodeMovesOn, PostOk, OwnAcceptorBound, CampaignBinds, LocalOk;
    var nd' := OnNack(nd, m);
    ReadyBindsLocally(cl, id, nd, m);
    SameNodeMovesOn(cl.nodes[id], nd');
    SameDiskRebuilt(nd, nd');
    SameVotes(cl, nd, nd');
    KeptPost(cl, id, nd, nd');
    BoundCampaign(cl, id, nd, nd');
    SameQueue(cl, nd, nd');
    SilentLocally(cl, id, nd', cl');
  }

  lemma SameQueue(cl: Cluster, nd: Node, nd': Node)
    requires LocalOk(cl, nd) && nd'.local == nd.local
    ensures LocalOk(cl, nd')
  {
  }

  /** Only the role changed, to one that is in order. */
  lemma RoleChangesLocally(cl: Cluster, id: NodeId, nd: Node, role: Role, cl': Cluster)
    requires LocalInv(cl) && id in cl.nodes && nd == cl.nodes[id].(local := nd.local) && OwnOk(cl, id, nd)
    requires cl' == After(cl, id, Quiet(nd.(role := role)))
    requires PostOk(cl, id, nd.(role := role)) && CampaignBinds(cl, id, nd.(role := role))
    ensures LocalInv(cl')
  {
    hide LocalInv, Rebuilt, VotesOk, NodeMovesOn, PostOk, CampaignBinds, LocalOk;
    var nd' := nd.(role := role);
    SameNodeMovesOn(cl.nodes[id], nd');
    SameDiskRebuilt(nd, nd');
    SameVotes(cl, nd, nd');
    SameQueue(cl, nd, nd');
    SilentLocally(cl, id, nd', cl');
  }

  lemma IgnoredLocally(cl: Cluster, id: NodeId, nd: Node, m: Message, cl': Cluster)
    requires LocalInv(cl) && LocalReady(cl, id, nd, m) && CampaignBinds(cl, id, nd)
    requires cl' == After(cl, id, Quiet(nd))
    ensures LocalInv(cl')
  {
    hide LocalInv, CampaignBinds;
    RoleChangesLocally(cl, id, nd, nd.role, cl');
  }

  lemma UnheardBindsLocally(cl: Cluster, id: NodeId, nd: Node, m: Message)
    requires LocalReady(cl, id, nd, m) && !Hears(id, nd, m)
    ensures CampaignBinds(cl, id, nd)
  {
    hide OwnOk, Bound;
  }

  lemma AcceptedLocally(cl: Cluster, id: NodeId, nd: Node, m: Message, cl': Cluster)
    requires LocalInv(cl) && LocalReady(cl, id, nd, m) && m.Accepted? && m.epoch == nd.r.epoch
    requires cl' == After(cl, id, OnAccepted(id, nd, m))
    ensures LocalInv(cl')
  {
    hide LocalInv, OwnAcceptorBound, CampaignBinds, Committed, OwnOk, Binds;
    ReadyBindsLocally(cl, id, nd, m);
    if !nd.role.Leader? || m.ballot != nd.role.leadership.ballot {
      BoundCampaign(cl, id, nd, nd);
      IgnoredLocally(cl, id, nd, m, cl');
    } else {
      var (l, done) := Counted(nd.role.leadership, m.slot, m.sender);
      CountedPost(cl, id, nd, m);
      FollowersBind(cl, id, nd.(role := Leader(l)));
      if done.None? {
        RoleChangesLocally(cl, id, nd, Leader(l), cl');
      } else {
        DecisionLocally(cl, id, nd, m, l, done.value, cl');
      }
    }
  }

  lemma CountedPost(cl: Cluster, id: NodeId, nd: Node, m: Message)
    requires OwnOk(cl, id, nd) && m.Accepted? && nd.role.Leader?
    ensures PostOk(cl, id, nd.(role := Leader(Counted(nd.role.leadership, m.slot, m.sender).0)))
  {
    hide Rebuilt, VotesOk, RoundOk, LocalOk, Bound;
  }

  lemma DecisionLocally(cl: Cluster, id: NodeId, nd: Node, m: Message, l: Leadership, c: Command, cl': Cluster)
    requires LocalInv(cl) && LocalReady(cl, id, nd, m) && m.Accepted? && PostOk(cl, id, nd.(role := Leader(l)))
    requires var nd', p := Committed(nd.(role := Leader(l)), Pos(nd.r.epoch, m.slot), c), Pos(nd.r.epoch, m.slot);
             cl' == After(cl, id, Effect(nd', {Commit(id, p.epoch, p.slot, c)}, {}, map[p := c]))
    ensures LocalInv(cl')
  {
    hide LocalInv, Rebuilt, VotesOk, NodeMovesOn, PostOk, CampaignBinds, RoundOk, Committed, OnlyLogMoved, LocalOk,
      OwnAcceptorBound;
    var counting, p := nd.(role := Leader(l)), Pos(nd.r.epoch, m.slot);
    var nd' := Committed(counting, p, c);
    SameDiskRebuilt(nd, counting);
    SameVotes(cl, nd, counting);
    SameRound(nd, counting);
    CommitRebuilt(counting, p, c);
    CommitMovesOn(counting, p, c);
    CommittedVotes(cl, counting, p, c);
    CommitMovesOnFrom(cl, id, nd, counting, nd');
    LeaderMovedOn(cl, id, counting, nd', cl');
    SameQueue(cl, nd, counting);
    MovedQueue(cl, counting, nd', cl');
    TalkLocally(cl, id, Effect(nd', {Commit(id, p.epoch, p.slot, c)}, {}, map[p := c]), cl');
  }

  lemma LeaderMovedOn(cl: Cluster, id: NodeId, nd: Node, nd': Node, cl': Cluster)
    requires PostOk(cl, id, nd) && nd.role.Leader? && OnlyLogMoved(nd, nd')
    ensures PostOk(cl, id, nd') && CampaignBinds(cl', id, nd')
  {
    hide Bound;
  }

  lemma MovedQueue(cl: Cluster, nd: Node, nd': Node, cl': Cluster)
    requires LocalOk(cl, nd) && OnlyLogMoved(nd, nd') && cl.sent <= cl'.sent
    ensures LocalOk(cl', nd')
  {
  }

  // steps that propose

  lemma PromiseLocally(cl: Cluster, id: NodeId, nd: Node, m: Message, cl': Cluster)
    requires LocalInv(cl) && LocalReady(cl, id, nd, m) && m.Promise?
    requires cl' == After(cl, id, OnPromise(id, nd, m))
    ensures LocalInv(cl')
  {
    hide LocalInv, OwnAcceptorBound, CampaignBinds, OwnOk, Binds, BecomeLeader, Put;
    ReadyBindsLocally(cl, id, nd, m);
    if !Counts(nd, m) {
      BoundCampaign(cl, id, nd, nd);
      IgnoredLocally(cl, id, nd, m, cl');
    } else {
      var c := nd.role.campaign;
      var c' := c.(promises := Put(c.promises, m.sender, m.accepted));
      if |c.promises| < c.quorum <= |c'.promises| {
        LeaderLocally(cl, id, nd, m, c', cl');
      } else {
        CandidatePost(cl, id, nd, c');
        BoundCampaign(cl, id, nd, nd.(role := Candidate(c')));
        RoleChangesLocally(cl, id, nd, Candidate(c'), cl');
      }
    }
  }

  lemma CandidatePost(cl: Cluster, id: NodeId, nd: Node, c: Campaign)
    requires OwnOk(cl, id, nd) && nd.role.Candidate? && c.ballot == nd.role.campaign.ballot
    ensures PostOk(cl, id, nd.(role := Candidate(c)))
    ensures c.ballot.node == id && forall s, cmd :: Accept(id, nd.r.epoch, c.ballot, s, cmd) !in cl.sent
  {
    hide Rebuilt, VotesOk, RoundOk, LocalOk;
  }

  lemma LeaderLocally(cl: Cluster, id: NodeId, nd: Node, m: Message, c: Campaign, cl': Cluster)
    requires LocalInv(cl) && LocalReady(cl, id, nd, m) && OwnAcceptorBound(cl, id, nd) && nd.role.Candidate?
    requires c == nd.role.campaign.(promises := c.promises) && cl' == After(cl, id, BecomeLeader(id, nd, c))
    ensures LocalInv(cl')
  {
    hide LocalInv, Rebuilt, VotesOk, NodeMovesOn, PostOk, CampaignBinds, LocalOk, BecomeLeader, Bound, OneProposal,
      Binds;
    var o, e, es := BecomeLeader(id, nd, c), nd.r.epoch, Joined(c.promises);
    hide Joined;
    CandidatePost(cl, id, nd, c);
    PlanIsSent(cl, id, nd, c);
    SameNodeMovesOn(cl.nodes[id], o.node);
    SpeakingEvolves(cl, id, o, cl');
    SameDiskRebuilt(nd, o.node);
    SameVotes(cl, nd, o.node);
    SameRound(nd, o.node);
    VotesStay(cl, cl', o.node);
    Queued(cl, id, nd, o, cl');
    OnceBefore(cl);
    PlanProposesOnce(cl, id, e, c.ballot, es, nd.r.nextSlot, nd.disk.chosen, o, cl');
    NewPost(cl, id, nd, c, o, cl');
    FollowersBind(cl', id, o.node);
    FinishLocally(cl, id, o, cl');
  }

  lemma OnceBefore(cl: Cluster)
    requires LocalInv(cl)
    ensures OneProposal(cl.sent)
  {
    hide OneProposal, OwnOk, CampaignBinds, Binds;
  }

  /** The new leader's post is in order, and its proposals bind it. */
  lemma NewPost(cl: Cluster, id: NodeId, nd: Node, c: Campaign, o: Effect, cl': Cluster)
    requires id in cl.nodes && nd == cl.nodes[id].(local := nd.local) && nd.role.Candidate?
    requires OwnAcceptorBound(cl, id, nd) && c == nd.role.campaign.(promises := c.promises) && c.ballot.node == id
    requires o == BecomeLeader(id, nd, c) && cl' == After(cl, id, o) && Evolves(id, cl, cl')
    requires TakesOver(cl, id, nd.r.epoch, c.ballot, Joined(c.promises), nd.r.nextSlot, nd.disk.chosen, o.sent)
    requires forall s, cmd :: Accept(id, nd.r.epoch, c.ballot, s, cmd) !in cl.sent
    requires o.node.r == nd.r
    ensures PostOk(cl', id, o.node) && o.node.role.Leader?
    ensures forall m :: m in o.sent ==> Binds(cl', m)
  {
    hide BecomeLeader, Joined, FirstFree, Plan, Bound, ReportedTop;
    var e, es := nd.r.epoch, Joined(c.promises);
    LeaderRole(id, nd, c);
    PlanBelowFree(es, nd.r.nextSlot, e, nd.disk.chosen);
    PlanInSent(cl, id, e, c.ballot, es, nd.r.nextSlot, nd.disk.chosen, o, cl');
    OrdersStay(id, cl, cl');
    hide Evolves;
  }

  lemma OfferLocally(cl: Cluster, id: NodeId, c: Command, cl': Cluster)
    requires LocalInv(cl) && id in cl.nodes && cl.nodes[id].role.Leader?
    requires cl' == After(cl, id, Propose(id, cl.nodes[id], c))
    ensures LocalInv(cl')
  {
    hide LocalInv, Rebuilt, VotesOk, NodeMovesOn, PostOk, CampaignBinds, LocalOk, Bound, OneProposal, Binds,
      ProposedAt;
    LocalOfNode(cl, id);
    var nd, o := cl.nodes[id], Propose(id, cl.nodes[id], c);
    var l := nd.role.leadership;
    SameNodeMovesOn(nd, o.node);
    if o.sent == {} {
      SilentLocally(cl, id, nd, cl');
    } else {
      SpeakingEvolves(cl, id, o, cl');
      SameDiskRebuilt(nd, o.node);
      SameVotes(cl, nd, o.node);
      SameRound(nd, o.node);
      VotesStay(cl, cl', o.node);
      Queued(cl, id, nd, o, cl');
      OnceBefore(cl);
      OfferedPost(cl, id, nd, c, o, cl');
      FollowersBind(cl', id, o.node);
      FinishLocally(cl, id, o, cl');
    }
  }

  lemma OfferedPost(cl: Cluster, id: NodeId, nd: Node, c: Command, o: Effect, cl': Cluster)
    requires id in cl.nodes && nd == cl.nodes[id] && nd.role.Leader? && PostOk(cl, id, nd) && OneProposal(cl.sent)
    requires o == Propose(id, nd, c) && o.sent != {} && cl' == After(cl, id, o) && Evolves(id, cl, cl')
    ensures PostOk(cl', id, o.node) && OneProposal(cl'.sent)
    ensures forall m :: m in o.sent ==> Binds(cl', m)
  {
    var e, l := nd.r.epoch, nd.role.leadership;
    OrdersStay(id, cl, cl');
    hide Evolves, Bound;
    assert o.sent == {Accept(id, e, l.ballot, l.nextFree, c)};
    assert cl'.sent == cl.sent + o.sent;
    forall e', b: Ballot, s, c', c'' | Accept(b.node, e', b, s, c') in cl'.sent && Accept(b.node, e', b, s, c'') in cl'.sent
      ensures c' == c''
    {
    }
  }

  lemma RetryLocally(cl: Cluster, id: NodeId, slot: nat, cl': Cluster)
    requires LocalInv(cl) && id in cl.nodes && cl.nodes[id].role.Leader?
    requires slot in cl.nodes[id].role.leadership.inflight
    requires cl' == After(cl, id, Resend(id, cl.nodes[id], slot))
    ensures LocalInv(cl')
  {
    hide LocalInv, Rebuilt, VotesOk, NodeMovesOn, CampaignBinds, Bound;
    LocalOfNode(cl, id);
    var nd, o := cl.nodes[id], Resend(id, cl.nodes[id], slot);
    var nd' := o.node;
    assert cl.sent + o.sent == cl.sent;
    assert cl' == After(cl, id, Quiet(nd'));
    SameNodeMovesOn(nd, nd');
    SameDiskRebuilt(nd, nd');
    SameVotes(cl, nd, nd');
    QueuedAgain(cl, nd, nd', o.sent);
    FollowersBind(cl, id, nd');
    SilentLocally(cl, id, nd', cl');
  }

  // every step, every run

  lemma HandleLocally(cl: Cluster, id: NodeId, nd: Node, m: Message, cl': Cluster)
    requires LocalInv(cl) && LocalReady(cl, id, nd, m) && cl' == After(cl, id, Handle(id, nd, m))
    ensures LocalInv(cl')
  {
    hide LocalInv, OwnOk, OwnAcceptorBound, AsksItselfBy, After, OnPrepare, OnPromise, OnAccept, OnAccepted, OnNack,
      OnSnapshot, Committed;
    if !Hears(id, nd, m) {
      UnheardBindsLocally(cl, id, nd, m);
      IgnoredLocally(cl, id, nd, m, cl');
    } else {
      match m {
        case Prepare(_, _, _, _) => PrepareLocally(cl, id, nd, m, cl');
        case Promise(_, _, _, _) => PromiseLocally(cl, id, nd, m, cl');
        case Accept(_, _, _, _, _) => AcceptLocally(cl, id, nd, m, cl');
        case Accepted(_, _, _, _) => AcceptedLocally(cl, id, nd, m, cl');
        case Nack(_, _, _, _) => NackLocally(cl, id, nd, m, cl');
        case Commit(_, _, _, _) => CommitLocally(cl, id, nd, m, cl');
        case Snapshot(_, _, _, _) => SnapshotLocally(cl, id, nd, m, cl');
      }
    }
  }

  lemma DrainedIsReadyLocally(cl: Cluster, id: NodeId)
    requires LocalInv(cl) && id in cl.nodes && cl.nodes[id].local != []
    ensures var nd := cl.nodes[id]; LocalReady(cl, id, nd.(local := nd.local[1..]), nd.local[0])
  {
    LocalOfNode(cl, id);
    hide LocalInv, Bound;
    var nd := cl.nodes[id];
    var nd' := nd.(local := nd.local[1..]);
    SameDiskRebuilt(nd, nd');
    SameVotes(cl, nd, nd');
    hide Rebuilt, VotesOk;
    assert PostOk(cl, id, nd') by { KeptPost(cl, id, nd, nd'); }
  }

  lemma ReceiverIsReadyLocally(cl: Cluster, id: NodeId, m: Message)
    requires LocalInv(cl) && id in cl.nodes && cl.nodes[id].local == [] && m in cl.sent
    ensures LocalReady(cl, id, cl.nodes[id], m)
  {
    LocalOfNode(cl, id);
    hide LocalInv, OwnOk, Bound;
  }

  /** Every step keeps the local invariant, whichever promises it counts. */
  lemma StepLocally(cl: Cluster, h: Happening)
    requires LocalInv(cl) && Enabled(cl, h)
    ensures LocalInv(Step(cl, h))
  {
    hide LocalInv, LocalReady, After, Handle, StartCampaign, Propose, Resend, Rotated, Restarted, Told, Serve,
      HeardLeader, StepDown, WithPromise;
    var id, nd, cl' := h.id, cl.nodes[h.id], Step(cl, h);
    match h.event {
      case Receive(m) =>
        ReceiverIsReadyLocally(cl, id, m);
        HandleLocally(cl, id, nd, m, cl');
      case Drain =>
        DrainedIsReadyLocally(cl, id);
        HandleLocally(cl, id, nd.(local := nd.local[1..]), nd.local[0], cl');
      case Elect => ElectLocally(cl, id, cl');
      case Yield => YieldLocally(cl, id);
      case Offer(c) => OfferLocally(cl, id, c, cl');
      case Retry(slot) => RetryLocally(cl, id, slot, cl');
      case Heartbeat(ballot, sender) => HeartbeatLocally(cl, id, ballot, sender);
      case Answer(p) => AnswerLocally(cl, id, p, cl');
      case Rotate => RotateLocally(cl, id);
      case Crash(voters) => CrashLocally(cl, id, voters);
      case TornAccept(ballot) => TornAcceptLocally(cl, id, ballot);
    }
  }

  lemma InitialLocally(cl: Cluster)
    requires Initial(cl)
    ensures LocalInv(cl)
  {
    hide Loaded, AppliedTotal, MaxRound;
    forall id | id in cl.nodes ensures OwnOk(cl, id, cl.nodes[id]) && CampaignBinds(cl, id, cl.nodes[id]) {
      var genesis :| (genesis == None || genesis == Some(cl.genesis))
                     && cl.nodes[id] == Restarted(Disk(genesis, map[], map[], None));
      RoundCoversPromise(Own(cl.nodes[id]));
    }
  }

  lemma {:induction false} RunLocally(states: seq<Cluster>, run: Run, n: nat)
    requires Execution(states, run) && n < |states|
    ensures LocalInv(states[n])
  {
    hide LocalInv, Step, Enabled, Initial;
    if n == 0 {
      InitialLocally(states[0]);
    } else {
      RunLocally(states, run, n - 1);
      assert Moves(states, run, n - 1);
      StepLocally(states[n - 1], run[n - 1]);
    }
  }

  // what that means

  /** A ballot is led once: even over restarts of its leader, a slot gets one command under it. */
  lemma OneCommandPerBallot(states: seq<Cluster>, run: Run, n: nat, e: nat, s: nat, b: Ballot, c: Command, c': Command)
    requires Execution(states, run) && n < |states|
    requires Accept(b.node, e, b, s, c) in states[n].sent
    requires Accept(b.node, e, b, s, c') in states[n].sent
    ensures c == c'
  {
    hide Execution, LocalInv;
    RunLocally(states, run, n);
    OnceBefore(states[n]);
  }

  /** Durable before reply: at any time, also right after a crash, an acceptor that promised `b` holds
      that promise or has left the epoch, and one that voted stores that vote or a higher one, unless
      the slot was compacted. No stored vote is above the stored promise. */
  lemma RepliesAreHonoured(states: seq<Cluster>, run: Run, n: nat, a: NodeId, e: nat, b: Ballot)
    requires Execution(states, run) && n < |states|
    ensures forall es :: Promise(a, e, b, es) in states[n].sent ==> Bound(states[n], a, e, b)
    ensures forall s: nat :: Accepted(a, e, b, s) in states[n].sent ==> Bound(states[n], a, e, b) && Kept(states[n], a, e, b, s)
    ensures a in states[n].nodes ==> forall s :: s in Own(states[n].nodes[a]).accepted ==>
              AtMost(Own(states[n].nodes[a]).accepted[s].ballot, Own(states[n].nodes[a]).promised)
  {
    hide Execution, LocalInv, Bound, Kept;
    var end := states[n];
    RunLocally(states, run, n);
    forall es | Promise(a, e, b, es) in end.sent ensures Bound(end, a, e, b) {
      SaidBinds(end, Promise(a, e, b, es));
    }
    forall s: nat | Accepted(a, e, b, s) in end.sent ensures Bound(end, a, e, b) && Kept(end, a, e, b, s) {
      SaidBinds(end, Accepted(a, e, b, s));
    }
    if a in end.nodes {
      LocalOfNode(end, a);
      OwnVotes(end, end.nodes[a]);
    }
  }

  lemma SaidBinds(cl: Cluster, m: Message)
    requires LocalInv(cl) && m in cl.sent
    ensures Binds(cl, m)
  {
    hide Binds, OwnOk, CampaignBinds;
  }

  /** A restart rebuilds exactly the replica that was running: same place, state, results and voters. If
      it is told first voters it did not know, only the members of epoch 0 change. */
  lemma RestartChangesNothingApplied(states: seq<Cluster>, run: Run, n: nat, i: NodeId, voters: Option<Members>)
    requires Execution(states, run) && n < |states| && i in states[n].nodes
    ensures var nd := states[n].nodes[i];
            && Restarted(nd.disk).r == nd.r
            && Restarted(Told(nd.disk, voters)).r == nd.r.(members := Restarted(Told(nd.disk, voters)).r.members)
            && (nd.r.epoch > 0 || nd.disk.snapshot.Some? || nd.disk.genesis.Some? ==> Restarted(Told(nd.disk, voters)).r == nd.r)
  {
    hide Execution, LocalInv, MaxRound, AppliedTotal;
    RunLocally(states, run, n);
    LocalOfNode(states[n], i);
    ToldStandsThere(states[n].nodes[i].disk, voters);
  }

  /** A leader never hands out a slot it already proposed under its ballot. */
  lemma NewSlotIsUnused(states: seq<Cluster>, run: Run, n: nat, id: NodeId)
    requires Execution(states, run) && n < |states|
    requires id in states[n].nodes && states[n].nodes[id].role.Leader?
    ensures var nd := states[n].nodes[id];
            forall c :: Accept(id, nd.r.epoch, nd.role.leadership.ballot, nd.role.leadership.nextFree, c) !in states[n].sent
  {
    hide Execution, LocalInv, Bound;
    RunLocally(states, run, n);
    LocalOfNode(states[n], id);
  }

  // where a node stands

  lemma HandlingStandsOn(id: NodeId, nd: Node, m: Message)
    ensures !Precedes(At(Handle(id, nd, m).node.r), At(nd.r))
  {
    hide Advance, Report, MaxRound, Put, Compacted, AppliedTotal, Counted, Stored, AnswerPrepare, AnswerAccept,
      Joined, Plan, FirstFree, Taken, Proposing;
    match m {
      case Accepted(_, e, _, s) =>
        if nd.role.Leader? {
          var (l, done) := Counted(nd.role.leadership, s, m.sender);
          if done.Some? {
            AdvanceStops(nd.r, nd.disk.chosen[Pos(nd.r.epoch, s) := done.value]);
          }
        }
      case Commit(_, e, s, c) => AdvanceStops(nd.r, nd.disk.chosen[Pos(e, s) := c]);
      case Snapshot(_, _, _, state) => AdvanceStops(state, Compacted(nd.disk, state).chosen);
      case _ =>
    }
  }

  lemma StepStandsOn(cl: Cluster, h: Happening, x: NodeId)
    requires LocalInv(cl) && Enabled(cl, h) && x in cl.nodes
    ensures x in Step(cl, h).nodes && !Precedes(At(Step(cl, h).nodes[x].r), At(cl.nodes[x].r))
  {
    LocalOfNode(cl, h.id);
    hide LocalInv, Enabled, Outcome, PostOk, VotesOk, Loaded, Advance, LocalOk, RoundOk, CampaignBinds;
    OutcomeStandsOn(cl, h);
  }

  lemma OutcomeStandsOn(cl: Cluster, h: Happening)
    requires Enabled(cl, h) && cl.nodes[h.id].r == Loaded(cl.nodes[h.id].disk)
    ensures !Precedes(At(Outcome(cl, h).node.r), At(cl.nodes[h.id].r))
  {
    hide Handle, Compacted, AppliedTotal, MaxRound, Loaded, Serve, Told, WithPromise;
    var nd := cl.nodes[h.id];
    match h.event {
      case Receive(m) => HandlingStandsOn(h.id, nd, m);
      case Drain => HandlingStandsOn(h.id, nd.(local := nd.local[1..]), nd.local[0]);
      case Crash(voters) => ToldStandsThere(nd.disk, voters);
      case TornAccept(ballot) => TornStandsThere(nd, ballot);
      case _ =>
    }
  }

  lemma TornStandsThere(nd: Node, ballot: Ballot)
    ensures Loaded(WithPromise(nd, ballot)) == Loaded(nd.disk)
  {
    hide Advance, Raised;
  }

  /** No node ever goes back in the log, crashes included. */
  lemma {:induction false} PlaceNeverGoesBack(states: seq<Cluster>, run: Run, i: NodeId, m: nat, n: nat)
    requires Execution(states, run) && m <= n < |states| && i in states[m].nodes
    ensures i in states[n].nodes && !Precedes(At(states[n].nodes[i].r), At(states[m].nodes[i].r))
    decreases n - m
  {
    hide LocalInv, Step, Enabled, Initial;
    if m < n {
      PlaceNeverGoesBack(states, run, i, m, n - 1);
      RunLocally(states, run, n - 1);
      assert Moves(states, run, n - 1);
      StepStandsOn(states[n - 1], run[n - 1], i);
    }
  }
}
