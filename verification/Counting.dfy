/** Every step keeps the invariant: voting for a proposal, and counting votes until one is decided. */
module Counting {
  import opened Ballots
  import opened StateMachines
  import opened Replays
  import opened Histories
  import opened Messages
  import opened Ledgers
  import opened Proposals
  import opened Nodes
  import opened Clusters
  import opened Invariants
  import opened Recoveries
  import opened Steps
  import opened Voting

  // phase 2b

  /** A ledger after an Accept: every old vote is kept or replaced by one as high. */
  lemma VotedLedger(id: NodeId, e: nat, l: Ledger, floor: nat, m: Message)
    requires m.Accept?
    requires forall s :: s in l.accepted ==> AtMost(l.accepted[s].ballot, l.promised)
    ensures var (l', reply) := AnswerAccept(id, e, l, floor, m);
            && AtMost(l.promised, l'.promised)
            && (forall s :: s in l.accepted ==> s in l'.accepted && AtMost(l.accepted[s].ballot, l'.accepted[s].ballot))
            && (forall s :: s in l'.accepted ==> AtMost(l'.accepted[s].ballot, l'.promised))
            && (forall s :: s in l'.accepted ==>
                  (s in l.accepted && l'.accepted[s] == l.accepted[s]) || (s == m.slot && l'.accepted[s] == Vote(m.ballot, m.command)))
            && l'.promised.round <= Max(l.promised.round, m.ballot.round)
            && (reply.Nack? ==> l' == l)
  {
    BallotsAreOrdered();
  }

  /** The ledger after voting, or after refusing to. */
  lemma VoterLedger(cl: Cluster, nd: Node, id: NodeId, m: Message)
    requires m.Accept? && m in cl.sent && m.sender == m.ballot.node && m.epoch == nd.r.epoch && VotesOk(cl, nd)
    ensures var o := OnAccept(id, nd, m);
            && NodeMovesOn(nd, o.node) && VotesOk(cl, o.node)
            && Own(o.node) == AnswerAccept(id, nd.r.epoch, Own(nd), Floor(nd), m).0 && Floor(o.node) == Floor(nd)
  {
    hide VotesOk, NodeMovesOn, Stored, AtMost, HeardLeader, AnswerAccept, Floor;
    var o := OnAccept(id, nd, m);
    var l := AnswerAccept(id, nd.r.epoch, Own(nd), Floor(nd), m).0;
    OwnVotes(cl, nd);
    VotedLedger(id, nd.r.epoch, Own(nd), Floor(nd), m);
    HearingKeeps(id, nd, m);
    StoredMovesOn(nd, o.node, l);
    StoredVotes(cl, nd, o.node, l);
  }

  /** The node after voting, or after refusing to. */
  lemma VoterMovesOn(cl: Cluster, nd: Node, id: NodeId, m: Message)
    requires m.Accept? && m in cl.sent && m.sender == m.ballot.node && m.epoch == nd.r.epoch
    requires LogOk(cl, nd) && VotesOk(cl, nd)
    ensures var o := OnAccept(id, nd, m);
            && NodeMovesOn(nd, o.node) && LogOk(cl, o.node) && VotesOk(cl, o.node)
            && Own(o.node) == AnswerAccept(id, nd.r.epoch, Own(nd), Floor(nd), m).0 && Floor(o.node) == Floor(nd)
  {
    hide LogOk, VotesOk, NodeMovesOn, Stored, OnAccept, AnswerAccept, Floor;
    VoterLedger(cl, nd, id, m);
    HearingKeeps(id, nd, m);
    StoredLog(cl, nd, OnAccept(id, nd, m).node, AnswerAccept(id, nd.r.epoch, Own(nd), Floor(nd), m).0);
  }

  /** Following a leader touches neither the log nor the ledger. */
  lemma HearingKeeps(id: NodeId, nd: Node, m: Message)
    requires m.Accept?
    ensures var o := OnAccept(id, nd, m);
            && o.node.r == nd.r && o.node.pending == nd.pending && o.node.violated == nd.violated
            && o.node.disk == Stored(nd.disk, nd.r.epoch, AnswerAccept(id, nd.r.epoch, Own(nd), Floor(nd), m).0)
            && nd.maxRound <= o.node.maxRound && HeadKept(nd, o.node)
            && (o.node.role == nd.role || o.node.role.Follower?)
            && (AnswerAccept(id, nd.r.epoch, Own(nd), Floor(nd), m).1.Accepted? ==> m.ballot.round <= o.node.maxRound)
  {
    hide Stored;
  }

  lemma VoterRound(cl: Cluster, nd: Node, id: NodeId, m: Message)
    requires m.Accept? && RoundOk(nd) && VotesOk(cl, nd)
    requires Own(OnAccept(id, nd, m).node) == AnswerAccept(id, nd.r.epoch, Own(nd), Floor(nd), m).0
    ensures RoundOk(OnAccept(id, nd, m).node)
  {
    hide Stored, VotesOk, OnAccept, Floor;
    OwnVotes(cl, nd);
    VotedLedger(id, nd.r.epoch, Own(nd), Floor(nd), m);
    HearingKeeps(id, nd, m);
  }

  /** A vote is bound, and kept. */
  lemma VoteSent(cl: Cluster, id: NodeId, nd: Node, m: Message, cl': Cluster)
    requires id in cl.nodes && m.Accept? && m.epoch == nd.r.epoch && nd.r.epoch in VotersOf(cl')
    requires id in VotersOf(cl')[nd.r.epoch] && cl' == After(cl, id, OnAccept(id, nd, m))
    requires var o := OnAccept(id, nd, m);
             o.node.r == nd.r && Own(o.node) == AnswerAccept(id, nd.r.epoch, Own(nd), Floor(nd), m).0
    ensures forall x :: x in cl'.sent && x !in cl.sent ==> MessageOk(VotersOf(cl'), cl', x) && !x.Accept?
  {
    hide VotersOf, SafeAt, Stored, HeardLeader;
    BallotsAreOrdered();
    var o := OnAccept(id, nd, m);
    forall x | x in cl'.sent && x !in cl.sent ensures MessageOk(VotersOf(cl'), cl', x) && !x.Accept? {
      assert x in o.sent;
    }
  }

  lemma QueueGrows(cl: Cluster, id: NodeId, nd: Node, m: Message, cl': Cluster)
    requires id in cl.nodes && m.Accept? && LocalOk(cl, nd) && cl' == After(cl, id, OnAccept(id, nd, m))
    ensures LocalOk(cl', cl'.nodes[id])
    ensures OnAccept(id, nd, m).decided == map[] && OnAccept(id, nd, m).testimony == {}
    ensures forall x :: x in OnAccept(id, nd, m).sent ==> !x.Accept?
    ensures forall a, e, b, s :: Accepted(a, e, b, s) in OnAccept(id, nd, m).sent ==>
              a == id && nd.r.epoch == e && !Less(b, Own(nd).promised)
  {
  }

  lemma AcceptStep(cl: Cluster, id: NodeId, nd: Node, m: Message, cl': Cluster)
    requires Inv(cl) && Ready(cl, id, nd, m) && m.Accept? && Hears(id, nd, m)
    requires cl' == After(cl, id, OnAccept(id, nd, m))
    ensures Inv(cl')
  {
    hide LogOk, RoundOk, RoleOk, LocalOk, NodeMovesOn, OnAccept, VotersOf, CampaignBinds, AsksItselfBy, Inv, Voters,
      NodeOk, SafeAt, AnswerAccept, HeadKept;
    var o := OnAccept(id, nd, m);
    ReadyGives(cl, id, nd, m);
    MembersAreVoters(cl, nd);
    QueueGrows(cl, id, nd, m, cl');
    VoterMovesOn(cl, nd, id, m);
    HearingKeeps(id, nd, m);
    VoterRound(cl, nd, id, m);
    MovesOnAnyway(cl, id, nd, o.node);
    BallotsAreOrdered();
    SpeakingEvolves(cl, id, o, cl');
    SameHistory(cl, id, o, cl');
    VoteSent(cl, id, nd, m, cl');
    hide After, Evolves, VotesOk;
    KeptRole(cl, id, nd, o.node, cl');
    VotesStay(cl, cl', o.node);
    LogStays(cl, cl', o.node);
    FinishStep(id, cl, cl');
  }

  lemma KeptRole(cl: Cluster, id: NodeId, nd: Node, nd': Node, cl': Cluster)
    requires Evolves(id, cl, cl') && Grows(VotersOf(cl), VotersOf(cl')) && NoNewProposal(id, cl, cl')
    requires RoleOk(VotersOf(cl), cl, id, nd) && CampaignBinds(cl, id, nd) && HeadKept(nd, nd')
    requires nd'.r == nd.r && nd.maxRound <= nd'.maxRound
    requires nd'.role == nd.role || nd'.role.Follower?
    ensures RoleOk(VotersOf(cl'), cl', id, nd') && CampaignBinds(cl', id, nd')
  {
    hide VotersOf, Evolves, CandidateOk, LeaderOk, Bound;
    if !nd'.role.Follower? {
      RoleStays(VotersOf(cl), VotersOf(cl'), id, cl, cl', id, nd, nd');
      OrdersStay(id, cl, cl');
    }
  }

  // agreement

  lemma QuorumsMeet(Q: set<NodeId>, R: set<NodeId>, voters: set<NodeId>)
    requires IsQuorum(Q, voters) && IsQuorum(R, voters)
    ensures exists a :: a in Q && a in R
  {
    Cardinality(Q + R, voters);
    assert |Q + R| + |Q * R| == |Q| + |R|;
    var a :| a in Q * R;
  }

  /** A ballot at which something was decided cannot be one that is blocked. */
  lemma DecidedIsNotBlocked(V: Electorate, cl: Cluster, e: nat, b: Ballot, s: nat, c: Command)
    requires DecidedAt(V, cl, e, b, s, c)
    ensures !Blocked(V, cl, e, b, s)
  {
    if Blocked(V, cl, e, b, s) {
      var Q :| IsQuorum(Q, V[e]) && Voted(cl, Q, e, b, s);
      var R :| IsQuorum(R, V[e]) && Refuses(cl, R, e, b, s);
      QuorumsMeet(Q, R, V[e]);
    }
  }

  /** Value choice: whatever is proposed above a ballot that decided a slot is what it decided. */
  lemma ProposalsFollowDecisions(cl: Cluster, e: nat, b: Ballot, s: nat, c: Command, b': Ballot, c': Command)
    requires Inv(cl) && DecidedAt(VotersOf(cl), cl, e, b, s, c)
    requires AtMost(b, b') && Accept(b'.node, e, b', s, c') in cl.sent
    ensures c' == c
  {
    var V := VotersOf(cl);
    hide VotersOf, NodeOk, TestimonyOk;
    if b != b' {
      assert MessageOk(V, cl, Accept(b'.node, e, b', s, c'));
      assert SafeAt(V, cl, e, b', s, c');
      DecidedIsNotBlocked(V, cl, e, b, s, c);
    }
  }

  /** Agreement inside an epoch: a slot has at most one decision. */
  lemma OneDecision(cl: Cluster, e: nat, s: nat, c: Command, c': Command)
    requires Inv(cl) && Decided(VotersOf(cl), cl, e, s, c) && Decided(VotersOf(cl), cl, e, s, c')
    ensures c == c'
  {
    var V := VotersOf(cl);
    hide VotersOf, Inv;
    var b :| DecidedAt(V, cl, e, b, s, c);
    var b' :| DecidedAt(V, cl, e, b', s, c');
    BallotsAreOrdered();
    if AtMost(b, b') {
      ProposalsFollowDecisions(cl, e, b, s, c, b', c');
    } else {
      ProposalsFollowDecisions(cl, e, b', s, c', b, c);
    }
  }

  // counting votes

  /** The votes counted for a slot, once one more arrived. */
  lemma CountedVotes(V: Electorate, cl: Cluster, id: NodeId, nd: Node, l: Leadership, m: Message)
    requires LeaderOk(V, cl, id, nd.r.epoch, l) && m.Accepted? && m in cl.sent
    requires m.epoch == nd.r.epoch && m.ballot == l.ballot
    requires forall x :: x in cl.sent && x.Accepted? ==> MessageOk(V, cl, x)
    ensures LeaderOk(V, cl, id, nd.r.epoch, Counted(l, m.slot, m.sender).0)
    ensures var c := Counted(l, m.slot, m.sender).1;
            c.Some? ==> Decided(V, cl, nd.r.epoch, m.slot, c.value)
  {
    hide SafeAt, Open;
    var e, s := nd.r.epoch, m.slot;
    var (l', c) := Counted(l, s, m.sender);
    if s in l.inflight {
      var acks := l.inflight[s].acks + {m.sender};
      assert Voted(cl, acks, e, l.ballot, s);
      forall a | a in acks ensures a in V[e] {
        assert Accepted(a, e, l.ballot, s) in cl.sent;
        assert MessageOk(V, cl, Accepted(a, e, l.ballot, s));
      }
      if c.Some? {
        assert IsQuorum(acks, V[e]);
        assert DecidedAt(V, cl, e, l.ballot, s, c.value);
      }
    }
  }

  /** Counting a vote that completes no majority. */
  lemma StillCounting(cl: Cluster, id: NodeId, nd: Node, m: Message, cl': Cluster)
    requires Inv(cl) && Ready(cl, id, nd, m) && m.Accepted? && Hears(id, nd, m)
    requires nd.role.Leader? && m.ballot == nd.role.leadership.ballot
    requires Counted(nd.role.leadership, m.slot, m.sender).1.None?
    requires cl' == After(cl, id, OnAccepted(id, nd, m))
    ensures Inv(cl')
  {
    hide LogOk, VotesOk, RoundOk, LocalOk, VotersOf, Inv, Voters, NodeOk, LeaderOk, AsksItselfBy, NodeMovesOn;
    ReadyGives(cl, id, nd, m);
    VotesMessagesOk(cl);
    CountedVotes(VotersOf(cl), cl, id, nd, nd.role.leadership, m);
    var nd' := nd.(role := Leader(Counted(nd.role.leadership, m.slot, m.sender).0));
    assert OnAccepted(id, nd, m) == Quiet(nd');
    SameNodeMovesOn(cl.nodes[id], nd');
    SilentEvolves(cl, id, nd', cl');
    hide After;
    SameLog(cl, nd, nd');
    VotesStay(cl, cl', nd');
    LogStays(cl, cl', nd');
    SameRound(nd, nd');
    LeaderElsewhere(VotersOf(cl), VotersOf(cl'), cl, id, nd, nd', cl');
    FinishStep(id, cl, cl');
  }

  lemma SameRound(nd: Node, nd': Node)
    requires RoundOk(nd) && nd'.disk == nd.disk && nd'.r == nd.r && nd.maxRound <= nd'.maxRound
    ensures RoundOk(nd')
  {
  }

  /** A leader in order stays so while it proposes nothing new. */
  lemma LeaderElsewhere(V: Electorate, V': Electorate, cl: Cluster, id: NodeId, nd: Node, nd': Node, cl': Cluster)
    requires Evolves(id, cl, cl') && Grows(V, V') && NoNewProposal(id, cl, cl')
    requires nd'.role.Leader? && LeaderOk(V, cl, id, nd.r.epoch, nd'.role.leadership) && nd'.r == nd.r
    ensures RoleOk(V', cl', id, nd') && CampaignBinds(cl', id, nd')
  {
    hide LeaderOk, Evolves;
    RoleStays(V, V', id, cl, cl', id, nd.(role := nd'.role, maxRound := nd'.maxRound), nd');
  }

  /** Counting the vote that decides a slot: the leader commits it and tells the others. */
  lemma DecisionStep(cl: Cluster, id: NodeId, nd: Node, m: Message, cl': Cluster)
    requires Inv(cl) && Ready(cl, id, nd, m) && m.Accepted? && Hears(id, nd, m)
    requires nd.role.Leader? && m.ballot == nd.role.leadership.ballot
    requires Counted(nd.role.leadership, m.slot, m.sender).1.Some?
    requires cl' == After(cl, id, OnAccepted(id, nd, m))
    ensures Inv(cl')
  {
    hide LogOk, VotesOk, RoundOk, LocalOk, VotersOf, Inv, Voters, NodeOk, LeaderOk, AsksItselfBy, NodeMovesOn,
      Committed, Decided, OnlyLogMoved;
    ReadyGives(cl, id, nd, m);
    VotesMessagesOk(cl);
    var V, p := VotersOf(cl), Pos(nd.r.epoch, m.slot);
    var (l, done) := Counted(nd.role.leadership, m.slot, m.sender);
    CountedVotes(V, cl, id, nd, nd.role.leadership, m);
    var counting := nd.(role := Leader(l));
    SameLog(cl, nd, counting);
    SameRound(nd, counting);
    var nd', c := Committed(counting, p, done.value), done.value;
    var o := Effect(nd', {Commit(id, p.epoch, p.slot, c)}, {}, map[p := c]);
    assert OnAccepted(id, nd, m) == o;
    CommitMovesOn(counting, p, c);
    CommitMovesOnFrom(cl, id, nd, counting, nd');
    SpeakingEvolves(cl, id, o, cl');
    AgreedLog(cl, id, o, p, c, cl');
    hide After;
    LogStays(cl, cl', counting);
    CommitKeepsLog(cl', counting, p, c);
    VotesStay(cl, cl', counting);
    CommittedVotes(cl', counting, p, c);
    CommittedRole(cl, id, counting, nd', cl');
    QueueKept(cl', counting, nd');
    hide Evolves, MessageOk, RoleOk, CampaignBinds, TestimonyOk;
    StepKeepsInv(id, cl, cl');
  }

  lemma CommitMovesOnFrom(cl: Cluster, id: NodeId, nd: Node, counting: Node, nd': Node)
    requires id in cl.nodes && nd == cl.nodes[id].(local := nd.local)
    requires counting.disk == nd.disk && counting.r == nd.r && NodeMovesOn(counting, nd')
    ensures NodeMovesOn(cl.nodes[id], nd')
  {
  }

  lemma QueueKept(cl: Cluster, nd: Node, nd': Node)
    requires LocalOk(cl, nd) && OnlyLogMoved(nd, nd')
    ensures LocalOk(cl, nd')
  {
  }

  lemma CommittedRole(cl: Cluster, id: NodeId, counting: Node, nd': Node, cl': Cluster)
    requires Evolves(id, cl, cl') && Grows(VotersOf(cl), VotersOf(cl')) && NoNewProposal(id, cl, cl')
    requires counting.role.Leader? && LeaderOk(VotersOf(cl), cl, id, counting.r.epoch, counting.role.leadership)
    requires OnlyLogMoved(counting, nd')
    ensures RoleOk(VotersOf(cl'), cl', id, nd') && CampaignBinds(cl', id, nd')
  {
    hide LeaderOk, Evolves, VotersOf;
    if !nd'.role.Follower? {
      RoleStays(VotersOf(cl), VotersOf(cl'), id, cl, cl', id, counting, nd');
    }
  }

  /** What a leader decides is what the agreed log holds from then on. */
  lemma AgreedLog(cl: Cluster, id: NodeId, o: Effect, p: Pos, c: Command, cl': Cluster)
    requires Inv(cl) && id in cl.nodes && cl' == After(cl, id, o) && Evolves(id, cl, cl')
    requires o.decided == map[p := c] && o.testimony == {}
    requires o.sent == {Commit(id, p.epoch, p.slot, c)}
    requires Decided(VotersOf(cl), cl, p.epoch, p.slot, c) && Grows(VotersOf(cl), VotersOf(cl'))
    ensures p in cl'.log && cl'.log[p] == c && cl'.testimony == cl.testimony && NoNewProposal(id, cl, cl')
    ensures forall x :: x in cl'.sent && x !in cl.sent ==> MessageOk(VotersOf(cl'), cl', x)
    ensures forall q :: q in cl'.log && q !in cl.log ==> Decided(VotersOf(cl'), cl', q.epoch, q.slot, cl'.log[q])
    ensures OneProposal(cl'.sent)
  {
    hide VotersOf, Decided, Evolves, MessageOk, TestimonyOk, NodeOk, CampaignBinds;
    if p in cl.log {
      OneDecision(cl, p.epoch, p.slot, c, cl.log[p]);
    }
    DecisionStays(VotersOf(cl), VotersOf(cl'), id, cl, cl', p.epoch, p.slot, c);
    assert forall x :: x in cl'.sent && x.Accept? ==> x in cl.sent;
    CommitIsAgreed(VotersOf(cl'), cl', id, p, c);
  }

  lemma CommitIsAgreed(V: Electorate, cl: Cluster, id: NodeId, p: Pos, c: Command)
    requires p in cl.log && cl.log[p] == c
    ensures MessageOk(V, cl, Commit(id, p.epoch, p.slot, c))
  {
  }

  lemma AcceptedStep(cl: Cluster, id: NodeId, nd: Node, m: Message, cl': Cluster)
    requires Inv(cl) && Ready(cl, id, nd, m) && m.Accepted? && Hears(id, nd, m)
    requires cl' == After(cl, id, OnAccepted(id, nd, m))
    ensures Inv(cl')
  {
    hide Inv, Ready, Committed;
    if !nd.role.Leader? || m.ballot != nd.role.leadership.ballot {
      ReadyBinds(cl, id, nd, m);
      IgnoredStep(cl, id, nd, m, cl');
    } else if Counted(nd.role.leadership, m.slot, m.sender).1.None? {
      StillCounting(cl, id, nd, m, cl');
    } else {
      DecisionStep(cl, id, nd, m, cl');
    }
  }

  lemma ReadyBinds(cl: Cluster, id: NodeId, nd: Node, m: Message)
    requires Inv(cl) && Ready(cl, id, nd, m) && !m.Prepare?
    ensures CampaignBinds(cl, id, nd)
  {
    hide Inv, NodeOk, Bound;
  }
}
