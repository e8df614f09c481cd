/** Every step keeps the invariant: answering a Prepare, voting, counting votes, serving the log. */
module Voting {
  import opened Ballots
  import opened Replays
  import opened Histories
  import opened Messages
  import opened Ledgers
  import opened Proposals
  import opened Nodes
  import opened Clusters
  import opened Invariants
  import opened Recoveries
  import opened Steps

  lemma SpeakingEvolves(cl: Cluster, id: NodeId, o: Effect, cl': Cluster)
    requires id in cl.nodes && cl' == After(cl, id, o) && NodeMovesOn(cl.nodes[id], o.node)
    requires forall a, e, b, s :: Accepted(a, e, b, s) in o.sent ==>
               a == id && cl.nodes[id].r.epoch == e && AtMost(Own(cl.nodes[id]).promised, b)
    requires forall x, e, b, s, c :: Accept(x, e, b, s, c) in o.sent ==> x == id
    ensures Evolves(id, cl, cl') && cl'.nodes[id] == o.node && cl'.sent == cl.sent + o.sent
    ensures Grows(VotersOf(cl), VotersOf(cl'))
  {
    hide NodeMovesOn;
    VotersKept(cl.genesis, cl.log, cl'.log);
  }

  // Nothing was decided, so the log and the voters are the same.
  lemma SameHistory(cl: Cluster, id: NodeId, o: Effect, cl': Cluster)
    requires id in cl.nodes && cl' == After(cl, id, o) && o.decided == map[]
    ensures cl'.log == cl.log && cl'.genesis == cl.genesis && VotersOf(cl') == VotersOf(cl)
  {
    hide Voters;
    assert cl'.log == cl.log;
  }

  lemma VotesStay(cl: Cluster, cl': Cluster, nd: Node)
    requires cl.sent <= cl'.sent
    ensures VotesOk(cl, nd) ==> VotesOk(cl', nd)
    ensures LocalOk(cl, nd) ==> LocalOk(cl', nd)
  {
  }

  // serving the log

  lemma ServedIsAgreed(cl: Cluster, id: NodeId, p: Pos, cl': Cluster)
    requires id in cl.nodes && LogOk(cl, cl.nodes[id]) && cl'.log == cl.log && cl'.genesis == cl.genesis
    ensures forall m :: m in Serve(id, cl.nodes[id], p) ==> MessageOk(VotersOf(cl'), cl', m) && (m.Commit? || m.Snapshot?)
  {
    hide VotersOf, Reached, Loaded, SafeAt;
  }

  lemma AnswerStep(cl: Cluster, id: NodeId, p: Pos, cl': Cluster)
    requires Inv(cl) && id in cl.nodes
    requires cl' == After(cl, id, Quiet(cl.nodes[id]).(sent := Serve(id, cl.nodes[id], p)))
    ensures Inv(cl')
  {
    hide LogOk, VotesOk, RoundOk, RoleOk, LocalOk, CampaignBinds, NodeMovesOn, VotersOf, Inv, Serve, MessageOk;
    InvOfNode(cl, id);
    var nd := cl.nodes[id];
    var o := Quiet(nd).(sent := Serve(id, nd, p));
    SameNodeMovesOn(nd, nd);
    SameHistory(cl, id, o, cl');
    ServedIsAgreed(cl, id, p, cl');
    SpeakingEvolves(cl, id, o, cl');
    hide Evolves, After;
    VotesStay(cl, cl', nd);
    LogStays(cl, cl', nd);
    RoleStays(VotersOf(cl), VotersOf(cl'), id, cl, cl', id, nd, nd);
    BindingStays(id, cl, cl', nd);
    FinishStep(id, cl, cl');
  }

  lemma BindingStays(id: NodeId, cl: Cluster, cl': Cluster, nd: Node)
    requires Evolves(id, cl, cl') && CampaignBinds(cl, id, nd)
    ensures CampaignBinds(cl', id, nd)
  {
    hide Evolves, AsksItself, Bound;
    OrdersStay(id, cl, cl');
  }

  /** The common end of a step that proposes and decides nothing. */
  lemma FinishStep(id: NodeId, cl: Cluster, cl': Cluster)
    requires Inv(cl) && Evolves(id, cl, cl') && cl'.log == cl.log
    requires var V', nd' := VotersOf(cl'), cl'.nodes[id];
             && LogOk(cl', nd') && VotesOk(cl', nd') && RoundOk(nd') && LocalOk(cl', nd')
             && RoleOk(V', cl', id, nd') && CampaignBinds(cl', id, nd')
             && (forall m :: m in cl'.sent && m !in cl.sent ==> MessageOk(V', cl', m) && !m.Accept?)
             && (forall t :: t in cl'.testimony && t !in cl.testimony ==> TestimonyOk(V', cl', t))
    ensures Inv(cl')
  {
    hide VotersOf, LogOk, VotesOk, RoundOk, LocalOk, RoleOk, CampaignBinds, MessageOk, TestimonyOk, Evolves, Decided;
    StepKeepsInv(id, cl, cl');
  }

  // phase 1b

  ghost predicate HidesNothing(cl: Cluster, a: NodeId, e: nat, b: Ballot, es: seq<Entry>, lo: nat) {
    forall b', s :: lo <= s && Less(b', b) && Accepted(a, e, b', s) in cl.sent ==> Reports(es, b', s)
  }

  /** The queue keeps its head. */
  ghost predicate HeadKept(nd: Node, nd': Node) {
    nd.local != [] ==> nd'.local != [] && nd'.local[0] == nd.local[0]
  }

  /** A Promise hides no vote above the acceptor's floor. */
  lemma ReportIsHonest(V: Electorate, cl: Cluster, id: NodeId, nd: Node, b: Ballot, from: nat)
    requires id in cl.nodes && nd == cl.nodes[id].(local := nd.local) && VotesOk(cl, nd)
    requires nd.r.epoch in V && id in V[nd.r.epoch]
    requires !Less(b, Own(nd).promised)
    requires forall m :: m in cl.sent && m.Accepted? ==> MessageOk(V, cl, m)
    ensures var es := Report(Own(nd).accepted, from);
            && (forall x :: x in es ==>
                  Accept(x.ballot.node, nd.r.epoch, x.ballot, x.slot, x.command) in cl.sent && AtMost(x.ballot, b))
            && HidesNothing(cl, id, nd.r.epoch, b, es, Max(from, Floor(nd)))
  {
    hide SafeAt;
    BallotsAreOrdered();
    var e, l := nd.r.epoch, Own(nd);
    var es := Report(l.accepted, from);
    ReportCovers(l.accepted, from);
    forall x | x in es
      ensures Accept(x.ballot.node, e, x.ballot, x.slot, x.command) in cl.sent && AtMost(x.ballot, b)
    {
      assert x.slot in LedgerOf(nd.disk.ledgers, e).accepted;
    }
    forall b', s | Max(from, Floor(nd)) <= s && Less(b', b) && Accepted(id, e, b', s) in cl.sent
      ensures Reports(es, b', s)
    {
      assert AcceptedOk(V, cl, id, e, b', s);
      assert Entry(s, l.accepted[s].ballot, l.accepted[s].command) in es;
    }
  }

  /** The ledger after answering a Prepare. */
  lemma PreparedLedger(cl: Cluster, id: NodeId, nd: Node, m: Message, o: Effect)
    requires VotesOk(cl, nd) && RoundOk(nd) && m.Prepare? && o == OnPrepare(id, nd, m)
    ensures VotesOk(cl, o.node) && RoundOk(o.node) && NodeMovesOn(nd, o.node)
    ensures Own(o.node) == AnswerPrepare(id, nd.r.epoch, Own(nd), m).0
    ensures o.node.r == nd.r && o.node.pending == nd.pending && o.node.violated == nd.violated
    ensures o.node.disk == Stored(nd.disk, nd.r.epoch, AnswerPrepare(id, nd.r.epoch, Own(nd), m).0)
    ensures nd.maxRound <= o.node.maxRound && (o.node.role == nd.role || o.node.role.Follower?)
    ensures HeadKept(nd, o.node)
  {
    hide Advance, Report, VotesOk, NodeMovesOn, AtMost, Stored, Raised;
    var l := AnswerPrepare(id, nd.r.epoch, Own(nd), m).0;
    RaisedLedger(Own(nd), m.ballot);
    OwnVotes(cl, nd);
    StoredMovesOn(nd, o.node, l);
    StoredVotes(cl, nd, o.node, l);
  }

  /** The node after answering a Prepare. */
  lemma PreparedNode(cl: Cluster, id: NodeId, nd: Node, m: Message, o: Effect)
    requires LogOk(cl, nd) && VotesOk(cl, nd) && RoundOk(nd) && m.Prepare? && o == OnPrepare(id, nd, m)
    ensures LogOk(cl, o.node) && VotesOk(cl, o.node) && RoundOk(o.node) && NodeMovesOn(nd, o.node)
    ensures Own(o.node) == AnswerPrepare(id, nd.r.epoch, Own(nd), m).0
    ensures o.node.r == nd.r && nd.maxRound <= o.node.maxRound
    ensures o.node.role == nd.role || o.node.role.Follower?
    ensures HeadKept(nd, o.node)
  {
    hide LogOk, VotesOk, RoundOk, NodeMovesOn, Stored, OnPrepare, AnswerPrepare, HeadKept;
    PreparedLedger(cl, id, nd, m, o);
    StoredLog(cl, nd, o.node, AnswerPrepare(id, nd.r.epoch, Own(nd), m).0);
  }

  lemma PrepareStep(cl: Cluster, id: NodeId, nd: Node, m: Message, cl': Cluster)
    requires Inv(cl) && Ready(cl, id, nd, m) && m.Prepare? && Hears(id, nd, m)
    requires cl' == After(cl, id, OnPrepare(id, nd, m))
    ensures Inv(cl')
  {
    hide LogOk, VotesOk, RoundOk, RoleOk, LocalOk, NodeMovesOn, OnPrepare, AnswerPrepare, VotersOf, CampaignBinds,
      AsksItselfBy, Inv, Voters, NodeOk;
    var o := OnPrepare(id, nd, m);
    PrepareReplyShape(cl, id, nd, m);
    ReadyGives(cl, id, nd, m);
    MembersAreVoters(cl, nd);
    PreparedNode(cl, id, nd, m, o);
    MovesOnAnyway(cl, id, nd, o.node);
    SpeakingEvolves(cl, id, o, cl');
    SameHistory(cl, id, o, cl');
    PrepareKeepsRole(cl, id, nd, m, o, cl');
    PrepareTestimony(cl, id, nd, m, o, cl');
    PrepareLocal(cl, id, nd, m, o, cl');
    PrepareSends(cl, id, o, cl');
    hide Evolves, After;
    VotesStay(cl, cl', o.node);
    LogStays(cl, cl', o.node);
    FinishStep(id, cl, cl');
  }

  lemma MovesOnAnyway(cl: Cluster, id: NodeId, nd: Node, nd': Node)
    requires id in cl.nodes && nd == cl.nodes[id].(local := nd.local) && NodeMovesOn(nd, nd')
    ensures NodeMovesOn(cl.nodes[id], nd')
  {
  }

  lemma PrepareSends(cl: Cluster, id: NodeId, o: Effect, cl': Cluster)
    requires cl'.testimony == cl.testimony + o.testimony && cl'.sent == cl.sent + o.sent
    requires (forall x :: x in o.sent ==> x.Promise? || x.Nack?)
    requires (forall x :: x in o.sent && x.Promise? ==> exists t :: t in o.testimony && t.answer == x)
    ensures forall m :: m in cl'.sent && m !in cl.sent ==> MessageOk(VotersOf(cl'), cl', m) && !m.Accept?
  {
    hide VotersOf, SafeAt;
  }

  lemma PrepareReplyShape(cl: Cluster, id: NodeId, nd: Node, m: Message)
    requires m.Prepare?
    ensures var o := OnPrepare(id, nd, m);
            && o.decided == map[] && (forall x :: x in o.sent ==> x.Promise? || x.Nack?)
            && (forall x :: x in o.sent && x.Promise? ==> exists t :: t in o.testimony && t.answer == x)
  {
    hide Report;
    var o := OnPrepare(id, nd, m);
    var reply := AnswerPrepare(id, nd.r.epoch, Own(nd), m).1;
    if reply.Promise? {
      assert Testimony(reply, m.fromSlot, Floor(nd)) in o.testimony;
    }
  }

  lemma PrepareLocal(cl: Cluster, id: NodeId, nd: Node, m: Message, o: Effect, cl': Cluster)
    requires LocalOk(cl, nd) && m.Prepare? && o == OnPrepare(id, nd, m)
    requires id in cl.nodes && cl' == After(cl, id, o)
    ensures LocalOk(cl', o.node)
  {
    hide Report, AnswerPrepare;
  }

  lemma PrepareTestimony(cl: Cluster, id: NodeId, nd: Node, m: Message, o: Effect, cl': Cluster)
    requires Inv(cl) && Ready(cl, id, nd, m) && m.Prepare? && Hears(id, nd, m) && o == OnPrepare(id, nd, m)
    requires cl' == After(cl, id, o) && Evolves(id, cl, cl') && VotersOf(cl') == VotersOf(cl)
    requires nd.r.epoch in VotersOf(cl) && id in VotersOf(cl)[nd.r.epoch]
    requires Own(o.node) == AnswerPrepare(id, nd.r.epoch, Own(nd), m).0
    ensures forall t :: t in cl'.testimony && t !in cl.testimony ==> TestimonyOk(VotersOf(cl'), cl', t)
  {
    var V, e, b := VotersOf(cl), nd.r.epoch, m.ballot;
    hide LogOk, RoundOk, RoleOk, LocalOk, VotersOf, Report, TestimonyOk, Inv, Evolves, CampaignBinds, AsksItselfBy,
      NodeOk;
    forall t | t in cl'.testimony && t !in cl.testimony ensures TestimonyOk(V, cl', t) {
      assert t in o.testimony;
      PromiseIsHonest(cl, id, nd, m, o, cl', t);
    }
  }

  lemma PromiseIsHonest(cl: Cluster, id: NodeId, nd: Node, m: Message, o: Effect, cl': Cluster, t: Testimony)
    requires Inv(cl) && Ready(cl, id, nd, m) && m.Prepare? && Hears(id, nd, m) && o == OnPrepare(id, nd, m)
    requires cl' == After(cl, id, o) && Evolves(id, cl, cl') && VotersOf(cl') == VotersOf(cl)
    requires nd.r.epoch in VotersOf(cl) && id in VotersOf(cl)[nd.r.epoch]
    requires Own(o.node) == AnswerPrepare(id, nd.r.epoch, Own(nd), m).0
    requires t in o.testimony
    ensures TestimonyOk(VotersOf(cl), cl', t)
  {
    var V, e, b := VotersOf(cl), nd.r.epoch, m.ballot;
    hide VotersOf, Report, SafeAt, TestimonyOk;
    assert !Less(b, Own(nd).promised);
    assert t == Testimony(Promise(id, e, b, Report(Own(nd).accepted, m.fromSlot)), m.fromSlot, Floor(nd));
    ReadyGives(cl, id, nd, m);
    assert b.node == m.sender && NotBefore(cl, b.node, Pos(m.epoch, m.fromSlot));
    VotesMessagesOk(cl);
    ReportIsHonest(V, cl, id, nd, b, m.fromSlot);
    TestimonyHolds(cl, id, nd, m, o, cl', t);
  }

  lemma VotesMessagesOk(cl: Cluster)
    requires Inv(cl)
    ensures forall m :: m in cl.sent && m.Accepted? ==> MessageOk(VotersOf(cl), cl, m)
  {
    hide VotersOf, MessageOk;
  }

  lemma TestimonyHolds(cl: Cluster, id: NodeId, nd: Node, m: Message, o: Effect, cl': Cluster, t: Testimony)
    requires id in cl.nodes && m.Prepare? && cl' == After(cl, id, o) && Evolves(id, cl, cl')
    requires var V, e := VotersOf(cl), nd.r.epoch; e in V && id in V[e] && m.epoch == e
    requires o.node.r == nd.r && Own(o.node) == Raised(Own(nd), m.ballot) && !Less(m.ballot, Own(nd).promised)
    requires forall a, e, b, s :: Accepted(a, e, b, s) !in o.sent
    requires NotBefore(cl, m.ballot.node, Pos(m.epoch, m.fromSlot))
    requires t == Testimony(Promise(id, nd.r.epoch, m.ballot, Report(Own(nd).accepted, m.fromSlot)), m.fromSlot, Floor(nd))
    requires var es := Report(Own(nd).accepted, m.fromSlot);
             && (forall x :: x in es ==>
                   Accept(x.ballot.node, nd.r.epoch, x.ballot, x.slot, x.command) in cl.sent && AtMost(x.ballot, m.ballot))
             && HidesNothing(cl, id, nd.r.epoch, m.ballot, es, Max(m.fromSlot, Floor(nd)))
    ensures TestimonyOk(VotersOf(cl), cl', t)
  {
    var V, e, b := VotersOf(cl), nd.r.epoch, m.ballot;
    hide VotersOf, Report, Reports, Floor;
    BallotsAreOrdered();
    OrdersStay(id, cl, cl');
    assert cl'.nodes[id] == o.node;
    assert Bound(cl', id, e, b);
    assert NotBefore(cl', b.node, Pos(e, m.fromSlot));
  }

  lemma PrepareKeepsRole(cl: Cluster, id: NodeId, nd: Node, m: Message, o: Effect, cl': Cluster)
    requires Inv(cl) && Ready(cl, id, nd, m) && m.Prepare? && o == OnPrepare(id, nd, m)
    requires cl' == After(cl, id, o) && Evolves(id, cl, cl') && VotersOf(cl') == VotersOf(cl)
    requires Grows(VotersOf(cl), VotersOf(cl'))
    requires RoleOk(VotersOf(cl), cl, id, nd)
    requires o.node.r == nd.r && nd.maxRound <= o.node.maxRound
    requires (o.node.role == nd.role || o.node.role.Follower?) && HeadKept(nd, o.node)
    requires forall x :: x in o.sent ==> !x.Accept?
    requires Own(o.node) == AnswerPrepare(id, nd.r.epoch, Own(nd), m).0
    ensures RoleOk(VotersOf(cl'), cl', id, o.node) && CampaignBinds(cl', id, o.node)
  {
    var V, nd' := VotersOf(cl), o.node;
    hide VotersOf, CandidateOk, LeaderOk, Report, Inv, NodeOk, OnPrepare;
    if !nd'.role.Follower? {
      RoleStays(V, V, id, cl, cl', id, nd, nd');
      if nd'.role.Candidate? {
        BallotsAreOrdered();
        OrdersStay(id, cl, cl');
        assert nd'.role == nd.role;
        if AsksItselfBy(id, nd, m) {
          assert Bound(cl', id, nd.r.epoch, nd.role.campaign.ballot);
        } else {
          assert OwnAcceptorBound(cl, id, nd);
        }
      }
    }
  }
}
