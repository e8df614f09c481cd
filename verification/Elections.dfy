/** Every step keeps the invariant: campaigning, counting promises, becoming leader, proposing. */
module Elections {
  import opened Ballots
  import opened StateMachines
  import opened Replays
  import opened Histories
  import opened Messages
  import opened Proposals
  import opened Nodes
  import opened Clusters
  import opened Invariants
  import opened Recoveries
  import opened Steps
  import opened Voting
  import opened Counting

  /** The common end of a step that proposes but decides nothing. */
  lemma FinishProposing(id: NodeId, cl: Cluster, cl': Cluster)
    requires Inv(cl) && Evolves(id, cl, cl') && cl'.log == cl.log && cl'.testimony == cl.testimony
    requires var V', nd' := VotersOf(cl'), cl'.nodes[id];
             && LogOk(cl', nd') && VotesOk(cl', nd') && RoundOk(nd') && LocalOk(cl', nd')
             && RoleOk(V', cl', id, nd') && CampaignBinds(cl', id, nd')
             && (forall m :: m in cl'.sent && m !in cl.sent ==> MessageOk(V', cl', m))
             && OneProposal(cl'.sent)
    ensures Inv(cl')
  {
    hide VotersOf, LogOk, VotesOk, RoundOk, LocalOk, RoleOk, CampaignBinds, MessageOk, TestimonyOk, Evolves, Decided;
    StepKeepsInv(id, cl, cl');
  }

  // campaigning

  /** Rounds only grow, also over a crash: every ballot a node proposed under in its epoch is at or
      below the round it counts on from. */
  lemma LedRounds(cl: Cluster, id: NodeId, b: Ballot, s: nat, c: Command)
    requires Inv(cl) && id in cl.nodes && b.node == id && Accept(id, cl.nodes[id].r.epoch, b, s, c) in cl.sent
    ensures b.round <= cl.nodes[id].maxRound
  {
    InvOfNode(cl, id);
    var V, e := VotersOf(cl), cl.nodes[id].r.epoch;
    hide VotersOf, SafeAt, NodeOk, TestimonyOk, CampaignBinds, LogOk, VotesOk, LocalOk, RoleOk;
    assert MessageOk(V, cl, Accept(id, e, b, s, c));
    assert Bound(cl, id, e, b);
  }

  lemma FreshBallot(cl: Cluster, id: NodeId, b: Ballot)
    requires Inv(cl) && id in cl.nodes && b.node == id && cl.nodes[id].maxRound < b.round
    ensures forall s, c :: Accept(id, cl.nodes[id].r.epoch, b, s, c) !in cl.sent
  {
    hide Inv;
    forall s: nat, c | Accept(id, cl.nodes[id].r.epoch, b, s, c) in cl.sent ensures false {
      LedRounds(cl, id, b, s, c);
    }
  }

  lemma CampaignNode(cl: Cluster, id: NodeId, nd: Node)
    requires LogOk(cl, nd) && VotesOk(cl, nd) && RoundOk(nd) && nd.local == [] && id in nd.r.members
    ensures var o := StartCampaign(id, nd);
            && LogOk(cl, o.node) && VotesOk(cl, o.node) && RoundOk(o.node) && NodeMovesOn(nd, o.node)
            && o.decided == map[] && o.testimony == {}
            && o.node.r == nd.r && o.node.disk == nd.disk
  {
    hide Advance, Faithful;
    BallotsAreOrdered();
  }

  lemma ElectStep(cl: Cluster, id: NodeId, cl': Cluster)
    requires Inv(cl) && id in cl.nodes && cl.nodes[id].local == [] && id in cl.nodes[id].r.members
    requires cl' == After(cl, id, StartCampaign(id, cl.nodes[id]))
    ensures Inv(cl')
  {
    hide LogOk, VotesOk, RoundOk, RoleOk, LocalOk, CampaignBinds, NodeMovesOn, VotersOf, Inv, StartCampaign, Voters;
    InvOfNode(cl, id);
    var nd := cl.nodes[id];
    var o := StartCampaign(id, nd);
    CampaignNode(cl, id, nd);
    MembersAreVoters(cl, nd);
    FreshBallot(cl, id, Ballot(nd.maxRound + 1, id));
    CampaignSends(cl, id, nd, cl');
    SpeakingEvolves(cl, id, o, cl');
    SameHistory(cl, id, o, cl');
    CampaignRole(cl, id, nd, Ballot(nd.maxRound + 1, id), cl');
    hide After, Evolves;
    VotesStay(cl, cl', o.node);
    LogStays(cl, cl', o.node);
    FinishStep(id, cl, cl');
  }

  lemma CampaignSends(cl: Cluster, id: NodeId, nd: Node, cl': Cluster)
    requires id in cl.nodes && nd == cl.nodes[id] && nd.local == [] && id in nd.r.members
    requires cl' == After(cl, id, StartCampaign(id, nd))
    ensures forall m :: m in StartCampaign(id, nd).sent ==> m.Prepare?
    ensures forall m :: m in cl'.sent && m !in cl.sent ==> MessageOk(VotersOf(cl'), cl', m) && !m.Accept?
    ensures LocalOk(cl', cl'.nodes[id])
  {
    hide VotersOf;
  }

  lemma CampaignRole(cl: Cluster, id: NodeId, nd: Node, b: Ballot, cl': Cluster)
    requires id in cl.nodes && nd == cl.nodes[id] && nd.local == [] && id in nd.r.members
    requires cl' == After(cl, id, StartCampaign(id, nd))
    requires nd.r.epoch in VotersOf(cl') && VotersOf(cl')[nd.r.epoch] == nd.r.members.Keys
    requires b == Ballot(nd.maxRound + 1, id) && forall s, c :: Accept(id, nd.r.epoch, b, s, c) !in cl.sent
    ensures RoleOk(VotersOf(cl'), cl', id, cl'.nodes[id]) && CampaignBinds(cl', id, cl'.nodes[id])
  {
    hide VotersOf;
    var nd' := cl'.nodes[id];
    assert nd'.local == [Prepare(id, nd.r.epoch, b, nd.r.nextSlot)];
    assert |nd.r.members| == |nd.r.members.Keys|;
  }

  // counting promises

  /** A promise that may be counted hides no vote from the candidate's next slot on. */
  lemma CountedIsHonest(cl: Cluster, id: NodeId, nd: Node, m: Message, t: Testimony)
    requires Inv(cl) && id in cl.nodes && nd == cl.nodes[id].(local := nd.local)
    requires Counts(nd, m) && m.epoch == nd.r.epoch && nd.role.campaign.ballot.node == id
    requires t in cl.testimony && t.answer == m && t.floor <= t.fromSlot
    ensures Honest(VotersOf(cl), cl, m.sender, m.epoch, m.ballot, m.accepted, nd.r.nextSlot)
  {
    var V := VotersOf(cl);
    hide VotersOf, Inv, Reports;
    assert TestimonyOk(V, cl, t) by { TestimonyOf(cl, t); }
    assert NotBefore(cl, id, Pos(m.epoch, t.fromSlot));
    assert Max(t.fromSlot, t.floor) <= nd.r.nextSlot;
  }

  lemma TestimonyOf(cl: Cluster, t: Testimony)
    requires Inv(cl) && t in cl.testimony
    ensures TestimonyOk(VotersOf(cl), cl, t)
  {
    hide VotersOf, TestimonyOk;
  }

  /** A campaign's promises stay in order when one more is counted. */
  lemma PromisePut(V: Electorate, cl: Cluster, id: NodeId, nd: Node, c: Campaign, m: Message)
    requires CandidateOk(V, cl, id, nd, c) && m.Promise?
    requires Honest(V, cl, m.sender, nd.r.epoch, c.ballot, m.accepted, nd.r.nextSlot)
    ensures var ps := Put(c.promises, m.sender, m.accepted);
            && DistinctSenders(ps) && |ps| <= |c.promises| + 1
            && forall p :: p in ps ==> Honest(V, cl, p.0, nd.r.epoch, c.ballot, p.1, nd.r.nextSlot)
  {
    hide Honest;
    PutReplaces(c.promises, m.sender, m.accepted);
  }

  lemma StillCampaigning(cl: Cluster, id: NodeId, nd: Node, m: Message, c: Campaign, cl': Cluster)
    requires Inv(cl) && Ready(cl, id, nd, m) && Counts(nd, m)
    requires c == nd.role.campaign.(promises := c.promises) && |c.promises| < c.quorum && DistinctSenders(c.promises)
    requires forall p :: p in c.promises ==> Honest(VotersOf(cl), cl, p.0, nd.r.epoch, c.ballot, p.1, nd.r.nextSlot)
    requires cl' == After(cl, id, Quiet(nd.(role := Candidate(c))))
    ensures Inv(cl')
  {
    hide LogOk, VotesOk, RoundOk, LocalOk, VotersOf, Inv, Voters, NodeOk, Honest, AsksItselfBy, NodeMovesOn;
    ReadyGives(cl, id, nd, m);
    var nd' := nd.(role := Candidate(c));
    SameNodeMovesOn(cl.nodes[id], nd');
    SilentEvolves(cl, id, nd', cl');
    hide After;
    SameLog(cl, nd, nd');
    SameRound(nd, nd');
    VotesStay(cl, cl', nd');
    LogStays(cl, cl', nd');
    assert CandidateOk(VotersOf(cl), cl, id, nd', c);
    RoleStays(VotersOf(cl), VotersOf(cl'), id, cl, cl', id, nd', nd');
    assert CampaignBinds(cl, id, nd');
    BindingStays(id, cl, cl', nd');
    FinishStep(id, cl, cl');
  }

  /** The senders of the promises counted. */
  function Senders(ps: Promises): set<NodeId> {
    set p | p in ps :: p.0
  }

  lemma {:induction false} SendersCount(ps: Promises)
    requires DistinctSenders(ps)
    ensures |Senders(ps)| == |ps|
  {
    if ps != [] {
      var rest, last := ps[..|ps| - 1], ps[|ps| - 1];
      SendersCount(rest);
      assert ps == rest + [last];
      assert Senders(ps) == Senders(rest) + {last.0};
    }
  }

  /** What a majority of honest promises for ballot `b` says about every slot from `lo` on. */
  ghost predicate Elected(V: Electorate, cl: Cluster, e: nat, b: Ballot, ps: Promises, lo: nat) {
    && e in V && DistinctSenders(ps) && |V[e]| / 2 + 1 <= |ps|
    && forall p :: p in ps ==> Honest(V, cl, p.0, e, b, p.1, lo)
  }

  lemma ElectedByQuorum(V: Electorate, cl: Cluster, e: nat, b: Ballot, ps: Promises, lo: nat)
    requires Elected(V, cl, e, b, ps, lo)
    ensures IsQuorum(Senders(ps), V[e])
  {
    SendersCount(ps);
  }

  /** A ballot below the election at which no promise reports a vote is blocked. */
  lemma UnreportedIsBlocked(V: Electorate, cl: Cluster, e: nat, b: Ballot, ps: Promises, lo: nat, s: nat, b': Ballot)
    requires Elected(V, cl, e, b, ps, lo) && lo <= s && Less(b', b)
    requires forall x :: x in Joined(ps) && x.slot == s ==> !AtMost(b', x.ballot)
    ensures Blocked(V, cl, e, b', s)
  {
    BallotsAreOrdered();
    var Q := Senders(ps);
    ElectedByQuorum(V, cl, e, b, ps, lo);
    forall a | a in Q ensures Past(cl, a, e, b') && Accepted(a, e, b', s) !in cl.sent {
      var p :| p in ps && p.0 == a;
      assert Honest(V, cl, p.0, e, b, p.1, lo);
      if Accepted(a, e, b', s) in cl.sent {
        assert Reports(p.1, b', s);
        var x :| x in p.1 && x.slot == s && AtMost(b', x.ballot);
        InJoined(ps, p, x);
      }
    }
    assert Refuses(cl, Q, e, b', s);
  }

  lemma InJoined(ps: Promises, p: (NodeId, seq<Entry>), x: Entry)
    requires p in ps && x in p.1
    ensures x in Joined(ps)
  {
    JoinedHolds(ps, x);
    var i :| 0 <= i < |ps| && ps[i] == p;
    assert x in ps[i].1;
  }

  /** Value choice on election: what the plan proposes for a slot is the only command any lower
      ballot can still decide there; for a slot nobody reports, none can decide anything. */
  lemma PlanIsSafe(V: Electorate, cl: Cluster, e: nat, b: Ballot, ps: Promises, lo: nat, s: nat)
    requires Elected(V, cl, e, b, ps, lo) && lo <= s
    requires forall m :: m in cl.sent && m.Accept? ==> MessageOk(V, cl, m)
    requires forall c :: Accept(b.node, e, b, s, c) !in cl.sent
    ensures SafeAt(V, cl, e, b, s, Replacement(Joined(ps), s))
    ensures Best(Joined(ps), s).None? ==> Open(V, cl, e, b, s)
  {
    var es := Joined(ps);
    BallotsAreOrdered();
    BestIsHighest(es, s);
    if Best(es, s).None? {
      forall b' | Less(b', b) ensures Blocked(V, cl, e, b', s) {
        UnreportedIsBlocked(V, cl, e, b, ps, lo, s, b');
      }
    } else {
      var v := Best(es, s).value;
      var x := Entry(s, v.ballot, v.command);
      ReportedWasProposed(V, cl, e, b, ps, lo, x);
      assert MessageOk(V, cl, Accept(v.ballot.node, e, v.ballot, s, v.command));
      assert SafeAt(V, cl, e, v.ballot, s, v.command);
      forall b' | Less(b', b)
        ensures Accept(b'.node, e, b', s, v.command) in cl.sent || Blocked(V, cl, e, b', s)
      {
        if Less(v.ballot, b') {
          UnreportedIsBlocked(V, cl, e, b, ps, lo, s, b');
        }
      }
    }
  }

  lemma ReportedWasProposed(V: Electorate, cl: Cluster, e: nat, b: Ballot, ps: Promises, lo: nat, x: Entry)
    requires Elected(V, cl, e, b, ps, lo) && x in Joined(ps)
    ensures Accept(x.ballot.node, e, x.ballot, x.slot, x.command) in cl.sent && AtMost(x.ballot, b)
  {
    JoinedHolds(ps, x);
    var i :| 0 <= i < |ps| && x in ps[i].1;
    assert ps[i] in ps;
    assert Honest(V, cl, ps[i].0, e, b, ps[i].1, lo);
  }

  /** The first free slot is above every reported one. */
  lemma FreeIsAboveReported(es: seq<Entry>, from: nat, e: nat, chosen: Log)
    ensures ReportedTop(es) <= FirstFree(es, from, e, chosen)
  {
    if from < ReportedTop(es) {
      var top := ReportedTop(es) - 1;
      if Pos(e, top) in chosen {
        var slots := set p | p in chosen && p.epoch == e :: p.slot;
        assert Pos(e, top).slot in slots;
      } else {
        assert top in Plan(es, from, e, chosen).Keys;
      }
    }
  }

  lemma FreeSlotsAreUnreported(es: seq<Entry>, from: nat, e: nat, chosen: Log, s: nat)
    requires FirstFree(es, from, e, chosen) <= s
    ensures Best(es, s).None? && from <= s
  {
    BestIsHighest(es, s);
    ReportedTopBounds(es);
    FreeIsAboveReported(es, from, e, chosen);
  }

  lemma {:induction false} ProposingCovers(id: NodeId, e: nat, b: Ballot, plan: map<nat, Command>, lo: nat, hi: nat)
    ensures forall m :: m in Proposing(id, e, b, plan, lo, hi) <==>
              exists s :: lo <= s < hi && s in plan && m == Accept(id, e, b, s, plan[s])
    decreases hi - lo
  {
    if lo < hi {
      ProposingCovers(id, e, b, plan, lo + 1, hi);
      var rest := Proposing(id, e, b, plan, lo + 1, hi);
      forall m ensures m in Proposing(id, e, b, plan, lo, hi) <==>
                       exists s :: lo <= s < hi && s in plan && m == Accept(id, e, b, s, plan[s])
      {
        if lo in plan {
          assert Proposing(id, e, b, plan, lo, hi) == [Accept(id, e, b, lo, plan[lo])] + rest;
        }
      }
    }
  }

  // becoming leader

  /** What a new leader's proposals come to. */
  ghost predicate TakesOver(cl: Cluster, id: NodeId, e: nat, b: Ballot, es: seq<Entry>, lo: nat, chosen: Log,
                            sent: set<Message>)
  {
    var plan := Plan(es, lo, e, chosen);
    && (forall m :: m in sent ==> exists s :: s in plan && m == Accept(id, e, b, s, plan[s]))
    && (forall s :: s in plan ==> Accept(id, e, b, s, plan[s]) in sent)
  }

  lemma PlanIsSent(cl: Cluster, id: NodeId, nd: Node, c: Campaign)
    ensures var o := BecomeLeader(id, nd, c);
            && o.decided == map[] && o.testimony == {} && o.node.r == nd.r && o.node.disk == nd.disk
            && o.node.pending == nd.pending && o.node.violated == nd.violated && o.node.maxRound == nd.maxRound
            && TakesOver(cl, id, nd.r.epoch, c.ballot, Joined(c.promises), nd.r.nextSlot, nd.disk.chosen, o.sent)
            && (forall m :: m in o.node.local ==> m in nd.local || m in o.sent)
  {
    var e, from, es := nd.r.epoch, nd.r.nextSlot, Joined(c.promises);
    var plan := Plan(es, from, e, nd.disk.chosen);
    hide FirstFree, Joined, Plan, Taken;
    PlanRange(es, from, e, nd.disk.chosen);
    ProposingCovers(id, e, c.ballot, plan, from, ReportedTop(es));
  }

  lemma PlanRange(es: seq<Entry>, from: nat, e: nat, chosen: Log)
    ensures forall s :: s in Plan(es, from, e, chosen) ==> from <= s < ReportedTop(es)
    ensures forall s :: s in Plan(es, from, e, chosen) ==> Plan(es, from, e, chosen)[s] == Replacement(es, s)
  {
  }

  lemma PlannedMessage(V: Electorate, V': Electorate, cl: Cluster, id: NodeId, e: nat, b: Ballot, ps: Promises, lo: nat, s: nat, cl': Cluster)
    requires Evolves(id, cl, cl') && Grows(V, V') && b.node == id && lo <= s
    requires Elected(V, cl, e, b, ps, lo) && Bound(cl, id, e, b)
    requires forall m :: m in cl.sent && m.Accept? ==> MessageOk(V, cl, m)
    requires forall c :: Accept(id, e, b, s, c) !in cl.sent
    ensures MessageOk(V', cl', Accept(id, e, b, s, Replacement(Joined(ps), s)))
  {
    PlanIsSafe(V, cl, e, b, ps, lo, s);
    ElectedVoters(V, V', cl, e, b, ps, lo);
    hide Evolves, SafeAt, Replacement, Joined, Elected, Bound;
    OrdersStay(id, cl, cl');
    SafetyStays(V, V', id, cl, cl');
  }

  lemma PlannedMessages(cl: Cluster, id: NodeId, e: nat, b: Ballot, ps: Promises, lo: nat, chosen: Log, o: Effect, cl': Cluster)
    requires Inv(cl) && id in cl.nodes && cl' == After(cl, id, o) && Evolves(id, cl, cl')
    requires Grows(VotersOf(cl), VotersOf(cl')) && b.node == id
    requires TakesOver(cl, id, e, b, Joined(ps), lo, chosen, o.sent)
    requires Elected(VotersOf(cl), cl, e, b, ps, lo) && Bound(cl, id, e, b)
    requires forall s, c :: Accept(id, e, b, s, c) !in cl.sent
    ensures forall m :: m in cl'.sent && m !in cl.sent ==> MessageOk(VotersOf(cl'), cl', m)
  {
    ProposalMessagesOk(cl);
    PlanRange(Joined(ps), lo, e, chosen);
    hide VotersOf, Inv, Evolves, Plan, Joined, Elected, Replacement, MessageOk, Bound, Grows;
    forall m | m in cl'.sent && m !in cl.sent ensures MessageOk(VotersOf(cl'), cl', m) {
      assert m in o.sent;
      var s :| s in Plan(Joined(ps), lo, e, chosen) && m == Accept(id, e, b, s, Plan(Joined(ps), lo, e, chosen)[s]);
      PlannedMessage(VotersOf(cl), VotersOf(cl'), cl, id, e, b, ps, lo, s, cl');
    }
  }

  lemma ElectedVoters(V: Electorate, V': Electorate, cl: Cluster, e: nat, b: Ballot, ps: Promises, lo: nat)
    requires Elected(V, cl, e, b, ps, lo) && Grows(V, V')
    ensures e in V && e in V' && V'[e] == V[e]
  {
  }

  lemma ProposalMessagesOk(cl: Cluster)
    requires Inv(cl)
    ensures forall m :: m in cl.sent && m.Accept? ==> MessageOk(VotersOf(cl), cl, m)
    ensures OneProposal(cl.sent)
  {
    hide VotersOf, MessageOk, OneProposal;
  }

  lemma PlanProposesOnce(cl: Cluster, id: NodeId, e: nat, b: Ballot, es: seq<Entry>, lo: nat, chosen: Log, o: Effect, cl': Cluster)
    requires OneProposal(cl.sent) && cl' == After(cl, id, o) && b.node == id
    requires TakesOver(cl, id, e, b, es, lo, chosen, o.sent)
    requires forall s, cmd :: Accept(id, e, b, s, cmd) !in cl.sent
    ensures OneProposal(cl'.sent)
  {
    hide Plan;
    forall e', b': Ballot, s, c, c' | Accept(b'.node, e', b', s, c) in cl'.sent && Accept(b'.node, e', b', s, c') in cl'.sent
      ensures c == c'
    {
    }
  }

  lemma FreeSlotsAreOpen(cl: Cluster, id: NodeId, e: nat, b: Ballot, ps: Promises, lo: nat, chosen: Log, cl': Cluster)
    requires Inv(cl) && Evolves(id, cl, cl') && VotersOf(cl') == VotersOf(cl) && b.node == id
    requires Elected(VotersOf(cl), cl, e, b, ps, lo)
    requires forall s, c :: Accept(id, e, b, s, c) !in cl.sent
    ensures forall s :: FirstFree(Joined(ps), lo, e, chosen) <= s ==> Open(VotersOf(cl'), cl', e, b, s)
  {
    var V := VotersOf(cl);
    ProposalMessagesOk(cl);
    hide VotersOf, Inv, Evolves, Joined, FirstFree, Open, MessageOk, Elected, SafeAt;
    assert Grows(V, V);
    SafetyStays(V, V, id, cl, cl');
    forall s: nat | FirstFree(Joined(ps), lo, e, chosen) <= s ensures Open(V, cl', e, b, s) {
      FreeSlotsAreUnreported(Joined(ps), lo, e, chosen, s);
      PlanIsSafe(V, cl, e, b, ps, lo, s);
    }
  }

  lemma NewLeader(cl: Cluster, id: NodeId, e: nat, b: Ballot, q: nat, ps: Promises, lo: nat, chosen: Log, o: Effect, cl': Cluster)
    requires Inv(cl) && id in cl.nodes && cl' == After(cl, id, o) && Evolves(id, cl, cl')
    requires VotersOf(cl') == VotersOf(cl) && b.node == id && o.node.r.epoch == e
    requires TakesOver(cl, id, e, b, Joined(ps), lo, chosen, o.sent)
    requires Elected(VotersOf(cl), cl, e, b, ps, lo) && q == |VotersOf(cl)[e]| / 2 + 1
    requires Bound(cl, id, e, b)
    requires forall s, c :: Accept(id, e, b, s, c) !in cl.sent
    requires var es := Joined(ps);
             o.node.role == Leader(Taken(b, q, FirstFree(es, lo, e, chosen), Plan(es, lo, e, chosen)))
    ensures RoleOk(VotersOf(cl'), cl', id, o.node) && CampaignBinds(cl', id, o.node)
  {
    var es := Joined(ps);
    var plan := Plan(es, lo, e, chosen);
    PlanBelowFree(es, lo, e, chosen);
    FreeSlotsAreOpen(cl, id, e, b, ps, lo, chosen, cl');
    hide VotersOf, Inv, Plan, Joined, FirstFree, Open, Bound;
    OrdersStay(id, cl, cl');
    ElectedVoters(VotersOf(cl), VotersOf(cl), cl, e, b, ps, lo);
    PlanInSent(cl, id, e, b, es, lo, chosen, o, cl');
    hide Evolves, After, Elected, TakesOver;
    TakenIsOk(VotersOf(cl), cl', id, e, b, q, FirstFree(es, lo, e, chosen), plan);
  }

  lemma PlanInSent(cl: Cluster, id: NodeId, e: nat, b: Ballot, es: seq<Entry>, lo: nat, chosen: Log, o: Effect, cl': Cluster)
    requires id in cl.nodes && cl' == After(cl, id, o) && TakesOver(cl, id, e, b, es, lo, chosen, o.sent)
    requires forall s, c :: Accept(id, e, b, s, c) !in cl.sent
    ensures forall s: nat, c :: Accept(id, e, b, s, c) in cl'.sent ==> s in Plan(es, lo, e, chosen)
    ensures forall s :: s in Plan(es, lo, e, chosen) ==> Accept(id, e, b, s, Plan(es, lo, e, chosen)[s]) in cl'.sent
  {
    hide Plan;
  }

  lemma TakenIsOk(V: Electorate, cl: Cluster, id: NodeId, e: nat, b: Ballot, q: nat, free: nat, plan: map<nat, Command>)
    requires e in V && q == |V[e]| / 2 + 1 && b.node == id && Bound(cl, id, e, b)
    requires forall s :: free <= s ==> Open(V, cl, e, b, s)
    requires forall s :: s in plan ==> s < free
    requires forall s: nat, c :: Accept(id, e, b, s, c) in cl.sent ==> s in plan
    requires forall s :: s in plan ==> Accept(id, e, b, s, plan[s]) in cl.sent
    ensures LeaderOk(V, cl, id, e, Taken(b, q, free, plan))
  {
    hide Open, Bound;
  }

  lemma PlanBelowFree(es: seq<Entry>, from: nat, e: nat, chosen: Log)
    ensures forall s :: s in Plan(es, from, e, chosen) ==> s < FirstFree(es, from, e, chosen)
  {
  }

  lemma LeaderRole(id: NodeId, nd: Node, c: Campaign)
    ensures var es, from, e := Joined(c.promises), nd.r.nextSlot, nd.r.epoch;
            BecomeLeader(id, nd, c).node.role
            == Leader(Taken(c.ballot, c.quorum, FirstFree(es, from, e, nd.disk.chosen), Plan(es, from, e, nd.disk.chosen)))
  {
    hide Joined, FirstFree, Plan, Proposing;
  }

  lemma LeaderStep(cl: Cluster, id: NodeId, nd: Node, m: Message, c: Campaign, cl': Cluster)
    requires Inv(cl) && Ready(cl, id, nd, m) && Counts(nd, m)
    requires c == nd.role.campaign.(promises := c.promises) && DistinctSenders(c.promises) && c.quorum <= |c.promises|
    requires forall p :: p in c.promises ==> Honest(VotersOf(cl), cl, p.0, nd.r.epoch, c.ballot, p.1, nd.r.nextSlot)
    requires cl' == After(cl, id, BecomeLeader(id, nd, c))
    ensures Inv(cl')
  {
    hide LogOk, VotesOk, RoundOk, LocalOk, VotersOf, Inv, Voters, NodeOk, Honest, AsksItselfBy, NodeMovesOn,
      BecomeLeader, OneProposal, MessageOk, LeaderOk;
    ReadyGives(cl, id, nd, m);
    assert CandidateOk(VotersOf(cl), cl, id, nd, nd.role.campaign);
    assert Elected(VotersOf(cl), cl, nd.r.epoch, c.ballot, c.promises, nd.r.nextSlot);
    CandidateIsBound(cl, id, nd, m);
    var o := BecomeLeader(id, nd, c);
    PlanIsSent(cl, id, nd, c);
    SameNodeMovesOn(cl.nodes[id], o.node);
    SpeakingEvolves(cl, id, o, cl');
    SameHistory(cl, id, o, cl');
    ProposalMessagesOk(cl);
    PlannedMessages(cl, id, nd.r.epoch, c.ballot, c.promises, nd.r.nextSlot, nd.disk.chosen, o, cl');
    PlanProposesOnce(cl, id, nd.r.epoch, c.ballot, Joined(c.promises), nd.r.nextSlot, nd.disk.chosen, o, cl');
    LeaderRole(id, nd, c);
    NewLeader(cl, id, nd.r.epoch, c.ballot, c.quorum, c.promises, nd.r.nextSlot, nd.disk.chosen, o, cl');
    Queued(cl, id, nd, o, cl');
    hide After, Evolves, TakesOver, Elected;
    SameStory(cl, nd, o.node);
    SameRound(nd, o.node);
    VotesStay(cl, cl', o.node);
    LogStays(cl, cl', o.node);
    FinishProposing(id, cl, cl');
  }

  lemma CandidateIsBound(cl: Cluster, id: NodeId, nd: Node, m: Message)
    requires Inv(cl) && Ready(cl, id, nd, m) && Counts(nd, m)
    ensures Bound(cl, id, nd.r.epoch, nd.role.campaign.ballot)
  {
    hide Bound, Inv, NodeOk;
  }

  lemma Queued(cl: Cluster, id: NodeId, nd: Node, o: Effect, cl': Cluster)
    requires LocalOk(cl, nd) && id in cl.nodes && cl' == After(cl, id, o)
    requires forall m :: m in o.node.local ==> m in nd.local || m in o.sent
    ensures LocalOk(cl', o.node)
  {
  }

  lemma SameStory(cl: Cluster, nd: Node, nd': Node)
    requires LogOk(cl, nd) && VotesOk(cl, nd)
    requires nd'.disk == nd.disk && nd'.r == nd.r && nd'.pending == nd.pending && nd'.violated == nd.violated
    ensures LogOk(cl, nd') && VotesOk(cl, nd')
  {
  }

  lemma PromiseStep(cl: Cluster, id: NodeId, nd: Node, m: Message, cl': Cluster)
    requires Inv(cl) && Ready(cl, id, nd, m) && m.Promise? && Hears(id, nd, m)
    requires Counts(nd, m) ==> exists t :: t in cl.testimony && t.answer == m && t.floor <= t.fromSlot
    requires cl' == After(cl, id, OnPromise(id, nd, m))
    ensures Inv(cl')
  {
    hide Inv, NodeOk, BecomeLeader, Bound, OwnAcceptorBound, Honest, VotersOf, Put, After, CampaignBinds;
    if !Counts(nd, m) {
      ReadyBinds(cl, id, nd, m);
      IgnoredStep(cl, id, nd, m, cl');
    } else {
      ReadyGives(cl, id, nd, m);
      var t :| t in cl.testimony && t.answer == m && t.floor <= t.fromSlot;
      var c := nd.role.campaign;
      CountedIsHonest(cl, id, nd, m, t);
      PromisePut(VotersOf(cl), cl, id, nd, c, m);
      var c' := c.(promises := Put(c.promises, m.sender, m.accepted));
      if c.quorum <= |c'.promises| {
        LeaderStep(cl, id, nd, m, c', cl');
      } else {
        StillCampaigning(cl, id, nd, m, c', cl');
      }
    }
  }

  // new commands

  /** A slot a leader hands out for the first time. */
  lemma OfferedIsOk(V: Electorate, cl: Cluster, id: NodeId, e: nat, l: Leadership, c: Command, cl': Cluster)
    requires LeaderOk(V, cl, id, e, l) && Evolves(id, cl, cl') && OneProposal(cl.sent)
    requires cl'.sent == cl.sent + {Accept(id, e, l.ballot, l.nextFree, c)}
    ensures LeaderOk(V, cl', id, e, ProposedAt(l, l.nextFree, c))
    ensures MessageOk(V, cl', Accept(id, e, l.ballot, l.nextFree, c))
    ensures OneProposal(cl'.sent)
  {
    hide Open, SafeAt, Bound, Evolves;
    OrdersStay(id, cl, cl');
    assert Grows(V, V);
    SafetyStays(V, V, id, cl, cl');
    OpenIsSafe(V, cl', e, l.ballot, l.nextFree, c);
    forall e', b: Ballot, s, c', c'' | Accept(b.node, e', b, s, c') in cl'.sent && Accept(b.node, e', b, s, c'') in cl'.sent
      ensures c' == c''
    {
    }
  }

  lemma OpenIsSafe(V: Electorate, cl: Cluster, e: nat, b: Ballot, s: nat, c: Command)
    requires Open(V, cl, e, b, s)
    ensures SafeAt(V, cl, e, b, s, c)
  {
  }

  lemma OfferStep(cl: Cluster, id: NodeId, c: Command, cl': Cluster)
    requires Inv(cl) && id in cl.nodes && cl.nodes[id].role.Leader?
    requires cl' == After(cl, id, Propose(id, cl.nodes[id], c))
    ensures Inv(cl')
  {
    hide LogOk, VotesOk, RoundOk, LocalOk, VotersOf, Inv, Voters, NodeOk, NodeMovesOn, LeaderOk, MessageOk,
      ProposedAt, OneProposal;
    InvOfNode(cl, id);
    var nd := cl.nodes[id];
    var l, o := nd.role.leadership, Propose(id, nd, c);
    SameNodeMovesOn(nd, o.node);
    if o.sent == {} {
      SilentStep(cl, id, nd, cl');
    } else {
      SpeakingEvolves(cl, id, o, cl');
      SameHistory(cl, id, o, cl');
      ProposalMessagesOk(cl);
      OfferedIsOk(VotersOf(cl), cl, id, nd.r.epoch, l, c, cl');
      Queued(cl, id, nd, o, cl');
      SameStory(cl, nd, o.node);
      SameRound(nd, o.node);
      assert cl'.testimony == cl.testimony;
      hide After, Evolves;
      VotesStay(cl, cl', o.node);
      LogStays(cl, cl', o.node);
      FinishProposing(id, cl, cl');
    }
  }

  lemma RetryStep(cl: Cluster, id: NodeId, slot: nat, cl': Cluster)
    requires Inv(cl) && id in cl.nodes && cl.nodes[id].role.Leader?
    requires slot in cl.nodes[id].role.leadership.inflight
    requires cl' == After(cl, id, Resend(id, cl.nodes[id], slot))
    ensures Inv(cl')
  {
    hide LogOk, VotesOk, RoundOk, LocalOk, VotersOf, Inv, NodeOk, NodeMovesOn;
    InvOfNode(cl, id);
    var nd, o := cl.nodes[id], Resend(id, cl.nodes[id], slot);
    var nd' := o.node;
    AlreadySent(cl, id, nd, slot);
    assert cl.sent + o.sent == cl.sent;
    assert cl' == After(cl, id, Quiet(nd'));
    SameNodeMovesOn(nd, nd');
    SameStory(cl, nd, nd');
    SameRound(nd, nd');
    QueuedAgain(cl, nd, nd', o.sent);
    SilentStep(cl, id, nd', cl');
  }

  lemma AlreadySent(cl: Cluster, id: NodeId, nd: Node, slot: nat)
    requires nd.role.Leader? && slot in nd.role.leadership.inflight && RoleOk(VotersOf(cl), cl, id, nd)
    ensures Resend(id, nd, slot).sent <= cl.sent
    ensures forall m :: m in Resend(id, nd, slot).node.local ==> m in nd.local || m in Resend(id, nd, slot).sent
  {
    hide VotersOf, Open, Bound;
  }

  lemma QueuedAgain(cl: Cluster, nd: Node, nd': Node, sent: set<Message>)
    requires LocalOk(cl, nd) && sent <= cl.sent
    requires forall m :: m in nd'.local ==> m in nd.local || m in sent
    ensures LocalOk(cl, nd')
  {
  }
}
