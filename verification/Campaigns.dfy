/** How a node comes to lead over a run: campaigns under ballots that only go up, a refused one above what
    refused it, and the majority that makes a leader and what it then has to propose. */
module Campaigns {
  import opened Ballots
  import opened StateMachines
  import opened Replays
  import opened Messages
  import opened Ledgers
  import opened Proposals
  import opened Nodes
  import opened Clusters
  import opened Invariants
  import opened Steps
  import opened Elections
  import opened Locals
  import opened Safety
  import opened Takeovers
  import opened Duties
  import opened Leading
  import opened Proposers

  // rounds and ballots over a run

  /** The node is not started again from `k` up to `n`. */
  predicate StaysUp(run: Run, id: NodeId, k: nat, n: nat) {
    forall t :: k <= t < n && t < |run| && run[t].id == id ==> !run[t].event.Crash? && !run[t].event.TornAccept?
  }

  lemma {:induction false} RoundsRise(states: seq<Cluster>, run: Run, id: NodeId, k: nat, n: nat)
    requires Execution(states, run) && k <= n < |states| && id in states[k].nodes && id in states[n].nodes
    requires states[n].nodes[id].r.epoch == states[k].nodes[id].r.epoch && StaysUp(run, id, k, n)
    ensures states[k].nodes[id].maxRound <= states[n].nodes[id].maxRound
    decreases n - k
  {
    hide LocalInv, Step, Enabled, Initial, Own, Under;
    if k < n {
      PlaceNeverGoesBack(states, run, id, k, n - 1);
      PlaceNeverGoesBack(states, run, id, n - 1, n);
      RoundsRise(states, run, id, k, n - 1);
      RunLocally(states, run, n - 1);
      assert Moves(states, run, n - 1);
      StepStepsOn(states[n - 1], run[n - 1], id);
    }
  }

  lemma OwnRoundIsKnown(cl: Cluster, id: NodeId, b: Ballot)
    requires LocalInv(cl) && id in cl.nodes && Under(cl.nodes[id].role, b)
    ensures b.round <= cl.nodes[id].maxRound
  {
    LocalOfNode(cl, id);
    if cl.nodes[id].role.Leader? {
      LeaderIsBound(cl, id);
      PromiseBoundsRound(cl.nodes[id], b);
    }
    hide LocalInv, Rebuilt, VotesOk, LocalOk, CampaignBinds, Bound, Own;
  }

  /** Ballots go up: a campaign started at step `n` is under a ballot above every one its node campaigned or
      led under before in this epoch, as long as it stayed up, and asks with it. */
  lemma BallotsGoUp(states: seq<Cluster>, run: Run, id: NodeId, k: nat, n: nat, own: Ballot)
    requires Execution(states, run) && k <= n < |run| && run[n] == Happening(id, Elect)
    requires id in states[k].nodes && id in states[n].nodes
    requires states[n].nodes[id].r.epoch == states[k].nodes[id].r.epoch && StaysUp(run, id, k, n)
    requires Under(states[k].nodes[id].role, own)
    ensures exists b, from :: Less(own, b) && Prepare(id, states[n].nodes[id].r.epoch, b, from) in states[n + 1].sent
                              && id in states[n + 1].nodes && Under(states[n + 1].nodes[id].role, b)
  {
    hide LocalInv, Step, Initial, StartCampaign;
    RoundsRise(states, run, id, k, n);
    RunLocally(states, run, k);
    OwnRoundIsKnown(states[k], id, own);
    assert Moves(states, run, n);
    AsksAboveRound(states[n], run[n], own);
  }

  /** A campaign's Prepare is under a ballot above any whose round its node knows. */
  lemma AsksAboveRound(cl: Cluster, h: Happening, known: Ballot)
    requires Enabled(cl, h) && h.event.Elect? && known.round <= cl.nodes[h.id].maxRound
    ensures h.id in Step(cl, h).nodes
    ensures exists b, from :: Less(known, b) && Prepare(h.id, cl.nodes[h.id].r.epoch, b, from) in Step(cl, h).sent
                              && Under(Step(cl, h).nodes[h.id].role, b)
  {
    CampaignAsksAbove(h.id, cl.nodes[h.id]);
    hide StartCampaign;
    var nd := cl.nodes[h.id];
    var b := StartCampaign(h.id, nd).node.role.campaign.ballot;
    assert Prepare(h.id, nd.r.epoch, b, nd.r.nextSlot) in StartCampaign(h.id, nd).sent;
    assert Under(StartCampaign(h.id, nd).node.role, b);
  }

  /** A refused node asks higher: after it handled a Nack for the ballot it was under it is a follower, and
      the next campaigns of its epoch, as long as it stays up, ask with ballots above the one the Nack named. */
  lemma RefusedAsksHigher(states: seq<Cluster>, run: Run, k: nat, n: nat, m: Message)
    requires Execution(states, run) && k < n < |run|
    requires var id := run[k].id;
             && id in states[k].nodes && id in states[n].nodes
             && Handed(states[k].nodes[id], run[k].event) == Some(m) && m.Nack?
             && Concerns(id, states[k].nodes[id], m)
             && run[n] == Happening(id, Elect)
             && states[n].nodes[id].r.epoch == states[k].nodes[id].r.epoch && StaysUp(run, id, k + 1, n)
    ensures var id := run[k].id;
            && id in states[k + 1].nodes
            && (Under(states[k].nodes[id].role, m.ballot) ==> states[k + 1].nodes[id].role == Follower)
            && exists b, from :: Less(m.promised, b) && id in states[n + 1].nodes && Under(states[n + 1].nodes[id].role, b)
                                 && Prepare(id, states[n].nodes[id].r.epoch, b, from) in states[n + 1].sent
  {
    hide LocalInv, Step, Initial, Handle;
    var id := run[k].id;
    assert Moves(states, run, k);
    NackHandled(states[k], run[k], m);
    RoundsRise(states, run, id, k + 1, n);
    assert Moves(states, run, n);
    AsksAboveRound(states[n], run[n], m.promised);
  }

  lemma NackHandled(cl: Cluster, h: Happening, m: Message)
    requires Enabled(cl, h) && Handed(cl.nodes[h.id], h.event) == Some(m) && m.Nack? && Concerns(h.id, cl.nodes[h.id], m)
    ensures h.id in Step(cl, h).nodes
    ensures var nd, nd' := cl.nodes[h.id], Step(cl, h).nodes[h.id];
            && nd'.r == nd.r && m.promised.round <= nd'.maxRound
            && (Under(nd.role, m.ballot) ==> nd'.role == Follower)
  {
    var nd := Handling(cl.nodes[h.id], h.event);
    NackTeaches(h.id, nd, m);
    hide Handle;
  }

  // taking over

  /** A majority makes a leader: in a sound run a candidate that hears a promise under its ballot leads from
      then on exactly when the distinct nodes that promised it are a majority of the epoch's voters. */
  lemma MajorityMakesLeader(states: seq<Cluster>, run: Run, k: nat, m: Message)
    requires Execution(states, run) && Sound(states, run) && k < |run|
    requires var id := run[k].id;
             && id in states[k].nodes && Handed(states[k].nodes[id], run[k].event) == Some(m) && m.Promise?
             && Concerns(id, states[k].nodes[id], m)
             && states[k].nodes[id].role.Candidate? && states[k].nodes[id].role.campaign.ballot == m.ballot
    ensures var id, nd := run[k].id, states[k].nodes[run[k].id];
            var e, V, heard := nd.r.epoch, VotersOf(states[k]), Senders(nd.role.campaign.promises) + {m.sender};
            && e in V && id in states[k + 1].nodes
            && var role := states[k + 1].nodes[id].role;
               if |V[e]| < 2 * |heard| then Leads(states[k + 1], id, e, m.ballot)
               else role.Candidate? && role.campaign.ballot == m.ballot && Senders(role.campaign.promises) == heard
  {
    hide Inv, Step, Enabled, VotersOf, Initial, CountsSound;
    RunKeeps(states, run, k);
    assert Moves(states, run, k);
    PromiseHeard(states[k], run[k], m);
  }

  lemma PromiseHeard(cl: Cluster, h: Happening, m: Message)
    requires Inv(cl) && Enabled(cl, h) && Handed(cl.nodes[h.id], h.event) == Some(m) && m.Promise?
    requires Concerns(h.id, cl.nodes[h.id], m)
    requires cl.nodes[h.id].role.Candidate? && cl.nodes[h.id].role.campaign.ballot == m.ballot
    ensures h.id in Step(cl, h).nodes
    ensures var nd := cl.nodes[h.id];
            var e, V, heard := nd.r.epoch, VotersOf(cl), Senders(nd.role.campaign.promises) + {m.sender};
            && e in V
            && var role := Step(cl, h).nodes[h.id].role;
               if |V[e]| < 2 * |heard| then Leads(Step(cl, h), h.id, e, m.ballot)
               else role.Candidate? && role.campaign.ballot == m.ballot && Senders(role.campaign.promises) == heard
  {
    var nd := Handling(cl.nodes[h.id], h.event);
    HeardIsCounted(cl, h.id, m);
    PromiseIsCounted(h.id, nd, m);
    hide Inv, VotersOf, Put, Senders, Handle;
    assert Outcome(cl, h) == Handle(h.id, nd, m);
    hide Outcome, Enabled;
  }

  /** The distinct nodes heard are as many as the promises kept, and the quorum is a majority of the voters. */
  lemma HeardIsCounted(cl: Cluster, id: NodeId, m: Message)
    requires Inv(cl) && id in cl.nodes && cl.nodes[id].role.Candidate? && m.Promise?
    ensures var nd, V := cl.nodes[id], VotersOf(cl);
            var c, ps := nd.role.campaign, Completed(nd, m).promises;
            && nd.r.epoch in V && |c.promises| < c.quorum
            && Senders(ps) == Senders(c.promises) + {m.sender}
            && (c.quorum <= |ps| <==> |V[nd.r.epoch]| < 2 * |Senders(ps)|)
  {
    var c := cl.nodes[id].role.campaign;
    CandidateStands(cl, id);
    hide Inv, VotersOf;
    SendersAfter(c.promises, m.sender, m.accepted);
  }

  lemma CandidateStands(cl: Cluster, id: NodeId)
    requires Inv(cl) && id in cl.nodes && cl.nodes[id].role.Candidate?
    ensures var c, V, e := cl.nodes[id].role.campaign, VotersOf(cl), cl.nodes[id].r.epoch;
            e in V && c.quorum == |V[e]| / 2 + 1 && DistinctSenders(c.promises) && |c.promises| < c.quorum
  {
    InvOfNode(cl, id);
    hide Inv, VotersOf, LogOk, VotesOk, RoundOk, LocalOk, CampaignBinds, Honest;
  }

  lemma SendersAfter(ps: Promises, sender: NodeId, es: seq<Entry>)
    requires DistinctSenders(ps)
    ensures Senders(Put(ps, sender, es)) == Senders(ps) + {sender} && |Put(ps, sender, es)| == |Senders(Put(ps, sender, es))|
  {
    PutReplaces(ps, sender, es);
    SendersCount(Put(ps, sender, es));
    hide DistinctSenders, Put;
    assert (sender, es) in Put(ps, sender, es);
  }

  lemma PromiseIsCounted(id: NodeId, nd: Node, m: Message)
    requires m.Promise? && Hears(id, nd, m) && Counts(nd, m) && |nd.role.campaign.promises| < nd.role.campaign.quorum
    ensures var c, nd' := Completed(nd, m), Handle(id, nd, m).node;
            && nd'.r == nd.r
            && if c.quorum <= |c.promises| then nd'.role.Leader? && nd'.role.leadership.ballot == m.ballot
               else nd'.role == Candidate(c)
  {
    hide Put, Joined, Plan, FirstFree, Proposing, ReportedTop;
  }

  /** What a new leader proposes: of the slots it has not applied, those it does not know chosen and some
      promise reported at or above, each with what the highest-ballot report names or else the no-op. */
  ghost predicate SettlesWhatIsOpen(id: NodeId, nd: Node, es: seq<Entry>, b: Ballot, sent: set<Message>, inflight: map<nat, Flight>) {
    && (forall x :: x in sent ==>
          x.Accept? && x.slot in inflight && x == Accept(id, nd.r.epoch, b, x.slot, inflight[x.slot].command))
    && (forall s :: s in inflight <==> Unsettled(nd, es, s))
    && (forall s :: s in inflight ==>
          && inflight[s].acks == {} && Obliged(es, s, inflight[s].command)
          && Accept(id, nd.r.epoch, b, s, inflight[s].command) in sent)
  }

  /** The first free slot lies right above all the leader knows chosen or has to settle. */
  ghost predicate FreeRightAbove(nd: Node, es: seq<Entry>, free: nat) {
    && nd.r.nextSlot <= free
    && (forall s: nat :: Pos(nd.r.epoch, s) in nd.disk.chosen ==> s < free)
    && (forall s: nat :: Unsettled(nd, es, s) ==> s < free)
    && (free > nd.r.nextSlot ==> Pos(nd.r.epoch, free - 1) in nd.disk.chosen || Unsettled(nd, es, free - 1))
  }

  /** A node that a message makes a leader follows itself from then on, and settles exactly what is open. */
  lemma NewLeaderProposes(id: NodeId, nd: Node, m: Message)
    requires !nd.role.Leader? && Handle(id, nd, m).node.role.Leader?
    ensures m.Promise? && nd.role.Candidate?
    ensures var o, es := Handle(id, nd, m), Joined(Completed(nd, m).promises);
            && o.decided == map[]
            && var l := o.node.role.leadership;
               && l.ballot == m.ballot && l.quorum == nd.role.campaign.quorum
               && o.node.leader == Some(id) && o.node.leaderBallot == m.ballot && LogUntouched(nd, o.node)
               && SettlesWhatIsOpen(id, nd, es, m.ballot, o.sent, l.inflight) && FreeRightAbove(nd, es, l.nextFree)
  {
    hide *;
    HandledIntoLeading(id, nd, m);
    CompletionCounts(id, nd, m);
    LeaderTakesPlan(id, nd, Completed(nd, m));
  }

  lemma CompletionCounts(id: NodeId, nd: Node, m: Message)
    requires Completes(id, nd, m)
    ensures m.Promise? && nd.role.Candidate?
    ensures Completed(nd, m).ballot == m.ballot && Completed(nd, m).quorum == nd.role.campaign.quorum
  {
    hide Put;
  }

  lemma LeaderTakesPlan(id: NodeId, nd: Node, c: Campaign)
    ensures var o, es := BecomeLeader(id, nd, c), Joined(c.promises);
            && o.node.role.Leader? && o.decided == map[]
            && var l := o.node.role.leadership;
               && l.ballot == c.ballot && l.quorum == c.quorum
               && o.node.leader == Some(id) && o.node.leaderBallot == c.ballot && LogUntouched(nd, o.node)
               && SettlesWhatIsOpen(id, nd, es, c.ballot, o.sent, l.inflight) && FreeRightAbove(nd, es, l.nextFree)
  {
    var es, from, e, chosen := Joined(c.promises), nd.r.nextSlot, nd.r.epoch, nd.disk.chosen;
    var plan := Plan(es, from, e, chosen);
    ProposingCovers(id, e, c.ballot, plan, from, ReportedTop(es));
    PlanRange(es, from, e, chosen);
    PlanIsUnsettled(nd, es);
    PlanIsObliged(es, from, e, chosen);
    FreeIsRightAbove(es, from, e, chosen);
    hide Joined, Plan, FirstFree, Proposing, ReportedTop, IdOf, Unsettled, Obliged;
  }

  /** A slot the new leader has to settle. */
  ghost predicate Unsettled(nd: Node, es: seq<Entry>, s: nat) {
    nd.r.nextSlot <= s && Pos(nd.r.epoch, s) !in nd.disk.chosen && exists x :: x in es && s <= x.slot
  }

  /** The command it may settle it with. */
  ghost predicate Obliged(es: seq<Entry>, s: nat, c: Command) {
    if exists x :: x in es && x.slot == s then
      exists x :: x in es && x.slot == s && x.command == c && forall y :: y in es && y.slot == s ==> AtMost(y.ballot, x.ballot)
    else c == Noop
  }

  lemma PlanIsUnsettled(nd: Node, es: seq<Entry>)
    ensures forall s: nat :: s in Plan(es, nd.r.nextSlot, nd.r.epoch, nd.disk.chosen) <==> Unsettled(nd, es, s)
  {
    ReportedTopBounds(es);
    if ReportedTop(es) > 0 {
      TopIsReported(es);
    }
  }

  lemma PlanIsObliged(es: seq<Entry>, from: nat, e: nat, chosen: Log)
    ensures forall s :: s in Plan(es, from, e, chosen) ==> Obliged(es, s, Plan(es, from, e, chosen)[s])
  {
    PlanRange(es, from, e, chosen);
    forall s | s in Plan(es, from, e, chosen) ensures Obliged(es, s, Plan(es, from, e, chosen)[s]) {
      BestIsHighest(es, s);
      if Best(es, s).Some? {
        var v := Best(es, s).value;
        assert Entry(s, v.ballot, v.command) in es;
      }
    }
  }

  lemma FreeIsRightAbove(es: seq<Entry>, from: nat, e: nat, chosen: Log)
    ensures var plan, free := Plan(es, from, e, chosen), FirstFree(es, from, e, chosen);
            && from <= free
            && (forall s: nat :: Pos(e, s) in chosen || s in plan ==> s < free)
            && (free > from ==> Pos(e, free - 1) in chosen || free - 1 in plan)
  {
    var plan, free, slots := Plan(es, from, e, chosen), FirstFree(es, from, e, chosen), set p | p in chosen && p.epoch == e :: p.slot;
    forall s: nat | Pos(e, s) in chosen ensures s < free {
      assert Pos(e, s).slot in slots;
    }
    if free > from && free == Above(slots) {
      var p :| p in chosen && p.epoch == e && p.slot == free - 1;
      assert p == Pos(e, free - 1);
    }
  }
}
