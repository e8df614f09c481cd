/** What a node does over a run while it leads: one leadership per ballot, slots handed out one after the
    other, and every command under one id once. */
module Leading {
  import opened Ballots
  import opened StateMachines
  import opened Replays
  import opened Messages
  import opened Ledgers
  import opened Proposals
  import opened Nodes
  import opened Clusters
  import opened Invariants
  import opened Recoveries
  import opened Steps
  import opened Counting
  import opened Elections
  import opened Locals
  import opened Safety
  import opened Takeovers
  import opened Duties

  // what one handling may do to rounds and roles

  /** Within an epoch rounds and the promise only rise; no ballot is campaigned or led under that was not
      before; a leader that stays one keeps its free slot and its ids. */
  ghost predicate KeepsWord(nd: Node, nd': Node) {
    && (nd'.r.epoch == nd.r.epoch ==>
          && nd.maxRound <= nd'.maxRound && AtMost(Own(nd).promised, Own(nd').promised)
          && (forall b :: Under(nd'.role, b) ==> Under(nd.role, b)) && (nd.role.Leader? ==> !nd'.role.Candidate?)
          && (nd.role.Leader? && nd'.role.Leader? ==>
                && nd'.role.leadership.nextFree == nd.role.leadership.nextFree
                && nd'.role.leadership.ids == nd.role.leadership.ids))
    && (nd'.r.epoch != nd.r.epoch ==> nd'.role == Follower)
  }

  lemma SameWord(nd: Node, nd': Node)
    requires nd'.r == nd.r && nd'.disk == nd.disk && nd.maxRound <= nd'.maxRound && (nd'.role == nd.role || nd'.role == Follower)
    ensures KeepsWord(nd, nd')
  {
    BallotsAreOrdered();
  }

  lemma PrepareKeepsWord(id: NodeId, nd: Node, m: Message)
    requires m.Prepare? && Concerns(id, nd, m)
    ensures KeepsWord(nd, Handle(id, nd, m).node)
  {
    BallotsAreOrdered();
    PrepareIsAnswered(id, nd, m);
    hide Handle, OnPrepare, Own, Concerns;
  }

  lemma AcceptKeepsWord(id: NodeId, nd: Node, m: Message)
    requires m.Accept? && Concerns(id, nd, m)
    ensures KeepsWord(nd, Handle(id, nd, m).node)
  {
    BallotsAreOrdered();
    AcceptIsAnswered(id, nd, m);
    hide Handle, OnAccept, Own, Concerns, NotCompacted;
  }

  lemma PromiseKeepsWord(id: NodeId, nd: Node, m: Message)
    requires m.Promise?
    ensures KeepsWord(nd, OnPromise(id, nd, m).node)
  {
    BallotsAreOrdered();
    hide Joined, Plan, FirstFree, Put, Proposing, ReportedTop, MaxRound;
  }

  lemma CommitKeepsWord(nd: Node, p: Pos, c: Command)
    ensures KeepsWord(nd, Committed(nd, p, c))
  {
    BallotsAreOrdered();
    hide Advance, MaxRound;
  }

  lemma AcceptedKeepsWord(id: NodeId, nd: Node, m: Message)
    requires m.Accepted?
    ensures KeepsWord(nd, OnAccepted(id, nd, m).node)
  {
    if nd.role.Leader? && m.ballot == nd.role.leadership.ballot {
      var (l, done) := Counted(nd.role.leadership, m.slot, m.sender);
      if done.Some? {
        CommitKeepsWord(nd.(role := Leader(l)), Pos(nd.r.epoch, m.slot), done.value);
      }
    }
    BallotsAreOrdered();
    hide Committed, MaxRound, Advance;
  }

  lemma SnapshotKeepsWord(nd: Node, m: Message)
    requires m.Snapshot?
    ensures KeepsWord(nd, OnSnapshot(nd, m))
  {
    BallotsAreOrdered();
    if Precedes(At(nd.r), At(m.state)) {
      AdvanceStops(m.state, Compacted(nd.disk, m.state).chosen);
    }
    hide Advance, MaxRound, AppliedTotal;
  }

  lemma HandlingKeepsWord(id: NodeId, nd: Node, m: Message)
    ensures KeepsWord(nd, Handle(id, nd, m).node)
  {
    hide KeepsWord, OnPrepare, OnPromise, OnAccept, OnAccepted, OnNack, Committed, OnSnapshot;
    if !Hears(id, nd, m) {
      SameWord(nd, nd);
    } else {
      match m {
        case Prepare(_, _, _, _) => PrepareKeepsWord(id, nd, m);
        case Promise(_, _, _, _) => PromiseKeepsWord(id, nd, m);
        case Accept(_, _, _, _, _) => AcceptKeepsWord(id, nd, m);
        case Accepted(_, _, _, _) => AcceptedKeepsWord(id, nd, m);
        case Nack(_, _, _, _) =>
          NackTeaches(id, nd, m);
          SameWord(nd, OnNack(nd, m));
        case Commit(_, e, s, c) => CommitKeepsWord(nd, Pos(e, s), c);
        case Snapshot(_, _, _, _) => SnapshotKeepsWord(nd, m);
      }
    }
  }

  // what one step may do

  /** The same for a step: only a new campaign brings a ballot, above every round known; only a restart
      forgets rounds, and then the role too; only an offer hands out a slot. */
  ghost predicate StepsOn(nd: Node, nd': Node, ev: Event) {
    && (nd'.r.epoch == nd.r.epoch ==>
          && AtMost(Own(nd).promised, Own(nd').promised)
          && (!ev.Crash? && !ev.TornAccept? ==> nd.maxRound <= nd'.maxRound)
          && (forall b :: Under(nd'.role, b) ==> Under(nd.role, b) || (ev.Elect? && nd.maxRound < b.round))
          && (nd.role.Leader? && !ev.Elect? ==> !nd'.role.Candidate?)
          && (nd.role.Leader? && nd'.role.Leader? && !ev.Offer? ==>
                && nd'.role.leadership.nextFree == nd.role.leadership.nextFree
                && nd'.role.leadership.ids == nd.role.leadership.ids))
    && (nd'.r.epoch != nd.r.epoch || ev.Crash? || ev.TornAccept? ==> nd'.role == Follower)
  }

  lemma WordStepsOn(nd: Node, nd': Node, ev: Event)
    requires KeepsWord(nd, nd') && !ev.Crash? && !ev.TornAccept?
    ensures StepsOn(nd, nd', ev)
  {
    hide Under, Own;
  }

  lemma RotationKeepsWord(nd: Node, every: nat)
    requires Rebuilt(nd)
    ensures KeepsWord(nd, Rotated(nd, every))
  {
    hide AppliedTotal, Rebuilt, Under, Compacted, Less;
    BallotsAreOrdered();
    RebuiltInLine(nd);
    if nd.pending.Some? {
      CompactionKeepsPromise(nd.disk, nd.pending.value, nd.r.epoch);
    }
  }

  lemma CompactionKeepsPromise(disk: Disk, base: Progress, e: nat)
    requires base.epoch <= e
    ensures LedgerOf(Compacted(disk, base).ledgers, e).promised == LedgerOf(disk.ledgers, e).promised
  {
  }

  lemma HeartbeatKeepsWord(id: NodeId, nd: Node, b: Ballot, sender: NodeId)
    ensures KeepsWord(nd, HeardLeader(id, nd, b, sender))
  {
    HeartbeatIsFollowed(id, nd, b, sender);
    SameWord(nd, HeardLeader(id, nd, b, sender));
  }

  lemma ElectStepsOn(id: NodeId, nd: Node)
    ensures StepsOn(nd, StartCampaign(id, nd).node, Elect)
  {
    BallotsAreOrdered();
    hide Less;
  }

  lemma OfferStepsOn(id: NodeId, nd: Node, c: Command)
    requires nd.role.Leader?
    ensures StepsOn(nd, Propose(id, nd, c).node, Offer(c))
  {
    BallotsAreOrdered();
    hide Less, Remembered;
  }

  lemma RestartStepsOn(nd: Node, voters: Option<Members>, b: Ballot)
    requires Rebuilt(nd)
    ensures StepsOn(nd, Restarted(Told(nd.disk, voters)), Crash(voters))
    ensures StepsOn(nd, Restarted(WithPromise(nd, b)), TornAccept(b))
  {
    BallotsAreOrdered();
    StoredShape(nd.disk, nd.r.epoch, Raised(Own(nd), b));
    ToldStandsThere(nd.disk, voters);
    TornStandsThere(nd, b);
    hide Advance, MaxRound, AppliedTotal, Stored, Less, Loaded;
  }

  lemma StepStepsOn(cl: Cluster, h: Happening, x: NodeId)
    requires LocalInv(cl) && Enabled(cl, h) && x in cl.nodes
    ensures x in Step(cl, h).nodes
    ensures x == h.id ==> StepsOn(cl.nodes[x], Step(cl, h).nodes[x], h.event)
    ensures x != h.id ==> Step(cl, h).nodes[x] == cl.nodes[x]
  {
    LocalOfNode(cl, h.id);
    OutcomeStepsOn(cl, h);
    hide LocalInv, StepsOn, Outcome, OwnOk, CampaignBinds, Enabled;
  }

  lemma OutcomeStepsOn(cl: Cluster, h: Happening)
    requires Enabled(cl, h) && OwnOk(cl, h.id, cl.nodes[h.id])
    ensures StepsOn(cl.nodes[h.id], Outcome(cl, h).node, h.event)
  {
    hide StepsOn, KeepsWord, Handle, StartCampaign, Propose, Resend, Rotated, Restarted, Told, Serve, HeardLeader,
      WithPromise, Rebuilt, VotesOk, RoundOk, PostOk, LocalOk;
    var id, nd, nd' := h.id, cl.nodes[h.id], Outcome(cl, h).node;
    match h.event {
      case Receive(m) =>
        HandlingKeepsWord(id, nd, m);
        WordStepsOn(nd, nd', h.event);
      case Drain =>
        HandlingKeepsWord(id, nd.(local := nd.local[1..]), nd.local[0]);
        SameWordBefore(nd, nd.(local := nd.local[1..]), nd');
        WordStepsOn(nd, nd', h.event);
      case Elect => ElectStepsOn(id, nd);
      case Yield =>
        SameWord(nd, nd');
        WordStepsOn(nd, nd', h.event);
      case Offer(c) => OfferStepsOn(id, nd, c);
      case Retry(slot) =>
        ResendRepeats(id, nd, slot);
        SameWord(nd, nd');
        WordStepsOn(nd, nd', h.event);
      case Heartbeat(b, sender) =>
        HeartbeatKeepsWord(id, nd, b, sender);
        WordStepsOn(nd, nd', h.event);
      case Answer(_) =>
        SameWord(nd, nd');
        WordStepsOn(nd, nd', h.event);
      case Rotate =>
        RotationKeepsWord(nd, cl.every);
        WordStepsOn(nd, nd', h.event);
      case Crash(voters) => RestartStepsOn(nd, voters, ZERO);
      case TornAccept(b) => RestartStepsOn(nd, None, b);
    }
  }

  lemma SameWordBefore(nd: Node, tail: Node, nd': Node)
    requires KeepsWord(tail, nd') && tail == nd.(local := tail.local)
    ensures KeepsWord(nd, nd')
  {
    hide Under;
  }

  // one leadership per ballot

  ghost predicate Leads(cl: Cluster, id: NodeId, e: nat, b: Ballot) {
    && id in cl.nodes && cl.nodes[id].r.epoch == e
    && cl.nodes[id].role.Leader? && cl.nodes[id].role.leadership.ballot == b
  }

  /** The node is bound to `b` and neither campaigns nor leads under it. */
  ghost predicate Gone(cl: Cluster, id: NodeId, e: nat, b: Ballot) {
    && id in cl.nodes && e <= cl.nodes[id].r.epoch
    && (cl.nodes[id].r.epoch == e ==> AtMost(b, Own(cl.nodes[id]).promised) && !Under(cl.nodes[id].role, b))
  }

  lemma GoneStays(cl: Cluster, h: Happening, id: NodeId, e: nat, b: Ballot)
    requires LocalInv(cl) && Enabled(cl, h) && Gone(cl, id, e, b)
    ensures Gone(Step(cl, h), id, e, b)
  {
    StepStepsOn(cl, h, id);
    StepStandsOn(cl, h, id);
    LocalOfNode(cl, id);
    PromiseBoundsRound(cl.nodes[id], b);
    hide LocalInv, Step, Enabled, OwnOk, CampaignBinds, Own, Under, Less;
    BallotsAreOrdered();
  }

  lemma PromiseBoundsRound(nd: Node, b: Ballot)
    requires RoundOk(nd)
    ensures AtMost(b, Own(nd).promised) ==> b.round <= nd.maxRound
  {
    hide Own;
  }

  lemma LeadingEndsForGood(cl: Cluster, h: Happening, id: NodeId, e: nat, b: Ballot)
    requires LocalInv(cl) && Enabled(cl, h) && Leads(cl, id, e, b)
    ensures Leads(Step(cl, h), id, e, b) || Gone(Step(cl, h), id, e, b)
  {
    StepStepsOn(cl, h, id);
    StepStandsOn(cl, h, id);
    LeaderIsBound(cl, id);
    OnlyOthersElect(cl, h);
    StillUnder(cl.nodes[id].role, Step(cl, h).nodes[id].role, b);
    hide LocalInv, Step, Enabled, Own, Under, Less;
    BallotsAreOrdered();
  }

  lemma StillUnder(role: Role, role': Role, b: Ballot)
    requires role.Leader? && role.leadership.ballot == b
    ensures Under(role, b) && (Under(role', b) && !role'.Candidate? ==> role'.Leader? && role'.leadership.ballot == b)
  {
  }

  lemma OnlyOthersElect(cl: Cluster, h: Happening)
    requires Enabled(cl, h)
    ensures h.event.Elect? ==> !cl.nodes[h.id].role.Leader?
  {
  }

  lemma LeaderIsBound(cl: Cluster, id: NodeId)
    requires LocalInv(cl) && id in cl.nodes && cl.nodes[id].role.Leader?
    ensures AtMost(cl.nodes[id].role.leadership.ballot, Own(cl.nodes[id]).promised)
  {
    LocalOfNode(cl, id);
    hide LocalInv, Rebuilt, VotesOk, LocalOk, CampaignBinds;
  }

  lemma {:induction false} LeadsOrIsGone(states: seq<Cluster>, run: Run, k: nat, t: nat, id: NodeId, e: nat, b: Ballot)
    requires Execution(states, run) && k <= t < |states|
    requires Leads(states[k], id, e, b) || Gone(states[k], id, e, b)
    ensures Leads(states[t], id, e, b) || Gone(states[t], id, e, b)
    ensures Gone(states[k], id, e, b) ==> Gone(states[t], id, e, b)
    decreases t - k
  {
    hide LocalInv, Step, Enabled, Initial, Leads, Gone;
    if k < t {
      LeadsOrIsGone(states, run, k, t - 1, id, e, b);
      RunLocally(states, run, t - 1);
      assert Moves(states, run, t - 1);
      if Gone(states[t - 1], id, e, b) {
        GoneStays(states[t - 1], run[t - 1], id, e, b);
      } else {
        LeadingEndsForGood(states[t - 1], run[t - 1], id, e, b);
      }
    }
  }

  /** A ballot is led without a break: a node that leads under it at two moments does so all the time
      between them, so a leadership once lost never comes back under its ballot. */
  lemma LeadsWithoutBreak(states: seq<Cluster>, run: Run, k: nat, t: nat, n: nat, id: NodeId, e: nat, b: Ballot)
    requires Execution(states, run) && k <= t <= n < |states|
    requires Leads(states[k], id, e, b) && Leads(states[n], id, e, b)
    ensures Leads(states[t], id, e, b)
  {
    LeadsOrIsGone(states, run, k, t, id, e, b);
    LeadsOrIsGone(states, run, t, n, id, e, b);
    hide Execution;
  }

  // handing out slots

  ghost predicate Proposed(cl: Cluster, id: NodeId, e: nat, b: Ballot, s: nat) {
    exists c :: Accept(id, e, b, s, c) in cl.sent
  }

  /** Offering a command to a leader changes nothing when its id was applied lately or is among those it
      proposed; otherwise the command goes to the first free slot, and the next one is free. */
  lemma OfferHandsOutNext(cl: Cluster, h: Happening)
    requires Enabled(cl, h) && h.event.Offer?
    ensures h.id in Step(cl, h).nodes
    ensures var nd, nd', c := cl.nodes[h.id], Step(cl, h).nodes[h.id], h.event.c;
            var l := nd.role.leadership;
            if (exists x :: x in nd.r.results && x.0 == IdOf(c)) || IdOf(c) in l.ids then Step(cl, h) == cl
            else
              var accept := Accept(h.id, nd.r.epoch, l.ballot, l.nextFree, c);
              && Step(cl, h).sent == cl.sent + {accept} && nd'.role.Leader?
              && var l' := nd'.role.leadership;
                 && l'.ballot == l.ballot && l'.quorum == l.quorum && l'.nextFree == l.nextFree + 1
                 && l'.ids == l.ids + {IdOf(c)} && l'.inflight == l.inflight[l.nextFree := Flight(c, {})]
                 && nd' == nd.(role := nd'.role, local := if h.id in nd.r.members then nd.local + [accept] else nd.local)
  {
    var nd, c := cl.nodes[h.id], h.event.c;
    assert Remembered(nd.r.results, IdOf(c)) <==> exists x :: x in nd.r.results && x.0 == IdOf(c) by {
      if x :| x in nd.r.results && x.0 == IdOf(c) {
        var i :| 0 <= i < |nd.r.results| && nd.r.results[i] == x;
      }
    }
    hide Remembered, IdOf;
    if Propose(h.id, nd, c) == Quiet(nd) {
      assert cl.nodes[h.id := nd] == cl.nodes && cl.sent + {} == cl.sent && cl.testimony + {} == cl.testimony;
      assert map[] + cl.log == cl.log;
    }
  }

  lemma StepHandsOut(cl: Cluster, h: Happening, id: NodeId, e: nat, b: Ballot)
    requires LocalInv(cl) && Enabled(cl, h) && Leads(cl, id, e, b) && Leads(Step(cl, h), id, e, b)
    ensures var free, free' := cl.nodes[id].role.leadership.nextFree, Step(cl, h).nodes[id].role.leadership.nextFree;
            free' == free || (free' == free + 1 && Proposed(Step(cl, h), id, e, b, free))
  {
    StepStepsOn(cl, h, id);
    if h.event.Offer? && h.id == id {
      OfferHandsOutNext(cl, h);
    }
    hide LocalInv, Step, Enabled, Own, Under;
  }

  lemma ProposalsStay(cl: Cluster, cl': Cluster, id: NodeId, e: nat, b: Ballot)
    requires cl.sent <= cl'.sent
    ensures forall s: nat :: Proposed(cl, id, e, b, s) ==> Proposed(cl', id, e, b, s)
  {
  }

  /** No holes while leading: of the slots from any moment of a leadership to any later one, each was
      proposed under its ballot, and free slots only go up. */
  lemma {:induction false} NoHolesWhileLeading(states: seq<Cluster>, run: Run, k: nat, n: nat, id: NodeId, e: nat, b: Ballot)
    requires Execution(states, run) && k <= n < |states|
    requires Leads(states[k], id, e, b) && Leads(states[n], id, e, b)
    ensures var free, free' := states[k].nodes[id].role.leadership.nextFree, states[n].nodes[id].role.leadership.nextFree;
            free <= free' && forall s :: free <= s < free' ==> Proposed(states[n], id, e, b, s)
    decreases n - k
  {
    hide LocalInv, Step, Enabled, Initial;
    if k < n {
      LeadsWithoutBreak(states, run, k, n - 1, n, id, e, b);
      NoHolesWhileLeading(states, run, k, n - 1, id, e, b);
      RunLocally(states, run, n - 1);
      assert Moves(states, run, n - 1);
      StepHandsOut(states[n - 1], run[n - 1], id, e, b);
      HistoryGrows(states[n - 1], run[n - 1]);
      ProposalsStay(states[n - 1], states[n], id, e, b);
    }
  }

  // one slot per id

  ghost predicate ProposedId(cl: Cluster, id: NodeId, e: nat, b: Ballot, name: string) {
    exists s: nat, c :: Accept(id, e, b, s, c) in cl.sent && IdOf(c) == name
  }

  /** A leader's ids are exactly those of the commands it proposed under its ballot. */
  ghost predicate IdsOk(cl: Cluster, id: NodeId, nd: Node) {
    nd.role.Leader? ==>
      var b, ids := nd.role.leadership.ballot, nd.role.leadership.ids;
      forall name :: name in ids <==> ProposedId(cl, id, nd.r.epoch, b, name)
  }

  ghost predicate AllIdsOk(cl: Cluster) {
    forall id :: id in cl.nodes ==> IdsOk(cl, id, cl.nodes[id])
  }

  /** What a step proposes anew is the stepping node's, under the ballot it leads, its id among its ids. */
  ghost predicate OwnProposals(id: NodeId, cl: Cluster, o: Effect) {
    forall m :: m in o.sent && m.Accept? && m !in cl.sent ==>
      && m.sender == id && o.node.role.Leader? && m.epoch == o.node.r.epoch
      && m.ballot == o.node.role.leadership.ballot && IdOf(m.command) in o.node.role.leadership.ids
  }

  lemma HandlingProposesItsOwn(id: NodeId, nd: Node, m: Message, cl: Cluster)
    ensures OwnProposals(id, cl, Handle(id, nd, m))
  {
    hide Advance, Report, MaxRound, Put, Compacted, AppliedTotal, Counted, Stored, Raised, BecomeLeader;
    if m.Promise? && Counts(nd, m) && Hears(id, nd, m) {
      PlanProposesItsOwn(id, nd, Completed(nd, m), cl);
    }
  }

  lemma PlanProposesItsOwn(id: NodeId, nd: Node, c: Campaign, cl: Cluster)
    ensures OwnProposals(id, cl, BecomeLeader(id, nd, c))
    ensures BecomeLeader(id, nd, c).node.r == nd.r
    ensures BecomeLeader(id, nd, c).node.role.Leader?
    ensures var l := BecomeLeader(id, nd, c).node.role.leadership;
            && l.ballot == c.ballot
            && forall name :: name in l.ids ==>
                 exists s: nat, cmd :: Accept(id, nd.r.epoch, c.ballot, s, cmd) in BecomeLeader(id, nd, c).sent && IdOf(cmd) == name
  {
    var es, from, e := Joined(c.promises), nd.r.nextSlot, nd.r.epoch;
    var plan := Plan(es, from, e, nd.disk.chosen);
    ProposingCovers(id, e, c.ballot, plan, from, ReportedTop(es));
    PlanRange(es, from, e, nd.disk.chosen);
    LeaderRole(id, nd, c);
    hide Joined, Plan, FirstFree, Proposing, ReportedTop, IdOf;
    var o := BecomeLeader(id, nd, c);
    forall name | name in o.node.role.leadership.ids
      ensures exists s: nat, cmd :: Accept(id, nd.r.epoch, c.ballot, s, cmd) in o.sent && IdOf(cmd) == name
    {
      var s :| s in plan && IdOf(plan[s]) == name;
      assert Accept(id, e, c.ballot, s, plan[s]) in o.sent;
    }
  }

  lemma OfferProposesItsOwn(id: NodeId, nd: Node, c: Command, cl: Cluster)
    requires nd.role.Leader?
    ensures OwnProposals(id, cl, Propose(id, nd, c))
  {
    hide Remembered, IdOf;
  }

  lemma RetryProposesItsOwn(id: NodeId, nd: Node, slot: nat, cl: Cluster)
    requires nd.role.Leader? && slot in nd.role.leadership.inflight && PostOk(cl, id, nd)
    ensures OwnProposals(id, cl, Resend(id, nd, slot))
  {
    hide IdOf, Bound;
  }

  lemma StepProposesItsOwn(cl: Cluster, h: Happening)
    requires LocalInv(cl) && Enabled(cl, h)
    ensures OwnProposals(h.id, cl, Outcome(cl, h))
  {
    LocalOfNode(cl, h.id);
    hide Handle, Propose, Resend, Rotated, Restarted, Told, WithPromise, HeardLeader, StepDown, LocalInv, Rebuilt, VotesOk,
      CampaignBinds, PostOk, RoundOk, LocalOk;
    var nd := cl.nodes[h.id];
    match h.event {
      case Receive(m) => HandlingProposesItsOwn(h.id, nd, m, cl);
      case Drain => HandlingProposesItsOwn(h.id, nd.(local := nd.local[1..]), nd.local[0], cl);
      case Offer(c) => OfferProposesItsOwn(h.id, nd, c, cl);
      case Retry(slot) => RetryProposesItsOwn(h.id, nd, slot, cl);
      case _ =>
    }
  }

  lemma OtherIdsStay(cl: Cluster, h: Happening, x: NodeId)
    requires LocalInv(cl) && AllIdsOk(cl) && Enabled(cl, h) && x in cl.nodes && x != h.id
    ensures IdsOk(Step(cl, h), x, cl.nodes[x])
  {
    StepProposesItsOwn(cl, h);
    hide LocalInv, Enabled, Outcome, IdOf;
    assert IdsOk(cl, x, cl.nodes[x]);
  }

  lemma IdsAfter(cl: Cluster, cl': Cluster, id: NodeId, e: nat, b: Ballot, ids: set<string>, ids': set<string>, sent: set<Message>)
    requires cl'.sent == cl.sent + sent && ids <= ids'
    requires forall name :: name in ids <==> ProposedId(cl, id, e, b, name)
    requires forall s: nat, c :: Accept(id, e, b, s, c) in sent && Accept(id, e, b, s, c) !in cl.sent ==> IdOf(c) in ids'
    requires forall name :: name in ids' && name !in ids ==> ProposedId(cl', id, e, b, name)
    ensures forall name :: name in ids' <==> ProposedId(cl', id, e, b, name)
  {
    hide IdOf;
    forall name ensures name in ids' <==> ProposedId(cl', id, e, b, name) {
      if name in ids {
        var s: nat, c :| Accept(id, e, b, s, c) in cl.sent && IdOf(c) == name;
        assert Accept(id, e, b, s, c) in cl'.sent;
      }
      if ProposedId(cl', id, e, b, name) {
        var s: nat, c :| Accept(id, e, b, s, c) in cl'.sent && IdOf(c) == name;
        assert Accept(id, e, b, s, c) in cl.sent ==> ProposedId(cl, id, e, b, name);
      }
    }
  }

  lemma LeaderIdsStay(cl: Cluster, h: Happening)
    requires LocalInv(cl) && Enabled(cl, h) && IdsOk(cl, h.id, cl.nodes[h.id])
    requires cl.nodes[h.id].role.Leader? && Step(cl, h).nodes[h.id].role.Leader?
    ensures IdsOk(Step(cl, h), h.id, Step(cl, h).nodes[h.id])
  {
    var id, nd, cl', nd' := h.id, cl.nodes[h.id], Step(cl, h), Step(cl, h).nodes[h.id];
    var l := nd.role.leadership;
    StepProposesItsOwn(cl, h);
    StepStepsOn(cl, h, id);
    StillLeading(cl, h);
    assert cl'.sent == cl.sent + Outcome(cl, h).sent;
    if h.event.Offer? {
      OfferHandsOutNext(cl, h);
      if cl' != cl {
        assert Accept(id, nd.r.epoch, l.ballot, l.nextFree, h.event.c) in cl'.sent;
      }
    }
    hide LocalInv, Enabled, Outcome, Step, IdOf, StepsOn;
    IdsAfter(cl, cl', id, nd.r.epoch, l.ballot, l.ids, nd'.role.leadership.ids, Outcome(cl, h).sent);
  }

  lemma StillLeading(cl: Cluster, h: Happening)
    requires LocalInv(cl) && Enabled(cl, h)
    requires cl.nodes[h.id].role.Leader? && Step(cl, h).nodes[h.id].role.Leader?
    ensures var nd, nd' := cl.nodes[h.id], Step(cl, h).nodes[h.id];
            && nd'.r.epoch == nd.r.epoch && nd'.role.leadership.ballot == nd.role.leadership.ballot
            && (!h.event.Offer? ==> nd'.role.leadership.ids == nd.role.leadership.ids)
  {
    StepStepsOn(cl, h, h.id);
    OnlyOthersElect(cl, h);
    hide LocalInv, Enabled, Step, Own;
    assert Under(Step(cl, h).nodes[h.id].role, Step(cl, h).nodes[h.id].role.leadership.ballot);
  }

  lemma NewLeaderIds(cl: Cluster, h: Happening)
    requires LocalInv(cl) && Enabled(cl, h)
    requires !cl.nodes[h.id].role.Leader? && Step(cl, h).nodes[h.id].role.Leader?
    ensures IdsOk(Step(cl, h), h.id, Step(cl, h).nodes[h.id])
  {
    var id, cl', nd' := h.id, Step(cl, h), Step(cl, h).nodes[h.id];
    var nd := Handling(cl.nodes[id], h.event);
    SteppedIntoLeading(cl, h);
    var m := Handed(cl.nodes[id], h.event).value;
    var c := Completed(nd, m);
    HandingIsThat(cl, h);
    PlanProposesItsOwn(id, nd, c, cl);
    CandidatesProposedNothing(cl, id);
    assert cl'.sent == cl.sent + BecomeLeader(id, nd, c).sent;
    hide LocalInv, Enabled, Outcome, Step, IdOf, BecomeLeader;
    IdsAfter(cl, cl', id, nd'.r.epoch, c.ballot, {}, nd'.role.leadership.ids, BecomeLeader(id, nd, c).sent);
  }

  lemma HandingIsThat(cl: Cluster, h: Happening)
    requires Enabled(cl, h) && !cl.nodes[h.id].role.Leader? && Step(cl, h).nodes[h.id].role.Leader?
    ensures var nd := Handling(cl.nodes[h.id], h.event);
            && Handed(cl.nodes[h.id], h.event).Some?
            && var m := Handed(cl.nodes[h.id], h.event).value;
               Completes(h.id, nd, m) && Outcome(cl, h) == BecomeLeader(h.id, nd, Completed(nd, m))
  {
    SteppedIntoLeading(cl, h);
    hide BecomeLeader, Completes, Handle;
    var nd := Handling(cl.nodes[h.id], h.event);
    HandledIntoLeading(h.id, nd, Handed(cl.nodes[h.id], h.event).value);
  }

  lemma CandidatesProposedNothing(cl: Cluster, id: NodeId)
    requires LocalInv(cl) && id in cl.nodes && cl.nodes[id].role.Candidate?
    ensures forall name :: !ProposedId(cl, id, cl.nodes[id].r.epoch, cl.nodes[id].role.campaign.ballot, name)
  {
    LocalOfNode(cl, id);
    hide LocalInv, Rebuilt, VotesOk, LocalOk, CampaignBinds, IdOf;
  }

  lemma {:induction false} RunKeepsIds(states: seq<Cluster>, run: Run, n: nat)
    requires Execution(states, run) && n < |states|
    ensures AllIdsOk(states[n])
  {
    hide LocalInv, Step, Enabled, Initial, IdsOk;
    if n == 0 {
      NobodyLeadsAtFirst(states[0]);
    } else {
      RunKeepsIds(states, run, n - 1);
      RunLocally(states, run, n - 1);
      assert Moves(states, run, n - 1);
      StepKeepsIds(states[n - 1], run[n - 1]);
    }
  }

  lemma NobodyLeadsAtFirst(cl: Cluster)
    requires Initial(cl)
    ensures AllIdsOk(cl)
  {
    hide Loaded, MaxRound, AppliedTotal;
  }

  lemma StepKeepsIds(cl: Cluster, h: Happening)
    requires LocalInv(cl) && AllIdsOk(cl) && Enabled(cl, h)
    ensures AllIdsOk(Step(cl, h))
  {
    var cl' := Step(cl, h);
    hide LocalInv, Enabled, IdsOk, Outcome;
    forall x | x in cl'.nodes ensures IdsOk(cl', x, cl'.nodes[x]) {
      if x != h.id {
        OtherIdsStay(cl, h, x);
      } else {
        IdsStay(cl, h);
      }
    }
  }

  lemma IdsStay(cl: Cluster, h: Happening)
    requires LocalInv(cl) && AllIdsOk(cl) && Enabled(cl, h)
    ensures IdsOk(Step(cl, h), h.id, Step(cl, h).nodes[h.id])
  {
    StepStepsOn(cl, h, h.id);
    hide LocalInv, Step;
    assert IdsOk(cl, h.id, cl.nodes[h.id]);
    if Step(cl, h).nodes[h.id].role.Leader? {
      if cl.nodes[h.id].role.Leader? {
        LeaderIdsStay(cl, h);
      } else {
        NewLeaderIds(cl, h);
      }
    }
  }

  /** Offered once, proposed once: a command offered to a leader is proposed, at the first free slot, exactly
      when its id was not applied lately and no command of that id was proposed under the leader's ballot. */
  lemma OfferedOnceProposedOnce(states: seq<Cluster>, run: Run, k: nat)
    requires Execution(states, run) && k < |run| && run[k].event.Offer?
    ensures run[k].id in states[k].nodes && states[k].nodes[run[k].id].role.Leader?
    ensures var id, c, nd := run[k].id, run[k].event.c, states[k].nodes[run[k].id];
            var e, l := nd.r.epoch, nd.role.leadership;
            if (exists x :: x in nd.r.results && x.0 == IdOf(c)) || ProposedId(states[k], id, e, l.ballot, IdOf(c))
            then states[k + 1] == states[k]
            else
              && states[k + 1].sent == states[k].sent + {Accept(id, e, l.ballot, l.nextFree, c)}
              && Leads(states[k + 1], id, e, l.ballot)
              && states[k + 1].nodes[id].role.leadership.nextFree == l.nextFree + 1
  {
    hide LocalInv, Step, Initial, IdOf, ProposedId;
    RunKeepsIds(states, run, k);
    assert Moves(states, run, k);
    assert IdsOk(states[k], run[k].id, states[k].nodes[run[k].id]);
    OfferHandsOutNext(states[k], run[k]);
  }
}
