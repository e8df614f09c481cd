/** What holds in every run of a cluster: agreement, one voter set per epoch, one state per place in
    the log, and promises and votes that outlive crashes. */
module Safety {
  import opened Ballots
  import opened StateMachines
  import opened Replays
  import opened Histories
  import opened Messages
  import opened Ledgers
  import opened Proposals
  import opened Nodes
  import opened Clusters
  import opened Invariants
  import opened Recoveries
  import opened Steps
  import opened Voting
  import opened Counting
  import opened Elections

  // every step, every run

  lemma HandleStep(cl: Cluster, id: NodeId, nd: Node, m: Message, cl': Cluster)
    requires Inv(cl) && Ready(cl, id, nd, m) && cl' == After(cl, id, Handle(id, nd, m))
    requires Hears(id, nd, m) && Counts(nd, m) ==>
               exists t :: t in cl.testimony && t.answer == m && t.floor <= t.fromSlot
    ensures Inv(cl')
  {
    hide Inv, NodeOk, After, OnPrepare, OnPromise, OnAccept, OnAccepted, OnNack, OnSnapshot, Committed, Bound,
      VotersOf, Counts;
    if !Hears(id, nd, m) {
      assert CampaignBinds(cl, id, nd) by { UnheardBinds(cl, id, nd, m); }
      IgnoredStep(cl, id, nd, m, cl');
    } else {
      match m {
        case Prepare(_, _, _, _) => PrepareStep(cl, id, nd, m, cl');
        case Promise(_, _, _, _) => PromiseStep(cl, id, nd, m, cl');
        case Accept(_, _, _, _, _) => AcceptStep(cl, id, nd, m, cl');
        case Accepted(_, _, _, _) => AcceptedStep(cl, id, nd, m, cl');
        case Nack(_, _, _, _) => NackStep(cl, id, nd, m, cl');
        case Commit(_, _, _, _) => CommitStep(cl, id, nd, m, cl');
        case Snapshot(_, _, _, _) => SnapshotStep(cl, id, nd, m, cl');
      }
    }
  }

  lemma UnheardBinds(cl: Cluster, id: NodeId, nd: Node, m: Message)
    requires Inv(cl) && Ready(cl, id, nd, m) && !Hears(id, nd, m)
    ensures CampaignBinds(cl, id, nd)
  {
    hide Inv, NodeOk, Bound;
  }

  /** Taking the first message off the queue leaves the node ready for it. */
  lemma DrainedIsReady(cl: Cluster, id: NodeId)
    requires Inv(cl) && id in cl.nodes && cl.nodes[id].local != []
    ensures var nd := cl.nodes[id]; Ready(cl, id, nd.(local := nd.local[1..]), nd.local[0])
  {
    var nd := cl.nodes[id];
    var nd' := nd.(local := nd.local[1..]);
    InvOfNode(cl, id);
    hide Inv, VotersOf, Bound, Honest, LeaderOk;
    SameStory(cl, nd, nd');
    SameRound(nd, nd');
    assert LocalOk(cl, nd');
    assert RoleOk(VotersOf(cl), cl, id, nd');
  }

  lemma ReceiverIsReady(cl: Cluster, id: NodeId, m: Message)
    requires Inv(cl) && id in cl.nodes && cl.nodes[id].local == [] && m in cl.sent
    ensures Ready(cl, id, cl.nodes[id], m)
  {
    InvOfNode(cl, id);
    hide Inv, VotersOf, Bound, LogOk, VotesOk, RoundOk, RoleOk, LocalOk;
  }

  lemma StepKeeps(cl: Cluster, h: Happening)
    requires Inv(cl) && Enabled(cl, h) && CountsSound(cl, h)
    ensures Inv(Step(cl, h))
  {
    hide Inv, After, Handle, StartCampaign, Propose, Resend, Rotated, Restarted, Told, Serve, HeardLeader, StepDown,
      WithPromise, Ready;
    var id, nd, cl' := h.id, cl.nodes[h.id], Step(cl, h);
    match h.event {
      case Receive(m) =>
        ReceiverIsReady(cl, id, m);
        HandleStep(cl, id, nd, m, cl');
      case Drain =>
        DrainedIsReady(cl, id);
        HandleStep(cl, id, nd.(local := nd.local[1..]), nd.local[0], cl');
      case Elect => ElectStep(cl, id, cl');
      case Yield => YieldStep(cl, id);
      case Offer(c) => OfferStep(cl, id, c, cl');
      case Retry(slot) => RetryStep(cl, id, slot, cl');
      case Heartbeat(ballot, sender) => HeartbeatStep(cl, id, ballot, sender);
      case Answer(p) => AnswerStep(cl, id, p, cl');
      case Rotate => RotateStep(cl, id);
      case Crash(voters) => CrashStep(cl, id, voters);
      case TornAccept(ballot) => TornAcceptStep(cl, id, ballot);
    }
  }

  lemma InitialInv(cl: Cluster)
    requires Initial(cl)
    ensures Inv(cl)
  {
    hide NodeOk, CampaignBinds, VotersOf, MessageOk, TestimonyOk, Decided, Restarted;
    forall id | id in cl.nodes
      ensures NodeOk(VotersOf(cl), cl, id, cl.nodes[id]) && CampaignBinds(cl, id, cl.nodes[id])
    {
      var genesis :| (genesis == None || genesis == Some(cl.genesis))
                     && cl.nodes[id] == Restarted(Disk(genesis, map[], map[], None));
      InitialNode(cl, id, genesis);
    }
    assert OneProposal(cl.sent);
  }

  lemma InitialNode(cl: Cluster, id: NodeId, genesis: Option<Members>)
    requires genesis == None || genesis == Some(cl.genesis)
    ensures var nd := Restarted(Disk(genesis, map[], map[], None));
            NodeOk(VotersOf(cl), cl, id, nd) && CampaignBinds(cl, id, nd)
  {
    hide VotersOf, LogOk, VotesOk, RoundOk, RoleOk, LocalOk, CampaignBinds, Loaded, AppliedTotal, MaxRound;
    var nd := Restarted(Disk(genesis, map[], map[], None));
    InitialLog(cl, genesis);
    FreshVotes(cl, nd);
    FreshRound(nd);
    IdleRole(cl, id, nd);
  }

  lemma IdleRole(cl: Cluster, id: NodeId, nd: Node)
    requires nd.role.Follower? && nd.local == []
    ensures RoleOk(VotersOf(cl), cl, id, nd) && LocalOk(cl, nd) && CampaignBinds(cl, id, nd)
  {
  }

  lemma FreshRound(nd: Node)
    requires nd.maxRound == MaxRound(Own(nd))
    ensures RoundOk(nd)
  {
    RoundCoversPromise(Own(nd));
  }

  lemma FreshVotes(cl: Cluster, nd: Node)
    requires nd.disk.ledgers == map[]
    ensures VotesOk(cl, nd)
  {
  }

  lemma InitialLog(cl: Cluster, genesis: Option<Members>)
    requires genesis == None || genesis == Some(cl.genesis)
    ensures LogOk(cl, Restarted(Disk(genesis, map[], map[], None)))
  {
    hide MaxRound, AppliedTotal;
    GenesisIsFaithful(cl.genesis, cl.log);
    var disk := Disk(genesis, map[], map[], None);
    assert Loaded(disk) == Genesis(if genesis.Some? then genesis.value else map[]);
  }

  /** The invariant holds after every happening of a sound run. */
  lemma {:induction false} RunKeeps(states: seq<Cluster>, run: Run, n: nat)
    requires Execution(states, run) && Sound(states, run) && n < |states|
    ensures Inv(states[n]) && states[n].genesis == states[0].genesis
  {
    hide Inv, Step, Enabled, CountsSound, Initial;
    if n == 0 {
      InitialInv(states[0]);
    } else {
      RunKeeps(states, run, n - 1);
      assert Moves(states, run, n - 1) && SoundAt(states, run, n - 1);
      StepKeeps(states[n - 1], run[n - 1]);
      HistoryGrows(states[n - 1], run[n - 1]);
    }
  }

  /** The agreed log and the messages only grow. */
  lemma {:induction false} RunGrows(states: seq<Cluster>, run: Run, m: nat, n: nat)
    requires Trace(states, run) && m <= n < |states|
    ensures Extends(states[n].log, states[m].log) && states[n].genesis == states[m].genesis
    ensures states[m].sent <= states[n].sent && states[n].nodes.Keys == states[m].nodes.Keys
    decreases n - m
  {
    hide Step, Enabled;
    if m < n {
      RunGrows(states, run, m, n - 1);
      assert Moves(states, run, n - 1);
      HistoryGrows(states[n - 1], run[n - 1]);
    }
  }

  lemma HistoryGrows(cl: Cluster, h: Happening)
    requires Enabled(cl, h)
    ensures var cl' := Step(cl, h); Extends(cl'.log, cl.log) && cl'.genesis == cl.genesis && cl.sent <= cl'.sent
    ensures Step(cl, h).nodes.Keys == cl.nodes.Keys
  {
    hide Outcome;
  }

  // agreement

  /** Agreement: whatever messages are lost, repeated or reordered and whoever crashes, two nodes
      never hold different commands for one place in the log, not even at different times, and the
      check that would report it (SafetyViolation) never fires. */
  lemma Agreement(states: seq<Cluster>, run: Run, m: nat, i: NodeId, n: nat, j: NodeId, p: Pos)
    requires Execution(states, run) && Sound(states, run) && m <= n < |states|
    requires i in states[m].nodes && p in states[m].nodes[i].disk.chosen
    requires j in states[n].nodes && p in states[n].nodes[j].disk.chosen
    ensures states[n].nodes[j].disk.chosen[p] == states[m].nodes[i].disk.chosen[p]
    ensures !states[m].nodes[i].violated && !states[n].nodes[j].violated
  {
    RunIsTrace(states, run);
    hide Execution, Trace, Sound, Inv;
    RunKeeps(states, run, m);
    RunKeeps(states, run, n);
    RunGrows(states, run, m, n);
    InvOfNode(states[m], i);
    InvOfNode(states[n], j);
  }

  lemma RunIsTrace(states: seq<Cluster>, run: Run)
    requires Execution(states, run)
    ensures Trace(states, run)
  {
  }

  /** Value choice: once a majority of an epoch's voters accepted `c` for a slot at ballot `b`,
      everything proposed there at `b` or above is `c`. */
  lemma ValueChoice(states: seq<Cluster>, run: Run, n: nat, e: nat, s: nat, b: Ballot, c: Command, b': Ballot, c': Command)
    requires Execution(states, run) && Sound(states, run) && n < |states|
    requires var end := states[n];
             && DecidedAt(VotersOf(end), end, e, b, s, c)
             && AtMost(b, b') && Accept(b'.node, e, b', s, c') in end.sent
    ensures c' == c
  {
    hide Execution, Sound, Inv, DecidedAt;
    RunKeeps(states, run, n);
    ProposalsFollowDecisions(states[n], e, b, s, c, b', c');
  }

  // the chain of epochs

  /** A state along the agreed log, as the one the node `nd` would hold knowing the first voters. */
  ghost function Canonical(genesis: Members, log: Log, r: Progress): (c: Progress)
    requires Faithful(genesis, log, r)
    ensures Reached(genesis, log, c) && c == r.(members := c.members)
  {
    if Reached(genesis, log, r) then r else r.(members := genesis)
  }

  /** Epoch chain: nodes that know the voters of an epoch they are in, at whatever moments, know the
      same ones, and two nodes that left an epoch recorded the same last slot for it. */
  lemma EpochChain(states: seq<Cluster>, run: Run, m: nat, i: NodeId, n: nat, j: NodeId)
    requires Execution(states, run) && Sound(states, run) && m <= n < |states|
    requires i in states[m].nodes && j in states[n].nodes
    ensures var r, q := states[m].nodes[i].r, states[n].nodes[j].r;
            && (r.epoch == q.epoch && r.members != map[] && q.members != map[] ==> r.members == q.members)
            && (forall e :: e in r.stops && e in q.stops && e < r.epoch && e < q.epoch ==> r.stops[e] == q.stops[e])
  {
    hide Execution, Trace, Sound, Inv, Faithful;
    BothOnTheLog(states, run, m, i, n, j);
    SameVotersSameStops(states[n].genesis, states[n].log, states[m].nodes[i].r, states[n].nodes[j].r);
  }

  /** Where two nodes stand, at two moments, are states of the log agreed on at the later one. */
  lemma BothOnTheLog(states: seq<Cluster>, run: Run, m: nat, i: NodeId, n: nat, j: NodeId)
    requires Execution(states, run) && Sound(states, run) && m <= n < |states|
    requires i in states[m].nodes && j in states[n].nodes
    ensures Faithful(states[n].genesis, states[n].log, states[m].nodes[i].r)
    ensures Faithful(states[n].genesis, states[n].log, states[n].nodes[j].r)
  {
    RunIsTrace(states, run);
    hide Execution, Trace, Sound, Inv, Faithful;
    RunKeeps(states, run, m);
    RunKeeps(states, run, n);
    RunGrows(states, run, m, n);
    InvOfNode(states[m], i);
    InvOfNode(states[n], j);
    FaithfulKept(states[n].genesis, states[m].log, states[n].log, states[m].nodes[i].r);
  }

  lemma SameVotersSameStops(genesis: Members, log: Log, r: Progress, q: Progress)
    requires Faithful(genesis, log, r) && Faithful(genesis, log, q)
    ensures r.epoch == q.epoch && r.members != map[] && q.members != map[] ==> r.members == q.members
    ensures forall e :: e in r.stops && e in q.stops && e < r.epoch && e < q.epoch ==> r.stops[e] == q.stops[e]
  {
    var r', q' := Canonical(genesis, log, r), Canonical(genesis, log, q);
    PlaceDeterminesState(genesis, log, r', q');
    StopsAgree(genesis, log, r', q');
  }

  lemma StopsAgree(genesis: Members, log: Log, r: Progress, q: Progress)
    requires Reached(genesis, log, r) && Reached(genesis, log, q)
    ensures forall e :: e in r.stops && e in q.stops && e < r.epoch && e < q.epoch ==> r.stops[e] == q.stops[e]
  {
    var n: nat :| Replay(genesis, log, n) == r;
    var m: nat :| Replay(genesis, log, m) == q;
    if n <= m { ReplayMovesOn(genesis, log, n, m); } else { ReplayMovesOn(genesis, log, m, n); }
  }

  /** Replicated determinism: two nodes that stand at the same place, at whatever moments, have the same
      machine, the same remembered results in the same order and the same stop slots. */
  lemma SamePlaceSameState(states: seq<Cluster>, run: Run, m: nat, i: NodeId, n: nat, j: NodeId)
    requires Execution(states, run) && Sound(states, run) && m <= n < |states|
    requires i in states[m].nodes && j in states[n].nodes
    requires At(states[m].nodes[i].r) == At(states[n].nodes[j].r)
    ensures var r, q := states[m].nodes[i].r, states[n].nodes[j].r; r == q.(members := r.members)
  {
    hide Execution, Sound, Faithful, Reached;
    BothOnTheLog(states, run, m, i, n, j);
    var r, q, end := states[m].nodes[i].r, states[n].nodes[j].r, states[n];
    PlaceDeterminesState(end.genesis, end.log, Canonical(end.genesis, end.log, r), Canonical(end.genesis, end.log, q));
  }

  // the one log

  /** Every replica is a full replay: through snapshot intervals, installed snapshots and restarts, where
      a node stands, its stored snapshot, and what its stored state rebuilds to are states of the one
      log replayed from the first voters. */
  lemma EveryReplicaIsAFullReplay(states: seq<Cluster>, run: Run, n: nat, i: NodeId)
    requires Execution(states, run) && Sound(states, run) && n < |states|
    requires i in states[n].nodes
    ensures var end := states[n];
            var nd := end.nodes[i];
            && Faithful(states[0].genesis, end.log, nd.r) && Loaded(nd.disk) == nd.r
            && (nd.disk.snapshot.Some? ==> Faithful(states[0].genesis, end.log, nd.disk.snapshot.value))
            && (nd.pending.Some? ==> Faithful(states[0].genesis, end.log, nd.pending.value))
            && Extends(end.log, nd.disk.chosen)
  {
    hide Execution, Sound, Inv;
    RunKeeps(states, run, n);
    InvOfNode(states[n], i);
    hide Faithful, Extends, Loaded;
  }

  // without compaction the side condition is free

  predicate NeverRotates(run: Run) {
    forall h :: h in run ==> !h.event.Rotate?
  }

  /** Nothing was compacted anywhere. */
  ghost predicate Whole(cl: Cluster) {
    && (forall id :: id in cl.nodes ==> WholeNode(cl.nodes[id]))
    && (forall t :: t in cl.testimony ==> t.floor == 0)
    && (forall m :: m in cl.sent ==> !m.Snapshot?)
  }

  ghost predicate WholeNode(nd: Node) {
    nd.disk.snapshot.None? && forall m :: m in nd.local ==> !m.Snapshot?
  }

  ghost predicate WholeEffect(o: Effect) {
    WholeNode(o.node) && (forall t :: t in o.testimony ==> t.floor == 0) && (forall m :: m in o.sent ==> !m.Snapshot?)
  }

  lemma WholeHandle(id: NodeId, nd: Node, m: Message)
    requires WholeNode(nd) && !m.Snapshot?
    ensures WholeEffect(Handle(id, nd, m))
  {
    hide Advance, Report, MaxRound, Hears, OnPrepare, OnAccept, OnAccepted, OnPromise;
    match m {
      case Promise(_, _, _, _) => WholePromise(id, nd, m);
      case Prepare(_, _, _, _) => WholeAnswers(id, nd, m);
      case Accept(_, _, _, _, _) => WholeAnswers(id, nd, m);
      case Accepted(_, _, _, _) => WholeAccepted(id, nd, m);
      case _ =>
    }
  }

  lemma WholeAnswers(id: NodeId, nd: Node, m: Message)
    requires WholeNode(nd) && (m.Prepare? || m.Accept?)
    ensures m.Prepare? ==> WholeEffect(OnPrepare(id, nd, m))
    ensures m.Accept? ==> WholeEffect(OnAccept(id, nd, m))
  {
    hide Advance, Report, MaxRound;
  }

  lemma WholeAccepted(id: NodeId, nd: Node, m: Message)
    requires WholeNode(nd) && m.Accepted?
    ensures WholeEffect(OnAccepted(id, nd, m))
  {
    hide Advance, Report, MaxRound;
  }

  lemma WholePromise(id: NodeId, nd: Node, m: Message)
    requires WholeNode(nd) && m.Promise?
    ensures WholeEffect(OnPromise(id, nd, m))
  {
    hide Advance, Report, MaxRound, FirstFree, Plan, Joined, Put, Taken;
    if Counts(nd, m) {
      var c := nd.role.campaign.(promises := Put(nd.role.campaign.promises, m.sender, m.accepted));
      PlanIsSent(Cluster(map[], 0, map[], {}, {}, map[]), id, nd, c);
    }
  }

  lemma WholeStep(cl: Cluster, h: Happening)
    requires Whole(cl) && Enabled(cl, h) && !h.event.Rotate?
    ensures Whole(Step(cl, h))
  {
    hide Advance, Report, MaxRound, AppliedTotal, Handle;
    var id, nd := h.id, cl.nodes[h.id];
    match h.event {
      case Receive(m) => WholeHandle(id, nd, m);
      case Drain => WholeHandle(id, nd.(local := nd.local[1..]), nd.local[0]);
      case _ =>
    }
    assert WholeEffect(Outcome(cl, h));
  }

  lemma {:induction false} WholeRunIsSound(states: seq<Cluster>, run: Run, n: nat)
    requires Execution(states, run) && NeverRotates(run) && n < |states|
    ensures Inv(states[n]) && Whole(states[n]) && forall k :: 0 <= k < n ==> SoundAt(states, run, k)
  {
    hide Inv, Step, Whole, Enabled, Initial, CountsSound;
    if n == 0 {
      InitialInv(states[0]);
      InitialIsWhole(states[0]);
    } else {
      WholeRunIsSound(states, run, n - 1);
      assert Moves(states, run, n - 1) && run[n - 1] in run;
      WholeCountsAreSound(states[n - 1], run[n - 1]);
      StepKeeps(states[n - 1], run[n - 1]);
      WholeStep(states[n - 1], run[n - 1]);
    }
  }

  lemma WholeCountsAreSound(cl: Cluster, h: Happening)
    requires Inv(cl) && Whole(cl) && Enabled(cl, h)
    ensures CountsSound(cl, h)
  {
    InvOfNode(cl, h.id);
    match Handed(cl.nodes[h.id], h.event) {
      case Some(m) =>
        hide VotersOf, NodeOk, LogOk, RoleOk, VotesOk, CampaignBinds, TestimonyOk;
        assert m in cl.sent;
        assert MessageOk(VotersOf(cl), cl, m);
      case None =>
    }
  }

  /** While nothing is compacted, agreement needs no side condition: every run has it. */
  lemma AgreementWithoutCompaction(states: seq<Cluster>, run: Run, m: nat, i: NodeId, n: nat, j: NodeId, p: Pos)
    requires Execution(states, run) && NeverRotates(run) && m <= n < |states|
    requires i in states[m].nodes && p in states[m].nodes[i].disk.chosen
    requires j in states[n].nodes && p in states[n].nodes[j].disk.chosen
    ensures states[n].nodes[j].disk.chosen[p] == states[m].nodes[i].disk.chosen[p]
    ensures !states[m].nodes[i].violated && !states[n].nodes[j].violated
  {
    RunIsTrace(states, run);
    WholeRunIsSound(states, run, |run|);
    hide Execution, Trace, Inv, Whole, SoundAt, NeverRotates;
    Agreement(states, run, m, i, n, j, p);
  }

  lemma InitialIsWhole(cl: Cluster)
    requires Initial(cl)
    ensures Whole(cl)
  {
    hide Loaded, MaxRound, AppliedTotal;
  }
}
