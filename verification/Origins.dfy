/** Where commands come from: in every run, nothing is proposed, voted for, decided or held as chosen
    that nobody offered, or that is not the no-op filling a gap. */
module Origins {
  import opened Ballots
  import opened StateMachines
  import opened Replays
  import opened Messages
  import opened Ledgers
  import opened Proposals
  import opened Nodes
  import opened Clusters
  import opened Elections
  import opened Steps

  type Asked = iset<Command>

  ghost predicate Known(c: Command, asked: Asked) {
    c == Noop || c in asked
  }

  ghost predicate EntriesAsked(es: seq<Entry>, asked: Asked) {
    forall x :: x in es ==> Known(x.command, asked)
  }

  ghost predicate MessageAsked(m: Message, asked: Asked) {
    match m
    case Promise(_, _, _, es) => EntriesAsked(es, asked)
    case Accept(_, _, _, _, c) => Known(c, asked)
    case Commit(_, _, _, c) => Known(c, asked)
    case _ => true
  }

  ghost predicate MessagesAsked(sent: set<Message>, asked: Asked) {
    forall m :: m in sent ==> MessageAsked(m, asked)
  }

  ghost predicate VotesAsked(disk: Disk, asked: Asked) {
    forall e, s :: s in LedgerOf(disk.ledgers, e).accepted ==> Known(LedgerOf(disk.ledgers, e).accepted[s].command, asked)
  }

  ghost predicate LogAsked(log: Log, asked: Asked) {
    forall p :: p in log ==> Known(log[p], asked)
  }

  ghost predicate RoleAsked(role: Role, asked: Asked) {
    match role
    case Follower => true
    case Candidate(c) => EntriesAsked(Joined(c.promises), asked)
    case Leader(l) => forall s :: s in l.inflight ==> Known(l.inflight[s].command, asked)
  }

  ghost predicate NodeAsked(nd: Node, asked: Asked) {
    && VotesAsked(nd.disk, asked) && LogAsked(nd.disk.chosen, asked) && RoleAsked(nd.role, asked)
    && forall m :: m in nd.local ==> MessageAsked(m, asked)
  }

  ghost predicate AllAsked(cl: Cluster, asked: Asked) {
    && MessagesAsked(cl.sent, asked) && LogAsked(cl.log, asked)
    && forall id :: id in cl.nodes ==> NodeAsked(cl.nodes[id], asked)
  }

  ghost predicate EffectAsked(o: Effect, asked: Asked) {
    NodeAsked(o.node, asked) && MessagesAsked(o.sent, asked) && LogAsked(o.decided, asked)
  }

  /** Commands reach the cluster only through `Offer`. */
  ghost predicate OffersOnly(h: Happening, asked: Asked) {
    h.event.Offer? ==> h.event.c in asked
  }

  // what handlers pass on

  lemma ReportAsked(disk: Disk, e: nat, from: nat, asked: Asked)
    requires VotesAsked(disk, asked)
    ensures EntriesAsked(Report(LedgerOf(disk.ledgers, e).accepted, from), asked)
  {
    ReportCovers(LedgerOf(disk.ledgers, e).accepted, from);
  }

  lemma StoredAsked(disk: Disk, e: nat, l: Ledger, asked: Asked)
    requires VotesAsked(disk, asked) && forall s :: s in l.accepted ==> Known(l.accepted[s].command, asked)
    ensures VotesAsked(Stored(disk, e, l), asked)
  {
    StoredShape(disk, e, l);
    hide Stored;
    forall x, s | s in LedgerOf(Stored(disk, e, l).ledgers, x).accepted
      ensures Known(LedgerOf(Stored(disk, e, l).ledgers, x).accepted[s].command, asked)
    {
      if x != e {
        assert s in LedgerOf(disk.ledgers, x).accepted;
      }
    }
  }

  lemma CommittedAsked(nd: Node, p: Pos, c: Command, asked: Asked)
    requires NodeAsked(nd, asked) && Known(c, asked)
    ensures NodeAsked(Committed(nd, p, c), asked)
  {
    hide Advance, MaxRound, Known, MessageAsked;
  }

  lemma CompactedAsked(disk: Disk, base: Progress, asked: Asked)
    requires VotesAsked(disk, asked) && LogAsked(disk.chosen, asked)
    ensures VotesAsked(Compacted(disk, base), asked) && LogAsked(Compacted(disk, base).chosen, asked)
  {
    hide Known;
    forall e, s | s in LedgerOf(Compacted(disk, base).ledgers, e).accepted
      ensures Known(LedgerOf(Compacted(disk, base).ledgers, e).accepted[s].command, asked)
    {
      assert e in disk.ledgers;
      assert s in LedgerOf(disk.ledgers, e).accepted;
    }
  }

  lemma RotatedAsked(nd: Node, every: nat, asked: Asked)
    requires NodeAsked(nd, asked)
    ensures NodeAsked(Rotated(nd, every), asked)
  {
    hide AppliedTotal, Compacted, VotesAsked, LogAsked, RoleAsked, MessageAsked;
    if nd.pending.Some? {
      CompactedAsked(nd.disk, nd.pending.value, asked);
    }
  }

  lemma InstalledAsked(nd: Node, snap: Progress, asked: Asked)
    requires NodeAsked(nd, asked)
    ensures NodeAsked(Installed(nd, snap), asked)
  {
    hide AppliedTotal, Compacted, VotesAsked, LogAsked, MessageAsked, Advance, MaxRound;
    CompactedAsked(nd.disk, snap, asked);
  }

  lemma {:induction false} PutHolds(ps: Promises, sender: NodeId, es: seq<Entry>, p: (NodeId, seq<Entry>))
    requires p in Put(ps, sender, es)
    ensures p == (sender, es) || p in ps
  {
    if ps != [] && ps[0].0 != sender {
      if p != ps[0] {
        PutHolds(ps[1..], sender, es, p);
      }
    }
  }

  lemma PutAsked(ps: Promises, sender: NodeId, es: seq<Entry>, asked: Asked)
    requires EntriesAsked(Joined(ps), asked) && EntriesAsked(es, asked)
    ensures EntriesAsked(Joined(Put(ps, sender, es)), asked)
  {
    hide Known;
    var qs := Put(ps, sender, es);
    forall x | x in Joined(qs) ensures Known(x.command, asked) {
      JoinedHolds(qs, x);
      var i :| 0 <= i < |qs| && x in qs[i].1;
      PutHolds(ps, sender, es, qs[i]);
      if qs[i] in ps {
        InJoined(ps, qs[i], x);
      }
    }
  }

  /** A new leader's proposals: what promises reported, or a no-op. */
  lemma LeaderAsked(id: NodeId, nd: Node, c: Campaign, asked: Asked)
    requires NodeAsked(nd, asked) && EntriesAsked(Joined(c.promises), asked)
    ensures EffectAsked(BecomeLeader(id, nd, c), asked)
  {
    var e, from, es := nd.r.epoch, nd.r.nextSlot, Joined(c.promises);
    var plan := Plan(es, from, e, nd.disk.chosen);
    var accepts := Proposing(id, e, c.ballot, plan, from, ReportedTop(es));
    PlannedAsked(es, from, e, nd.disk.chosen, asked);
    ProposingCovers(id, e, c.ballot, plan, from, ReportedTop(es));
    hide FirstFree, Joined, Plan, Proposing, ReportedTop, Known, EntriesAsked, VotesAsked, LogAsked;
    assert forall m :: m in accepts ==> MessageAsked(m, asked);
  }

  lemma PlannedAsked(es: seq<Entry>, from: nat, e: nat, chosen: Log, asked: Asked)
    requires EntriesAsked(es, asked)
    ensures forall s :: s in Plan(es, from, e, chosen) ==> Known(Plan(es, from, e, chosen)[s], asked)
  {
    PlanRange(es, from, e, chosen);
    forall s | s in Plan(es, from, e, chosen) ensures Known(Plan(es, from, e, chosen)[s], asked) {
      BestIsHighest(es, s);
    }
  }

  lemma PrepareAsked(id: NodeId, nd: Node, m: Message, asked: Asked)
    requires NodeAsked(nd, asked) && m.Prepare?
    ensures EffectAsked(OnPrepare(id, nd, m), asked)
  {
    var l := AnswerPrepare(id, nd.r.epoch, Own(nd), m).0;
    hide Known, Report, EntriesAsked, Stored;
    ReportAsked(nd.disk, nd.r.epoch, m.fromSlot, asked);
    StoredShape(nd.disk, nd.r.epoch, l);
    assert forall s :: s in l.accepted ==> s in LedgerOf(nd.disk.ledgers, nd.r.epoch).accepted;
    StoredAsked(nd.disk, nd.r.epoch, l, asked);
    hide VotesAsked, LogAsked;
  }

  lemma PromiseAsked(id: NodeId, nd: Node, m: Message, asked: Asked)
    requires NodeAsked(nd, asked) && m.Promise? && MessageAsked(m, asked)
    ensures EffectAsked(OnPromise(id, nd, m), asked)
  {
    hide Known, EntriesAsked, VotesAsked, BecomeLeader, Put, Joined;
    if Counts(nd, m) {
      var c := nd.role.campaign;
      PutAsked(c.promises, m.sender, m.accepted, asked);
      LeaderAsked(id, nd, c.(promises := Put(c.promises, m.sender, m.accepted)), asked);
    }
  }

  lemma AcceptAsked(id: NodeId, nd: Node, m: Message, asked: Asked)
    requires NodeAsked(nd, asked) && m.Accept? && MessageAsked(m, asked)
    ensures EffectAsked(OnAccept(id, nd, m), asked)
  {
    var l := AnswerAccept(id, nd.r.epoch, Own(nd), Floor(nd), m).0;
    hide Known, EntriesAsked, Stored;
    StoredShape(nd.disk, nd.r.epoch, l);
    assert forall s :: s in l.accepted && s != m.slot ==> s in LedgerOf(nd.disk.ledgers, nd.r.epoch).accepted;
    StoredAsked(nd.disk, nd.r.epoch, l, asked);
    hide VotesAsked, LogAsked;
  }

  lemma AcceptedAsked(id: NodeId, nd: Node, m: Message, asked: Asked)
    requires NodeAsked(nd, asked) && m.Accepted?
    ensures EffectAsked(OnAccepted(id, nd, m), asked)
  {
    hide Known, EntriesAsked, VotesAsked, Committed;
    if nd.role.Leader? && m.ballot == nd.role.leadership.ballot {
      var (l, done) := Counted(nd.role.leadership, m.slot, m.sender);
      assert NodeAsked(nd.(role := Leader(l)), asked);
      if done.Some? {
        CommittedAsked(nd.(role := Leader(l)), Pos(nd.r.epoch, m.slot), done.value, asked);
      }
    }
  }

  lemma HandleAsked(id: NodeId, nd: Node, m: Message, asked: Asked)
    requires NodeAsked(nd, asked) && MessageAsked(m, asked)
    ensures EffectAsked(Handle(id, nd, m), asked)
  {
    hide Hears, OnPrepare, OnPromise, OnAccept, OnAccepted, Committed, Installed, VotesAsked, LogAsked, RoleAsked,
      MessageAsked;
    QuietAsked(nd, asked);
    if Hears(id, nd, m) {
      match m {
        case Prepare(_, _, _, _) => PrepareAsked(id, nd, m, asked);
        case Promise(_, _, _, _) => PromiseAsked(id, nd, m, asked);
        case Accept(_, _, _, _, _) => AcceptAsked(id, nd, m, asked);
        case Accepted(_, _, _, _) => AcceptedAsked(id, nd, m, asked);
        case Nack(_, _, _, _) => NackAsked(nd, m, asked);
        case Commit(_, e, s, c) => CommitAsked(nd, m, asked);
        case Snapshot(_, _, _, state) =>
          InstalledAsked(nd, state, asked);
          QuietAsked(Installed(nd, state), asked);
      }
    }
  }

  lemma QuietAsked(nd: Node, asked: Asked)
    requires NodeAsked(nd, asked)
    ensures EffectAsked(Quiet(nd), asked)
  {
  }

  lemma NackAsked(nd: Node, m: Message, asked: Asked)
    requires NodeAsked(nd, asked) && m.Nack?
    ensures EffectAsked(Quiet(OnNack(nd, m)), asked)
  {
    hide VotesAsked, MessageAsked;
  }

  lemma CommitAsked(nd: Node, m: Message, asked: Asked)
    requires NodeAsked(nd, asked) && m.Commit? && MessageAsked(m, asked)
    ensures EffectAsked(Quiet(Committed(nd, Pos(m.epoch, m.slot), m.command)), asked)
  {
    hide Committed, NodeAsked;
    CommittedAsked(nd, Pos(m.epoch, m.slot), m.command, asked);
  }

  // every step, every run

  lemma StepAsked(cl: Cluster, h: Happening, asked: Asked)
    requires Enabled(cl, h) && AllAsked(cl, asked) && OffersOnly(h, asked)
    ensures AllAsked(Step(cl, h), asked)
  {
    var o := Outcome(cl, h);
    OutcomeAsked(cl, h, asked);
    hide Enabled, Outcome, OffersOnly, NodeAsked, MessageAsked, Known;
  }

  lemma OutcomeAsked(cl: Cluster, h: Happening, asked: Asked)
    requires Enabled(cl, h) && AllAsked(cl, asked) && OffersOnly(h, asked)
    ensures EffectAsked(Outcome(cl, h), asked)
  {
    var id, nd := h.id, cl.nodes[h.id];
    hide Handle, StartCampaign, Propose, Resend, Rotated, Restarted, Told, Serve, HeardLeader, StepDown, WithPromise,
      MessageAsked, VotesAsked, LogAsked, RoleAsked;
    match h.event {
      case Receive(m) => HandleAsked(id, nd, m, asked);
      case Drain => HandleAsked(id, nd.(local := nd.local[1..]), nd.local[0], asked);
      case Elect => ElectAsked(id, nd, asked);
      case Yield => YieldAsked(nd, asked);
      case Offer(c) => OfferAsked(id, nd, c, asked);
      case Retry(slot) => RetryAsked(id, nd, slot, asked);
      case Heartbeat(ballot, sender) => HeartbeatAsked(id, nd, ballot, sender, asked);
      case Answer(p) => AnswerAsked(id, nd, p, asked);
      case Rotate => RotatedAsked(nd, cl.every, asked);
      case Crash(voters) =>
        ToldAsked(nd.disk, voters, asked);
        RestartAsked(Told(nd.disk, voters), asked);
      case TornAccept(ballot) =>
        TornAsked(nd, ballot, asked);
        RestartAsked(WithPromise(nd, ballot), asked);
    }
  }

  lemma ElectAsked(id: NodeId, nd: Node, asked: Asked)
    requires NodeAsked(nd, asked)
    ensures EffectAsked(StartCampaign(id, nd), asked)
  {
    hide VotesAsked, Known;
  }

  lemma YieldAsked(nd: Node, asked: Asked)
    requires NodeAsked(nd, asked)
    ensures EffectAsked(Quiet(StepDown(nd)), asked)
  {
    hide VotesAsked, MessageAsked;
  }

  lemma OfferAsked(id: NodeId, nd: Node, c: Command, asked: Asked)
    requires NodeAsked(nd, asked) && nd.role.Leader? && c in asked
    ensures EffectAsked(Propose(id, nd, c), asked)
  {
    hide VotesAsked, EntriesAsked;
  }

  lemma RetryAsked(id: NodeId, nd: Node, slot: nat, asked: Asked)
    requires NodeAsked(nd, asked) && nd.role.Leader? && slot in nd.role.leadership.inflight
    ensures EffectAsked(Resend(id, nd, slot), asked)
  {
    hide VotesAsked, EntriesAsked, Known;
  }

  lemma HeartbeatAsked(id: NodeId, nd: Node, ballot: Ballot, sender: NodeId, asked: Asked)
    requires NodeAsked(nd, asked)
    ensures EffectAsked(Quiet(HeardLeader(id, nd, ballot, sender)), asked)
  {
    hide VotesAsked, MessageAsked;
  }

  lemma AnswerAsked(id: NodeId, nd: Node, p: Pos, asked: Asked)
    requires NodeAsked(nd, asked)
    ensures EffectAsked(Quiet(nd).(sent := Serve(id, nd, p)), asked)
  {
    hide VotesAsked, RoleAsked, Known;
  }

  lemma RestartAsked(disk: Disk, asked: Asked)
    requires VotesAsked(disk, asked) && LogAsked(disk.chosen, asked)
    ensures EffectAsked(Quiet(Restarted(disk)), asked)
  {
    hide VotesAsked, Loaded, AppliedTotal, MaxRound;
  }

  lemma ToldAsked(disk: Disk, voters: Option<Members>, asked: Asked)
    requires VotesAsked(disk, asked) && LogAsked(disk.chosen, asked)
    ensures VotesAsked(Told(disk, voters), asked) && LogAsked(Told(disk, voters).chosen, asked)
  {
  }

  lemma TornAsked(nd: Node, ballot: Ballot, asked: Asked)
    requires NodeAsked(nd, asked)
    ensures VotesAsked(WithPromise(nd, ballot), asked) && LogAsked(WithPromise(nd, ballot).chosen, asked)
  {
    var l := Raised(Own(nd), ballot);
    hide Known, Stored;
    StoredShape(nd.disk, nd.r.epoch, l);
    assert forall s :: s in l.accepted ==> s in LedgerOf(nd.disk.ledgers, nd.r.epoch).accepted;
    StoredAsked(nd.disk, nd.r.epoch, l, asked);
    hide VotesAsked;
  }

  lemma StartAsked(cl: Cluster, asked: Asked)
    requires Initial(cl)
    ensures AllAsked(cl, asked)
  {
    hide Loaded, AppliedTotal, MaxRound;
  }

  lemma {:induction false} RunAsked(states: seq<Cluster>, run: Run, asked: Asked, n: nat)
    requires Execution(states, run) && n < |states|
    requires forall h :: h in run ==> OffersOnly(h, asked)
    ensures AllAsked(states[n], asked)
  {
    hide Step, AllAsked, OffersOnly, Enabled, Initial;
    if n == 0 {
      StartAsked(states[0], asked);
    } else {
      RunAsked(states, run, asked, n - 1);
      assert Moves(states, run, n - 1) && run[n - 1] in run;
      StepAsked(states[n - 1], run[n - 1], asked);
    }
  }

  predicate OfferedIn(run: Run, c: Command) {
    exists h :: h in run && h.event == Offer(c)
  }

  ghost function AskedIn(run: Run): Asked {
    iset c | OfferedIn(run, c)
  }

  /** Validity: every command a node ever holds as chosen was offered to the cluster, or is the no-op
      that fills a gap. */
  lemma NothingUnaskedIsChosen(states: seq<Cluster>, run: Run, n: nat, i: NodeId, p: Pos)
    requires Execution(states, run) && n < |states|
    requires i in states[n].nodes && p in states[n].nodes[i].disk.chosen
    ensures var c := states[n].nodes[i].disk.chosen[p]; c == Noop || OfferedIn(run, c)
  {
    hide *;
    OffersAsked(run);
    RunAsked(states, run, AskedIn(run), n);
    ChosenAsked(states[n], i, p, AskedIn(run));
    AskedIsOffered(run, states[n].nodes[i].disk.chosen[p]);
  }

  lemma OffersAsked(run: Run)
    ensures forall h :: h in run ==> OffersOnly(h, AskedIn(run))
  {
  }

  lemma AskedIsOffered(run: Run, c: Command)
    ensures c in AskedIn(run) <==> OfferedIn(run, c)
  {
  }

  lemma ChosenAsked(cl: Cluster, i: NodeId, p: Pos, asked: Asked)
    requires AllAsked(cl, asked) && i in cl.nodes && p in cl.nodes[i].disk.chosen
    ensures cl.nodes[i].disk.chosen[p] == Noop || cl.nodes[i].disk.chosen[p] in asked
  {
    assert NodeAsked(cl.nodes[i], asked);
    hide VotesAsked, RoleAsked, MessageAsked;
  }
}
