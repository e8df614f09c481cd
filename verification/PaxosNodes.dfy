/** One member as the object it is (app/consensus/node.py, roles.py, snapshots.py): each handler does
    to its fields, its store and its outgoing messages what the step functions of `Nodes` say. */
module PaxosNodes {
  import opened Ballots
  import opened StateMachines
  import opened Replays
  import opened Messages
  import opened Ledgers
  import opened Proposals
  import opened Nodes
  import opened Stores
  import opened Acceptors
  import opened Proposers
  import opened Replicas
  import opened Mail

  class PaxosNode {
    const id: NodeId
    const store: MemoryStore
    const replica: Replica
    var acceptor: Acceptor
    var campaign: CampaignCount?
    var leadership: LeadershipCount?
    var leader: Option<NodeId>
    var leaderBallot: Ballot
    var maxRound: nat
    var local: seq<Message>
    var outbox: Post
    var violated: bool
    /** Every message sent so far, to whomever. */
    ghost var said: set<Message>

    ghost function Repr(): set<object>
      reads this
    {
      {this, store, replica, replica.machine, acceptor}
      + (if campaign == null then {} else {campaign as object})
      + (if leadership == null then {} else {leadership as object})
    }

    ghost function RoleView(): Role
      reads this, campaign, leadership
    {
      if campaign != null then Candidate(campaign.View())
      else if leadership != null then Leader(leadership.View())
      else Follower
    }

    ghost function View(): Node
      reads Repr()
    {
      Node(store.disk, replica.Stand(), replica.pending, replica.pendingTotal, RoleView(), leader, leaderBallot,
           maxRound, local, violated)
    }

    /** The replica is on the store, its waiting snapshot is of no later epoch, and at most one of campaign
        and leadership is under way. */
    ghost predicate Wired()
      reads Repr()
    {
      && replica.store == store && replica.Valid() && replica.base == store.disk.snapshot
      && (replica.pending.Some? ==> replica.pending.value.epoch <= replica.epoch)
      && (campaign == null || leadership == null)
    }

    /** The acceptor is the one of the replica's epoch, and holds what is stored for it. */
    ghost predicate Valid()
      reads Repr()
    {
      && Wired()
      && acceptor.store == store && acceptor.id == id && acceptor.epoch == replica.epoch
      && acceptor.Durable()
      && acceptor.floor == (if replica.base.Some? && replica.base.value.epoch == replica.epoch
                            then replica.base.value.nextSlot else 0)
    }

    /** What the abstract node shows of the fields. */
    lemma Shown()
      requires Valid()
      ensures var nd := View();
              && nd.r.epoch == replica.epoch && nd.r.members == replica.members && nd.r.nextSlot == replica.nextSlot
              && nd.leader == leader && nd.leaderBallot == leaderBallot && nd.maxRound == maxRound && nd.local == local
              && nd.violated == violated && nd.role == RoleView()
              && {this, store, replica, replica.machine, acceptor} <= Repr()
              && (campaign != null ==> campaign in Repr()) && (leadership != null ==> leadership in Repr())
              && (campaign != null <==> nd.role.Candidate?) && (campaign != null ==> nd.role.campaign == campaign.View())
              && (leadership != null <==> nd.role.Leader?) && (leadership != null ==> nd.role.leadership == leadership.View())
    {
    }

    /** A change of role, of whom to follow, of rounds or of the queue leaves the rest as it was. */
    twostate lemma RestStays()
      requires old(Valid()) && acceptor == old(acceptor) && unchanged(replica, replica.machine, store, acceptor)
      requires campaign == null || leadership == null
      ensures Valid() && View() == old(View()).(role := RoleView(), leader := leader, leaderBallot := leaderBallot,
                                                maxRound := maxRound, local := local, violated := violated)
      ensures forall o :: o in Repr() && o !in old(Repr()) ==> o == campaign || o == leadership
    {
      hide LedgerOf, MaxRound, Advance, AppliedTotal, RoleView;
    }

    /** A process started on a store; the first voters are recorded the first time they are given. */
    constructor (id: NodeId, store: MemoryStore, machine: ClusterMachine, every: nat, genesis: Option<Members>)
      requires machine.State() == EMPTY
      modifies store, machine
      ensures Valid() && fresh(Repr() - {store, machine}) && this.id == id && said == {} && outbox == []
      ensures store.disk == Told(old(store.disk), genesis)
      ensures View() == Restarted(store.disk) && replica.every == every
    {
      hide MaxRound, Advance, StopsBelow;
      if store.disk.genesis.None? && genesis.Some? {
        store.SaveGenesis(genesis.value);
      }
      this.id := id;
      this.store := store;
      var r := new Replica(machine, store, every);
      replica := r;
      var a := new Acceptor(id, r.epoch, store);
      if r.base.Some? && r.base.value.epoch == r.epoch {
        a.RaiseFloor(r.base.value.nextSlot);
      }
      var round := a.HighestRound();
      acceptor := a;
      maxRound := round;
      campaign, leadership, leader, leaderBallot := null, null, None, ZERO;
      local, outbox, violated, said := [], [], false, {};
    }

    /** A fresh Paxos instance: its own acceptor, no campaign, no leader. */
    method BeginEpoch()
      requires Wired()
      modifies this`acceptor, this`maxRound, this`campaign, this`leadership, this`leader, this`leaderBallot
      ensures Valid() && fresh(acceptor) && campaign == null && leadership == null
      ensures View() == EnterEpoch(old(View()))
    {
      hide MaxRound;
      ghost var r := replica.Stand();
      acceptor := new Acceptor(id, replica.epoch, store);
      if replica.base.Some? && replica.base.value.epoch == replica.epoch {
        acceptor.RaiseFloor(replica.base.value.nextSlot);
      }
      maxRound := acceptor.HighestRound();
      campaign, leadership, leader, leaderBallot := null, null, None, ZERO;
      assert acceptor.State() == LedgerOf(store.disk.ledgers, replica.epoch) && replica.Stand() == r;
      assert RoleView() == Follower;
    }

    method StepAside()
      requires Valid()
      modifies this`campaign, this`leadership
      ensures Valid() && View() == StepDown(old(View()))
    {
      campaign, leadership := null, null;
    }

    /** To itself a message is queued; to others it goes out. */
    method Send(to: NodeId, m: Message)
      requires Valid()
      modifies this`local, this`outbox, this`said
      ensures Valid() && View() == Keep(id, old(View()), to, m)
      ensures Posted(old(outbox), outbox, {to} - {id}, [m]) && said == old(said) + {m}
      ensures Repr() == old(Repr())
    {
      if to == id {
        local := local + [m];
        PostedNothing(outbox, {to} - {id}, [m]);
      } else {
        PostedOne(outbox, to, m);
        outbox := outbox + [(to, m)];
      }
      said := said + {m};
    }

    /** To every voter, itself included if it is one. */
    method Broadcast(m: Message)
      requires Valid()
      modifies this`local, this`outbox, this`said
      ensures Valid() && View() == KeepAll(id, old(View()), [m])
      ensures Posted(old(outbox), outbox, old(View()).r.members.Keys - {id}, [m]) && said == old(said) + {m}
      ensures Repr() == old(Repr())
    {
      hide Posted;
      Announce(replica.members.Keys, m);
      if id in replica.members {
        local := local + [m];
      }
    }

    /** Once to each of the given voters other than itself. */
    method Announce(voters: set<NodeId>, m: Message)
      modifies this`outbox, this`said
      ensures Posted(old(outbox), outbox, voters - {id}, [m]) && said == old(said) + {m}
    {
      said := said + {m};
      var rest := voters - {id};
      PostedNothing(outbox, {}, [m]);
      while rest != {}
        invariant rest <= voters - {id} && said == old(said) + {m}
        invariant Posted(old(outbox), outbox, voters - {id} - rest, [m])
        decreases rest
      {
        var to :| to in rest;
        ghost var mid := outbox;
        PostedOne(mid, to, m);
        outbox := outbox + [(to, m)];
        PostedWider(old(outbox), mid, outbox, voters - {id} - rest, {to}, [m]);
        assert voters - {id} - rest + {to} == voters - {id} - (rest - {to});
        rest := rest - {to};
      }
      assert voters - {id} - rest == voters - {id};
    }

    method OwnBallotNow() returns (b: Ballot)
      requires Wired()
      ensures b == OwnBallot(RoleView())
    {
      if campaign != null {
        return campaign.ballot;
      }
      if leadership != null {
        return leadership.ballot;
      }
      return ZERO;
    }

    // the log

    method CommitAt(p: Pos, c: Command)
      requires Valid()
      modifies this, store, replica, replica.machine
      ensures Valid() && fresh(Repr() - old(Repr())) && View() == Committed(old(View()), p, c)
      ensures said == old(said) && outbox == old(outbox)
    {
      hide Advance, AppliedTotal, MaxRound, Learned, Committed, EnterEpoch, LedgerOf;
      CommitsThenEnters(View(), p, c);
      var before := replica.epoch;
      Record(p, c);
      if replica.epoch != before {
        BeginEpoch();
      }
    }

    /** The replica takes a chosen command; the epoch it may have sealed is not entered yet. */
    method Record(p: Pos, c: Command)
      requires Valid()
      modifies this`violated, store, replica, replica.machine
      ensures Wired() && Repr() == old(Repr()) && View() == Learned(old(View()), p, c)
      ensures replica.epoch == old(replica.epoch) ==> Valid()
    {
      hide AppliedTotal, MaxRound, Report, ApplyChosen, Ahead;
      ghost var nd := View();
      var result := replica.Commit(p, c);
      if result.SafetyViolation? {
        violated := true;
        assert View() == nd.(violated := true);
      } else if result.Known? {
        assert View() == nd;
      } else {
        assert View() == nd.(disk := store.disk, r := replica.Stand());
        AdvanceStops(nd.r, replica.chosen);
      }
    }

    /** The base moved: forget the log and the votes before it, here and on disk. */
    method CompactAt(base: Progress)
      requires acceptor.store == store && acceptor.Durable() && acceptor.id == id
      modifies store, acceptor
      ensures store.disk == Disk(old(store.disk).genesis, Compacted(old(store.disk), base).ledgers, replica.chosen, Some(base))
      ensures base.epoch <= acceptor.epoch ==> acceptor.Durable()
      ensures acceptor.floor == (if base.epoch == replica.epoch then base.nextSlot else 0)
    {
      var ledgers := map e | e in store.disk.ledgers && base.epoch <= e ::
        if e == base.epoch then Pruned(store.disk.ledgers[e], base.nextSlot) else store.disk.ledgers[e];
      if acceptor.epoch == base.epoch {
        acceptor.Forget(base.nextSlot);
      }
      store.Compact(Disk(store.disk.genesis, ledgers, replica.chosen, Some(base)));
      acceptor.RaiseFloor(if base.epoch == replica.epoch then base.nextSlot else 0);
    }

    method OnRotate()
      requires Valid()
      modifies Repr()
      ensures Valid() && fresh(Repr() - old(Repr())) && View() == Rotated(old(View()), replica.every)
      ensures said == old(said) && outbox == old(outbox)
    {
      var moved := replica.Rotate();
      if moved {
        CompactAt(replica.base.value);
      }
    }

    method OnSnapshotMessage(m: Message)
      requires Valid() && m.Snapshot?
      modifies Repr()
      ensures Valid() && fresh(Repr() - old(Repr())) && View() == OnSnapshot(old(View()), m)
      ensures said == old(said) && outbox == old(outbox)
    {
      hide AppliedTotal, MaxRound, Advance, Pruned;
      if Pos(m.atEpoch, m.atSlot) != Pos(m.state.epoch, m.state.nextSlot) {
        return;
      }
      var before := replica.epoch;
      var done := replica.Install(m.state);
      if !done {
        return;
      }
      AdvanceStops(m.state, replica.chosen);
      CompactAt(m.state);
      if replica.epoch != before {
        BeginEpoch();
      }
    }

    // phase 1

    /** The role and round of a candidate under its next ballot. */
    method BeginCampaign() returns (prepare: Message)
      requires Valid()
      modifies this`maxRound, this`campaign, this`leadership, this`leader
      ensures Valid() && fresh(Repr() - old(Repr()))
      ensures var nd := old(View());
              var b := Ballot(nd.maxRound + 1, id);
              prepare == Message.Prepare(id, nd.r.epoch, b, nd.r.nextSlot) && View() == Campaigning(nd, b)
    {
      hide View, Valid, Wired, Repr;
      Shown();
      ghost var nd := View();
      var ballot := Ballot(maxRound + 1, id);
      StandForElection(ballot);
      assert RoleView() == Campaigning(nd, ballot).role;
      RestStays();
      prepare := Message.Prepare(id, replica.epoch, ballot, replica.nextSlot);
    }

    method StandForElection(ballot: Ballot)
      modifies this`maxRound, this`campaign, this`leadership, this`leader
      ensures campaign != null && fresh(campaign) && leadership == null && leader == None && maxRound == ballot.round
      ensures campaign.ballot == ballot && campaign.quorum == |replica.members| / 2 + 1 && campaign.promises == []
    {
      campaign := new CampaignCount(ballot, |replica.members| / 2 + 1);
      maxRound := ballot.round;
      leadership, leader := null, None;
    }

    method OnElection()
      requires Valid()
      modifies this
      ensures Valid() && fresh(Repr() - old(Repr()))
      ensures var o := StartCampaign(id, old(View())); View() == o.node && said == old(said) + o.sent
      ensures var nd := old(View());
              var prepare := Message.Prepare(id, nd.r.epoch, Ballot(nd.maxRound + 1, id), nd.r.nextSlot);
              Posted(old(outbox), outbox, nd.r.members.Keys - {id}, [prepare])
    {
      hide View, Valid, Repr, Posted;
      var prepare := BeginCampaign();
      Broadcast(prepare);
    }

    /** The acceptor's answer to a Prepare. */
    method AskAcceptor(m: Message) returns (reply: Message)
      requires Valid() && m.Prepare?
      modifies acceptor, store
      ensures Valid() && Repr() == old(Repr())
      ensures var nd := old(View());
              var (l, answer) := AnswerPrepare(id, nd.r.epoch, Own(nd), m);
              reply == answer && View() == nd.(disk := Stored(nd.disk, nd.r.epoch, l))
    {
      hide Report, Advance, MaxRound, AppliedTotal, AnswerPrepare;
      assert Own(View()) == acceptor.State();
      reply := acceptor.Prepare(m);
    }

    /** A ballot it promised to another ends a lower campaign or leadership of its own. */
    method GiveWay(m: Message)
      requires Valid() && m.Prepare?
      modifies this`maxRound, this`campaign, this`leadership
      ensures Valid() && Repr() <= old(Repr())
      ensures var nd := old(View());
              View() == nd.(maxRound := Max(nd.maxRound, m.ballot.round),
                            role := if m.sender != id && Less(OwnBallot(nd.role), m.ballot) then Follower else nd.role)
    {
      hide Less, LedgerOf, MaxRound, Advance;
      maxRound := Max(maxRound, m.ballot.round);
      if m.sender != id {
        var own := OwnBallotNow();
        if Less(own, m.ballot) {
          campaign, leadership := null, null;
        }
      }
    }

    method OnPrepareMessage(m: Message)
      requires Valid() && m.Prepare?
      modifies this, acceptor, store
      ensures Valid() && fresh(Repr() - old(Repr()))
      ensures var o := OnPrepare(id, old(View()), m); View() == o.node && said == old(said) + o.sent
      ensures var nd := old(View());
              Posted(old(outbox), outbox, {m.sender} - {id}, [AnswerPrepare(id, nd.r.epoch, Own(nd), m).1])
    {
      hide View, Valid, Repr, Report, Posted;
      var reply := AskAcceptor(m);
      if reply.Promise? {
        GiveWay(m);
      }
      Send(m.sender, reply);
    }

    method OnPromiseMessage(m: Message)
      requires Valid() && m.Promise?
      modifies this, campaign
      ensures Valid() && fresh(Repr() - old(Repr()))
      ensures View() == OnPromise(id, old(View()), m).node && said == old(said) + OnPromise(id, old(View()), m).sent
      ensures var nd := old(View());
              if Finishes(nd, m) then Posted(old(outbox), outbox, nd.r.members.Keys - {id}, Planned(id, nd, Completed(nd, m)))
              else outbox == old(outbox)
    {
      hide View, Valid, Repr, Posted, Planned, BecomeLeader, Put;
      Shown();
      if campaign == null || m.ballot != campaign.ballot {
        return;
      }
      ghost var nd := View();
      ghost var repr := Repr();
      var complete := CountPromise(m);
      if complete {
        SameTakeOver(id, nd, View(), Completed(nd, m));
        label L:
        TakeOver();
        assert forall o :: o in Repr() && o !in repr ==> fresh@L(o);
      }
    }

    /** One more promise for the campaign under way; true when it completes the majority. */
    method CountPromise(m: Message) returns (complete: bool)
      requires Valid() && m.Promise? && View().role.Candidate?
      modifies campaign
      ensures Valid() && Repr() == old(Repr())
      ensures var nd := old(View());
              var before, c := nd.role.campaign, Completed(nd, m);
              View() == nd.(role := Candidate(c)) && complete == (|before.promises| < before.quorum <= |c.promises|)
    {
      hide Advance, AppliedTotal, MaxRound, Report, Put;
      complete := campaign.Add(m.sender, m.accepted);
    }

    /** The plan of the campaign is proposed slot by slot; new commands go above it. */
    method TakeOver()
      requires Valid() && View().role.Candidate?
      modifies this
      ensures Valid() && fresh(Repr() - old(Repr()))
      ensures var nd := old(View());
              var c := nd.role.campaign;
              && View() == BecomeLeader(id, nd, c).node && said == old(said) + BecomeLeader(id, nd, c).sent
              && Posted(old(outbox), outbox, nd.r.members.Keys - {id}, Planned(id, nd, c))
    {
      hide View, Valid, Repr, BecomeLeader, Joined, Plan, FirstFree, ReportedTop, Posted, Proposing;
      ghost var nd := View();
      Shown();
      BecomesLeader(id, nd, nd.role.campaign);
      var plan, from, top := BeginLeading();
      Shown();
      ProposeAll(plan, from, top);
    }

    /** The campaign becomes a leadership over its plan. */
    method BeginLeading() returns (plan: map<nat, Command>, from: nat, top: nat)
      requires Valid() && campaign != null
      modifies this`campaign, this`leadership, this`leader, this`leaderBallot
      ensures Valid() && leadership != null && fresh(Repr() - old(Repr()))
      ensures var nd, c := old(View()), old(campaign.View());
              var es, e := Joined(c.promises), nd.r.epoch;
              && from == nd.r.nextSlot && top == ReportedTop(es) && plan == Plan(es, from, e, nd.disk.chosen)
              && View() == nd.(role := Leader(Taken(c.ballot, c.quorum, FirstFree(es, from, e, nd.disk.chosen), plan)),
                               leader := Some(id), leaderBallot := c.ballot)
    {
      hide Joined, Plan, FirstFree, ReportedTop, LedgerOf, MaxRound, Advance;
      PlanBelowTop(Joined(campaign.promises), replica.nextSlot, replica.epoch, store.disk.chosen);
      var free;
      plan, from, free, top := ReadPlan();
      var taking := new LeadershipCount(campaign.ballot, campaign.quorum, free);
      taking.ProposePlan(plan, from, top);
      leader, leaderBallot := Some(id), campaign.ballot;
      campaign, leadership := null, taking;
      assert RoleView() == Leader(taking.View());
    }

    /** What the campaign under way obliges a leader to propose, and the first slot free above it. */
    method ReadPlan() returns (plan: map<nat, Command>, from: nat, free: nat, top: nat)
      requires Valid() && campaign != null
      ensures from == replica.nextSlot && top == ReportedTop(Joined(campaign.promises))
      ensures plan == Plan(Joined(campaign.promises), from, replica.epoch, store.disk.chosen)
      ensures free == FirstFree(Joined(campaign.promises), from, replica.epoch, store.disk.chosen)
    {
      hide LedgerOf, MaxRound, Advance, Above;
      from := replica.nextSlot;
      var e := replica.epoch;
      plan, top := campaign.MakePlan(from, e, replica.chosen);
      var known := TopOf(set p | p in replica.chosen && p.epoch == e :: p.slot);
      var planned := TopOf(plan.Keys);
      free := Max(from, Max(known, planned));
    }

    /** The planned proposals go out in slot order. */
    method ProposeAll(plan: map<nat, Command>, from: nat, top: nat)
      requires Valid() && leadership != null
      modifies this`local, this`outbox, this`said
      ensures Valid() && Repr() == old(Repr())
      ensures var nd := old(View());
              var accepts := Proposing(id, nd.r.epoch, OwnBallot(nd.role), plan, from, top);
              && View() == KeepAll(id, nd, accepts) && said == old(said) + (set m | m in accepts)
              && Posted(old(outbox), outbox, nd.r.members.Keys - {id}, accepts)
    {
      hide View, Repr, Valid, Posted;
      Shown();
      ghost var nd, others := View(), View().r.members.Keys - {id};
      var e, ballot := replica.epoch, leadership.ballot;
      ghost var all := Proposing(id, e, ballot, plan, from, top);
      ghost var out: seq<Message> := [];
      assert KeepAll(id, nd, []) == nd;
      PostedNothing(outbox, others, []);
      hide KeepAll;
      var slot := from;
      while slot < top
        invariant from <= slot && Valid() && Repr() == old(Repr())
        invariant out + Proposing(id, e, ballot, plan, slot, top) == all
        invariant View() == KeepAll(id, nd, out) && said == old(said) + set m | m in out
        invariant Posted(old(outbox), outbox, others, out)
      {
        if slot in plan {
          ghost var mid := outbox;
          var accept := Message.Accept(id, e, ballot, slot, plan[slot]);
          KeptOneMore(id, nd, out, accept);
          Broadcast(accept);
          PostedMore(old(outbox), mid, outbox, others, out, [accept]);
          out := out + [accept];
        }
        slot := slot + 1;
      }
      assert out == all;
    }

    // phase 2

    method OnOffer(c: Command)
      requires Valid() && leadership != null
      modifies this, leadership
      ensures Valid() && fresh(Repr() - old(Repr()))
      ensures var o := Propose(id, old(View()), c); View() == o.node && said == old(said) + o.sent
      ensures var nd := old(View());
              var l := nd.role.leadership;
              if Remembered(nd.r.results, IdOf(c)) || IdOf(c) in l.ids then outbox == old(outbox)
              else Posted(old(outbox), outbox, nd.r.members.Keys - {id},
                          [Message.Accept(id, nd.r.epoch, l.ballot, l.nextFree, c)])
    {
      hide Advance, AppliedTotal, MaxRound, Report, Plan, Joined, FirstFree, Posted;
      if replica.InMemory(IdOf(c)) || IdOf(c) in leadership.ids {
        return;
      }
      var slot := leadership.nextFree;
      leadership.ProposeAt(slot, c);
      Broadcast(Message.Accept(id, replica.epoch, leadership.ballot, slot, c));
    }

    method HearLeader(ballot: Ballot, sender: NodeId)
      requires Valid()
      modifies this`leader, this`leaderBallot, this`campaign, this`leadership
      ensures Valid() && Repr() <= old(Repr()) && View() == HeardLeader(id, old(View()), ballot, sender)
    {
      if Less(ballot, leaderBallot) {
        return;
      }
      leaderBallot, leader := ballot, Some(sender);
      if sender != id {
        var own := OwnBallotNow();
        if Less(own, ballot) {
          StepAside();
        }
      }
    }

    /** The acceptor's vote or refusal. */
    method VoteOrRefuse(m: Message) returns (reply: Message)
      requires Valid() && m.Accept?
      modifies this`maxRound, acceptor, store
      ensures Valid() && Repr() == old(Repr())
      ensures var nd := old(View());
              var (l, answer) := AnswerAccept(id, nd.r.epoch, Own(nd), Floor(nd), m);
              && reply == answer
              && View() == nd.(disk := Stored(nd.disk, nd.r.epoch, l),
                               maxRound := if reply.Accepted? then Max(nd.maxRound, m.ballot.round) else nd.maxRound)
    {
      hide Advance, MaxRound, AppliedTotal, AnswerAccept;
      assert Own(View()) == acceptor.State() && Floor(View()) == acceptor.floor;
      reply := acceptor.Accept(m);
      if reply.Accepted? {
        maxRound := Max(maxRound, m.ballot.round);
      }
    }

    method OnAcceptMessage(m: Message)
      requires Valid() && m.Accept?
      modifies this, acceptor, store
      ensures Valid() && fresh(Repr() - old(Repr()))
      ensures var o := OnAccept(id, old(View()), m); View() == o.node && said == old(said) + o.sent
      ensures var nd := old(View());
              Posted(old(outbox), outbox, {m.sender} - {id}, [AnswerAccept(id, nd.r.epoch, Own(nd), Floor(nd), m).1])
    {
      hide View, Valid, Repr, AnswerAccept, Floor, Stored, Posted;
      var reply := VoteOrRefuse(m);
      if reply.Accepted? {
        HearLeader(m.ballot, m.sender);
      }
      Send(m.sender, reply);
    }

    method OnAcceptedMessage(m: Message)
      requires Valid() && m.Accepted?
      modifies Repr()
      ensures Valid() && fresh(Repr() - old(Repr()))
      ensures View() == OnAccepted(id, old(View()), m).node && said == old(said) + OnAccepted(id, old(View()), m).sent
      ensures var nd := old(View());
              var done := Decides(nd, m);
              if done.Some? then Posted(old(outbox), outbox, nd.r.members.Keys - {id},
                                        [Message.Commit(id, nd.r.epoch, m.slot, done.value)])
              else outbox == old(outbox)
    {
      hide View, Valid, Repr, Posted, Committed;
      Shown();
      if leadership == null || m.ballot != leadership.ballot {
        return;
      }
      ghost var repr := Repr();
      var done := CountVote(m);
      if done.Some? {
        Shown();
        var voters, e := replica.members.Keys, replica.epoch;
        label L:
        CommitAt(Pos(e, m.slot), done.value);
        assert forall o :: o in Repr() && o !in repr ==> fresh@L(o);
        Announced(voters, Message.Commit(id, e, m.slot, done.value));
      }
    }

    /** One more vote for a slot in flight; its command, when that completes the majority. */
    method CountVote(m: Message) returns (done: Option<Command>)
      requires Valid() && m.Accepted? && View().role.Leader?
      modifies leadership
      ensures Valid() && Repr() == old(Repr())
      ensures var (l, d) := Counted(old(View()).role.leadership, m.slot, m.sender);
              done == d && View() == old(View()).(role := Leader(l))
    {
      hide Advance, AppliedTotal, MaxRound, Counted;
      done := leadership.Count(m.slot, m.sender);
    }

    method Announced(voters: set<NodeId>, m: Message)
      requires Valid()
      modifies this`outbox, this`said
      ensures Valid() && Repr() == old(Repr()) && View() == old(View())
      ensures Posted(old(outbox), outbox, voters - {id}, [m]) && said == old(said) + {m}
    {
      hide Posted;
      Announce(voters, m);
    }

    method OnNackMessage(m: Message)
      requires Valid() && m.Nack?
      modifies this
      ensures Valid() && Repr() <= old(Repr()) && View() == OnNack(old(View()), m)
      ensures said == old(said) && outbox == old(outbox)
    {
      hide Advance, AppliedTotal, MaxRound, Report, Plan, Joined, FirstFree;
      maxRound := Max(maxRound, m.promised.round);
      var own := OwnBallotNow();
      if m.ballot == own {
        StepAside();
      }
    }

    /** Messages of another epoch are dropped; a node that does not vote only learns. */
    method Deliver(m: Message)
      requires Valid()
      modifies Repr()
      ensures Valid() && fresh(Repr() - old(Repr()))
      ensures View() == Handle(id, old(View()), m).node && said == old(said) + Handle(id, old(View()), m).sent
      ensures Posted(old(outbox), outbox, Readers(id, old(View()), m) - {id}, Letters(id, old(View()), m))
    {
      hide View, Valid, Repr, Posted, OnPrepare, OnPromise, OnAccept, OnAccepted, OnNack, Committed, OnSnapshot, Planned,
        Finishes, AnswerPrepare, AnswerAccept, Floor;
      Shown();
      PostedNothing(outbox, Readers(id, View(), m) - {id}, []);
      if !m.Snapshot? && (m.epoch != replica.epoch || !(id in replica.members || m.Commit?)) {
        return;
      }
      match m {
        case Prepare(_, _, _, _) => OnPrepareMessage(m);
        case Promise(_, _, _, _) => OnPromiseMessage(m);
        case Accept(_, _, _, _, _) => OnAcceptMessage(m);
        case Accepted(_, _, _, _) =>
          assert (View().r.members.Keys - {id}) - {id} == View().r.members.Keys - {id};
          OnAcceptedMessage(m);
        case Nack(_, _, _, _) => OnNackMessage(m);
        case Commit(_, e, s, c) => CommitAt(Pos(e, s), c);
        case Snapshot(_, _, _, _) => OnSnapshotMessage(m);
      }
    }

    /** The first queued message, handled before anything from outside. */
    method DrainOne()
      requires Valid() && local != []
      modifies Repr()
      ensures Valid() && fresh(Repr() - old(Repr()))
      ensures var nd, m := old(View()).(local := old(local)[1..]), old(local)[0];
              && View() == Handle(id, nd, m).node && said == old(said) + Handle(id, nd, m).sent
              && Posted(old(outbox), outbox, Readers(id, nd, m) - {id}, Letters(id, nd, m))
    {
      var m := local[0];
      Dequeue();
      hide Valid, View, Handle, Posted, Letters, Readers;
      Deliver(m);
    }

    /** Everything queued is handled, and what that queues in turn, until nothing is left. */
    method Drain()
      requires Valid()
      modifies Repr()
      ensures Valid() && fresh(Repr() - old(Repr()))
      ensures var o := Drained(id, old(View())); View() == o.node && said == old(said) + o.sent
      ensures forall to :: SentTo(outbox, to) == SentTo(old(outbox), to) + DrainedTo(id, old(View()), to)
    {
      hide Valid, Repr, Handle, Posted, Many, Letters, Readers, SentTo;
      ghost var all := Drained(id, View());
      while local != []
        invariant Valid() && fresh(Repr() - old(Repr()))
        invariant Drained(id, View()).node == all.node && said + Drained(id, View()).sent == old(said) + all.sent
        invariant forall to :: SentTo(outbox, to) + DrainedTo(id, View(), to)
                               == SentTo(old(outbox), to) + DrainedTo(id, old(View()), to)
        decreases Many(local, IsPrepare), Many(local, IsPromise), Many(local, IsAccept), |local|
      {
        ghost var nd, was, repr := View(), outbox, Repr();
        HandlingLightens(id, nd);
        label L:
        DrainOne();
        assert forall o :: o in Repr() && o !in repr ==> fresh@L(o);
        StillDraining(id, nd, was, outbox);
      }
    }

    /** A message from outside: handled, and then whatever the node sent to itself. */
    method Receive(m: Message)
      requires Valid()
      modifies Repr()
      ensures Valid() && fresh(Repr() - old(Repr()))
      ensures var first := Handle(id, old(View()), m);
              var o := Followed(first, Drained(id, first.node));
              View() == o.node && said == old(said) + o.sent
      ensures forall to :: SentTo(outbox, to) == SentTo(old(outbox), to) + Outgoing(id, old(View()), m, to)
                                                 + DrainedTo(id, Handle(id, old(View()), m).node, to)
    {
      hide Valid, Repr, View, Handle, Posted, Many, Letters, Readers, SentTo, Drained, DrainedTo, Outgoing;
      ghost var nd, was := View(), outbox;
      Deliver(m);
      PostedOut(id, nd, m, was, outbox);
      ghost var repr := Repr();
      label L:
      Drain();
      assert forall o :: o in Repr() && o !in repr ==> fresh@L(o);
    }

    method Dequeue()
      requires Valid() && local != []
      modifies this`local
      ensures Valid() && Repr() == old(Repr()) && View() == old(View()).(local := old(local)[1..])
    {
      local := local[1..];
    }

    /** A proposal short of a majority goes again to the voters that have not accepted it. */
    method ResendSlot(slot: nat)
      requires Valid() && leadership != null && slot in leadership.inflight
      modifies this`local, this`outbox, this`said
      ensures Valid() && Repr() == old(Repr())
      ensures View() == Resend(id, old(View()), slot).node && said == old(said) + Resend(id, old(View()), slot).sent
      ensures Posted(old(outbox), outbox, replica.members.Keys - leadership.inflight[slot].acks - {id},
                     [Message.Accept(id, replica.epoch, leadership.ballot, slot, leadership.inflight[slot].command)])
    {
      hide Posted;
      var f := leadership.inflight[slot];
      var accept := Message.Accept(id, replica.epoch, leadership.ballot, slot, f.command);
      if id in replica.members && id !in f.acks {
        local := local + [accept];
      }
      Announce(replica.members.Keys - f.acks, accept);
    }

    /** Another node asks for the log from `p`: the snapshot when that part is gone (unless one just
        went out), otherwise the next chosen commands. */
    method OnCatchUp(to: NodeId, p: Pos, batch: nat, sentLately: bool)
      requires Valid() && to != id
      modifies this`outbox, this`said
      ensures Valid() && Repr() == old(Repr()) && View() == old(View())
      ensures var replies := Replies(id, View(), p, batch, sentLately);
              outbox == old(outbox) + Addressed(to, replies) && said == old(said) + set m | m in replies
    {
      hide MaxRound, Advance, AppliedTotal, FirstChosen, ServedTop;
      if replica.base.Some? && Precedes(p, At(replica.base.value)) {
        if !sentLately {
          var base := replica.base.value;
          var snapshot := Message.Snapshot(id, base.epoch, base.nextSlot, base);
          outbox, said := outbox + [(to, snapshot)], said + {snapshot};
        }
        return;
      }
      var found := replica.ChosenFrom(p.epoch, p.slot, batch);
      SendCommits(to, p.epoch, found);
    }

    method SendCommits(to: NodeId, e: nat, found: seq<(nat, Command)>)
      modifies this`outbox, this`said
      ensures outbox == old(outbox) + Addressed(to, Commits(id, e, found))
      ensures said == old(said) + set m | m in Commits(id, e, found)
    {
      ghost var all := Commits(id, e, found);
      for j := 0 to |found|
        invariant outbox == old(outbox) + Addressed(to, all[..j]) && said == old(said) + set m | m in all[..j]
      {
        var commit := Message.Commit(id, e, found[j].0, found[j].1);
        assert all[..j + 1] == all[..j] + [commit];
        outbox, said := outbox + [(to, commit)], said + {commit};
      }
      assert all[..|found|] == all;
    }
  }

  function Commits(id: NodeId, e: nat, found: seq<(nat, Command)>): (ms: seq<Message>)
    ensures |ms| == |found|
  {
    seq(|found|, j requires 0 <= j < |found| => Commit(id, e, found[j].0, found[j].1))
  }

  function Addressed(to: NodeId, ms: seq<Message>): (out: seq<(NodeId, Message)>)
    ensures |out| == |ms|
  {
    seq(|ms|, j requires 0 <= j < |ms| => (to, ms[j]))
  }

  /** What a request for the log from `p` is answered with. */
  ghost function Replies(id: NodeId, nd: Node, p: Pos, batch: nat, sentLately: bool): seq<Message> {
    if nd.disk.snapshot.Some? && Precedes(p, At(nd.disk.snapshot.value)) then
      var base := nd.disk.snapshot.value;
      if sentLately then [] else [Snapshot(id, base.epoch, base.nextSlot, base)]
    else Commits(id, p.epoch, FirstChosen(nd.disk.chosen, p.epoch, p.slot, ServedTop(nd.disk.chosen, nd.r.stops, p.epoch), batch))
  }

  /** Every reply is one the cluster's `Answer` step may send, and the place asked for is answered
      whenever it can be. */
  lemma RepliesAreServed(id: NodeId, nd: Node, p: Pos, batch: nat, sentLately: bool)
    ensures forall m :: m in Replies(id, nd, p, batch, sentLately) ==>
              exists q: Pos :: q.epoch == p.epoch && p.slot <= q.slot && m in Serve(id, nd, q)
    ensures batch > 0 && !sentLately && Serve(id, nd, p) != {} ==>
              exists m :: m in Replies(id, nd, p, batch, sentLately) && m in Serve(id, nd, p)
  {
    var top := ServedTop(nd.disk.chosen, nd.r.stops, p.epoch);
    var replies := Replies(id, nd, p, batch, sentLately);
    if nd.disk.snapshot.Some? && Precedes(p, At(nd.disk.snapshot.value)) {
      assert forall m :: m in replies ==> m in Serve(id, nd, p);
      assert !sentLately ==> replies[0] in Serve(id, nd, p);
    } else {
      var found := FirstChosen(nd.disk.chosen, p.epoch, p.slot, top, batch);
      BatchIsExact(nd.disk.chosen, p.epoch, p.slot, top, batch);
      forall m | m in replies
        ensures exists q: Pos :: q.epoch == p.epoch && p.slot <= q.slot && m in Serve(id, nd, q)
      {
        var j :| 0 <= j < |found| && m == Commit(id, p.epoch, found[j].0, found[j].1);
        assert found[j] in found;
        ServesSlot(id, nd, Pos(p.epoch, found[j].0));
      }
      if Serve(id, nd, p) != {} && batch > 0 {
        BelowTop(nd.disk.chosen, nd.r.stops, p);
        var x := (p.slot, nd.disk.chosen[p]);
        assert found != [] ==> found[0] in found;
        var j :| 0 <= j < |found| && found[j] == x;
        assert replies[j] in Serve(id, nd, p);
      }
    }
  }

  lemma InSlots(chosen: Log, p: Pos)
    requires p in chosen
    ensures p.slot in set q | q in chosen && q.epoch == p.epoch :: q.slot
  {
  }

  lemma BelowTop(chosen: Log, stops: map<nat, nat>, p: Pos)
    requires p in chosen && (p.epoch in stops ==> p.slot <= stops[p.epoch])
    ensures p.slot < ServedTop(chosen, stops, p.epoch)
  {
    var slots := set q | q in chosen && q.epoch == p.epoch :: q.slot;
    assert p.slot in slots;
    assert p.slot < Above(slots);
  }

  lemma ServesSlot(id: NodeId, nd: Node, q: Pos)
    requires !(nd.disk.snapshot.Some? && Precedes(q, At(nd.disk.snapshot.value)))
    requires q in nd.disk.chosen && q.slot < ServedTop(nd.disk.chosen, nd.r.stops, q.epoch)
    ensures Serve(id, nd, q) == {Commit(id, q.epoch, q.slot, nd.disk.chosen[q])}
  {
    InSlots(nd.disk.chosen, q);
  }

  function Campaigning(nd: Node, b: Ballot): Node {
    nd.(role := Candidate(Proposals.Campaign(b, Quorum(nd.r.members), [])), leader := None, maxRound := b.round)
  }

  lemma PlanBelowTop(es: seq<Entry>, from: nat, e: nat, chosen: Log)
    ensures forall s :: s in Plan(es, from, e, chosen) ==> from <= s < ReportedTop(es) && s < FirstFree(es, from, e, chosen)
  {
  }

  lemma KeptOneMore(id: NodeId, nd: Node, out: seq<Message>, m: Message)
    ensures KeepAll(id, KeepAll(id, nd, out), [m]) == KeepAll(id, nd, out + [m])
    ensures KeepAll(id, nd, out).r == nd.r
  {
  }

  /** A node that was told a command is chosen, before it enters the epoch that command may open. */
  ghost function Learned(nd: Node, p: Pos, c: Command): Node {
    if p in nd.disk.chosen then
      if nd.disk.chosen[p] != c then nd.(violated := true) else nd
    else if Precedes(p, At(nd.r)) then nd
    else
      var chosen := nd.disk.chosen[p := c];
      nd.(disk := nd.disk.(chosen := chosen), r := Advance(nd.r, chosen))
  }

  lemma CommitsThenEnters(nd: Node, p: Pos, c: Command)
    ensures var told := Learned(nd, p, c);
            Committed(nd, p, c) == if told.r.epoch != nd.r.epoch then EnterEpoch(told) else told
  {
    hide Advance, EnterEpoch;
  }

  /** What a node does on taking over does not depend on the role it leaves. */
  lemma SameTakeOver(id: NodeId, nd: Node, nd': Node, c: Proposals.Campaign)
    requires nd' == nd.(role := nd'.role)
    ensures BecomeLeader(id, nd', c) == BecomeLeader(id, nd, c) && Planned(id, nd', c) == Planned(id, nd, c)
  {
    hide Joined, Plan, FirstFree, Proposing, ReportedTop, Taken;
  }

  lemma BecomesLeader(id: NodeId, nd: Node, c: Proposals.Campaign)
    ensures var es, from, e, chosen := Joined(c.promises), nd.r.nextSlot, nd.r.epoch, nd.disk.chosen;
            var plan := Plan(es, from, e, chosen);
            var accepts := Proposing(id, e, c.ballot, plan, from, ReportedTop(es));
            var leading := nd.(role := Leader(Taken(c.ballot, c.quorum, FirstFree(es, from, e, chosen), plan)),
                               leader := Some(id), leaderBallot := c.ballot);
            BecomeLeader(id, nd, c).node == KeepAll(id, leading, accepts)
            && BecomeLeader(id, nd, c).sent == set m | m in accepts
  {
    hide Joined, Plan, FirstFree, Proposing, ReportedTop, Taken;
  }
}
