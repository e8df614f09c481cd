/** What a new leader leaves open, and which slots it hands out. */
module Takeovers {
  import opened Ballots
  import opened StateMachines
  import opened Replays
  import opened Messages
  import opened Ledgers
  import opened Proposals
  import opened Nodes
  import opened Clusters
  import opened Invariants
  import opened Steps
  import opened Counting
  import opened Elections
  import opened Safety

  // no holes

  /** The slots a takeover neither knows nor proposes are exactly the unknown ones above the last
      reported slot and below the last chosen one. */
  lemma HolesExactly(es: seq<Entry>, from: nat, e: nat, chosen: Log, s: nat)
    requires from <= s < FirstFree(es, from, e, chosen)
    ensures s !in Plan(es, from, e, chosen) && Pos(e, s) !in chosen
            <==> ReportedTop(es) <= s < ChosenTop(e, chosen) && Pos(e, s) !in chosen
  {
    var plan := Plan(es, from, e, chosen);
    if s !in plan && Pos(e, s) !in chosen {
      assert Above(plan.Keys) <= ReportedTop(es) by {
        if Above(plan.Keys) > 0 {
          assert Above(plan.Keys) - 1 in plan;
        }
      }
    }
  }

  /** What was decided below the ballot of an election is reported to it. */
  lemma DecisionsAreReported(V: Electorate, cl: Cluster, e: nat, b: Ballot, ps: Promises, lo: nat,
                             s: nat, b': Ballot, c: Command)
    requires Elected(V, cl, e, b, ps, lo) && lo <= s && Less(b', b) && DecidedAt(V, cl, e, b', s, c)
    ensures s < ReportedTop(Joined(ps))
  {
    var Q :| IsQuorum(Q, V[e]) && Voted(cl, Q, e, b', s);
    ElectedByQuorum(V, cl, e, b, ps, lo);
    QuorumsMeet(Q, Senders(ps), V[e]);
    var a :| a in Q && a in Senders(ps);
    var p :| p in ps && p.0 == a;
    assert Honest(V, cl, p.0, e, b, p.1, lo);
    assert Accepted(a, e, b', s) in cl.sent;
    assert Reports(p.1, b', s);
    var x :| x in p.1 && x.slot == s && AtMost(b', x.ballot);
    InJoined(ps, p, x);
    ReportedTopBounds(Joined(ps));
  }

  /** Every slot from a new leader's next one up to its first free one is known chosen or in flight. */
  lemma ElectedLeavesNoHoles(V: Electorate, cl: Cluster, id: NodeId, nd: Node, c: Campaign, s: nat)
    requires Elected(V, cl, nd.r.epoch, c.ballot, c.promises, nd.r.nextSlot)
    requires KnowsDecidedBelow(V, cl, nd, c.ballot)
    requires var role := BecomeLeader(id, nd, c).node.role;
             role.Leader? && nd.r.nextSlot <= s < role.leadership.nextFree
    ensures var l := BecomeLeader(id, nd, c).node.role.leadership;
            Pos(nd.r.epoch, s) in nd.disk.chosen || s in l.inflight
  {
    LeaderRole(id, nd, c);
    var e, es, lo, chosen := nd.r.epoch, Joined(c.promises), nd.r.nextSlot, nd.disk.chosen;
    HolesExactly(es, lo, e, chosen, s);
    if ReportedTop(es) <= s < ChosenTop(e, chosen) {
      var slots := set p | p in chosen && p.epoch == e :: p.slot;
      var top := Above(slots) - 1;
      assert top in slots;
      assert Pos(e, top) in chosen;
      var b' :| Less(b', c.ballot) && DecidedAt(V, cl, e, b', top, chosen[Pos(e, top)]);
      DecisionsAreReported(V, cl, e, c.ballot, c.promises, lo, top, b', chosen[Pos(e, top)]);
    }
  }

  /** The chosen commands a node knows from its next slot on were decided below ballot `b`. */
  ghost predicate KnowsDecidedBelow(V: Electorate, cl: Cluster, nd: Node, b: Ballot) {
    forall p :: p in nd.disk.chosen && p.epoch == nd.r.epoch && nd.r.nextSlot <= p.slot ==>
      exists b' :: Less(b', b) && DecidedAt(V, cl, p.epoch, b', p.slot, nd.disk.chosen[p])
  }

  // only a counted promise makes a leader

  /** `m` is the promise that completes the majority of the campaign under way. */
  ghost predicate Completes(id: NodeId, nd: Node, m: Message) {
    && m.Promise? && Hears(id, nd, m) && Counts(nd, m)
    && nd.role.campaign.quorum <= |Put(nd.role.campaign.promises, m.sender, m.accepted)|
  }

  lemma HandledIntoLeading(id: NodeId, nd: Node, m: Message)
    requires !nd.role.Leader? && Handle(id, nd, m).node.role.Leader?
    ensures Completes(id, nd, m) && Handle(id, nd, m) == BecomeLeader(id, nd, Completed(nd, m))
  {
    hide Advance, Report, MaxRound, BecomeLeader, Put, Compacted, AppliedTotal, Counted, Stored, AnswerPrepare,
      AnswerAccept;
  }

  /** The node as it is when the event hands it a message. */
  function Handling(nd: Node, ev: Event): Node {
    if ev.Drain? && nd.local != [] then nd.(local := nd.local[1..]) else nd
  }

  lemma SteppedIntoLeading(cl: Cluster, h: Happening)
    requires Enabled(cl, h) && !cl.nodes[h.id].role.Leader? && Step(cl, h).nodes[h.id].role.Leader?
    ensures var nd := Handling(cl.nodes[h.id], h.event);
            && Handed(cl.nodes[h.id], h.event).Some?
            && var m := Handed(cl.nodes[h.id], h.event).value;
               Completes(h.id, nd, m) && Step(cl, h).nodes[h.id] == BecomeLeader(h.id, nd, Completed(nd, m)).node
  {
    hide Advance, MaxRound, Handle, Compacted, AppliedTotal, Completes, BecomeLeader, Completed, Serve, Stored,
      Loaded;
    var nd := Handling(cl.nodes[h.id], h.event);
    match h.event {
      case Receive(m) => HandledIntoLeading(h.id, nd, m);
      case Drain => HandledIntoLeading(h.id, nd, cl.nodes[h.id].local[0]);
      case _ =>
    }
  }

  /** In a cluster that kept the invariant, a majority counted from sound promises is an election. */
  lemma CompletedIsElected(cl: Cluster, id: NodeId, nd: Node, m: Message)
    requires Inv(cl) && Ready(cl, id, nd, m) && Completes(id, nd, m)
    requires exists t :: t in cl.testimony && t.answer == m && t.floor <= t.fromSlot
    ensures var c := Completed(nd, m); Elected(VotersOf(cl), cl, nd.r.epoch, c.ballot, c.promises, nd.r.nextSlot)
  {
    hide Inv, NodeOk, Bound, OwnAcceptorBound, Honest, VotersOf, Put, CampaignBinds, DistinctSenders;
    ReadyGives(cl, id, nd, m);
    var t :| t in cl.testimony && t.answer == m && t.floor <= t.fromSlot;
    CountedIsHonest(cl, id, nd, m, t);
    PromisePut(VotersOf(cl), cl, id, nd, nd.role.campaign, m);
  }

  lemma HandingIsReady(cl: Cluster, h: Happening)
    requires Inv(cl) && Enabled(cl, h) && Handed(cl.nodes[h.id], h.event).Some?
    ensures Ready(cl, h.id, Handling(cl.nodes[h.id], h.event), Handed(cl.nodes[h.id], h.event).value)
  {
    hide Inv, Ready;
    match h.event {
      case Receive(m) => ReceiverIsReady(cl, h.id, m);
      case Drain => DrainedIsReady(cl, h.id);
    }
  }

  /** No holes on takeover: when a node becomes leader and what it already knows chosen from its next
      slot on was decided below its ballot, every slot from there up to its first free one is chosen or
      in flight. */
  lemma NoHolesOnTakeover(states: seq<Cluster>, run: Run, k: nat, s: nat)
    requires Execution(states, run) && Sound(states, run) && k < |run|
    requires var id := run[k].id;
             && id in states[k].nodes && !states[k].nodes[id].role.Leader?
             && id in states[k + 1].nodes && states[k + 1].nodes[id].role.Leader?
             && KnowsDecidedBelow(VotersOf(states[k]), states[k], states[k].nodes[id],
                                  states[k + 1].nodes[id].role.leadership.ballot)
             && states[k + 1].nodes[id].r.nextSlot <= s < states[k + 1].nodes[id].role.leadership.nextFree
    ensures var nd := states[k + 1].nodes[run[k].id];
            Pos(nd.r.epoch, s) in nd.disk.chosen || s in nd.role.leadership.inflight
  {
    hide Inv, Ready, Step, Enabled, CountsSound, KnowsDecidedBelow, BecomeLeader, Completes, Elected, VotersOf,
      DecidedAt, Initial;
    RunKeeps(states, run, k);
    assert Moves(states, run, k) && SoundAt(states, run, k);
    TakeoverLeavesNoHoles(states[k], run[k], s);
  }

  lemma TakeoverLeavesNoHoles(cl: Cluster, h: Happening, s: nat)
    requires Inv(cl) && Enabled(cl, h) && CountsSound(cl, h)
    requires var nd, nd' := cl.nodes[h.id], Step(cl, h).nodes[h.id];
             && !nd.role.Leader? && nd'.role.Leader?
             && KnowsDecidedBelow(VotersOf(cl), cl, nd, nd'.role.leadership.ballot)
             && nd'.r.nextSlot <= s < nd'.role.leadership.nextFree
    ensures var nd' := Step(cl, h).nodes[h.id];
            Pos(nd'.r.epoch, s) in nd'.disk.chosen || s in nd'.role.leadership.inflight
  {
    hide Inv, Ready, Step, Outcome, Elected, VotersOf, Joined, Put, FirstFree, Plan, Proposing, KnowsDecidedBelow;
    var nd := Handling(cl.nodes[h.id], h.event);
    SteppedIntoLeading(cl, h);
    var m := Handed(cl.nodes[h.id], h.event).value;
    HandingIsReady(cl, h);
    CompletedIsElected(cl, h.id, nd, m);
    assert KnowsDecidedBelow(VotersOf(cl), cl, nd, Completed(nd, m).ballot) by {
      SameKnowledge(VotersOf(cl), cl, cl.nodes[h.id], nd, Completed(nd, m).ballot);
    }
    ElectedLeavesNoHoles(VotersOf(cl), cl, h.id, nd, Completed(nd, m), s);
  }

  lemma SameKnowledge(V: Electorate, cl: Cluster, nd: Node, nd': Node, b: Ballot)
    requires KnowsDecidedBelow(V, cl, nd, b) && nd'.disk == nd.disk && nd'.r == nd.r
    ensures KnowsDecidedBelow(V, cl, nd', b)
  {
  }
}
