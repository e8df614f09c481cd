/** What every reachable cluster satisfies, message by message and node by node. */
module Invariants {
  import opened Ballots
  import opened StateMachines
  import opened Replays
  import opened Histories
  import opened Messages
  import opened Proposals
  import opened Nodes
  import opened Clusters

  type Electorate = imap<nat, set<NodeId>>

  ghost predicate IsQuorum(Q: set<NodeId>, voters: set<NodeId>) {
    Q <= voters && |voters| < 2 * |Q|
  }

  // what an acceptor is held to

  /** `a` will not vote at `b` or below any more in epoch `e`. */
  ghost predicate Past(cl: Cluster, a: NodeId, e: nat, b: Ballot) {
    a in cl.nodes && (e < cl.nodes[a].r.epoch || (cl.nodes[a].r.epoch == e && Less(b, Own(cl.nodes[a]).promised)))
  }

  /** `a` has promised at least `b` in epoch `e`, or has left it. */
  ghost predicate Bound(cl: Cluster, a: NodeId, e: nat, b: Ballot) {
    a in cl.nodes && (e < cl.nodes[a].r.epoch || (cl.nodes[a].r.epoch == e && AtMost(b, Own(cl.nodes[a]).promised)))
  }

  /** `a` still stores a vote for `s` at `b` or higher, unless that slot was compacted or the epoch left. */
  ghost predicate Kept(cl: Cluster, a: NodeId, e: nat, b: Ballot, s: nat) {
    a in cl.nodes && (cl.nodes[a].r.epoch == e && Floor(cl.nodes[a]) <= s ==>
      s in Own(cl.nodes[a]).accepted && AtMost(b, Own(cl.nodes[a]).accepted[s].ballot))
  }

  // what can still be decided

  ghost predicate Refuses(cl: Cluster, Q: set<NodeId>, e: nat, b: Ballot, s: nat) {
    forall a :: a in Q ==> Past(cl, a, e, b) && Accepted(a, e, b, s) !in cl.sent
  }

  /** Nothing was or ever will be decided for slot `s` at ballot `b`. */
  ghost predicate Blocked(V: Electorate, cl: Cluster, e: nat, b: Ballot, s: nat) {
    e in V && exists Q :: IsQuorum(Q, V[e]) && Refuses(cl, Q, e, b, s)
  }

  /** Below `b`, nothing but `c` can be decided for slot `s`. */
  ghost predicate SafeAt(V: Electorate, cl: Cluster, e: nat, b: Ballot, s: nat, c: Command) {
    forall b' :: Less(b', b) ==> Accept(b'.node, e, b', s, c) in cl.sent || Blocked(V, cl, e, b', s)
  }

  /** Below `b`, nothing at all can be decided for slot `s`. */
  ghost predicate Open(V: Electorate, cl: Cluster, e: nat, b: Ballot, s: nat) {
    forall b' :: Less(b', b) ==> Blocked(V, cl, e, b', s)
  }

  ghost predicate Voted(cl: Cluster, Q: set<NodeId>, e: nat, b: Ballot, s: nat) {
    forall a :: a in Q ==> Accepted(a, e, b, s) in cl.sent
  }

  ghost predicate DecidedAt(V: Electorate, cl: Cluster, e: nat, b: Ballot, s: nat, c: Command) {
    && e in V && Accept(b.node, e, b, s, c) in cl.sent
    && exists Q :: IsQuorum(Q, V[e]) && Voted(cl, Q, e, b, s)
  }

  ghost predicate Decided(V: Electorate, cl: Cluster, e: nat, s: nat, c: Command) {
    exists b :: DecidedAt(V, cl, e, b, s, c)
  }

  // messages

  /** A promise of `a` for ballot `b` that hides no vote from slot `lo` on. */
  ghost predicate Honest(V: Electorate, cl: Cluster, a: NodeId, e: nat, b: Ballot, es: seq<Entry>, lo: nat) {
    && e in V && a in V[e] && Bound(cl, a, e, b)
    && (forall x :: x in es ==>
          Accept(x.ballot.node, e, x.ballot, x.slot, x.command) in cl.sent && AtMost(x.ballot, b))
    && (forall b', s :: lo <= s && Less(b', b) && Accepted(a, e, b', s) in cl.sent ==> Reports(es, b', s))
  }

  ghost predicate Reports(es: seq<Entry>, b: Ballot, s: nat) {
    exists x :: x in es && x.slot == s && AtMost(b, x.ballot)
  }

  ghost predicate NotBefore(cl: Cluster, a: NodeId, p: Pos) {
    a in cl.nodes && !Precedes(At(cl.nodes[a].r), p)
  }

  ghost predicate AcceptedOk(V: Electorate, cl: Cluster, a: NodeId, e: nat, b: Ballot, s: nat) {
    && e in V && a in V[e] && Bound(cl, a, e, b) && Kept(cl, a, e, b, s)
  }

  ghost predicate MessageOk(V: Electorate, cl: Cluster, m: Message) {
    match m
    case Prepare(x, e, b, from) => x == b.node && NotBefore(cl, x, Pos(e, from))
    case Promise(_, _, _, _) => exists t :: t in cl.testimony && t.answer == m
    case Accept(x, e, b, s, c) => x == b.node && e in V && Bound(cl, x, e, b) && SafeAt(V, cl, e, b, s, c)
    case Accepted(a, e, b, s) => AcceptedOk(V, cl, a, e, b, s)
    case Nack(_, _, _, _) => true
    case Commit(_, e, s, c) => Pos(e, s) in cl.log && cl.log[Pos(e, s)] == c
    case Snapshot(_, _, _, state) => Faithful(cl.genesis, cl.log, state)
  }

  ghost predicate TestimonyOk(V: Electorate, cl: Cluster, t: Testimony) {
    && t.answer.Promise?
    && var Promise(a, e, b, es) := t.answer;
       && Honest(V, cl, a, e, b, es, Max(t.fromSlot, t.floor))
       && NotBefore(cl, b.node, Pos(e, t.fromSlot))
  }

  /** One command per slot and ballot. */
  ghost predicate OneProposal(sent: set<Message>) {
    forall e, b: Ballot, s, c, c' ::
      Accept(b.node, e, b, s, c) in sent && Accept(b.node, e, b, s, c') in sent ==> c == c'
  }

  // nodes

  ghost predicate LogOk(cl: Cluster, nd: Node) {
    && !nd.violated
    && Extends(cl.log, nd.disk.chosen)
    && Faithful(cl.genesis, cl.log, nd.r)
    && nd.r == Loaded(nd.disk)
    && (nd.disk.genesis.Some? ==> nd.disk.genesis.value == cl.genesis)
    && (nd.disk.snapshot.Some? ==> Faithful(cl.genesis, cl.log, nd.disk.snapshot.value))
    && (nd.pending.Some? ==>
          && Faithful(cl.genesis, cl.log, nd.pending.value)
          && Advance(nd.pending.value, nd.disk.chosen) == nd.r
          && (nd.disk.snapshot.Some? ==> !Precedes(At(nd.pending.value), At(nd.disk.snapshot.value))))
  }

  ghost predicate VotesOk(cl: Cluster, nd: Node) {
    forall e, s :: s in LedgerOf(nd.disk.ledgers, e).accepted ==>
      var l := LedgerOf(nd.disk.ledgers, e);
      var v := l.accepted[s];
      Accept(v.ballot.node, e, v.ballot, s, v.command) in cl.sent && AtMost(v.ballot, l.promised)
  }

  ghost predicate CandidateOk(V: Electorate, cl: Cluster, id: NodeId, nd: Node, c: Campaign) {
    var e := nd.r.epoch;
    && e in V && c.quorum == |V[e]| / 2 + 1
    && c.ballot.node == id && c.ballot.round <= nd.maxRound
    && DistinctSenders(c.promises) && |c.promises| < c.quorum
    && (forall p :: p in c.promises ==> Honest(V, cl, p.0, e, c.ballot, p.1, nd.r.nextSlot))
    && (forall s, cmd :: Accept(id, e, c.ballot, s, cmd) !in cl.sent)
  }

  ghost predicate LeaderOk(V: Electorate, cl: Cluster, id: NodeId, e: nat, l: Leadership) {
    && e in V && l.quorum == |V[e]| / 2 + 1
    && l.ballot.node == id && Bound(cl, id, e, l.ballot)
    && (forall s: nat, cmd :: Accept(id, e, l.ballot, s, cmd) in cl.sent ==> s < l.nextFree)
    && (forall s :: l.nextFree <= s ==> Open(V, cl, e, l.ballot, s))
    && (forall s :: s in l.inflight ==>
          && Accept(id, e, l.ballot, s, l.inflight[s].command) in cl.sent
          && Voted(cl, l.inflight[s].acks, e, l.ballot, s))
  }

  ghost predicate RoleOk(V: Electorate, cl: Cluster, id: NodeId, nd: Node) {
    match nd.role
    case Follower => true
    case Candidate(c) => CandidateOk(V, cl, id, nd, c)
    case Leader(l) => LeaderOk(V, cl, id, nd.r.epoch, l)
  }

  /** The first thing the node will do is answer its own Prepare. */
  ghost predicate AsksItself(id: NodeId, nd: Node, b: Ballot) {
    && nd.local != [] && id in nd.r.members
    && exists from :: nd.local[0] == Prepare(id, nd.r.epoch, b, from)
  }

  ghost predicate RoundOk(nd: Node) {
    Own(nd).promised.round <= nd.maxRound
  }

  ghost predicate LocalOk(cl: Cluster, nd: Node) {
    forall m :: m in nd.local ==> m in cl.sent
  }

  ghost predicate NodeOk(V: Electorate, cl: Cluster, id: NodeId, nd: Node) {
    LogOk(cl, nd) && VotesOk(cl, nd) && RoundOk(nd) && RoleOk(V, cl, id, nd) && LocalOk(cl, nd)
  }

  /** A campaign binds its own acceptor before anything from outside is handled. */
  ghost predicate CampaignBinds(cl: Cluster, id: NodeId, nd: Node) {
    nd.role.Candidate? ==>
      var b := nd.role.campaign.ballot;
      Bound(cl, id, nd.r.epoch, b) || AsksItself(id, nd, b)
  }

  ghost function VotersOf(cl: Cluster): Electorate {
    Voters(cl.genesis, cl.log)
  }

  ghost predicate Inv(cl: Cluster) {
    var V := VotersOf(cl);
    && (forall m :: m in cl.sent ==> MessageOk(V, cl, m))
    && (forall t :: t in cl.testimony ==> TestimonyOk(V, cl, t))
    && (forall id :: id in cl.nodes ==> NodeOk(V, cl, id, cl.nodes[id]) && CampaignBinds(cl, id, cl.nodes[id]))
    && (forall p :: p in cl.log ==> Decided(V, cl, p.epoch, p.slot, cl.log[p]))
    && OneProposal(cl.sent)
  }

  // stability

  ghost predicate NodeMovesOn(nd: Node, nd': Node) {
    && !Precedes(At(nd'.r), At(nd.r))
    && (nd'.r.epoch == nd.r.epoch ==>
          && AtMost(Own(nd).promised, Own(nd').promised)
          && Floor(nd) <= Floor(nd')
          && forall s :: s in Own(nd).accepted && Floor(nd') <= s ==>
               s in Own(nd').accepted && AtMost(Own(nd).accepted[s].ballot, Own(nd').accepted[s].ballot))
  }

  /** How one step of node `id` may change the cluster. */
  ghost predicate Evolves(id: NodeId, cl: Cluster, cl': Cluster) {
    && id in cl.nodes && cl'.genesis == cl.genesis
    && cl'.nodes.Keys == cl.nodes.Keys
    && (forall a :: a in cl.nodes && a != id ==> cl'.nodes[a] == cl.nodes[a])
    && NodeMovesOn(cl.nodes[id], cl'.nodes[id])
    && cl.sent <= cl'.sent && cl.testimony <= cl'.testimony && Extends(cl'.log, cl.log)
    && (forall a, e, b, s :: Accepted(a, e, b, s) in cl'.sent && Accepted(a, e, b, s) !in cl.sent ==>
          a == id && cl.nodes[a].r.epoch == e && AtMost(Own(cl.nodes[a]).promised, b))
    && (forall x, e, b, s, c :: Accept(x, e, b, s, c) in cl'.sent && Accept(x, e, b, s, c) !in cl.sent ==> x == id)
  }

  ghost predicate Grows(V: Electorate, V': Electorate) {
    forall e: nat :: e in V ==> e in V' && V'[e] == V[e]
  }

  lemma OrdersStay(id: NodeId, cl: Cluster, cl': Cluster)
    requires Evolves(id, cl, cl')
    ensures forall a, e, b :: Past(cl, a, e, b) ==> Past(cl', a, e, b)
    ensures forall a, e, b :: Bound(cl, a, e, b) ==> Bound(cl', a, e, b)
    ensures forall a, e, b, s :: Bound(cl, a, e, b) && Kept(cl, a, e, b, s) ==> Kept(cl', a, e, b, s)
    ensures forall a, p :: NotBefore(cl, a, p) ==> NotBefore(cl', a, p)
  {
    BallotsAreOrdered();
    hide Before;
    forall a, e, b, s | Bound(cl, a, e, b) && Kept(cl, a, e, b, s) ensures Kept(cl', a, e, b, s) {
    }
  }

  lemma BlockedStays(V: Electorate, V': Electorate, id: NodeId, cl: Cluster, cl': Cluster, e: nat, b: Ballot, s: nat)
    requires Evolves(id, cl, cl') && Grows(V, V') && Blocked(V, cl, e, b, s)
    ensures Blocked(V', cl', e, b, s)
  {
    OrdersStay(id, cl, cl');
    var Q :| IsQuorum(Q, V[e]) && Refuses(cl, Q, e, b, s);
    forall a | a in Q ensures Past(cl', a, e, b) && Accepted(a, e, b, s) !in cl'.sent {
      assert Past(cl, a, e, b);
      BallotsAreOrdered();
    }
    assert Refuses(cl', Q, e, b, s);
  }

  lemma SafetyStays(V: Electorate, V': Electorate, id: NodeId, cl: Cluster, cl': Cluster)
    requires Evolves(id, cl, cl') && Grows(V, V')
    ensures forall e, b, s, c :: SafeAt(V, cl, e, b, s, c) ==> SafeAt(V', cl', e, b, s, c)
    ensures forall e, b, s :: Open(V, cl, e, b, s) ==> Open(V', cl', e, b, s)
  {
    forall e, b, s | Blocked(V, cl, e, b, s) ensures Blocked(V', cl', e, b, s) {
      BlockedStays(V, V', id, cl, cl', e, b, s);
    }
  }

  lemma HonestyStays(V: Electorate, V': Electorate, id: NodeId, cl: Cluster, cl': Cluster,
                     a: NodeId, e: nat, b: Ballot, es: seq<Entry>, lo: nat, lo': nat)
    requires Evolves(id, cl, cl') && Grows(V, V') && lo <= lo'
    requires Honest(V, cl, a, e, b, es, lo)
    ensures Honest(V', cl', a, e, b, es, lo')
  {
    OrdersStay(id, cl, cl');
    BallotsAreOrdered();
  }

  lemma DecisionStays(V: Electorate, V': Electorate, id: NodeId, cl: Cluster, cl': Cluster, e: nat, s: nat, c: Command)
    requires Evolves(id, cl, cl') && Grows(V, V') && Decided(V, cl, e, s, c)
    ensures Decided(V', cl', e, s, c)
  {
    var b :| DecidedAt(V, cl, e, b, s, c);
    var Q :| IsQuorum(Q, V[e]) && Voted(cl, Q, e, b, s);
    assert Voted(cl', Q, e, b, s);
    assert DecidedAt(V', cl', e, b, s, c);
  }

  lemma MessageStays(V: Electorate, V': Electorate, id: NodeId, cl: Cluster, cl': Cluster, m: Message)
    requires Evolves(id, cl, cl') && Grows(V, V') && MessageOk(V, cl, m)
    ensures MessageOk(V', cl', m)
  {
    OrdersStay(id, cl, cl');
    match m {
      case Accept(_, _, _, _, _) => SafetyStays(V, V', id, cl, cl');
      case Snapshot(_, _, _, state) => FaithfulKept(cl.genesis, cl.log, cl'.log, state);
      case _ =>
    }
  }

  lemma TestimonyStays(V: Electorate, V': Electorate, id: NodeId, cl: Cluster, cl': Cluster, t: Testimony)
    requires Evolves(id, cl, cl') && Grows(V, V') && TestimonyOk(V, cl, t)
    ensures TestimonyOk(V', cl', t)
  {
    OrdersStay(id, cl, cl');
    var lo := Max(t.fromSlot, t.floor);
    HonestyStays(V, V', id, cl, cl', t.answer.sender, t.answer.epoch, t.answer.ballot, t.answer.accepted, lo, lo);
  }

  ghost predicate NoNewProposal(x: NodeId, cl: Cluster, cl': Cluster) {
    forall e, b, s, c :: Accept(x, e, b, s, c) in cl'.sent ==> Accept(x, e, b, s, c) in cl.sent
  }

  /** A role kept in its epoch stays in order while the node itself proposes nothing new. */
  lemma RoleStays(V: Electorate, V': Electorate, id: NodeId, cl: Cluster, cl': Cluster, x: NodeId, nd: Node, nd': Node)
    requires Evolves(id, cl, cl') && Grows(V, V') && RoleOk(V, cl, x, nd) && NoNewProposal(x, cl, cl')
    requires nd'.r.epoch == nd.r.epoch && nd.r.nextSlot <= nd'.r.nextSlot
    requires nd'.role == nd.role && nd.maxRound <= nd'.maxRound
    ensures RoleOk(V', cl', x, nd')
  {
    OrdersStay(id, cl, cl');
    match nd.role {
      case Follower =>
      case Candidate(c) =>
        forall p | p in c.promises ensures Honest(V', cl', p.0, nd.r.epoch, c.ballot, p.1, nd'.r.nextSlot) {
          HonestyStays(V, V', id, cl, cl', p.0, nd.r.epoch, c.ballot, p.1, nd.r.nextSlot, nd'.r.nextSlot);
        }
      case Leader(l) =>
        SafetyStays(V, V', id, cl, cl');
    }
  }

  lemma LogStays(cl: Cluster, cl': Cluster, nd: Node)
    requires LogOk(cl, nd) && cl'.genesis == cl.genesis && Extends(cl'.log, cl.log)
    ensures LogOk(cl', nd)
  {
    FaithfulKept(cl.genesis, cl.log, cl'.log, nd.r);
    if nd.disk.snapshot.Some? { FaithfulKept(cl.genesis, cl.log, cl'.log, nd.disk.snapshot.value); }
    if nd.pending.Some? { FaithfulKept(cl.genesis, cl.log, cl'.log, nd.pending.value); }
  }

  lemma NodeStays(V: Electorate, V': Electorate, id: NodeId, cl: Cluster, cl': Cluster, x: NodeId, nd: Node)
    requires Evolves(id, cl, cl') && Grows(V, V') && x != id && NodeOk(V, cl, x, nd) && CampaignBinds(cl, x, nd)
    ensures NodeOk(V', cl', x, nd) && CampaignBinds(cl', x, nd)
  {
    OrdersStay(id, cl, cl');
    RoleStays(V, V', id, cl, cl', x, nd, nd);
    LogStays(cl, cl', nd);
  }

  /** What is left to show of a step: that it evolves the cluster, and that whatever it adds is in order. */
  lemma StepKeepsInv(id: NodeId, cl: Cluster, cl': Cluster)
    requires Inv(cl) && Evolves(id, cl, cl')
    requires var V' := VotersOf(cl');
             && (forall m :: m in cl'.sent && m !in cl.sent ==> MessageOk(V', cl', m))
             && (forall t :: t in cl'.testimony && t !in cl.testimony ==> TestimonyOk(V', cl', t))
             && NodeOk(V', cl', id, cl'.nodes[id]) && CampaignBinds(cl', id, cl'.nodes[id])
             && (forall p :: p in cl'.log && p !in cl.log ==> Decided(V', cl', p.epoch, p.slot, cl'.log[p]))
             && OneProposal(cl'.sent)
    ensures Inv(cl')
  {
    var V, V' := VotersOf(cl), VotersOf(cl');
    VotersKept(cl.genesis, cl.log, cl'.log);
    forall m | m in cl'.sent ensures MessageOk(V', cl', m) {
      if m in cl.sent { MessageStays(V, V', id, cl, cl', m); }
    }
    forall t | t in cl'.testimony ensures TestimonyOk(V', cl', t) {
      if t in cl.testimony { TestimonyStays(V, V', id, cl, cl', t); }
    }
    forall x | x in cl'.nodes ensures NodeOk(V', cl', x, cl'.nodes[x]) && CampaignBinds(cl', x, cl'.nodes[x]) {
      if x != id { NodeStays(V, V', id, cl, cl', x, cl.nodes[x]); }
    }
    forall p | p in cl'.log ensures Decided(V', cl', p.epoch, p.slot, cl'.log[p]) {
      if p in cl.log { DecisionStays(V, V', id, cl, cl', p.epoch, p.slot, cl.log[p]); }
    }
  }
}
