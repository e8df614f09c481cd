/** What handling a message sends, and to whom: letters in order, and the node's own queue among the
    addressees (app/consensus/node.py: `_send`, `_broadcast`, `_drain`). */
module Mail {
  import opened Ballots
  import opened StateMachines
  import opened Replays
  import opened Messages
  import opened Ledgers
  import opened Proposals
  import opened Nodes
  import opened Clusters

  type Post = seq<(NodeId, Message)>

  /** What goes to `to`, in the order sent. */
  function SentTo(post: Post, to: NodeId): seq<Message> {
    if post == [] then []
    else SentTo(post[..|post| - 1], to) + (if post[|post| - 1].0 == to then [post[|post| - 1].1] else [])
  }

  /** Each of `readers`, and nobody else, was sent exactly `letters`, in this order. */
  ghost predicate Posted(was: Post, now: Post, readers: set<NodeId>, letters: seq<Message>) {
    forall to :: SentTo(now, to) == SentTo(was, to) + (if to in readers then letters else [])
  }

  lemma PostedNothing(post: Post, readers: set<NodeId>, letters: seq<Message>)
    requires readers == {} || letters == []
    ensures Posted(post, post, readers, letters)
  {
    assert forall to :: SentTo(post, to) == SentTo(post, to) + [];
  }

  lemma PostedOne(post: Post, to: NodeId, m: Message)
    ensures Posted(post, post + [(to, m)], {to}, [m])
  {
    assert (post + [(to, m)])[..|post|] == post;
  }

  lemma PostedMore(was: Post, mid: Post, now: Post, readers: set<NodeId>, first: seq<Message>, second: seq<Message>)
    requires Posted(was, mid, readers, first) && Posted(mid, now, readers, second)
    ensures Posted(was, now, readers, first + second)
  {
    forall to ensures SentTo(now, to) == SentTo(was, to) + (if to in readers then first + second else []) {
      assert SentTo(now, to) == SentTo(mid, to) + (if to in readers then second else []);
      assert (SentTo(was, to) + first) + second == SentTo(was, to) + (first + second);
    }
  }

  lemma PostedWider(was: Post, mid: Post, now: Post, some: set<NodeId>, others: set<NodeId>, letters: seq<Message>)
    requires Posted(was, mid, some, letters) && Posted(mid, now, others, letters) && some !! others
    ensures Posted(was, now, some + others, letters)
  {
    forall to ensures SentTo(now, to) == SentTo(was, to) + (if to in some + others then letters else []) {
      assert SentTo(now, to) == SentTo(mid, to) + (if to in others then letters else []);
    }
  }

  // what handling one message sends

  /** What `OnPromise` does with the promise that completes the majority. */
  predicate Finishes(nd: Node, m: Message) {
    Counts(nd, m) && |nd.role.campaign.promises| < nd.role.campaign.quorum <= |Completed(nd, m).promises|
  }

  /** The proposals a new leader's campaign obliges it to, in slot order. */
  ghost function Planned(id: NodeId, nd: Node, c: Campaign): seq<Message> {
    var es, from, e := Joined(c.promises), nd.r.nextSlot, nd.r.epoch;
    Proposing(id, e, c.ballot, Plan(es, from, e, nd.disk.chosen), from, ReportedTop(es))
  }

  /** They name each slot once, from the lowest up. */
  lemma {:induction false} ProposedInOrder(id: NodeId, e: nat, b: Ballot, plan: map<nat, Command>, lo: nat, hi: nat)
    ensures var ms := Proposing(id, e, b, plan, lo, hi);
            && (forall m :: m in ms ==> m.Accept? && lo <= m.slot && m.sender == id && m.epoch == e && m.ballot == b)
            && (forall i, j :: 0 <= i < j < |ms| && ms[i].Accept? && ms[j].Accept? ==> ms[i].slot < ms[j].slot)
    decreases hi - lo
  {
    if lo < hi {
      ProposedInOrder(id, e, b, plan, lo + 1, hi);
      var rest := Proposing(id, e, b, plan, lo + 1, hi);
      assert forall j :: 0 <= j < |rest| ==> rest[j] in rest;
    }
  }

  /** The command whose majority the vote `m` completes. */
  function Decides(nd: Node, m: Message): Option<Command>
    requires m.Accepted?
  {
    if nd.role.Leader? && m.ballot == nd.role.leadership.ballot then Counted(nd.role.leadership, m.slot, m.sender).1 else None
  }

  ghost function Letters(id: NodeId, nd: Node, m: Message): seq<Message> {
    var e := nd.r.epoch;
    if !Hears(id, nd, m) then []
    else match m
      case Prepare(_, _, _, _) => [AnswerPrepare(id, e, Own(nd), m).1]
      case Promise(_, _, _, _) =>
        if Finishes(nd, m) then Planned(id, nd, Completed(nd, m)) else []
      case Accept(_, _, _, _, _) => [AnswerAccept(id, e, Own(nd), Floor(nd), m).1]
      case Accepted(_, _, _, _) =>
        var done := Decides(nd, m);
        if done.Some? then [Commit(id, e, m.slot, done.value)] else []
      case _ => []
  }

  /** A reply goes to whoever asked, a leader's proposals to every voter, its decisions to the others. */
  function Readers(id: NodeId, nd: Node, m: Message): set<NodeId> {
    match m
    case Prepare(_, _, _, _) => {m.sender}
    case Accept(_, _, _, _, _) => {m.sender}
    case Promise(_, _, _, _) => nd.r.members.Keys
    case _ => nd.r.members.Keys - {id}
  }

  /** The letters are what the step functions say is sent, and what the node queues for itself. */
  lemma LettersAreSent(id: NodeId, nd: Node, m: Message)
    ensures Handle(id, nd, m).sent == set x | x in Letters(id, nd, m)
    ensures Handle(id, nd, m).node.local == nd.local + (if id in Readers(id, nd, m) then Letters(id, nd, m) else [])
  {
    hide Advance, Report, MaxRound, Put, Compacted, AppliedTotal, Counted, Stored, AnswerPrepare, AnswerAccept, Joined,
      Plan, FirstFree, Taken, Proposing, ReportedTop;
  }

  // the queue runs dry

  function Many(ms: seq<Message>, kind: Message -> bool): nat {
    if ms == [] then 0 else Many(ms[..|ms| - 1], kind) + (if kind(ms[|ms| - 1]) then 1 else 0)
  }

  lemma {:induction false} ManyJoined(ms: seq<Message>, more: seq<Message>, kind: Message -> bool)
    ensures Many(ms + more, kind) == Many(ms, kind) + Many(more, kind)
  {
    if more == [] {
      assert ms + more == ms;
    } else {
      ManyJoined(ms, more[..|more| - 1], kind);
      assert (ms + more)[..|ms + more| - 1] == ms + more[..|more| - 1];
    }
  }

  lemma {:induction false} NoneOf(ms: seq<Message>, kind: Message -> bool)
    requires forall m :: m in ms ==> !kind(m)
    ensures Many(ms, kind) == 0
  {
    if ms != [] {
      NoneOf(ms[..|ms| - 1], kind);
    }
  }

  predicate IsPrepare(m: Message) {
    m.Prepare?
  }

  predicate IsPromise(m: Message) {
    m.Promise?
  }

  predicate IsAccept(m: Message) {
    m.Accept?
  }

  /** A queue gets lighter when a Prepare gives way to a promise, a promise to proposals, a proposal to a
      vote, and anything else to nothing. */
  lemma Lighter(first: Message, rest: seq<Message>, more: seq<Message>)
    requires first.Prepare? ==> forall m :: m in more ==> !m.Prepare?
    requires first.Promise? ==> forall m :: m in more ==> m.Accept?
    requires first.Accept? ==> forall m :: m in more ==> !m.Prepare? && !m.Promise? && !m.Accept?
    requires !first.Prepare? && !first.Promise? && !first.Accept? ==> more == []
    ensures var before, after := [first] + rest, rest + more;
            (Many(before, IsPrepare), Many(before, IsPromise), Many(before, IsAccept), |before|
             decreases to Many(after, IsPrepare), Many(after, IsPromise), Many(after, IsAccept), |after|)
  {
    ManyJoined([first], rest, IsPrepare);
    ManyJoined([first], rest, IsPromise);
    ManyJoined([first], rest, IsAccept);
    ManyJoined(rest, more, IsPrepare);
    ManyJoined(rest, more, IsPromise);
    ManyJoined(rest, more, IsAccept);
    OneOf(first, IsPrepare);
    OneOf(first, IsPromise);
    OneOf(first, IsAccept);
    if first.Prepare? {
      NoneOf(more, IsPrepare);
    } else if first.Promise? {
      NoneOf(more, IsPrepare);
      NoneOf(more, IsPromise);
    } else {
      NoneOf(more, IsPrepare);
      NoneOf(more, IsPromise);
      NoneOf(more, IsAccept);
    }
  }

  lemma OneOf(m: Message, kind: Message -> bool)
    ensures Many([m], kind) == if kind(m) then 1 else 0
  {
    assert [m][..0] == [];
  }

  lemma {:induction false} ProposingAccepts(id: NodeId, e: nat, b: Ballot, plan: map<nat, Command>, lo: nat, hi: nat)
    ensures forall m :: m in Proposing(id, e, b, plan, lo, hi) ==> m.Accept?
    decreases hi - lo
  {
    if lo < hi {
      ProposingAccepts(id, e, b, plan, lo + 1, hi);
    }
  }

  /** Handling the first message of a queue makes the queue lighter. */
  lemma HandlingLightens(id: NodeId, nd: Node)
    requires nd.local != []
    ensures var before := nd.local;
            var after := Handle(id, nd.(local := nd.local[1..]), nd.local[0]).node.local;
            (Many(before, IsPrepare), Many(before, IsPromise), Many(before, IsAccept), |before|
             decreases to Many(after, IsPrepare), Many(after, IsPromise), Many(after, IsAccept), |after|)
  {
    var tail, m := nd.(local := nd.local[1..]), nd.local[0];
    LettersAreSent(id, tail, m);
    var more := if id in Readers(id, tail, m) then Letters(id, tail, m) else [];
    MoreIsLighter(id, tail, m);
    hide Handle, Letters, Many;
    assert nd.local == [m] + tail.local;
    Lighter(m, tail.local, more);
  }

  lemma MoreIsLighter(id: NodeId, nd: Node, m: Message)
    ensures var more := if id in Readers(id, nd, m) then Letters(id, nd, m) else [];
            && (m.Prepare? ==> forall x :: x in more ==> !x.Prepare?)
            && (m.Promise? ==> forall x :: x in more ==> x.Accept?)
            && (m.Accept? ==> forall x :: x in more ==> !x.Prepare? && !x.Promise? && !x.Accept?)
            && (!m.Prepare? && !m.Promise? && !m.Accept? ==> more == [])
  {
    hide Report, Raised, Plan, Joined, ReportedTop, Proposing, Floor, Counted;
    if m.Promise? && nd.role.Candidate? {
      var c := Completed(nd, m);
      ProposingAccepts(id, nd.r.epoch, c.ballot, Plan(Joined(c.promises), nd.r.nextSlot, nd.r.epoch, nd.disk.chosen),
                       nd.r.nextSlot, ReportedTop(Joined(c.promises)));
    }
  }

  /** Handling queued messages one after the other until none is left. */
  ghost function Drained(id: NodeId, nd: Node): (o: Effect)
    ensures o.node.local == []
    decreases Many(nd.local, IsPrepare), Many(nd.local, IsPromise), Many(nd.local, IsAccept), |nd.local|
  {
    if nd.local == [] then Quiet(nd)
    else
      HandlingLightens(id, nd);
      var o := Handle(id, nd.(local := nd.local[1..]), nd.local[0]);
      Followed(o, Drained(id, o.node))
  }

  ghost function Followed(o: Effect, next: Effect): Effect {
    Effect(next.node, o.sent + next.sent, o.testimony + next.testimony, next.decided + o.decided)
  }

  /** What goes to another node meanwhile. */
  ghost function DrainedTo(id: NodeId, nd: Node, to: NodeId): seq<Message>
    decreases Many(nd.local, IsPrepare), Many(nd.local, IsPromise), Many(nd.local, IsAccept), |nd.local|
  {
    if nd.local == [] then []
    else
      HandlingLightens(id, nd);
      var tail := nd.(local := nd.local[1..]);
      Outgoing(id, tail, nd.local[0], to) + DrainedTo(id, Handle(id, tail, nd.local[0]).node, to)
  }

  ghost function Outgoing(id: NodeId, nd: Node, m: Message, to: NodeId): seq<Message> {
    if to in Readers(id, nd, m) && to != id then Letters(id, nd, m) else []
  }

  predicate OnlyDrains(id: NodeId, run: Run) {
    forall h :: h in run ==> h == Happening(id, Drain)
  }

  /** Draining the queue is so many `Drain` steps of the cluster: nothing is handled in between that the
      step system could not do. */
  lemma {:induction false} DrainingIsSteps(cl: Cluster, id: NodeId) returns (states: seq<Cluster>, run: Run)
    requires id in cl.nodes
    ensures Trace(states, run) && OnlyDrains(id, run)
    ensures states[0] == cl && states[|run|] == After(cl, id, Drained(id, cl.nodes[id]))
    decreases Many(cl.nodes[id].local, IsPrepare), Many(cl.nodes[id].local, IsPromise),
              Many(cl.nodes[id].local, IsAccept), |cl.nodes[id].local|
  {
    hide Handle, Many;
    var nd := cl.nodes[id];
    if nd.local == [] {
      states, run := [cl], [];
      assert cl.nodes[id := nd] == cl.nodes;
    } else {
      HandlingLightens(id, nd);
      var h := Happening(id, Drain);
      var o := Outcome(cl, h);
      var next := Step(cl, h);
      var later, rest := DrainingIsSteps(next, id);
      states, run := [cl] + later, [h] + rest;
      JoinedTrace(cl, h, later, rest);
      AfterTwice(cl, id, o, Drained(id, o.node));
    }
  }

  lemma JoinedTrace(cl: Cluster, h: Happening, later: seq<Cluster>, rest: Run)
    requires Enabled(cl, h) && Trace(later, rest) && later[0] == Step(cl, h)
    ensures Trace([cl] + later, [h] + rest)
  {
    hide Enabled, Step;
    var states, run := [cl] + later, [h] + rest;
    forall k | 0 <= k < |run| ensures Moves(states, run, k) {
      if k > 0 {
        assert Moves(later, rest, k - 1);
      }
    }
  }

  lemma AfterTwice(cl: Cluster, id: NodeId, o: Effect, next: Effect)
    ensures After(After(cl, id, o), id, next) == After(cl, id, Followed(o, next))
  {
    assert cl.nodes[id := o.node][id := next.node] == cl.nodes[id := next.node];
    assert next.decided + (o.decided + cl.log) == (next.decided + o.decided) + cl.log;
  }

  lemma PostedOut(id: NodeId, nd: Node, m: Message, was: Post, now: Post)
    requires Posted(was, now, Readers(id, nd, m) - {id}, Letters(id, nd, m))
    ensures forall to :: SentTo(now, to) == SentTo(was, to) + Outgoing(id, nd, m, to)
  {
    hide Readers, Letters, SentTo;
  }

  /** After one queued message, what is sent and what is still to come add up as before. */
  lemma StillDraining(id: NodeId, nd: Node, was: Post, now: Post)
    requires nd.local != []
    requires var tail, m := nd.(local := nd.local[1..]), nd.local[0];
             Posted(was, now, Readers(id, tail, m) - {id}, Letters(id, tail, m))
    ensures var next := Handle(id, nd.(local := nd.local[1..]), nd.local[0]).node;
            forall to :: SentTo(now, to) + DrainedTo(id, next, to) == SentTo(was, to) + DrainedTo(id, nd, to)
  {
    hide *;
    var tail, m := nd.(local := nd.local[1..]), nd.local[0];
    var next := Handle(id, tail, m).node;
    PostedOut(id, tail, m, was, now);
    forall to ensures SentTo(now, to) + DrainedTo(id, next, to) == SentTo(was, to) + DrainedTo(id, nd, to) {
      DrainsFirst(id, nd, to);
      assert (SentTo(was, to) + Outgoing(id, tail, m, to)) + DrainedTo(id, next, to)
          == SentTo(was, to) + (Outgoing(id, tail, m, to) + DrainedTo(id, next, to));
    }
  }

  lemma DrainsFirst(id: NodeId, nd: Node, to: NodeId)
    requires nd.local != []
    ensures var tail, m := nd.(local := nd.local[1..]), nd.local[0];
            DrainedTo(id, nd, to) == Outgoing(id, tail, m, to) + DrainedTo(id, Handle(id, tail, m).node, to)
  {
    hide Handle, Outgoing, Many;
  }
}
