/** Why the condition on counted promises is needed: `Acceptor.prepare` answers a candidate that asks
    from below its floor (app/consensus/acceptor.py:26-36), and says nothing of the votes compaction
    pruned there. */
module CompactionGap {
  import opened Ballots
  import opened StateMachines
  import opened Replays
  import opened Messages
  import opened Ledgers
  import opened Proposals
  import opened Nodes
  import opened Clusters

  /** A compacted acceptor's promise hides nothing exactly when it had no vote between the slot
      asked from and its floor. */
  lemma PromiseHidesNothingExactly(l: Ledger, floor: nat, from: nat)
    ensures Report(Pruned(l, floor).accepted, from) == Report(l.accepted, from)
            <==> forall s :: s in l.accepted && from <= s ==> floor <= s
  {
    var pruned := Pruned(l, floor).accepted;
    ReportCovers(pruned, from);
    ReportCovers(l.accepted, from);
    if forall s :: s in l.accepted && from <= s ==> floor <= s {
      SameScan(pruned, l.accepted, from, Above(pruned.Keys), Above(l.accepted.Keys));
    } else {
      var s :| s in l.accepted && from <= s && s < floor;
      var x := Entry(s, l.accepted[s].ballot, l.accepted[s].command);
      assert x in Report(l.accepted, from) && x !in Report(pruned, from);
    }
  }

  /** Two ledgers with the same votes from `lo` on report the same from there. */
  lemma {:induction false} SameScan(a: map<nat, Vote>, b: map<nat, Vote>, lo: nat, m: nat, n: nat)
    requires forall s :: lo <= s ==> (s in a <==> s in b) && (s in a ==> a[s] == b[s])
    requires forall s :: s in a && lo <= s ==> s < m
    requires forall s :: s in b && lo <= s ==> s < n
    ensures Scan(a, lo, m) == Scan(b, lo, n)
    decreases m + n - lo
  {
    if lo < m || lo < n {
      SameScan(a, b, lo + 1, m, n);
      if lo >= m { NothingAbove(b, lo, n); }
      if lo >= n { NothingAbove(a, lo, m); }
    }
  }

  lemma {:induction false} NothingAbove(a: map<nat, Vote>, lo: nat, hi: nat)
    requires forall s :: lo <= s ==> s !in a
    ensures Scan(a, lo, hi) == []
    decreases hi - lo
  {
    if lo < hi { NothingAbove(a, lo + 1, hi); }
  }

  /** The guard a caller can check: promises hide nothing, whatever was voted, if and only if the
      candidate asks from the floor or above. */
  lemma FloorDecides(floor: nat, from: nat)
    ensures (forall l :: Report(Pruned(l, floor).accepted, from) == Report(l.accepted, from)) <==> floor <= from
  {
    if floor <= from {
      forall l ensures Report(Pruned(l, floor).accepted, from) == Report(l.accepted, from) {
        PromiseHidesNothingExactly(l, floor, from);
      }
    } else {
      var l := Ledger(ZERO, map[from := Vote(ZERO, Noop)]);
      PromiseHidesNothingExactly(l, floor, from);
      assert from in l.accepted;
    }
  }

  // moving a cluster along

  ghost predicate Can(from: Cluster, to: Cluster) {
    exists states, run :: Trace(states, run) && states[0] == from && states[|run|] == to
  }

  lemma CanStay(cl: Cluster)
    ensures Can(cl, cl)
  {
    var states, run: Run := [cl], [];
    assert Trace(states, run) && states[0] == cl && states[|run|] == cl;
  }

  lemma CanStep(from: Cluster, cl: Cluster, h: Happening)
    requires Can(from, cl) && Enabled(cl, h)
    ensures Can(from, Step(cl, h))
  {
    hide Enabled, Step;
    var states, run :| Trace(states, run) && states[0] == from && states[|run|] == cl;
    OneMore(states, run, h);
  }

  lemma OneMore(states: seq<Cluster>, run: Run, h: Happening)
    requires Trace(states, run) && Enabled(states[|run|], h)
    ensures Trace(states + [Step(states[|run|], h)], run + [h])
  {
    hide Enabled, Step;
    var states', run' := states + [Step(states[|run|], h)], run + [h];
    forall k | 0 <= k < |run'| ensures Moves(states', run', k) {
      assert k < |run| ==> Moves(states, run, k);
    }
  }

  /** The node's handler turns `nd` into `nd'` and sends `m`. */
  ghost predicate Turns(o: Effect, nd': Node, m: Message) {
    o.node == nd' && m in o.sent
  }

  /** One happening whose outcome is known. */
  lemma Move(from: Cluster, cl: Cluster, id: NodeId, ev: Event, nd: Node, m: Message) returns (cl': Cluster)
    requires Can(from, cl) && Enabled(cl, Happening(id, ev)) && Turns(Outcome(cl, Happening(id, ev)), nd, m)
    ensures Moved(from, cl, cl', id, nd, m)
  {
    CanStep(from, cl, Happening(id, ev));
    cl' := Step(cl, Happening(id, ev));
  }

  ghost predicate Moved(from: Cluster, cl: Cluster, cl': Cluster, id: NodeId, nd: Node, m: Message) {
    Can(from, cl') && cl'.nodes == cl.nodes[id := nd] && cl.sent <= cl'.sent && m in cl'.sent && cl'.every == cl.every
  }

  /** Handling the first message of its own queue. */
  lemma Drains(from: Cluster, cl: Cluster, id: NodeId, nd: Node, nd': Node, m: Message, m': Message) returns (cl': Cluster)
    requires Can(from, cl) && id in cl.nodes && cl.nodes[id] == nd && nd.local != [] && nd.local[0] == m
    requires var o := Handle(id, nd.(local := nd.local[1..]), m);
             o.node == nd' && (m' in o.sent || m' in cl.sent)
    ensures Moved(from, cl, cl', id, nd', m')
  {
    hide Handle, Can;
    CanStep(from, cl, Happening(id, Drain));
    cl' := Step(cl, Happening(id, Drain));
  }

  /** A leader proposing a new command. */
  lemma Offers(from: Cluster, cl: Cluster, id: NodeId, nd: Node, nd': Node, c: Command, m: Message) returns (cl': Cluster)
    requires Can(from, cl) && id in cl.nodes && cl.nodes[id] == nd && nd.role.Leader? && Turns(Propose(id, nd, c), nd', m)
    ensures Moved(from, cl, cl', id, nd', m)
  {
    hide Propose, Can, Turns;
    cl' := Move(from, cl, id, Offer(c), nd', m);
  }

  /** Handling a message from outside. */
  lemma Receives(from: Cluster, cl: Cluster, id: NodeId, nd: Node, nd': Node, m: Message, m': Message) returns (cl': Cluster)
    requires Can(from, cl) && id in cl.nodes && cl.nodes[id] == nd && nd.local == [] && m in cl.sent
    requires Handle(id, nd, m).node == nd' && (m' in Handle(id, nd, m).sent || m' in cl.sent)
    ensures Moved(from, cl, cl', id, nd', m')
  {
    hide Handle, Can;
    CanStep(from, cl, Happening(id, Receive(m)));
    cl' := Step(cl, Happening(id, Receive(m)));
  }

  // the run: three voters, a snapshot every applied slot

  const FIRST: Members := map["a" := "", "b" := "", "c" := ""]
  const P := Ballot(1, "a")
  const Q := Ballot(1, "c")
  const X := Command("x", Op(Set("k", Text("x"))))
  const Y := Command("y", Op(Set("k", Text("y"))))

  lemma Basics()
    ensures Report(map[], 0) == [] && Less(ZERO, P) && Less(ZERO, Q) && Less(P, Q)
    ensures !Less(P, P) && !Less(Q, Q) && !Less(Q, P) && Quorum(FIRST) == 2
  {
    NothingAbove(map[], 0, Above({}));
    var empty: map<nat, Vote> := map[];
    assert empty.Keys == {};
    NothingAbove(map[], 0, Above(empty.Keys));
    assert FIRST.Keys == {"a", "b", "c"};
    assert |FIRST| == |FIRST.Keys|;
  }

  function Idle(): Node {
    Node(Disk(Some(FIRST), map[], map[], None), Genesis(FIRST), None, 0, Follower, None, ZERO, 0, [], false)
  }

  function WithLedger(nd: Node, l: Ledger): Node {
    nd.(disk := nd.disk.(ledgers := map[0 := l]))
  }

  /** A voter whose campaign just began, then after promising itself, then after counting that. */
  function Asking(id: NodeId, b: Ballot): Node {
    Idle().(role := Candidate(Campaign(b, 2, [])), maxRound := 1, local := [Prepare(id, 0, b, 0)])
  }

  function Answered(id: NodeId, b: Ballot): Node {
    WithLedger(Asking(id, b), Ledger(b, map[])).(local := [Promise(id, 0, b, [])])
  }

  function Campaigning(id: NodeId, b: Ballot): Node {
    Answered(id, b).(role := Candidate(Campaign(b, 2, [(id, [])])), local := [])
  }

  lemma Asks(id: NodeId, b: Ballot)
    requires id in FIRST && b == Ballot(1, id)
    ensures Turns(StartCampaign(id, Idle()), Asking(id, b), Prepare(id, 0, b, 0))
  {
    Basics();
  }

  lemma AnswersItself(id: NodeId, b: Ballot)
    requires id in FIRST && (b == P || b == Q)
    ensures Turns(Handle(id, Asking(id, b).(local := []), Prepare(id, 0, b, 0)), Answered(id, b), Promise(id, 0, b, []))
  {
    Basics();
  }

  lemma CountsItself(id: NodeId, b: Ballot)
    requires id in FIRST
    ensures Handle(id, Answered(id, b).(local := []), Promise(id, 0, b, [])).node == Campaigning(id, b)
  {
    hide BecomeLeader;
  }

  /** An idle voter campaigns and promises itself. */
  lemma Campaigns(from: Cluster, cl: Cluster, id: NodeId, b: Ballot) returns (cl': Cluster)
    requires Can(from, cl) && id in cl.nodes && cl.nodes[id] == Idle() && id in FIRST && b == Ballot(1, id) && (b == P || b == Q)
    ensures Moved(from, cl, cl', id, Campaigning(id, b), Prepare(id, 0, b, 0))
  {
    hide Can, Handle, StartCampaign;
    var ask, answer := Prepare(id, 0, b, 0), Promise(id, 0, b, []);
    Asks(id, b);
    var cl1 := Move(from, cl, id, Elect, Asking(id, b), ask);
    AnswersItself(id, b);
    assert Asking(id, b).local[1..] == [];
    var cl2 := Drains(from, cl1, id, Asking(id, b), Answered(id, b), ask, answer);
    CountsItself(id, b);
    assert Answered(id, b).local[1..] == [];
    cl' := Drains(from, cl2, id, Answered(id, b), Campaigning(id, b), answer, ask);
  }

  /** A leader with two proposals on the way to itself; then with its own votes cast, one after the
      other; then with them counted. */
  function Offering(id: NodeId, b: Ballot, c0: Command, c1: Command, ids: set<string>): Node {
    Campaigning(id, b).(role := Leader(Leadership(b, 2, 2, map[0 := Flight(c0, {}), 1 := Flight(c1, {})], ids)),
                        leader := Some(id), leaderBallot := b,
                        local := [Accept(id, 0, b, 0, c0), Accept(id, 0, b, 1, c1)])
  }

  function VotedOnce(id: NodeId, b: Ballot, c0: Command, c1: Command, ids: set<string>): Node {
    WithLedger(Offering(id, b, c0, c1, ids), Ledger(b, map[0 := Vote(b, c0)]))
    .(local := [Accept(id, 0, b, 1, c1), Accepted(id, 0, b, 0)])
  }

  function VotedTwice(id: NodeId, b: Ballot, c0: Command, c1: Command, ids: set<string>): Node {
    WithLedger(Offering(id, b, c0, c1, ids), Ledger(b, map[0 := Vote(b, c0), 1 := Vote(b, c1)]))
    .(local := [Accepted(id, 0, b, 0), Accepted(id, 0, b, 1)])
  }

  function CountedOnce(id: NodeId, b: Ballot, c0: Command, c1: Command, ids: set<string>): Node {
    VotedTwice(id, b, c0, c1, ids)
    .(role := Leader(Leadership(b, 2, 2, map[0 := Flight(c0, {id}), 1 := Flight(c1, {})], ids)),
      local := [Accepted(id, 0, b, 1)])
  }

  function Waiting(id: NodeId, b: Ballot, c0: Command, c1: Command, ids: set<string>): Node {
    VotedTwice(id, b, c0, c1, ids)
    .(role := Leader(Leadership(b, 2, 2, map[0 := Flight(c0, {id}), 1 := Flight(c1, {id})], ids)), local := [])
  }

  lemma OwnVote0(id: NodeId, b: Ballot, c0: Command, c1: Command, ids: set<string>)
    requires id in FIRST && (b == P || b == Q)
    ensures var nd := Offering(id, b, c0, c1, ids);
            Handle(id, nd.(local := nd.local[1..]), nd.local[0]).node == VotedOnce(id, b, c0, c1, ids)
  {
    Basics();
  }

  lemma OwnVote1(id: NodeId, b: Ballot, c0: Command, c1: Command, ids: set<string>)
    requires id in FIRST && (b == P || b == Q)
    ensures var nd := VotedOnce(id, b, c0, c1, ids);
            Handle(id, nd.(local := nd.local[1..]), nd.local[0]).node == VotedTwice(id, b, c0, c1, ids)
  {
    Basics();
  }

  lemma OwnAck0(id: NodeId, b: Ballot, c0: Command, c1: Command, ids: set<string>)
    requires id in FIRST
    ensures var nd := VotedTwice(id, b, c0, c1, ids);
            Handle(id, nd.(local := nd.local[1..]), nd.local[0]).node == CountedOnce(id, b, c0, c1, ids)
  {
    hide Committed;
    var l := Leadership(b, 2, 2, map[0 := Flight(c0, {}), 1 := Flight(c1, {})], ids);
    var acks: set<NodeId> := {};
    assert acks + {id} == {id} && |{id}| == 1;
    assert l.inflight[0 := Flight(c0, {id})] == map[0 := Flight(c0, {id}), 1 := Flight(c1, {})];
    assert Counted(l, 0, id) == (Leadership(b, 2, 2, map[0 := Flight(c0, {id}), 1 := Flight(c1, {})], ids), None);
  }

  lemma OwnAck1(id: NodeId, b: Ballot, c0: Command, c1: Command, ids: set<string>)
    requires id in FIRST
    ensures var nd := CountedOnce(id, b, c0, c1, ids);
            Handle(id, nd.(local := nd.local[1..]), nd.local[0]).node == Waiting(id, b, c0, c1, ids)
  {
    hide Committed;
    var l := Leadership(b, 2, 2, map[0 := Flight(c0, {id}), 1 := Flight(c1, {})], ids);
    var acks: set<NodeId> := {};
    assert acks + {id} == {id} && |{id}| == 1;
    assert l.inflight[1 := Flight(c1, {id})] == map[0 := Flight(c0, {id}), 1 := Flight(c1, {id})];
    assert Counted(l, 1, id) == (Leadership(b, 2, 2, map[0 := Flight(c0, {id}), 1 := Flight(c1, {id})], ids), None);
  }

  /** A leader votes for its own two proposals and counts those votes. */
  lemma VotesForItself(from: Cluster, cl: Cluster, id: NodeId, b: Ballot, c0: Command, c1: Command, ids: set<string>, any: Message)
    returns (cl': Cluster)
    requires Can(from, cl) && id in cl.nodes && cl.nodes[id] == Offering(id, b, c0, c1, ids)
    requires id in FIRST && (b == P || b == Q) && any in cl.sent
    ensures Moved(from, cl, cl', id, Waiting(id, b, c0, c1, ids), any)
  {
    hide Can, Handle;
    OwnVote0(id, b, c0, c1, ids);
    var nd0, nd1 := Offering(id, b, c0, c1, ids), VotedOnce(id, b, c0, c1, ids);
    var cl1 := Drains(from, cl, id, nd0, nd1, nd0.local[0], any);
    OwnVote1(id, b, c0, c1, ids);
    var nd2 := VotedTwice(id, b, c0, c1, ids);
    var cl2 := Drains(from, cl1, id, nd1, nd2, nd1.local[0], any);
    OwnAck0(id, b, c0, c1, ids);
    var nd3 := CountedOnce(id, b, c0, c1, ids);
    var cl3 := Drains(from, cl2, id, nd2, nd3, nd2.local[0], any);
    OwnAck1(id, b, c0, c1, ids);
    cl' := Drains(from, cl3, id, nd3, Waiting(id, b, c0, c1, ids), nd3.local[0], any);
  }

  // b: promises P, votes for both, and later votes under Q

  function Promised(): Node {
    WithLedger(Idle(), Ledger(P, map[])).(maxRound := 1)
  }

  function Following(votes: map<nat, Vote>): Node {
    WithLedger(Promised(), Ledger(P, votes)).(leader := Some("a"), leaderBallot := P)
  }

  lemma PromisesA()
    ensures var o := Handle("b", Idle(), Prepare("a", 0, P, 0));
            Turns(o, Promised(), Promise("b", 0, P, []))
  {
    Basics();
  }

  lemma VotesX()
    ensures Turns(Handle("b", Promised(), Accept("a", 0, P, 0, X)), Following(map[0 := Vote(P, X)]), Accepted("b", 0, P, 0))
  {
    Basics();
  }

  lemma VotesY()
    ensures Turns(Handle("b", Following(map[0 := Vote(P, X)]), Accept("a", 0, P, 1, Y)),
                  Following(map[0 := Vote(P, X), 1 := Vote(P, Y)]), Accepted("b", 0, P, 1))
  {
    Basics();
  }

  lemma VotesAgain()
    ensures Accepted("b", 0, Q, 0) in
              Handle("b", Following(map[0 := Vote(P, X), 1 := Vote(P, Y)]), Accept("c", 0, Q, 0, Noop)).sent
  {
    Basics();
  }

  // a: leads, offers X and Y, applies both, compacts the first

  function Leading(): Node {
    Campaigning("a", P).(role := Leader(Leadership(P, 2, 0, map[], {})), leader := Some("a"), leaderBallot := P)
  }

  function OfferedX(): Node {
    Leading().(role := Leader(Leadership(P, 2, 1, map[0 := Flight(X, {})], {"x"})), local := [Accept("a", 0, P, 0, X)])
  }

  lemma LeadsWithNothing()
    ensures Handle("a", Campaigning("a", P), Promise("b", 0, P, [])).node == Leading()
  {
    hide FirstFree;
    FirstFreeOfNothing();
    var es: seq<Entry> := [];
    var ps: Promises := [("a", es), ("b", es)];
    var one: Promises := [("a", es)];
    assert one[1..] == [] && Put([], "b", es) == [("b", es)];
    assert Put(one, "b", es) == ps;
    assert ps[..1] == one && one[..0] == [] && Joined([]) == [];
    assert Joined(one) == [] && Joined(ps) == [];
    assert Plan([], 0, 0, map[]) == map[];
    var l := Taken(P, 2, 0, map[]);
    assert l == Leadership(P, 2, 0, map[], {});
  }

  lemma FirstFreeOfNothing()
    ensures FirstFree([], 0, 0, map[]) == 0
  {
    var chosen: Log := map[];
    assert (set p | p in chosen && p.epoch == 0 :: p.slot) == {};
    assert Plan([], 0, 0, chosen) == map[];
  }

  lemma OffersX()
    ensures Turns(Propose("a", Leading(), X), OfferedX(), Accept("a", 0, P, 0, X))
  {
    var l := Leadership(P, 2, 0, map[], {});
    assert ProposedAt(l, 0, X) == Leadership(P, 2, 1, map[0 := Flight(X, {})], {"x"});
    var none: seq<Message> := [];
    assert none + [Accept("a", 0, P, 0, X)] == [Accept("a", 0, P, 0, X)];
  }

  lemma OffersY()
    ensures Turns(Propose("a", OfferedX(), Y), Offering("a", P, X, Y, {"x", "y"}), Accept("a", 0, P, 1, Y))
  {
    var l := Leadership(P, 2, 1, map[0 := Flight(X, {})], {"x"});
    assert ProposedAt(l, 1, Y) == Leadership(P, 2, 2, map[0 := Flight(X, {}), 1 := Flight(Y, {})], {"x", "y"});
  }

  function First(): Progress {
    Progress(0, 1, FIRST, Machine(map["k" := Text("x")], map[]), [("x", true)], map[])
  }

  function Second(): Progress {
    Progress(0, 2, FIRST, Machine(map["k" := Text("y")], map[]), [("x", true), ("y", true)], map[])
  }

  function WaitingA(): Node {
    Waiting("a", P, X, Y, {"x", "y"})
  }

  function AppliedX(): Node {
    var nd := WaitingA();
    nd.(role := Leader(Leadership(P, 2, 2, map[1 := Flight(Y, {"a"})], {"x", "y"})),
        disk := nd.disk.(chosen := map[Pos(0, 0) := X]), r := First())
  }

  /** After the first snapshot. */
  function SnapX(): Node {
    AppliedX().(pending := Some(First()), pendingTotal := 1)
  }

  function AppliedY(): Node {
    var nd := SnapX();
    nd.(role := Leader(Leadership(P, 2, 2, map[], {"x", "y"})),
        disk := nd.disk.(chosen := map[Pos(0, 0) := X, Pos(0, 1) := Y]), r := Second())
  }

  /** After the second: the log and the votes before the first are gone. */
  function CompactA(): Node {
    AppliedY().(disk := Disk(Some(FIRST), map[0 := Ledger(P, map[1 := Vote(P, Y)])], map[Pos(0, 1) := Y], Some(First())),
                pending := Some(Second()), pendingTotal := 2)
  }

  lemma AppliesX()
    ensures ApplyChosen(Genesis(FIRST), X) == First()
  {
    var config: map<string, Value> := map[];
    assert config["k" := Text("x")] == map["k" := Text("x")];
  }

  lemma AppliesY()
    ensures ApplyChosen(First(), Y) == Second()
  {
    assert !Remembered([("x", true)], "y");
    assert First().machine.config["k" := Text("y")] == map["k" := Text("y")];
  }

  lemma OneStepAhead(r: Progress, log: Log, next: Progress)
    requires At(r) in log && next == ApplyChosen(r, log[At(r)]) && At(next) !in log
    ensures Advance(r, log) == next
  {
    hide ApplyChosen;
  }

  lemma Totals()
    ensures AppliedTotal(First()) == 1 && AppliedTotal(Second()) == 2
  {
  }

  lemma DecidesX()
    ensures Handle("a", WaitingA(), Accepted("b", 0, P, 0)).node == AppliedX()
  {
    AppliesX();
    OneStepAhead(Genesis(FIRST), map[Pos(0, 0) := X], First());
    hide Advance, ApplyChosen;
    var l := Leadership(P, 2, 2, map[0 := Flight(X, {"a"}), 1 := Flight(Y, {"a"})], {"x", "y"});
    assert |{"a", "b"}| == 2 && {"a"} + {"b"} == {"a", "b"};
    assert l.inflight - {0} == map[1 := Flight(Y, {"a"})];
    assert Counted(l, 0, "b") == (Leadership(P, 2, 2, map[1 := Flight(Y, {"a"})], {"x", "y"}), Some(X));
  }

  lemma SnapsX()
    ensures Rotated(AppliedX(), 1) == SnapX()
  {
    Totals();
    hide AppliedTotal;
  }

  lemma DecidesY()
    ensures Handle("a", SnapX(), Accepted("b", 0, P, 1)).node == AppliedY()
  {
    AppliesY();
    OneStepAhead(First(), map[Pos(0, 0) := X, Pos(0, 1) := Y], Second());
    hide Advance, ApplyChosen;
    var l := Leadership(P, 2, 2, map[1 := Flight(Y, {"a"})], {"x", "y"});
    assert |{"a", "b"}| == 2 && {"a"} + {"b"} == {"a", "b"};
    assert l.inflight - {1} == map[];
    assert Counted(l, 1, "b") == (Leadership(P, 2, 2, map[], {"x", "y"}), Some(Y));
    var log: Log := map[Pos(0, 0) := X];
    assert log[Pos(0, 1) := Y] == map[Pos(0, 0) := X, Pos(0, 1) := Y];
  }

  lemma Compacts()
    ensures Rotated(AppliedY(), 1) == CompactA()
  {
    Totals();
    hide AppliedTotal;
    var disk := AppliedY().disk;
    assert DropBelow(disk.chosen, Pos(0, 1)) == map[Pos(0, 1) := Y];
    assert Pruned(disk.ledgers[0], 1) == Ledger(P, map[1 := Vote(P, Y)]);
    assert Compacted(disk, First()).ledgers == map[0 := Ledger(P, map[1 := Vote(P, Y)])];
  }

  // c: elected by the compacted a, proposes a no-op for the slot that holds X

  const LEFT := [Entry(1, P, Y)]

  lemma ReportsTheRest()
    ensures Report(map[1 := Vote(P, Y)], 0) == LEFT
  {
    var votes: map<nat, Vote> := map[1 := Vote(P, Y)];
    assert votes.Keys == {1} && Above({1}) == 2;
    assert Scan(votes, 2, 2) == [] && Scan(votes, 1, 2) == LEFT && Scan(votes, 0, 2) == LEFT;
  }

  lemma PromisesC()
    ensures Promise("a", 0, Q, LEFT) in Handle("a", CompactA(), Prepare("c", 0, Q, 0)).sent
  {
    Basics();
    ReportsTheRest();
    hide Report;
  }

  function OfferingC(): Node {
    Offering("c", Q, Noop, Y, {"", "y"})
  }

  lemma PlansNoop()
    ensures Plan(LEFT, 0, 0, map[]) == map[0 := Noop, 1 := Y]
    ensures FirstFree(LEFT, 0, 0, map[]) == 2 && ReportedTop(LEFT) == 2
  {
    assert LEFT[..|LEFT| - 1] == [] && Best([], 0) == None && Best([], 1) == None;
    assert Best(LEFT, 1) == Some(Vote(P, Y)) && Best(LEFT, 0) == None;
    var chosen: Log := map[];
    assert (set p | p in chosen && p.epoch == 0 :: p.slot) == {};
    assert ReportedTop([]) == 0 && ReportedTop(LEFT) == 2;
    var plan := Plan(LEFT, 0, 0, chosen);
    assert plan.Keys == {0, 1};
    assert Above({0, 1}) == 2;
  }

  lemma LeadsC()
    ensures Handle("c", Campaigning("c", Q), Promise("a", 0, Q, LEFT)).node == OfferingC()
  {
    hide FirstFree, Plan;
    PlansNoop();
    JoinsBoth();
    ProposesBoth();
    hide Joined, Proposing, Put, Taken;
  }

  lemma JoinsBoth()
    ensures var es: seq<Entry> := [];
            Put([("c", es)], "a", LEFT) == [("c", es), ("a", LEFT)] && Joined([("c", es), ("a", LEFT)]) == LEFT
  {
    var es: seq<Entry> := [];
    var one: Promises := [("c", es)];
    var ps: Promises := [("c", es), ("a", LEFT)];
    assert one[1..] == [] && Put([], "a", LEFT) == [("a", LEFT)];
    assert ps[..1] == one && one[..0] == [] && Joined([]) == [];
    assert Joined(one) == [];
  }

  lemma ProposesBoth()
    ensures var plan := map[0 := Noop, 1 := Y];
            && Taken(Q, 2, 2, plan) == Leadership(Q, 2, 2, map[0 := Flight(Noop, {}), 1 := Flight(Y, {})], {"", "y"})
            && Proposing("c", 0, Q, plan, 0, 2) == [Accept("c", 0, Q, 0, Noop), Accept("c", 0, Q, 1, Y)]
  {
    var plan: map<nat, Command> := map[0 := Noop, 1 := Y];
    assert (map s | s in plan :: Flight(plan[s], {})) == map[0 := Flight(Noop, {}), 1 := Flight(Y, {})];
    PlanIds(plan);
    assert Proposing("c", 0, Q, plan, 2, 2) == [];
    assert Proposing("c", 0, Q, plan, 1, 2) == [Accept("c", 0, Q, 1, Y)];
  }

  lemma PlanIds(plan: map<nat, Command>)
    requires plan == map[0 := Noop, 1 := Y]
    ensures (set s | s in plan :: IdOf(plan[s])) == {"", "y"}
  {
    var ids := set s | s in plan :: IdOf(plan[s]);
    assert 0 in plan && 1 in plan;
    assert IdOf(plan[0]) in ids && IdOf(plan[1]) in ids;
  }

  lemma DecidesNoop()
    ensures var nd := Handle("c", Waiting("c", Q, Noop, Y, {"", "y"}), Accepted("b", 0, Q, 0)).node;
            Pos(0, 0) in nd.disk.chosen && nd.disk.chosen[Pos(0, 0)] == Noop
  {
    hide Advance;
    assert |{"c", "b"}| == 2 && {"c"} + {"b"} == {"c", "b"};
  }

  // putting it together

  ghost predicate Three(cl: Cluster) {
    cl == Cluster(FIRST, 1, map["a" := Idle(), "b" := Idle(), "c" := Idle()], {}, {}, map[])
  }

  lemma StartsIdle(cl: Cluster)
    requires Three(cl)
    ensures Initial(cl)
  {
    var disk := Disk(Some(FIRST), map[], map[], None);
    assert Loaded(disk) == Genesis(FIRST);
    assert AppliedTotal(Genesis(FIRST)) == 0;
    FreshRounds();
    hide MaxRound, AppliedTotal, Loaded;
    assert Restarted(disk) == Idle();
  }

  lemma FreshRounds()
    ensures MaxRound(FRESH) == 0
  {
  }

  /** a is elected and offers X and Y. */
  lemma UpToOffers(from: Cluster) returns (cl: Cluster)
    requires Three(from)
    ensures Can(from, cl) && cl.every == 1
    ensures cl.nodes == map["a" := Offering("a", P, X, Y, {"x", "y"}), "b" := Promised(), "c" := Idle()]
    ensures Accept("a", 0, P, 0, X) in cl.sent && Accept("a", 0, P, 1, Y) in cl.sent
  {
    CanStay(from);
    hide Can, Handle, Propose, Turns;
    var prepare, promise := Prepare("a", 0, P, 0), Promise("b", 0, P, []);
    var cl1 := Campaigns(from, from, "a", P);
    PromisesA();
    var cl2 := Receives(from, cl1, "b", Idle(), Promised(), prepare, promise);
    LeadsWithNothing();
    var cl3 := Receives(from, cl2, "a", Campaigning("a", P), Leading(), promise, prepare);
    OffersX();
    var cl4 := Offers(from, cl3, "a", Leading(), OfferedX(), X, Accept("a", 0, P, 0, X));
    OffersY();
    cl := Offers(from, cl4, "a", OfferedX(), Offering("a", P, X, Y, {"x", "y"}), Y, Accept("a", 0, P, 1, Y));
  }

  /** a and b vote for both, and a decides X for slot 0. */
  lemma UpToX(from: Cluster) returns (cl: Cluster)
    requires Three(from)
    ensures Can(from, cl) && cl.every == 1
    ensures cl.nodes == map["a" := AppliedX(), "b" := Following(map[0 := Vote(P, X), 1 := Vote(P, Y)]), "c" := Idle()]
    ensures Accepted("b", 0, P, 1) in cl.sent
  {
    hide Can, Handle;
    var ax, ay := Accept("a", 0, P, 0, X), Accept("a", 0, P, 1, Y);
    var cl1 := UpToOffers(from);
    var cl2 := VotesForItself(from, cl1, "a", P, X, Y, {"x", "y"}, ax);
    VotesX();
    var cl3 := Receives(from, cl2, "b", Promised(), Following(map[0 := Vote(P, X)]), ax, Accepted("b", 0, P, 0));
    VotesY();
    var cl4 := Receives(from, cl3, "b", Following(map[0 := Vote(P, X)]), Following(map[0 := Vote(P, X), 1 := Vote(P, Y)]),
                        ay, Accepted("b", 0, P, 1));
    DecidesX();
    cl := Receives(from, cl4, "a", WaitingA(), AppliedX(), Accepted("b", 0, P, 0), Accepted("b", 0, P, 1));
  }

  /** a compacts slot 0 away; c, which heard nothing, is elected by a and decides a no-op there. */
  lemma UpToNoop(from: Cluster, cl: Cluster) returns (end: Cluster)
    requires Can(from, cl) && cl.every == 1 && Accepted("b", 0, P, 1) in cl.sent
    requires cl.nodes == map["a" := AppliedX(), "b" := Following(map[0 := Vote(P, X), 1 := Vote(P, Y)]), "c" := Idle()]
    ensures Can(from, end) && "c" in end.nodes
    ensures Pos(0, 0) in end.nodes["c"].disk.chosen && end.nodes["c"].disk.chosen[Pos(0, 0)] == Noop
  {
    hide Can, Handle, Rotated;
    var votes := map[0 := Vote(P, X), 1 := Vote(P, Y)];
    SnapsX();
    var cl1 := Rotates(from, cl, "a", AppliedX(), SnapX());
    DecidesY();
    var cl2 := Receives(from, cl1, "a", SnapX(), AppliedY(), Accepted("b", 0, P, 1), Accepted("b", 0, P, 1));
    Compacts();
    var cl3 := Rotates(from, cl2, "a", AppliedY(), CompactA());
    var cl4 := Campaigns(from, cl3, "c", Q);
    PromisesC();
    var asked := Handle("a", CompactA(), Prepare("c", 0, Q, 0)).node;
    var promise := Promise("a", 0, Q, LEFT);
    var cl5 := Receives(from, cl4, "a", CompactA(), asked, Prepare("c", 0, Q, 0), promise);
    LeadsC();
    LeadsCSends();
    var noop := Accept("c", 0, Q, 0, Noop);
    var cl6 := Receives(from, cl5, "c", Campaigning("c", Q), OfferingC(), promise, noop);
    var ids := {"", "y"};
    var cl7 := VotesForItself(from, cl6, "c", Q, Noop, Y, ids, noop);
    VotesAgain();
    var voted := Handle("b", Following(votes), noop).node;
    var cl8 := Receives(from, cl7, "b", Following(votes), voted, noop, Accepted("b", 0, Q, 0));
    DecidesNoop();
    var nd := Waiting("c", Q, Noop, Y, ids);
    end := Receives(from, cl8, "c", nd, Handle("c", nd, Accepted("b", 0, Q, 0)).node, Accepted("b", 0, Q, 0), noop);
  }

  lemma Rotates(from: Cluster, cl: Cluster, id: NodeId, nd: Node, nd': Node) returns (cl': Cluster)
    requires Can(from, cl) && id in cl.nodes && cl.nodes[id] == nd && cl.every == 1 && Rotated(nd, 1) == nd'
    ensures Can(from, cl') && cl'.nodes == cl.nodes[id := nd'] && cl.sent <= cl'.sent && cl'.every == 1
  {
    hide Can, Rotated;
    CanStep(from, cl, Happening(id, Rotate));
    cl' := Step(cl, Happening(id, Rotate));
  }

  lemma LeadsCSends()
    ensures Accept("c", 0, Q, 0, Noop) in Handle("c", Campaigning("c", Q), Promise("a", 0, Q, LEFT)).sent
  {
    LeadsC();
    var nd := Campaigning("c", Q);
    var c := nd.role.campaign.(promises := Put(nd.role.campaign.promises, "a", LEFT));
    PlanIsLocal("c", nd, c);
    hide BecomeLeader, Put;
  }

  lemma PlanIsLocal(id: NodeId, nd: Node, c: Campaign)
    requires id in nd.r.members && nd.local == []
    ensures forall m :: m in BecomeLeader(id, nd, c).node.local ==> m in BecomeLeader(id, nd, c).sent
  {
    hide Joined, Plan, FirstFree, ReportedTop;
  }

  /** The condition is needed: there is a run of three voters in which one node decides X for a slot
      and, after one acceptor compacted that slot away, another decides a no-op for it. */
  lemma CompactionBreaksAgreement() returns (states: seq<Cluster>, run: Run, m: nat, n: nat)
    ensures Execution(states, run) && m <= n < |states|
    ensures "a" in states[m].nodes && Pos(0, 0) in states[m].nodes["a"].disk.chosen
    ensures "c" in states[n].nodes && Pos(0, 0) in states[n].nodes["c"].disk.chosen
    ensures states[m].nodes["a"].disk.chosen[Pos(0, 0)] == X && states[n].nodes["c"].disk.chosen[Pos(0, 0)] == Noop
  {
    var cl := Cluster(FIRST, 1, map["a" := Idle(), "b" := Idle(), "c" := Idle()], {}, {}, map[]);
    StartsIdle(cl);
    var mid := UpToX(cl);
    CanStay(mid);
    var end := UpToNoop(mid, mid);
    hide Initial, Moves;
    var first, before :| Trace(first, before) && first[0] == cl && first[|before|] == mid;
    var second, after :| Trace(second, after) && second[0] == mid && second[|after|] == end;
    JoinedTraces(first, before, second, after);
    states, run, m, n := first[..|before|] + second, before + after, |before|, |before| + |after|;
    assert states[0] == cl;
  }

  lemma JoinedTraces(first: seq<Cluster>, before: Run, second: seq<Cluster>, after: Run)
    requires Trace(first, before) && Trace(second, after) && first[|before|] == second[0]
    ensures Trace(first[..|before|] + second, before + after)
  {
    hide Enabled, Step;
    var states, run := first[..|before|] + second, before + after;
    forall k | 0 <= k < |run| ensures Moves(states, run, k) {
      if k < |before| {
        assert Moves(first, before, k);
      } else {
        assert Moves(second, after, k - |before|);
      }
    }
  }
}
