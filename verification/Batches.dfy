/** What a node that is behind gets from one that is not (app/consensus/replica.py: `chosen_from`): the
    consecutive commands from the place it asks for. */
module Batches {
  import opened Ballots
  import opened StateMachines
  import opened Replays
  import opened Messages
  import opened Ledgers
  import opened Proposals
  import opened Nodes
  import opened Clusters
  import opened Elections
  import opened Locals
  import opened Replicas
  import opened CatchUps

  // a stop is recorded only for an epoch that was left

  ghost predicate StopsBefore(r: Progress) {
    forall e :: e in r.stops ==> e < r.epoch
  }

  ghost predicate TidyMessage(m: Message) {
    m.Snapshot? ==> StopsBefore(m.state)
  }

  ghost predicate TidyDisk(disk: Disk) {
    disk.snapshot.Some? ==> StopsBefore(disk.snapshot.value)
  }

  ghost predicate TidyNode(nd: Node) {
    && StopsBefore(nd.r) && TidyDisk(nd.disk)
    && (nd.pending.Some? ==> StopsBefore(nd.pending.value))
    && forall m :: m in nd.local ==> TidyMessage(m)
  }

  ghost predicate TidyEffect(o: Effect) {
    TidyNode(o.node) && forall m :: m in o.sent ==> TidyMessage(m)
  }

  ghost predicate Tidy(cl: Cluster) {
    (forall m :: m in cl.sent ==> TidyMessage(m)) && forall id :: id in cl.nodes ==> TidyNode(cl.nodes[id])
  }

  lemma {:induction false} AdvanceIsTidy(r: Progress, log: Log)
    requires StopsBefore(r)
    ensures StopsBefore(Advance(r, log))
    decreases |Ahead(log, At(r))|
  {
    hide Apply, Remember, Remembered;
    if At(r) in log {
      AheadShrinks(log, r);
      AdvanceIsTidy(ApplyChosen(r, log[At(r)]), log);
    }
  }

  lemma HandlingIsTidy(id: NodeId, nd: Node, m: Message)
    requires TidyNode(nd) && TidyMessage(m)
    ensures TidyEffect(Handle(id, nd, m))
  {
    hide StopsBefore, OnPrepare, OnPromise, OnAccept, OnAccepted, OnNack, Committed, OnSnapshot;
    match m {
      case Prepare(_, _, _, _) => PrepareIsTidy(id, nd, m);
      case Promise(_, _, _, _) => PromiseIsTidy(id, nd, m);
      case Accept(_, _, _, _, _) => AcceptIsTidy(id, nd, m);
      case Accepted(_, _, _, _) => DecisionIsTidy(id, nd, m);
      case Nack(_, _, _, _) => NackIsTidy(nd, m);
      case Commit(_, e, s, c) => CommitIsTidy(nd, Pos(e, s), c);
      case Snapshot(_, _, _, _) => SnapshotIsTidy(nd, m);
    }
  }

  lemma PrepareIsTidy(id: NodeId, nd: Node, m: Message)
    requires TidyNode(nd) && m.Prepare?
    ensures TidyEffect(OnPrepare(id, nd, m))
  {
    StoredKeepsBase(nd.disk, nd.r.epoch, AnswerPrepare(id, nd.r.epoch, Own(nd), m).0);
    hide StopsBefore, Stored, Report, Less, Raised;
  }

  lemma AcceptIsTidy(id: NodeId, nd: Node, m: Message)
    requires TidyNode(nd) && m.Accept?
    ensures TidyEffect(OnAccept(id, nd, m))
  {
    StoredKeepsBase(nd.disk, nd.r.epoch, AnswerAccept(id, nd.r.epoch, Own(nd), Floor(nd), m).0);
    hide StopsBefore, Stored, Less, Raised;
  }

  lemma StoredKeepsBase(disk: Disk, e: nat, l: Ledger)
    ensures Stored(disk, e, l).snapshot == disk.snapshot
  {
  }

  lemma NackIsTidy(nd: Node, m: Message)
    requires TidyNode(nd) && m.Nack?
    ensures TidyNode(OnNack(nd, m))
  {
    hide StopsBefore, TidyMessage;
  }

  lemma CommitIsTidy(nd: Node, p: Pos, c: Command)
    requires TidyNode(nd)
    ensures TidyNode(Committed(nd, p, c))
  {
    hide StopsBefore, TidyMessage, Advance, MaxRound;
    AdvanceIsTidy(nd.r, nd.disk.chosen[p := c]);
  }

  lemma SnapshotIsTidy(nd: Node, m: Message)
    requires TidyNode(nd) && m.Snapshot? && TidyMessage(m)
    ensures TidyNode(OnSnapshot(nd, m))
  {
    hide StopsBefore, Advance, MaxRound, AppliedTotal;
    AdvanceIsTidy(m.state, Compacted(nd.disk, m.state).chosen);
  }

  lemma DecisionIsTidy(id: NodeId, nd: Node, m: Message)
    requires TidyNode(nd) && m.Accepted?
    ensures TidyEffect(OnAccepted(id, nd, m))
  {
    hide Advance, MaxRound, Counted, StopsBefore;
    if nd.role.Leader? {
      var (l, done) := Counted(nd.role.leadership, m.slot, m.sender);
      if done.Some? {
        AdvanceIsTidy(nd.r, nd.disk.chosen[Pos(nd.r.epoch, m.slot) := done.value]);
      }
    }
  }

  lemma PromiseIsTidy(id: NodeId, nd: Node, m: Message)
    requires TidyNode(nd) && m.Promise?
    ensures TidyEffect(OnPromise(id, nd, m))
  {
    hide Advance, MaxRound, Put, StopsBefore, Joined, Plan, FirstFree, TidyDisk, Taken;
    if Counts(nd, m) {
      var c := nd.role.campaign.(promises := Put(nd.role.campaign.promises, m.sender, m.accepted));
      var es := Joined(c.promises);
      ProposingCovers(id, nd.r.epoch, c.ballot, Plan(es, nd.r.nextSlot, nd.r.epoch, nd.disk.chosen), nd.r.nextSlot, ReportedTop(es));
    }
  }

  lemma StepIsTidy(cl: Cluster, h: Happening)
    requires Tidy(cl) && Enabled(cl, h)
    ensures Tidy(Step(cl, h))
  {
    hide Outcome, TidyNode, TidyMessage, Enabled;
    OutcomeIsTidy(cl, h);
  }

  lemma OutcomeIsTidy(cl: Cluster, h: Happening)
    requires Tidy(cl) && Enabled(cl, h)
    ensures TidyEffect(Outcome(cl, h))
  {
    hide MaxRound, AppliedTotal, Handle, StopsBefore, Propose, Told, Restarted, WithPromise;
    var id, nd := h.id, cl.nodes[h.id];
    assert TidyNode(nd);
    match h.event {
      case Receive(m) => HandlingIsTidy(id, nd, m);
      case Drain => HandlingIsTidy(id, nd.(local := nd.local[1..]), nd.local[0]);
      case Offer(c) => OfferIsTidy(id, nd, c);
      case Crash(voters) =>
        SameBase(nd, voters, ZERO);
        RestartIsTidy(Told(nd.disk, voters));
      case TornAccept(ballot) =>
        SameBase(nd, None, ballot);
        RestartIsTidy(WithPromise(nd, ballot));
      case _ =>
    }
  }

  lemma SameBase(nd: Node, voters: Option<Members>, ballot: Ballot)
    ensures Told(nd.disk, voters).snapshot == nd.disk.snapshot
    ensures WithPromise(nd, ballot).snapshot == nd.disk.snapshot
  {
  }

  lemma OfferIsTidy(id: NodeId, nd: Node, c: Command)
    requires TidyNode(nd) && nd.role.Leader?
    ensures TidyEffect(Propose(id, nd, c))
  {
    hide StopsBefore, Remembered, ProposedAt;
  }

  lemma RestartIsTidy(disk: Disk)
    requires TidyDisk(disk)
    ensures TidyNode(Restarted(disk))
  {
    AdvanceIsTidy(Start(disk), disk.chosen);
    hide Advance, MaxRound, AppliedTotal;
  }

  lemma {:induction false} RunIsTidy(states: seq<Cluster>, run: Run, n: nat)
    requires Execution(states, run) && n < |states|
    ensures Tidy(states[n])
  {
    hide Tidy, Step, Enabled;
    if n == 0 {
      StartIsTidy(states[0]);
    } else {
      RunIsTidy(states, run, n - 1);
      assert Moves(states, run, n - 1);
      StepIsTidy(states[n - 1], run[n - 1]);
    }
  }

  lemma StartIsTidy(cl: Cluster)
    requires Initial(cl)
    ensures Tidy(cl)
  {
    hide Restarted, TidyNode;
    forall id | id in cl.nodes ensures TidyNode(cl.nodes[id]) {
      var genesis :| (genesis == None || genesis == Some(cl.genesis))
                     && cl.nodes[id] == Restarted(Disk(genesis, map[], map[], None));
      RestartIsTidy(Disk(genesis, map[], map[], None));
    }
  }

  // what a batch holds

  /** How many commands of epoch `p.epoch` a replica has applied from place `p` on. */
  function AppliedFrom(r: Progress, p: Pos): int {
    if p.epoch < r.epoch && p.epoch in r.stops then r.stops[p.epoch] + 1 - p.slot else r.nextSlot - p.slot
  }

  /** Every epoch a replica goes through leaves a recorded stop. */
  lemma {:induction false} EpochsLeftAreStopped(r: Progress, log: Log, e: nat)
    requires r.epoch <= e < Advance(r, log).epoch
    ensures e in Advance(r, log).stops
    decreases |Ahead(log, At(r))|
  {
    if At(r) in log {
      AheadShrinks(log, r);
      var next := ApplyChosen(r, log[At(r)]);
      if next.epoch <= e {
        EpochsLeftAreStopped(next, log, e);
      } else {
        StopsStay(next, log, e);
      }
    }
  }

  /** A stretch of chosen slots comes out as it is. */
  lemma {:induction false} StretchIsFound(chosen: Log, e: nat, lo: nat, hi: nat, limit: nat, n: nat)
    requires n <= limit && (n > 0 ==> lo + n <= hi) && forall s :: lo <= s < lo + n ==> Pos(e, s) in chosen
    ensures var found := FirstChosen(chosen, e, lo, hi, limit);
            n <= |found| && forall k :: 0 <= k < n ==> found[k] == (lo + k, chosen[Pos(e, lo + k)])
    decreases n
  {
    if n > 0 {
      StretchIsFound(chosen, e, lo + 1, hi, limit - 1, n - 1);
      var found, rest := FirstChosen(chosen, e, lo, hi, limit), FirstChosen(chosen, e, lo + 1, hi, limit - 1);
      assert Pos(e, lo) in chosen;
      assert found == [(lo, chosen[Pos(e, lo)])] + rest;
      forall k | 0 <= k < n ensures found[k] == (lo + k, chosen[Pos(e, lo + k)]) {
        if k > 0 {
          assert rest[k - 1] == (lo + 1 + (k - 1), chosen[Pos(e, lo + 1 + (k - 1))]);
        }
      }
    }
  }

  lemma {:induction false} NoMoreThanTheRange(chosen: Log, e: nat, lo: nat, hi: nat, limit: nat)
    ensures |FirstChosen(chosen, e, lo, hi, limit)| <= limit
    ensures |FirstChosen(chosen, e, lo, hi, limit)| <= if lo < hi then hi - lo else 0
    decreases hi - lo
  {
    if lo < hi && limit > 0 {
      NoMoreThanTheRange(chosen, e, lo + 1, hi, limit - 1);
      NoMoreThanTheRange(chosen, e, lo + 1, hi, limit);
    }
  }

  /** Every slot from `p` on that a replica applied since its base is in its log. */
  lemma AppliedIsChosen(nd: Node, p: Pos, s: nat)
    requires Rebuilt(nd) && !Precedes(p, At(Start(nd.disk))) && Precedes(p, At(nd.r))
    requires p.slot <= s < p.slot + AppliedFrom(nd.r, p)
    ensures Pos(p.epoch, s) in nd.disk.chosen
    ensures p.epoch < nd.r.epoch ==> p.epoch in nd.r.stops
  {
    if p.epoch < nd.r.epoch {
      EpochsLeftAreStopped(Start(nd.disk), nd.disk.chosen, p.epoch);
    }
    LogHasNoGap(Start(nd.disk), nd.disk.chosen, Pos(p.epoch, s));
  }

  lemma DueIsInRange(chosen: Log, stops: map<nat, nat>, p: Pos, n: nat)
    requires n > 0 && forall s :: p.slot <= s < p.slot + n ==> Pos(p.epoch, s) in chosen
    requires p.epoch in stops ==> p.slot + n <= stops[p.epoch] + 1
    ensures p.slot + n <= ServedTop(chosen, stops, p.epoch)
  {
    assert Pos(p.epoch, p.slot + n - 1) in chosen;
    var slots := set q | q in chosen && q.epoch == p.epoch :: q.slot;
    assert p.slot + n - 1 in slots;
    assert p.slot + n <= Above(slots);
  }

  /** The batch from `p` on starts with the consecutive slots from there, as many as were applied and fit;
      of an epoch already left it holds nothing more. */
  ghost predicate InOneStretch(nd: Node, p: Pos, limit: nat) {
    var due := if AppliedFrom(nd.r, p) <= limit then AppliedFrom(nd.r, p) else limit;
    var found := FirstChosen(nd.disk.chosen, p.epoch, p.slot, ServedTop(nd.disk.chosen, nd.r.stops, p.epoch), limit);
    && due <= |found| && (p.epoch < nd.r.epoch ==> |found| == if due < 0 then 0 else due)
    && forall k :: 0 <= k < due ==>
         Pos(p.epoch, p.slot + k) in nd.disk.chosen
         && found[k] == (p.slot + k, nd.disk.chosen[Pos(p.epoch, p.slot + k)])
  }

  lemma ServesContiguously(nd: Node, p: Pos, limit: nat)
    requires Rebuilt(nd) && StopsBefore(nd.r) && Precedes(p, At(nd.r))
    requires nd.disk.snapshot.Some? ==> !Precedes(p, At(nd.disk.snapshot.value))
    ensures InOneStretch(nd, p, limit)
  {
    var applied := AppliedFrom(nd.r, p);
    var due := if applied <= limit then applied else limit;
    var chosen, top := nd.disk.chosen, ServedTop(nd.disk.chosen, nd.r.stops, p.epoch);
    NoMoreThanTheRange(chosen, p.epoch, p.slot, top, limit);
    if p.epoch < nd.r.epoch {
      EpochsLeftAreStopped(Start(nd.disk), chosen, p.epoch);
    }
    if due > 0 {
      forall s | p.slot <= s < p.slot + applied ensures Pos(p.epoch, s) in chosen {
        AppliedIsChosen(nd, p, s);
      }
      DueIsInRange(chosen, nd.r.stops, p, applied);
      StretchIsFound(chosen, p.epoch, p.slot, top, limit, due);
    }
  }

  /** What a node serves has no gap: asked for a place it has applied and not compacted, a node answers
      with the consecutive slots from there, as many as it applied and the batch holds; of an epoch it
      left nothing above the command that sealed it. */
  lemma BatchIsContiguous(states: seq<Cluster>, run: Run, n: nat, i: NodeId, p: Pos, limit: nat)
    requires Execution(states, run) && n < |states| && i in states[n].nodes
    requires var nd := states[n].nodes[i];
             Precedes(p, At(nd.r)) && (nd.disk.snapshot.Some? ==> !Precedes(p, At(nd.disk.snapshot.value)))
    ensures InOneStretch(states[n].nodes[i], p, limit)
  {
    hide Execution, LocalInv, StopsBefore, TidyDisk, TidyMessage, InOneStretch;
    RunLocally(states, run, n);
    LocalOfNode(states[n], i);
    RunIsTidy(states, run, n);
    ServesContiguously(states[n].nodes[i], p, limit);
  }
}
