/** Catching up (app/consensus/catchup.py, replica.py: `chosen_from`): what a node serves has no gap,
    and every answer moves the asker strictly on. */
module CatchUps {
  import opened Ballots
  import opened StateMachines
  import opened Replays
  import opened Histories
  import opened Messages
  import opened Nodes
  import opened Clusters
  import opened Invariants
  import opened Steps
  import opened Locals
  import opened Safety

  /** Between the base and where a replica stands, its log has no gap up to each sealing command. */
  lemma {:induction false} LogHasNoGap(r: Progress, log: Log, p: Pos)
    requires !Precedes(p, At(r)) && Precedes(p, At(Advance(r, log)))
    requires var end := Advance(r, log); p.epoch < end.epoch ==> p.epoch in end.stops && p.slot <= end.stops[p.epoch]
    ensures p in log
    decreases |Ahead(log, At(r))|
  {
    if At(r) in log {
      AheadShrinks(log, r);
      var next := ApplyChosen(r, log[At(r)]);
      if p != At(r) {
        AdvanceStops(next, log);
        if Precedes(p, At(next)) {
          StopsStay(next, log, r.epoch);
        } else {
          LogHasNoGap(next, log, p);
        }
      }
    }
  }

  /** Once an epoch is left, the slot that sealed it stays recorded. */
  lemma {:induction false} StopsStay(r: Progress, log: Log, e: nat)
    requires e in r.stops && e < r.epoch
    ensures var end := Advance(r, log); e in end.stops && end.stops[e] == r.stops[e]
    decreases |Ahead(log, At(r))|
  {
    if At(r) in log {
      AheadShrinks(log, r);
      StopsStay(ApplyChosen(r, log[At(r)]), log, e);
    }
  }

  lemma OneStepOn(r: Progress, c: Command)
    ensures Precedes(At(r), At(ApplyChosen(r, c)))
  {
  }

  /** A replica behind one that serves it, not before its base, finds its next command there. */
  lemma NextIsServed(cl: Cluster, i: NodeId, server: Node, r: Progress)
    requires LogOk(cl, server) && Faithful(cl.genesis, cl.log, r) && Precedes(At(r), At(server.r))
    ensures Serve(i, server, At(r)) != {}
  {
    if !(server.disk.snapshot.Some? && Precedes(At(r), At(server.disk.snapshot.value))) {
      var from := Start(server.disk);
      assert !Precedes(At(r), At(from));
      StopBound(cl, r, server.r);
      LogHasNoGap(from, server.disk.chosen, At(r));
    }
  }

  /** A state on the agreed log before `q` is at or below the slot that sealed its epoch. */
  lemma StopBound(cl: Cluster, r: Progress, q: Progress)
    requires Faithful(cl.genesis, cl.log, r) && Faithful(cl.genesis, cl.log, q) && Precedes(At(r), At(q))
    ensures r.epoch < q.epoch ==> r.epoch in q.stops && r.nextSlot <= q.stops[r.epoch]
    ensures r.epoch !in q.stops || r.nextSlot <= q.stops[r.epoch]
  {
    var r', q' := Canonical(cl.genesis, cl.log, r), Canonical(cl.genesis, cl.log, q);
    var n: nat :| Replay(cl.genesis, cl.log, n) == r';
    var m: nat :| Replay(cl.genesis, cl.log, m) == q';
    StopsAreLast(cl.genesis, cl.log, m);
    if m < n {
      ReplayMovesOn(cl.genesis, cl.log, m, n);
    }
    StopIsAbove(cl.genesis, cl.log, n, m);
  }

  /** Only epochs already left have a recorded stop. */
  lemma {:induction false} StopsAreLast(genesis: Members, log: Log, n: nat)
    ensures forall e: nat :: e in Replay(genesis, log, n).stops <==> e < Replay(genesis, log, n).epoch
  {
    if n > 0 {
      StopsAreLast(genesis, log, n - 1);
    }
  }

  /** Nothing above the command that sealed an epoch is ever applied in it. */
  lemma {:induction false} StopIsAbove(genesis: Members, log: Log, n: nat, m: nat)
    requires n <= m
    ensures var r, q := Replay(genesis, log, n), Replay(genesis, log, m);
            r.epoch < q.epoch ==> r.epoch in q.stops && r.nextSlot <= q.stops[r.epoch]
    decreases m - n
  {
    hide Apply, Remember, Remembered;
    if n < m {
      StopIsAbove(genesis, log, n + 1, m);
      var r, next := Replay(genesis, log, n), Replay(genesis, log, n + 1);
      if next.epoch > r.epoch {
        ReplayMovesOn(genesis, log, n + 1, m);
      }
    }
  }

  /** An answer handled by a node standing where it asked from carries it strictly on, whichever node
      gave it and whenever. */
  lemma AnswerMovesOn(i: NodeId, server: Node, q: Node, m: Message)
    requires Rebuilt(q) && m in Serve(i, server, At(q.r))
    ensures m.Commit? || m.Snapshot?
    ensures m.Commit? ==>
              m.epoch == q.r.epoch && Precedes(At(q.r), At(Committed(q, Pos(m.epoch, m.slot), m.command).r))
    ensures m.Snapshot? ==> Precedes(At(q.r), At(OnSnapshot(q, m).r))
  {
    RebuiltInLine(q);
    hide Rebuilt, Loaded, MaxRound, AppliedTotal, ApplyChosen;
    if m.Commit? {
      var chosen := q.disk.chosen[At(q.r) := m.command];
      OneStepOn(q.r, m.command);
      AdvanceStops(ApplyChosen(q.r, m.command), chosen);
    } else {
      AdvanceStops(m.state, Compacted(q.disk, m.state).chosen);
    }
  }

  lemma HandledAnswerMovesOn(i: NodeId, server: Node, j: NodeId, q: Node, m: Message)
    requires Rebuilt(q) && m in Serve(i, server, At(q.r))
    ensures Precedes(At(q.r), At(Handle(j, q, m).node.r))
  {
    hide Rebuilt, Serve, Committed, OnSnapshot;
    AnswerMovesOn(i, server, q, m);
  }

  /** Catching up makes progress: in every reachable cluster, a node `j` behind a node `i` gets an
      answer for the place it asks from, and handling that answer moves `j` strictly on in the order
      (epoch, next slot). */
  lemma CatchUpMakesProgress(states: seq<Cluster>, run: Run, n: nat, i: NodeId, j: NodeId)
    requires Execution(states, run) && Sound(states, run) && n < |states|
    requires var end := states[n];
             i in end.nodes && j in end.nodes && Precedes(At(end.nodes[j].r), At(end.nodes[i].r))
    ensures var end := states[n];
            var q := end.nodes[j];
            && Serve(i, end.nodes[i], At(q.r)) != {}
            && forall m :: m in Serve(i, end.nodes[i], At(q.r)) ==> Precedes(At(q.r), At(Handle(j, q, m).node.r))
  {
    hide Execution, Sound, Inv;
    RunKeeps(states, run, n);
    var end := states[n];
    InvOfNode(end, i);
    InvOfNode(end, j);
    hide LogOk, VotesOk, RoundOk, RoleOk, LocalOk, CampaignBinds, VotersOf, Serve, Handle, Faithful, Precedes;
    var server, q := end.nodes[i], end.nodes[j];
    IsFaithful(end, q);
    IsRebuilt(end, q);
    NextIsServed(end, i, server, q.r);
    forall m | m in Serve(i, server, At(q.r)) ensures Precedes(At(q.r), At(Handle(j, q, m).node.r)) {
      HandledAnswerMovesOn(i, server, j, q, m);
    }
  }

  /** What a replica behind another lacks next is in the agreed log. */
  lemma BehindHasNext(genesis: Members, log: Log, q: Progress, r: Progress)
    requires Faithful(genesis, log, q) && Faithful(genesis, log, r) && Precedes(At(q), At(r))
    ensures At(q) in log
  {
    var q', r' := Canonical(genesis, log, q), Canonical(genesis, log, r);
    var n: nat :| Replay(genesis, log, n) == q';
    var m: nat :| Replay(genesis, log, m) == r';
    if At(q) !in log {
      if n <= m { StuckReplay(genesis, log, n, m); } else { ReplayMovesOn(genesis, log, m, n); }
    }
  }

  /** The agreed commands from place `p` on up to `goal`. */
  function Missing(log: Log, p: Pos, goal: Pos): set<Pos> {
    set x | x in log && !Precedes(x, p) && Precedes(x, goal)
  }

  lemma MissingShrinks(log: Log, p: Pos, q: Pos, goal: Pos)
    requires p in log && Precedes(p, q) && Precedes(p, goal)
    ensures |Missing(log, q, goal)| < |Missing(log, p, goal)|
  {
    var small, big := Missing(log, q, goal), Missing(log, p, goal);
    assert small <= big - {p};
    Cardinality(small, big - {p});
  }

  /** At the `k`th happening node `j`, still before `goal`, handles an answer that some node gave, now or
      earlier, for the place where `j` stands. */
  ghost predicate TakesAnswer(states: seq<Cluster>, run: Run, k: nat, j: NodeId, goal: Pos)
    requires |states| == |run| + 1 && k < |run|
  {
    && run[k].id == j && run[k].event.Receive? && j in states[k].nodes
    && Precedes(At(states[k].nodes[j].r), goal)
    && exists x: nat, i ::
         x <= k && i in states[x].nodes && run[k].event.m in Serve(i, states[x].nodes[i], At(states[k].nodes[j].r))
  }

  /** Some moments of a run, in order, at which `j` takes an answer. */
  ghost predicate Rounds(states: seq<Cluster>, run: Run, ks: seq<nat>, j: NodeId, goal: Pos)
    requires |states| == |run| + 1
  {
    && (forall t :: 0 <= t < |ks| ==> ks[t] < |run| && TakesAnswer(states, run, ks[t], j, goal))
    && (forall t :: 0 <= t < |ks| - 1 ==> ks[t] < ks[t + 1])
  }

  /** Catching up ends: whatever else happens meanwhile, a node takes no more answers before it reaches a
      place some node stood at than there are agreed commands from its own place up to that one. */
  lemma {:induction false} CatchUpEnds(states: seq<Cluster>, run: Run, ks: seq<nat>, j: NodeId, a: nat, i: NodeId)
    requires Execution(states, run) && Sound(states, run)
    requires a < |states| && i in states[a].nodes && ks != []
    requires Rounds(states, run, ks, j, At(states[a].nodes[i].r))
    ensures |ks| <= |Missing(states[|run|].log, At(states[ks[0]].nodes[j].r), At(states[a].nodes[i].r))|
    decreases |ks|
  {
    RunIsTrace(states, run);
    hide Execution, Sound, Initial, TakesAnswer, Missing, Serve, Precedes, Moves;
    var log, goal := states[|run|].log, At(states[a].nodes[i].r);
    assert TakesAnswer(states, run, ks[0], j, goal);
    AnswerTakenMovesOn(states, run, ks[0], j, goal);
    TakerIsBehind(states, run, ks[0], j, goal);
    NextIsAgreed(states, run, ks[0], j, a, i);
    var p, p' := At(states[ks[0]].nodes[j].r), At(states[ks[0] + 1].nodes[j].r);
    MissingShrinks(log, p, p', goal);
    if |ks| > 1 {
      var rest := ks[1..];
      assert rest[0] == ks[1] && Rounds(states, run, rest, j, goal);
      CatchUpEnds(states, run, rest, j, a, i);
      PlaceNeverGoesBack(states, run, j, ks[0] + 1, ks[1]);
      MissingLess(log, p', At(states[ks[1]].nodes[j].r), goal);
    }
  }

  lemma MissingLess(log: Log, p: Pos, q: Pos, goal: Pos)
    requires !Precedes(q, p)
    ensures |Missing(log, q, goal)| <= |Missing(log, p, goal)|
  {
    Cardinality(Missing(log, q, goal), Missing(log, p, goal));
  }

  lemma TakerIsBehind(states: seq<Cluster>, run: Run, k: nat, j: NodeId, goal: Pos)
    requires |states| == |run| + 1 && k < |run| && TakesAnswer(states, run, k, j, goal)
    ensures j in states[k].nodes && Precedes(At(states[k].nodes[j].r), goal)
  {
  }

  lemma AnswerTakenMovesOn(states: seq<Cluster>, run: Run, k: nat, j: NodeId, goal: Pos)
    requires Execution(states, run) && k < |run| && TakesAnswer(states, run, k, j, goal)
    ensures j in states[k].nodes && j in states[k + 1].nodes
    ensures Precedes(At(states[k].nodes[j].r), At(states[k + 1].nodes[j].r))
  {
    hide Initial, LocalInv, Serve, Handle, Precedes, Rebuilt, Bound, PostOk, VotesOk, LocalOk, CampaignBinds;
    RunLocally(states, run, k);
    LocalOfNode(states[k], j);
    assert Moves(states, run, k);
    var x: nat, i :| x <= k && i in states[x].nodes
                     && run[k].event.m in Serve(i, states[x].nodes[i], At(states[k].nodes[j].r));
    HandledAnswerMovesOn(i, states[x].nodes[i], j, states[k].nodes[j], run[k].event.m);
  }

  /** The next command of a node that is behind a place once stood at is agreed on in the end. */
  lemma NextIsAgreed(states: seq<Cluster>, run: Run, k: nat, j: NodeId, a: nat, i: NodeId)
    requires Execution(states, run) && Sound(states, run) && k < |states| && a < |states|
    requires j in states[k].nodes && i in states[a].nodes
    requires Precedes(At(states[k].nodes[j].r), At(states[a].nodes[i].r))
    ensures At(states[k].nodes[j].r) in states[|run|].log
  {
    RunIsTrace(states, run);
    hide Execution, Sound, Trace, Faithful;
    RunGrows(states, run, k, |run|);
    RunGrows(states, run, a, |run|);
    var end := states[|run|];
    BothOnTheLog(states, run, k, j, |run|, j);
    BothOnTheLog(states, run, a, i, |run|, i);
    BehindHasNext(end.genesis, end.log, states[k].nodes[j].r, states[a].nodes[i].r);
  }

  lemma IsFaithful(cl: Cluster, nd: Node)
    requires LogOk(cl, nd)
    ensures Faithful(cl.genesis, cl.log, nd.r)
  {
  }

  lemma IsRebuilt(cl: Cluster, nd: Node)
    requires LogOk(cl, nd)
    ensures Rebuilt(nd)
  {
    hide Advance, Faithful, Loaded;
  }
}
