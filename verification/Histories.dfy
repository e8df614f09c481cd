/** The one log a cluster agrees on, replayed from the first voters: every state along it, the
    voters of every epoch it opens, and why a longer log changes none of them. */
module Histories {
  import opened Ballots
  import opened StateMachines
  import opened Replays

  /** The state after the first `n` commands of the log (or after all of them, if fewer follow on). */
  ghost function Replay(genesis: Members, log: Log, n: nat): Progress {
    if n == 0 then Genesis(genesis)
    else
      var r := Replay(genesis, log, n - 1);
      if At(r) in log then ApplyChosen(r, log[At(r)]) else r
  }

  /** `r` is one of the states along the log. */
  ghost predicate Reached(genesis: Members, log: Log, r: Progress) {
    exists n: nat :: Replay(genesis, log, n) == r
  }

  /** What a node may hold: a state along the log, except that a node started without the first
      voters knows no members while it is in epoch 0. */
  ghost predicate Faithful(genesis: Members, log: Log, r: Progress) {
    Reached(genesis, log, r)
    || (r.epoch == 0 && r.members == map[] && Reached(genesis, log, r.(members := genesis)))
  }

  ghost predicate Opened(genesis: Members, log: Log, e: nat) {
    exists n: nat :: Replay(genesis, log, n).epoch == e
  }

  ghost function MembersOf(genesis: Members, log: Log, e: nat): Members
    requires Opened(genesis, log, e)
  {
    var n: nat :| Replay(genesis, log, n).epoch == e;
    Replay(genesis, log, n).members
  }

  /** The voters of every epoch the log has opened. */
  ghost function Voters(genesis: Members, log: Log): imap<nat, set<NodeId>> {
    imap e: nat | Opened(genesis, log, e) :: MembersOf(genesis, log, e).Keys
  }

  lemma {:induction false} ReplayMovesOn(genesis: Members, log: Log, n: nat, m: nat)
    requires n <= m
    ensures var r, r' := Replay(genesis, log, n), Replay(genesis, log, m);
            && !Precedes(At(r'), At(r))
            && (At(r) == At(r') ==> r == r')
            && (r.epoch == r'.epoch ==> r.members == r'.members)
            && (forall e :: e in r.stops && e < r.epoch ==> e in r'.stops && r'.stops[e] == r.stops[e])
    decreases m - n
  {
    if n < m {
      ReplayMovesOn(genesis, log, n, m - 1);
      var r := Replay(genesis, log, m - 1);
      if At(r) !in log {
        assert Replay(genesis, log, m) == r;
      }
    }
  }

  lemma {:induction false} StuckReplay(genesis: Members, log: Log, n: nat, m: nat)
    requires n <= m && At(Replay(genesis, log, n)) !in log
    ensures Replay(genesis, log, m) == Replay(genesis, log, n)
    decreases m
  {
    if n < m {
      StuckReplay(genesis, log, n, m - 1);
    }
  }

  /** Replicated determinism: a place in the log has one state. */
  lemma PlaceDeterminesState(genesis: Members, log: Log, r: Progress, r': Progress)
    requires Reached(genesis, log, r) && Reached(genesis, log, r')
    ensures At(r) == At(r') ==> r == r'
    ensures r.epoch == r'.epoch ==> r.members == r'.members
  {
    var n: nat :| Replay(genesis, log, n) == r;
    var m: nat :| Replay(genesis, log, m) == r';
    if n <= m {
      ReplayMovesOn(genesis, log, n, m);
    } else {
      ReplayMovesOn(genesis, log, m, n);
    }
  }

  lemma VotersAreTheMembers(genesis: Members, log: Log, r: Progress)
    requires Reached(genesis, log, r)
    ensures Opened(genesis, log, r.epoch)
    ensures Voters(genesis, log)[r.epoch] == r.members.Keys
  {
    var n: nat :| Replay(genesis, log, n) == r;
    var m: nat :| Replay(genesis, log, m).epoch == r.epoch
                  && MembersOf(genesis, log, r.epoch) == Replay(genesis, log, m).members;
    PlaceDeterminesState(genesis, log, r, Replay(genesis, log, m));
  }

  /** A longer log keeps every state of a shorter one. */
  lemma {:induction false} ReplayKept(genesis: Members, log: Log, log': Log, n: nat)
    requires Extends(log', log)
    ensures exists m: nat :: Replay(genesis, log', m) == Replay(genesis, log, n)
  {
    if n == 0 {
      assert Replay(genesis, log', 0) == Replay(genesis, log, 0);
    } else {
      ReplayKept(genesis, log, log', n - 1);
      var m: nat :| Replay(genesis, log', m) == Replay(genesis, log, n - 1);
      var r := Replay(genesis, log, n - 1);
      if At(r) in log {
        assert Replay(genesis, log', m + 1) == Replay(genesis, log, n);
      }
    }
  }

  lemma FaithfulKept(genesis: Members, log: Log, log': Log, r: Progress)
    requires Extends(log', log) && Faithful(genesis, log, r)
    ensures Faithful(genesis, log', r)
  {
    if Reached(genesis, log, r) {
      var n: nat :| Replay(genesis, log, n) == r;
      ReplayKept(genesis, log, log', n);
    } else {
      var n: nat :| Replay(genesis, log, n) == r.(members := genesis);
      ReplayKept(genesis, log, log', n);
    }
  }

  lemma VotersKept(genesis: Members, log: Log, log': Log)
    requires Extends(log', log)
    ensures var V, V' := Voters(genesis, log), Voters(genesis, log');
            forall e: nat :: e in V ==> e in V' && V'[e] == V[e]
  {
    var V, V' := Voters(genesis, log), Voters(genesis, log');
    forall e: nat | e in V ensures e in V' && V'[e] == V[e] {
      var n: nat :| Replay(genesis, log, n).epoch == e;
      ReplayKept(genesis, log, log', n);
      VotersAreTheMembers(genesis, log, Replay(genesis, log, n));
      VotersAreTheMembers(genesis, log', Replay(genesis, log, n));
    }
  }

  lemma ReachedStep(genesis: Members, log: Log, r: Progress)
    requires Reached(genesis, log, r) && At(r) in log
    ensures Reached(genesis, log, ApplyChosen(r, log[At(r)]))
  {
    var n: nat :| Replay(genesis, log, n) == r;
    assert Replay(genesis, log, n + 1) == ApplyChosen(r, log[At(r)]);
  }

  /** What a replica applies next only reads its members when it replaces them. */
  lemma MembersDoNotMatter(r: Progress, c: Command, members: Members)
    ensures var r', s := ApplyChosen(r, c), ApplyChosen(r.(members := members), c);
            if r'.epoch == r.epoch then s == r'.(members := members) && r'.members == r.members
            else s == r'
  {
  }

  /** Advancing over commands of the agreed log stays on it. */
  lemma {:induction false} AdvanceIsFaithful(genesis: Members, log: Log, r: Progress, chosen: Log)
    requires Extends(log, chosen) && Faithful(genesis, log, r)
    ensures Faithful(genesis, log, Advance(r, chosen))
    decreases |Ahead(chosen, At(r))|
  {
    if At(r) in chosen {
      AheadShrinks(chosen, r);
      var c := chosen[At(r)];
      if Reached(genesis, log, r) {
        ReachedStep(genesis, log, r);
      } else {
        MembersDoNotMatter(r, c, genesis);
        ReachedStep(genesis, log, r.(members := genesis));
      }
      AdvanceIsFaithful(genesis, log, ApplyChosen(r, c), chosen);
    }
  }

  lemma GenesisIsFaithful(genesis: Members, log: Log)
    ensures Faithful(genesis, log, Genesis(genesis))
    ensures Faithful(genesis, log, Genesis(map[]))
  {
    assert Replay(genesis, log, 0) == Genesis(genesis);
    assert Genesis(map[]).(members := genesis) == Genesis(genesis);
  }
}
