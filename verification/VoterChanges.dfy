/** Changing who votes (app/consensus/voters.py): every caller builds its change from the voters it
    sees, any number of callers at once; the epochs that result are one change apart. */
module VoterChanges {
  import opened Ballots
  import opened StateMachines
  import opened Replays
  import opened Histories
  import opened Proposals
  import opened Nodes
  import opened Clusters
  import opened Invariants
  import opened Steps
  import opened Safety
  import opened Origins

  /** `Join` is done once the id votes, `Move` once it votes under that address. */
  datatype Change = Join(id: NodeId, address: string) | Move(id: NodeId, address: string) | Leave(id: NodeId)

  predicate Done(m: Members, ch: Change) {
    match ch
    case Join(id, _) => id in m
    case Move(id, address) => id in m && m[id] == address
    case Leave(id) => id !in m
  }

  /** The voters a caller asks for, if it asks: not when done, not without voters, never for none. */
  function Changed(m: Members, ch: Change): Option<Members> {
    if Done(m, ch) || m == map[] || (ch.Leave? && |m| <= 1) then None
    else match ch
      case Join(id, address) => Some(m[id := address])
      case Move(id, address) => Some(m[id := address])
      case Leave(id) => Some(m - {id})
  }

  /** Everyone but `id` votes under the address it had, or still does not vote. */
  ghost predicate OthersStay(m: Members, m': Members, id: NodeId) {
    forall x :: x != id ==> (x in m' <==> x in m) && (x in m ==> m'[x] == m[x])
  }

  /** What the voters are after the change `ch`, said without building them. */
  ghost predicate Meets(m: Members, ch: Change, m': Members) {
    && OthersStay(m, m', ch.id)
    && match ch
       case Join(id, address) => id !in m && id in m' && m'[id] == address
       case Move(id, address) => (id in m ==> m[id] != address) && id in m' && m'[id] == address
       case Leave(id) => id in m && id !in m' && m' != map[]
  }

  /** A request asks for exactly what its change means, and none is made exactly when the change is
      already there, nobody votes, or the last voter would leave. */
  lemma RequestsMeetTheirChange(m: Members, ch: Change, m': Members)
    ensures Changed(m, ch) == Some(m') <==> m != map[] && Meets(m, ch, m')
    ensures Changed(m, ch) == None <==>
            || m == map[]
            || (ch.Join? && ch.id in m) || (ch.Move? && ch.id in m && m[ch.id] == ch.address)
            || (ch.Leave? && (ch.id !in m || forall x :: x in m ==> x == ch.id))
  {
    OneVoter(m, ch.id);
    if m != map[] && Meets(m, ch, m') {
      match ch {
        case Join(id, address) => assert m' == m[id := address];
        case Move(id, address) => assert m' == m[id := address];
        case Leave(id) => assert m' == m - {id};
      }
    }
  }

  /** Taking one voter out leaves nobody exactly when it is the only one. */
  lemma OneVoter(m: Members, id: NodeId)
    ensures id in m ==> (|m| <= 1 <==> forall x :: x in m ==> x == id)
    ensures id in m ==> (m - {id} == map[] <==> |m| <= 1)
  {
    if id in m {
      assert |(m - {id}).Keys| == |m.Keys - {id}|;
      assert |m.Keys| == |m|;
      if |m| <= 1 {
        forall x | x in m ensures x == id { SameElement(m.Keys, x, id); }
      }
      if forall x :: x in m ==> x == id {
        assert m.Keys == {id};
      }
    }
  }

  lemma SameElement(s: set<NodeId>, x: NodeId, y: NodeId)
    requires |s| <= 1 && x in s && y in s
    ensures x == y
  {
    if x != y {
      Cardinality({x, y}, s);
    }
  }

  /** The voters differ by one caller's change. */
  ghost predicate OneChange(m: Members, m': Members) {
    m != map[] && exists ch :: Meets(m, ch, m')
  }

  predicate IsReconfigure(c: Command) {
    c.Command? && c.payload.Reconfigure?
  }

  /** A request built at a replica standing at `r`: the epoch and the voters are the ones it sees. */
  ghost predicate BuiltFrom(r: Progress, c: Command) {
    IsReconfigure(c) && c.payload.epoch == r.epoch && exists ch :: Changed(r.members, ch) == Some(c.payload.members)
  }

  ghost predicate BuiltSomewhere(cl: Cluster, c: Command) {
    exists i :: i in cl.nodes && BuiltFrom(cl.nodes[i].r, c)
  }

  /** A voter change is offered only after some node built it; it may travel as long as it likes. */
  ghost predicate OffersBuilt(states: seq<Cluster>, run: Run)
    requires |states| == |run| + 1
  {
    forall k :: 0 <= k < |run| && run[k].event.Offer? && IsReconfigure(run[k].event.c) ==>
      BuiltBefore(states, run[k].event.c, k)
  }

  ghost predicate BuiltBefore(states: seq<Cluster>, c: Command, k: nat)
    requires k < |states|
  {
    exists j :: 0 <= j <= k && BuiltSomewhere(states[j], c)
  }

  /** Voter changes that are one change away from the voters of the epoch they name. */
  ghost function Chained(genesis: Members, log: Log): Asked {
    iset c | IsReconfigure(c) ==>
               && c.payload.epoch >= 0 && Opened(genesis, log, c.payload.epoch)
               && OneChange(MembersOf(genesis, log, c.payload.epoch), c.payload.members)
  }

  lemma MembersAre(genesis: Members, log: Log, n: nat)
    ensures var r := Replay(genesis, log, n);
            Opened(genesis, log, r.epoch) && MembersOf(genesis, log, r.epoch) == r.members
  {
    var r := Replay(genesis, log, n);
    var m: nat :| Replay(genesis, log, m).epoch == r.epoch
                  && MembersOf(genesis, log, r.epoch) == Replay(genesis, log, m).members;
    PlaceDeterminesState(genesis, log, r, Replay(genesis, log, m));
  }

  lemma MembersKept(genesis: Members, log: Log, log': Log, e: nat)
    requires Extends(log', log) && Opened(genesis, log, e)
    ensures Opened(genesis, log', e) && MembersOf(genesis, log', e) == MembersOf(genesis, log, e)
  {
    var n: nat :| Replay(genesis, log, n).epoch == e;
    MembersAre(genesis, log, n);
    ReplayKept(genesis, log, log', n);
    var m: nat :| Replay(genesis, log', m) == Replay(genesis, log, n);
    MembersAre(genesis, log', m);
  }

  lemma ChainedGrows(genesis: Members, log: Log, log': Log)
    requires Extends(log', log)
    ensures Chained(genesis, log) <= Chained(genesis, log')
  {
    hide OneChange;
    forall c | c in Chained(genesis, log) ensures c in Chained(genesis, log') {
      if IsReconfigure(c) {
        MembersKept(genesis, log, log', c.payload.epoch);
      }
    }
  }

  /** What a node builds is chained: it sees the voters of its epoch, or none and then builds nothing. */
  lemma BuiltIsChained(cl: Cluster, c: Command)
    requires Inv(cl) && BuiltSomewhere(cl, c)
    ensures c in Chained(cl.genesis, cl.log)
  {
    var i :| i in cl.nodes && BuiltFrom(cl.nodes[i].r, c);
    InvOfNode(cl, i);
    hide Inv;
    BuiltBy(cl.genesis, cl.log, cl.nodes[i].r, c);
  }

  lemma BuiltBy(genesis: Members, log: Log, r: Progress, c: Command)
    requires Faithful(genesis, log, r) && BuiltFrom(r, c)
    ensures c in Chained(genesis, log)
  {
    var ch :| Changed(r.members, ch) == Some(c.payload.members);
    RequestsMeetTheirChange(r.members, ch, c.payload.members);
    var n: nat :| Replay(genesis, log, n) == r;
    MembersAre(genesis, log, n);
  }

  lemma {:induction false} RunIsChained(states: seq<Cluster>, run: Run, n: nat)
    requires Execution(states, run) && Sound(states, run) && OffersBuilt(states, run) && n < |states|
    ensures AllAsked(states[n], Chained(states[n].genesis, states[n].log))
  {
    hide Inv, Step, AllAsked, Enabled, CountsSound, OffersBuilt, Extends, Chained, Initial, OffersOnly, Sound;
    if n == 0 {
      StartAsked(states[0], Chained(states[0].genesis, states[0].log));
    } else {
      var cl, next, h := states[n - 1], states[n], run[n - 1];
      OfferIsChained(states, run, n - 1);
      RunIsChained(states, run, n - 1);
      assert Moves(states, run, n - 1);
      RunGrows(states, run, n - 1, n);
      StepAsked(cl, h, Chained(cl.genesis, cl.log));
      ChainedGrows(cl.genesis, cl.log, next.log);
      AskedGrows(next, Chained(cl.genesis, cl.log), Chained(next.genesis, next.log));
    }
  }

  lemma AskedGrows(cl: Cluster, asked: Asked, asked': Asked)
    requires AllAsked(cl, asked) && asked <= asked'
    ensures AllAsked(cl, asked')
  {
    forall m | MessageAsked(m, asked) ensures MessageAsked(m, asked') {
    }
    forall id | id in cl.nodes ensures NodeAsked(cl.nodes[id], asked') {
      assert NodeAsked(cl.nodes[id], asked);
      hide Joined, LedgerOf, MessageAsked;
    }
  }

  lemma DecidedAsked(cl: Cluster, asked: Asked)
    requires AllAsked(cl, asked)
    ensures forall p :: p in cl.log ==> cl.log[p] == Noop || cl.log[p] in asked
  {
    hide NodeAsked, MessagesAsked;
  }

  lemma OfferIsChained(states: seq<Cluster>, run: Run, k: nat)
    requires Execution(states, run) && Sound(states, run) && OffersBuilt(states, run) && k < |run|
    ensures OffersOnly(run[k], Chained(states[k].genesis, states[k].log))
  {
    hide Inv, Initial, Moves, Extends, OneChange, BuiltSomewhere;
    if run[k].event.Offer? {
      var c := run[k].event.c;
      if IsReconfigure(c) {
        assert BuiltBefore(states, c, k);
        var j :| 0 <= j <= k && BuiltSomewhere(states[j], c);
        RunKeeps(states, run, j);
        RunGrows(states, run, j, k);
        BuiltIsChained(states[j], c);
        ChainedGrows(states[j].genesis, states[j].log, states[k].log);
      }
    }
  }

  /** The command that opened epoch `e + 1`. */
  lemma {:induction false} OpenedBy(genesis: Members, log: Log, n: nat, e: nat) returns (k: nat)
    requires Replay(genesis, log, n).epoch == e + 1
    ensures var r := Replay(genesis, log, k);
            && r.epoch == e && At(r) in log && IsReconfigure(log[At(r)]) && log[At(r)].payload.epoch == e
            && Replay(genesis, log, k + 1).epoch == e + 1
            && Replay(genesis, log, k + 1).members == log[At(r)].payload.members
  {
    if Replay(genesis, log, n - 1).epoch == e + 1 {
      k := OpenedBy(genesis, log, n - 1, e);
    } else {
      k := n - 1;
    }
  }

  lemma OneEpochOn(genesis: Members, log: Log, e: nat)
    requires forall p :: p in log ==> log[p] == Noop || log[p] in Chained(genesis, log)
    requires Opened(genesis, log, e + 1)
    ensures Opened(genesis, log, e)
    ensures OneChange(MembersOf(genesis, log, e), MembersOf(genesis, log, e + 1))
  {
    var n: nat :| Replay(genesis, log, n).epoch == e + 1;
    var k := OpenedBy(genesis, log, n, e);
    MembersAre(genesis, log, k);
    MembersAre(genesis, log, k + 1);
    hide OneChange;
    var c := log[At(Replay(genesis, log, k))];
    assert c in Chained(genesis, log);
  }

  lemma {:induction false} NeverWithoutVoters(genesis: Members, log: Log, e: nat)
    requires forall p :: p in log ==> log[p] == Noop || log[p] in Chained(genesis, log)
    requires genesis != map[] && Opened(genesis, log, e)
    ensures MembersOf(genesis, log, e) != map[]
  {
    if e == 0 {
      MembersAre(genesis, log, 0);
    } else {
      OneEpochOn(genesis, log, e - 1);
      SomeoneStays(MembersOf(genesis, log, e - 1), MembersOf(genesis, log, e));
    }
  }

  lemma SomeoneStays(m: Members, m': Members)
    requires OneChange(m, m')
    ensures m' != map[]
  {
    var ch :| Meets(m, ch, m');
    assert ch.Leave? || ch.id in m';
  }

  /** Voter changes compose: whatever concurrent requests, every epoch's voters are the previous
      epoch's with exactly one caller's change applied (everyone else keeps vote and address), and no
      epoch is left without voters. */
  lemma VotersCompose(states: seq<Cluster>, run: Run, n: nat, e: nat)
    requires Execution(states, run) && Sound(states, run) && OffersBuilt(states, run) && n < |states|
    requires Opened(states[n].genesis, states[n].log, e)
    ensures e > 0 ==> Opened(states[n].genesis, states[n].log, e - 1)
                      && OneChange(MembersOf(states[n].genesis, states[n].log, e - 1), MembersOf(states[n].genesis, states[n].log, e))
    ensures states[0].genesis != map[] ==> MembersOf(states[n].genesis, states[n].log, e) != map[]
  {
    hide *;
    var end := states[n];
    RunKeeps(states, run, n);
    RunIsChained(states, run, n);
    DecidedAsked(end, Chained(end.genesis, end.log));
    if e > 0 {
      OneEpochOn(end.genesis, end.log, e - 1);
    }
    if end.genesis != map[] {
      NeverWithoutVoters(end.genesis, end.log, e);
    }
  }
}
