/** Leases on the replicated compare-and-set (app/consensus/lease.py): at no moment do two nodes both
    use one lease, however stale the copies they read, while their clocks are close enough. */
module Leases {
  import opened Ballots
  import opened StateMachines

  /** The wall clock a node shows at a moment of real time, in ticks. */
  type Clock = (NodeId, real) -> int

  /** Clocks never go back, and at any moment differ by at most a third of the lease. */
  ghost predicate Close(clock: Clock, ttl: int) {
    && (forall i, s, t :: s <= t ==> clock(i, s) <= clock(i, t))
    && (forall i, j, t :: 3 * (clock(i, t) - clock(j, t)) <= ttl)
  }

  /** The compare-and-set that takes `key` for `i`, unless the copy shows another live holder. */
  function TryAcquire(key: string, current: Value, i: NodeId, now: int, ttl: int): Option<Operation> {
    if current.Lease? && current.holder.Some? && current.holder != Some(i) && current.expires > now then None
    else Some(Cas(key, current, Lease(Some(i), now + ttl)))
  }

  /** The compare-and-set that gives the lease up, if the copy shows it as ours. */
  function Release(key: string, current: Value, i: NodeId): Option<Operation> {
    if current.Lease? && current.holder == Some(i) then Some(Cas(key, current, Lease(None, 0))) else None
  }

  /** The keeper's view: ours, with a third of the lease left. */
  predicate Holds(current: Value, i: NodeId, now: int, ttl: int) {
    current.Lease? && current.holder == Some(i) && 3 * (current.expires - now) > ttl
  }

  /** A submitted command: it may be applied at any later time, or never. */
  datatype Ask = Ask(asker: NodeId, at: real, op: Operation)

  /** `versions`: the machine after each applied command, so a copy is any of them. `given`: the expiry
      of the last lease a node has released. */
  datatype World = World(now: real, versions: seq<Machine>, asks: set<Ask>, given: map<NodeId, int>)

  datatype Event =
    | Wait(until: real)
    | Acquire(i: NodeId, copy: nat)
    | GiveUp(i: NodeId, copy: nat)
    | Decide(ask: Ask)
    | Other(op: Operation)

  function Seen(w: World, key: string, copy: nat): Value
    requires copy < |w.versions|
  {
    Get(w.versions[copy].config, key)
  }

  /** Only the lease code writes the lease's key. */
  predicate Elsewhere(op: Operation, key: string) {
    match op
    case Set(k, _) => k != key
    case Delete(k) => k != key
    case Cas(k, _, _) => k != key
    case _ => true
  }

  predicate Enabled(w: World, key: string, ev: Event) {
    match ev
    case Wait(until) => w.now <= until
    case Acquire(_, copy) => copy < |w.versions|
    case GiveUp(_, copy) => copy < |w.versions|
    case Decide(ask) => ask in w.asks && w.versions != []
    case Other(op) => Elsewhere(op, key) && w.versions != []
  }

  function Step(w: World, clock: Clock, key: string, ttl: int, ev: Event): World
    requires Enabled(w, key, ev)
  {
    match ev
    case Wait(until) => w.(now := until)
    case Acquire(i, copy) =>
      (match TryAcquire(key, Seen(w, key, copy), i, clock(i, w.now), ttl)
       case None => w
       case Some(op) => w.(asks := w.asks + {Ask(i, w.now, op)}))
    case GiveUp(i, copy) =>
      var current := Seen(w, key, copy);
      (match Release(key, current, i)
       case None => w
       case Some(op) =>
         var last := if i in w.given && w.given[i] > current.expires then w.given[i] else current.expires;
         w.(asks := w.asks + {Ask(i, w.now, op)}, given := w.given[i := last]))
    case Decide(ask) => w.(versions := w.versions + [Apply(w.versions[|w.versions| - 1], ask.op).0])
    case Other(op) => w.(versions := w.versions + [Apply(w.versions[|w.versions| - 1], op).0])
  }

  /** Node `i` acts as owner on a copy it reads: it holds the lease and has not released it. */
  predicate Uses(w: World, clock: Clock, key: string, ttl: int, i: NodeId, copy: nat) {
    && copy < |w.versions|
    && Holds(Seen(w, key, copy), i, clock(i, w.now), ttl)
    && (i in w.given ==> Seen(w, key, copy).expires > w.given[i])
  }

  /** A lease of `i` that runs to `expires` is over: released, or past by any close enough clock. */
  predicate Over(w: World, clock: Clock, ttl: int, i: NodeId, expires: int) {
    (i in w.given && expires <= w.given[i]) || 3 * (expires - clock(i, w.now)) <= ttl
  }

  /** What was true of the copy a command was submitted from. */
  predicate Fair(w: World, clock: Clock, key: string, ttl: int, ask: Ask) {
    && ask.at <= w.now && ask.op.Cas? && ask.op.key == key && !ask.op.expected.Text?
    && (if ask.op.value == Lease(None, 0) then
          ask.op.expected.Lease? && ask.op.expected.holder == Some(ask.asker)
          && ask.asker in w.given && ask.op.expected.expires <= w.given[ask.asker]
        else
          && ask.op.value == Lease(Some(ask.asker), clock(ask.asker, ask.at) + ttl)
          && (ask.op.expected.Lease? && ask.op.expected.holder.Some? ==>
                if ask.op.expected.holder == Some(ask.asker) then ask.op.expected.expires <= clock(ask.asker, ask.at) + ttl
                else ask.op.expected.expires <= clock(ask.asker, ask.at)))
  }

  predicate Held(v: Value, i: NodeId) {
    v.Lease? && v.holder == Some(i)
  }

  /** Once granted, a lease stays with its holder, never shorter, until it is over. */
  ghost predicate Inv(w: World, clock: Clock, key: string, ttl: int) {
    && w.versions != []
    && (forall ask :: ask in w.asks ==> Fair(w, clock, key, ttl, ask))
    && (forall a :: 0 <= a < |w.versions| ==>
          var v := Seen(w, key, a);
          !v.Text? && (v.Lease? && v.holder.Some? ==> v.expires <= clock(v.holder.value, w.now) + ttl))
    && (forall a, b, i {:trigger Seen(w, key, a), Seen(w, key, b), Held(Seen(w, key, a), i)} ::
          0 <= a <= b < |w.versions| && Held(Seen(w, key, a), i) ==>
          || Over(w, clock, ttl, i, Seen(w, key, a).expires)
          || (Held(Seen(w, key, b), i) && Seen(w, key, a).expires <= Seen(w, key, b).expires))
  }

  predicate Fresh(w: World, key: string) {
    |w.versions| == 1 && Seen(w, key, 0) == Null && w.asks == {} && w.given == map[]
  }

  predicate Possible(w: World, clock: Clock, key: string, ttl: int, run: seq<Event>)
    decreases |run|
  {
    run == [] || (Enabled(w, key, run[0]) && Possible(Step(w, clock, key, ttl, run[0]), clock, key, ttl, run[1..]))
  }

  function Reaches(w: World, clock: Clock, key: string, ttl: int, run: seq<Event>): World
    requires Possible(w, clock, key, ttl, run)
    decreases |run|
  {
    if run == [] then w else Reaches(Step(w, clock, key, ttl, run[0]), clock, key, ttl, run[1..])
  }

  /** What a decided command leaves at the lease's key. */
  lemma Decided(w: World, clock: Clock, key: string, ttl: int, ask: Ask)
    requires Inv(w, clock, key, ttl) && ask in w.asks
    ensures var was, v := Seen(w, key, |w.versions| - 1), Get(Apply(w.versions[|w.versions| - 1], ask.op).0.config, key);
            v == if was == ask.op.expected then ask.op.value else was
  {
    assert Fair(w, clock, key, ttl, ask);
  }

  lemma StepKeeps(w: World, clock: Clock, key: string, ttl: int, ev: Event)
    requires Close(clock, ttl) && Inv(w, clock, key, ttl) && Enabled(w, key, ev)
    ensures Inv(Step(w, clock, key, ttl, ev), clock, key, ttl)
  {
    match ev {
      case Wait(until) => WaitKeeps(w, clock, key, ttl, until);
      case Acquire(i, copy) => AcquireKeeps(w, clock, key, ttl, i, copy);
      case GiveUp(i, copy) => GiveUpKeeps(w, clock, key, ttl, i, copy);
      case Decide(ask) =>
        Decided(w, clock, key, ttl, ask);
        WriteKeeps(w, clock, key, ttl, Apply(w.versions[|w.versions| - 1], ask.op).0, Some(ask));
      case Other(op) =>
        WriteKeeps(w, clock, key, ttl, Apply(w.versions[|w.versions| - 1], op).0, None);
    }
  }

  lemma WaitKeeps(w: World, clock: Clock, key: string, ttl: int, until: real)
    requires Close(clock, ttl) && Inv(w, clock, key, ttl) && w.now <= until
    ensures Inv(w.(now := until), clock, key, ttl)
  {
    var w' := w.(now := until);
    assert forall a :: 0 <= a < |w.versions| ==> Seen(w', key, a) == Seen(w, key, a);
    assert forall i :: clock(i, w.now) <= clock(i, until);
  }

  lemma AcquireKeeps(w: World, clock: Clock, key: string, ttl: int, i: NodeId, copy: nat)
    requires Inv(w, clock, key, ttl) && copy < |w.versions|
    ensures Inv(Step(w, clock, key, ttl, Acquire(i, copy)), clock, key, ttl)
  {
    var w' := Step(w, clock, key, ttl, Acquire(i, copy));
    assert forall a :: 0 <= a < |w.versions| ==> Seen(w', key, a) == Seen(w, key, a);
    assert forall ask :: ask in w.asks ==> Fair(w, clock, key, ttl, ask);
  }

  lemma GiveUpKeeps(w: World, clock: Clock, key: string, ttl: int, i: NodeId, copy: nat)
    requires Inv(w, clock, key, ttl) && copy < |w.versions|
    ensures Inv(Step(w, clock, key, ttl, GiveUp(i, copy)), clock, key, ttl)
  {
    var w' := Step(w, clock, key, ttl, GiveUp(i, copy));
    assert forall a :: 0 <= a < |w.versions| ==> Seen(w', key, a) == Seen(w, key, a);
    assert forall ask :: ask in w.asks ==> Fair(w, clock, key, ttl, ask);
  }

  /** A new version that leaves the lease's key alone, or writes what a fair command asked for. */
  lemma WriteKeeps(w: World, clock: Clock, key: string, ttl: int, m: Machine, from: Option<Ask>)
    requires Close(clock, ttl) && Inv(w, clock, key, ttl)
    requires from.Some? ==> from.value in w.asks
    requires var was := Seen(w, key, |w.versions| - 1);
             Get(m.config, key) == if from.Some? && was == from.value.op.expected then from.value.op.value else was
    ensures Inv(w.(versions := w.versions + [m]), clock, key, ttl)
  {
    var w' := w.(versions := w.versions + [m]);
    var last := |w.versions| - 1;
    var was, v := Seen(w, key, last), Get(m.config, key);
    assert forall a :: 0 <= a <= last ==> Seen(w', key, a) == Seen(w, key, a);
    assert Seen(w', key, last + 1) == v;
    if from.Some? {
      assert Fair(w, clock, key, ttl, from.value);
      assert clock(from.value.asker, from.value.at) <= clock(from.value.asker, w.now);
    }
    forall a, i | 0 <= a <= last && Held(Seen(w, key, a), i)
      ensures Over(w', clock, ttl, i, Seen(w, key, a).expires) || (Held(v, i) && Seen(w, key, a).expires <= v.expires)
    {
      StillHeld(w, clock, key, ttl, m, from, a, i);
    }
  }

  lemma StillHeld(w: World, clock: Clock, key: string, ttl: int, m: Machine, from: Option<Ask>, a: nat, i: NodeId)
    requires Close(clock, ttl) && Inv(w, clock, key, ttl)
    requires from.Some? ==> from.value in w.asks
    requires var was := Seen(w, key, |w.versions| - 1);
             Get(m.config, key) == if from.Some? && was == from.value.op.expected then from.value.op.value else was
    requires a < |w.versions| && Held(Seen(w, key, a), i)
    ensures var v := Get(m.config, key);
            Over(w, clock, ttl, i, Seen(w, key, a).expires) || (Held(v, i) && Seen(w, key, a).expires <= v.expires)
  {
    var was := Seen(w, key, |w.versions| - 1);
    assert Over(w, clock, ttl, i, Seen(w, key, a).expires) || (Held(was, i) && Seen(w, key, a).expires <= was.expires);
    if from.Some? {
      assert Fair(w, clock, key, ttl, from.value);
      assert clock(from.value.asker, from.value.at) <= clock(from.value.asker, w.now);
      if Held(was, i) && was == from.value.op.expected && from.value.asker != i {
        assert 3 * (clock(from.value.asker, w.now) - clock(i, w.now)) <= ttl;
      }
    }
  }

  lemma {:induction false} RunKeeps(w: World, clock: Clock, key: string, ttl: int, run: seq<Event>)
    requires Close(clock, ttl) && Inv(w, clock, key, ttl) && Possible(w, clock, key, ttl, run)
    ensures Inv(Reaches(w, clock, key, ttl, run), clock, key, ttl)
    decreases |run|
  {
    hide Inv, Step, Enabled, Close;
    if run != [] {
      StepKeeps(w, clock, key, ttl, run[0]);
      RunKeeps(Step(w, clock, key, ttl, run[0]), clock, key, ttl, run[1..]);
    }
  }

  /** In every run, whatever copies they read, no two nodes use the lease at one moment. */
  lemma Exclusion(w: World, clock: Clock, key: string, ttl: int, run: seq<Event>, i: NodeId, a: nat, j: NodeId, b: nat)
    requires Close(clock, ttl) && Fresh(w, key) && Possible(w, clock, key, ttl, run)
    requires Uses(Reaches(w, clock, key, ttl, run), clock, key, ttl, i, a)
    requires Uses(Reaches(w, clock, key, ttl, run), clock, key, ttl, j, b)
    ensures i == j
  {
    RunKeeps(w, clock, key, ttl, run);
    var end := Reaches(w, clock, key, ttl, run);
    assert Held(Seen(end, key, a), i) && Held(Seen(end, key, b), j);
    assert !Over(end, clock, ttl, i, Seen(end, key, a).expires) && !Over(end, clock, ttl, j, Seen(end, key, b).expires);
  }

  // taking, renewing and giving up

  /** What the key holds now. */
  function Current(w: World, key: string): Value
    requires w.versions != []
  {
    Seen(w, key, |w.versions| - 1)
  }

  /** Free, over by the clock of `i`, or its own. */
  predicate MayTake(v: Value, i: NodeId, now: int) {
    !v.Lease? || v.holder == None || v.holder == Some(i) || v.expires <= now
  }

  /** The command a node submits to hold `key` for one lease from now. */
  function Claim(w: World, clock: Clock, key: string, ttl: int, i: NodeId, current: Value): Ask {
    Ask(i, w.now, Cas(key, current, Lease(Some(i), clock(i, w.now) + ttl)))
  }

  /** A node asks for a lease exactly when its copy shows it free, over or its own, and then for one full
      lease from its clock's time on. */
  lemma AsksExactlyWhenItMay(w: World, clock: Clock, key: string, ttl: int, i: NodeId, copy: nat)
    requires copy < |w.versions|
    ensures var v := Seen(w, key, copy);
            Step(w, clock, key, ttl, Acquire(i, copy))
            == if MayTake(v, i, clock(i, w.now)) then w.(asks := w.asks + {Claim(w, clock, key, ttl, i, v)}) else w
  {
  }

  /** Asks are never withdrawn, and no version is. */
  lemma {:induction false} AsksWait(w: World, clock: Clock, key: string, ttl: int, run: seq<Event>)
    requires Possible(w, clock, key, ttl, run)
    ensures var end := Reaches(w, clock, key, ttl, run); w.asks <= end.asks && |w.versions| <= |end.versions|
    decreases |run|
  {
    hide TryAcquire, Release, Apply, Seen;
    if run != [] {
      AsksWait(Step(w, clock, key, ttl, run[0]), clock, key, ttl, run[1..]);
    }
  }

  /** A decided command whose expected value is still there puts its own there; any other changes nothing. */
  lemma DecidesByValue(w: World, clock: Clock, key: string, ttl: int, ask: Ask)
    requires Enabled(w, key, Decide(ask)) && ask.op.Cas? && ask.op.key == key
    ensures var w' := Step(w, clock, key, ttl, Decide(ask));
            && w'.versions != [] && w'.now == w.now
            && Current(w', key) == if Current(w, key) == ask.op.expected then ask.op.value else Current(w, key)
  {
  }

  /** Taken or renewed: a node that asks on the newest copy, whose ask is decided before anyone else writes
      the key, has the lease with the expiry it asked for, and may use it, as far as nobody writes the key
      again, exactly until two thirds of the lease have passed on its clock since it asked. */
  lemma AcquiredIsHeld(w: World, clock: Clock, key: string, ttl: int, i: NodeId, before: seq<Event>, after: seq<Event>)
    requires w.versions != [] && MayTake(Current(w, key), i, clock(i, w.now))
    requires var w1 := Step(w, clock, key, ttl, Acquire(i, |w.versions| - 1));
             && Possible(w1, clock, key, ttl, before)
             && var mid, ask := Reaches(w1, clock, key, ttl, before), Claim(w, clock, key, ttl, i, Current(w, key));
                && mid.versions != [] && Current(mid, key) == Current(w, key)
                && (ask in mid.asks ==>
                      && var w2 := Step(mid, clock, key, ttl, Decide(ask));
                         && Possible(w2, clock, key, ttl, after) && w2.versions != []
                         && Reaches(w2, clock, key, ttl, after).versions != []
                         && Current(Reaches(w2, clock, key, ttl, after), key) == Current(w2, key))
    ensures var mid := Reaches(Step(w, clock, key, ttl, Acquire(i, |w.versions| - 1)), clock, key, ttl, before);
            var ask := Claim(w, clock, key, ttl, i, Current(w, key));
            && ask in mid.asks
            && var end := Reaches(Step(mid, clock, key, ttl, Decide(ask)), clock, key, ttl, after);
               && Current(end, key) == Lease(Some(i), clock(i, w.now) + ttl)
               && (Holds(Current(end, key), i, clock(i, end.now), ttl)
                   <==> 3 * (clock(i, end.now) - clock(i, w.now)) < 2 * ttl)
  {
    var w1, ask := Step(w, clock, key, ttl, Acquire(i, |w.versions| - 1)), Claim(w, clock, key, ttl, i, Current(w, key));
    var mid := Reaches(w1, clock, key, ttl, before);
    AsksExactlyWhenItMay(w, clock, key, ttl, i, |w.versions| - 1);
    AsksWait(w1, clock, key, ttl, before);
    hide Step, Reaches, Possible, Seen;
    DecidesByValue(mid, clock, key, ttl, ask);
  }

  /** Renewal: the holder of a live lease that asks again gets a full lease from then on. */
  lemma OwnLeaseIsRenewed(w: World, clock: Clock, key: string, ttl: int, i: NodeId, expires: int)
    requires w.versions != [] && Current(w, key) == Lease(Some(i), expires) && expires > clock(i, w.now)
    ensures var ask := Claim(w, clock, key, ttl, i, Current(w, key));
            var w1 := Step(w, clock, key, ttl, Acquire(i, |w.versions| - 1));
            && ask in w1.asks && w1.versions == w.versions
            && var w2 := Step(w1, clock, key, ttl, Decide(ask));
               && w2.versions != [] && Current(w2, key) == Lease(Some(i), clock(i, w.now) + ttl)
               && (ttl > 0 ==> Holds(Current(w2, key), i, clock(i, w.now), ttl))
  {
    AsksExactlyWhenItMay(w, clock, key, ttl, i, |w.versions| - 1);
    var w1 := Step(w, clock, key, ttl, Acquire(i, |w.versions| - 1));
    DecidesByValue(w1, clock, key, ttl, Claim(w, clock, key, ttl, i, Current(w, key)));
  }

  /** Given up: a node gives a lease up exactly when its copy shows it as its own, and once that is decided
      before anyone else writes the key, nobody holds the lease and anybody may take it. */
  lemma ReleasedIsFree(w: World, clock: Clock, key: string, ttl: int, i: NodeId, before: seq<Event>)
    requires w.versions != []
    requires var w1 := Step(w, clock, key, ttl, GiveUp(i, |w.versions| - 1));
             && Possible(w1, clock, key, ttl, before)
             && var mid := Reaches(w1, clock, key, ttl, before);
                mid.versions != [] && Current(mid, key) == Current(w, key)
    ensures var v := Current(w, key);
            var w1, ask := Step(w, clock, key, ttl, GiveUp(i, |w.versions| - 1)), Ask(i, w.now, Cas(key, v, Lease(None, 0)));
            if !(v.Lease? && v.holder == Some(i)) then w1 == w
            else
              && i in w1.given && v.expires <= w1.given[i]
              && var mid := Reaches(w1, clock, key, ttl, before);
                 && ask in mid.asks
                 && var end := Step(mid, clock, key, ttl, Decide(ask));
                    && end.versions != []
                    && forall j :: MayTake(Current(end, key), j, clock(j, end.now))
                                   && !Holds(Current(end, key), j, clock(j, end.now), ttl)
  {
    var v := Current(w, key);
    var w1 := Step(w, clock, key, ttl, GiveUp(i, |w.versions| - 1));
    AsksWait(w1, clock, key, ttl, before);
    if v.Lease? && v.holder == Some(i) {
      var mid, ask := Reaches(w1, clock, key, ttl, before), Ask(i, w.now, Cas(key, v, Lease(None, 0)));
      assert ask in w1.asks;
      hide Step, Reaches, Possible, Seen;
      DecidesByValue(mid, clock, key, ttl, ask);
    }
  }

  // the bound on the clocks is exact

  /** One clock runs `skew` ahead of the other. */
  function Ahead(skew: int): Clock {
    (i: NodeId, t: real) => if i == "j" then t.Floor + skew else t.Floor
  }

  /** One node is granted the lease and another, its clock ahead, finds it expired and is granted it too. */
  lemma Overlap(key: string, ttl: int, skew: int)
    returns (ws: seq<World>, first: Ask, later: real, second: Ask)
    requires ttl > 0 && 3 * skew > ttl
    ensures |ws| == 6 && Fresh(ws[0], key)
    ensures var clock := Ahead(skew);
            && Moved(ws[0], clock, key, ttl, Acquire("i", 0), ws[1]) && Moved(ws[1], clock, key, ttl, Decide(first), ws[2])
            && Moved(ws[2], clock, key, ttl, Wait(later), ws[3]) && Moved(ws[3], clock, key, ttl, Acquire("j", 1), ws[4])
            && Moved(ws[4], clock, key, ttl, Decide(second), ws[5])
            && Uses(ws[5], clock, key, ttl, "i", 1) && Uses(ws[5], clock, key, ttl, "j", 2)
  {
    later := if skew < ttl then (ttl - skew) as real else 0.0;
    assert later.Floor == if skew < ttl then ttl - skew else 0;
    var mine, theirs := Lease(Some("i"), ttl), Lease(Some("j"), later.Floor + skew + ttl);
    first, second := Ask("i", 0.0, Cas(key, Null, mine)), Ask("j", later, Cas(key, mine, theirs));
    var m1, m2 := Machine(map[key := mine], map[]), Machine(map[key := theirs], map[]);
    assert Apply(EMPTY, first.op).0 == m1 && Apply(m1, second.op).0 == m2 by {
      assert map[key := mine][key := theirs] == map[key := theirs];
    }
    ws := [World(0.0, [EMPTY], {}, map[]), World(0.0, [EMPTY], {first}, map[]), World(0.0, [EMPTY, m1], {first}, map[]),
           World(later, [EMPTY, m1], {first}, map[]), World(later, [EMPTY, m1], {first, second}, map[]),
           World(later, [EMPTY, m1, m2], {first, second}, map[])];
  }

  predicate Moved(w: World, clock: Clock, key: string, ttl: int, ev: Event, w': World) {
    Enabled(w, key, ev) && Step(w, clock, key, ttl, ev) == w'
  }

  /** With any larger difference between two clocks there is a run in which both use the lease. */
  lemma MarginIsNeeded(key: string, ttl: int, skew: int)
    requires ttl > 0 && 3 * skew > ttl
    ensures exists w, run ::
              && Fresh(w, key) && Possible(w, Ahead(skew), key, ttl, run)
              && Uses(Reaches(w, Ahead(skew), key, ttl, run), Ahead(skew), key, ttl, "i", 1)
              && Uses(Reaches(w, Ahead(skew), key, ttl, run), Ahead(skew), key, ttl, "j", 2)
  {
    hide Fresh, Uses, Step, Enabled, Ahead;
    var clock := Ahead(skew);
    var ws, first, later, second := Overlap(key, ttl, skew);
    Joined(ws[4], clock, key, ttl, Decide(second), [], ws[5]);
    Joined(ws[3], clock, key, ttl, Acquire("j", 1), [Decide(second)], ws[5]);
    Joined(ws[2], clock, key, ttl, Wait(later), [Acquire("j", 1), Decide(second)], ws[5]);
    Joined(ws[1], clock, key, ttl, Decide(first), [Wait(later), Acquire("j", 1), Decide(second)], ws[5]);
    var rest := [Decide(first), Wait(later), Acquire("j", 1), Decide(second)];
    Joined(ws[0], clock, key, ttl, Acquire("i", 0), rest, ws[5]);
  }

  lemma Joined(w: World, clock: Clock, key: string, ttl: int, ev: Event, rest: seq<Event>, end: World)
    requires Enabled(w, key, ev) && Possible(Step(w, clock, key, ttl, ev), clock, key, ttl, rest)
    requires Reaches(Step(w, clock, key, ttl, ev), clock, key, ttl, rest) == end
    ensures Possible(w, clock, key, ttl, [ev] + rest) && Reaches(w, clock, key, ttl, [ev] + rest) == end
  {
    assert ([ev] + rest)[1..] == rest;
  }
}
