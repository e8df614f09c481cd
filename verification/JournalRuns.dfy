/** A process over its journal, deed by deed: whatever it handles, however often the journal is rewritten,
    and wherever a crash cuts it, what it had answered still binds it when it is loaded again. */
module JournalRuns {
  import opened Ballots
  import opened StateMachines
  import opened Replays
  import opened Messages
  import opened Ledgers
  import opened Journals
  import opened Durability

  /** What makes a process write: its first voters, a Prepare or an Accept for the acceptor of an epoch, a
      decision, a new base, and the rewriting of a long journal on load. */
  datatype Deed =
    | Begin(voters: Members)
    | Ask(epoch: nat, prepare: Message)
    | Order(epoch: nat, accept: Message)
    | Learn(epoch: nat, slot: nat, command: Command)
    | Rebase(base: Progress)
    | Tidy

  /** Done, or cut by a crash that left the first `whole` of its lines. */
  datatype Act = Done(deed: Deed) | Cut(deed: Deed, whole: nat)

  /** The whole lines of the file, and what others were told. */
  datatype Shelf = Shelf(lines: seq<Fact>, told: set<Fact>)

  const EMPTY_SHELF := Shelf([], {})

  /** What the process knows: what loading the lines gives. */
  function Held(lines: seq<Fact>): DurableState {
    Prune(Fold(NOTHING, lines))
  }

  function FloorIn(st: DurableState, e: nat): nat {
    if st.snapshot.Some? && st.snapshot.value.epoch == e then st.snapshot.value.nextSlot else 0
  }

  /** An acceptor is never of an epoch before the base, and the base never moves back. */
  predicate Fits(st: DurableState, d: Deed) {
    match d
    case Ask(e, m) => m.Prepare? && (st.snapshot.Some? ==> st.snapshot.value.epoch <= e)
    case Order(e, m) => m.Accept? && (st.snapshot.Some? ==> st.snapshot.value.epoch <= e)
    case Rebase(base) => st.snapshot.Some? ==> !Precedes(At(base), At(st.snapshot.value))
    case _ => true
  }

  /** The lines a deed appends, in order. */
  function Saves(st: DurableState, d: Deed): seq<Fact>
    requires Fits(st, d)
  {
    match d
    case Begin(voters) => if st.genesis.None? then [FirstVoters(voters)] else []
    case Ask(e, m) => if Less(m.ballot, EpochOf(st, e).promised) then [] else PromiseSaves(e, LedgerIn(st, e), m.ballot)
    case Order(e, m) => AcceptSaves(e, LedgerIn(st, e), FloorIn(st, e), m)
    case Learn(e, s, c) =>
      if s in EpochOf(st, e).chosen || (st.snapshot.Some? && Precedes(Pos(e, s), At(st.snapshot.value))) then []
      else [Decided(e, s, c)]
    case _ => []
  }

  /** The lines of the file once the deed is done: a rewriting takes the old file's place at once. */
  ghost function Leaves(lines: seq<Fact>, d: Deed): seq<Fact>
    requires Fits(Held(lines), d)
  {
    match d
    case Rebase(base) => Rewritten(Prune(Held(lines).(snapshot := Some(base))))
    case Tidy => Rewritten(Held(lines))
    case _ => lines + Saves(Held(lines), d)
  }

  /** What others hear and may count on: a Promise, an Accepted, a decision. */
  ghost function Tells(id: NodeId, st: DurableState, d: Deed): set<Fact>
    requires Fits(st, d)
  {
    match d
    case Ask(e, m) =>
      if AnswerPrepare(id, e, LedgerIn(st, e), m).1.Promise? then {Promised(e, m.ballot)} else {}
    case Order(e, m) =>
      if AnswerAccept(id, e, LedgerIn(st, e), FloorIn(st, e), m).1.Accepted? then {Voted(e, m.slot, m.ballot, m.command)}
      else {}
    case Learn(_, _, _) => set x | x in Saves(st, d)
    case _ => {}
  }

  ghost predicate Possible(shelf: Shelf, a: Act) {
    Fits(Held(shelf.lines), a.deed) && (a.Cut? ==> a.whole <= |Saves(Held(shelf.lines), a.deed)|)
  }

  ghost function Next(id: NodeId, shelf: Shelf, a: Act): Shelf
    requires Possible(shelf, a)
  {
    match a
    case Done(d) => Shelf(Leaves(shelf.lines, d), shelf.told + Tells(id, Held(shelf.lines), d))
    case Cut(d, whole) => Shelf(shelf.lines + Saves(Held(shelf.lines), d)[..whole], shelf.told)
  }

  /** `shelves` are what a run of acts makes of an empty journal. */
  ghost predicate Story(id: NodeId, shelves: seq<Shelf>, acts: seq<Act>) {
    && |shelves| == |acts| + 1 && shelves[0] == EMPTY_SHELF
    && forall k :: 0 <= k < |acts| ==> Possible(shelves[k], acts[k]) && shelves[k + 1] == Next(id, shelves[k], acts[k])
  }

  // what every act keeps

  /** `x` binds a state, or is from before its base. */
  ghost predicate Bound(st: DurableState, x: Fact) {
    Current(st, x) ==> Honours(st, x)
  }

  ghost predicate Sure(shelf: Shelf) {
    Honest(NOTHING, shelf.lines) && forall x :: x in shelf.told ==> !x.Base? && Bound(Fold(NOTHING, shelf.lines), x)
  }

  lemma SureIsOrderly(lines: seq<Fact>)
    requires Honest(NOTHING, lines)
    ensures Orderly(Fold(NOTHING, lines)) && Orderly(Held(lines))
  {
    FoldKeeps(NOTHING, lines, FirstVoters(map[]));
    PruneKeeps(Fold(NOTHING, lines), FirstVoters(map[]));
  }

  /** Where the process writes, it holds what the lines say. */
  ghost predicate SameHere(held: DurableState, full: DurableState, e: nat) {
    var here, there := EpochOf(held, e), EpochOf(full, e);
    && here.promised == there.promised
    && forall s :: FloorIn(held, e) <= s ==>
         && (s in here.accepted <==> s in there.accepted) && (s in here.chosen <==> s in there.chosen)
         && (s in here.accepted ==> here.accepted[s] == there.accepted[s])
         && (s in here.chosen ==> here.chosen[s] == there.chosen[s])
  }

  lemma HeldHere(lines: seq<Fact>, e: nat)
    requires var held := Held(lines); held.snapshot.Some? ==> held.snapshot.value.epoch <= e
    ensures SameHere(Held(lines), Fold(NOTHING, lines), e)
  {
    hide Fold;
  }

  lemma HeldHead(lines: seq<Fact>)
    ensures var held, full := Held(lines), Fold(NOTHING, lines); held.genesis == full.genesis && held.snapshot == full.snapshot
  {
    hide Fold;
  }

  lemma AppendIsSure(shelf: Shelf, y: Fact)
    requires Sure(shelf) && !y.Base? && Follows(Fold(NOTHING, shelf.lines), y)
    ensures Sure(Shelf(shelf.lines + [y], shelf.told + {y}))
  {
    var st := Fold(NOTHING, shelf.lines);
    SureIsOrderly(shelf.lines);
    FoldGrows(NOTHING, shelf.lines, y);
    HonestGrows(NOTHING, shelf.lines, y);
    hide Fold, Honest, Orderly, Follows;
    NotedKeeps(st, y, y);
    forall x | x in shelf.told ensures !x.Base? && Bound(Noted(st, y), x) {
      assert Bound(st, x);
      if Current(st, x) {
        NotedKeeps(st, x, y);
      }
    }
  }

  lemma {:induction false} AppendsAreSure(shelf: Shelf, ys: seq<Fact>)
    requires Sure(shelf) && (forall y :: y in ys ==> !y.Base?) && Honest(Fold(NOTHING, shelf.lines), ys)
    ensures Sure(Shelf(shelf.lines + ys, shelf.told + set y | y in ys))
    decreases |ys|
  {
    if ys == [] {
      assert shelf.lines + ys == shelf.lines;
      assert shelf.told + (set y | y in ys) == shelf.told;
    } else {
      AppendIsSure(shelf, ys[0]);
      FoldGrows(NOTHING, shelf.lines, ys[0]);
      hide Sure, Follows, Noted, Fold;
      AppendsAreSure(Shelf(shelf.lines + [ys[0]], shelf.told + {ys[0]}), ys[1..]);
      assert shelf.lines + ys == (shelf.lines + [ys[0]]) + ys[1..];
      assert shelf.told + (set y | y in ys) == (shelf.told + {ys[0]}) + set y | y in ys[1..];
    }
  }

  // what a deed appends follows what is there

  lemma SavesFollow(lines: seq<Fact>, d: Deed)
    requires Honest(NOTHING, lines) && Fits(Held(lines), d)
    ensures Honest(Fold(NOTHING, lines), Saves(Held(lines), d))
    ensures forall y :: y in Saves(Held(lines), d) ==> !y.Base?
  {
    var full, saves := Fold(NOTHING, lines), Saves(Held(lines), d);
    HeldHead(lines);
    match d {
      case Begin(_) => OneFollows(full, saves);
      case Ask(e, m) =>
        HeldHere(lines, e);
        PromiseFollows(full, e, m.ballot);
      case Order(e, m) =>
        SureIsOrderly(lines);
        HeldHere(lines, e);
        OrderFollows(Held(lines), full, e, m);
      case Learn(e, s, c) =>
        if saves != [] {
          HeldHere(lines, e);
          OneFollows(full, saves);
        }
      case _ =>
    }
  }

  lemma OneFollows(st: DurableState, xs: seq<Fact>)
    requires |xs| <= 1 && forall x :: x in xs ==> Follows(st, x)
    ensures Honest(st, xs)
  {
    if xs != [] {
      assert xs[0] in xs && xs[1..] == [];
    }
  }

  lemma PromiseFollows(st: DurableState, e: nat, b: Ballot)
    ensures Honest(st, PromiseSaves(e, LedgerIn(st, e), b))
  {
    OneFollows(st, PromiseSaves(e, LedgerIn(st, e), b));
  }

  lemma OrderFollows(held: DurableState, full: DurableState, e: nat, m: Message)
    requires m.Accept? && Orderly(full) && SameHere(held, full, e)
    ensures Honest(full, AcceptSaves(e, LedgerIn(held, e), FloorIn(held, e), m))
  {
    BallotsAreOrdered();
    var l := LedgerIn(held, e);
    if !(m.slot < FloorIn(held, e) || Less(m.ballot, l.promised)) {
      var first, vote := PromiseSaves(e, l, m.ballot), Voted(e, m.slot, m.ballot, m.command);
      PromiseFolds(full, e, m.ballot);
      assert m.slot in l.accepted <==> m.slot in EpochOf(full, e).accepted;
      hide Fold, Honest;
      HonestGrows(full, first, vote);
    }
  }

  /** What is told was written, or stood there already. */
  lemma TellsHold(id: NodeId, lines: seq<Fact>, d: Deed)
    requires Honest(NOTHING, lines) && Fits(Held(lines), d)
    ensures forall x :: x in Tells(id, Held(lines), d) ==>
              !x.Base? && (x in Saves(Held(lines), d) || Honours(Fold(NOTHING, lines), x))
  {
    BallotsAreOrdered();
    SureIsOrderly(lines);
    var held, full := Held(lines), Fold(NOTHING, lines);
    hide Fold, Report, Held, Honest;
    match d {
      case Ask(e, m) => HeldHere(lines, e);
      case Order(e, m) =>
        HeldHere(lines, e);
        assert m.slot in EpochOf(held, e).accepted && FloorIn(held, e) <= m.slot ==>
                 EpochOf(full, e).accepted[m.slot] == EpochOf(held, e).accepted[m.slot];
      case _ =>
    }
  }

  lemma DoneIsSure(id: NodeId, shelf: Shelf, d: Deed)
    requires Sure(shelf) && Fits(Held(shelf.lines), d) && !d.Rebase? && !d.Tidy?
    ensures Sure(Next(id, shelf, Done(d)))
  {
    var st, saves, tells := Held(shelf.lines), Saves(Held(shelf.lines), d), Tells(id, Held(shelf.lines), d);
    TellsHold(id, shelf.lines, d);
    SavesFollow(shelf.lines, d);
    var more := set x | x in tells && x !in saves;
    hide Fold, Honest, Held, Tells, Saves, Honours, Current, Leaves;
    AppendsAreSure(Shelf(shelf.lines, shelf.told + more), saves);
    FewerTold(Shelf(shelf.lines + saves, shelf.told + more + set y | y in saves), shelf.told + tells);
    assert Leaves(shelf.lines, d) == shelf.lines + saves by { Appended(shelf.lines, d); }
  }

  lemma Appended(lines: seq<Fact>, d: Deed)
    requires Fits(Held(lines), d) && !d.Rebase? && !d.Tidy?
    ensures Leaves(lines, d) == lines + Saves(Held(lines), d)
  {
    hide Held, Saves;
  }

  lemma FewerTold(shelf: Shelf, told: set<Fact>)
    requires Sure(shelf) && told <= shelf.told
    ensures Sure(Shelf(shelf.lines, told))
  {
    hide Honest, Fold, Bound;
  }

  lemma {:induction false} HonestPrefix(st: DurableState, xs: seq<Fact>, k: nat)
    requires Honest(st, xs) && k <= |xs|
    ensures Honest(st, xs[..k])
    decreases |xs|
  {
    if k > 0 {
      HonestPrefix(Noted(st, xs[0]), xs[1..], k - 1);
      assert xs[..k][1..] == xs[1..][..k - 1];
    }
  }

  lemma CutIsSure(id: NodeId, shelf: Shelf, d: Deed, whole: nat)
    requires Sure(shelf) && Possible(shelf, Cut(d, whole))
    ensures Sure(Next(id, shelf, Cut(d, whole)))
  {
    var saves := Saves(Held(shelf.lines), d);
    SavesFollow(shelf.lines, d);
    HonestPrefix(Fold(NOTHING, shelf.lines), saves, whole);
    hide Fold, Honest, Held, Saves, Honours, Current;
    AppendsAreSure(shelf, saves[..whole]);
    FewerTold(Shelf(shelf.lines + saves[..whole], shelf.told + set y | y in saves[..whole]), shelf.told);
  }

  // rewriting

  /** A journal rewritten around a state in order is as honest as one written line by line. */
  lemma RewrittenIsHonest(st: DurableState)
    requires Orderly(st)
    ensures Honest(NOTHING, Rewritten(st))
  {
    var start := DurableState(st.genesis, map[], st.snapshot);
    HeadIsHonest(st);
    HeadFolds(st);
    EpochsAreHonest(start, st.epochs, Above(st.epochs.Keys));
    hide Fold, Honest, OfEpochs, Above;
    HonestInTwo(NOTHING, Head(st), OfEpochs(st.epochs, Above(st.epochs.Keys)));
  }

  lemma {:induction false} HonestInTwo(st: DurableState, xs: seq<Fact>, ys: seq<Fact>)
    ensures Honest(st, xs + ys) <==> Honest(st, xs) && Honest(Fold(st, xs), ys)
    decreases |xs|
  {
    if xs == [] {
      assert xs + ys == ys;
    } else {
      assert (xs + ys)[1..] == xs[1..] + ys;
      HonestInTwo(Noted(st, xs[0]), xs[1..], ys);
    }
  }

  lemma HeadIsHonest(st: DurableState)
    ensures Honest(NOTHING, Head(st))
  {
    var voters := if st.genesis.Some? then [FirstVoters(st.genesis.value)] else [];
    var base := if st.snapshot.Some? then [Base(st.snapshot.value)] else [];
    OneFollows(NOTHING, voters);
    assert Fold(NOTHING, voters) == DurableState(st.genesis, map[], None);
    OneFollows(Fold(NOTHING, voters), base);
    HonestInTwo(NOTHING, voters, base);
  }

  lemma {:induction false} VotesAreHonest(st: DurableState, e: nat, accepted: map<nat, Vote>, hi: nat)
    requires e in st.epochs && st.epochs[e].accepted == map[]
    requires forall s :: s in accepted ==> AtMost(accepted[s].ballot, st.epochs[e].promised)
    ensures Honest(st, Votes(e, accepted, hi))
  {
    if hi > 0 {
      VotesAreHonest(st, e, accepted, hi - 1);
      if hi - 1 in accepted {
        FoldVotes(st, e, accepted, hi - 1);
        HonestGrows(st, Votes(e, accepted, hi - 1), Voted(e, hi - 1, accepted[hi - 1].ballot, accepted[hi - 1].command));
      } else {
        assert Votes(e, accepted, hi) == Votes(e, accepted, hi - 1);
      }
    }
  }

  lemma {:induction false} DecisionsAreHonest(st: DurableState, e: nat, chosen: map<nat, Command>, hi: nat)
    requires e in st.epochs && st.epochs[e].chosen == map[]
    ensures Honest(st, Decisions(e, chosen, hi))
  {
    if hi > 0 {
      DecisionsAreHonest(st, e, chosen, hi - 1);
      if hi - 1 in chosen {
        FoldDecisions(st, e, chosen, hi - 1);
        HonestGrows(st, Decisions(e, chosen, hi - 1), Decided(e, hi - 1, chosen[hi - 1]));
      } else {
        assert Decisions(e, chosen, hi) == Decisions(e, chosen, hi - 1);
      }
    }
  }

  lemma EpochIsHonest(st: DurableState, e: nat, here: EpochState)
    requires e !in st.epochs && forall s :: s in here.accepted ==> AtMost(here.accepted[s].ballot, here.promised)
    ensures Honest(st, OfEpoch(e, here))
  {
    var votes := Votes(e, here.accepted, Above(here.accepted.Keys));
    var decisions := Decisions(e, here.chosen, Above(here.chosen.Keys));
    var first, st1 := [Promised(e, here.promised)], Noted(st, Promised(e, here.promised));
    OneFollows(st, first);
    assert Fold(st, first) == st1;
    VotesAreHonest(st1, e, here.accepted, Above(here.accepted.Keys));
    FoldVotes(st1, e, here.accepted, Above(here.accepted.Keys));
    DecisionsAreHonest(Fold(st1, votes), e, here.chosen, Above(here.chosen.Keys));
    hide Fold, Honest, Votes, Decisions, Above, Noted;
    HonestInTwo(st, first, votes);
    FoldInTwo(st, first, votes);
    HonestInTwo(st, first + votes, decisions);
  }

  lemma {:induction false} EpochsAreHonest(st: DurableState, epochs: map<nat, EpochState>, hi: nat)
    requires st.epochs == map[]
    requires forall e, s :: e in epochs && s in epochs[e].accepted ==> AtMost(epochs[e].accepted[s].ballot, epochs[e].promised)
    ensures Honest(st, OfEpochs(epochs, hi))
  {
    hide Honest, Fold, OfEpoch, Above;
    if hi == 0 {
      OneFollows(st, OfEpochs(epochs, 0));
    } else {
      EpochsAreHonest(st, epochs, hi - 1);
      if hi - 1 in epochs {
        FoldEpochs(st, epochs, hi - 1);
        EpochIsHonest(st.(epochs := Below(epochs, hi - 1)), hi - 1, epochs[hi - 1]);
        HonestInTwo(st, OfEpochs(epochs, hi - 1), OfEpoch(hi - 1, epochs[hi - 1]));
      } else {
        assert OfEpochs(epochs, hi) == OfEpochs(epochs, hi - 1);
      }
    }
  }

  lemma RewriteIsSure(shelf: Shelf, st: DurableState)
    requires Orderly(st) && forall x :: x in shelf.told ==> !x.Base? && Bound(st, x)
    ensures Sure(Shelf(Rewritten(st), shelf.told))
  {
    hide Orderly, Rewritten, Bound, Honest, Fold;
    RewrittenIsHonest(st);
    RewriteLosesNothing(st);
  }

  lemma RebaseIsSure(id: NodeId, shelf: Shelf, base: Progress)
    requires Sure(shelf) && Fits(Held(shelf.lines), Rebase(base))
    ensures Sure(Next(id, shelf, Done(Rebase(base))))
  {
    var held, full := Held(shelf.lines), Fold(NOTHING, shelf.lines);
    var moved := held.(snapshot := Some(base));
    SureIsOrderly(shelf.lines);
    HeldHead(shelf.lines);
    assert Orderly(moved);
    forall x | x in shelf.told ensures !x.Base? && Bound(Prune(moved), x) {
      assert Bound(full, x);
      StaysBound(full, x, base);
    }
    PruneKeeps(moved, FirstVoters(map[]));
    RewriteIsSure(shelf, Prune(moved));
    hide Fold, Prune, Rewritten;
    assert shelf.told + {} == shelf.told;
  }

  /** What binds a state still does once its base moved on, unless it is from before the new base. */
  lemma StaysBound(full: DurableState, x: Fact, base: Progress)
    requires Orderly(full) && Bound(full, x) && !x.Base?
    requires full.snapshot.Some? ==> !Precedes(At(base), At(full.snapshot.value))
    ensures Bound(Prune(Prune(full).(snapshot := Some(base))), x)
  {
    var moved := Prune(full).(snapshot := Some(base));
    if Current(Prune(moved), x) {
      assert Current(full, x);
      PruneKeeps(full, x);
      PruneKeeps(moved, x);
    }
  }

  lemma TidyIsSure(id: NodeId, shelf: Shelf)
    requires Sure(shelf)
    ensures Sure(Next(id, shelf, Done(Tidy)))
  {
    var held, full := Held(shelf.lines), Fold(NOTHING, shelf.lines);
    SureIsOrderly(shelf.lines);
    forall x | x in shelf.told ensures !x.Base? && Bound(held, x) {
      assert Bound(full, x);
      PruneKeeps(full, x);
    }
    RewriteIsSure(shelf, held);
    hide Fold, Prune, Rewritten;
    assert shelf.told + {} == shelf.told;
  }

  lemma ActKeepsSure(id: NodeId, shelf: Shelf, a: Act)
    requires Sure(shelf) && Possible(shelf, a)
    ensures Sure(Next(id, shelf, a))
  {
    hide Sure, Held, Next;
    match a {
      case Cut(d, whole) => CutIsSure(id, shelf, d, whole);
      case Done(d) =>
        match d {
          case Rebase(base) => RebaseIsSure(id, shelf, base);
          case Tidy => TidyIsSure(id, shelf);
          case _ => DoneIsSure(id, shelf, d);
        }
    }
  }

  lemma {:induction false} StoryIsSure(id: NodeId, shelves: seq<Shelf>, acts: seq<Act>, n: nat)
    requires Story(id, shelves, acts) && n < |shelves|
    ensures Sure(shelves[n])
  {
    hide Sure, Next, Possible;
    if n == 0 {
      EmptyIsSure();
    } else {
      StoryIsSure(id, shelves, acts, n - 1);
      ActKeepsSure(id, shelves[n - 1], acts[n - 1]);
    }
  }

  lemma EmptyIsSure()
    ensures Sure(EMPTY_SHELF)
  {
  }

  /** Every answer is honoured: after any story of Prepares, Accepts, decisions, rewritings and crashes,
      and with the next deed cut off at any byte of any of its lines, the process loaded from the file is
      bound by everything it ever told anyone, short of what its base made obsolete. */
  lemma EveryAnswerIsHonoured(codec: Codec, id: NodeId, shelves: seq<Shelf>, acts: seq<Act>, d: Deed, whole: nat,
                              cut: nat, padding: nat, x: Fact)
    requires Lawful(codec) && Story(id, shelves, acts) && x in shelves[|acts|].told
    requires var lines := shelves[|acts|].lines;
             && Fits(Held(lines), d) && whole < |Saves(Held(lines), d)|
             && cut <= |Written(codec, Saves(Held(lines), d)[whole])| <= padding
    ensures var lines := shelves[|acts|].lines + Saves(Held(shelves[|acts|].lines), d)[..whole];
            var line := Written(codec, Saves(Held(shelves[|acts|].lines), d)[whole]);
            var st := Loads(codec, Pwrite(Bytes(codec, lines) + Zeros(padding), |Bytes(codec, lines)|, line[..cut]));
            Orderly(st) && (Current(st, x) ==> Honours(st, x))
  {
    var shelf := shelves[|acts|];
    var saves := Saves(Held(shelf.lines), d);
    StoryIsSure(id, shelves, acts, |acts|);
    var before, y := shelf.lines + saves[..whole], saves[whole];
    CutIsSure(id, shelf, d, whole);
    CutIsSure(id, shelf, d, whole + 1);
    assert saves[..whole + 1] == saves[..whole] + [y];
    assert shelf.lines + saves[..whole + 1] == before + [y];
    TornWriteIsAllOrNothing(codec, before, y, cut, padding);
    if cut < |codec.enc(y)| {
      LoadedIsBound(Shelf(before, shelf.told), x);
    } else {
      LoadedIsBound(Shelf(before + [y], shelf.told), x);
    }
  }

  lemma LoadedIsBound(shelf: Shelf, x: Fact)
    requires Sure(shelf) && x in shelf.told
    ensures Orderly(Held(shelf.lines)) && (Current(Held(shelf.lines), x) ==> Honours(Held(shelf.lines), x))
  {
    SureIsOrderly(shelf.lines);
    HeldHead(shelf.lines);
    PruneKeeps(Fold(NOTHING, shelf.lines), x);
    assert Bound(Fold(NOTHING, shelf.lines), x);
    hide Fold, Prune;
  }
}
