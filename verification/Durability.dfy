/** Durable before reply: what any crash leaves of the journal still holds every promise, vote and
    decision that was saved before an answer left, and a node restarted from the file is the node
    restarted from the store the cluster is modelled with. */
module Durability {
  import opened Ballots
  import opened StateMachines
  import opened Replays
  import opened Messages
  import opened Ledgers
  import opened Nodes
  import opened Journals

  /** No vote is above the promise of its epoch. */
  ghost predicate Orderly(st: DurableState) {
    forall e, s :: e in st.epochs && s in st.epochs[e].accepted ==>
      AtMost(st.epochs[e].accepted[s].ballot, st.epochs[e].promised)
  }

  /** What a node may write next: promises and votes never go back, decisions never change. */
  predicate Follows(st: DurableState, x: Fact) {
    match x
    case FirstVoters(members) => st.genesis == None || st.genesis == Some(members)
    case Base(snapshot) => st.snapshot == None || st.snapshot == Some(snapshot)
    case Promised(e, b) => AtMost(EpochOf(st, e).promised, b)
    case Voted(e, s, b, _) =>
      var here := EpochOf(st, e);
      AtMost(b, here.promised) && (s in here.accepted ==> AtMost(here.accepted[s].ballot, b))
    case Decided(e, s, c) => s in EpochOf(st, e).chosen ==> EpochOf(st, e).chosen[s] == c
  }

  predicate Honest(st: DurableState, xs: seq<Fact>)
    decreases |xs|
  {
    xs == [] || (Follows(st, xs[0]) && Honest(Noted(st, xs[0]), xs[1..]))
  }

  /** The state still binds the node to what it wrote. */
  predicate Honours(st: DurableState, x: Fact) {
    match x
    case FirstVoters(members) => st.genesis == Some(members)
    case Base(snapshot) => st.snapshot == Some(snapshot)
    case Promised(e, b) => AtMost(b, EpochOf(st, e).promised)
    case Voted(e, s, b, _) =>
      var here := EpochOf(st, e);
      AtMost(b, here.promised) && s in here.accepted && AtMost(b, here.accepted[s].ballot)
    case Decided(e, s, c) => s in EpochOf(st, e).chosen && EpochOf(st, e).chosen[s] == c
  }

  /** Not before the snapshot: nothing below it is kept, nor needed. */
  predicate Current(st: DurableState, x: Fact) {
    st.snapshot.Some? ==>
      var from := At(st.snapshot.value);
      match x
      case Promised(e, _) => from.epoch <= e
      case Voted(e, s, _, _) => !Precedes(Pos(e, s), from)
      case Decided(e, s, _) => !Precedes(Pos(e, s), from)
      case _ => true
  }

  lemma NotedKeeps(st: DurableState, x: Fact, y: Fact)
    requires Orderly(st) && Follows(st, y) && (x == y || Honours(st, x))
    ensures Orderly(Noted(st, y)) && Honours(Noted(st, y), x)
  {
    BallotsAreOrdered();
  }

  lemma {:induction false} FoldKeeps(st: DurableState, xs: seq<Fact>, x: Fact)
    requires Orderly(st) && Honest(st, xs)
    ensures Orderly(Fold(st, xs))
    ensures x in xs || Honours(st, x) ==> Honours(Fold(st, xs), x)
    decreases |xs|
  {
    if xs != [] {
      NotedKeeps(st, xs[0], xs[0]);
      if Honours(st, x) {
        NotedKeeps(st, x, xs[0]);
      }
      FoldKeeps(Noted(st, xs[0]), xs[1..], x);
      assert x in xs ==> x == xs[0] || x in xs[1..];
    }
  }

  lemma PruneKeeps(st: DurableState, x: Fact)
    requires Orderly(st)
    ensures Orderly(Prune(st))
    ensures Honours(st, x) && Current(st, x) ==> Honours(Prune(st), x)
  {
  }

  lemma {:induction false} HonestBefore(st: DurableState, xs: seq<Fact>, y: Fact)
    requires Honest(st, xs + [y])
    ensures Honest(st, xs)
    decreases |xs|
  {
    if xs != [] {
      assert (xs + [y])[1..] == xs[1..] + [y];
      HonestBefore(Noted(st, xs[0]), xs[1..], y);
    }
  }

  lemma LoadedKeeps(xs: seq<Fact>, x: Fact)
    requires Honest(NOTHING, xs) && x in xs && Current(Prune(Fold(NOTHING, xs)), x)
    ensures Honours(Prune(Fold(NOTHING, xs)), x) && Orderly(Prune(Fold(NOTHING, xs)))
  {
    FoldKeeps(NOTHING, xs, x);
    PruneKeeps(Fold(NOTHING, xs), x);
  }

  /** Whatever the crash cuts short, the reloaded node is bound to everything it had written, and none
      of its votes is above its promise. */
  lemma DurableBeforeReply(codec: Codec, xs: seq<Fact>, y: Fact, cut: nat, padding: nat, x: Fact)
    requires Lawful(codec) && cut <= |Written(codec, y)| <= padding
    requires Honest(NOTHING, xs + [y]) && x in xs
    requires Current(Loads(codec, Pwrite(Bytes(codec, xs) + Zeros(padding), |Bytes(codec, xs)|, Written(codec, y)[..cut])), x)
    ensures var st := Loads(codec, Pwrite(Bytes(codec, xs) + Zeros(padding), |Bytes(codec, xs)|, Written(codec, y)[..cut]));
            Honours(st, x) && Orderly(st)
  {
    TornWriteIsAllOrNothing(codec, xs, y, cut, padding);
    HonestBefore(NOTHING, xs, y);
    hide Honest, Honours, Orderly, Current, Fold, Prune, Facts, Pwrite, Bytes, Written, Lawful;
    if cut < |codec.enc(y)| {
      LoadedKeeps(xs, x);
    } else {
      LoadedKeeps(xs + [y], x);
    }
  }

  // what an acceptor saves before it answers

  function LedgerIn(st: DurableState, e: nat): Ledger {
    Ledger(EpochOf(st, e).promised, EpochOf(st, e).accepted)
  }

  function PromiseSaves(e: nat, l: Ledger, b: Ballot): seq<Fact> {
    if Less(l.promised, b) then [Promised(e, b)] else []
  }

  function AcceptSaves(e: nat, l: Ledger, floor: nat, m: Message): seq<Fact>
    requires m.Accept?
  {
    if m.slot < floor || Less(m.ballot, l.promised) then []
    else if m.slot in l.accepted && l.accepted[m.slot] == Vote(m.ballot, m.command) then PromiseSaves(e, l, m.ballot)
    else PromiseSaves(e, l, m.ballot) + [Voted(e, m.slot, m.ballot, m.command)]
  }

  /** A Promise leaves only when the journal holds it. */
  lemma PromiseIsDurable(id: NodeId, st: DurableState, e: nat, m: Message)
    requires m.Prepare? && Orderly(st)
    ensures var (l, reply) := AnswerPrepare(id, e, LedgerIn(st, e), m);
            var saves := if reply.Promise? then PromiseSaves(e, LedgerIn(st, e), m.ballot) else [];
            && Honest(st, saves) && LedgerIn(Fold(st, saves), e) == l
            && (reply.Promise? ==> Honours(Fold(st, saves), Promised(e, m.ballot)))
  {
    hide Report;
    BallotsAreOrdered();
    var xs := PromiseSaves(e, LedgerIn(st, e), m.ballot);
    assert xs != [] ==> xs[1..] == [];
  }

  /** An Accepted leaves only when the journal holds the promise it raises and the vote itself. */
  lemma VoteIsDurable(id: NodeId, st: DurableState, e: nat, floor: nat, m: Message)
    requires m.Accept? && Orderly(st)
    ensures var (l, reply) := AnswerAccept(id, e, LedgerIn(st, e), floor, m);
            var saves := AcceptSaves(e, LedgerIn(st, e), floor, m);
            && Honest(st, saves) && LedgerIn(Fold(st, saves), e) == l
            && (reply.Accepted? ==> Honours(Fold(st, saves), Voted(e, m.slot, m.ballot, m.command))
                                    && l.accepted[m.slot] == Vote(m.ballot, m.command))
  {
    var l := LedgerIn(st, e);
    if !(m.slot < floor || Less(m.ballot, l.promised)) {
      PromiseFolds(st, e, m.ballot);
      var first, vote := PromiseSaves(e, l, m.ballot), Voted(e, m.slot, m.ballot, m.command);
      var st1 := Fold(st, first);
      FoldGrows(st, first, vote);
      HonestGrows(st, first, vote);
      BallotsAreOrdered();
      if m.slot in l.accepted && l.accepted[m.slot] == Vote(m.ballot, m.command) {
        assert l.accepted == l.accepted[m.slot := Vote(m.ballot, m.command)];
        assert AtMost(m.ballot, l.promised);
      }
    }
  }

  lemma PromiseFolds(st: DurableState, e: nat, b: Ballot)
    requires Orderly(st) && !Less(b, EpochOf(st, e).promised)
    ensures var saves := PromiseSaves(e, LedgerIn(st, e), b);
            && Honest(st, saves) && EpochOf(Fold(st, saves), e) == EpochOf(st, e).(promised := b)
  {
    BallotsAreOrdered();
    var xs := PromiseSaves(e, LedgerIn(st, e), b);
    assert xs != [] ==> xs[1..] == [];
  }

  lemma {:induction false} HonestGrows(st: DurableState, xs: seq<Fact>, y: Fact)
    requires Honest(st, xs)
    ensures Honest(st, xs + [y]) <==> Follows(Fold(st, xs), y)
    decreases |xs|
  {
    if xs == [] {
      assert xs + [y] == [y] && [y][1..] == [];
    } else {
      assert (xs + [y])[1..] == xs[1..] + [y];
      HonestGrows(Noted(st, xs[0]), xs[1..], y);
    }
  }

  /** A vote on a complete line whose newline the crash cut off: the reloaded acceptor knows it and,
      asked again, answers Accepted without writing; opening the journal for the next write erases it. */
  lemma TornTailLosesAVote(codec: Codec, id: NodeId, from: NodeId, e: nat, s: nat, b: Ballot, c: Command)
    requires Lawful(codec)
    ensures var vote := Voted(e, s, b, c);
            var file := Bytes(codec, [Promised(e, b)]) + codec.enc(vote) + Zeros(0);
            var l := LedgerIn(Loads(codec, file), e);
            var m := Message.Accept(from, e, b, s, c);
            && AnswerAccept(id, e, l, 0, m) == (l, Message.Accepted(id, e, b, s))
            && AcceptSaves(e, l, 0, m) == []
            && !Honours(Loads(codec, Opened(file)), vote)
  {
    var vote, xs := Voted(e, s, b, c), [Promised(e, b)];
    var tail := codec.enc(vote);
    assert Plain(tail) && codec.dec(tail) == Some(vote);
    hide Lawful;
    JournalReadsBack(codec, xs, tail, 0);
    OpenKeepsWholeLines(codec, xs, tail, 0);
    OpenedReads(codec, xs, |tail| + 0);
    OnePromiseOneVote(e, s, b, c);
    hide Facts, Bytes, Opened, Zeros, Fold, Prune, LedgerIn, Honours;
    assert xs + Kept(codec, tail) == xs + [vote];
    AskedAgain(id, from, e, s, b, c);
    hide AnswerAccept, AcceptSaves, Kept;
  }

  lemma AskedAgain(id: NodeId, from: NodeId, e: nat, s: nat, b: Ballot, c: Command)
    ensures var l, m := Ledger(b, map[s := Vote(b, c)]), Message.Accept(from, e, b, s, c);
            AnswerAccept(id, e, l, 0, m) == (l, Message.Accepted(id, e, b, s)) && AcceptSaves(e, l, 0, m) == []
  {
    BallotsAreOrdered();
    assert map[s := Vote(b, c)][s := Vote(b, c)] == map[s := Vote(b, c)];
  }

  lemma OnePromiseOneVote(e: nat, s: nat, b: Ballot, c: Command)
    ensures var vote, xs := Voted(e, s, b, c), [Promised(e, b)];
            && LedgerIn(Prune(Fold(NOTHING, xs + [vote])), e) == Ledger(b, map[s := Vote(b, c)])
            && !Honours(Prune(Fold(NOTHING, xs)), vote)
  {
    var vote, xs := Voted(e, s, b, c), [Promised(e, b)];
    assert xs[1..] == [];
    FoldGrows(NOTHING, xs, vote);
  }

  // the file and the store the cluster is modelled with

  function OnDisk(st: DurableState): Disk {
    Disk(st.genesis,
         map e | e in st.epochs :: Ledger(st.epochs[e].promised, st.epochs[e].accepted),
         map p | p in (set e, s | e in st.epochs && s in st.epochs[e].chosen :: Pos(e, s)) :: st.epochs[p.epoch].chosen[p.slot],
         st.snapshot)
  }

  /** Equal up to epochs nobody promised, voted or decided anything in. */
  ghost predicate SameStore(a: Disk, b: Disk) {
    && a.genesis == b.genesis && a.chosen == b.chosen && a.snapshot == b.snapshot
    && forall e :: LedgerOf(a.ledgers, e) == LedgerOf(b.ledgers, e)
  }

  /** What `MemoryStore` does with the same fact. */
  function InMemory(d: Disk, x: Fact): Disk {
    match x
    case FirstVoters(members) => d.(genesis := Some(members))
    case Base(snapshot) => d.(snapshot := Some(snapshot))
    case Promised(e, b) => d.(ledgers := d.ledgers[e := LedgerOf(d.ledgers, e).(promised := b)])
    case Voted(e, s, b, c) =>
      var l := LedgerOf(d.ledgers, e);
      d.(ledgers := d.ledgers[e := l.(accepted := l.accepted[s := Vote(b, c)])])
    case Decided(e, s, c) => d.(chosen := d.chosen[Pos(e, s) := c])
  }

  lemma SavesTheSame(st: DurableState, d: Disk, x: Fact)
    requires SameStore(OnDisk(st), d)
    ensures SameStore(OnDisk(Noted(st, x)), InMemory(d, x))
  {
    SavesTheSameChosen(st, x);
    ChosenOnDisk(st);
    LedgersOnDisk(st);
    LedgersOnDisk(Noted(st, x));
    hide OnDisk, Noted, LedgerIn, LedgerOf;
    SavesTheSameLedgers(st, d, x);
  }

  lemma LedgersOnDisk(st: DurableState)
    ensures forall e :: LedgerOf(OnDisk(st).ledgers, e) == LedgerIn(st, e)
  {
  }

  lemma SavesTheSameChosen(st: DurableState, x: Fact)
    ensures var d := OnDisk(Noted(st, x));
            && d.chosen == (if x.Decided? then OnDisk(st).chosen[Pos(x.epoch, x.slot) := x.command] else OnDisk(st).chosen)
            && d.genesis == (if x.FirstVoters? then Some(x.members) else st.genesis)
            && d.snapshot == (if x.Base? then Some(x.snapshot) else st.snapshot)
  {
    hide *;
    ChosenOnDisk(st);
    ChosenOnDisk(Noted(st, x));
    NotedChosen(st, x);
  }

  lemma NotedChosen(st: DurableState, x: Fact)
    ensures Noted(st, x).genesis == (if x.FirstVoters? then Some(x.members) else st.genesis)
    ensures Noted(st, x).snapshot == (if x.Base? then Some(x.snapshot) else st.snapshot)
    ensures forall e :: EpochOf(Noted(st, x), e).chosen
                        == if x.Decided? && x.epoch == e then EpochOf(st, e).chosen[x.slot := x.command] else EpochOf(st, e).chosen
  {
  }

  lemma ChosenOnDisk(st: DurableState)
    ensures OnDisk(st).genesis == st.genesis && OnDisk(st).snapshot == st.snapshot
    ensures forall p :: p in OnDisk(st).chosen <==> p.slot in EpochOf(st, p.epoch).chosen
    ensures forall p :: p in OnDisk(st).chosen ==> OnDisk(st).chosen[p] == EpochOf(st, p.epoch).chosen[p.slot]
  {
    forall p: Pos | p.slot in EpochOf(st, p.epoch).chosen ensures p in OnDisk(st).chosen {
      assert p == Pos(p.epoch, p.slot);
    }
  }

  lemma SavesTheSameLedgers(st: DurableState, d: Disk, x: Fact)
    requires forall e :: LedgerIn(st, e) == LedgerOf(d.ledgers, e)
    ensures forall e :: LedgerIn(Noted(st, x), e) == LedgerOf(InMemory(d, x).ledgers, e)
  {
    forall e ensures LedgerIn(Noted(st, x), e) == LedgerOf(InMemory(d, x).ledgers, e) {
      assert LedgerIn(st, e) == LedgerOf(d.ledgers, e);
    }
  }

  /** Pruning on load is what compaction does to the store in memory. */
  lemma PrunesTheSame(st: DurableState)
    requires st.snapshot.Some?
    ensures SameStore(OnDisk(Prune(st)), Compacted(OnDisk(st), st.snapshot.value))
  {
    PrunesTheSameChosen(st);
    PrunesTheSameLedgers(st);
    hide OnDisk, Prune, LedgerOf, DropBelow;
    assert OnDisk(Prune(st)).genesis == OnDisk(st).genesis && OnDisk(Prune(st)).snapshot == st.snapshot by {
      ChosenOnDisk(st);
      ChosenOnDisk(Prune(st));
      PrunedChosen(st);
    }
  }

  lemma PrunesTheSameChosen(st: DurableState)
    requires st.snapshot.Some?
    ensures OnDisk(Prune(st)).chosen == DropBelow(OnDisk(st).chosen, At(st.snapshot.value))
  {
    ChosenOnDisk(st);
    ChosenOnDisk(Prune(st));
    PrunedChosen(st);
    hide OnDisk, Prune, EpochOf, At, Precedes;
  }

  lemma PrunesTheSameLedgers(st: DurableState)
    requires st.snapshot.Some?
    ensures forall e :: LedgerOf(OnDisk(Prune(st)).ledgers, e) == LedgerOf(Compacted(OnDisk(st), st.snapshot.value).ledgers, e)
  {
    PrunedLedgers(st);
    LedgersOnDisk(st);
    LedgersOnDisk(Prune(st));
    hide OnDisk, Prune, LedgerIn, DropBelow;
  }

  lemma PrunedChosen(st: DurableState)
    requires st.snapshot.Some?
    ensures Prune(st).snapshot == st.snapshot && Prune(st).genesis == st.genesis
    ensures forall p: Pos :: p.slot in EpochOf(Prune(st), p.epoch).chosen
                             <==> p.slot in EpochOf(st, p.epoch).chosen && !Precedes(p, At(st.snapshot.value))
    ensures forall p: Pos :: p.slot in EpochOf(Prune(st), p.epoch).chosen ==>
                             EpochOf(Prune(st), p.epoch).chosen[p.slot] == EpochOf(st, p.epoch).chosen[p.slot]
  {
  }

  lemma PrunedLedgers(st: DurableState)
    requires st.snapshot.Some?
    ensures forall e: nat ::
              LedgerIn(Prune(st), e)
              == if e < st.snapshot.value.epoch then FRESH
                 else if e == st.snapshot.value.epoch then Pruned(LedgerIn(st, e), st.snapshot.value.nextSlot)
                 else LedgerIn(st, e)
  {
  }

  lemma RestartsTheSame(a: Disk, b: Disk)
    requires SameStore(a, b)
    ensures Restarted(a).(disk := b) == Restarted(b)
  {
  }

  /** A process started on the journal stands where one started on the unpruned state would, with the
      same acceptor above the compaction floor. */
  lemma RestartFromJournal(st: DurableState)
    ensures var full, kept := Restarted(OnDisk(st)), Restarted(OnDisk(Prune(st)));
            && kept.r == full.r && kept.pendingTotal == full.pendingTotal
            && Own(kept) == (if Floor(full) > 0 then Pruned(Own(full), Floor(full)) else Own(full))
  {
    if st.snapshot.Some? {
      var base, d := st.snapshot.value, OnDisk(st);
      PrunesTheSame(st);
      RestartsTheSame(OnDisk(Prune(st)), Compacted(d, base));
      RestartAfterCompaction(d, base);
      hide OnDisk, Prune, Compacted, Loaded, MaxRound, Pruned, AppliedTotal;
    }
  }

  lemma RestartAfterCompaction(d: Disk, base: Progress)
    requires d.snapshot == Some(base)
    ensures var full, kept := Restarted(d), Restarted(Compacted(d, base));
            && kept.r == full.r && kept.pendingTotal == full.pendingTotal
            && Own(kept) == (if Floor(full) > 0 then Pruned(Own(full), Floor(full)) else Own(full))
  {
    AdvanceIgnoresThePast(base, d.chosen, At(base));
    AdvanceStops(base, d.chosen);
    var e := Loaded(d).epoch;
    hide Advance, MaxRound, AppliedTotal, DropBelow;
    assert LedgerOf(Compacted(d, base).ledgers, e)
           == if e == base.epoch then Pruned(LedgerOf(d.ledgers, e), base.nextSlot) else LedgerOf(d.ledgers, e);
    assert base.nextSlot == 0 ==> Pruned(LedgerOf(d.ledgers, e), base.nextSlot) == LedgerOf(d.ledgers, e);
  }
}
