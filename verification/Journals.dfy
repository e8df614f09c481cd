/** The journal (app/consensus/storage.py: `FileStore`) as functions of its bytes: what `load` reads
    from a file, and what `_rewrite` puts into one. */
module Journals {
  import opened Ballots
  import opened StateMachines
  import opened Replays
  import opened Ledgers

  /** One Paxos instance as stored: what its acceptor promised and accepted, what is chosen. */
  datatype EpochState = EpochState(promised: Ballot, accepted: map<nat, Vote>, chosen: map<nat, Command>)

  datatype DurableState = DurableState(genesis: Option<Members>, epochs: map<nat, EpochState>, snapshot: Option<Progress>)

  const NOTHING := DurableState(None, map[], None)
  const UNTOUCHED := EpochState(ZERO, map[], map[])

  /** What one line of the journal says. */
  datatype Fact =
    | FirstVoters(members: Members)
    | Base(snapshot: Progress)
    | Promised(epoch: nat, ballot: Ballot)
    | Voted(epoch: nat, slot: nat, ballot: Ballot, command: Command)
    | Decided(epoch: nat, slot: nat, command: Command)

  function EpochOf(st: DurableState, e: nat): EpochState {
    if e in st.epochs then st.epochs[e] else UNTOUCHED
  }

  function Noted(st: DurableState, x: Fact): DurableState {
    match x
    case FirstVoters(members) => st.(genesis := Some(members))
    case Base(snapshot) => st.(snapshot := Some(snapshot))
    case Promised(e, b) => st.(epochs := st.epochs[e := EpochOf(st, e).(promised := b)])
    case Voted(e, s, b, c) =>
      var here := EpochOf(st, e);
      st.(epochs := st.epochs[e := here.(accepted := here.accepted[s := Vote(b, c)])])
    case Decided(e, s, c) =>
      var here := EpochOf(st, e);
      st.(epochs := st.epochs[e := here.(chosen := here.chosen[s := c])])
  }

  function Fold(st: DurableState, xs: seq<Fact>): DurableState
    decreases |xs|
  {
    if xs == [] then st else Fold(Noted(st, xs[0]), xs[1..])
  }

  function FromSlot<T>(m: map<nat, T>, slot: nat): map<nat, T> {
    map s | s in m && slot <= s :: m[s]
  }

  /** The log before the snapshot is forgotten. */
  function Prune(st: DurableState): DurableState {
    if st.snapshot.None? then st
    else
      var first, slot := st.snapshot.value.epoch, st.snapshot.value.nextSlot;
      st.(epochs := map e | e in st.epochs && first <= e ::
            var here := st.epochs[e];
            if e == first then here.(accepted := FromSlot(here.accepted, slot), chosen := FromSlot(here.chosen, slot))
            else here)
  }

  // bytes

  newtype Byte = x: int | 0 <= x < 256
  const NUL: Byte := 0
  const LF: Byte := 10

  /** How a fact becomes the text of a line and back. */
  datatype Codec = Codec(enc: Fact -> seq<Byte>, dec: seq<Byte> -> Option<Fact>)

  predicate Plain(s: seq<Byte>) {
    LF !in s && NUL !in s
  }

  /** What JSON objects in ASCII give: a line reads back and holds no newline and no zero byte, no part
      cut off at its end is itself a value, and nothing with a zero byte in it is. */
  ghost predicate Lawful(codec: Codec) {
    && (forall x :: Plain(codec.enc(x)) && codec.dec(codec.enc(x)) == Some(x))
    && (forall x, k :: 0 <= k < |codec.enc(x)| ==> codec.dec(codec.enc(x)[..k]) == None)
    && (forall s :: s == [] || NUL in s ==> codec.dec(s) == None)
  }

  /** What a crash can leave after the last newline, its padding aside. */
  predicate Tail(s: seq<Byte>) {
    LF !in s && (s != [] ==> s[|s| - 1] != NUL)
  }

  function Written(codec: Codec, x: Fact): seq<Byte> {
    codec.enc(x) + [LF]
  }

  function Bytes(codec: Codec, xs: seq<Fact>): seq<Byte> {
    if xs == [] then [] else Written(codec, xs[0]) + Bytes(codec, xs[1..])
  }

  function Zeros(n: nat): seq<Byte> {
    seq(n, _ => NUL)
  }

  /** The file without the zero padding at its end. */
  function Strip(s: seq<Byte>): (r: seq<Byte>)
    ensures |r| <= |s| && r == s[..|r|] && (forall i :: |r| <= i < |s| ==> s[i] == NUL)
    ensures r != [] ==> r[|r| - 1] != NUL
  {
    if s != [] && s[|s| - 1] == NUL then Strip(s[..|s| - 1]) else s
  }

  function FirstNewline(s: seq<Byte>): (n: nat)
    ensures n <= |s| && (forall i :: 0 <= i < n ==> s[i] != LF) && (n < |s| ==> s[n] == LF)
  {
    if s == [] || s[0] == LF then 0 else 1 + FirstNewline(s[1..])
  }

  function Lines(s: seq<Byte>): seq<seq<Byte>> {
    var n := FirstNewline(s);
    if s == [] then []
    else if n == |s| then [s]
    else [s[..n]] + Lines(s[n + 1..])
  }

  /** Where the last whole line ends. */
  function AfterLastNewline(s: seq<Byte>): (n: nat)
    ensures n <= |s| && (forall i :: n <= i < |s| ==> s[i] != LF) && (n > 0 ==> s[n - 1] == LF)
  {
    if s == [] || s[|s| - 1] == LF then |s| else AfterLastNewline(s[..|s| - 1])
  }

  /** The facts read until the first line that is not one. */
  function Read(codec: Codec, lines: seq<seq<Byte>>): seq<Fact> {
    if lines == [] || codec.dec(lines[0]).None? then []
    else [codec.dec(lines[0]).value] + Read(codec, lines[1..])
  }

  function Facts(codec: Codec, file: seq<Byte>): seq<Fact> {
    Read(codec, Lines(Strip(file)))
  }

  /** What a process started on the file knows. */
  function Loads(codec: Codec, file: seq<Byte>): DurableState {
    Prune(Fold(NOTHING, Facts(codec, file)))
  }

  /** Overwrites the bytes from `at` on, growing the file where it is too short. */
  function Pwrite(file: seq<Byte>, at: nat, bytes: seq<Byte>): seq<Byte>
    requires at <= |file|
  {
    file[..at] + bytes + if at + |bytes| <= |file| then file[at + |bytes|..] else []
  }

  // reading back what was written

  lemma StripEnds(s: seq<Byte>, n: nat)
    requires s != [] ==> s[|s| - 1] != NUL
    ensures Strip(s + Zeros(n)) == s
  {
    assert forall i :: |s| <= i < |s| + n ==> (s + Zeros(n))[i] == NUL;
    assert s != [] ==> (s + Zeros(n))[|s| - 1] == s[|s| - 1];
  }

  lemma FirstLine(a: seq<Byte>, rest: seq<Byte>)
    requires LF !in a
    ensures Lines(a + [LF] + rest) == [a] + Lines(rest)
  {
    var s := a + [LF] + rest;
    var n := FirstNewline(s);
    assert s[|a|] == LF && forall i :: 0 <= i < |a| ==> s[i] == a[i];
    assert s[..n] == a && s[n + 1..] == rest;
  }

  lemma LastLine(tail: seq<Byte>)
    requires LF !in tail
    ensures Lines(tail) == if tail == [] then [] else [tail]
  {
  }

  lemma LastNewline(a: seq<Byte>, tail: seq<Byte>)
    requires LF !in tail && (a != [] ==> a[|a| - 1] == LF)
    ensures AfterLastNewline(a + tail) == |a|
  {
    assert a != [] ==> (a + tail)[|a| - 1] == LF;
    assert forall i :: |a| <= i < |a + tail| ==> (a + tail)[i] in tail;
  }

  lemma {:induction false} BytesEndInNewline(codec: Codec, xs: seq<Fact>)
    ensures var t := Bytes(codec, xs); (t == [] <==> xs == []) && (t != [] ==> t[|t| - 1] == LF)
  {
    if xs != [] {
      BytesEndInNewline(codec, xs[1..]);
    }
  }

  lemma {:induction false} BytesGrow(codec: Codec, xs: seq<Fact>, x: Fact)
    ensures Bytes(codec, xs + [x]) == Bytes(codec, xs) + Written(codec, x)
  {
    if xs == [] {
      assert [x][1..] == [];
    } else {
      BytesGrow(codec, xs[1..], x);
      assert (xs + [x])[1..] == xs[1..] + [x];
    }
  }

  /** What a tail without a newline adds to what is read. */
  function Kept(codec: Codec, tail: seq<Byte>): seq<Fact> {
    if codec.dec(tail).Some? then [codec.dec(tail).value] else []
  }

  lemma ReadsFirstLine(codec: Codec, x: Fact, rest: seq<Byte>)
    requires Lawful(codec)
    ensures Read(codec, Lines(Written(codec, x) + rest)) == [x] + Read(codec, Lines(rest))
  {
    assert Plain(codec.enc(x)) && codec.dec(codec.enc(x)) == Some(x);
    hide Lawful;
    FirstLine(codec.enc(x), rest);
    hide Lines;
    assert ([codec.enc(x)] + Lines(rest))[1..] == Lines(rest);
  }

  lemma ReadsTail(codec: Codec, tail: seq<Byte>)
    requires Lawful(codec) && Tail(tail)
    ensures Read(codec, Lines(tail)) == Kept(codec, tail)
  {
    assert codec.dec([]) == None;
    hide Lawful;
    LastLine(tail);
    hide Lines;
    assert [tail][1..] == [];
  }

  lemma BytesOfFirst(codec: Codec, xs: seq<Fact>, tail: seq<Byte>)
    ensures Bytes(codec, xs) + tail == if xs == [] then tail else Written(codec, xs[0]) + (Bytes(codec, xs[1..]) + tail)
  {
    hide Written;
  }

  lemma {:induction false} ReadsWholeLines(codec: Codec, xs: seq<Fact>, tail: seq<Byte>)
    requires Lawful(codec) && Tail(tail)
    ensures Read(codec, Lines(Bytes(codec, xs) + tail)) == xs + Kept(codec, tail)
    decreases |xs|
  {
    hide *;
    BytesOfFirst(codec, xs, tail);
    if xs == [] {
      ReadsTail(codec, tail);
    } else {
      var rest := Bytes(codec, xs[1..]) + tail;
      ReadsWholeLines(codec, xs[1..], tail);
      ReadsFirstLine(codec, xs[0], rest);
      assert [xs[0]] + xs[1..] == xs;
    }
  }

  /** Any whole lines, any unterminated tail, any padding: `load` reads the lines, and the tail only if
      it is a complete value. */
  lemma JournalReadsBack(codec: Codec, xs: seq<Fact>, tail: seq<Byte>, padding: nat)
    requires Lawful(codec) && Tail(tail)
    ensures Facts(codec, Bytes(codec, xs) + tail + Zeros(padding)) == xs + Kept(codec, tail)
  {
    StripsPadding(codec, xs, tail, padding);
    ReadsWholeLines(codec, xs, tail);
  }

  lemma OpenedReads(codec: Codec, xs: seq<Fact>, padding: nat)
    requires Lawful(codec)
    ensures Facts(codec, Bytes(codec, xs) + Zeros(padding)) == xs
  {
    JournalReadsBack(codec, xs, [], padding);
    assert Bytes(codec, xs) + [] == Bytes(codec, xs) && xs + [] == xs;
  }

  /** A line written over the padding, cut short by a crash anywhere: it is there or it is not, and it
      is there once only its newline can be missing. */
  lemma TornWriteIsAllOrNothing(codec: Codec, xs: seq<Fact>, x: Fact, cut: nat, padding: nat)
    requires Lawful(codec) && cut <= |Written(codec, x)| <= padding
    ensures Facts(codec, Pwrite(Bytes(codec, xs) + Zeros(padding), |Bytes(codec, xs)|, Written(codec, x)[..cut]))
            == if cut < |codec.enc(x)| then xs else xs + [x]
  {
    hide *;
    var part := Written(codec, x)[..cut];
    Overwriting(Bytes(codec, xs), part, padding);
    CutLine(codec, x, cut);
    if cut <= |codec.enc(x)| {
      JournalReadsBack(codec, xs, part, padding - cut);
      assert xs + [] == xs;
    } else {
      BytesGrow(codec, xs, x);
      OpenedReads(codec, xs + [x], padding - cut);
    }
  }

  lemma CutLine(codec: Codec, x: Fact, cut: nat)
    requires Lawful(codec) && cut <= |Written(codec, x)|
    ensures var part := Written(codec, x)[..cut];
            if cut <= |codec.enc(x)| then Plain(part) && Kept(codec, part) == (if cut < |codec.enc(x)| then [] else [x])
            else part == Written(codec, x)
  {
    var whole, part := codec.enc(x), Written(codec, x)[..cut];
    assert Plain(whole) && codec.dec(whole) == Some(x);
    if cut < |whole| {
      assert part == whole[..cut];
      assert codec.dec(whole[..cut]) == None;
    } else if cut == |whole| {
      assert part == whole;
    }
  }

  lemma Overwriting(t: seq<Byte>, part: seq<Byte>, padding: nat)
    requires |part| <= padding
    ensures Pwrite(t + Zeros(padding), |t|, part) == t + part + Zeros(padding - |part|)
  {
  }

  // the folded state

  lemma {:induction false} FoldInTwo(st: DurableState, xs: seq<Fact>, ys: seq<Fact>)
    ensures Fold(st, xs + ys) == Fold(Fold(st, xs), ys)
    decreases |xs|
  {
    if xs == [] {
      assert xs + ys == ys;
    } else {
      FoldInTwo(Noted(st, xs[0]), xs[1..], ys);
      assert (xs + ys)[1..] == xs[1..] + ys;
    }
  }

  lemma FoldGrows(st: DurableState, xs: seq<Fact>, x: Fact)
    ensures Fold(st, xs + [x]) == Noted(Fold(st, xs), x)
  {
    FoldInTwo(st, xs, [x]);
  }

  // what `_rewrite` writes

  function Votes(e: nat, accepted: map<nat, Vote>, hi: nat): seq<Fact> {
    if hi == 0 then []
    else Votes(e, accepted, hi - 1)
         + if hi - 1 in accepted then [Voted(e, hi - 1, accepted[hi - 1].ballot, accepted[hi - 1].command)] else []
  }

  function Decisions(e: nat, chosen: map<nat, Command>, hi: nat): seq<Fact> {
    if hi == 0 then []
    else Decisions(e, chosen, hi - 1) + if hi - 1 in chosen then [Decided(e, hi - 1, chosen[hi - 1])] else []
  }

  ghost function OfEpoch(e: nat, here: EpochState): seq<Fact> {
    [Promised(e, here.promised)] + Votes(e, here.accepted, Above(here.accepted.Keys))
      + Decisions(e, here.chosen, Above(here.chosen.Keys))
  }

  ghost function OfEpochs(epochs: map<nat, EpochState>, hi: nat): seq<Fact> {
    if hi == 0 then []
    else OfEpochs(epochs, hi - 1) + if hi - 1 in epochs then OfEpoch(hi - 1, epochs[hi - 1]) else []
  }

  function Head(st: DurableState): seq<Fact> {
    (if st.genesis.Some? then [FirstVoters(st.genesis.value)] else [])
      + if st.snapshot.Some? then [Base(st.snapshot.value)] else []
  }

  /** One line per fact: the voters, the snapshot, then epoch by epoch and slot by slot. */
  ghost function Rewritten(st: DurableState): seq<Fact> {
    Head(st) + OfEpochs(st.epochs, Above(st.epochs.Keys))
  }

  /** Where a line stands in a rewritten journal: epoch by epoch its promise, its votes, its decisions, each
      slot by slot. */
  function Rank(x: Fact): (nat, nat, nat) {
    match x
    case Promised(e, _) => (e, 0, 0)
    case Voted(e, s, _, _) => (e, 1, s)
    case Decided(e, s, _) => (e, 2, s)
    case _ => (0, 0, 0)
  }

  predicate RanksBelow(x: Fact, y: Fact) {
    var a, b := Rank(x), Rank(y);
    a.0 < b.0 || (a.0 == b.0 && (a.1 < b.1 || (a.1 == b.1 && a.2 < b.2)))
  }

  predicate InOrder(xs: seq<Fact>) {
    forall i, j :: 0 <= i < j < |xs| ==> RanksBelow(xs[i], xs[j])
  }

  /** What the state `epochs` holds and a line may say. */
  predicate Says(epochs: map<nat, EpochState>, x: Fact) {
    match x
    case Promised(e, b) => e in epochs && epochs[e].promised == b
    case Voted(e, s, b, c) => e in epochs && s in epochs[e].accepted && epochs[e].accepted[s] == Vote(b, c)
    case Decided(e, s, c) => e in epochs && s in epochs[e].chosen && epochs[e].chosen[s] == c
    case _ => false
  }

  lemma {:induction false} VotesInOrder(e: nat, accepted: map<nat, Vote>, hi: nat)
    ensures InOrder(Votes(e, accepted, hi))
    ensures forall x :: x in Votes(e, accepted, hi) <==>
              x.Voted? && x.epoch == e && x.slot < hi && x.slot in accepted && accepted[x.slot] == Vote(x.ballot, x.command)
  {
    if hi > 0 {
      VotesInOrder(e, accepted, hi - 1);
    }
  }

  lemma {:induction false} DecisionsInOrder(e: nat, chosen: map<nat, Command>, hi: nat)
    ensures InOrder(Decisions(e, chosen, hi))
    ensures forall x :: x in Decisions(e, chosen, hi) <==>
              x.Decided? && x.epoch == e && x.slot < hi && x.slot in chosen && chosen[x.slot] == x.command
  {
    if hi > 0 {
      DecisionsInOrder(e, chosen, hi - 1);
    }
  }

  lemma OrderJoins(xs: seq<Fact>, ys: seq<Fact>)
    requires InOrder(xs) && InOrder(ys) && forall x, y :: x in xs && y in ys ==> RanksBelow(x, y)
    ensures InOrder(xs + ys)
  {
    hide RanksBelow;
    var zs := xs + ys;
    forall i, j | 0 <= i < j < |zs| ensures RanksBelow(zs[i], zs[j]) {
      if i < |xs| <= j {
        assert zs[i] in xs && zs[j] in ys;
      }
    }
  }

  lemma EpochInOrder(e: nat, here: EpochState)
    ensures InOrder(OfEpoch(e, here))
    ensures forall x :: x in OfEpoch(e, here) <==> Says(map[e := here], x)
  {
    var first, votes := [Promised(e, here.promised)], Votes(e, here.accepted, Above(here.accepted.Keys));
    var decisions := Decisions(e, here.chosen, Above(here.chosen.Keys));
    VotesInOrder(e, here.accepted, Above(here.accepted.Keys));
    DecisionsInOrder(e, here.chosen, Above(here.chosen.Keys));
    OrderJoins(first, votes);
    OrderJoins(first + votes, decisions);
  }

  /** A rewritten journal says each thing the state holds once, and in order. */
  lemma {:induction false} EpochsInOrder(epochs: map<nat, EpochState>, hi: nat)
    ensures InOrder(OfEpochs(epochs, hi))
    ensures forall x :: x in OfEpochs(epochs, hi) <==> Says(epochs, x) && x.epoch < hi
  {
    hide OfEpoch, InOrder, Says, RanksBelow;
    if hi == 0 {
      NoLines(epochs);
    } else {
      EpochsInOrder(epochs, hi - 1);
      var before := OfEpochs(epochs, hi - 1);
      if hi - 1 in epochs {
        var here := OfEpoch(hi - 1, epochs[hi - 1]);
        EpochInOrder(hi - 1, epochs[hi - 1]);
        EpochsApart(epochs, hi - 1);
        OrderJoins(before, here);
        assert OfEpochs(epochs, hi) == before + here;
      } else {
        assert OfEpochs(epochs, hi) == before;
        EpochsApart(epochs, hi - 1);
      }
    }
  }

  lemma NoLines(epochs: map<nat, EpochState>)
    ensures InOrder([]) && forall x: Fact :: Says(epochs, x) ==> x.epoch >= 0
  {
  }

  /** What one epoch says ranks above what those before it say, and is all there is between them. */
  lemma EpochsApart(epochs: map<nat, EpochState>, e: nat)
    ensures e in epochs ==> forall x :: Says(map[e := epochs[e]], x) <==> Says(epochs, x) && x.epoch == e
    ensures e !in epochs ==> forall x :: Says(epochs, x) ==> x.epoch != e
    ensures e in epochs ==>
              forall x, y :: Says(epochs, x) && x.epoch < e && Says(map[e := epochs[e]], y) ==> RanksBelow(x, y)
  {
  }

  lemma RewrittenInOrder(st: DurableState)
    ensures var xs := Rewritten(st)[|Head(st)|..];
            InOrder(xs) && forall x :: x in xs <==> Says(st.epochs, x)
  {
    EpochsInOrder(st.epochs, Above(st.epochs.Keys));
    assert Rewritten(st)[|Head(st)|..] == OfEpochs(st.epochs, Above(st.epochs.Keys));
    assert forall x :: Says(st.epochs, x) ==> x.epoch in st.epochs.Keys;
    hide OfEpochs, InOrder, Says;
  }

  function Below<T>(m: map<nat, T>, n: nat): map<nat, T> {
    map s | s in m && s < n :: m[s]
  }

  lemma {:induction false} FoldVotes(st: DurableState, e: nat, accepted: map<nat, Vote>, hi: nat)
    requires e in st.epochs && st.epochs[e].accepted == map[]
    ensures Fold(st, Votes(e, accepted, hi))
            == st.(epochs := st.epochs[e := st.epochs[e].(accepted := Below(accepted, hi))])
  {
    if hi == 0 {
      assert Below(accepted, 0) == map[];
    } else {
      FoldVotes(st, e, accepted, hi - 1);
      if hi - 1 in accepted {
        FoldGrows(st, Votes(e, accepted, hi - 1), Voted(e, hi - 1, accepted[hi - 1].ballot, accepted[hi - 1].command));
        assert Below(accepted, hi) == Below(accepted, hi - 1)[hi - 1 := accepted[hi - 1]];
      } else {
        assert Below(accepted, hi) == Below(accepted, hi - 1);
        assert Votes(e, accepted, hi) == Votes(e, accepted, hi - 1);
      }
    }
  }

  lemma {:induction false} FoldDecisions(st: DurableState, e: nat, chosen: map<nat, Command>, hi: nat)
    requires e in st.epochs && st.epochs[e].chosen == map[]
    ensures Fold(st, Decisions(e, chosen, hi))
            == st.(epochs := st.epochs[e := st.epochs[e].(chosen := Below(chosen, hi))])
  {
    if hi == 0 {
      assert Below(chosen, 0) == map[];
    } else {
      FoldDecisions(st, e, chosen, hi - 1);
      if hi - 1 in chosen {
        FoldGrows(st, Decisions(e, chosen, hi - 1), Decided(e, hi - 1, chosen[hi - 1]));
        assert Below(chosen, hi) == Below(chosen, hi - 1)[hi - 1 := chosen[hi - 1]];
      } else {
        assert Below(chosen, hi) == Below(chosen, hi - 1);
        assert Decisions(e, chosen, hi) == Decisions(e, chosen, hi - 1);
      }
    }
  }

  lemma FoldEpoch(st: DurableState, e: nat, here: EpochState)
    requires e !in st.epochs
    ensures Fold(st, OfEpoch(e, here)) == st.(epochs := st.epochs[e := here])
  {
    var votes := Votes(e, here.accepted, Above(here.accepted.Keys));
    var decisions := Decisions(e, here.chosen, Above(here.chosen.Keys));
    var st1 := Noted(st, Promised(e, here.promised));
    assert Fold(st, [Promised(e, here.promised)]) == st1;
    FoldInTwo(st, [Promised(e, here.promised)] + votes, decisions);
    FoldInTwo(st, [Promised(e, here.promised)], votes);
    FoldVotes(st1, e, here.accepted, Above(here.accepted.Keys));
    assert Below(here.accepted, Above(here.accepted.Keys)) == here.accepted;
    FoldDecisions(Fold(st1, votes), e, here.chosen, Above(here.chosen.Keys));
    assert Below(here.chosen, Above(here.chosen.Keys)) == here.chosen;
  }

  lemma {:induction false} FoldEpochs(st: DurableState, epochs: map<nat, EpochState>, hi: nat)
    requires st.epochs == map[]
    ensures Fold(st, OfEpochs(epochs, hi)) == st.(epochs := Below(epochs, hi))
  {
    if hi == 0 {
      assert Below(epochs, 0) == map[];
    } else {
      FoldEpochs(st, epochs, hi - 1);
      if hi - 1 in epochs {
        FoldInTwo(st, OfEpochs(epochs, hi - 1), OfEpoch(hi - 1, epochs[hi - 1]));
        FoldEpoch(st.(epochs := Below(epochs, hi - 1)), hi - 1, epochs[hi - 1]);
        assert Below(epochs, hi) == Below(epochs, hi - 1)[hi - 1 := epochs[hi - 1]];
      } else {
        assert Below(epochs, hi) == Below(epochs, hi - 1);
        assert OfEpochs(epochs, hi) == OfEpochs(epochs, hi - 1);
      }
    }
  }

  lemma HeadFolds(st: DurableState)
    ensures Fold(NOTHING, Head(st)) == DurableState(st.genesis, map[], st.snapshot)
  {
    var voters := if st.genesis.Some? then [FirstVoters(st.genesis.value)] else [];
    var base := if st.snapshot.Some? then [Base(st.snapshot.value)] else [];
    FoldInTwo(NOTHING, voters, base);
    assert Fold(NOTHING, voters) == DurableState(st.genesis, map[], None);
  }

  /** Folding what `_rewrite` writes gives back the very state it wrote. */
  lemma RewriteLosesNothing(st: DurableState)
    ensures Fold(NOTHING, Rewritten(st)) == st
  {
    var start := DurableState(st.genesis, map[], st.snapshot);
    var epochs := OfEpochs(st.epochs, Above(st.epochs.Keys));
    HeadFolds(st);
    FoldInTwo(NOTHING, Head(st), epochs);
    FoldEpochs(start, st.epochs, Above(st.epochs.Keys));
    assert Below(st.epochs, Above(st.epochs.Keys)) == st.epochs;
  }

  lemma PruneTwice(st: DurableState)
    ensures Prune(Prune(st)) == Prune(st)
  {
    if st.snapshot.Some? {
      var p, q := Prune(st), Prune(Prune(st));
      var slot := st.snapshot.value.nextSlot;
      forall e | e in p.epochs ensures e in q.epochs && q.epochs[e] == p.epochs[e] {
        assert FromSlot(p.epochs[e].accepted, slot) == p.epochs[e].accepted || e != st.snapshot.value.epoch;
        assert FromSlot(p.epochs[e].chosen, slot) == p.epochs[e].chosen || e != st.snapshot.value.epoch;
      }
      assert p.epochs == q.epochs;
    }
  }

  /** The journal rewritten around a state loads as that state, pruned. */
  lemma RewrittenJournalLoads(codec: Codec, st: DurableState)
    requires Lawful(codec)
    ensures Loads(codec, Bytes(codec, Rewritten(st))) == Prune(st)
  {
    var xs := Rewritten(st);
    JournalReadsBack(codec, xs, [], 0);
    assert Bytes(codec, xs) + [] + Zeros(0) == Bytes(codec, xs) && xs + [] == xs;
    RewriteLosesNothing(st);
  }

  // the tail that is a complete value

  /** What `_open` leaves of a file: its whole lines, and zeros where the rest was. */
  function Opened(file: seq<Byte>): seq<Byte> {
    var data := Strip(file);
    var end := AfterLastNewline(data);
    Pwrite(file, end, Zeros(|data| - end))
  }

  lemma StripsPadding(codec: Codec, xs: seq<Fact>, tail: seq<Byte>, padding: nat)
    requires Tail(tail)
    ensures Strip(Bytes(codec, xs) + tail + Zeros(padding)) == Bytes(codec, xs) + tail
    ensures AfterLastNewline(Bytes(codec, xs) + tail) == |Bytes(codec, xs)|
  {
    var s := Bytes(codec, xs) + tail;
    BytesEndInNewline(codec, xs);
    assert s != [] ==> s[|s| - 1] == (if tail != [] then tail[|tail| - 1] else Bytes(codec, xs)[|Bytes(codec, xs)| - 1]);
    StripEnds(s, padding);
    LastNewline(Bytes(codec, xs), tail);
  }

  lemma OpenKeepsWholeLines(codec: Codec, xs: seq<Fact>, tail: seq<Byte>, padding: nat)
    requires Tail(tail)
    ensures Opened(Bytes(codec, xs) + tail + Zeros(padding)) == Bytes(codec, xs) + Zeros(|tail| + padding)
  {
    StripsPadding(codec, xs, tail, padding);
    Blanked(Bytes(codec, xs), tail, padding);
  }

  lemma Blanked(t: seq<Byte>, tail: seq<Byte>, padding: nat)
    ensures Pwrite(t + tail + Zeros(padding), |t|, Zeros(|tail|)) == t + Zeros(|tail| + padding)
    ensures |t + Zeros(|tail| + padding)| == |t + tail + Zeros(padding)|
  {
  }

  /** Opening the journal for appending keeps what `load` read from it if and only if the tail after
      the last newline is not a complete value. */
  lemma OpenKeepsWhatWasReadExactly(codec: Codec, xs: seq<Fact>, tail: seq<Byte>, padding: nat)
    requires Lawful(codec) && Tail(tail)
    ensures var file := Bytes(codec, xs) + tail + Zeros(padding);
            Facts(codec, Opened(file)) == Facts(codec, file) <==> codec.dec(tail).None?
  {
    hide *;
    JournalReadsBack(codec, xs, tail, padding);
    OpenKeepsWholeLines(codec, xs, tail, padding);
    OpenedReads(codec, xs, |tail| + padding);
    KeptIsAnEntry(codec, tail);
  }

  lemma KeptIsAnEntry(codec: Codec, tail: seq<Byte>)
    ensures |Kept(codec, tail)| == if codec.dec(tail).Some? then 1 else 0
  {
  }

  /** A crash while the zeros are being written: the file is still whole lines, a tail and padding, and
      from the first zero on the tail is not read. */
  lemma TornOpenKeepsLines(codec: Codec, xs: seq<Fact>, tail: seq<Byte>, padding: nat, cut: nat)
    returns (tail': seq<Byte>, padding': nat)
    requires Lawful(codec) && Tail(tail) && cut <= |tail|
    ensures Tail(tail')
    ensures Pwrite(Bytes(codec, xs) + tail + Zeros(padding), |Bytes(codec, xs)|, Zeros(cut))
            == Bytes(codec, xs) + tail' + Zeros(padding')
    ensures Facts(codec, Bytes(codec, xs) + tail' + Zeros(padding')) == xs + if cut == 0 then Kept(codec, tail) else []
  {
    tail', padding' := if cut == |tail| then [] else Zeros(cut) + tail[cut..], if cut == |tail| then |tail| + padding else padding;
    PartlyBlanked(Bytes(codec, xs), tail, padding, cut);
    BlankedTail(codec, tail, cut);
    hide *;
    JournalReadsBack(codec, xs, tail', padding');
  }

  lemma PartlyBlanked(t: seq<Byte>, tail: seq<Byte>, padding: nat, cut: nat)
    requires cut <= |tail|
    ensures Pwrite(t + tail + Zeros(padding), |t|, Zeros(cut))
            == if cut == |tail| then t + [] + Zeros(|tail| + padding) else t + (Zeros(cut) + tail[cut..]) + Zeros(padding)
  {
  }

  lemma BlankedTail(codec: Codec, tail: seq<Byte>, cut: nat)
    requires Lawful(codec) && Tail(tail) && cut <= |tail|
    ensures var tail' := if cut == |tail| then [] else Zeros(cut) + tail[cut..];
            Tail(tail') && Kept(codec, tail') == if cut == 0 then Kept(codec, tail) else []
  {
    var tail' := if cut == |tail| then [] else Zeros(cut) + tail[cut..];
    if cut == |tail| {
      assert codec.dec([]) == None;
    } else if cut == 0 {
      assert tail' == tail;
    } else {
      assert tail'[0] == NUL;
      assert codec.dec(tail') == None;
    }
  }
}
