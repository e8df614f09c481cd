/** The journal file as the object that appends to it (app/consensus/storage.py: `FileStore`). */
module FileStores {
  import opened StateMachines
  import opened Ledgers
  import opened Acceptors
  import opened Journals

  const CHUNK: nat := 0x10_0000
  const COMPACT_SLACK: nat := 1000

  function InEpochs(epochs: map<nat, EpochState>, hi: nat): nat {
    if hi == 0 then 0
    else InEpochs(epochs, hi - 1)
         + if hi - 1 in epochs then 1 + |epochs[hi - 1].accepted| + |epochs[hi - 1].chosen| else 0
  }

  /** How many lines a state needs. */
  ghost function Distinct(st: DurableState): nat {
    1 + InEpochs(st.epochs, Above(st.epochs.Keys))
  }

  lemma {:induction false} VotesCount(e: nat, accepted: map<nat, Vote>, hi: nat)
    ensures |Votes(e, accepted, hi)| == |Below(accepted, hi)|
  {
    if hi == 0 {
      assert Below(accepted, hi) == map[];
    } else {
      VotesCount(e, accepted, hi - 1);
      OneMoreBelow(accepted, hi - 1);
    }
  }

  lemma {:induction false} DecisionsCount(e: nat, chosen: map<nat, Command>, hi: nat)
    ensures |Decisions(e, chosen, hi)| == |Below(chosen, hi)|
  {
    if hi == 0 {
      assert Below(chosen, hi) == map[];
    } else {
      DecisionsCount(e, chosen, hi - 1);
      OneMoreBelow(chosen, hi - 1);
    }
  }

  lemma OneMoreBelow<T>(m: map<nat, T>, n: nat)
    ensures |Below(m, n + 1)| == |Below(m, n)| + if n in m then 1 else 0
  {
    if n in m {
      assert Below(m, n + 1) == Below(m, n)[n := m[n]];
    } else {
      assert Below(m, n + 1) == Below(m, n);
    }
  }

  lemma {:induction false} EpochsCount(epochs: map<nat, EpochState>, hi: nat)
    ensures InEpochs(epochs, hi) == |OfEpochs(epochs, hi)|
  {
    hide OfEpoch, Above;
    if hi > 0 {
      EpochsCount(epochs, hi - 1);
      if hi - 1 in epochs {
        EpochCount(hi - 1, epochs[hi - 1]);
      }
    }
  }

  lemma EpochCount(e: nat, here: EpochState)
    ensures |OfEpoch(e, here)| == 1 + |here.accepted| + |here.chosen|
  {
    VotesCount(e, here.accepted, Above(here.accepted.Keys));
    DecisionsCount(e, here.chosen, Above(here.chosen.Keys));
    assert Below(here.accepted, Above(here.accepted.Keys)) == here.accepted;
    assert Below(here.chosen, Above(here.chosen.Keys)) == here.chosen;
  }

  /** The lines a state needs are those a rewriting would write for its epochs, and one more. */
  lemma DistinctCountsLines(st: DurableState)
    ensures Distinct(st) == 1 + |Rewritten(st)| - |Head(st)|
  {
    EpochsCount(st.epochs, Above(st.epochs.Keys));
  }

  class FileStore {
    const codec: Codec
    var file: seq<Byte>
    var open: bool
    var end: nat
    var size: nat
    /** The facts on whole lines, and what a crash left after them. */
    ghost var written: seq<Fact>
    ghost var tail: seq<Byte>
    ghost var padding: nat

    ghost predicate Valid()
      reads this
    {
      && Lawful(codec) && Tail(tail)
      && file == Bytes(codec, written) + tail + Zeros(padding)
      && (open ==> tail == [] && end == |Bytes(codec, written)| && size == |file|)
    }

    /** Over the file an earlier process left. */
    constructor (codec: Codec, file: seq<Byte>, ghost xs: seq<Fact>, ghost torn: seq<Byte>, ghost zeros: nat)
      requires Lawful(codec) && Tail(torn) && file == Bytes(codec, xs) + torn + Zeros(zeros)
      ensures Valid() && !open && this.codec == codec && this.file == file
      ensures written == xs && tail == torn
    {
      this.codec, this.file := codec, file;
      open, end, size := false, 0, 0;
      written, tail, padding := xs, torn, zeros;
    }

    /** Reads the state back; a journal with too many lines to spare is rewritten on the way. */
    method Load() returns (st: DurableState)
      requires Valid()
      modifies this
      ensures Valid() && st == Loads(codec, old(file)) == Loads(codec, file)
      ensures if |Lines(Strip(old(file)))| > 2 * Distinct(st) + COMPACT_SLACK
              then !open && tail == [] && written == Rewritten(st)
              else file == old(file) && open == old(open) && written == old(written) && tail == old(tail)
    {
      var lines := Lines(Strip(file));
      var folded := NOTHING;
      var i := 0;
      while i < |lines|
        invariant i <= |lines|
        invariant Fold(folded, Read(codec, lines[i..])) == Fold(NOTHING, Read(codec, lines))
      {
        var entry := codec.dec(lines[i]);
        if entry.None? {
          break;
        }
        assert lines[i..][1..] == lines[i + 1..];
        assert Read(codec, lines[i..])[1..] == Read(codec, lines[i + 1..]);
        folded := Noted(folded, entry.value);
        i := i + 1;
      }
      st := Prune(folded);
      var distinct := CountDistinct(st);
      if |lines| > 2 * distinct + COMPACT_SLACK {
        Rewrite(st);
        RewrittenJournalLoads(codec, st);
        PruneTwice(folded);
      }
    }

    method CountDistinct(st: DurableState) returns (n: nat)
      ensures n == Distinct(st)
    {
      n := 1;
      var top := TopOf(st.epochs.Keys);
      for e := 0 to top
        invariant n == 1 + InEpochs(st.epochs, e)
      {
        if e in st.epochs {
          n := n + 1 + |st.epochs[e].accepted| + |st.epochs[e].chosen|;
        }
      }
    }

    /** One line per fact in a new file, which then takes the old one's place at once. */
    method Rewrite(st: DurableState)
      requires Valid()
      modifies this
      ensures Valid() && !open && tail == [] && written == Rewritten(st) && file == Bytes(codec, written)
    {
      hide Lawful, Tail, OfEpoch, Zeros, Written, Bytes, Above;
      open := false;
      ghost var wrote := [];
      var text := [];
      NoBytes(codec);
      if st.genesis.Some? {
        text, wrote := WriteLine(text, FirstVoters(st.genesis.value), wrote);
      }
      if st.snapshot.Some? {
        text, wrote := WriteLine(text, Base(st.snapshot.value), wrote);
      }
      assert wrote == Head(st);
      var top := TopOf(st.epochs.Keys);
      for e := 0 to top
        modifies {}
        invariant text == Bytes(codec, wrote) && wrote == Head(st) + OfEpochs(st.epochs, e)
      {
        if e in st.epochs {
          text, wrote := WriteEpoch(text, e, st.epochs[e], wrote);
        }
      }
      file := text;
      written, tail, padding := wrote, [], 0;
      Settled();
    }

    method WriteLine(text: seq<Byte>, x: Fact, ghost wrote: seq<Fact>) returns (more: seq<Byte>, ghost all: seq<Fact>)
      requires text == Bytes(codec, wrote)
      ensures all == wrote + [x] && more == Bytes(codec, all)
    {
      BytesGrow(codec, wrote, x);
      more, all := text + Written(codec, x), wrote + [x];
    }

    method WriteEpoch(text: seq<Byte>, e: nat, here: EpochState, ghost wrote: seq<Fact>)
      returns (more: seq<Byte>, ghost all: seq<Fact>)
      requires text == Bytes(codec, wrote)
      ensures all == wrote + OfEpoch(e, here) && more == Bytes(codec, all)
    {
      hide Bytes, Written;
      more, all := WriteLine(text, Promised(e, here.promised), wrote);
      ghost var first := all;
      var votes := TopOf(here.accepted.Keys);
      for s := 0 to votes
        invariant more == Bytes(codec, all) && all == first + Votes(e, here.accepted, s)
      {
        if s in here.accepted {
          more, all := WriteLine(more, Voted(e, s, here.accepted[s].ballot, here.accepted[s].command), all);
        }
      }
      ghost var second := all;
      var decisions := TopOf(here.chosen.Keys);
      for s := 0 to decisions
        invariant more == Bytes(codec, all) && all == second + Decisions(e, here.chosen, s)
      {
        if s in here.chosen {
          more, all := WriteLine(more, Decided(e, s, here.chosen[s]), all);
        }
      }
    }

    method Compact(st: DurableState)
      requires Valid()
      modifies this
      ensures Valid() && !open && tail == [] && written == Rewritten(st) && Loads(codec, file) == Prune(st)
    {
      Rewrite(st);
      RewrittenJournalLoads(codec, st);
    }

    /** On disk before it returns: after every earlier line, whatever a crash had left there. */
    method Append(x: Fact)
      requires Valid()
      modifies this
      ensures Valid() && open && tail == [] && written == old(written) + [x]
      ensures Facts(codec, file) == old(written) + [x]
    {
      hide Lawful, Tail, Facts, Bytes, Zeros, Pwrite;
      if !open {
        Open();
      }
      var line := Written(codec, x);
      Reserve(|line|);
      Settled();
      Overwriting(Bytes(codec, written), line, padding);
      BytesGrow(codec, written, x);
      file := Pwrite(file, end, line);
      end := end + |line|;
      written, padding := written + [x], padding - |line|;
      Settled();
      OpenedReads(codec, written, padding);
    }

    /** Zeros ahead of the data, so that a line never makes the file grow. */
    method Reserve(n: nat)
      requires Valid() && open
      modifies this`file, this`size, this`padding
      ensures Valid() && n <= padding
    {
      hide Lawful, Tail, Bytes, Zeros, Pwrite;
      Settled();
      if end + n > size {
        var more := if CHUNK > n then CHUNK else n;
        PaddedMore(Bytes(codec, written), padding, more);
        file := Pwrite(file, size, Zeros(more));
        size := size + more;
        padding := padding + more;
        Settled();
      }
    }

    /** With nothing torn at the end. */
    lemma Settled()
      requires tail == []
      ensures Bytes(codec, written) + tail + Zeros(padding) == Bytes(codec, written) + Zeros(padding)
      ensures |Bytes(codec, written) + Zeros(padding)| == |Bytes(codec, written)| + padding
      ensures Tail(tail) && Zeros(0) == []
    {
    }

    /** The end of the last whole line becomes the end of the data; what follows is zeroed. */
    method Open()
      requires Valid() && !open
      modifies this
      ensures Valid() && open && tail == [] && written == old(written)
      ensures Loads(codec, file) == Prune(Fold(NOTHING, written))
    {
      hide Lawful, Tail, Facts, Bytes, Zeros, Strip, AfterLastNewline, Fold, Prune, Pwrite;
      open := true;
      var data := Strip(file);
      end := AfterLastNewline(data);
      size := |file|;
      StripsPadding(codec, written, tail, padding);
      Blanked(Bytes(codec, written), tail, padding);
      if end < |data| {
        file := Pwrite(file, end, Zeros(|data| - end));
      } else {
        Settled();
      }
      tail, padding := [], |tail| + padding;
      Settled();
      OpenedReads(codec, written, padding);
    }
  }

  lemma NoBytes(codec: Codec)
    ensures Bytes(codec, []) == []
  {
  }

  lemma PaddedMore(t: seq<Byte>, padding: nat, more: nat)
    ensures Pwrite(t + Zeros(padding), |t| + padding, Zeros(more)) == t + Zeros(padding + more)
  {
  }
}
