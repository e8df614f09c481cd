/** What an acceptor keeps and answers (app/consensus/acceptor.py), as functions of its stored state. */
module Ledgers {
  import opened Ballots
  import opened StateMachines
  import opened Messages

  datatype Vote = Vote(ballot: Ballot, command: Command)

  /** One epoch's stable storage: the highest ballot promised, and the last vote per slot. */
  datatype Ledger = Ledger(promised: Ballot, accepted: map<nat, Vote>)

  const FRESH := Ledger(ZERO, map[])

  function Raised(l: Ledger, b: Ballot): Ledger {
    if Less(l.promised, b) then l.(promised := b) else l
  }

  /** The first slot above every slot of `slots`. */
  ghost function Above(slots: set<nat>): (top: nat)
    ensures forall s :: s in slots ==> s < top
    ensures top > 0 ==> top - 1 in slots
  {
    if slots == {} then 0
    else
      var s :| s in slots;
      var rest := Above(slots - {s});
      assert forall t :: t in slots ==> t == s || t in slots - {s};
      if s < rest then rest else s + 1
  }

  /** The votes for the slots from `lo` up to `hi`, in slot order. */
  function Scan(accepted: map<nat, Vote>, lo: nat, hi: nat): seq<Entry>
    decreases hi - lo
  {
    if lo >= hi then []
    else if lo in accepted then
      [Entry(lo, accepted[lo].ballot, accepted[lo].command)] + Scan(accepted, lo + 1, hi)
    else Scan(accepted, lo + 1, hi)
  }

  /** What a Promise reports: every vote at `from` and above, in slot order. */
  ghost function Report(accepted: map<nat, Vote>, from: nat): seq<Entry> {
    Scan(accepted, from, Above(accepted.Keys))
  }

  lemma {:induction false} ScanCovers(accepted: map<nat, Vote>, lo: nat, hi: nat)
    ensures var es := Scan(accepted, lo, hi);
            && (forall i, j :: 0 <= i < j < |es| ==> es[i].slot < es[j].slot)
            && (forall x :: x in es <==> lo <= x.slot < hi && x.slot in accepted
                                         && accepted[x.slot] == Vote(x.ballot, x.command))
    decreases hi - lo
  {
    if lo < hi {
      ScanCovers(accepted, lo + 1, hi);
    }
  }

  /** A report is sorted and names exactly the votes at `from` and above. */
  lemma ReportCovers(accepted: map<nat, Vote>, from: nat)
    ensures var es := Report(accepted, from);
            && (forall i, j :: 0 <= i < j < |es| ==> es[i].slot < es[j].slot)
            && (forall x :: x in es <==> from <= x.slot && x.slot in accepted
                                         && accepted[x.slot] == Vote(x.ballot, x.command))
  {
    ScanCovers(accepted, from, Above(accepted.Keys));
  }

  /** Phase 1b: the ledger after a Prepare, and the answer. */
  ghost function AnswerPrepare(id: NodeId, epoch: nat, l: Ledger, m: Message): (Ledger, Message)
    requires m.Prepare?
  {
    if Less(m.ballot, l.promised) then (l, Nack(id, epoch, m.ballot, l.promised))
    else (Raised(l, m.ballot), Promise(id, epoch, m.ballot, Report(l.accepted, m.fromSlot)))
  }

  /** Phase 2b: the ledger after an Accept, and the answer. Slots below `floor` are compacted away. */
  function AnswerAccept(id: NodeId, epoch: nat, l: Ledger, floor: nat, m: Message): (Ledger, Message)
    requires m.Accept?
  {
    if m.slot < floor || Less(m.ballot, l.promised) then (l, Nack(id, epoch, m.ballot, l.promised))
    else
      var l' := Raised(l, m.ballot);
      (l'.(accepted := l.accepted[m.slot := Vote(m.ballot, m.command)]), Accepted(id, epoch, m.ballot, m.slot))
  }

  /** Forgetting the votes below `slot`. */
  function Pruned(l: Ledger, slot: nat): Ledger {
    l.(accepted := map s | s in l.accepted && slot <= s :: l.accepted[s])
  }
}
