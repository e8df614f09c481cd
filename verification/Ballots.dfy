/** Proposal numbers (app/consensus/ballot.py): ordered by round, then by node id. */
module Ballots {
  type NodeId = string

  /** Python's order on strings: the first differing character decides, a proper prefix comes first. */
  predicate Before(a: NodeId, b: NodeId) {
    if b == "" then false
    else if a == "" then true
    else a[0] < b[0] || (a[0] == b[0] && Before(a[1..], b[1..]))
  }

  datatype Ballot = Ballot(round: nat, node: NodeId)

  const ZERO := Ballot(0, "")

  predicate Less(a: Ballot, b: Ballot) {
    a.round < b.round || (a.round == b.round && Before(a.node, b.node))
  }

  predicate AtMost(a: Ballot, b: Ballot) {
    a == b || Less(a, b)
  }

  /** The first place where they differ, or where one ends, decides. */
  lemma {:induction false} FirstDifferenceDecides(a: NodeId, b: NodeId)
    ensures Before(a, b) <==>
              exists k :: 0 <= k <= |a| && k < |b| && a[..k] == b[..k] && (k == |a| || a[k] < b[k])
  {
    if a != "" && b != "" {
      FirstDifferenceDecides(a[1..], b[1..]);
      if Before(a, b) {
        if a[0] == b[0] {
          var k :| 0 <= k <= |a[1..]| && k < |b[1..]| && a[1..][..k] == b[1..][..k] && (k == |a[1..]| || a[1..][k] < b[1..][k]);
          assert a[..k + 1] == [a[0]] + a[1..][..k] && b[..k + 1] == [b[0]] + b[1..][..k];
        } else {
          assert a[..0] == b[..0];
        }
      }
      if k :| 0 <= k <= |a| && k < |b| && a[..k] == b[..k] && (k == |a| || a[k] < b[k]) {
        if k > 0 {
          assert a[..k][0] == b[..k][0];
          assert a[1..][..k - 1] == a[..k][1..] && b[1..][..k - 1] == b[..k][1..];
        }
      }
    } else if b != "" {
      assert a[..0] == b[..0];
    }
  }

  lemma {:induction false} BeforeIsTotal(a: NodeId, b: NodeId)
    ensures Before(a, b) || a == b || Before(b, a)
    ensures !(Before(a, b) && Before(b, a))
    ensures !Before(a, a)
  {
    if a != "" && b != "" {
      BeforeIsTotal(a[1..], b[1..]);
      BeforeIsTotal(a[1..], a[1..]);
      assert a == [a[0]] + a[1..] && b == [b[0]] + b[1..];
    } else if a != "" {
      BeforeIsTotal(a[1..], a[1..]);
    }
  }

  lemma {:induction false} BeforeIsTransitive(a: NodeId, b: NodeId, c: NodeId)
    requires Before(a, b) && Before(b, c)
    ensures Before(a, c)
  {
    if a != "" && a[0] == b[0] == c[0] {
      BeforeIsTransitive(a[1..], b[1..], c[1..]);
    }
  }

  /** Ballots are totally ordered, so two different proposal numbers always compare. */
  lemma BallotsAreOrdered()
    ensures forall a, b :: Less(a, b) || a == b || Less(b, a)
    ensures forall a, b :: !(Less(a, b) && Less(b, a))
    ensures forall a :: !Less(a, a)
    ensures forall a, b, c :: Less(a, b) && Less(b, c) ==> Less(a, c)
  {
    forall a, b ensures Less(a, b) || a == b || Less(b, a)
      ensures !(Less(a, b) && Less(b, a)) && !Less(a, a)
    {
      BeforeIsTotal(a.node, b.node);
      BeforeIsTotal(a.node, a.node);
    }
    forall a, b, c | Less(a, b) && Less(b, c) ensures Less(a, c) {
      if a.round == c.round {
        BeforeIsTransitive(a.node, b.node, c.node);
      }
    }
  }
}
