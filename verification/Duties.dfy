/** What a node owes to what it hears (app/consensus/acceptor.py, roles.py): when it answers yes and when no,
    what it stores, whom it follows and what it gives up, said of its state and of what it sends. */
module Duties {
  import opened Ballots
  import opened StateMachines
  import opened Replays
  import opened Messages
  import opened Ledgers
  import opened Proposals
  import opened Nodes
  import opened Steps
  import opened Elections

  /** The role campaigns or leads under `b`. */
  predicate Under(role: Role, b: Ballot) {
    match role
    case Candidate(c) => c.ballot == b
    case Leader(l) => l.ballot == b
    case Follower => false
  }

  /** The role is given up when it was under a lower ballot than `b`, and kept otherwise. */
  ghost predicate GivesWayTo(role: Role, role': Role, b: Ballot) {
    if exists own :: Under(role, own) && Less(own, b) then role' == Follower else role' == role
  }

  /** A voter hears the messages of its epoch. */
  predicate Concerns(id: NodeId, nd: Node, m: Message) {
    !m.Snapshot? && m.epoch == nd.r.epoch && id in nd.r.members
  }

  /** What does not concern a node it drops, except that anyone learns the decisions of its epoch and takes
      snapshots in. */
  lemma OthersAreDropped(id: NodeId, nd: Node, m: Message)
    requires !m.Snapshot? && (m.epoch != nd.r.epoch || (id !in nd.r.members && !m.Commit?))
    ensures Handle(id, nd, m) == Quiet(nd)
  {
  }

  /** What handling leaves as it was: the log, the place in it, what waits to become the base. */
  predicate LogUntouched(nd: Node, nd': Node) {
    && nd'.r == nd.r && nd'.pending == nd.pending && nd'.pendingTotal == nd.pendingTotal && nd'.violated == nd.violated
    && nd'.disk.chosen == nd.disk.chosen && nd'.disk.snapshot == nd.disk.snapshot && nd'.disk.genesis == nd.disk.genesis
  }

  lemma OwnBallotIsUnder(role: Role, b: Ballot)
    ensures Less(OwnBallot(role), b) && !role.Follower? <==> exists own :: Under(role, own) && Less(own, b)
  {
    if !role.Follower? {
      assert Under(role, OwnBallot(role));
    }
  }

  // phase 1

  /** A Promise says yes to a ballot at least as high as every one promised, reports exactly the votes from
      the slot asked for on, and leaves that ballot promised, its round known, and no campaign or leadership
      under a lower one when another node asked. */
  ghost predicate Pledges(id: NodeId, nd: Node, m: Message, o: Effect)
    requires m.Prepare?
  {
    && (exists es: seq<Entry> :: o.sent == {Promise(id, nd.r.epoch, m.ballot, es)}
          && (forall i, j :: 0 <= i < j < |es| ==> es[i].slot < es[j].slot)
          && (forall x :: x in es <==> m.fromSlot <= x.slot && x.slot in Own(nd).accepted
                                       && Own(nd).accepted[x.slot] == Vote(x.ballot, x.command)))
    && Own(o.node).promised == m.ballot && Own(o.node).accepted == Own(nd).accepted
    && nd.maxRound <= o.node.maxRound && m.ballot.round <= o.node.maxRound
    && (if m.sender == id then o.node.role == nd.role else GivesWayTo(nd.role, o.node.role, m.ballot))
  }

  /** A refusal names what is promised and changes nothing. */
  ghost predicate Refuses(id: NodeId, nd: Node, m: Message, o: Effect)
    requires m.Prepare? || m.Accept?
  {
    && o.sent == {Nack(id, nd.r.epoch, m.ballot, Own(nd).promised)}
    && o.node == nd.(local := o.node.local)
  }

  lemma PrepareIsAnswered(id: NodeId, nd: Node, m: Message)
    requires m.Prepare? && Concerns(id, nd, m)
    ensures var o := Handle(id, nd, m);
            && LogUntouched(nd, o.node)
            && (if AtMost(Own(nd).promised, m.ballot) then Pledges(id, nd, m, o) else Refuses(id, nd, m, o))
            && (forall x :: x in o.sent ==> o.node.local == if m.sender == id then nd.local + [x] else nd.local)
  {
    BallotsAreOrdered();
    ReportCovers(Own(nd).accepted, m.fromSlot);
    OwnBallotIsUnder(nd.role, m.ballot);
    StoredShape(nd.disk, nd.r.epoch, AnswerPrepare(id, nd.r.epoch, Own(nd), m).0);
    hide Report, Stored, OwnBallot, Under;
  }

  // phase 2

  /** A vote is stored before it is told, under a promise as high; the leader it is for is followed unless a
      higher one was heard. */
  ghost predicate Votes(id: NodeId, nd: Node, m: Message, o: Effect)
    requires m.Accept?
  {
    && o.sent == {Accepted(id, nd.r.epoch, m.ballot, m.slot)}
    && Own(o.node) == Ledger(m.ballot, Own(nd).accepted[m.slot := Vote(m.ballot, m.command)])
    && nd.maxRound <= o.node.maxRound && m.ballot.round <= o.node.maxRound
    && Follows(id, nd, m.ballot, m.sender, o.node)
  }

  /** Whom a node follows once it heard `sender` lead under `b`. */
  ghost predicate Follows(id: NodeId, nd: Node, b: Ballot, sender: NodeId, nd': Node) {
    if AtMost(nd.leaderBallot, b) then
      && nd'.leader == Some(sender) && nd'.leaderBallot == b
      && (if sender == id then nd'.role == nd.role else GivesWayTo(nd.role, nd'.role, b))
    else nd'.leader == nd.leader && nd'.leaderBallot == nd.leaderBallot && nd'.role == nd.role
  }

  /** The slot was not compacted away in this epoch. */
  predicate NotCompacted(nd: Node, slot: nat) {
    nd.disk.snapshot.Some? && nd.disk.snapshot.value.epoch == nd.r.epoch ==> nd.disk.snapshot.value.nextSlot <= slot
  }

  lemma AcceptIsAnswered(id: NodeId, nd: Node, m: Message)
    requires m.Accept? && Concerns(id, nd, m)
    ensures var o := Handle(id, nd, m);
            && LogUntouched(nd, o.node)
            && (if NotCompacted(nd, m.slot) && AtMost(Own(nd).promised, m.ballot) then Votes(id, nd, m, o) else Refuses(id, nd, m, o))
            && (forall x :: x in o.sent ==> o.node.local == if m.sender == id then nd.local + [x] else nd.local)
  {
    BallotsAreOrdered();
    OwnBallotIsUnder(nd.role, m.ballot);
    StoredShape(nd.disk, nd.r.epoch, AnswerAccept(id, nd.r.epoch, Own(nd), Floor(nd), m).0);
    assert NotCompacted(nd, m.slot) <==> Floor(nd) <= m.slot;
    hide Stored, OwnBallot, Under, Floor, NotCompacted;
  }

  lemma HeartbeatIsFollowed(id: NodeId, nd: Node, b: Ballot, sender: NodeId)
    ensures var nd' := HeardLeader(id, nd, b, sender);
            Follows(id, nd, b, sender, nd') && nd' == nd.(leader := nd'.leader, leaderBallot := nd'.leaderBallot, role := nd'.role)
  {
    BallotsAreOrdered();
    OwnBallotIsUnder(nd.role, b);
    hide OwnBallot, Under;
  }

  /** The vote that completes a majority, and only that one, decides: the command is told, known as chosen
      unless its place was known, and no longer in flight; any other vote is only counted, once per voter. */
  lemma VoteIsCounted(id: NodeId, nd: Node, m: Message)
    requires m.Accepted? && Concerns(id, nd, m) && nd.role.Leader? && m.ballot == nd.role.leadership.ballot
    requires m.slot in nd.role.leadership.inflight
    ensures var o, l := Handle(id, nd, m), nd.role.leadership;
            var f, p := l.inflight[m.slot], Pos(nd.r.epoch, m.slot);
            var voters := f.acks + {m.sender};
            if l.quorum <= |voters| then
              && o.sent == {Commit(id, p.epoch, p.slot, f.command)} && o.decided == map[p := f.command]
              && (p in o.node.disk.chosen || Precedes(p, At(nd.r)))
              && (p !in nd.disk.chosen && p in o.node.disk.chosen ==> o.node.disk.chosen[p] == f.command)
              && (o.node.r.epoch == nd.r.epoch ==>
                    o.node.role == Leader(l.(inflight := l.inflight - {m.slot})))
            else
              o.sent == {} && o.decided == map[]
              && o.node == nd.(role := Leader(l.(inflight := l.inflight[m.slot := Flight(f.command, voters)])))
  {
    hide Advance, MaxRound;
  }

  /** A vote under another ballot, or for a slot decided before, changes nothing. */
  lemma StrayVoteIsIgnored(id: NodeId, nd: Node, m: Message)
    requires m.Accepted? && Concerns(id, nd, m)
    requires nd.role.Leader? ==> m.ballot != nd.role.leadership.ballot || m.slot !in nd.role.leadership.inflight
    ensures Handle(id, nd, m) == Quiet(nd)
  {
  }

  /** A slot proposed and not yet decided goes out again as it was. */
  lemma ResendRepeats(id: NodeId, nd: Node, slot: nat)
    requires nd.role.Leader? && slot in nd.role.leadership.inflight
    ensures var o, l := Resend(id, nd, slot), nd.role.leadership;
            var accept := Accept(id, nd.r.epoch, l.ballot, slot, l.inflight[slot].command);
            && o.sent == {accept} && o.decided == map[]
            && o.node == nd.(local := if id in nd.r.members && id !in l.inflight[slot].acks then nd.local + [accept] else nd.local)
  {
    assert nd.local + [] == nd.local;
  }

  // ballots

  /** A campaign asks every voter, under a ballot above every round known, from the first slot not applied. */
  lemma CampaignAsksAbove(id: NodeId, nd: Node)
    ensures var o := StartCampaign(id, nd);
            && o.decided == map[] && LogUntouched(nd, o.node) && o.node.disk == nd.disk
            && o.node.leader == None && o.node.leaderBallot == nd.leaderBallot
            && exists b: Ballot :: b.node == id && nd.maxRound < b.round && o.node.maxRound == b.round
                 && o.sent == {Prepare(id, nd.r.epoch, b, nd.r.nextSlot)}
                 && o.node.role.Candidate? && o.node.role.campaign.ballot == b && o.node.role.campaign.promises == []
                 && |nd.r.members| < 2 * o.node.role.campaign.quorum <= |nd.r.members| + 2
                 && o.node.local == if id in nd.r.members then nd.local + [Prepare(id, nd.r.epoch, b, nd.r.nextSlot)] else nd.local
  {
    var b := Ballot(nd.maxRound + 1, id);
    assert StartCampaign(id, nd).node.role.campaign.ballot == b;
  }

  /** A refused node learns the round that refused it and gives the refused ballot up. */
  lemma NackTeaches(id: NodeId, nd: Node, m: Message)
    requires m.Nack? && Concerns(id, nd, m)
    ensures var o := Handle(id, nd, m);
            && o.sent == {} && o.decided == map[]
            && nd.maxRound <= o.node.maxRound && m.promised.round <= o.node.maxRound
            && o.node == nd.(maxRound := o.node.maxRound, role := o.node.role)
            && (Under(nd.role, m.ballot) ==> o.node.role == Follower)
            && (!Under(nd.role, m.ballot) ==> o.node.role == nd.role)
  {
  }

  /** A decision is recorded unless its place is known or behind, and a second command for a known place is
      noticed; the replica then stands where its log leads. */
  lemma CommitIsTaken(id: NodeId, nd: Node, m: Message)
    requires m.Commit? && m.epoch == nd.r.epoch
    ensures var o, p := Handle(id, nd, m), Pos(m.epoch, m.slot);
            && o.sent == {} && o.decided == map[]
            && (if p in nd.disk.chosen then o.node == nd.(violated := nd.violated || nd.disk.chosen[p] != m.command)
                else if Precedes(p, At(nd.r)) then o.node == nd
                else
                  && o.node.disk == nd.disk.(chosen := nd.disk.chosen[p := m.command])
                  && o.node.violated == nd.violated && o.node.pending == nd.pending && o.node.local == nd.local
                  && !Precedes(At(o.node.r), At(nd.r)) && At(o.node.r) !in o.node.disk.chosen
                  && (p != At(nd.r) && At(nd.r) !in nd.disk.chosen ==> o.node.r == nd.r)
                  && (p == At(nd.r) ==> Precedes(p, At(o.node.r))))
  {
    var p := Pos(m.epoch, m.slot);
    if p !in nd.disk.chosen {
      var chosen := nd.disk.chosen[p := m.command];
      AdvanceStops(nd.r, chosen);
      if p == At(nd.r) {
        AdvanceStops(ApplyChosen(nd.r, m.command), chosen);
      }
    }
    hide MaxRound;
  }

  /** Entering an epoch, a node follows nobody, leads nothing, and follows the first leader it hears. */
  lemma NewEpochStartsOpen(nd: Node, p: Pos, c: Command, id: NodeId, b: Ballot, sender: NodeId)
    requires Committed(nd, p, c).r.epoch != nd.r.epoch
    ensures var nd' := Committed(nd, p, c);
            nd'.role == Follower && nd'.leader == None && HeardLeader(id, nd', b, sender).leader == Some(sender)
  {
    hide Advance, MaxRound;
    NothingBelowZero(b);
  }

  /** The same when a snapshot of a later epoch is taken in. */
  lemma InstalledEpochStartsOpen(nd: Node, snap: Progress, id: NodeId, b: Ballot, sender: NodeId)
    requires Installed(nd, snap).r.epoch != nd.r.epoch
    ensures var nd' := Installed(nd, snap);
            nd'.role == Follower && nd'.leader == None && HeardLeader(id, nd', b, sender).leader == Some(sender)
  {
    hide Advance, MaxRound, AppliedTotal, Compacted;
    NothingBelowZero(b);
  }

  lemma NothingBelowZero(b: Ballot)
    ensures !Less(b, ZERO)
  {
  }
}
