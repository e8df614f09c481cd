/** One member of the cluster (app/consensus/node.py, roles.py, snapshots.py) as functions: what each
    message, tick and restart does to its stored and volatile state, and what it sends. */
module Nodes {
  import opened Ballots
  import opened StateMachines
  import opened Replays
  import opened Messages
  import opened Ledgers
  import opened Proposals

  /** Stable storage (app/consensus/storage.py): acceptor ledgers per epoch, the chosen commands
      after the snapshot, and the snapshot. */
  datatype Disk = Disk(genesis: Option<Members>, ledgers: map<nat, Ledger>, chosen: Log,
                       snapshot: Option<Progress>)

  datatype Role = Follower | Candidate(campaign: Campaign) | Leader(leadership: Leadership)

  /** `local`: messages to itself, handled before anything else arrives. `violated`: the node saw
      two commands chosen for one slot. */
  datatype Node = Node(disk: Disk, r: Progress, pending: Option<Progress>, pendingTotal: int,
                       role: Role, leader: Option<NodeId>, leaderBallot: Ballot, maxRound: nat,
                       local: seq<Message>, violated: bool)

  /** History, not wire data: where the campaign asked from and the acceptor's floor when `answer` left. */
  datatype Testimony = Testimony(answer: Message, fromSlot: nat, floor: nat)

  /** What handling one event does outside the node: everything sent, and what was decided. */
  datatype Effect = Effect(node: Node, sent: set<Message>, testimony: set<Testimony>, decided: Log)

  function Quiet(nd: Node): Effect {
    Effect(nd, {}, {}, map[])
  }

  function LedgerOf(ledgers: map<nat, Ledger>, e: nat): Ledger {
    if e in ledgers then ledgers[e] else FRESH
  }

  /** Stable storage after an acceptor saved what changed, if anything did. */
  function Stored(disk: Disk, e: nat, l: Ledger): Disk {
    if l == LedgerOf(disk.ledgers, e) then disk else disk.(ledgers := disk.ledgers[e := l])
  }

  function Own(nd: Node): Ledger {
    LedgerOf(nd.disk.ledgers, nd.r.epoch)
  }

  function Quorum(members: Members): nat {
    |members| / 2 + 1
  }

  /** Slots of this epoch below the floor were applied and compacted away. */
  function Floor(nd: Node): nat {
    if nd.disk.snapshot.Some? && nd.disk.snapshot.value.epoch == nd.r.epoch
    then nd.disk.snapshot.value.nextSlot else 0
  }

  function OwnBallot(role: Role): Ballot {
    match role
    case Candidate(c) => c.ballot
    case Leader(l) => l.ballot
    case Follower => ZERO
  }

  ghost function MaxRound(l: Ledger): nat {
    Above({l.promised.round} + set s | s in l.accepted :: l.accepted[s].ballot.round) - 1
  }

  // the replicated log

  ghost function Start(disk: Disk): Progress {
    if disk.snapshot.Some? then disk.snapshot.value
    else Genesis(if disk.genesis.Some? then disk.genesis.value else map[])
  }

  /** Where a replica rebuilt from stable storage stands. */
  ghost function Loaded(disk: Disk): Progress {
    Advance(Start(disk), disk.chosen)
  }

  ghost function AppliedTotal(r: Progress): int {
    StopsBelow(r.stops, r.epoch) + r.nextSlot
  }

  function StopsBelow(stops: map<nat, nat>, e: nat): nat {
    if e == 0 then 0 else StopsBelow(stops, e - 1) + (if e - 1 in stops then stops[e - 1] else 0)
  }

  /** A process started on `disk`. */
  ghost function Restarted(disk: Disk): Node {
    var r := Loaded(disk);
    Node(disk, r, None, AppliedTotal(r), Follower, None, ZERO, MaxRound(LedgerOf(disk.ledgers, r.epoch)), [], false)
  }

  /** The first voters are recorded the first time a process is given them. */
  function Told(disk: Disk, voters: Option<Members>): Disk {
    if disk.genesis.None? then disk.(genesis := voters) else disk
  }

  /** A fresh Paxos instance for the epoch the replica just entered. */
  ghost function EnterEpoch(nd: Node): Node {
    nd.(role := Follower, leader := None, leaderBallot := ZERO, maxRound := MaxRound(Own(nd)))
  }

  ghost function Committed(nd: Node, p: Pos, c: Command): Node {
    if p in nd.disk.chosen then
      if nd.disk.chosen[p] != c then nd.(violated := true) else nd
    else if Precedes(p, At(nd.r)) then nd
    else
      var chosen := nd.disk.chosen[p := c];
      var r := Advance(nd.r, chosen);
      var moved := nd.(disk := nd.disk.(chosen := chosen), r := r);
      if r.epoch != nd.r.epoch then EnterEpoch(moved) else moved
  }

  /** The journal rewritten around `base`: the log and the votes before it are gone. */
  function Compacted(disk: Disk, base: Progress): Disk {
    disk.(snapshot := Some(base),
          chosen := DropBelow(disk.chosen, At(base)),
          ledgers := map e | e in disk.ledgers && base.epoch <= e ::
            if e == base.epoch then Pruned(disk.ledgers[e], base.nextSlot) else disk.ledgers[e])
  }

  /** Every `every` applied slots: a new snapshot is taken, the previous one becomes the base. */
  ghost function Rotated(nd: Node, every: nat): Node {
    var total := AppliedTotal(nd.r);
    if total - nd.pendingTotal < every then nd
    else
      var kept := if nd.pending.Some? then nd.(disk := Compacted(nd.disk, nd.pending.value)) else nd;
      kept.(pending := Some(nd.r), pendingTotal := total)
  }

  ghost function Installed(nd: Node, snap: Progress): Node {
    if !Precedes(At(nd.r), At(snap)) then nd
    else
      var disk := Compacted(nd.disk, snap);
      var r := Advance(snap, disk.chosen);
      var moved := nd.(disk := disk, r := r, pending := None, pendingTotal := AppliedTotal(r));
      if r.epoch != nd.r.epoch then EnterEpoch(moved) else moved
  }

  // phase 1

  /** Sends `m` to itself when `to` is the node's own id (anything else only goes out). */
  function Keep(id: NodeId, nd: Node, to: NodeId, m: Message): Node {
    if to == id then nd.(local := nd.local + [m]) else nd
  }

  function KeepAll(id: NodeId, nd: Node, ms: seq<Message>): Node {
    if id in nd.r.members then nd.(local := nd.local + ms) else nd
  }

  ghost function StartCampaign(id: NodeId, nd: Node): Effect {
    var ballot := Ballot(nd.maxRound + 1, id);
    var prepare := Prepare(id, nd.r.epoch, ballot, nd.r.nextSlot);
    var nd' := nd.(role := Candidate(Campaign(ballot, Quorum(nd.r.members), [])), leader := None,
                   maxRound := ballot.round);
    Quiet(KeepAll(id, nd', [prepare])).(sent := {prepare})
  }

  ghost function OnPrepare(id: NodeId, nd: Node, m: Message): Effect
    requires m.Prepare?
  {
    var e := nd.r.epoch;
    var (ledger, reply) := AnswerPrepare(id, e, Own(nd), m);
    var nd1 := nd.(disk := Stored(nd.disk, e, ledger));
    var nd2 :=
      if reply.Promise? then
        nd1.(maxRound := Max(nd.maxRound, m.ballot.round),
             role := if m.sender != id && Less(OwnBallot(nd.role), m.ballot) then Follower else nd.role)
      else nd1;
    Effect(Keep(id, nd2, m.sender, reply), {reply},
           if reply.Promise? then {Testimony(reply, m.fromSlot, Floor(nd))} else {}, map[])
  }

  /** True when handling `m` counts a promise for the campaign under way. */
  predicate Counts(nd: Node, m: Message) {
    m.Promise? && nd.role.Candidate? && m.ballot == nd.role.campaign.ballot
  }

  /** The campaign under way with the promise `m` counted. */
  function Completed(nd: Node, m: Message): Campaign
    requires m.Promise? && nd.role.Candidate?
  {
    nd.role.campaign.(promises := Put(nd.role.campaign.promises, m.sender, m.accepted))
  }

  ghost function OnPromise(id: NodeId, nd: Node, m: Message): Effect
    requires m.Promise?
  {
    if !Counts(nd, m) then Quiet(nd)
    else
      var before := nd.role.campaign;
      var campaign := Completed(nd, m);
      if |before.promises| < before.quorum <= |campaign.promises| then BecomeLeader(id, nd, campaign)
      else Quiet(nd.(role := Candidate(campaign)))
  }

  /** The Accepts for the planned slots from `lo` up to `hi`, in slot order. */
  function Proposing(id: NodeId, e: nat, ballot: Ballot, plan: map<nat, Command>, lo: nat, hi: nat): seq<Message>
    decreases hi - lo
  {
    if lo >= hi then []
    else if lo in plan then
      [Accept(id, e, ballot, lo, plan[lo])] + Proposing(id, e, ballot, plan, lo + 1, hi)
    else Proposing(id, e, ballot, plan, lo + 1, hi)
  }

  ghost function BecomeLeader(id: NodeId, nd: Node, campaign: Campaign): Effect {
    var e, from, es := nd.r.epoch, nd.r.nextSlot, Joined(campaign.promises);
    var plan := Plan(es, from, e, nd.disk.chosen);
    var first := FirstFree(es, from, e, nd.disk.chosen);
    var accepts := Proposing(id, e, campaign.ballot, plan, from, ReportedTop(es));
    var nd' := nd.(role := Leader(Taken(campaign.ballot, campaign.quorum, first, plan)),
                   leader := Some(id), leaderBallot := campaign.ballot);
    Quiet(KeepAll(id, nd', accepts)).(sent := set m | m in accepts)
  }

  function StepDown(nd: Node): Node {
    nd.(role := Follower)
  }

  // phase 2

  ghost function Propose(id: NodeId, nd: Node, c: Command): Effect
    requires nd.role.Leader?
  {
    var l := nd.role.leadership;
    if Remembered(nd.r.results, IdOf(c)) || IdOf(c) in l.ids then Quiet(nd)
    else
      var accept := Accept(id, nd.r.epoch, l.ballot, l.nextFree, c);
      var nd' := nd.(role := Leader(ProposedAt(l, l.nextFree, c)));
      Quiet(KeepAll(id, nd', [accept])).(sent := {accept})
  }

  /** Proposing a slot that is short of a majority to the voters that have not accepted it. */
  function Resend(id: NodeId, nd: Node, slot: nat): Effect
    requires nd.role.Leader? && slot in nd.role.leadership.inflight
  {
    var l := nd.role.leadership;
    var f := l.inflight[slot];
    var accept := Accept(id, nd.r.epoch, l.ballot, slot, f.command);
    Quiet(if id in f.acks then nd else KeepAll(id, nd, [accept])).(sent := {accept})
  }

  /** A voter that hears a leader under a ballot at least as high follows it. */
  function HeardLeader(id: NodeId, nd: Node, ballot: Ballot, sender: NodeId): Node {
    if Less(ballot, nd.leaderBallot) then nd
    else
      nd.(leaderBallot := ballot, leader := Some(sender),
          role := if sender != id && Less(OwnBallot(nd.role), ballot) then Follower else nd.role)
  }

  ghost function OnAccept(id: NodeId, nd: Node, m: Message): Effect
    requires m.Accept?
  {
    var e := nd.r.epoch;
    var (ledger, reply) := AnswerAccept(id, e, Own(nd), Floor(nd), m);
    var nd1 := nd.(disk := Stored(nd.disk, e, ledger));
    var nd2 :=
      if reply.Accepted? then
        HeardLeader(id, nd1.(maxRound := Max(nd.maxRound, m.ballot.round)), m.ballot, m.sender)
      else nd1;
    Effect(Keep(id, nd2, m.sender, reply), {reply}, {}, map[])
  }

  ghost function OnAccepted(id: NodeId, nd: Node, m: Message): Effect
    requires m.Accepted?
  {
    if !nd.role.Leader? || m.ballot != nd.role.leadership.ballot then Quiet(nd)
    else
      var (l, done) := Counted(nd.role.leadership, m.slot, m.sender);
      var nd' := nd.(role := Leader(l));
      if done.None? then Quiet(nd')
      else
        var p := Pos(nd.r.epoch, m.slot);
        Effect(Committed(nd', p, done.value), {Commit(id, p.epoch, p.slot, done.value)}, {}, map[p := done.value])
  }

  function OnNack(nd: Node, m: Message): Node
    requires m.Nack?
  {
    var nd' := nd.(maxRound := Max(nd.maxRound, m.promised.round));
    if m.ballot == OwnBallot(nd.role) then StepDown(nd') else nd'
  }

  // catching up

  ghost function OnSnapshot(nd: Node, m: Message): Node
    requires m.Snapshot?
  {
    if Pos(m.atEpoch, m.atSlot) != At(m.state) then nd else Installed(nd, m.state)
  }

  /** What a node answers when asked for slot `p`: its snapshot when the log from there is gone,
      the chosen command (up to the one that sealed the epoch) otherwise. */
  function Serve(id: NodeId, nd: Node, p: Pos): set<Message> {
    if nd.disk.snapshot.Some? && Precedes(p, At(nd.disk.snapshot.value)) then
      var base := nd.disk.snapshot.value;
      {Snapshot(id, base.epoch, base.nextSlot, base)}
    else if p in nd.disk.chosen && (p.epoch in nd.r.stops ==> p.slot <= nd.r.stops[p.epoch]) then
      {Commit(id, p.epoch, p.slot, nd.disk.chosen[p])}
    else {}
  }

  /** Messages of another epoch are not handled; a node that does not vote only learns. */
  predicate Hears(id: NodeId, nd: Node, m: Message) {
    m.Snapshot? || (m.epoch == nd.r.epoch && (id in nd.r.members || m.Commit?))
  }

  ghost function Handle(id: NodeId, nd: Node, m: Message): Effect {
    if !Hears(id, nd, m) then Quiet(nd)
    else match m
      case Prepare(_, _, _, _) => OnPrepare(id, nd, m)
      case Promise(_, _, _, _) => OnPromise(id, nd, m)
      case Accept(_, _, _, _, _) => OnAccept(id, nd, m)
      case Accepted(_, _, _, _) => OnAccepted(id, nd, m)
      case Nack(_, _, _, _) => Quiet(OnNack(nd, m))
      case Commit(_, e, s, c) => Quiet(Committed(nd, Pos(e, s), c))
      case Snapshot(_, _, _, _) => Quiet(OnSnapshot(nd, m))
  }
}
