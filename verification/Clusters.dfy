/** The whole cluster as a step system. Every message ever sent stays deliverable, to anyone, any
    number of times, in any order or never; any node may crash and restart from its disk at any
    point; timers fire whenever they like. Between two outside events a node first handles what it
    sent to itself (app/consensus/node.py: `_drain`), unless it crashes. */
module Clusters {
  import opened Ballots
  import opened StateMachines
  import opened Replays
  import opened Messages
  import opened Ledgers
  import opened Nodes

  /** `testimony` and `log` are history: what promises were based on, and what leaders decided. */
  datatype Cluster = Cluster(genesis: Members, every: nat, nodes: map<NodeId, Node>,
                             sent: set<Message>, testimony: set<Testimony>, log: Log)

  datatype Event =
    | Receive(m: Message)
    | Drain
    | Elect
    | Yield
    | Offer(c: Command)
    | Retry(slot: nat)
    | Heartbeat(ballot: Ballot, sender: NodeId)
    | Answer(p: Pos)
    | Rotate
    | Crash(voters: Option<Members>)
    | TornAccept(ballot: Ballot)

  datatype Happening = Happening(id: NodeId, event: Event)

  ghost predicate Enabled(cl: Cluster, h: Happening) {
    && h.id in cl.nodes
    && var nd := cl.nodes[h.id];
       match h.event
       case Receive(m) => nd.local == [] && m in cl.sent
       case Drain => nd.local != []
       case Elect => nd.local == [] && h.id in nd.r.members && !nd.role.Leader?
       case Yield => true
       case Offer(_) => nd.role.Leader?
       case Retry(slot) => nd.role.Leader? && slot in nd.role.leadership.inflight
       case Heartbeat(_, _) => true
       case Answer(_) => true
       case Rotate => true
       case Crash(voters) => voters == None || voters == Some(cl.genesis)
       case TornAccept(_) => true
  }

  ghost function Outcome(cl: Cluster, h: Happening): Effect
    requires Enabled(cl, h)
  {
    var id, nd := h.id, cl.nodes[h.id];
    match h.event
    case Receive(m) => Handle(id, nd, m)
    case Drain => Handle(id, nd.(local := nd.local[1..]), nd.local[0])
    case Elect => StartCampaign(id, nd)
    case Yield => Quiet(StepDown(nd))
    case Offer(c) => Propose(id, nd, c)
    case Retry(slot) => Resend(id, nd, slot)
    case Heartbeat(ballot, sender) => Quiet(HeardLeader(id, nd, ballot, sender))
    case Answer(p) => Quiet(nd).(sent := Serve(id, nd, p))
    case Rotate => Quiet(Rotated(nd, cl.every))
    case Crash(voters) => Quiet(Restarted(Told(nd.disk, voters)))
    case TornAccept(ballot) => Quiet(Restarted(WithPromise(nd, ballot)))
  }

  /** A crash inside `Acceptor.accept`, after the promise was stored and before the vote was. */
  function WithPromise(nd: Node, ballot: Ballot): Disk {
    Stored(nd.disk, nd.r.epoch, Raised(Own(nd), ballot))
  }

  /** What a leader decides joins the history, unless that place is taken. */
  function Joining(log: Log, decided: Log): Log {
    decided + log
  }

  function After(cl: Cluster, id: NodeId, o: Effect): Cluster {
    cl.(nodes := cl.nodes[id := o.node],
        sent := cl.sent + o.sent,
        testimony := cl.testimony + o.testimony,
        log := Joining(cl.log, o.decided))
  }

  ghost function Step(cl: Cluster, h: Happening): Cluster
    requires Enabled(cl, h)
  {
    After(cl, h.id, Outcome(cl, h))
  }

  /** The message the event hands to a node, if it does. */
  function Handed(nd: Node, ev: Event): Option<Message> {
    match ev
    case Receive(m) => Some(m)
    case Drain => if nd.local == [] then None else Some(nd.local[0])
    case _ => None
  }

  /** The condition the source leaves unchecked: a promise counts for a campaign only if the
      acceptor that gave it had compacted nothing the campaign asked about. */
  ghost predicate CountsSound(cl: Cluster, h: Happening)
    requires Enabled(cl, h)
  {
    var nd := cl.nodes[h.id];
    match Handed(nd, h.event)
    case Some(m) =>
      Hears(h.id, nd, m) && Counts(nd, m) ==>
        exists t :: t in cl.testimony && t.answer == m && t.floor <= t.fromSlot
    case None => true
  }

  /** A cluster before anything happened: nodes know the first voters or nobody. */
  ghost predicate Initial(cl: Cluster) {
    && cl.sent == {} && cl.testimony == {} && cl.log == map[]
    && forall id :: id in cl.nodes ==>
         exists genesis :: (genesis == None || genesis == Some(cl.genesis))
                           && cl.nodes[id] == Restarted(Disk(genesis, map[], map[], None))
  }

  type Run = seq<Happening>

  /** The `k`th happening of a run and the cluster after it. */
  ghost predicate Moves(states: seq<Cluster>, run: Run, k: nat)
    requires |states| == |run| + 1 && k < |run|
  {
    Enabled(states[k], run[k]) && states[k + 1] == Step(states[k], run[k])
  }

  /** `states` are the clusters `run` goes through, from whichever is first. */
  ghost predicate Trace(states: seq<Cluster>, run: Run) {
    |states| == |run| + 1 && forall k :: 0 <= k < |run| ==> Moves(states, run, k)
  }

  /** A run from a cluster in which nothing has happened yet. */
  ghost predicate Execution(states: seq<Cluster>, run: Run) {
    Trace(states, run) && Initial(states[0])
  }

  ghost predicate SoundAt(states: seq<Cluster>, run: Run, k: nat)
    requires |states| == |run| + 1 && k < |run|
  {
    Enabled(states[k], run[k]) ==> CountsSound(states[k], run[k])
  }

  /** No promise is counted across a compaction. */
  ghost predicate Sound(states: seq<Cluster>, run: Run)
    requires |states| == |run| + 1
  {
    forall k :: 0 <= k < |run| ==> SoundAt(states, run, k)
  }
}
