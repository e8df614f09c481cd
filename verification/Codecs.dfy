/** A codec for the journal's lines that has every property asked of one: facts become trees, and trees
    are printed so that no printed tree is the beginning of another. */
module Codecs {
  import opened Ballots
  import opened StateMachines
  import opened Replays
  import opened Journals

  datatype Tree = Tip(n: nat) | Pair(left: Tree, right: Tree)

  // trees as bytes

  const ONE: Byte := 49
  const END: Byte := 59
  const OPEN: Byte := 40

  function Ones(n: nat): (s: seq<Byte>)
    ensures |s| == n && forall i :: 0 <= i < n ==> s[i] == ONE
  {
    seq(n, _ => ONE)
  }

  function Printed(t: Tree): (s: seq<Byte>)
    ensures Plain(s) && s != []
  {
    match t
    case Tip(n) => Ones(n) + [END]
    case Pair(left, right) => [OPEN] + Printed(left) + Printed(right)
  }

  lemma FirstByte(t: Tree, x: seq<Byte>)
    ensures (Printed(t) + x)[0] == OPEN <==> t.Pair?
  {
  }

  lemma OnesEnd(n: nat, m: nat, x: seq<Byte>, y: seq<Byte>)
    requires Ones(n) + [END] + x == Ones(m) + [END] + y
    ensures n == m && x == y
  {
    var s, t := Ones(n) + [END] + x, Ones(m) + [END] + y;
    assert s[n] == END && t[m] == END;
    assert forall i :: 0 <= i < n ==> s[i] == ONE;
    assert forall i :: 0 <= i < m ==> t[i] == ONE;
    assert x == s[n + 1..] && y == t[m + 1..];
  }

  /** A printed tree shows where it ends. */
  lemma {:induction false} PrintedApart(a: Tree, b: Tree, x: seq<Byte>, y: seq<Byte>)
    requires Printed(a) + x == Printed(b) + y
    ensures a == b && x == y
  {
    FirstByte(a, x);
    FirstByte(b, y);
    hide Plain;
    match a {
      case Tip(n) =>
        hide Ones;
        OnesEnd(n, b.n, x, y);
      case Pair(left, right) =>
        InnerTrees(a, x);
        InnerTrees(b, y);
        hide Printed;
        PrintedApart(left, b.left, Printed(right) + x, Printed(b.right) + y);
        PrintedApart(right, b.right, x, y);
    }
  }

  lemma InnerTrees(t: Tree, x: seq<Byte>)
    requires t.Pair?
    ensures (Printed(t) + x)[1..] == Printed(t.left) + (Printed(t.right) + x)
  {
  }

  // facts as trees

  function OfInt(n: int): Tree {
    if n >= 0 then Pair(Tip(0), Tip(n)) else Pair(Tip(1), Tip(-n))
  }

  function OfBool(b: bool): Tree {
    Tip(if b then 1 else 0)
  }

  function OfString(s: string): Tree {
    if s == "" then Tip(0) else Pair(Tip(s[0] as int), OfString(s[1..]))
  }

  lemma {:induction false} StringsApart(a: string, b: string)
    requires OfString(a) == OfString(b)
    ensures a == b
  {
    if a != "" && b != "" {
      StringsApart(a[1..], b[1..]);
      assert a == [a[0]] + a[1..] && b == [b[0]] + b[1..];
    }
  }

  ghost predicate Apart<T(!new)>(f: T -> Tree) {
    forall a, b :: f(a) == f(b) ==> a == b
  }

  /** The entries in some fixed order. */
  ghost function OfMap<K(!new), V(!new)>(m: map<K, V>, key: K -> Tree, value: V -> Tree): Tree
    decreases |m|
  {
    if m == map[] then Tip(0)
    else
      var k :| k in m;
      Pair(Pair(key(k), value(m[k])), OfMap(m - {k}, key, value))
  }

  lemma {:induction false} MapsApart<K(!new), V(!new)>(a: map<K, V>, b: map<K, V>, key: K -> Tree, value: V -> Tree)
    requires Apart(key) && Apart(value) && OfMap(a, key, value) == OfMap(b, key, value)
    ensures a == b
    decreases |a|
  {
    if a != map[] && b != map[] {
      var k: K :| k in a && OfMap(a, key, value) == Pair(Pair(key(k), value(a[k])), OfMap(a - {k}, key, value));
      var l: K :| l in b && OfMap(b, key, value) == Pair(Pair(key(l), value(b[l])), OfMap(b - {l}, key, value));
      assert k == l && a[k] == b[k];
      MapsApart(a - {k}, b - {k}, key, value);
      assert a == (a - {k})[k := a[k]] && b == (b - {k})[k := b[k]];
    }
  }

  function OfNat(n: nat): Tree {
    Tip(n)
  }

  function OfId(id: Option<NodeId>): Tree {
    match id case None => Tip(0) case Some(s) => Pair(Tip(1), OfString(s))
  }

  function OfValue(v: Value): Tree {
    match v
    case Null => Tip(0)
    case Text(s) => Pair(Tip(1), OfString(s))
    case Lease(holder, expires) => Pair(Tip(2), Pair(OfId(holder), OfInt(expires)))
  }

  ghost function OfStrings(m: map<string, string>): Tree {
    OfMap(m, OfString, OfString)
  }

  ghost function OfMachine(m: Machine): Tree {
    Pair(OfMap(m.config, OfString, OfValue), OfStrings(m.nodes))
  }

  function OfResults(results: Results): Tree {
    if results == [] then Tip(0)
    else Pair(Pair(OfString(results[0].0), OfBool(results[0].1)), OfResults(results[1..]))
  }

  ghost function OfProgress(r: Progress): Tree {
    Pair(Pair(Tip(r.epoch), Tip(r.nextSlot)),
         Pair(Pair(OfStrings(r.members), OfMachine(r.machine)), Pair(OfResults(r.results), OfMap(r.stops, OfNat, OfNat))))
  }

  function OfBallot(b: Ballot): Tree {
    Pair(Tip(b.round), OfString(b.node))
  }

  function OfOperation(op: Operation): Tree {
    match op
    case Set(key, value) => Pair(Tip(0), Pair(OfString(key), OfValue(value)))
    case Delete(key) => Pair(Tip(1), OfString(key))
    case Cas(key, expected, value) => Pair(Tip(2), Pair(OfString(key), Pair(OfValue(expected), OfValue(value))))
    case AddNode(id, address) => Pair(Tip(3), Pair(OfString(id), OfString(address)))
    case RemoveNode(id) => Pair(Tip(4), OfString(id))
  }

  ghost function OfPayload(p: Payload): Tree {
    match p
    case Reconfigure(epoch, members) => Pair(Tip(0), Pair(OfInt(epoch), OfStrings(members)))
    case Op(op) => Pair(Tip(1), OfOperation(op))
  }

  ghost function OfCommand(c: Command): Tree {
    match c
    case Noop => Tip(0)
    case Command(cmdId, payload) => Pair(OfString(cmdId), OfPayload(payload))
  }

  ghost function OfFact(x: Fact): Tree {
    match x
    case FirstVoters(members) => Pair(Tip(0), OfStrings(members))
    case Base(snapshot) => Pair(Tip(1), OfProgress(snapshot))
    case Promised(e, b) => Pair(Tip(2), Pair(Tip(e), OfBallot(b)))
    case Voted(e, s, b, c) => Pair(Tip(3), Pair(Pair(Tip(e), Tip(s)), Pair(OfBallot(b), OfCommand(c))))
    case Decided(e, s, c) => Pair(Tip(4), Pair(Pair(Tip(e), Tip(s)), OfCommand(c)))
  }

  lemma SomeStringsApart()
    ensures forall a, b :: OfString(a) == OfString(b) ==> a == b
  {
    forall a, b | OfString(a) == OfString(b) ensures a == b {
      StringsApart(a, b);
    }
  }

  lemma ValuesApart()
    ensures forall a, b :: OfValue(a) == OfValue(b) ==> a == b
  {
    SomeStringsApart();
    hide OfString;
  }

  lemma {:induction false} ResultsApart(a: Results, b: Results)
    requires OfResults(a) == OfResults(b)
    ensures a == b
  {
    if a != [] && b != [] {
      StringsApart(a[0].0, b[0].0);
      ResultsApart(a[1..], b[1..]);
      assert a == [a[0]] + a[1..] && b == [b[0]] + b[1..];
    }
  }

  lemma ManyStringsApart(a: map<string, string>, b: map<string, string>)
    requires OfStrings(a) == OfStrings(b)
    ensures a == b
  {
    SomeStringsApart();
    MapsApart(a, b, OfString, OfString);
  }

  lemma ProgressApart(a: Progress, b: Progress)
    requires OfProgress(a) == OfProgress(b)
    ensures a == b
  {
    SomeStringsApart();
    ValuesApart();
    ManyStringsApart(a.members, b.members);
    ManyStringsApart(a.machine.nodes, b.machine.nodes);
    MapsApart(a.machine.config, b.machine.config, OfString, OfValue);
    ResultsApart(a.results, b.results);
    MapsApart(a.stops, b.stops, OfNat, OfNat);
  }

  lemma OperationsApart(a: Operation, b: Operation)
    requires OfOperation(a) == OfOperation(b)
    ensures a == b
  {
    SomeStringsApart();
    ValuesApart();
    hide OfString, OfValue;
  }

  lemma CommandsApart(a: Command, b: Command)
    requires OfCommand(a) == OfCommand(b)
    ensures a == b
  {
    if a.Command? && b.Command? {
      StringsApart(a.cmdId, b.cmdId);
      match a.payload {
        case Reconfigure(_, members) => ManyStringsApart(members, b.payload.members);
        case Op(op) => OperationsApart(op, b.payload.op);
      }
    }
  }

  lemma FactsApart(a: Fact, b: Fact)
    requires OfFact(a) == OfFact(b)
    ensures a == b
  {
    match a {
      case FirstVoters(members) => ManyStringsApart(members, b.members);
      case Base(snapshot) => ProgressApart(snapshot, b.snapshot);
      case Promised(_, ballot) => StringsApart(ballot.node, b.ballot.node);
      case Voted(_, _, ballot, c) =>
        StringsApart(ballot.node, b.ballot.node);
        CommandsApart(c, b.command);
      case Decided(_, _, c) => CommandsApart(c, b.command);
    }
  }

  // the codec

  ghost function Encoded(x: Fact): seq<Byte> {
    Printed(OfFact(x))
  }

  ghost function Decoded(s: seq<Byte>): Option<Fact> {
    if x: Fact :| Encoded(x) == s then Some(x) else None
  }

  lemma EncodedApart(x: Fact, y: Fact, rest: seq<Byte>)
    requires Encoded(x) == Encoded(y) + rest
    ensures x == y && rest == []
  {
    assert Encoded(x) + [] == Encoded(x);
    PrintedApart(OfFact(x), OfFact(y), [], rest);
    FactsApart(x, y);
  }

  /** Such codecs exist. */
  lemma LawfulCodec() returns (codec: Codec)
    ensures Lawful(codec)
  {
    codec := Codec((x: Fact) => Encoded(x), (s: seq<Byte>) => Decoded(s));
    forall x ensures Plain(codec.enc(x)) && codec.dec(codec.enc(x)) == Some(x) {
      var s := Encoded(x);
      var y: Fact :| Encoded(y) == s && Decoded(s) == Some(y);
      EncodedApart(x, y, []);
    }
    forall x, k | 0 <= k < |codec.enc(x)| ensures codec.dec(codec.enc(x)[..k]) == None {
      if y: Fact :| Encoded(y) == Encoded(x)[..k] {
        EncodedApart(x, y, Encoded(x)[k..]);
      }
    }
  }
}
