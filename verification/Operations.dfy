/** What applied commands do and answer, said without the functions that do it
    (app/consensus/state_machine.py, app/consensus/replica.py: `_advance`), and what a compare-and-set is
    worth to its caller. */
module Operations {
  import opened Ballots
  import opened StateMachines
  import opened Replays
  import opened Histories
  import opened Remembering

  /** All keys but `key` are as before. */
  ghost predicate OnlyAt<K(!new), V>(before: map<K, V>, after: map<K, V>, key: K) {
    forall k :: k != key ==> (k in after <==> k in before) && (k in before ==> after[k] == before[k])
  }

  /** `op` takes the machine `m` to `m'` and answers `ok`. */
  ghost predicate Does(m: Machine, op: Operation, m': Machine, ok: bool) {
    match op
    case Set(key, value) =>
      ok && key in m'.config && m'.config[key] == value && OnlyAt(m.config, m'.config, key) && m'.nodes == m.nodes
    case Delete(key) =>
      && (ok <==> key in m.config && m.config[key] != Null)
      && key !in m'.config && OnlyAt(m.config, m'.config, key) && m'.nodes == m.nodes
    case Cas(key, expected, value) =>
      var found := if key in m.config then m.config[key] else Null;
      && (ok <==> found == expected)
      && (ok ==> key in m'.config && m'.config[key] == value && OnlyAt(m.config, m'.config, key) && m'.nodes == m.nodes)
      && (!ok ==> m' == m)
    case AddNode(id, address) =>
      ok && id in m'.nodes && m'.nodes[id] == address && OnlyAt(m.nodes, m'.nodes, id) && m'.config == m.config
    case RemoveNode(id) =>
      && (ok <==> id in m.nodes)
      && id !in m'.nodes && OnlyAt(m.nodes, m'.nodes, id) && m'.config == m.config
  }

  /** Applying an operation does that, and nothing else does. */
  lemma ApplyDoesExactly(m: Machine, op: Operation, m': Machine, ok: bool)
    ensures Does(m, op, m', ok) <==> Apply(m, op) == (m', ok)
  {
    var (m1, ok1) := Apply(m, op);
    if Does(m, op, m', ok) {
      match op {
        case Set(key, _) => SameMap(m.config, m1.config, m'.config, key);
        case Delete(key) => SameMap(m.config, m1.config, m'.config, key);
        case Cas(key, _, _) => if ok { SameMap(m.config, m1.config, m'.config, key); }
        case AddNode(id, _) => SameMap(m.nodes, m1.nodes, m'.nodes, id);
        case RemoveNode(id) => SameMap(m.nodes, m1.nodes, m'.nodes, id);
      }
    }
  }

  lemma SameMap<K(!new), V>(before: map<K, V>, a: map<K, V>, b: map<K, V>, key: K)
    requires OnlyAt(before, a, key) && OnlyAt(before, b, key)
    requires (key in a <==> key in b) && (key in a ==> a[key] == b[key])
    ensures a == b
  {
    assert forall k :: k in a <==> k in b;
  }

  // along the log

  /** `id` was remembered with `answer`, as the newest; the oldest is forgotten when the memory is full. */
  predicate RemembersNow(before: Results, after: Results, id: string, answer: bool) {
    && after != [] && after[|after| - 1] == (id, answer)
    && |after| == (if |before| < MAX_REMEMBERED_RESULTS then |before| + 1 else MAX_REMEMBERED_RESULTS)
    && after[..|after| - 1] == before[|before| + 1 - |after|..]
  }

  /** The memory holds a result of `id`. */
  ghost predicate Answered(results: Results, id: string) {
    exists x :: x in results && x.0 == id
  }

  /** One command takes a replica from `r` to `r'`. */
  ghost predicate Takes(r: Progress, c: Command, r': Progress) {
    if c.Noop? || Answered(r.results, c.cmdId) then r' == r.(nextSlot := r.nextSlot + 1)
    else match c.payload
      case Op(op) =>
        && (exists ok :: Does(r.machine, op, r'.machine, ok) && RemembersNow(r.results, r'.results, c.cmdId, ok))
        && r' == r.(nextSlot := r.nextSlot + 1, machine := r'.machine, results := r'.results)
      case Reconfigure(epoch, members) =>
        if epoch == r.epoch then
          && RemembersNow(r.results, r'.results, c.cmdId, true) && r'.machine == r.machine
          && At(r') == Pos(r.epoch + 1, 0) && r'.members == members
          && r.epoch in r'.stops && r'.stops[r.epoch] == r.nextSlot && OnlyAt(r.stops, r'.stops, r.epoch)
        else
          RemembersNow(r.results, r'.results, c.cmdId, false)
          && r' == r.(nextSlot := r.nextSlot + 1, results := r'.results)
  }

  /** Every command of the log has the effect its kind promises: a no-op or a known id only its slot; an
      operation its own effect and answer; a voter change for this epoch a new epoch and the slot it
      sealed the old one at; one for another epoch nothing but the answer no. */
  lemma EveryCommandTakes(genesis: Members, log: Log, n: nat)
    ensures Replay(genesis, log, 0) == Progress(0, 0, genesis, Machine(map[], map[]), [], map[])
    ensures var r, r' := Replay(genesis, log, n), Replay(genesis, log, n + 1);
            if At(r) in log then Takes(r, log[At(r)], r') else r' == r
  {
    var r := Replay(genesis, log, n);
    if At(r) in log {
      MemoryIsBounded(genesis, log, n);
      CommandTakes(r, log[At(r)]);
    }
  }

  lemma CommandTakes(r: Progress, c: Command)
    requires |r.results| <= MAX_REMEMBERED_RESULTS
    ensures Takes(r, c, ApplyChosen(r, c))
  {
    hide Takes, ApplyChosen, Remembered;
    if Skipped(r, c) {
      SkippedTakes(r, c);
    } else if c.payload.Op? {
      OperationTakes(r, c);
    } else {
      ReconfigurationTakes(r, c);
    }
  }

  lemma SkippedTakes(r: Progress, c: Command)
    requires Skipped(r, c)
    ensures Takes(r, c, ApplyChosen(r, c))
  {
    SkippedMeans(r, c);
    hide Remembered;
  }

  lemma OperationTakes(r: Progress, c: Command)
    requires !Skipped(r, c) && c.payload.Op? && |r.results| <= MAX_REMEMBERED_RESULTS
    ensures Takes(r, c, ApplyChosen(r, c))
  {
    SkippedMeans(r, c);
    hide Apply, Does, Remember, RemembersNow, Remembered, Answered;
    var (m', ok) := Apply(r.machine, c.payload.op);
    ApplyDoesExactly(r.machine, c.payload.op, m', ok);
    RemembersIt(r.results, c.cmdId, ok);
  }

  lemma ReconfigurationTakes(r: Progress, c: Command)
    requires !Skipped(r, c) && c.payload.Reconfigure? && |r.results| <= MAX_REMEMBERED_RESULTS
    ensures Takes(r, c, ApplyChosen(r, c))
  {
    SkippedMeans(r, c);
    hide Remember, RemembersNow, Remembered, Answered;
    var answer := c.payload.epoch == r.epoch;
    RemembersIt(r.results, c.cmdId, answer);
    if answer {
      assert OnlyAt(r.stops, r.stops[r.epoch := r.nextSlot], r.epoch);
    }
  }

  lemma SkippedMeans(r: Progress, c: Command)
    ensures Skipped(r, c) <==> c.Noop? || Answered(r.results, c.cmdId)
  {
    if c.Command? && Skipped(r, c) {
      var i :| 0 <= i < |r.results| && r.results[i].0 == c.cmdId;
      assert r.results[i] in r.results;
    }
  }

  lemma RemembersIt(results: Results, id: string, answer: bool)
    requires |results| <= MAX_REMEMBERED_RESULTS
    ensures RemembersNow(results, Remember(results, id, answer), id, answer)
  {
  }

  // a compare-and-set as a lock

  /** The `n`th step along the log applies the operation `op`. */
  ghost predicate AppliesOp(genesis: Members, log: Log, n: nat, op: Operation) {
    var r := Replay(genesis, log, n);
    && At(r) in log && log[At(r)].Command? && log[At(r)].payload == Op(op)
    && !Answered(r.results, log[At(r)].cmdId)
  }

  /** What the caller of the command at step `n` reads as its result. */
  ghost function AnswerAt(genesis: Members, log: Log, n: nat): Option<bool> {
    var results := Replay(genesis, log, n + 1).results;
    if results == [] then None else Some(results[|results| - 1].1)
  }

  predicate Writes(op: Operation, key: string) {
    match op
    case Set(k, _) => k == key
    case Delete(k) => k == key
    case Cas(k, _, _) => k == key
    case _ => false
  }

  ghost function ValueAt(genesis: Members, log: Log, n: nat, key: string): Value {
    Get(Replay(genesis, log, n).machine.config, key)
  }

  /** From step `n` up to `m` the key is written only by compare-and-sets that expect `expected` and put
      something else there. */
  ghost predicate OnlyContenders(genesis: Members, log: Log, n: nat, m: nat, key: string, expected: Value) {
    forall k, op :: n <= k < m && AppliesOp(genesis, log, k, op) && Writes(op, key) ==>
      op.Cas? && op.expected == expected && op.value != expected
  }

  /** Who wins a compare-and-set: its result is yes exactly when the key held what was expected. */
  lemma CasAnswers(genesis: Members, log: Log, n: nat, key: string, expected: Value, value: Value)
    requires AppliesOp(genesis, log, n, Cas(key, expected, value))
    ensures AnswerAt(genesis, log, n) == Some(ValueAt(genesis, log, n, key) == expected)
    ensures ValueAt(genesis, log, n + 1, key) == if ValueAt(genesis, log, n, key) == expected then value else ValueAt(genesis, log, n, key)
  {
    EveryCommandTakes(genesis, log, n);
    hide Replay, ApplyChosen;
  }

  lemma OtherKeysStay(genesis: Members, log: Log, n: nat, key: string)
    requires forall op :: AppliesOp(genesis, log, n, op) ==> !Writes(op, key)
    ensures ValueAt(genesis, log, n + 1, key) == ValueAt(genesis, log, n, key)
  {
    EveryCommandTakes(genesis, log, n);
    hide ApplyChosen, Replay, Does, RemembersNow;
    var r, r' := Replay(genesis, log, n), Replay(genesis, log, n + 1);
    if At(r) in log && log[At(r)].Command? && log[At(r)].payload.Op? && !Answered(r.results, log[At(r)].cmdId) {
      var op := log[At(r)].payload.op;
      assert AppliesOp(genesis, log, n, op);
      var ok :| Does(r.machine, op, r'.machine, ok);
      KeyStays(r.machine, op, r'.machine, ok, key);
    }
  }

  lemma KeyStays(m: Machine, op: Operation, m': Machine, ok: bool, key: string)
    requires Does(m, op, m', ok) && !Writes(op, key)
    ensures Get(m'.config, key) == Get(m.config, key)
  {
  }

  lemma {:induction false} OnceTakenStaysTaken(genesis: Members, log: Log, n: nat, m: nat, key: string, expected: Value)
    requires n <= m && OnlyContenders(genesis, log, n, m, key, expected) && ValueAt(genesis, log, n, key) != expected
    ensures ValueAt(genesis, log, m, key) != expected
    decreases m - n
  {
    if n < m {
      OnceTakenStaysTaken(genesis, log, n, m - 1, key, expected);
      hide ValueAt, AppliesOp;
      if op :| AppliesOp(genesis, log, m - 1, op) && Writes(op, key) {
        CasAnswers(genesis, log, m - 1, key, expected, op.value);
      } else {
        OtherKeysStay(genesis, log, m - 1, key);
      }
    }
  }

  /** One winner: of all compare-and-sets on a key that expect one value and put another there, with no
      other write of the key between them, at most one is ever answered yes. */
  lemma OneWinner(genesis: Members, log: Log, n: nat, m: nat, key: string, expected: Value, v: Value, v': Value)
    requires n < m && v != expected
    requires AppliesOp(genesis, log, n, Cas(key, expected, v)) && AppliesOp(genesis, log, m, Cas(key, expected, v'))
    requires OnlyContenders(genesis, log, n, m, key, expected)
    ensures !(AnswerAt(genesis, log, n) == Some(true) && AnswerAt(genesis, log, m) == Some(true))
  {
    hide *;
    CasAnswers(genesis, log, n, key, expected, v);
    CasAnswers(genesis, log, m, key, expected, v');
    if AnswerAt(genesis, log, n) == Some(true) {
      FewerContenders(genesis, log, n, m, key, expected);
      OnceTakenStaysTaken(genesis, log, n + 1, m, key, expected);
    }
  }

  lemma FewerContenders(genesis: Members, log: Log, n: nat, m: nat, key: string, expected: Value)
    requires OnlyContenders(genesis, log, n, m, key, expected)
    ensures OnlyContenders(genesis, log, n + 1, m, key, expected)
  {
    hide AppliesOp;
  }

}
