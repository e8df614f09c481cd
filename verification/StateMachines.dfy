/** The replicated facts (app/consensus/state_machine.py) and the commands that change them. */
module StateMachines {
  import opened Ballots

  datatype Option<+T> = None | Some(value: T)

  type Members = map<NodeId, string>

  /** A JSON value of the shared config; leases are the records the lease code stores, their expiry in
      ticks of the clock. */
  datatype Value = Null | Text(text: string) | Lease(holder: Option<NodeId>, expires: int)

  datatype Operation =
    | Set(key: string, value: Value)
    | Delete(key: string)
    | Cas(key: string, expected: Value, value: Value)
    | AddNode(id: NodeId, address: string)
    | RemoveNode(id: NodeId)

  datatype Payload = Reconfigure(epoch: int, members: Members) | Op(op: Operation)

  /** What the cluster agrees on; `Noop` is the command that fills a gap. */
  datatype Command = Noop | Command(cmdId: string, payload: Payload)

  datatype Machine = Machine(config: map<string, Value>, nodes: map<NodeId, string>)

  const EMPTY := Machine(map[], map[])

  function Get(config: map<string, Value>, key: string): Value {
    if key in config then config[key] else Null
  }

  /** One applied operation: the machine after it and the result handed back to the caller. */
  function Apply(m: Machine, op: Operation): (Machine, bool) {
    match op
    case Set(key, value) => (m.(config := m.config[key := value]), true)
    case Delete(key) => (m.(config := m.config - {key}), Get(m.config, key) != Null)
    case Cas(key, expected, value) =>
      if Get(m.config, key) != expected then (m, false)
      else (m.(config := m.config[key := value]), true)
    case AddNode(id, address) => (m.(nodes := m.nodes[id := address]), true)
    case RemoveNode(id) => (m.(nodes := m.nodes - {id}), id in m.nodes)
  }
}
