/** The ISIS total-order multicast of mp1/mp1_node.py: n nodes, a FIFO channel for
    every ordered pair (a node also sends to itself), and handlers that run as one
    atomic step each.  No node fails. */
module IsisSystem {
  import opened IsisQueue

  datatype Packet =
    | Message(id: Id, origin: nat, tx: Tx)
    | Propose(id: Id, origin: nat, tx: Tx, prio: int)
    | Agree(id: Id, origin: nat, tx: Tx, prio: int)

  datatype Node = Node(
    received: set<Id>,               // recivedDict
    proposals: map<Id, seq<int>>,    // allproposed
    agreed: set<Id>,                 // agreedDict
    hold: Holdback,                  // the Isis object
    delivered: seq<Item>)            // what was handed to the account controller

  type Chans = map<(nat, nat), seq<Packet>>

  datatype System = System(nodes: seq<Node>, chans: Chans)

  datatype Action = Send(node: nat, id: Id, tx: Tx) | Receive(from: nat, to: nat)

  function InitNode(v: nat): Node {
    Node({}, map[], {}, Holdback(v, v, v, []), [])
  }

  predicate Init(s: System, n: nat) {
    && |s.nodes| == n
    && (forall v :: 0 <= v < n ==> s.nodes[v] == InitNode(v))
    && s.chans == map a, b | 0 <= a < n && 0 <= b < n :: (a, b) := []
  }

  // ------------------------------------------------------------------ handlers

  function Listed(nd: Node, id: Id): seq<int> {
    if id in nd.proposals then nd.proposals[id] else []
  }

  /** First receipt of a message: note it and propose a priority. */
  function Receipt(nd: Node, id: Id, tx: Tx): (Node, int) {
    var (hold, prio) := ProposeSeq(Floored, nd.hold, id, tx);
    (nd.(received := nd.received + {id}, hold := hold), prio)
  }

  /** A proposal comes back to the originator. */
  function Collect(nd: Node, id: Id, prio: int): Node {
    nd.(proposals := nd.proposals[id := Listed(nd, id) + [prio]])
  }

  /** All proposals are in: the largest is agreed. */
  function Decide(nd: Node, id: Id): (r: (Node, int))
    requires |Listed(nd, id)| > 0
  {
    var (hold, m) := DecideSeq(nd.hold, Listed(nd, id));
    (nd.(hold := hold, proposals := nd.proposals[id := []]), m)
  }

  /** First receipt of an agreement: settle the message and deliver. */
  function Settled(nd: Node, id: Id, prio: int, tx: Tx): Node {
    var (hold, out) := DeliverMsg(nd.hold, id, prio, tx);
    nd.(agreed := nd.agreed + {id}, hold := hold, delivered := nd.delivered + out)
  }

  // --------------------------------------------------------------------- steps

  function Broadcast(ch: Chans, v: nat, p: Packet): Chans {
    map k | k in ch :: if k.0 == v then ch[k] + [p] else ch[k]
  }

  function Unicast(ch: Chans, v: nat, w: nat, p: Packet): Chans {
    if (v, w) in ch then ch[(v, w) := ch[(v, w)] + [p]] else ch
  }

  function Pop(ch: Chans, k: (nat, nat)): Chans
    requires k in ch && |ch[k]| > 0
  {
    ch[k := ch[k][1..]]
  }

  /** The state after node v handles packet p, taken off its channel already. */
  function Handle(s: System, ch: Chans, v: nat, p: Packet): System
    requires v < |s.nodes|
  {
    var nd := s.nodes[v];
    match p
    case Message(id, origin, tx) =>
      if id in nd.received then System(s.nodes, ch)
      else
        var (nd', prio) := Receipt(nd, id, tx);
        System(s.nodes[v := nd'], Unicast(Broadcast(ch, v, p), v, origin, Propose(id, origin, tx, prio)))
    case Propose(id, origin, tx, prio) =>
      var nd1 := Collect(nd, id, prio);
      if |Listed(nd1, id)| == |s.nodes| then
        var (nd', m) := Decide(nd1, id);
        System(s.nodes[v := nd'], Broadcast(ch, v, Agree(id, origin, tx, m)))
      else System(s.nodes[v := nd1], ch)
    case Agree(id, origin, tx, prio) =>
      if id in nd.agreed then System(s.nodes, ch)
      else System(s.nodes[v := Settled(nd, id, prio, tx)], Broadcast(ch, v, p))
  }

  predicate Step(s: System, a: Action, s': System) {
    match a
    case Send(v, id, tx) =>
      v < |s.nodes| && s' == System(s.nodes, Broadcast(s.chans, v, Message(id, v, tx)))
    case Receive(x, v) =>
      && v < |s.nodes| && (x, v) in s.chans && |s.chans[(x, v)]| > 0
      && s' == Handle(s, Pop(s.chans, (x, v)), v, s.chans[(x, v)][0])
  }

  datatype Run = Run(states: seq<System>, actions: seq<Action>)

  predicate StepOf(r: Run, k: nat)
    requires k < |r.actions| < |r.states|
  {
    Step(r.states[k], r.actions[k], r.states[k + 1])
  }

  ghost predicate IsRun(r: Run, n: nat) {
    && |r.states| == |r.actions| + 1
    && Init(r.states[0], n)
    && forall k {:trigger StepOf(r, k)} :: 0 <= k < |r.actions| ==> StepOf(r, k)
  }

  /** Message ids, which the program takes from the clock, are never used twice. */
  ghost predicate FreshIds(r: Run) {
    forall j, k :: 0 <= j < k < |r.actions| && r.actions[j].Send? && r.actions[k].Send? ==>
                     r.actions[j].id != r.actions[k].id
  }

  predicate Quiet(s: System) {
    forall k :: k in s.chans ==> s.chans[k] == []
  }
}
