/** The whole-system invariant behind total order.  A node counts the messages it
    has received; a proposal's integer part is that count.  Because a node passes a
    message on before it proposes, and channels are FIFO, whoever handles a proposal
    or an agreement already holds every message its proposer had counted. */
module IsisInvariant {
  import opened IsisQueue
  import opened IsisSystem

  datatype Origin = Origin(node: nat, tx: Tx)

  /** What happened so far: the order in which each node first received messages,
      the agreed priorities, and who sent what. */
  datatype History = History(order: seq<seq<Id>>, decided: map<Id, int>, sent: map<Id, Origin>)

  function Record(h: History, s: System, a: Action): History {
    match a
    case Send(v, id, tx) => h.(sent := h.sent[id := Origin(v, tx)])
    case Receive(x, v) =>
      if v < |s.nodes| == |h.order| && (x, v) in s.chans && |s.chans[(x, v)]| > 0
      then Handled(h, s, v, s.chans[(x, v)][0]) else h
  }

  function Handled(h: History, s: System, v: nat, p: Packet): History
    requires v < |s.nodes| == |h.order|
  {
    match p
    case Message(id, _, _) => if id in s.nodes[v].received then h else Ordered(h, v, id)
    case Propose(id, _, _, prio) =>
      var nd := Collect(s.nodes[v], id, prio);
      if |Listed(nd, id)| == |s.nodes| then h.(decided := h.decided[id := Decide(nd, id).1]) else h
    case Agree(_, _, _, _) => h
  }

  function Ordered(h: History, v: nat, id: Id): History
    requires v < |h.order|
  {
    h.(order := h.order[v := h.order[v] + [id]])
  }

  // ------------------------------------------------------------- vocabulary

  /** Priority p was made by node p % 10 for message id, the (p / 10)-th it received. */
  ghost predicate Owner(h: History, p: int, id: Id) {
    && p >= 10 && p % 10 < |h.order|
    && p / 10 <= |h.order[p % 10]|
    && h.order[p % 10][p / 10 - 1] == id
  }

  /** The set holds every message that the maker of priority p had received. */
  ghost predicate Knows(h: History, p: int, known: set<Id>) {
    && p >= 10 && p % 10 < |h.order| && p / 10 <= |h.order[p % 10]|
    && forall i :: 0 <= i < p / 10 ==> h.order[p % 10][i] in known
  }

  ghost predicate Distinct(o: seq<Id>) {
    forall i, j :: 0 <= i < j < |o| ==> o[i] != o[j]
  }

  function Ids(o: seq<Id>): set<Id> {
    set i | i in o
  }

  /** The ids of the messages travelling in a channel. */
  function InTransit(c: seq<Packet>): set<Id> {
    set p | p in c && p.Message? :: p.id
  }

  // --------------------------------------------------------- node invariants

  ghost predicate ItemOk(x: Item, v: nat, nd: Node, h: History) {
    && x.id in nd.received && x.id in h.sent && h.sent[x.id].tx == x.tx
    && Owner(h, x.prio, x.id)
    && (if x.deliverable then x.id in nd.agreed && x.id in h.decided && h.decided[x.id] == x.prio
        else x.id !in nd.agreed && x.prio % 10 == v)
  }

  ghost predicate CountsOk(v: nat, nd: Node, h: History)
    requires v < |h.order|
  {
    && nd.received == Ids(h.order[v]) && Distinct(h.order[v])
    && nd.hold.node == v
    && nd.hold.proSeq >= 0 && nd.hold.proSeq / 10 == |h.order[v]|
    && nd.hold.agrSeq >= 0 && nd.hold.agrSeq / 10 <= |h.order[v]|
    && nd.agreed <= nd.received
    && (forall id :: id in nd.agreed ==> id in h.decided && h.decided[id] / 10 <= |h.order[v]|)
  }

  ghost predicate QueueOk(v: nat, nd: Node, h: History) {
    && Sorted(nd.hold.queue)
    && (forall x :: x in nd.hold.queue ==> ItemOk(x, v, nd, h))
    && (nd.hold.queue != [] ==> !nd.hold.queue[0].deliverable)
  }

  ghost predicate DeliveredOk(v: nat, nd: Node, h: History) {
    && Sorted(nd.delivered)
    && (forall x :: x in nd.delivered ==> x.deliverable && ItemOk(x, v, nd, h))
    && (forall x, y :: x in nd.delivered && y in nd.hold.queue ==> x.prio < y.prio)
  }

  ghost predicate HasItem(q: seq<Item>, id: Id) {
    exists x :: x in q && x.id == id
  }

  /** A received message is queued or delivered. */
  ghost predicate NothingLost(nd: Node) {
    forall id :: id in nd.received ==> HasItem(nd.hold.queue, id) || HasItem(nd.delivered, id)
  }

  ghost predicate NodeOk(v: nat, nd: Node, h: History)
    requires v < |h.order|
  {
    CountsOk(v, nd, h) && QueueOk(v, nd, h) && DeliveredOk(v, nd, h) && NothingLost(nd)
  }

  // ------------------------------------------------------ agreed priorities

  /** An agreed priority is one of the proposals, no node proposed more, and every
      node had received the message. */
  ghost predicate DecisionOk(h: History, id: Id)
    requires id in h.decided
  {
    && id in h.sent
    && Owner(h, h.decided[id], id)
    && forall v :: 0 <= v < |h.order| ==> ProposedAtMost(h, v, id, h.decided[id])
  }

  ghost predicate ProposedAtMost(h: History, v: nat, id: Id, m: int)
    requires v < |h.order|
  {
    && id in h.order[v]
    && forall k :: 0 <= k < |h.order[v]| && h.order[v][k] == id ==> 10 * (k + 1) + v <= m
  }

  ghost predicate DecisionsOk(h: History) {
    forall id {:trigger DecisionOk(h, id)} :: id in h.decided ==> DecisionOk(h, id)
  }

  // ------------------------------------------------------ channel invariants

  /** The packet is true, and its receiver will by then know what its proposer knew. */
  ghost predicate PacketOk(p: Packet, known: set<Id>, x: nat, v: nat, h: History) {
    && p.id in h.sent && h.sent[p.id] == Origin(p.origin, p.tx)
    && (p.Propose? ==> Owner(h, p.prio, p.id) && p.prio % 10 == x && v == p.origin && Knows(h, p.prio, known))
    && (p.Agree? ==> p.id in h.decided && h.decided[p.id] == p.prio && Knows(h, p.prio, known))
  }

  ghost predicate ChanOk(c: seq<Packet>, known: set<Id>, x: nat, v: nat, h: History)
    decreases |c|
  {
    c == [] || (PacketOk(c[0], known, x, v, h)
                && ChanOk(c[1..], if c[0].Message? then known + {c[0].id} else known, x, v, h))
  }

  ghost predicate ChannelOk(s: System, x: nat, v: nat, h: History)
    requires v < |s.nodes|
  {
    (x, v) in s.chans && ChanOk(s.chans[(x, v)], s.nodes[v].received, x, v, h)
  }

  /** What x received has reached v or travels from x to v. */
  ghost predicate Flooded(s: System, x: nat, v: nat, h: History)
    requires v < |s.nodes| && x < |h.order|
  {
    (x, v) in s.chans && forall id :: id in h.order[x] ==> id in s.nodes[v].received || id in InTransit(s.chans[(x, v)])
  }

  /** A proposal listed at the originator o is what some node proposed, and o knows
      what that node knew. */
  ghost predicate EntryOk(nd: Node, o: nat, h: History, id: Id, p: int) {
    p in Listed(nd, id) ==>
      && id in h.sent && h.sent[id].node == o
      && Owner(h, p, id) && Knows(h, p, nd.received)
  }

  ghost predicate StoredOk(nd: Node, o: nat, h: History) {
    forall id, p {:trigger EntryOk(nd, o, h, id, p)} :: EntryOk(nd, o, h, id, p)
  }

  ghost predicate SentOk(n: nat, h: History)
    requires n == |h.order|
  {
    && (forall id :: id in h.sent ==> h.sent[id].node < n)
    && (forall v, id :: 0 <= v < n && id in h.order[v] ==> id in h.sent)
  }

  ghost predicate Sized(s: System, h: History, n: nat) {
    && |s.nodes| == n && |h.order| == n
    && forall k :: k in s.chans <==> k.0 < n && k.1 < n
  }

  ghost predicate NodesOk(s: System, h: History, n: nat)
    requires Sized(s, h, n)
  {
    forall v :: 0 <= v < n ==> NodeOk(v, s.nodes[v], h) && StoredOk(s.nodes[v], v, h)
  }

  ghost predicate ChannelsOk(s: System, h: History, n: nat)
    requires Sized(s, h, n)
  {
    && (forall x, v {:trigger ChannelOk(s, x, v, h)} :: 0 <= x < n && 0 <= v < n ==> ChannelOk(s, x, v, h))
    && (forall x, v {:trigger Flooded(s, x, v, h)} :: 0 <= x < n && 0 <= v < n ==> Flooded(s, x, v, h))
  }

  ghost predicate AllBalanced(s: System, h: History, n: nat)
    requires Sized(s, h, n)
  {
    forall v, id {:trigger Balanced(s, h, v, id)} :: 0 <= v < n && id in h.sent ==> Balanced(s, h, v, id)
  }

  ghost predicate Inv(s: System, h: History, n: nat) {
    && n <= 10 && Sized(s, h, n)
    && NodesOk(s, h, n)
    && DecisionsOk(h)
    && SentOk(n, h)
    && ChannelsOk(s, h, n)
    && AllBalanced(s, h, n)
  }

  // ------------------------------------------- one proposal per node and message

  function Proposing(c: seq<Packet>, id: Id): nat {
    if c == [] then 0 else (if c[0].Propose? && c[0].id == id then 1 else 0) + Proposing(c[1..], id)
  }

  function ListedFrom(ps: seq<int>, v: nat): nat {
    if ps == [] then 0 else (if ps[0] % 10 == v then 1 else 0) + ListedFrom(ps[1..], v)
  }

  /** A node that received the message has proposed exactly once: the proposal is on
      its way, or listed at the originator, or the priority is decided.  A node that
      has not received it has not proposed. */
  ghost predicate Balanced(s: System, h: History, v: nat, id: Id)
    requires v < |s.nodes| && id in h.sent
  {
    var o := h.sent[id].node;
    && o < |s.nodes| && (v, o) in s.chans
    && Proposing(s.chans[(v, o)], id) + ListedFrom(Listed(s.nodes[o], id), v) + (if id in h.decided then 1 else 0)
       == (if id in s.nodes[v].received then 1 else 0)
  }
}
