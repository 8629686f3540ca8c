/** The node object of mp1/mp1_node.py refines the system model. */
module IsisMember {
  import opened IsisQueue
  import opened IsisSystem
  import opened IsisInvariant
  import opened IsisNodes
  import opened IsisRuns
  import opened IsisOrder
  import IsisHeap
  import Bank

  datatype Outgoing = ToAll(packet: Packet) | To(node: nat, packet: Packet)

  // ------------------------------------------------------ one packet, on values

  /** The node after a packet, and what it sends, in order. */
  function React(nd: Node, n: nat, p: Packet): (Node, seq<Outgoing>) {
    match p
    case Message(id, origin, tx) =>
      if id in nd.received then (nd, [])
      else
        var (nd', prio) := Receipt(nd, id, tx);
        (nd', [ToAll(p), To(origin, Propose(id, origin, tx, prio))])
    case Propose(id, origin, tx, prio) =>
      var nd1 := Collect(nd, id, prio);
      if |Listed(nd1, id)| == n then
        var (nd', m) := Decide(nd1, id);
        (nd', [ToAll(Agree(id, origin, tx, m))])
      else (nd1, [])
    case Agree(id, origin, tx, prio) =>
      if id in nd.agreed then (nd, []) else (Settled(nd, id, prio, tx), [ToAll(p)])
  }

  function Emit1(ch: Chans, v: nat, o: Outgoing): Chans {
    match o
    case ToAll(p) => Broadcast(ch, v, p)
    case To(w, p) => Unicast(ch, v, w, p)
  }

  function Emit(ch: Chans, v: nat, out: seq<Outgoing>): Chans
    decreases |out|
  {
    if out == [] then ch else Emit(Emit1(ch, v, out[0]), v, out[1..])
  }

  lemma EmitFew(ch: Chans, v: nat, o: Outgoing, o': Outgoing)
    ensures Emit(ch, v, [o]) == Emit1(ch, v, o)
    ensures Emit(ch, v, [o, o']) == Emit1(Emit1(ch, v, o), v, o')
  {
    assert [o][1..] == [] && [o, o'][1..] == [o'] && [o'][1..] == [];
    assert Emit(Emit1(ch, v, o), v, [o']) == Emit1(Emit1(ch, v, o), v, o');
  }

  /** A step of the system is the node's reaction and its sends. */
  lemma HandleIsReact(s: System, ch: Chans, v: nat, p: Packet)
    requires v < |s.nodes|
    ensures var r := React(s.nodes[v], |s.nodes|, p);
            Handle(s, ch, v, p) == System(s.nodes[v := r.0], Emit(ch, v, r.1))
  {
    var nd := s.nodes[v];
    assert s.nodes[v := nd] == s.nodes;
    match p
    case Message(id, origin, tx) =>
      EmitFew(ch, v, ToAll(p), To(origin, Propose(id, origin, tx, Receipt(nd, id, tx).1)));
    case Propose(id, origin, tx, prio) =>
      var nd1 := Collect(nd, id, prio);
      var o := ToAll(Agree(id, origin, tx, Decide(nd1, id).1));
      EmitFew(ch, v, o, o);
    case Agree(_, _, _, _) =>
      EmitFew(ch, v, ToAll(p), ToAll(p));
  }

  // ------------------------------------------------------- no ties in the heap

  /** The heap operations a packet causes bring in no priority already queued, and settle
      a message that is queued at most once. */
  ghost predicate Clean(nd: Node, p: Packet) {
    match p
    case Message(id, _, tx) =>
      id !in nd.received ==>
        IsisHeap.Fresh(nd.hold.queue, NextPriority(Floored, nd.hold.node, Max(nd.hold.proSeq, nd.hold.agrSeq)))
    case Propose(_, _, _, _) => true
    case Agree(id, _, _, prio) =>
      id !in nd.agreed ==>
        IsisHeap.Once(nd.hold.queue, id) && forall x :: x in nd.hold.queue ==> x.prio != prio || x.id == id
  }

  lemma CleanNode(s: System, h: History, n: nat, x: nat, v: nat)
    requires Inv(s, h, n) && x < n && v < n && |s.chans[(x, v)]| > 0
    ensures Clean(s.nodes[v], s.chans[(x, v)][0])
  {
    var nd, p := s.nodes[v], s.chans[(x, v)][0];
    assert NodeOk(v, nd, h);
    HeadOk(s, h, n, x, v);
    if p.Message? && p.id !in nd.received {
      NextCounts(nd.hold.proSeq, nd.hold.agrSeq, v, |h.order[v]|);
      forall y | y in nd.hold.queue ensures y.prio < 10 * (|h.order[v]| + 1) {
        assert ItemOk(y, v, nd, h);
        QueuedBelow(v, nd, h, y);
      }
    } else if p.Agree? && p.id !in nd.agreed {
      AgreementKnown(s, h, n, x, v);
      QueuedOnce(v, nd, h, p.id);
      assert DecisionOk(h, p.id);
      forall y | y in nd.hold.queue && y.prio == p.prio ensures y.id == p.id {
        assert ItemOk(y, v, nd, h);
        OneMessage(h, p.prio, y.id, p.id);
      }
    }
  }

  /** In every run each packet is handled without ties, so a heap-backed node can
      always follow, and never compares two messages. */
  lemma AlwaysClean(r: Run, n: nat, k: nat, v: nat)
    requires IsRun(r, n) && n <= 10 && FreshIds(r) && At(r, k, v)
    ensures v < n && Clean(r.states[k].nodes[v], Handling(r, k)[0])
  {
    RunKeeps(r, n, k);
    StepAt(r, n, k);
    CleanNode(r.states[k], HistoryAt(r, n, k), n, r.actions[k].from, v);
  }

  // ------------------------------------------------------------------ the node

  /** A node with the heap of mp1/isis.py and the account controller it feeds.  Handling
      a packet does to this object, and puts on the channels, exactly what one step of
      the system does. */
  class Member {
    const n: nat
    const isis: IsisHeap.HeapIsis
    const account: Bank.AccountCtl
    var received: set<Id>
    var proposals: map<Id, seq<int>>
    var agreed: set<Id>
    ghost var delivered: seq<Item>

    ghost predicate Valid()
      reads this, isis, isis.queue, account
    {
      isis.Valid() && isis.rule == Floored && account.balance == Bank.Ledger(delivered)
    }

    ghost function State(): Node
      reads this, isis, isis.queue
    {
      Node(received, proposals, agreed, isis.State(), delivered)
    }

    constructor (node: nat, n: nat)
      ensures Valid() && fresh(isis) && fresh(isis.queue) && fresh(account) && this.n == n
      ensures State() == InitNode(node)
    {
      this.n := n;
      isis := new IsisHeap.HeapIsis(node, Floored);
      account := new Bank.AccountCtl();
      received, proposals, agreed, delivered := {}, map[], {}, [];
    }

    method HandleMessage(id: Id, origin: nat, tx: Tx) returns (out: seq<Outgoing>)
      requires Valid() && Clean(State(), Message(id, origin, tx))
      modifies this, isis, isis.queue
      ensures Valid() && (State(), out) == React(old(State()), n, Message(id, origin, tx))
    {
      out := [];
      if id !in received {
        received := received + {id};
        FreshInHeap(isis, NextPriority(Floored, isis.node, Max(isis.proSeq, isis.agrSeq)));
        out := [ToAll(Message(id, origin, tx))];
        var proposed := isis.ProposeSeq(id, tx);
        out := out + [To(origin, Propose(id, origin, tx, proposed))];
        assert out == [ToAll(Message(id, origin, tx)), To(origin, Propose(id, origin, tx, proposed))];
      }
    }

    method HandlePropose(id: Id, origin: nat, tx: Tx, prio: int) returns (out: seq<Outgoing>)
      requires Valid()
      modifies this, isis
      ensures Valid() && (State(), out) == React(old(State()), n, Propose(id, origin, tx, prio))
    {
      out := [];
      proposals := proposals[id := (if id in proposals then proposals[id] else []) + [prio]];
      if |proposals[id]| == n {
        var decided := isis.DecideSeq(proposals[id]);
        proposals := proposals[id := []];
        out := [ToAll(Agree(id, origin, tx, decided))];
      }
    }

    /** Hands the delivered messages to the account controller, one by one. */
    method UpdateAccounts(ready: seq<Item>)
      requires account.balance == Bank.Ledger(delivered)
      modifies this`delivered, account
      ensures delivered == old(delivered) + ready && account.balance == Bank.Ledger(delivered)
    {
      for i := 0 to |ready|
        invariant delivered == old(delivered) + ready[..i]
        invariant account.balance == Bank.Ledger(delivered)
      {
        account.UpdateBalance(ready[i].tx);
        delivered := delivered + [ready[i]];
        assert delivered[..|delivered| - 1] == old(delivered) + ready[..i];
      }
    }

    /** The messages an agreement makes deliverable. */
    method Deliverable(id: Id, prio: int, tx: Tx) returns (ready: seq<Item>)
      requires isis.Valid() && IsisHeap.Once(isis.State().queue, id)
      requires forall x :: x in isis.State().queue ==> x.prio != prio || x.id == id
      modifies isis.queue
      ensures isis.Valid() && (isis.State(), ready) == DeliverMsg(old(isis.State()), id, prio, tx)
    {
      IsisHeap.NoTiesInHeap(isis.queue.items, id, prio);
      IsisHeap.OnceIsLeast(isis.queue.items, id);
      ready := isis.DeliverMsg(id, prio, tx);
    }

    method HandleAgree(id: Id, origin: nat, tx: Tx, prio: int) returns (out: seq<Outgoing>)
      requires Valid() && Clean(State(), Agree(id, origin, tx, prio))
      modifies this, isis, isis.queue, account
      ensures Valid() && (State(), out) == React(old(State()), n, Agree(id, origin, tx, prio))
    {
      out := [];
      if id !in agreed {
        agreed := agreed + {id};
        out := [ToAll(Agree(id, origin, tx, prio))];
        var ready := Deliverable(id, prio, tx);
        UpdateAccounts(ready);
      }
    }

    /** One turn of the receive loop. */
    method HandlePacket(p: Packet) returns (out: seq<Outgoing>)
      requires Valid() && Clean(State(), p)
      modifies this, isis, isis.queue, account
      ensures Valid() && (State(), out) == React(old(State()), n, p)
    {
      match p
      case Message(id, origin, tx) => out := HandleMessage(id, origin, tx);
      case Propose(id, origin, tx, prio) => out := HandlePropose(id, origin, tx, prio);
      case Agree(id, origin, tx, prio) => out := HandleAgree(id, origin, tx, prio);
    }
  }

  lemma FreshInHeap(isis: IsisHeap.HeapIsis, prio: int)
    requires isis.Valid() && IsisHeap.Fresh(isis.State().queue, prio)
    ensures IsisHeap.Fresh(isis.queue.items, prio)
  {
    SortedHasSame(isis);
  }

  lemma SortedHasSame(isis: IsisHeap.HeapIsis)
    requires isis.Valid()
    ensures forall x :: x in isis.queue.items <==> x in isis.State().queue
  {
    IsisHeap.SortHasSame(isis.queue.items);
  }
}
