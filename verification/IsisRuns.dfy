/** The ISIS invariant holds in every state of every run.  Each kind of step is taken
    apart into what it does to the channels, to the node, to the recorded decisions and
    to the count of proposals.  The channels carry the point of the argument: a node
    passes a message on before it proposes, so a proposal or an agreement that it sends
    later stands behind that message in every channel, and its receiver will by then know
    everything the proposer had counted.  A full list of proposals therefore decides a
    priority that no node's own proposal exceeds, once for each message. */
module IsisRuns {
  import opened IsisQueue
  import opened IsisSystem
  import opened IsisInvariant
  import opened IsisSteps
  import opened IsisNodes

  // ------------------------------------------------------- channels: popping

  /** The nodes' received sets grow. */
  ghost predicate ReceivedGrow(a: seq<Node>, b: seq<Node>) {
    |a| == |b| && forall v :: 0 <= v < |a| ==> a[v].received <= b[v].received
  }

  lemma PopChannel(s: System, h: History, n: nat, x: nat, v: nat, nodes: seq<Node>, a: nat, b: nat)
    requires Sized(s, h, n) && ChannelsOk(s, h, n) && x < n && v < n && |s.chans[(x, v)]| > 0 && a < n && b < n
    requires ReceivedGrow(s.nodes, nodes)
    requires var p := s.chans[(x, v)][0]; p.Message? ==> p.id in nodes[v].received
    ensures ChannelOk(System(nodes, Pop(s.chans, (x, v))), a, b, h)
    ensures Flooded(System(nodes, Pop(s.chans, (x, v))), a, b, h)
  {
    var c := s.chans[(a, b)];
    assert ChannelOk(s, a, b, h) && Flooded(s, a, b, h);
    if (a, b) == (x, v) {
      var p := c[0];
      TransitHead(c);
      ChanOkGrows(c[1..], if p.Message? then s.nodes[v].received + {p.id} else s.nodes[v].received,
                  nodes[v].received, a, b, h, h);
    } else {
      ChanOkGrows(c, s.nodes[b].received, nodes[b].received, a, b, h, h);
    }
  }

  lemma PopChannels(s: System, h: History, n: nat, x: nat, v: nat, nodes: seq<Node>)
    requires Sized(s, h, n) && ChannelsOk(s, h, n) && x < n && v < n && |s.chans[(x, v)]| > 0
    requires ReceivedGrow(s.nodes, nodes)
    requires var p := s.chans[(x, v)][0]; p.Message? ==> p.id in nodes[v].received
    ensures Sized(System(nodes, Pop(s.chans, (x, v))), h, n)
    ensures ChannelsOk(System(nodes, Pop(s.chans, (x, v))), h, n)
  {
    var s' := System(nodes, Pop(s.chans, (x, v)));
    forall a, b | 0 <= a < n && 0 <= b < n ensures ChannelOk(s', a, b, h) && Flooded(s', a, b, h) {
      PopChannel(s, h, n, x, v, nodes, a, b);
    }
  }

  // ----------------------------------------------------- channels: relaying

  /** What receiver b will know once it has read the channel from v to its end. */
  function Ahead(s: System, v: nat, b: nat): set<Id>
    requires b < |s.nodes| && (v, b) in s.chans
  {
    s.nodes[b].received + InTransit(s.chans[(v, b)])
  }

  /** Whatever v knows, everyone will know. */
  lemma FloodKnows(s: System, h: History, n: nat, v: nat, b: nat, p: int)
    requires Sized(s, h, n) && ChannelsOk(s, h, n) && v < n && b < n
    requires Knows(h, p, Ids(h.order[v]))
    ensures Knows(h, p, Ahead(s, v, b))
  {
    assert Flooded(s, v, b, h);
    forall i | 0 <= i < p / 10 ensures h.order[p % 10][i] in Ahead(s, v, b) {
      assert h.order[p % 10][i] in Ids(h.order[v]);
    }
  }

  lemma RelayChannel(s: System, h: History, n: nat, v: nat, p: Packet, h': History, a: nat, b: nat)
    requires Sized(s, h, n) && ChannelsOk(s, h, n) && v < n && a < n && b < n && Grows(h, h')
    requires PacketOk(p, Ahead(s, v, b), v, b, h')
    requires h'.order[a] == h.order[a] || (a == v && p.Message? && h'.order[v] == h.order[v] + [p.id])
    ensures var s' := System(s.nodes, Broadcast(s.chans, v, p));
            ChannelOk(s', a, b, h') && Flooded(s', a, b, h')
  {
    var c := s.chans[(a, b)];
    assert ChannelOk(s, a, b, h) && Flooded(s, a, b, h);
    ChanOkGrows(c, s.nodes[b].received, s.nodes[b].received, a, b, h, h');
    if a == v {
      ChanAppend(c, p, s.nodes[b].received, a, b, h');
      TransitAppend(c, p);
    }
  }

  lemma RelayChannels(s: System, h: History, n: nat, v: nat, p: Packet, h': History)
    requires Sized(s, h, n) && ChannelsOk(s, h, n) && v < n && Grows(h, h')
    requires forall b :: 0 <= b < n ==> PacketOk(p, Ahead(s, v, b), v, b, h')
    requires forall a :: 0 <= a < n && a != v ==> h'.order[a] == h.order[a]
    requires h'.order[v] == h.order[v] || (p.Message? && h'.order[v] == h.order[v] + [p.id])
    ensures var s' := System(s.nodes, Broadcast(s.chans, v, p));
            Sized(s', h', n) && ChannelsOk(s', h', n)
  {
    var s' := System(s.nodes, Broadcast(s.chans, v, p));
    forall a, b | 0 <= a < n && 0 <= b < n ensures ChannelOk(s', a, b, h') && Flooded(s', a, b, h') {
      RelayChannel(s, h, n, v, p, h', a, b);
    }
  }

  lemma UnicastChannels(s: System, h: History, n: nat, v: nat, o: nat, p: Packet)
    requires Sized(s, h, n) && ChannelsOk(s, h, n) && v < n && o < n && !p.Message?
    requires PacketOk(p, Ahead(s, v, o), v, o, h)
    ensures var s' := System(s.nodes, Unicast(s.chans, v, o, p));
            Sized(s', h, n) && ChannelsOk(s', h, n)
  {
    var s' := System(s.nodes, Unicast(s.chans, v, o, p));
    forall a, b | 0 <= a < n && 0 <= b < n ensures ChannelOk(s', a, b, h) && Flooded(s', a, b, h) {
      assert ChannelOk(s, a, b, h) && Flooded(s, a, b, h);
      if (a, b) == (v, o) {
        ChanAppend(s.chans[(v, o)], p, s.nodes[o].received, v, o, h);
        TransitAppend(s.chans[(v, o)], p);
      }
    }
  }

  // ------------------------------------------------------------- frame lemmas

  lemma HeadOk(s: System, h: History, n: nat, x: nat, v: nat)
    requires Sized(s, h, n) && ChannelsOk(s, h, n) && x < n && v < n && |s.chans[(x, v)]| > 0
    ensures PacketOk(s.chans[(x, v)][0], s.nodes[v].received, x, v, h)
  {
    assert ChannelOk(s, x, v, h);
  }

  lemma StoredOkGrows(nd: Node, nd': Node, o: nat, h: History, h': History)
    requires StoredOk(nd, o, h) && Grows(h, h') && nd.received <= nd'.received && nd'.proposals == nd.proposals
    ensures StoredOk(nd', o, h')
  {
    forall id, p ensures EntryOk(nd', o, h', id, p) {
      assert EntryOk(nd, o, h, id, p);
      if p in Listed(nd, id) {
        OwnerGrows(h, h', p, id);
        KnowsGrows(h, h', p, nd.received, nd'.received);
      }
    }
  }

  /** One node changes; the history may grow, for the other nodes only elsewhere. */
  lemma OneNodeChanges(s: System, h: History, n: nat, v: nat, nd': Node, ch': Chans, h': History)
    requires Sized(s, h, n) && NodesOk(s, h, n) && v < n && Grows(h, h')
    requires Sized(System(s.nodes[v := nd'], ch'), h', n)
    requires NodeOk(v, nd', h') && StoredOk(nd', v, h')
    requires forall w :: 0 <= w < n && w != v ==> h'.order[w] == h.order[w]
    ensures NodesOk(System(s.nodes[v := nd'], ch'), h', n)
  {
    forall w | 0 <= w < n && w != v ensures NodeOk(w, s.nodes[w], h') && StoredOk(s.nodes[w], w, h') {
      NodeOkGrows(w, s.nodes[w], h, h');
      StoredOkGrows(s.nodes[w], s.nodes[w], w, h, h');
    }
  }

  lemma NoNodeChanges(s: System, h: History, n: nat, ch': Chans, h': History)
    requires Sized(s, h, n) && NodesOk(s, h, n) && Grows(h, h') && h'.order == h.order
    requires Sized(System(s.nodes, ch'), h', n)
    ensures NodesOk(System(s.nodes, ch'), h', n)
  {
    forall w | 0 <= w < n ensures NodeOk(w, s.nodes[w], h') && StoredOk(s.nodes[w], w, h') {
      NodeOkGrows(w, s.nodes[w], h, h');
      StoredOkGrows(s.nodes[w], s.nodes[w], w, h, h');
    }
  }

  // -------------------------------------------------------------- sending

  lemma {:induction false} UnsentNotProposed(c: seq<Packet>, known: set<Id>, x: nat, v: nat, h: History, id: Id)
    requires ChanOk(c, known, x, v, h) && id !in h.sent
    ensures Proposing(c, id) == 0
    decreases |c|
  {
    if c != [] {
      UnsentNotProposed(c[1..], if c[0].Message? then known + {c[0].id} else known, x, v, h, id);
    }
  }

  lemma NewIdBalanced(s: System, h: History, n: nat, v: nat, id: Id, tx: Tx, w: nat)
    requires Inv(s, h, n) && v < n && w < n && id !in h.sent
    ensures var s' := System(s.nodes, Broadcast(s.chans, v, Message(id, v, tx)));
            Balanced(s', h.(sent := h.sent[id := Origin(v, tx)]), w, id)
  {
    assert ChannelOk(s, w, v, h);
    UnsentNotProposed(s.chans[(w, v)], s.nodes[v].received, w, v, h, id);
    ProposingAppend(s.chans[(w, v)], Message(id, v, tx), id);
    assert id in h.decided ==> DecisionOk(h, id);
    assert NodeOk(w, s.nodes[w], h) && StoredOk(s.nodes[v], v, h);
    assert id !in Ids(h.order[w]);
    var ps := Listed(s.nodes[v], id);
    if ps != [] {
      assert EntryOk(s.nodes[v], v, h, id, ps[0]);
    }
  }

  lemma SendKeeps(s: System, h: History, n: nat, v: nat, id: Id, tx: Tx)
    requires Inv(s, h, n) && v < n && id !in h.sent
    ensures Inv(System(s.nodes, Broadcast(s.chans, v, Message(id, v, tx))),
                h.(sent := h.sent[id := Origin(v, tx)]), n)
  {
    var p := Message(id, v, tx);
    var h' := h.(sent := h.sent[id := Origin(v, tx)]);
    var s' := System(s.nodes, Broadcast(s.chans, v, p));
    assert Grows(h, h');
    RelayChannels(s, h, n, v, p, h');
    NoNodeChanges(s, h, n, s'.chans, h');
    DecisionsGrow(h, h');
    forall w, i | 0 <= w < n && i in h'.sent ensures Balanced(s', h', w, i) {
      if i == id {
        NewIdBalanced(s, h, n, v, id, tx, w);
      } else {
        assert Balanced(s, h, w, i);
        ProposingAppend(s.chans[(w, h.sent[i].node)], p, i);
      }
    }
  }

  lemma DecisionsGrow(h: History, h': History)
    requires DecisionsOk(h) && Grows(h, h') && h'.order == h.order && h'.decided == h.decided
    ensures DecisionsOk(h')
  {
    forall id | id in h'.decided ensures DecisionOk(h', id) {
      assert DecisionOk(h, id);
      forall v | 0 <= v < |h'.order| ensures ProposedAtMost(h', v, id, h'.decided[id]) {
        assert ProposedAtMost(h, v, id, h.decided[id]);
      }
    }
  }

  // ------------------------------------------------- a message, the first time

  lemma DecisionsOrdered(h: History, v: nat, id: Id)
    requires DecisionsOk(h) && v < |h.order| && id !in h.order[v]
    ensures DecisionsOk(Ordered(h, v, id))
  {
    var h' := Ordered(h, v, id);
    OrderedGrows(h, v, id);
    forall i | i in h'.decided ensures DecisionOk(h', i) {
      assert DecisionOk(h, i);
      OwnerGrows(h, h', h.decided[i], i);
      forall w | 0 <= w < |h'.order| ensures ProposedAtMost(h', w, i, h'.decided[i]) {
        assert ProposedAtMost(h, w, i, h.decided[i]);
      }
    }
  }

  /** The channels after a first receipt. */
  lemma ReceiptChannels(s: System, h: History, n: nat, x: nat, v: nat, p: Packet)
    requires Inv(s, h, n) && x < n && v < n && |s.chans[(x, v)]| > 0 && p == s.chans[(x, v)][0]
    requires p.Message? && p.id !in s.nodes[v].received
    ensures var s' := Handle(s, Pop(s.chans, (x, v)), v, p);
            Sized(s', Ordered(h, v, p.id), n) && ChannelsOk(s', Ordered(h, v, p.id), n)
  {
    var nd := s.nodes[v];
    var (nd', prio) := Receipt(nd, p.id, p.tx);
    var nodes := s.nodes[v := nd'];
    var h' := Ordered(h, v, p.id);
    HeadOk(s, h, n, x, v);
    assert NodeOk(v, nd, h);
    PopChannels(s, h, n, x, v, nodes);
    OrderedGrows(h, v, p.id);
    var s1 := System(nodes, Pop(s.chans, (x, v)));
    RelayChannels(s1, h, n, v, p, h');
    var s2 := System(nodes, Broadcast(s1.chans, v, p));
    ReceiptCounts(v, nd, h, p.id, p.tx);
    FloodKnows(s2, h', n, v, p.origin, prio);
    UnicastChannels(s2, h', n, v, p.origin, Propose(p.id, p.origin, p.tx, prio));
  }

  lemma ReceiptNodes(s: System, h: History, n: nat, v: nat, p: Packet, ch': Chans)
    requires Inv(s, h, n) && v < n && p.Message? && p.id !in s.nodes[v].received
    requires p.id in h.sent && h.sent[p.id].tx == p.tx
    requires Sized(System(s.nodes[v := Receipt(s.nodes[v], p.id, p.tx).0], ch'), Ordered(h, v, p.id), n)
    ensures NodesOk(System(s.nodes[v := Receipt(s.nodes[v], p.id, p.tx).0], ch'), Ordered(h, v, p.id), n)
  {
    var nd := s.nodes[v];
    assert NodeOk(v, nd, h);
    ReceiptCounts(v, nd, h, p.id, p.tx);
    ReceiptQueue(v, nd, h, p.id, p.tx);
    OrderedGrows(h, v, p.id);
    var nd' := Receipt(nd, p.id, p.tx).0;
    StoredOkGrows(nd, nd', v, h, Ordered(h, v, p.id));
    OneNodeChanges(s, h, n, v, nd', ch', Ordered(h, v, p.id));
  }

  /** A channel's count of proposals through pop, broadcast and unicast. */
  lemma ChannelCounts(s: System, x: nat, v: nat, p: Packet, q: Packet, w: nat, o: nat, i: Id)
    requires (w, o) in s.chans && (x, v) in s.chans && |s.chans[(x, v)]| > 0 && p == s.chans[(x, v)][0]
    requires !q.Propose?
    ensures Proposing(Pop(s.chans, (x, v))[(w, o)], i)
         == Proposing(s.chans[(w, o)], i) - (if (w, o) == (x, v) && p.Propose? && p.id == i then 1 else 0)
    ensures Proposing(Broadcast(Pop(s.chans, (x, v)), v, q)[(w, o)], i) == Proposing(Pop(s.chans, (x, v))[(w, o)], i)
  {
    var c1 := Pop(s.chans, (x, v))[(w, o)];
    ProposingAppend(c1, q, i);
  }

  lemma ReceiptBalance(s: System, h: History, n: nat, x: nat, v: nat, p: Packet, w: nat, i: Id)
    requires Inv(s, h, n) && x < n && v < n && |s.chans[(x, v)]| > 0 && p == s.chans[(x, v)][0]
    requires p.Message? && p.id !in s.nodes[v].received && w < n && i in h.sent
    requires p.id in h.sent && h.sent[p.id] == Origin(p.origin, p.tx)
    ensures Balanced(Handle(s, Pop(s.chans, (x, v)), v, p), Ordered(h, v, p.id), w, i)
  {
    assert Balanced(s, h, w, i);
    var o := h.sent[i].node;
    var q := Propose(p.id, p.origin, p.tx, Receipt(s.nodes[v], p.id, p.tx).1);
    ChannelCounts(s, x, v, p, p, w, o, i);
    var ch2 := Broadcast(Pop(s.chans, (x, v)), v, p);
    ProposingAppend(ch2[(w, o)], q, i);
    UnicastCounts(ch2, v, p.origin, q, w, o, i);
  }

  lemma UnicastCounts(ch: Chans, v: nat, r: nat, q: Packet, w: nat, o: nat, i: Id)
    requires (v, r) in ch && (w, o) in ch && q.Propose?
    ensures Proposing(Unicast(ch, v, r, q)[(w, o)], i)
         == Proposing(ch[(w, o)], i) + (if (w, o) == (v, r) && q.id == i then 1 else 0)
  {
    ProposingAppend(ch[(w, o)], q, i);
  }

  lemma ReceiptKeeps(s: System, h: History, n: nat, x: nat, v: nat, p: Packet)
    requires Inv(s, h, n) && x < n && v < n && |s.chans[(x, v)]| > 0 && p == s.chans[(x, v)][0]
    requires p.Message? && p.id !in s.nodes[v].received
    ensures Inv(Handle(s, Pop(s.chans, (x, v)), v, p), Ordered(h, v, p.id), n)
  {
    var s' := Handle(s, Pop(s.chans, (x, v)), v, p);
    var h' := Ordered(h, v, p.id);
    HeadOk(s, h, n, x, v);
    ReceiptChannels(s, h, n, x, v, p);
    ReceiptNodes(s, h, n, v, p, s'.chans);
    assert NodeOk(v, s.nodes[v], h);
    DecisionsOrdered(h, v, p.id);
    forall w, i | 0 <= w < n && i in h'.sent ensures Balanced(s', h', w, i) {
      ReceiptBalance(s, h, n, x, v, p, w, i);
    }
  }

  // ----------------------------------- packets that only leave their channel

  lemma DropKeeps(s: System, h: History, n: nat, x: nat, v: nat, p: Packet)
    requires Inv(s, h, n) && x < n && v < n && |s.chans[(x, v)]| > 0 && p == s.chans[(x, v)][0]
    requires !p.Propose? && (p.Message? ==> p.id in s.nodes[v].received)
    ensures Inv(System(s.nodes, Pop(s.chans, (x, v))), h, n)
  {
    var s' := System(s.nodes, Pop(s.chans, (x, v)));
    PopChannels(s, h, n, x, v, s.nodes);
    NoNodeChanges(s, h, n, s'.chans, h);
    forall w, i | 0 <= w < n && i in h.sent ensures Balanced(s', h, w, i) {
      assert Balanced(s, h, w, i);
    }
  }

  // ------------------------------------------------------------- proposals

  lemma CollectStored(nd: Node, v: nat, h: History, p: Packet, x: nat)
    requires StoredOk(nd, v, h) && p.Propose? && PacketOk(p, nd.received, x, v, h)
    ensures StoredOk(Collect(nd, p.id, p.prio), v, h)
  {
    var nd' := Collect(nd, p.id, p.prio);
    forall id, q ensures EntryOk(nd', v, h, id, q) {
      assert EntryOk(nd, v, h, id, q);
    }
  }

  lemma CollectBalance(s: System, h: History, n: nat, x: nat, v: nat, p: Packet, w: nat, i: Id)
    requires Inv(s, h, n) && x < n && v < n && |s.chans[(x, v)]| > 0 && p == s.chans[(x, v)][0]
    requires p.Propose? && w < n && i in h.sent
    ensures Balanced(System(s.nodes[v := Collect(s.nodes[v], p.id, p.prio)], Pop(s.chans, (x, v))), h, w, i)
  {
    assert Balanced(s, h, w, i);
    HeadOk(s, h, n, x, v);
    var o := h.sent[i].node;
    ListedFromAppend(Listed(s.nodes[o], p.id), p.prio, w);
  }

  lemma CollectKeepsInv(s: System, h: History, n: nat, x: nat, v: nat, p: Packet)
    requires Inv(s, h, n) && x < n && v < n && |s.chans[(x, v)]| > 0 && p == s.chans[(x, v)][0] && p.Propose?
    ensures Inv(System(s.nodes[v := Collect(s.nodes[v], p.id, p.prio)], Pop(s.chans, (x, v))), h, n)
  {
    var nd := s.nodes[v];
    var nd' := Collect(nd, p.id, p.prio);
    var s' := System(s.nodes[v := nd'], Pop(s.chans, (x, v)));
    HeadOk(s, h, n, x, v);
    PopChannels(s, h, n, x, v, s'.nodes);
    assert NodeOk(v, nd, h) && StoredOk(nd, v, h);
    CollectKeeps(v, nd, h, p.id, p.prio);
    CollectStored(nd, v, h, p, x);
    OneNodeChanges(s, h, n, v, nd', s'.chans, h);
    forall w, i | 0 <= w < n && i in h.sent ensures Balanced(s', h, w, i) {
      CollectBalance(s, h, n, x, v, p, w, i);
    }
  }

  // -------------------------------------------------------------- decisions

  /** A full list has one proposal from every node, and every node received the message. */
  lemma FullListFacts(s: System, h: History, n: nat, v: nat, id: Id, w: nat)
    requires Inv(s, h, n) && v < n && w < n && |Listed(s.nodes[v], id)| == n
    ensures id in h.sent && h.sent[id].node == v && id !in h.decided
    ensures id in s.nodes[w].received && Proposing(s.chans[(w, v)], id) == 0
    ensures exists p :: p in Listed(s.nodes[v], id) && p % 10 == w
    ensures forall p :: p in Listed(s.nodes[v], id) ==> Owner(h, p, id) && Knows(h, p, s.nodes[v].received)
  {
    var ps := Listed(s.nodes[v], id);
    assert NodeOk(v, s.nodes[v], h) && StoredOk(s.nodes[v], v, h);
    assert ps[0] in ps && EntryOk(s.nodes[v], v, h, id, ps[0]);
    forall p | p in ps ensures Owner(h, p, id) && Knows(h, p, s.nodes[v].received) {
      assert EntryOk(s.nodes[v], v, h, id, p);
    }
    forall u: nat ensures ListedFrom(ps, u) <= 1 {
      if u < n {
        assert Balanced(s, h, u, id);
      } else {
        ListedPositive(ps, u);
      }
    }
    FullList(ps, n, w);
    assert Balanced(s, h, w, id);
  }

  /** No node proposed more than the maximum of a full list. */
  lemma DecidedAtMost(h: History, w: nat, id: Id, ps: seq<int>)
    requires w < |h.order| && Distinct(h.order[w]) && |ps| > 0
    requires exists p :: p in ps && p % 10 == w
    requires forall p :: p in ps ==> Owner(h, p, id)
    ensures ProposedAtMost(h, w, id, MaxOf(ps))
  {
    var p :| p in ps && p % 10 == w;
    assert h.order[w][p / 10 - 1] == id;
    forall k | 0 <= k < |h.order[w]| && h.order[w][k] == id ensures 10 * (k + 1) + w <= MaxOf(ps) {
      assert k == p / 10 - 1;
    }
  }

  lemma DecidingDecisions(s: System, h: History, n: nat, v: nat, id: Id)
    requires Inv(s, h, n) && v < n && |Listed(s.nodes[v], id)| == n
    ensures var h' := h.(decided := h.decided[id := MaxOf(Listed(s.nodes[v], id))]);
            Grows(h, h') && DecisionsOk(h')
  {
    var ps := Listed(s.nodes[v], id);
    var h' := h.(decided := h.decided[id := MaxOf(ps)]);
    FullListFacts(s, h, n, v, id, v);
    forall i | i in h'.decided ensures DecisionOk(h', i) {
      if i == id {
        forall w | 0 <= w < n ensures ProposedAtMost(h', w, id, MaxOf(ps)) {
          FullListFacts(s, h, n, v, id, w);
          assert NodeOk(w, s.nodes[w], h);
          DecidedAtMost(h, w, id, ps);
          assert ProposedAtMost(h, w, id, MaxOf(ps));
        }
      } else {
        assert DecisionOk(h, i);
        forall w | 0 <= w < n ensures ProposedAtMost(h', w, i, h'.decided[i]) {
          assert ProposedAtMost(h, w, i, h.decided[i]);
        }
      }
    }
  }

  lemma DecidingNodes(s: System, h: History, n: nat, v: nat, id: Id, ch': Chans, h': History)
    requires Inv(s, h, n) && v < n && |Listed(s.nodes[v], id)| == n
    requires Grows(h, h') && h'.order == h.order
    requires Sized(System(s.nodes[v := Decide(s.nodes[v], id).0], ch'), h', n)
    ensures NodesOk(System(s.nodes[v := Decide(s.nodes[v], id).0], ch'), h', n)
  {
    var nd := s.nodes[v];
    var nd' := Decide(nd, id).0;
    assert NodeOk(v, nd, h) && StoredOk(nd, v, h);
    FullListFacts(s, h, n, v, id, v);
    forall p | p in Listed(nd, id) ensures p >= 0 && p / 10 <= |h.order[v]| {
      assert NodeOk(p % 10, s.nodes[p % 10], h);
      KnowsCount(h, p, v);
    }
    DecideKeeps(v, nd, h, id);
    NodeOkGrows(v, nd', h, h');
    forall i, q ensures EntryOk(nd', v, h', i, q) {
      assert EntryOk(nd, v, h, i, q);
      if q in Listed(nd', i) {
        OwnerGrows(h, h', q, i);
        KnowsGrows(h, h', q, nd.received, nd'.received);
      }
    }
    OneNodeChanges(s, h, n, v, nd', ch', h');
  }

  /** Channels depend on the nodes only through what they received. */
  lemma SwapNodes(s: System, h: History, n: nat, nodes: seq<Node>)
    requires Sized(s, h, n) && ChannelsOk(s, h, n) && |nodes| == n
    requires forall v :: 0 <= v < n ==> nodes[v].received == s.nodes[v].received
    ensures Sized(System(nodes, s.chans), h, n) && ChannelsOk(System(nodes, s.chans), h, n)
  {
    var s' := System(nodes, s.chans);
    forall a, b | 0 <= a < n && 0 <= b < n ensures ChannelOk(s', a, b, h) && Flooded(s', a, b, h) {
      assert ChannelOk(s, a, b, h) && Flooded(s, a, b, h);
    }
  }

  lemma DecidingChannels(s: System, h: History, n: nat, v: nat, p: Packet, nodes: seq<Node>, h': History)
    requires Inv(s, h, n) && v < n && |Listed(s.nodes[v], p.id)| == n && |nodes| == n
    requires forall w :: 0 <= w < n ==> nodes[w].received == s.nodes[w].received
    requires p.Agree? && p.prio == MaxOf(Listed(s.nodes[v], p.id))
    requires p.id in h.sent && h.sent[p.id] == Origin(p.origin, p.tx)
    requires h' == h.(decided := h.decided[p.id := p.prio]) && Grows(h, h')
    ensures var s' := System(nodes, Broadcast(s.chans, v, p));
            Sized(s', h', n) && ChannelsOk(s', h', n)
  {
    SwapNodes(s, h, n, nodes);
    FullListFacts(s, h, n, v, p.id, v);
    assert NodeOk(v, s.nodes[v], h);
    var s1 := System(nodes, s.chans);
    forall b | 0 <= b < n ensures PacketOk(p, Ahead(s1, v, b), v, b, h') {
      FloodKnows(s1, h, n, v, b, p.prio);
      KnowsGrows(h, h', p.prio, Ahead(s1, v, b), Ahead(s1, v, b));
    }
    RelayChannels(s1, h, n, v, p, h');
  }

  lemma DecidingBalance(s: System, h: History, n: nat, v: nat, p: Packet, w: nat, i: Id)
    requires Inv(s, h, n) && v < n && w < n && |Listed(s.nodes[v], p.id)| == n && i in h.sent && p.Agree?
    ensures Balanced(System(s.nodes[v := Decide(s.nodes[v], p.id).0], Broadcast(s.chans, v, p)),
                     h.(decided := h.decided[p.id := p.prio]), w, i)
  {
    assert Balanced(s, h, w, i);
    ProposingAppend(s.chans[(w, h.sent[i].node)], p, i);
    FullListFacts(s, h, n, v, p.id, w);
  }

  lemma DecideKeepsInv(s: System, h: History, n: nat, v: nat, p: Packet)
    requires Inv(s, h, n) && v < n && |Listed(s.nodes[v], p.id)| == n
    requires p.Agree? && p.prio == MaxOf(Listed(s.nodes[v], p.id))
    requires p.id in h.sent && h.sent[p.id] == Origin(p.origin, p.tx)
    ensures Inv(System(s.nodes[v := Decide(s.nodes[v], p.id).0], Broadcast(s.chans, v, p)),
                h.(decided := h.decided[p.id := p.prio]), n)
  {
    var h' := h.(decided := h.decided[p.id := p.prio]);
    var nodes := s.nodes[v := Decide(s.nodes[v], p.id).0];
    var s' := System(nodes, Broadcast(s.chans, v, p));
    DecidingDecisions(s, h, n, v, p.id);
    DecidingChannels(s, h, n, v, p, nodes, h');
    DecidingNodes(s, h, n, v, p.id, s'.chans, h');
    forall w, i | 0 <= w < n && i in h'.sent ensures Balanced(s', h', w, i) {
      DecidingBalance(s, h, n, v, p, w, i);
    }
  }

  // ------------------------------------------------------------- agreements

  /** The receiver of an agreement already holds the message, and everything its
      winning proposer had received: all its later proposals are larger. */
  lemma AgreementKnown(s: System, h: History, n: nat, x: nat, v: nat)
    requires Inv(s, h, n) && x < n && v < n && |s.chans[(x, v)]| > 0 && s.chans[(x, v)][0].Agree?
    ensures var p := s.chans[(x, v)][0];
            && p.id in h.decided && h.decided[p.id] == p.prio
            && p.id in h.sent && h.sent[p.id] == Origin(p.origin, p.tx)
            && p.id in s.nodes[v].received
            && Knows(h, p.prio, s.nodes[v].received)
            && p.prio / 10 <= |h.order[v]|
  {
    var p := s.chans[(x, v)][0];
    HeadOk(s, h, n, x, v);
    assert DecisionOk(h, p.id);
    assert NodeOk(v, s.nodes[v], h) && NodeOk(p.prio % 10, s.nodes[p.prio % 10], h);
    assert h.order[p.prio % 10][p.prio / 10 - 1] == p.id;
    KnowsCount(h, p.prio, v);
  }

  lemma AgreeChannels(s: System, h: History, n: nat, x: nat, v: nat, p: Packet, nodes: seq<Node>)
    requires Inv(s, h, n) && x < n && v < n && |s.chans[(x, v)]| > 0 && p == s.chans[(x, v)][0] && p.Agree?
    requires |nodes| == n && forall w :: 0 <= w < n ==> nodes[w].received == s.nodes[w].received
    ensures var s' := System(nodes, Broadcast(Pop(s.chans, (x, v)), v, p));
            Sized(s', h, n) && ChannelsOk(s', h, n)
  {
    PopChannels(s, h, n, x, v, nodes);
    AgreementKnown(s, h, n, x, v);
    assert NodeOk(v, s.nodes[v], h);
    var s1 := System(nodes, Pop(s.chans, (x, v)));
    forall b | 0 <= b < n ensures PacketOk(p, Ahead(s1, v, b), v, b, h) {
      FloodKnows(s1, h, n, v, b, p.prio);
    }
    RelayChannels(s1, h, n, v, p, h);
  }

  lemma AgreeBalance(s: System, h: History, n: nat, x: nat, v: nat, p: Packet, w: nat, i: Id)
    requires Inv(s, h, n) && x < n && v < n && |s.chans[(x, v)]| > 0 && p == s.chans[(x, v)][0]
    requires p.Agree? && p.id !in s.nodes[v].agreed && w < n && i in h.sent
    ensures Balanced(Handle(s, Pop(s.chans, (x, v)), v, p), h, w, i)
  {
    assert Balanced(s, h, w, i);
    ChannelCounts(s, x, v, p, p, w, h.sent[i].node, i);
  }

  lemma AgreeKeeps(s: System, h: History, n: nat, x: nat, v: nat, p: Packet)
    requires Inv(s, h, n) && x < n && v < n && |s.chans[(x, v)]| > 0 && p == s.chans[(x, v)][0]
    requires p.Agree? && p.id !in s.nodes[v].agreed
    ensures Inv(Handle(s, Pop(s.chans, (x, v)), v, p), h, n)
  {
    var nd := s.nodes[v];
    var nd' := Settled(nd, p.id, p.prio, p.tx);
    var s' := Handle(s, Pop(s.chans, (x, v)), v, p);
    AgreementKnown(s, h, n, x, v);
    AgreeChannels(s, h, n, x, v, p, s'.nodes);
    assert NodeOk(v, nd, h) && StoredOk(nd, v, h) && DecisionOk(h, p.id);
    SettledKeeps(v, nd, h, p.id, p.prio, p.tx);
    StoredOkGrows(nd, nd', v, h, h);
    OneNodeChanges(s, h, n, v, nd', s'.chans, h);
    forall w, i | 0 <= w < n && i in h.sent ensures Balanced(s', h, w, i) {
      AgreeBalance(s, h, n, x, v, p, w, i);
    }
  }

  // -------------------------------------------------------------- every step

  lemma ProposeKeeps(s: System, h: History, n: nat, x: nat, v: nat, p: Packet)
    requires Inv(s, h, n) && x < n && v < n && |s.chans[(x, v)]| > 0 && p == s.chans[(x, v)][0] && p.Propose?
    ensures Inv(Handle(s, Pop(s.chans, (x, v)), v, p), Handled(h, s, v, p), n)
  {
    var nd1 := Collect(s.nodes[v], p.id, p.prio);
    var s1 := System(s.nodes[v := nd1], Pop(s.chans, (x, v)));
    HeadOk(s, h, n, x, v);
    CollectKeepsInv(s, h, n, x, v, p);
    if |Listed(nd1, p.id)| == n {
      var (nd', m) := Decide(nd1, p.id);
      DecideKeepsInv(s1, h, n, v, Agree(p.id, p.origin, p.tx, m));
      assert s1.nodes[v := nd'] == s.nodes[v := nd'];
    }
  }

  lemma StepKeeps(s: System, h: History, n: nat, a: Action, s': System)
    requires Inv(s, h, n) && Step(s, a, s') && (a.Send? ==> a.id !in h.sent)
    ensures Inv(s', Record(h, s, a), n)
  {
    match a
    case Send(v, id, tx) => SendKeeps(s, h, n, v, id, tx);
    case Receive(x, v) =>
      var p := s.chans[(x, v)][0];
      match p
      case Message(id, _, _) =>
        if id in s.nodes[v].received {
          DropKeeps(s, h, n, x, v, p);
        } else {
          ReceiptKeeps(s, h, n, x, v, p);
        }
      case Propose(_, _, _, _) => ProposeKeeps(s, h, n, x, v, p);
      case Agree(id, _, _, _) =>
        if id in s.nodes[v].agreed {
          DropKeeps(s, h, n, x, v, p);
        } else {
          AgreeKeeps(s, h, n, x, v, p);
        }
  }

  // --------------------------------------------------------------- whole runs

  /** What had happened before step k. */
  ghost function HistoryAt(r: Run, n: nat, k: nat): History
    requires k <= |r.actions| < |r.states|
  {
    if k == 0 then History(seq(n, _ => []), map[], map[])
    else Record(HistoryAt(r, n, k - 1), r.states[k - 1], r.actions[k - 1])
  }

  lemma InitKeeps(s: System, n: nat)
    requires Init(s, n) && n <= 10
    ensures Inv(s, History(seq(n, _ => []), map[], map[]), n)
  {
    var h := History(seq(n, _ => []), map[], map[]);
    forall v | 0 <= v < n ensures NodeOk(v, s.nodes[v], h) && StoredOk(s.nodes[v], v, h) {
      assert s.nodes[v] == InitNode(v);
    }
    forall a, b | 0 <= a < n && 0 <= b < n ensures ChannelOk(s, a, b, h) && Flooded(s, a, b, h) {
      assert s.chans[(a, b)] == [];
    }
  }

  /** The recorded messages are those sent by earlier steps. */
  lemma {:induction false} SentByAction(r: Run, n: nat, k: nat, id: Id)
    requires k <= |r.actions| < |r.states|
    ensures id in HistoryAt(r, n, k).sent <==> exists j :: 0 <= j < k && r.actions[j].Send? && r.actions[j].id == id
  {
    if k > 0 {
      SentByAction(r, n, k - 1, id);
      var a := r.actions[k - 1];
      if a.Send? && a.id == id {
        assert id in HistoryAt(r, n, k).sent;
      }
    }
  }

  lemma StepAt(r: Run, n: nat, k: nat)
    requires IsRun(r, n) && FreshIds(r) && k < |r.actions|
    ensures Step(r.states[k], r.actions[k], r.states[k + 1])
    ensures r.actions[k].Send? ==> r.actions[k].id !in HistoryAt(r, n, k).sent
  {
    assert StepOf(r, k);
    if r.actions[k].Send? {
      SentByAction(r, n, k, r.actions[k].id);
    }
  }

  /** Every state of every run with at most ten nodes and fresh ids is in order. */
  lemma {:induction false} RunKeeps(r: Run, n: nat, k: nat)
    requires IsRun(r, n) && n <= 10 && FreshIds(r) && k <= |r.actions|
    ensures Inv(r.states[k], HistoryAt(r, n, k), n)
  {
    if k == 0 {
      InitKeeps(r.states[0], n);
    } else {
      RunKeeps(r, n, k - 1);
      StepAt(r, n, k - 1);
      StepKeeps(r.states[k - 1], HistoryAt(r, n, k - 1), n, r.actions[k - 1], r.states[k]);
    }
  }
}
