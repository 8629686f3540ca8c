/** What the ISIS handlers keep of a node's own state, whatever the channels do.  A first
    receipt appends an entry that is larger than everything queued.  An agreement finds
    the message queued exactly once, under the node's own proposal; the agreed priority
    is not smaller than that, so the entry moves back in the queue and stays above
    everything delivered.  Draining the front keeps the order, loses nothing, and leaves
    an entry at the head that is not deliverable.  Collecting and deciding touch only the
    originator's list and its counter, which stays below the number of receipts. */
module IsisNodes {
  import opened IsisQueue
  import opened IsisSystem
  import opened IsisInvariant
  import opened IsisSteps

  lemma NodeOkGrows(v: nat, nd: Node, h: History, h': History)
    requires v < |h.order| && NodeOk(v, nd, h) && Grows(h, h') && h'.order[v] == h.order[v]
    ensures NodeOk(v, nd, h')
  {
    forall x | ItemOk(x, v, nd, h) ensures ItemOk(x, v, nd, h') {
      OwnerGrows(h, h', x.prio, x.id);
    }
  }

  // ----------------------------------------------------------- first receipt

  /** The next proposal's integer part is one more than the number of receipts. */
  lemma NextCounts(pro: int, agr: int, v: nat, k: nat)
    requires pro >= 0 && agr >= 0 && pro / 10 == k && agr / 10 <= k && v < 10
    ensures NextPriority(Floored, v, Max(pro, agr)) == 10 * (k + 1) + v
  {
  }

  lemma OrderedGrows(h: History, v: nat, id: Id)
    requires v < |h.order|
    ensures Grows(h, Ordered(h, v, id))
  {
  }

  /** Everything queued has a smaller priority than any later proposal. */
  lemma QueuedBelow(v: nat, nd: Node, h: History, x: Item)
    requires v < |h.order| && CountsOk(v, nd, h) && ItemOk(x, v, nd, h)
    ensures x.prio < 10 * (|h.order[v]| + 1)
  {
  }

  lemma InsertLast(q: seq<Item>, x: Item)
    requires forall y :: y in q ==> y.prio < x.prio
    ensures Insert(q, x) == q + [x]
  {
    PlaceIs(q, x, |q|);
  }

  lemma ReceiptCounts(v: nat, nd: Node, h: History, id: Id, tx: Tx)
    requires v < |h.order| && v < 10 && CountsOk(v, nd, h) && id !in nd.received
    ensures var (nd', prio) := Receipt(nd, id, tx);
            var h' := Ordered(h, v, id);
            && CountsOk(v, nd', h') && prio == 10 * (|h.order[v]| + 1) + v && Owner(h', prio, id)
  {
    NextCounts(nd.hold.proSeq, nd.hold.agrSeq, v, |h.order[v]|);
    var o := h.order[v];
    assert Ids(o + [id]) == Ids(o) + {id};
    assert id !in o;
  }

  lemma ReceiptQueue(v: nat, nd: Node, h: History, id: Id, tx: Tx)
    requires v < |h.order| && v < 10 && NodeOk(v, nd, h) && id !in nd.received
    requires id in h.sent && h.sent[id].tx == tx
    ensures var (nd', prio) := Receipt(nd, id, tx);
            var h' := Ordered(h, v, id);
            && nd'.hold.queue == nd.hold.queue + [Item(prio, id, false, tx)]
            && QueueOk(v, nd', h') && DeliveredOk(v, nd', h') && NothingLost(nd')
  {
    var (nd', prio) := Receipt(nd, id, tx);
    var h' := Ordered(h, v, id);
    ReceiptCounts(v, nd, h, id, tx);
    OrderedGrows(h, v, id);
    forall x | ItemOk(x, v, nd, h) ensures ItemOk(x, v, nd', h') && x.prio < prio {
      OwnerGrows(h, h', x.prio, x.id);
      QueuedBelow(v, nd, h, x);
    }
    var x := Item(prio, id, false, tx);
    InsertLast(nd.hold.queue, x);
    assert ItemOk(x, v, nd', h');
    forall i | i in nd'.received ensures HasItem(nd'.hold.queue, i) || HasItem(nd'.delivered, i) {
      if i == id {
        assert x in nd'.hold.queue;
      } else if HasItem(nd.hold.queue, i) {
        var y :| y in nd.hold.queue && y.id == i;
        assert y in nd'.hold.queue;
      }
    }
  }

  // -------------------------------------------------------------- delivery

  /** Two priorities of one node for one message are the same. */
  lemma OneOwnPriority(h: History, p: int, p': int, id: Id)
    requires Owner(h, p, id) && Owner(h, p', id) && p % 10 == p' % 10 && Distinct(h.order[p % 10])
    ensures p == p'
  {
  }

  /** A priority belongs to one message only. */
  lemma OneMessage(h: History, p: int, id: Id, id': Id)
    requires Owner(h, p, id) && Owner(h, p, id')
    ensures id == id'
  {
  }

  /** A received message without agreement is queued, once, as not deliverable. */
  lemma QueuedOnce(v: nat, nd: Node, h: History, id: Id)
    requires v < |h.order| && v < 10 && NodeOk(v, nd, h) && id in nd.received && id !in nd.agreed
    ensures var q := nd.hold.queue;
            var k := Find(q, id);
            && k < |q| && q[k].id == id && !q[k].deliverable
            && forall j :: 0 <= j < |q| && j != k ==> q[j].id != id
  {
    var q := nd.hold.queue;
    var k := Find(q, id);
    assert HasItem(q, id);
    assert q[k] in q && ItemOk(q[k], v, nd, h);
    forall j | 0 <= j < |q| && j != k ensures q[j].id != id {
      assert q[j] in q && ItemOk(q[j], v, nd, h);
      if q[j].id == id {
        OneOwnPriority(h, q[j].prio, q[k].prio, id);
      }
    }
  }

  /** The agreed priority is at least the node's own proposal. */
  lemma OwnAtMost(v: nat, h: History, p: int, id: Id)
    requires v < |h.order| && Owner(h, p, id) && p % 10 == v && id in h.decided && DecisionOk(h, id)
    ensures p <= h.decided[id]
  {
    assert ProposedAtMost(h, v, id, h.decided[id]);
    assert h.order[v][p / 10 - 1] == id;
  }

  /** What is left of the queue when the message's entry is taken out. */
  lemma RestWithout(v: nat, nd: Node, h: History, id: Id, prio: int)
    requires v < |h.order| && v < 10 && NodeOk(v, nd, h) && id in nd.received && id !in nd.agreed
    requires Owner(h, prio, id)
    ensures var q := nd.hold.queue;
            var k := Find(q, id);
            && k < |q| && q[k].id == id && q[k] in q && Sorted(RemoveAt(q, k))
            && forall x :: x in RemoveAt(q, k) ==> x in q && x.id != id && x.prio != prio && ItemOk(x, v, nd, h)
  {
    var q := nd.hold.queue;
    var k := Find(q, id);
    QueuedOnce(v, nd, h, id);
    RemoveKeepsSorted(q, k);
    forall x | x in RemoveAt(q, k) ensures x in q && x.id != id && x.prio != prio && ItemOk(x, v, nd, h) {
      RestOfQueue(q, k, x, id);
      assert ItemOk(x, v, nd, h);
      if x.prio == prio {
        OneMessage(h, prio, x.id, id);
      }
    }
  }

  lemma AgreedItem(v: nat, nd: Node, h: History, id: Id, x: Item)
    requires ItemOk(x, v, nd, h) && x.id != id
    ensures ItemOk(x, v, nd.(agreed := nd.agreed + {id}), h)
  {
  }

  /** The queue after settling. */
  lemma SettleQueue(v: nat, nd: Node, h: History, id: Id, prio: int, tx: Tx)
    requires v < |h.order| && v < 10 && NodeOk(v, nd, h) && id in nd.received && id !in nd.agreed
    requires id in h.decided && h.decided[id] == prio && DecisionOk(h, id) && h.sent[id].tx == tx
    ensures var q := Settle(nd.hold.queue, id, prio, tx);
            && Sorted(q)
            && (forall x :: x in q ==> ItemOk(x, v, nd.(agreed := nd.agreed + {id}), h))
            && (forall i :: HasItem(nd.hold.queue, i) ==> HasItem(q, i))
  {
    var q0 := nd.hold.queue;
    var k := Find(q0, id);
    RestWithout(v, nd, h, id, prio);
    var r, item := RemoveAt(q0, k), Item(prio, id, true, tx);
    InsertItems(r, item);
    InsertKeepsSorted(r, item);
    forall x | x in r ensures ItemOk(x, v, nd.(agreed := nd.agreed + {id}), h) {
      AgreedItem(v, nd, h, id, x);
    }
    assert ItemOk(item, v, nd.(agreed := nd.agreed + {id}), h);
    forall i | HasItem(q0, i) ensures HasItem(Insert(r, item), i) {
      KeepsItems(q0, k, item, i);
    }
  }

  /** What is delivered stays below what is queued. */
  lemma SettleAboveDelivered(v: nat, nd: Node, h: History, id: Id, prio: int, tx: Tx)
    requires v < |h.order| && v < 10 && NodeOk(v, nd, h) && id in nd.received && id !in nd.agreed
    requires id in h.decided && h.decided[id] == prio && DecisionOk(h, id)
    ensures var q := Settle(nd.hold.queue, id, prio, tx);
            forall x, y :: x in nd.delivered && y in q ==> x.prio < y.prio
  {
    var q0 := nd.hold.queue;
    var k := Find(q0, id);
    RestWithout(v, nd, h, id, prio);
    QueuedOnce(v, nd, h, id);
    InsertItems(RemoveAt(q0, k), Item(prio, id, true, tx));
    assert ItemOk(q0[k], v, nd, h);
    OwnAtMost(v, h, q0[k].prio, id);
  }

  lemma RestOfQueue(q: seq<Item>, k: nat, x: Item, id: Id)
    requires k < |q| && x in RemoveAt(q, k)
    requires forall j :: 0 <= j < |q| && j != k ==> q[j].id != id
    ensures x in q && x.id != id
  {
    var r := RemoveAt(q, k);
    var i :| 0 <= i < |r| && r[i] == x;
    assert x == q[if i < k then i else i + 1];
  }

  lemma KeepsItems(q: seq<Item>, k: nat, item: Item, i: Id)
    requires Sorted(q) && k < |q| && q[k].id == item.id && HasItem(q, i)
    ensures HasItem(Insert(RemoveAt(q, k), item), i)
  {
    InsertItems(RemoveAt(q, k), item);
    RemoveKeepsSorted(q, k);
    var x :| x in q && x.id == i;
    if x == q[k] {
      assert item in Insert(RemoveAt(q, k), item);
    } else {
      assert x in Insert(RemoveAt(q, k), item);
    }
  }

  lemma FrontAndRest(q: seq<Item>, r: nat)
    requires r <= Ready(q)
    ensures forall x :: x in q[..r] ==> x in q && x.deliverable
    ensures forall x :: x in q[r..] ==> x in q
  {
    forall x | x in q[..r] ensures x in q && x.deliverable {
      var i :| 0 <= i < r && q[i] == x;
    }
  }

  function Drained(nd: Node): Node {
    var q := nd.hold.queue;
    nd.(hold := nd.hold.(queue := q[Ready(q)..]), delivered := nd.delivered + q[..Ready(q)])
  }

  /** Handing out the deliverable front keeps the node in order. */
  lemma DrainKeeps(v: nat, nd: Node, h: History)
    requires v < |h.order| && CountsOk(v, nd, h) && Sorted(nd.hold.queue) && NothingLost(nd) && DeliveredOk(v, nd, h)
    requires forall x :: x in nd.hold.queue ==> ItemOk(x, v, nd, h)
    ensures NodeOk(v, Drained(nd), h)
  {
    var q := nd.hold.queue;
    var r := Ready(q);
    FrontAndRest(q, r);
    DrainSorted(nd.delivered, q, r);
    DrainAbove(nd.delivered, q, r);
    DrainLosesNothing(nd, r);
    DrainItems(v, nd, h);
  }

  lemma DrainItems(v: nat, nd: Node, h: History)
    requires forall x :: x in nd.hold.queue || x in nd.delivered ==> ItemOk(x, v, nd, h)
    requires forall x :: x in nd.delivered ==> x.deliverable
    ensures forall x :: x in Drained(nd).hold.queue || x in Drained(nd).delivered ==> ItemOk(x, v, Drained(nd), h)
    ensures forall x :: x in Drained(nd).delivered ==> x.deliverable
  {
    FrontAndRest(nd.hold.queue, Ready(nd.hold.queue));
  }

  lemma DrainAbove(d: seq<Item>, q: seq<Item>, r: nat)
    requires Sorted(q) && r <= |q| && forall x, y :: x in d && y in q ==> x.prio < y.prio
    ensures forall x, y :: x in d + q[..r] && y in q[r..] ==> x.prio < y.prio
  {
    forall x, y | x in d + q[..r] && y in q[r..] ensures x.prio < y.prio {
      var j :| 0 <= j < |q[r..]| && q[r..][j] == y;
      assert y == q[r + j];
      if x !in d {
        var i :| 0 <= i < r && q[i] == x;
      }
    }
  }

  lemma DrainLosesNothing(nd: Node, r: nat)
    requires NothingLost(nd) && r <= |nd.hold.queue|
    ensures var q := nd.hold.queue;
            NothingLost(nd.(hold := nd.hold.(queue := q[r..]), delivered := nd.delivered + q[..r]))
  {
    var q := nd.hold.queue;
    assert q == q[..r] + q[r..];
    forall i | i in nd.received ensures HasItem(q[r..], i) || HasItem(nd.delivered + q[..r], i) {
      if HasItem(q, i) {
        var x :| x in q && x.id == i;
        assert x in q[r..] || x in nd.delivered + q[..r];
      } else {
        var x :| x in nd.delivered && x.id == i;
        assert x in nd.delivered + q[..r];
      }
    }
  }

  lemma DrainSorted(d: seq<Item>, q: seq<Item>, r: nat)
    requires Sorted(d) && Sorted(q) && r <= |q| && forall x, y :: x in d && y in q ==> x.prio < y.prio
    ensures Sorted(d + q[..r]) && Sorted(q[r..])
  {
    var e := d + q[..r];
    forall i, j | 0 <= i < j < |e| ensures e[i].prio < e[j].prio {
      if i < |d| <= j {
        assert e[i] in d && e[j] == q[j - |d|] && e[j] in q;
      } else if |d| <= i {
        assert e[i] == q[i - |d|] && e[j] == q[j - |d|];
      }
    }
  }

  lemma SettledKeeps(v: nat, nd: Node, h: History, id: Id, prio: int, tx: Tx)
    requires v < |h.order| && v < 10 && NodeOk(v, nd, h) && id in nd.received && id !in nd.agreed
    requires id in h.decided && h.decided[id] == prio && DecisionOk(h, id) && h.sent[id].tx == tx
    requires prio / 10 <= |h.order[v]|
    ensures NodeOk(v, Settled(nd, id, prio, tx), h)
  {
    SettleQueue(v, nd, h, id, prio, tx);
    SettleAboveDelivered(v, nd, h, id, prio, tx);
    var q := Settle(nd.hold.queue, id, prio, tx);
    var nd1 := nd.(agreed := nd.agreed + {id}, hold := nd.hold.(queue := q));
    AgreedMore(v, nd, h, id);
    forall i | i in nd1.received ensures HasItem(q, i) || HasItem(nd1.delivered, i) {
      assert HasItem(nd.hold.queue, i) || HasItem(nd.delivered, i);
    }
    DrainKeeps(v, nd1, h);
  }

  lemma AgreedMore(v: nat, nd: Node, h: History, id: Id)
    requires v < |h.order| && NodeOk(v, nd, h) && id in nd.received && id in h.decided
             && h.decided[id] / 10 <= |h.order[v]|
    ensures CountsOk(v, nd.(agreed := nd.agreed + {id}), h)
    ensures forall x :: x in nd.delivered ==> x.deliverable && ItemOk(x, v, nd.(agreed := nd.agreed + {id}), h)
  {
  }

  // -------------------------------------------------------------- deciding

  lemma CollectKeeps(v: nat, nd: Node, h: History, id: Id, prio: int)
    requires v < |h.order| && NodeOk(v, nd, h)
    ensures NodeOk(v, Collect(nd, id, prio), h)
  {
    var nd' := Collect(nd, id, prio);
    assert forall x :: ItemOk(x, v, nd, h) ==> ItemOk(x, v, nd', h);
  }

  lemma DecideKeeps(v: nat, nd: Node, h: History, id: Id)
    requires v < |h.order| && NodeOk(v, nd, h) && |Listed(nd, id)| > 0
    requires forall p :: p in Listed(nd, id) ==> p >= 0 && p / 10 <= |h.order[v]|
    ensures NodeOk(v, Decide(nd, id).0, h)
  {
    var nd' := Decide(nd, id).0;
    assert forall x :: ItemOk(x, v, nd, h) ==> ItemOk(x, v, nd', h);
    AgrSeqBound(nd.hold.agrSeq, MaxOf(Listed(nd, id)), |h.order[v]|);
  }

  lemma AgrSeqBound(a: int, b: int, k: nat)
    requires 0 <= a && 0 <= b && a / 10 <= k && b / 10 <= k
    ensures 0 <= Max(a, b) && Max(a, b) / 10 <= k
  {
  }
}
