/** Calls on which the heap and the list part, because a message is queued twice. */
module IsisLimits {
  import opened IsisQueue
  import opened IsisHeap

  /** The call takes both queues on, with the given answers, and brings no priority into
      the heap, or into the list, that is in it. */
  ghost predicate Turn(h: Raw, l: Holdback, op: Op, h': Raw, l': Holdback, a: Answer, b: Answer) {
    && !op.Decide?
    && HeapDo(h, 0, op) == (h', a) && Do(l, op) == l' && AnswerOf(l, op) == b
    && NoEqual(h, 0, op) && NoEqual(Raw(l.proSeq, l.agrSeq, l.queue), 0, op)
  }

  /** The heap and the list side by side, before and after each call, and their answers. */
  datatype Parallel = Parallel(ops: seq<Op>, heap: seq<Raw>, list: seq<Holdback>, fromHeap: seq<Answer>,
      fromList: seq<Answer>)

  ghost predicate TurnAt(p: Parallel, k: nat) {
    && k < |p.ops| && |p.heap| == |p.list| == |p.ops| + 1 && |p.fromHeap| == |p.fromList| == |p.ops|
    && Turn(p.heap[k], p.list[k], p.ops[k], p.heap[k + 1], p.list[k + 1], p.fromHeap[k], p.fromList[k])
  }

  // -------------------------------------------------------------- small heaps

  lemma SiftTwo(q: seq<Item>, x: Item, y: Item)
    requires q == [x, y]
    ensures SiftedUp(q, 0) == if x.prio < y.prio then q else [y, x]
  {
    assert Swap(q, 0, 1) == [y, x] && Swap([y, x], 1, 0) == [x, y];
    assert Descended(q, 0) == ([y, x], 1);
  }

  lemma PushThird(q: seq<Item>, x: Item, y: Item, z: Item)
    requires q == [x, y]
    ensures Pushed(q, z) == if z.prio < x.prio then [z, y, x] else [x, y, z]
  {
    var r := [x, y, z];
    assert q + [z] == r && Swap(r, 2, 0) == [z, y, x];
  }

  lemma DropOne(q: seq<Item>, x: Item, y: Item, z: Item)
    requires q == [x, y, z]
    ensures Shortened(q, 0) == [z, y] && Shortened(q, 1) == [x, z]
  {
  }

  lemma RemoveFirst(q: seq<Item>, x: Item, y: Item, z: Item)
    requires q == [x, y, z]
    ensures Popped(q) == Removed(q, 0) == if z.prio < y.prio then [z, y] else [y, z]
  {
    DropOne(q, x, y, z);
    SiftTwo([z, y], z, y);
  }

  lemma RemoveSecond(q: seq<Item>, x: Item, y: Item, z: Item)
    requires q == [x, y, z] && x.prio < z.prio
    ensures Removed(q, 1) == [x, z]
  {
    DropOne(q, x, y, z);
    assert Descended([x, z], 1) == ([x, z], 1);
  }

  lemma PopTwo(q: seq<Item>, x: Item, y: Item)
    requires q == [x, y]
    ensures Popped(q) == [y]
  {
    assert Shortened(q, 0) == [y] && Descended([y], 0) == ([y], 0);
  }

  /** A deliverable root goes out before what is drained from the rest. */
  lemma DrainStep(q: seq<Item>, x: Item, q': seq<Item>, out: seq<Item>)
    requires q != [] && q[0] == x && x.deliverable && Popped(q) == q' && Drained(q') == (out, [])
    ensures Drained(q) == ([x] + out, [])
  {
  }

  lemma DrainThree(q: seq<Item>, x: Item, y: Item, z: Item)
    requires q == [x, y, z] && x.deliverable && y.deliverable && z.deliverable && z.prio < y.prio
    ensures Drained(q) == ([x, z, y], [])
  {
    RemoveFirst(q, x, y, z);
    PopTwo([z, y], z, y);
    DrainStep([y], y, [], []);
    DrainStep([z, y], z, [y], [y] + []);
    DrainStep(q, x, [z, y], [z] + ([y] + []));
    assert [x] + ([z] + ([y] + [])) == [x, z, y];
  }

  /** Of two equal children the right one moves up, as in heapq. */
  lemma RightOfEqual(q: seq<Item>, x: Item, a: Item, b: Item, c: Item)
    requires q == [x, a, b, c] && a.prio == b.prio <= c.prio
    ensures Popped(q) == [b, a, c]
  {
    var r := [c, a, b];
    assert Shortened(q, 0) == r && Swap(r, 0, 2) == [b, a, c];
    assert Descended(r, 0) == ([b, a, c], 2);
  }

  // ---------------------------------------------------- the agreements on the heap

  /** The first entry of the message, at the root, is settled at z. */
  lemma HeapFirst(q: seq<Item>, x: Item, y: Item, w: Item, prio: int, z: Item)
    requires q == [x, y, w] && y.prio < w.prio && y.prio < prio && !y.deliverable && z == Item(prio, x.id, true, z.tx)
    ensures Drained(Resettled(q, x.id, prio, z.tx)) == ([], [y, w, z])
  {
    FindIs(q, x.id, 0);
    RemoveFirst(q, x, y, w);
    PushThird([y, w], y, w, z);
  }

  /** The scan meets the second entry, which waits at index 1, and settles that. */
  lemma HeapSecond(q: seq<Item>, x: Item, y: Item, w: Item, prio: int, z: Item)
    requires q == [x, y, w] && x.id != y.id && x.prio < w.prio && x.prio < prio && !x.deliverable
             && z == Item(prio, y.id, true, z.tx)
    ensures Drained(Resettled(q, y.id, prio, z.tx)) == ([], [x, w, z])
  {
    FindIs(q, y.id, 1);
    RemoveSecond(q, x, y, w);
    PushThird([x, w], x, w, z);
  }

  /** The root is settled where it was, and everything goes out. */
  lemma HeapThird(q: seq<Item>, x: Item, y: Item, w: Item, z: Item)
    requires q == [x, y, w] && x.prio < y.prio < w.prio && y.deliverable && w.deliverable
             && z == Item(x.prio, x.id, true, z.tx)
    ensures Drained(Resettled(q, x.id, x.prio, z.tx)) == ([z, y, w], [])
  {
    FindIs(q, x.id, 0);
    RemoveFirst(q, x, y, w);
    PushThird([y, w], y, w, z);
    DrainThree([z, w, y], z, w, y);
  }

  // ---------------------------------------------------- the agreements on the list

  /** Entry i of the list is settled after k of the others, and the first r then go out. */
  lemma ListDelivers(h: Holdback, q: seq<Item>, i: nat, rest: seq<Item>, z: Item, k: nat, full: seq<Item>, r: nat)
    requires h.queue == q && i < |q| && q[i].id == z.id && (forall j :: 0 <= j < i ==> q[j].id != z.id)
    requires rest == q[..i] + q[i + 1..] && k <= |rest| && z.deliverable
    requires (forall j :: 0 <= j < k ==> rest[j].prio < z.prio) && (k < |rest| ==> rest[k].prio >= z.prio)
    requires full == rest[..k] + [z] + rest[k..]
    requires r <= |full| && (forall j :: 0 <= j < r ==> full[j].deliverable) && (r < |full| ==> !full[r].deliverable)
    ensures IsisQueue.DeliverMsg(h, z.id, z.prio, z.tx) == (h.(queue := full[r..]), full[..r])
  {
    FindIs(q, z.id, i);
    PlaceIs(rest, z, k);
    ReadyIs(full, r);
  }

  lemma FindAt(q: seq<Item>, id: Id, i: nat, prio: int)
    requires i < |q| && q[i].id == id && (forall j :: 0 <= j < i ==> q[j].id != id)
    requires forall j :: 0 <= j < |q| && j != i ==> q[j].prio != prio
    ensures NewPriority(q, id, prio)
  {
    FindIs(q, id, i);
  }

  // ------------------------------------------------------------------- the calls

  /** A proposal does the same to both. */
  lemma ProposeTurn(h: Raw, l: Holdback, q: seq<Item>, pro: int, x: Item, q': seq<Item>)
    requires h == Raw(pro, 0, q) && l == Holdback(0, pro, 0, q) && q' == q + [x]
    requires pro >= 0 && (forall y :: y in q ==> y.prio <= pro) && x == Item(pro + 10, x.id, false, x.tx)
    ensures Turn(h, l, Propose(x.id, x.tx), Raw(pro + 10, 0, q'), Holdback(0, pro + 10, 0, q'), Priority(pro + 10),
            Priority(pro + 10))
  {
    if q != [] {
      assert (q + [x])[Par(|q|)] == q[Par(|q|)] && q[Par(|q|)] in q;
    }
    PlaceIs(q, x, |q|);
  }

  /** An agreement takes the heap and the list as computed. */
  lemma DeliverTurn(h: Raw, l: Holdback, z: Item, q': seq<Item>, l': seq<Item>, a: seq<Item>, b: seq<Item>)
    requires Drained(Resettled(h.items, z.id, z.prio, z.tx)) == (a, q') && NewPriority(h.items, z.id, z.prio)
    requires IsisQueue.DeliverMsg(l, z.id, z.prio, z.tx) == (l.(queue := l'), b) && NewPriority(l.queue, z.id, z.prio)
    ensures Turn(h, l, Deliver(z.id, z.prio, z.tx), h.(items := q'), l.(queue := l'), Delivered(a), Delivered(b))
  {
  }

  /** What the calls are about: message 3 is proposed at 10 and at 30, message 1 at 20;
      message 3 is agreed at 25 and at 35, message 1 at 20. */
  datatype Six = Six(a: Item, b: Item, c: Item, z1: Item, z2: Item, z3: Item)

  ghost predicate Chosen(s: Six, tx: Tx) {
    && s.a == Item(10, 3, false, tx) && s.b == Item(20, 1, false, tx) && s.c == Item(30, 3, false, tx)
    && s.z1 == Item(25, 3, true, tx) && s.z2 == Item(35, 3, true, tx) && s.z3 == Item(20, 1, true, tx)
  }

  lemma FirstAgreement(h: Raw, l: Holdback, s: Six, tx: Tx)
    requires Chosen(s, tx) && h.items == l.queue == [s.a, s.b, s.c]
    ensures Turn(h, l, Deliver(3, 25, tx), h.(items := [s.b, s.c, s.z1]), l.(queue := [s.b, s.z1, s.c]),
            Delivered([]), Delivered([]))
  {
    HeapFirst(h.items, s.a, s.b, s.c, 25, s.z1);
    FindAt(h.items, 3, 0, 25);
    ListDelivers(l, l.queue, 0, [s.b, s.c], s.z1, 1, [s.b, s.z1, s.c], 0);
    DeliverTurn(h, l, s.z1, [s.b, s.c, s.z1], [s.b, s.z1, s.c], [], []);
  }

  lemma SecondAgreement(h: Raw, l: Holdback, s: Six, tx: Tx)
    requires Chosen(s, tx) && h.items == [s.b, s.c, s.z1] && l.queue == [s.b, s.z1, s.c]
    ensures Turn(h, l, Deliver(3, 35, tx), h.(items := [s.b, s.z1, s.z2]), l.(queue := [s.b, s.c, s.z2]),
            Delivered([]), Delivered([]))
  {
    HeapSecond(h.items, s.b, s.c, s.z1, 35, s.z2);
    FindAt(h.items, 3, 1, 35);
    FindAt(l.queue, 3, 1, 35);
    ListDelivers(l, l.queue, 1, [s.b, s.c], s.z2, 2, [s.b, s.c, s.z2], 0);
    DeliverTurn(h, l, s.z2, [s.b, s.z1, s.z2], [s.b, s.c, s.z2], [], []);
  }

  lemma ListThird(l: Holdback, x: Item, y: Item, w: Item, z: Item)
    requires l.queue == [x, y, w] && z.deliverable && z.id == x.id && z.prio <= y.prio && !y.deliverable
    ensures IsisQueue.DeliverMsg(l, z.id, z.prio, z.tx) == (l.(queue := [y, w]), [z])
  {
    var full := [z, y, w];
    assert full[1..] == [y, w] && full[..1] == [z];
    ListDelivers(l, l.queue, 0, [y, w], z, 0, full, 1);
  }

  lemma ThirdAgreement(h: Raw, l: Holdback, s: Six, tx: Tx)
    requires Chosen(s, tx) && h.items == [s.b, s.z1, s.z2] && l.queue == [s.b, s.c, s.z2]
    ensures Turn(h, l, Deliver(1, 20, tx), h.(items := []), l.(queue := [s.c, s.z2]), Delivered([s.z3, s.z1, s.z2]),
            Delivered([s.z3]))
  {
    HeapThird(h.items, s.b, s.z1, s.z2, s.z3);
    FindAt(h.items, 1, 0, 20);
    FindAt(l.queue, 1, 0, 20);
    ListThird(l, s.b, s.c, s.z2, s.z3);
    DeliverTurn(h, l, s.z3, [], [s.c, s.z2], [s.z3, s.z1, s.z2], [s.z3]);
  }

  /** With a message queued twice the heap and the list answer differently, although no
      priority is ever brought into either that is in it: from empty queues, after three
      proposals and two agreements that both queues answer alike, the heap hands out three
      items and the list one, because the heap's scan met another entry. */
  lemma RepeatedIdDiffers(tx: Tx) returns (p: Parallel)
    ensures p.ops == [Propose(3, tx), Propose(1, tx), Propose(3, tx), Deliver(3, 25, tx), Deliver(3, 35, tx),
            Deliver(1, 20, tx)]
    ensures forall k {:trigger TurnAt(p, k)} :: 0 <= k < 6 ==> TurnAt(p, k)
    ensures |p.heap| == |p.list| == 7 && p.heap[0] == Raw(0, 0, []) && p.list[0] == Holdback(0, 0, 0, [])
    ensures |p.fromHeap| == |p.fromList| == 6
    ensures p.fromHeap[5] == Delivered([Item(20, 1, true, tx), Item(25, 3, true, tx), Item(35, 3, true, tx)])
    ensures p.fromList[5] == Delivered([Item(20, 1, true, tx)])
  {
    var s := Six(Item(10, 3, false, tx), Item(20, 1, false, tx), Item(30, 3, false, tx),
                 Item(25, 3, true, tx), Item(35, 3, true, tx), Item(20, 1, true, tx));
    p := Side(s, tx);
    forall k | 0 <= k < 6 ensures TurnAt(p, k) {
      if k < 3 {
        Proposals(p, s, tx, k);
      } else {
        Agreements(p, s, tx, k);
      }
    }
  }

  function Side(s: Six, tx: Tx): Parallel {
    Parallel(
      [Propose(3, tx), Propose(1, tx), Propose(3, tx), Deliver(3, 25, tx), Deliver(3, 35, tx), Deliver(1, 20, tx)],
      [Raw(0, 0, []), Raw(10, 0, [s.a]), Raw(20, 0, [s.a, s.b]), Raw(30, 0, [s.a, s.b, s.c]),
       Raw(30, 0, [s.b, s.c, s.z1]), Raw(30, 0, [s.b, s.z1, s.z2]), Raw(30, 0, [])],
      [Holdback(0, 0, 0, []), Holdback(0, 10, 0, [s.a]), Holdback(0, 20, 0, [s.a, s.b]),
       Holdback(0, 30, 0, [s.a, s.b, s.c]),
       Holdback(0, 30, 0, [s.b, s.z1, s.c]), Holdback(0, 30, 0, [s.b, s.c, s.z2]), Holdback(0, 30, 0, [s.c, s.z2])],
      [Priority(10), Priority(20), Priority(30), Delivered([]), Delivered([]), Delivered([s.z3, s.z1, s.z2])],
      [Priority(10), Priority(20), Priority(30), Delivered([]), Delivered([]), Delivered([s.z3])])
  }

  lemma Proposals(p: Parallel, s: Six, tx: Tx, k: nat)
    requires Chosen(s, tx) && p == Side(s, tx) && k < 3
    ensures TurnAt(p, k)
  {
    if k == 0 {
      ProposeTurn(p.heap[0], p.list[0], [], 0, s.a, [s.a]);
    } else if k == 1 {
      ProposeTurn(p.heap[1], p.list[1], [s.a], 10, s.b, [s.a, s.b]);
    } else {
      ProposeTurn(p.heap[2], p.list[2], [s.a, s.b], 20, s.c, [s.a, s.b, s.c]);
    }
  }

  lemma Agreements(p: Parallel, s: Six, tx: Tx, k: nat)
    requires Chosen(s, tx) && p == Side(s, tx) && 3 <= k < 6
    ensures TurnAt(p, k)
  {
    if k == 3 {
      FirstAgreement(p.heap[3], p.list[3], s, tx);
    } else if k == 4 {
      SecondAgreement(p.heap[4], p.list[4], s, tx);
    } else {
      ThirdAgreement(p.heap[5], p.list[5], s, tx);
    }
  }
}
