/** Priorities and the hold-back queue of ISIS, as a sorted list (mp1/isis_l.py). */
module IsisQueue {

  type Id = nat

  /** The transaction a message carries. */
  datatype Tx = Deposit(account: string, amount: int) | Transfer(source: string, target: string, amount: int)

  /** A priority is counted in tenths: node id i enters as i tenths, so the integer
      part of the program's float is prio / 10 and, for ids below ten, the node that
      made it is prio % 10. */
  datatype Item = Item(prio: int, id: Id, deliverable: bool, tx: Tx)

  /** How the next proposal follows from the largest priority seen: isis.py drops
      the fraction and adds its own node id, isis_new.py and isis_l.py add one. */
  datatype Rule = Floored | Plain

  datatype Holdback = Holdback(node: nat, proSeq: int, agrSeq: int, queue: seq<Item>)

  function Max(a: int, b: int): int { if a >= b then a else b }

  function NextPriority(rule: Rule, node: nat, seen: int): int {
    match rule
    case Floored => seen / 10 * 10 + 10 + node
    case Plain => seen + 10
  }

  // -------------------------------------------------------------- sorted lists

  /** Strictly increasing priorities. */
  ghost predicate Sorted(q: seq<Item>) {
    forall i, j :: 0 <= i < j < |q| ==> q[i].prio < q[j].prio
  }

  ghost predicate NoTie(q: seq<Item>, x: Item) {
    forall i :: 0 <= i < |q| ==> q[i].prio != x.prio
  }

  /** The number of items before which x is inserted: those of smaller priority. */
  function Place(q: seq<Item>, x: Item): (k: nat)
    ensures k <= |q|
    ensures forall i :: 0 <= i < k ==> q[i].prio < x.prio
    ensures k < |q| ==> q[k].prio >= x.prio
  {
    if q == [] || q[0].prio >= x.prio then 0 else 1 + Place(q[1..], x)
  }

  function Insert(q: seq<Item>, x: Item): (r: seq<Item>)
    ensures |r| == |q| + 1
  {
    var k := Place(q, x);
    q[..k] + [x] + q[k..]
  }

  /** The index of the first item with the given id, or the length. */
  function Find(q: seq<Item>, id: Id): (k: nat)
    ensures k <= |q|
    ensures k < |q| ==> q[k].id == id
    ensures forall i :: 0 <= i < k ==> q[i].id != id
  {
    if q == [] || q[0].id == id then 0 else 1 + Find(q[1..], id)
  }

  function RemoveAt(q: seq<Item>, k: nat): (r: seq<Item>)
    requires k < |q|
    ensures |r| == |q| - 1
  {
    q[..k] + q[k + 1..]
  }

  /** How many items at the front are deliverable. */
  function Ready(q: seq<Item>): (k: nat)
    ensures k <= |q|
    ensures forall i :: 0 <= i < k ==> q[i].deliverable
    ensures k < |q| ==> !q[k].deliverable
  {
    if q == [] || !q[0].deliverable then 0 else 1 + Ready(q[1..])
  }

  // ----------------------------------------------------------- the operations

  function ProposeSeq(rule: Rule, h: Holdback, id: Id, tx: Tx): (r: (Holdback, int)) {
    var p := NextPriority(rule, h.node, Max(h.proSeq, h.agrSeq));
    (h.(proSeq := p, queue := Insert(h.queue, Item(p, id, false, tx))), p)
  }

  function MaxOf(ps: seq<int>): (m: int)
    requires |ps| > 0
    ensures m in ps && forall p :: p in ps ==> p <= m
  {
    if |ps| == 1 then ps[0]
    else
      assert forall p :: p in ps ==> p == ps[0] || p in ps[1..];
      Max(ps[0], MaxOf(ps[1..]))
  }

  function DecideSeq(h: Holdback, ps: seq<int>): (r: (Holdback, int))
    requires |ps| > 0
  {
    var m := MaxOf(ps);
    (h.(agrSeq := Max(h.agrSeq, m)), m)
  }

  /** The queue once the message has its agreed priority; a message that is not
      queued is ignored. */
  function Settle(q: seq<Item>, id: Id, prio: int, tx: Tx): (r: seq<Item>) {
    var k := Find(q, id);
    if k < |q| then Insert(RemoveAt(q, k), Item(prio, id, true, tx)) else q
  }

  /** Delivery: settle the message, then hand out the deliverable front. */
  function DeliverMsg(h: Holdback, id: Id, prio: int, tx: Tx): (r: (Holdback, seq<Item>)) {
    var q := Settle(h.queue, id, prio, tx);
    (h.(queue := q[Ready(q)..]), q[..Ready(q)])
  }

  // --------------------------------------------------------------- their laws

  /** Place, Find and Ready are characterised by what they separate. */
  lemma PlaceIs(q: seq<Item>, x: Item, k: nat)
    requires k <= |q| && (forall i :: 0 <= i < k ==> q[i].prio < x.prio) && (k < |q| ==> q[k].prio >= x.prio)
    ensures k == Place(q, x)
  {
  }

  lemma FindIs(q: seq<Item>, id: Id, k: nat)
    requires k <= |q| && (k < |q| ==> q[k].id == id) && forall i :: 0 <= i < k ==> q[i].id != id
    ensures k == Find(q, id)
  {
  }

  lemma ReadyIs(q: seq<Item>, k: nat)
    requires k <= |q| && (forall i :: 0 <= i < k ==> q[i].deliverable) && (k < |q| ==> !q[k].deliverable)
    ensures k == Ready(q)
  {
  }

  lemma InsertKeepsSorted(q: seq<Item>, x: Item)
    requires Sorted(q) && NoTie(q, x)
    ensures Sorted(Insert(q, x))
  {
  }

  /** Insertion adds exactly the item: the rest keeps its order. */
  lemma InsertItems(q: seq<Item>, x: Item)
    ensures multiset(Insert(q, x)) == multiset(q) + multiset{x}
    ensures forall y :: y in Insert(q, x) <==> y == x || y in q
  {
    var k := Place(q, x);
    assert q == q[..k] + q[k..];
  }

  lemma RemoveItems(q: seq<Item>, k: nat)
    requires k < |q|
    ensures multiset(RemoveAt(q, k)) == multiset(q) - multiset{q[k]}
  {
    assert q == q[..k] + [q[k]] + q[k + 1..];
  }

  lemma RemoveKeepsSorted(q: seq<Item>, k: nat)
    requires Sorted(q) && k < |q|
    ensures Sorted(RemoveAt(q, k))
    ensures forall y :: y in RemoveAt(q, k) <==> y in q && y != q[k]
  {
    var r := RemoveAt(q, k);
    forall y | y in q && y != q[k] ensures y in r {
      var i :| 0 <= i < |q| && q[i] == y;
      assert r[if i < k then i else i - 1] == y;
    }
  }

  lemma SameHead(a: seq<Item>, b: seq<Item>)
    requires Sorted(a) && Sorted(b) && |a| > 0 && |b| > 0 && a[0] in b && b[0] in a
    ensures a[0] == b[0]
  {
    var j :| 0 <= j < |b| && b[j] == a[0];
    var i :| 0 <= i < |a| && a[i] == b[0];
    assert j > 0 ==> b[0].prio < b[j].prio;
    assert i > 0 ==> a[0].prio < a[i].prio;
  }

  lemma SameSize(a: seq<Item>, b: seq<Item>)
    requires multiset(a) == multiset(b)
    ensures |a| == |b| && forall x :: x in a <==> x in b
  {
    assert |multiset(a)| == |a| && |multiset(b)| == |b|;
    assert forall x :: x in a <==> x in multiset(a);
    assert forall x :: x in b <==> x in multiset(b);
  }

  lemma TailItems(a: seq<Item>)
    requires |a| > 0
    ensures multiset(a[1..]) == multiset(a) - multiset{a[0]}
  {
    assert a == [a[0]] + a[1..];
  }

  /** A sorted list is determined by its items. */
  lemma {:induction false} SortedUnique(a: seq<Item>, b: seq<Item>)
    requires Sorted(a) && Sorted(b) && multiset(a) == multiset(b)
    ensures a == b
  {
    SameSize(a, b);
    if |a| > 0 {
      SameHead(a, b);
      TailItems(a);
      TailItems(b);
      SortedUnique(a[1..], b[1..]);
      assert a == [a[0]] + a[1..] && b == [b[0]] + b[1..];
    }
  }

  // ------------------------------------------------------------ what is proposed

  /** A proposal of a node below ten is the least number in the node's own residue whose
      integer part is above those of everything the node proposed or decided before. */
  lemma FlooredProposal(h: Holdback, id: Id, tx: Tx, p: int)
    requires 0 <= h.node < 10 && p / 10 > h.proSeq / 10 && p / 10 > h.agrSeq / 10 && p % 10 == h.node
    ensures var (h', prio) := ProposeSeq(Floored, h, id, tx);
            && prio <= p && prio % 10 == h.node && prio / 10 > h.proSeq / 10 && prio / 10 > h.agrSeq / 10
            && h'.proSeq == prio && h'.agrSeq == h.agrSeq
  {
  }

  /** Without the floor it is exactly one more than the larger of the two. */
  lemma PlainProposal(h: Holdback, id: Id, tx: Tx)
    ensures var (h', prio) := ProposeSeq(Plain, h, id, tx);
            && prio - 10 in {h.proSeq, h.agrSeq} && prio - 10 >= h.proSeq && prio - 10 >= h.agrSeq
            && h'.proSeq == prio && h'.agrSeq == h.agrSeq
  {
  }

  /** The proposed message waits in the queue with its content, and the rest is as it was. */
  lemma ProposedWaits(rule: Rule, h: Holdback, id: Id, tx: Tx)
    ensures var (h', prio) := ProposeSeq(rule, h, id, tx);
            multiset(h'.queue) == multiset(h.queue) + multiset{Item(prio, id, false, tx)}
  {
    InsertItems(h.queue, Item(NextPriority(rule, h.node, Max(h.proSeq, h.agrSeq)), id, false, tx));
  }

  /** A decision is the largest of the proposals, and remembered if it is the largest so far. */
  lemma DecisionIs(h: Holdback, ps: seq<int>)
    requires |ps| > 0
    ensures var (h', m) := DecideSeq(h, ps);
            && m in ps && (forall p :: p in ps ==> p <= m)
            && h'.agrSeq >= m && h'.agrSeq >= h.agrSeq && h'.agrSeq in {m, h.agrSeq} && h'.proSeq == h.proSeq
  {
  }

  /** An agreement for a message that is not queued changes nothing and delivers nothing. */
  lemma UnknownIgnored(h: Holdback, id: Id, prio: int, tx: Tx)
    requires (forall x :: x in h.queue ==> x.id != id) && (h.queue != [] ==> !h.queue[0].deliverable)
    ensures DeliverMsg(h, id, prio, tx) == (h, [])
  {
    FindIs(h.queue, id, |h.queue|);
    ReadyIs(h.queue, 0);
  }
}
