/** The hold-back queue as a list kept sorted by binary search (mp1/isis_l.py). */
module IsisList {
  import opened IsisQueue

  class SortedIsis {
    const node: nat
    var proSeq: int
    var agrSeq: int
    var queue: seq<Item>

    ghost predicate Valid()
      reads this
    {
      forall i, j :: 0 <= i < j < |queue| ==> queue[i].prio <= queue[j].prio
    }

    ghost function State(): Holdback
      reads this
    {
      Holdback(node, proSeq, agrSeq, queue)
    }

    constructor (node: nat)
      ensures Valid() && State() == Holdback(node, node, node, [])
    {
      this.node, proSeq, agrSeq, queue := node, node, node, [];
    }

    /** The leftmost position that keeps the list sorted, by binary search. */
    method BisectLeft(x: Item) returns (k: nat)
      requires Valid()
      ensures k == Place(queue, x)
      ensures k <= |queue| && forall i :: 0 <= i < |queue| ==> (queue[i].prio < x.prio <==> i < k)
    {
      var lo, hi := 0, |queue|;
      while lo < hi
        invariant 0 <= lo <= hi <= |queue|
        invariant forall i :: 0 <= i < lo ==> queue[i].prio < x.prio
        invariant forall i :: hi <= i < |queue| ==> queue[i].prio >= x.prio
      {
        var mid := (lo + hi) / 2;
        if queue[mid].prio < x.prio {
          lo := mid + 1;
        } else {
          hi := mid;
        }
      }
      k := lo;
      PlaceIs(queue, x, k);
    }

    method InsertItem(x: Item)
      requires Valid()
      modifies this`queue
      ensures Valid() && queue == Insert(old(queue), x)
    {
      var k := BisectLeft(x);
      queue := queue[..k] + [x] + queue[k..];
    }

    method ProposeSeq(id: Id, tx: Tx) returns (prio: int)
      requires Valid()
      modifies this
      ensures Valid() && (State(), prio) == IsisQueue.ProposeSeq(Plain, old(State()), id, tx)
    {
      proSeq := Max(proSeq, agrSeq) + 10;
      InsertItem(Item(proSeq, id, false, tx));
      prio := proSeq;
    }

    method DecideSeq(ps: seq<int>) returns (prio: int)
      requires Valid() && |ps| > 0
      modifies this`agrSeq
      ensures Valid() && (State(), prio) == IsisQueue.DecideSeq(old(State()), ps)
    {
      prio := Largest(ps);
      agrSeq := Max(agrSeq, prio);
    }

    method DeliverMsg(id: Id, prio: int, tx: Tx) returns (out: seq<Item>)
      requires Valid()
      modifies this`queue
      ensures Valid() && (State(), out) == IsisQueue.DeliverMsg(old(State()), id, prio, tx)
    {
      var i := FindItem(id);
      if i < |queue| {
        queue := queue[..i] + queue[i + 1..];
        InsertItem(Item(prio, id, true, tx));
      }
      out := PopReady();
    }

    /** The scan for the message's entry. */
    method FindItem(id: Id) returns (i: nat)
      ensures i == Find(queue, id)
    {
      i := 0;
      while i < |queue| && queue[i].id != id
        invariant 0 <= i <= |queue|
        invariant forall j :: 0 <= j < i ==> queue[j].id != id
      {
        i := i + 1;
      }
      FindIs(queue, id, i);
    }

    /** Pops the front while it is deliverable. */
    method PopReady() returns (out: seq<Item>)
      requires Valid()
      modifies this`queue
      ensures Valid() && out == old(queue)[..Ready(old(queue))] && queue == old(queue)[Ready(old(queue))..]
    {
      ghost var q := queue;
      out := [];
      while queue != [] && queue[0].deliverable
        invariant |out| <= Ready(q) && out == q[..|out|] && queue == q[|out|..]
        decreases |queue|
      {
        assert queue[0] == q[|out|];
        out := out + [queue[0]];
        queue := queue[1..];
      }
      ReadyIs(q, |out|);
    }
  }

  /** The largest proposal, by a scan. */
  method Largest(ps: seq<int>) returns (m: int)
    requires |ps| > 0
    ensures m == MaxOf(ps)
  {
    m := ps[0];
    for i := 1 to |ps|
      invariant m in ps[..i] && forall p :: p in ps[..i] ==> p <= m
    {
      assert ps[..i + 1] == ps[..i] + [ps[i]];
      if ps[i] > m {
        m := ps[i];
      }
    }
    assert ps[..|ps|] == ps;
  }
}
