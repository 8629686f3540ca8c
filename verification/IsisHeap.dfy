/** The hold-back queue as a binary heap with removal from its middle (mp1/isis.py,
    mp1/isis_new.py, and the heapq functions they call), proved to give the answers of
    the sorted list.  heapq moves a hole: it writes each displaced item into the hole
    and the moved item only at the end.  The loops do the same, and the proof follows
    the list that has the moved item in the hole, of which each round is a swap.  The
    heap's abstract value is its items in order; without ties that order is unique, so
    it is enough to show that every operation keeps the heap order and the items. */
module IsisHeap {
  import opened IsisQueue
  import L = IsisList

  // ------------------------------------------------------------- heap order

  function Par(i: nat): nat
    requires i > 0
  {
    (i - 1) / 2
  }

  ghost predicate InOrder(q: seq<Item>, j: nat)
    requires j < |q|
  {
    j > 0 ==> q[Par(j)].prio <= q[j].prio
  }

  ghost predicate IsHeap(q: seq<Item>) {
    forall j {:trigger InOrder(q, j)} :: 0 <= j < |q| ==> InOrder(q, j)
  }

  /** Only the item at pos may be out of order with its parent, and the parent is in
      order with the children of pos. */
  ghost predicate HeapBut(q: seq<Item>, pos: nat) {
    && (forall j {:trigger InOrder(q, j)} :: 0 <= j < |q| && j != pos ==> InOrder(q, j))
    && Bridged(q, pos)
  }

  ghost predicate Bridged(q: seq<Item>, pos: nat) {
    forall c {:trigger q[c]} :: 0 < pos < c < |q| && Par(c) == pos ==> q[Par(pos)].prio <= q[c].prio
  }

  /** Only the item at pos may be out of order, with its parent or its children. */
  ghost predicate HeapAround(q: seq<Item>, pos: nat) {
    && (forall j {:trigger InOrder(q, j)} :: 0 < j < |q| && j != pos && Par(j) != pos ==> InOrder(q, j))
    && Bridged(q, pos)
  }

  /** pos is start or a descendant of it. */
  predicate Under(pos: nat, start: nat) {
    pos == start || (pos > start && Under(Par(pos), start))
  }

  lemma {:induction false} AllUnderRoot(pos: nat)
    ensures Under(pos, 0)
  {
    if pos > 0 {
      AllUnderRoot(Par(pos));
    }
  }

  function Swap(q: seq<Item>, i: nat, j: nat): seq<Item>
    requires i < |q| && j < |q|
  {
    q[i := q[j]][j := q[i]]
  }

  lemma SwapItems(q: seq<Item>, i: nat, j: nat)
    requires i < |q| && j < |q|
    ensures multiset(Swap(q, i, j)) == multiset(q)
  {
  }

  /** Moving a small item up past its parent. */
  lemma MoveUp(q: seq<Item>, pos: nat)
    requires 0 < pos < |q| && HeapBut(q, pos) && q[pos].prio < q[Par(pos)].prio
    ensures HeapBut(Swap(q, pos, Par(pos)), Par(pos))
  {
    var p := Par(pos);
    var r := Swap(q, pos, p);
    forall j | 0 <= j < |r| && j != p ensures InOrder(r, j) {
      assert InOrder(q, j) || j == pos;
      assert InOrder(q, p);
      if j > 0 && Par(j) == pos {
        assert q[p].prio <= q[j].prio;
      }
    }
    forall c | 0 < p < c < |r| && Par(c) == p ensures r[Par(p)].prio <= r[c].prio {
      assert InOrder(q, p);
      if c != pos {
        assert InOrder(q, c);
      }
    }
  }

  /** Moving an item down past its smaller child. */
  lemma MoveDown(q: seq<Item>, pos: nat, c: nat)
    requires pos < c < |q| && Par(c) == pos && HeapAround(q, pos)
    requires forall d :: pos < d < |q| && Par(d) == pos ==> q[c].prio <= q[d].prio
    ensures HeapAround(Swap(q, pos, c), c)
  {
    var r := Swap(q, pos, c);
    forall j | 0 < j < |r| && j != c && Par(j) != c ensures InOrder(r, j) {
      if j == pos {
        assert r[j] == q[c];
      } else if Par(j) == pos {
        assert q[c].prio <= q[j].prio;
      } else {
        assert InOrder(q, j);
      }
    }
    forall d | 0 < c < d < |r| && Par(d) == c ensures r[Par(c)].prio <= r[d].prio {
      assert InOrder(q, d);
    }
  }

  lemma {:induction false} RootIsLeast(q: seq<Item>, j: nat)
    requires IsHeap(q) && j < |q|
    ensures q[0].prio <= q[j].prio
  {
    if j > 0 {
      assert InOrder(q, j);
      RootIsLeast(q, Par(j));
    }
  }

  // --------------------------------------------- what heapq does to the list

  /** heapq._siftdown: the item at pos moves up while it is smaller than its parent. */
  function SiftedDown(q: seq<Item>, start: nat, pos: nat): (r: seq<Item>)
    requires pos < |q|
    ensures |r| == |q|
    decreases pos
  {
    if pos > start && q[pos].prio < q[Par(pos)].prio then SiftedDown(Swap(q, pos, Par(pos)), start, Par(pos)) else q
  }

  /** The child that moves up; of two equal children the right one. */
  function Child(q: seq<Item>, p: nat): (c: nat)
    requires 2 * p + 1 < |q|
    ensures p < c < |q|
  {
    var c := 2 * p + 1;
    if c + 1 < |q| && !(q[c].prio < q[c + 1].prio) then c + 1 else c
  }

  /** The item at p moves down to a leaf, along the smaller children. */
  function Descended(q: seq<Item>, p: nat): (r: (seq<Item>, nat))
    requires p < |q|
    ensures |r.0| == |q| && r.1 < |q|
    decreases |q| - p
  {
    if 2 * p + 1 < |q| then Descended(Swap(q, p, Child(q, p)), Child(q, p)) else (q, p)
  }

  /** heapq._siftup */
  function SiftedUp(q: seq<Item>, pos: nat): (r: seq<Item>)
    requires pos < |q|
    ensures |r| == |q|
  {
    SiftedDown(Descended(q, pos).0, pos, Descended(q, pos).1)
  }

  function Pushed(q: seq<Item>, x: Item): seq<Item> {
    SiftedDown(q + [x], 0, |q|)
  }

  /** The list with item i replaced by the last one, and the last one dropped. */
  function Shortened(q: seq<Item>, i: nat): (r: seq<Item>)
    requires i < |q|
    ensures |r| == |q| - 1
  {
    q[i := q[|q| - 1]][..|q| - 1]
  }

  function Popped(q: seq<Item>): (r: seq<Item>)
    requires |q| > 0
    ensures |r| == |q| - 1
  {
    if |q| == 1 then [] else SiftedUp(Shortened(q, 0), 0)
  }

  function Removed(q: seq<Item>, i: nat): (r: seq<Item>)
    requires i < |q|
    ensures |r| == |q| - 1
  {
    var r := Shortened(q, i);
    if i < |r| then SiftedDown(SiftedUp(r, i), 0, i) else r
  }

  // -------------------------------------------------- what that does to a heap

  lemma {:induction false} SiftedDownOk(q: seq<Item>, start: nat, pos: nat)
    requires pos < |q| && Under(pos, start) && HeapBut(q, pos)
    ensures HeapBut(SiftedDown(q, start, pos), start) && multiset(SiftedDown(q, start, pos)) == multiset(q)
    decreases pos
  {
    if pos > start {
      if q[pos].prio < q[Par(pos)].prio {
        MoveUp(q, pos);
        SwapItems(q, pos, Par(pos));
        SiftedDownOk(Swap(q, pos, Par(pos)), start, Par(pos));
      } else {
        InPlace(q, pos, start);
      }
    }
  }

  lemma ChildOk(q: seq<Item>, p: nat)
    requires 2 * p + 1 < |q|
    ensures Par(Child(q, p)) == p
    ensures forall d {:trigger q[d]} :: p < d < |q| && Par(d) == p ==> q[Child(q, p)].prio <= q[d].prio
  {
    ChildrenOf(q, p);
  }

  lemma {:induction false} DescendedOk(q: seq<Item>, p: nat, pos: nat)
    requires p < |q| && Under(p, pos) && HeapAround(q, p)
    ensures var (r, k) := Descended(q, p); Under(k, pos) && HeapBut(r, k) && multiset(r) == multiset(q)
    decreases |q| - p
  {
    if 2 * p + 1 < |q| {
      var c := Child(q, p);
      ChildOk(q, p);
      MoveDown(q, p, c);
      SwapItems(q, p, c);
      DescendedOk(Swap(q, p, c), c, pos);
    } else {
      LeafAround(q, p);
    }
  }

  lemma SiftedUpOk(q: seq<Item>, pos: nat)
    requires pos < |q| && HeapAround(q, pos)
    ensures HeapBut(SiftedUp(q, pos), pos) && multiset(SiftedUp(q, pos)) == multiset(q)
  {
    DescendedOk(q, pos, pos);
    var (r, k) := Descended(q, pos);
    SiftedDownOk(r, pos, k);
  }

  /** Pushing, popping and removing leave a heap, with exactly that item more or less. */
  lemma PushedOk(q: seq<Item>, x: Item)
    requires IsHeap(q)
    ensures IsHeap(Pushed(q, x)) && multiset(Pushed(q, x)) == multiset(q) + multiset{x}
  {
    AppendBut(q, x);
    AllUnderRoot(|q|);
    SiftedDownOk(q + [x], 0, |q|);
    ButRoot(Pushed(q, x));
  }

  lemma PoppedOk(q: seq<Item>)
    requires IsHeap(q) && |q| > 0
    ensures IsHeap(Popped(q)) && multiset(Popped(q)) == multiset(q) - multiset{q[0]}
  {
    ReplaceItems(q, 0);
    if |q| == 1 {
      assert Shortened(q, 0) == [];
    } else {
      ReplaceAround(q, 0);
      SiftedUpOk(Shortened(q, 0), 0);
      ButRoot(Popped(q));
    }
  }

  lemma RemovedOk(q: seq<Item>, i: nat)
    requires IsHeap(q) && i < |q|
    ensures IsHeap(Removed(q, i)) && multiset(Removed(q, i)) == multiset(q) - multiset{q[i]}
  {
    var r := Shortened(q, i);
    ReplaceItems(q, i);
    if i < |r| {
      ReplaceAround(q, i);
      SiftedUpOk(r, i);
      AllUnderRoot(i);
      SiftedDownOk(SiftedUp(r, i), 0, i);
      ButRoot(Removed(q, i));
    } else {
      TruncateHeap(q);
      assert r == q[..|q| - 1];
    }
  }

  // ------------------------------------------------------------ heapq, in place

  class Heap {
    var items: seq<Item>

    /** heapq._siftdown: moves the item at pos up, no further than start. */
    method SiftDown(start: nat, pos: nat)
      requires pos < |items| && Under(pos, start) && HeapBut(items, pos)
      modifies this
      ensures items == SiftedDown(old(items), start, pos)
      ensures multiset(items) == old(multiset(items)) && HeapBut(items, start)
    {
      SiftedDownOk(items, start, pos);
      var p := pos;
      var x := items[p];
      ghost var v := items;
      while p > start
        invariant p < |items| == |v| == old(|items|) && v == items[p := x]
        invariant SiftedDown(v, start, p) == SiftedDown(old(items), start, pos)
        decreases p
      {
        var up := (p - 1) / 2;
        var parent := items[up];
        if x.prio < parent.prio {
          v := Swap(v, p, up);
          items := items[p := parent];
          p := up;
        } else {
          break;
        }
      }
      items := items[p := x];
      assert items == v;
    }

    method SmallerChild(p: nat) returns (c: nat)
      requires 2 * p + 1 < |items|
      ensures c == Child(items, p)
    {
      c := 2 * p + 1;
      var right := c + 1;
      if right < |items| && !(items[c].prio < items[right].prio) {
        c := right;
      }
    }

    /** heapq._siftup: moves the item at pos down to a leaf along the smaller
        children, then up again, no further than pos. */
    method SiftUp(pos: nat)
      requires pos < |items| && HeapAround(items, pos)
      modifies this
      ensures items == SiftedUp(old(items), pos)
      ensures multiset(items) == old(multiset(items)) && HeapBut(items, pos)
    {
      DescendedOk(items, pos, pos);
      SiftedUpOk(items, pos);
      var p := pos;
      var x := items[p];
      ghost var v := items;
      while 2 * p + 1 < |items|
        invariant p < |items| == |v| == old(|items|) && v == items[p := x]
        invariant Descended(v, p) == Descended(old(items), pos)
        decreases |items| - p
      {
        var child := SmallerChild(p);
        SameChild(v, items, p, x);
        v := Swap(v, p, child);
        items := items[p := items[child]];
        p := child;
      }
      items := items[p := x];
      assert items == v;
      SiftDown(pos, p);
    }

    /** heapq.heappush */
    method Push(x: Item)
      requires IsHeap(items)
      modifies this
      ensures items == Pushed(old(items), x)
      ensures IsHeap(items) && multiset(items) == old(multiset(items)) + multiset{x}
    {
      PushedOk(items, x);
      items := items + [x];
      AppendBut(old(items), x);
      AllUnderRoot(|items| - 1);
      SiftDown(0, |items| - 1);
    }

    /** heapq.heappop */
    method Pop() returns (top: Item)
      requires IsHeap(items) && |items| > 0
      modifies this
      ensures items == Popped(old(items)) && top == old(items)[0]
      ensures IsHeap(items) && multiset(items) == old(multiset(items)) - multiset{top}
    {
      PoppedOk(items);
      var last := items[|items| - 1];
      items := items[..|items| - 1];
      if items == [] {
        return last;
      }
      top := items[0];
      items := items[0 := last];
      assert items == Shortened(old(items), 0);
      ReplaceAround(old(items), 0);
      SiftUp(0);
    }

    /** Removal from the middle: the last item takes the place of item i, and is
        then moved down and up to where it belongs. */
    method RemoveAt(i: nat)
      requires IsHeap(items) && i < |items|
      modifies this
      ensures items == Removed(old(items), i)
      ensures IsHeap(items) && multiset(items) == old(multiset(items)) - multiset{old(items)[i]}
    {
      RemovedOk(items, i);
      var last := items[|items| - 1];
      items := items[i := last];
      items := items[..|items| - 1];
      if i < |items| {
        ReplaceAround(old(items), i);
        SiftUp(i);
        AllUnderRoot(i);
        SiftDown(0, i);
      }
    }
  }

  /** Putting x in the hole at p changes neither which child is smaller nor, after the
      round, where the hole is. */
  lemma SameChild(v: seq<Item>, items: seq<Item>, p: nat, x: Item)
    requires p < |items| == |v| && v == items[p := x] && 2 * p + 1 < |items|
    ensures Child(v, p) == Child(items, p)
    ensures var c := Child(v, p); Swap(v, p, c) == items[p := items[c]][c := x]
  {
  }

  lemma ButRoot(q: seq<Item>)
    requires HeapBut(q, 0)
    ensures IsHeap(q)
  {
  }

  lemma AppendBut(q: seq<Item>, x: Item)
    requires IsHeap(q)
    ensures HeapBut(q + [x], |q|)
  {
    forall j | 0 <= j < |q| + 1 && j != |q| ensures InOrder(q + [x], j) {
      assert InOrder(q, j);
    }
  }

  lemma TruncateHeap(q: seq<Item>)
    requires IsHeap(q) && |q| > 0
    ensures IsHeap(q[..|q| - 1]) && multiset(q[..|q| - 1]) == multiset(q) - multiset{q[|q| - 1]}
  {
    var r := q[..|q| - 1];
    forall j | 0 <= j < |r| ensures InOrder(r, j) {
      assert InOrder(q, j);
    }
    assert q == q[..|q| - 1] + [q[|q| - 1]];
  }

  lemma ReplaceItems(q: seq<Item>, i: nat)
    requires i < |q|
    ensures multiset(Shortened(q, i)) == multiset(q) - multiset{q[i]}
  {
    var n := |q| - 1;
    assert q == q[..n] + [q[n]];
    if i < n {
      assert q[i := q[n]][..n] == q[..n][i := q[n]];
      var p := q[..n];
      assert multiset(p[i := q[n]]) == multiset(p) - multiset{p[i]} + multiset{q[n]};
      assert multiset(p)[p[i]] >= 1;
    } else {
      assert q[i := q[n]][..n] == q[..n];
    }
  }

  lemma ReplaceAround(q: seq<Item>, i: nat)
    requires IsHeap(q) && i < |q|
    ensures HeapAround(Shortened(q, i), i)
  {
    var r := Shortened(q, i);
    forall j | 0 < j < |r| && j != i && Par(j) != i ensures InOrder(r, j) {
      assert InOrder(q, j);
    }
    forall c | 0 < i < c < |r| && Par(c) == i ensures r[Par(i)].prio <= r[c].prio {
      assert InOrder(q, c) && InOrder(q, i);
    }
  }

  /** The children of p are 2p + 1 and 2p + 2. */
  lemma ChildrenOf(v: seq<Item>, p: nat)
    ensures forall d {:trigger v[d]} :: p < d < |v| && Par(d) == p ==> d == 2 * p + 1 || d == 2 * p + 2
  {
    forall d: nat | p < d < |v| && Par(d) == p ensures d == 2 * p + 1 || d == 2 * p + 2 {
      ChildIs(d, p);
    }
  }

  lemma ChildIs(d: nat, p: nat)
    requires d > 0 && Par(d) == p
    ensures d == 2 * p + 1 || d == 2 * p + 2
  {
    assert d - 1 == 2 * p + (d - 1) % 2;
  }

  /** An item that is in order with its parent leaves a heap. */
  lemma InPlace(v: seq<Item>, p: nat, start: nat)
    requires start < p < |v| && HeapBut(v, p) && v[Par(p)].prio <= v[p].prio
    ensures HeapBut(v, start)
  {
    assert InOrder(v, p);
    forall c | 0 < start < c < |v| && Par(c) == start ensures v[Par(start)].prio <= v[c].prio {
      assert InOrder(v, c) && InOrder(v, start);
    }
  }

  /** At a leaf only the parent can be out of order. */
  lemma LeafAround(v: seq<Item>, p: nat)
    requires p < |v| <= 2 * p + 1 && HeapAround(v, p)
    ensures HeapBut(v, p)
  {
    forall j | 0 <= j < |v| && j != p ensures InOrder(v, j) {
      assert j > 0 ==> Par(j) != p;
    }
  }

  // ------------------------------------------- what a heap means: a sorted list

  /** No two items share a priority. */
  ghost predicate Untied(m: multiset<Item>) {
    && (forall x :: x in m ==> m[x] == 1)
    && (forall x, y :: x in m && y in m && x != y ==> x.prio != y.prio)
  }

  ghost function Sort(q: seq<Item>): seq<Item> {
    if q == [] then [] else Insert(Sort(q[..|q| - 1]), q[|q| - 1])
  }

  lemma {:induction false} SortOk(q: seq<Item>)
    requires Untied(multiset(q))
    ensures Sorted(Sort(q)) && multiset(Sort(q)) == multiset(q)
  {
    if q != [] {
      var p, x := q[..|q| - 1], q[|q| - 1];
      assert q == p + [x];
      UntiedPart(multiset(p), x);
      SortOk(p);
      InsertItems(Sort(p), x);
      forall i | 0 <= i < |Sort(p)| ensures Sort(p)[i].prio != x.prio {
        assert Sort(p)[i] in multiset(p);
      }
      InsertKeepsSorted(Sort(p), x);
    }
  }

  lemma UntiedPart(m: multiset<Item>, x: Item)
    requires Untied(m + multiset{x})
    ensures Untied(m) && x !in m && forall y :: y in m ==> y.prio != x.prio
  {
    var w := m + multiset{x};
    assert w[x] == m[x] + 1 && x in w;
    forall y | y in m ensures m[y] == 1 && y.prio != x.prio {
      assert y in w && x in w;
    }
    forall y, z | y in m && z in m && y != z ensures y.prio != z.prio {
      assert y in w && z in w;
    }
  }

  lemma SortIs(q: seq<Item>, s: seq<Item>)
    requires Untied(multiset(q)) && Sorted(s) && multiset(s) == multiset(q)
    ensures Sort(q) == s
  {
    SortOk(q);
    SortedUnique(Sort(q), s);
  }

  /** The root of a heap is the head of the sorted list. */
  lemma RootIsHead(q: seq<Item>)
    requires IsHeap(q) && |q| > 0 && Untied(multiset(q))
    ensures |Sort(q)| > 0 && Sort(q)[0] == q[0]
  {
    SortOk(q);
    SameSize(q, Sort(q));
    var h := Sort(q)[0];
    assert h in q;
    var j :| 0 <= j < |q| && q[j] == h;
    RootIsLeast(q, j);
    HeadIsLeast(Sort(q), q[0]);
  }

  lemma HeadIsLeast(s: seq<Item>, x: Item)
    requires Sorted(s) && x in s && x.prio <= s[0].prio
    ensures x == s[0]
  {
    var i :| 0 <= i < |s| && s[i] == x;
  }

  /** A new priority causes no tie. */
  ghost predicate Fresh(q: seq<Item>, prio: int) {
    forall x :: x in q ==> x.prio != prio
  }

  /** The message is queued at most once. */
  ghost predicate Once(q: seq<Item>, id: Id) {
    forall x, y :: x in q && y in q && x.id == id && y.id == id ==> x == y
  }

  /** Of the message's entries the first in the list has the least priority. */
  ghost predicate LeastFirst(q: seq<Item>, id: Id) {
    forall x :: x in q && x.id == id ==> Find(q, id) < |q| && q[Find(q, id)].prio <= x.prio
  }

  lemma OnceIsLeast(q: seq<Item>, id: Id)
    requires Once(q, id)
    ensures LeastFirst(q, id)
  {
    if Find(q, id) < |q| {
      assert q[Find(q, id)] in q;
    }
  }

  lemma FreshUntied(q: seq<Item>, x: Item)
    requires Untied(multiset(q)) && Fresh(q, x.prio)
    ensures Untied(multiset(q) + multiset{x})
  {
    assert x !in q;
  }

  lemma PushSorts(q: seq<Item>, x: Item, r: seq<Item>)
    requires Untied(multiset(q)) && Fresh(q, x.prio) && multiset(r) == multiset(q) + multiset{x}
    ensures Untied(multiset(r)) && Sort(r) == Insert(Sort(q), x)
  {
    FreshUntied(q, x);
    SortOk(q);
    InsertItems(Sort(q), x);
    SameSize(q, Sort(q));
    InsertKeepsSorted(Sort(q), x);
    SortIs(r, Insert(Sort(q), x));
  }

  lemma RemoveUntied(m: multiset<Item>, x: Item)
    requires Untied(m)
    ensures Untied(m - multiset{x})
  {
    var w := m - multiset{x};
    assert forall y :: y in w ==> y in m && w[y] <= m[y];
  }

  /** The list without the first occurrence of x. */
  function Dropped(s: seq<Item>, x: Item): seq<Item> {
    if s == [] then [] else if s[0] == x then s[1..] else [s[0]] + Dropped(s[1..], x)
  }

  lemma {:induction false} DroppedAt(s: seq<Item>, k: nat)
    requires Sorted(s) && k < |s|
    ensures Dropped(s, s[k]) == IsisQueue.RemoveAt(s, k)
  {
    if k > 0 {
      assert s[0] != s[k];
      DroppedAt(s[1..], k - 1);
    }
  }

  /** Taking an item out of the heap takes it out of the sorted list. */
  lemma RemoveSorts(q: seq<Item>, i: nat, r: seq<Item>)
    requires Untied(multiset(q)) && i < |q| && multiset(r) == multiset(q) - multiset{q[i]}
    ensures Untied(multiset(r)) && Sort(r) == Dropped(Sort(q), q[i])
  {
    var s := Sort(q);
    SortOk(q);
    SameSize(q, s);
    RemoveUntied(multiset(q), q[i]);
    assert q[i] in s;
    var k :| 0 <= k < |s| && s[k] == q[i];
    DroppedAt(s, k);
    RemoveItems(s, k);
    RemoveKeepsSorted(s, k);
    SortIs(r, IsisQueue.RemoveAt(s, k));
  }

  /** The list's find meets the entry of least priority. */
  lemma FoundIsLeast(q: seq<Item>, id: Id, x: Item)
    requires Untied(multiset(q)) && x in q && x.id == id
    ensures var s := Sort(q); var k := Find(s, id);
            k < |s| && s[k] in q && s[k].prio <= x.prio && Dropped(s, s[k]) == IsisQueue.RemoveAt(s, k)
  {
    var s := Sort(q);
    SortOk(q);
    SameSize(q, s);
    var k := Find(s, id);
    var j :| 0 <= j < |s| && s[j] == x;
    assert s[k] in s;
    DroppedAt(s, k);
  }

  /** Equal priorities, equal items. */
  lemma SamePrio(q: seq<Item>, x: Item, y: Item)
    requires Untied(multiset(q)) && x in q && y in q && x.prio == y.prio
    ensures x == y
  {
    assert x in multiset(q) && y in multiset(q);
  }

  /** The heap's scan and the list's find take out the same item exactly if the first
      entry in the heap's list is the one of least priority. */
  lemma SameFoundIff(q: seq<Item>, id: Id)
    requires Untied(multiset(q)) && Find(q, id) < |q|
    ensures var i, k := Find(q, id), Find(Sort(q), id);
            && k < |Sort(q)| && Sort(q)[k] in q
            && (LeastFirst(q, id) <==> Sort(q)[k] == q[i])
            && Dropped(Sort(q), Sort(q)[k]) == IsisQueue.RemoveAt(Sort(q), k)
  {
    var s, i := Sort(q), Find(q, id);
    FoundIsLeast(q, id, q[i]);
    var k := Find(s, id);
    if LeastFirst(q, id) {
      SamePrio(q, s[k], q[i]);
    }
    if s[k] == q[i] {
      forall x | x in q && x.id == id ensures q[i].prio <= x.prio {
        FoundIsLeast(q, id, x);
      }
    }
  }

  lemma PopSorts(q: seq<Item>, r: seq<Item>)
    requires IsHeap(q) && |q| > 0 && Untied(multiset(q)) && multiset(r) == multiset(q) - multiset{q[0]}
    ensures |Sort(q)| > 0 && Sort(q)[0] == q[0] && Untied(multiset(r)) && Sort(r) == Sort(q)[1..]
  {
    RootIsHead(q);
    SortOk(q);
    RemoveUntied(multiset(q), q[0]);
    TailItems(Sort(q));
    SortIs(r, Sort(q)[1..]);
  }

  // ----------------------------------------------------------- the ISIS object

  /** The object of mp1/isis.py and mp1/isis_new.py.  Two entries of equal priority make
      the program compare message objects, which raises; so no method may meet a tie. */
  class HeapIsis {
    const node: nat
    const rule: Rule
    var proSeq: int
    var agrSeq: int
    const queue: Heap

    ghost predicate Valid()
      reads this, queue
    {
      IsHeap(queue.items) && Untied(multiset(queue.items))
    }

    /** The state as the sorted list has it. */
    ghost function State(): Holdback
      reads this, queue
    {
      Holdback(node, proSeq, agrSeq, Sort(queue.items))
    }

    function AsIs(): Raw
      reads this, queue
    {
      Raw(proSeq, agrSeq, queue.items)
    }

    constructor (node: nat, rule: Rule)
      ensures Valid() && fresh(queue) && this.rule == rule
      ensures State() == Holdback(node, node, node, []) && queue.items == []
    {
      this.node, this.rule := node, rule;
      proSeq, agrSeq := node, node;
      queue := new Heap;
      new;
      queue.items := [];
    }

    method ProposeSeq(id: Id, tx: Tx) returns (prio: int)
      requires Valid() && Fresh(queue.items, NextPriority(rule, node, Max(proSeq, agrSeq)))
      modifies this, queue
      ensures Valid() && (State(), prio) == IsisQueue.ProposeSeq(rule, old(State()), id, tx)
      ensures agrSeq == old(agrSeq) && queue.items == Pushed(old(queue.items), Item(prio, id, false, tx))
    {
      proSeq := NextPriority(rule, node, Max(proSeq, agrSeq));
      var x := Item(proSeq, id, false, tx);
      queue.Push(x);
      PushSorts(old(queue.items), x, queue.items);
      prio := proSeq;
    }

    method DecideSeq(ps: seq<int>) returns (prio: int)
      requires Valid() && |ps| > 0
      modifies this`agrSeq
      ensures Valid() && (State(), prio) == IsisQueue.DecideSeq(old(State()), ps)
      ensures agrSeq == Max(old(agrSeq), prio)
    {
      prio := L.Largest(ps);
      agrSeq := Max(agrSeq, prio);
    }

    method FindItem(id: Id) returns (i: nat)
      ensures i == Find(queue.items, id)
    {
      i := 0;
      while i < |queue.items| && queue.items[i].id != id
        invariant 0 <= i <= |queue.items|
        invariant forall j :: 0 <= j < i ==> queue.items[j].id != id
      {
        i := i + 1;
      }
      FindIs(queue.items, id, i);
    }

    /** Gives the first entry of the message, in the order of the heap's list, its
        agreed priority. */
    method SettleItem(id: Id, prio: int, tx: Tx)
      requires Valid() && NewPriority(queue.items, id, prio)
      modifies queue
      ensures Valid() && queue.items == Resettled(old(queue.items), id, prio, tx)
      ensures Sort(queue.items) == Settle(old(Sort(queue.items)), id, prio, tx) <==> old(LeastFirst(queue.items, id))
    {
      var i := FindItem(id);
      ghost var q := queue.items;
      if i < |queue.items| {
        queue.RemoveAt(i);
        ghost var r := queue.items;
        RestFresh(q, i, r, prio);
        queue.Push(Item(prio, id, true, tx));
        SettleSortsIff(q, id, r, Item(prio, id, true, tx), queue.items);
      } else {
        SettleMissing(q, id, prio, tx);
      }
    }

    /** Pops the root while it is deliverable. */
    method PopReady() returns (out: seq<Item>)
      requires Valid()
      modifies queue
      ensures Valid() && (out, queue.items) == Drained(old(queue.items))
      ensures var s := old(Sort(queue.items));
              out == s[..Ready(s)] && Sort(queue.items) == s[Ready(s)..]
    {
      DrainedOk(queue.items);
      out := [];
      assert [] + Drained(queue.items).0 == Drained(queue.items).0;
      while queue.items != [] && queue.items[0].deliverable
        invariant IsHeap(queue.items) && Drained(old(queue.items)) == Before(out, Drained(queue.items))
        decreases |queue.items|
      {
        DrainedStep(out, queue.items);
        var top := queue.Pop();
        out := out + [top];
      }
      assert out + [] == out;
    }

    method DeliverMsg(id: Id, prio: int, tx: Tx) returns (out: seq<Item>)
      requires Valid() && NewPriority(queue.items, id, prio)
      modifies queue
      ensures Valid() && (out, queue.items) == Drained(Resettled(old(queue.items), id, prio, tx))
      ensures (State(), out) == IsisQueue.DeliverMsg(old(State()), id, prio, tx) <==> old(LeastFirst(queue.items, id))
    {
      SettleItem(id, prio, tx);
      ghost var s := Sort(queue.items);
      out := PopReady();
      SplitAgain(s, Ready(s), Settle(old(Sort(queue.items)), id, prio, tx));
    }
  }

  /** The list of the heap once the message has its agreed priority. */
  function Resettled(q: seq<Item>, id: Id, prio: int, tx: Tx): seq<Item> {
    var i := Find(q, id);
    if i < |q| then Pushed(Removed(q, i), Item(prio, id, true, tx)) else q
  }

  /** What is popped while the root is deliverable, and what is left. */
  function Drained(q: seq<Item>): (seq<Item>, seq<Item>)
    decreases |q|
  {
    if q != [] && q[0].deliverable then Before([q[0]], Drained(Popped(q))) else ([], q)
  }

  function Before(out: seq<Item>, r: (seq<Item>, seq<Item>)): (seq<Item>, seq<Item>) { (out + r.0, r.1) }

  lemma DrainedStep(out: seq<Item>, q: seq<Item>)
    requires q != [] && q[0].deliverable
    ensures Before(out, Drained(q)) == Before(out + [q[0]], Drained(Popped(q)))
  {
    BeforeJoins(out, q[0], Drained(Popped(q)));
  }

  lemma BeforeJoins(out: seq<Item>, x: Item, r: (seq<Item>, seq<Item>))
    ensures Before(out, Before([x], r)) == Before(out + [x], r)
  {
    assert out + ([x] + r.0) == out + [x] + r.0;
  }

  /** The agreed priority is that of no entry but the one it replaces. */
  ghost predicate NewPriority(q: seq<Item>, id: Id, prio: int) {
    Find(q, id) < |q| ==> forall k :: 0 <= k < |q| && k != Find(q, id) ==> q[k].prio != prio
  }

  lemma RestFresh(q: seq<Item>, i: nat, r: seq<Item>, prio: int)
    requires Untied(multiset(q)) && i < |q| && multiset(r) == multiset(q) - multiset{q[i]}
    requires forall k :: 0 <= k < |q| && k != i ==> q[k].prio != prio
    ensures Fresh(r, prio)
  {
    forall x | x in r ensures x.prio != prio {
      assert x in multiset(r) && x in multiset(q) && q[i] in multiset(q);
      assert multiset(r)[q[i]] == 0;
      var k :| 0 <= k < |q| && q[k] == x;
    }
  }

  /** Taking another item out leaves other items, whatever is then put in. */
  lemma OtherItems(m: multiset<Item>, a: Item, b: Item, x: Item)
    requires Untied(m) && a in m && b in m && a != b
    ensures m - multiset{a} + multiset{x} != m - multiset{b} + multiset{x}
  {
    var u, v := m - multiset{a} + multiset{x}, m - multiset{b} + multiset{x};
    assert u[a] + 1 == v[a];
  }

  /** Taking the found item out and putting the settled one in does to the sorted list
      what the list does exactly if the found entry is the message's least. */
  lemma SettleSortsIff(q: seq<Item>, id: Id, r: seq<Item>, x: Item, q': seq<Item>)
    requires Untied(multiset(q)) && Find(q, id) < |q| && multiset(r) == multiset(q) - multiset{q[Find(q, id)]}
    requires Fresh(r, x.prio) && multiset(q') == multiset(r) + multiset{x} && x.id == id && x.deliverable
    ensures Untied(multiset(q'))
    ensures Sort(q') == Settle(Sort(q), id, x.prio, x.tx) <==> LeastFirst(q, id)
  {
    var s, i := Sort(q), Find(q, id);
    RemoveSorts(q, i, r);
    PushSorts(r, x, q');
    SameFoundIff(q, id);
    var k := Find(s, id);
    if s[k] != q[i] {
      SortOk(q);
      SortOk(q');
      RemoveItems(s, k);
      InsertItems(IsisQueue.RemoveAt(s, k), x);
      OtherItems(multiset(q), q[i], s[k], x);
    }
  }

  lemma SettleMissing(q: seq<Item>, id: Id, prio: int, tx: Tx)
    requires Untied(multiset(q)) && Find(q, id) == |q|
    ensures Sort(q) == Settle(Sort(q), id, prio, tx) && LeastFirst(q, id)
  {
    SortHasSame(q);
    assert forall x :: x in q ==> x.id != id;
    assert forall x :: x in Sort(q) ==> x.id != id;
  }

  /** What is drained is the deliverable front of the sorted list. */
  lemma {:induction false} DrainedOk(q: seq<Item>)
    requires IsHeap(q) && Untied(multiset(q))
    ensures var (out, rest), s := Drained(q), Sort(q);
            && IsHeap(rest) && Untied(multiset(rest))
            && out == s[..Ready(s)] && Sort(rest) == s[Ready(s)..]
    decreases |q|
  {
    if q != [] {
      RootIsHead(q);
      if q[0].deliverable {
        PoppedOk(q);
        PopSorts(q, Popped(q));
        DrainedOk(Popped(q));
        ReadyTail(Sort(q));
      }
    }
  }

  lemma ReadyTail(s: seq<Item>)
    requires |s| > 0 && s[0].deliverable
    ensures Ready(s) == 1 + Ready(s[1..])
    ensures s[..Ready(s)] == [s[0]] + s[1..][..Ready(s[1..])] && s[Ready(s)..] == s[1..][Ready(s[1..])..]
  {
  }

  /** What goes out and what stays make up the whole list. */
  lemma SplitAgain(s: seq<Item>, k: nat, t: seq<Item>)
    requires k == Ready(s)
    ensures s[..k] == t[..Ready(t)] && s[k..] == t[Ready(t)..] <==> s == t
  {
    assert s == s[..k] + s[k..] && t == t[..Ready(t)] + t[Ready(t)..];
  }

  // ----------------------------------------------- heap and list, in lockstep

  datatype Op =
    | Propose(id: Id, tx: Tx)
    | Decide(ps: seq<int>)
    | Deliver(id: Id, prio: int, tx: Tx)

  /** The state the list reaches by an operation. */
  function Do(h: Holdback, op: Op): Holdback {
    match op
    case Propose(id, tx) => IsisQueue.ProposeSeq(Plain, h, id, tx).0
    case Decide(ps) => if |ps| > 0 then IsisQueue.DecideSeq(h, ps).0 else h
    case Deliver(id, prio, tx) => IsisQueue.DeliverMsg(h, id, prio, tx).0
  }

  /** One answer: a priority or a sequence of delivered messages. */
  datatype Answer = Priority(prio: int) | Delivered(items: seq<Item>)

  method ListAnswer(a: L.SortedIsis, op: Op) returns (r: Answer)
    requires a.Valid() && (op.Decide? ==> |op.ps| > 0)
    modifies a
    ensures a.Valid() && a.State() == Do(old(a.State()), op)
    ensures r == AnswerOf(old(a.State()), op)
  {
    match op
    case Propose(id, tx) =>
      var p := a.ProposeSeq(id, tx);
      r := Priority(p);
    case Decide(ps) =>
      var p := a.DecideSeq(ps);
      r := Priority(p);
    case Deliver(id, prio, tx) =>
      var out := a.DeliverMsg(id, prio, tx);
      r := Delivered(out);
  }

  function AnswerOf(h: Holdback, op: Op): Answer
    requires op.Decide? ==> |op.ps| > 0
  {
    match op
    case Propose(id, tx) => Priority(IsisQueue.ProposeSeq(Plain, h, id, tx).1)
    case Decide(ps) => Priority(IsisQueue.DecideSeq(h, ps).1)
    case Deliver(id, prio, tx) => Delivered(IsisQueue.DeliverMsg(h, id, prio, tx).1)
  }

  lemma SortHasSame(q: seq<Item>)
    requires Untied(multiset(q))
    ensures forall x :: x in q <==> x in Sort(q)
  {
    SortOk(q);
    SameSize(q, Sort(q));
  }

  /** Two entries at different places of a heap have different priorities. */
  lemma Apart(q: seq<Item>, i: nat, k: nat)
    requires Untied(multiset(q)) && i < k < |q|
    ensures q[i].prio != q[k].prio
  {
    assert q == q[..k] + [q[k]] + q[k + 1..];
    assert q[i] == q[..k][i] && q[i] in multiset(q[..k]);
    assert q[k] in multiset(q);
  }

  lemma NoTiesInHeap(q: seq<Item>, id: Id, prio: int)
    requires Untied(multiset(q)) && Once(Sort(q), id) && forall x :: x in Sort(q) ==> x.prio != prio || x.id == id
    ensures NewPriority(q, id, prio) && Once(q, id)
  {
    SortHasSame(q);
    var i := Find(q, id);
    if i < |q| {
      forall k | 0 <= k < |q| && k != i ensures q[k].prio != prio {
        assert q[k] in q && q[i] in q;
        Apart(q, if i < k then i else k, if i < k then k else i);
      }
    }
  }

  /** The heap-backed object as it is: its list is not in order. */
  datatype Raw = Raw(proSeq: int, agrSeq: int, items: seq<Item>)

  function HeapDo(h: Raw, node: nat, op: Op): (Raw, Answer)
    requires op.Decide? ==> |op.ps| > 0
  {
    match op
    case Propose(id, tx) =>
      var p := NextPriority(Plain, node, Max(h.proSeq, h.agrSeq));
      (Raw(p, h.agrSeq, Pushed(h.items, Item(p, id, false, tx))), Priority(p))
    case Decide(ps) => (h.(agrSeq := Max(h.agrSeq, MaxOf(ps))), Priority(MaxOf(ps)))
    case Deliver(id, prio, tx) =>
      var (out, rest) := Drained(Resettled(h.items, id, prio, tx));
      (h.(items := rest), Delivered(out))
  }

  /** No two priorities of the heap would be equal. */
  ghost predicate NoEqual(h: Raw, node: nat, op: Op) {
    match op
    case Propose(_, _) => Fresh(h.items, NextPriority(Plain, node, Max(h.proSeq, h.agrSeq)))
    case Decide(ps) => |ps| > 0
    case Deliver(id, prio, _) => NewPriority(h.items, id, prio)
  }

  method HeapAnswer(b: HeapIsis, op: Op) returns (r: Answer)
    requires b.Valid() && b.rule == Plain && NoEqual(b.AsIs(), b.node, op)
    modifies b, b.queue
    ensures b.Valid() && (b.AsIs(), r) == HeapDo(old(b.AsIs()), b.node, op)
    ensures (op.Deliver? ==> old(LeastFirst(b.queue.items, op.id))) <==>
              b.State() == Do(old(b.State()), op) && r == AnswerOf(old(b.State()), op)
  {
    match op
    case Propose(id, tx) =>
      var p := b.ProposeSeq(id, tx);
      r := Priority(p);
    case Decide(ps) =>
      var p := b.DecideSeq(ps);
      r := Priority(p);
    case Deliver(id, prio, tx) =>
      var out := b.DeliverMsg(id, prio, tx);
      r := Delivered(out);
  }

  /** The call settles, if anything, the least entry of a message. */
  ghost predicate SettlesLeast(h: Raw, op: Op) {
    op.Deliver? ==> LeastFirst(h.items, op.id)
  }

  /** No call brings an equal priority into the heap. */
  ghost predicate TieFree(h: Raw, node: nat, ops: seq<Op>)
    decreases |ops|
  {
    ops == [] || (NoEqual(h, node, ops[0]) && TieFree(HeapDo(h, node, ops[0]).0, node, ops[1..]))
  }

  /** And each settles the least entry of its message. */
  ghost predicate AlwaysLeast(h: Raw, node: nat, ops: seq<Op>)
    requires TieFree(h, node, ops)
    decreases |ops|
  {
    ops == [] || (SettlesLeast(h, ops[0]) && AlwaysLeast(HeapDo(h, node, ops[0]).0, node, ops[1..]))
  }

  ghost function Image(h: Raw, node: nat): Holdback {
    Holdback(node, h.proSeq, h.agrSeq, Sort(h.items))
  }

  /** The heap stays the image of the list, and answers alike, call after call. */
  ghost predicate Together(h: Raw, node: nat, l: Holdback, ops: seq<Op>)
    requires TieFree(h, node, ops)
    decreases |ops|
  {
    && Image(h, node) == l
    && (ops == [] ||
        var (h', answer) := HeapDo(h, node, ops[0]);
        answer == AnswerOf(l, ops[0]) && Together(h', node, Do(l, ops[0]), ops[1..]))
  }

  ghost predicate HeapOk(h: Raw) {
    IsHeap(h.items) && Untied(multiset(h.items))
  }

  lemma ResettledIff(q: seq<Item>, id: Id, prio: int, tx: Tx)
    requires IsHeap(q) && Untied(multiset(q)) && NewPriority(q, id, prio)
    ensures var q' := Resettled(q, id, prio, tx);
            && IsHeap(q') && Untied(multiset(q'))
            && (Sort(q') == Settle(Sort(q), id, prio, tx) <==> LeastFirst(q, id))
  {
    var i, x := Find(q, id), Item(prio, id, true, tx);
    if i < |q| {
      var r := Removed(q, i);
      RemovedOk(q, i);
      RestFresh(q, i, r, prio);
      PushedOk(r, x);
      SettleSortsIff(q, id, r, x, Pushed(r, x));
    } else {
      SettleMissing(q, id, prio, tx);
    }
  }

  /** One call on the heap is one call on the list exactly if it settles the least entry. */
  lemma CallIff(h: Raw, node: nat, op: Op)
    requires HeapOk(h) && NoEqual(h, node, op)
    ensures var (h', answer), l := HeapDo(h, node, op), Image(h, node);
            && HeapOk(h')
            && (SettlesLeast(h, op) <==> Image(h', node) == Do(l, op) && answer == AnswerOf(l, op))
  {
    match op
    case Propose(id, tx) =>
      var x := Item(NextPriority(Plain, node, Max(h.proSeq, h.agrSeq)), id, false, tx);
      PushedOk(h.items, x);
      PushSorts(h.items, x, Pushed(h.items, x));
    case Decide(_) =>
    case Deliver(id, prio, tx) =>
      var q := Resettled(h.items, id, prio, tx);
      ResettledIff(h.items, id, prio, tx);
      DrainedOk(q);
      SplitAgain(Sort(q), Ready(Sort(q)), Settle(Sort(h.items), id, prio, tx));
  }

  /** Over any sequence of calls without equal priorities, heap and list stay together
      and answer alike, call after call, if and only if every agreement settles the entry
      of least priority among those the message has in the heap. */
  lemma {:induction false} LockstepIff(h: Raw, node: nat, ops: seq<Op>)
    requires HeapOk(h) && TieFree(h, node, ops)
    ensures Together(h, node, Image(h, node), ops) <==> AlwaysLeast(h, node, ops)
    decreases |ops|
  {
    if ops != [] {
      CallIff(h, node, ops[0]);
      LockstepIff(HeapDo(h, node, ops[0]).0, node, ops[1..]);
    }
  }

  /** The two objects, driven by the same calls under that condition. */
  method Lockstep(a: L.SortedIsis, b: HeapIsis, ops: seq<Op>) returns (fromList: seq<Answer>, fromHeap: seq<Answer>)
    requires a.Valid() && b.Valid() && b.rule == Plain && a.State() == b.State()
    requires TieFree(b.AsIs(), b.node, ops) && AlwaysLeast(b.AsIs(), b.node, ops)
    modifies a, b, b.queue
    ensures fromList == fromHeap && |fromList| == |ops| && a.State() == b.State()
  {
    fromList, fromHeap := [], [];
    for i := 0 to |ops|
      invariant a.Valid() && b.Valid() && a.State() == b.State()
      invariant TieFree(b.AsIs(), b.node, ops[i..]) && AlwaysLeast(b.AsIs(), b.node, ops[i..])
      invariant fromList == fromHeap && |fromList| == i
    {
      assert ops[i..][0] == ops[i] && ops[i..][1..] == ops[i + 1..];
      var x := ListAnswer(a, ops[i]);
      var y := HeapAnswer(b, ops[i]);
      fromList, fromHeap := fromList + [x], fromHeap + [y];
    }
  }
}
