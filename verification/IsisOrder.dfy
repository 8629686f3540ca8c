/** Total order and causality: what the ISIS multicast is for. */
module IsisOrder {
  import opened IsisQueue
  import opened IsisSystem
  import opened IsisInvariant
  import opened IsisSteps
  import opened IsisNodes
  import opened IsisRuns
  import Quorums

  // --------------------------------------------------- what grows along a run

  ghost predicate NodeGrows(a: Node, b: Node) {
    a.delivered <= b.delivered && a.received <= b.received && a.agreed <= b.agreed
  }

  lemma StepGrows(s: System, a: Action, s': System, v: nat)
    requires Step(s, a, s') && v < |s.nodes|
    ensures |s'.nodes| == |s.nodes| && NodeGrows(s.nodes[v], s'.nodes[v])
  {
  }

  lemma {:induction false} RunSize(r: Run, n: nat, k: nat)
    requires IsRun(r, n) && k <= |r.actions|
    ensures |r.states[k].nodes| == n
  {
    if k > 0 {
      RunSize(r, n, k - 1);
      assert StepOf(r, k - 1);
    }
  }

  /** A delivery is never taken back. */
  lemma {:induction false} DeliveredGrows(r: Run, n: nat, v: nat, j: nat, k: nat)
    requires IsRun(r, n) && v < n && j <= k <= |r.actions|
    ensures |r.states[j].nodes| == |r.states[k].nodes| == n
    ensures NodeGrows(r.states[j].nodes[v], r.states[k].nodes[v])
    decreases k
  {
    RunSize(r, n, j);
    RunSize(r, n, k);
    if j < k {
      DeliveredGrows(r, n, v, j, k - 1);
      assert StepOf(r, k - 1);
      StepGrows(r.states[k - 1], r.actions[k - 1], r.states[k], v);
    }
  }

  // ------------------------------------------------------- two nodes, one time

  /** The agreed item of a decided message. */
  function Agreed(h: History, id: Id): Item
    requires id in h.decided && id in h.sent
  {
    Item(h.decided[id], id, true, h.sent[id].tx)
  }

  lemma DeliveredIs(v: nat, nd: Node, h: History, x: Item)
    requires v < |h.order| && NodeOk(v, nd, h) && x in nd.delivered
    ensures x.id in h.decided && x.id in h.sent && x == Agreed(h, x.id)
  {
    assert ItemOk(x, v, nd, h);
  }

  /** A message waiting in a queue waits with at most its agreed priority. */
  lemma QueuedAtMost(v: nat, nd: Node, h: History, x: Item)
    requires v < |h.order| && NodeOk(v, nd, h) && x in nd.hold.queue
    requires x.id in h.decided && DecisionOk(h, x.id)
    ensures x.prio <= h.decided[x.id]
  {
    assert ItemOk(x, v, nd, h);
    if !x.deliverable {
      OwnAtMost(v, h, x.prio, x.id);
    }
  }

  /** A node that delivered x has delivered every message agreed at most that late. */
  lemma DownClosed(v: nat, nd: Node, h: History, x: Item, id: Id)
    requires v < |h.order| && NodeOk(v, nd, h) && x in nd.delivered
    requires id in h.decided && DecisionOk(h, id) && h.decided[id] <= x.prio
    ensures Agreed(h, id) in nd.delivered
  {
    assert ProposedAtMost(h, v, id, h.decided[id]);
    assert id in nd.received;
    if HasItem(nd.delivered, id) {
      var y :| y in nd.delivered && y.id == id;
      DeliveredIs(v, nd, h, y);
    } else {
      assert HasItem(nd.hold.queue, id);
      var y :| y in nd.hold.queue && y.id == id;
      QueuedAtMost(v, nd, h, y);
      assert false;
    }
  }

  /** a holds everything in b that is not beyond an element of a. */
  ghost predicate Covers(a: seq<Item>, b: seq<Item>) {
    forall x, y :: x in a && y in b && y.prio <= x.prio ==> y in a
  }

  lemma SamePlace(a: seq<Item>, b: seq<Item>, k: nat)
    requires Sorted(a) && Sorted(b) && k < |a| && k < |b| && a[..k] == b[..k]
    requires b[k].prio <= a[k].prio && b[k] in a
    ensures a[k] == b[k]
  {
    forall q | 0 <= q < k ensures a[q] == b[q] {
      assert a[..k][q] == b[..k][q];
    }
    var i :| 0 <= i < |a| && a[i] == b[k];
  }

  /** Two sorted lists that cover one another are prefixes of one another. */
  lemma {:induction false} SortedPrefixes(a: seq<Item>, b: seq<Item>, k: nat)
    requires Sorted(a) && Sorted(b) && k <= |a| <= |b| && Covers(a, b) && Covers(b, a)
    ensures a[..k] == b[..k]
  {
    if k > 0 {
      SortedPrefixes(a, b, k - 1);
      var x, y := a[k - 1], b[k - 1];
      if y.prio <= x.prio {
        SamePlace(a, b, k - 1);
      } else {
        SamePlace(b, a, k - 1);
      }
    }
  }

  ghost predicate Comparable(a: seq<Item>, b: seq<Item>) {
    a <= b || b <= a
  }

  lemma AgreeingNodes(s: System, h: History, n: nat, v: nat, w: nat)
    requires Inv(s, h, n) && v < n && w < n
    ensures Comparable(s.nodes[v].delivered, s.nodes[w].delivered)
  {
    var a, b := s.nodes[v].delivered, s.nodes[w].delivered;
    CrossClosed(s, h, n, v, w);
    CrossClosed(s, h, n, w, v);
    assert NodeOk(v, s.nodes[v], h) && NodeOk(w, s.nodes[w], h);
    if |a| <= |b| {
      SortedPrefixes(a, b, |a|);
    } else {
      SortedPrefixes(b, a, |b|);
    }
  }

  lemma CrossClosed(s: System, h: History, n: nat, v: nat, w: nat)
    requires Inv(s, h, n) && v < n && w < n
    ensures Covers(s.nodes[v].delivered, s.nodes[w].delivered)
  {
    assert NodeOk(v, s.nodes[v], h) && NodeOk(w, s.nodes[w], h);
    forall x, y | x in s.nodes[v].delivered && y in s.nodes[w].delivered && y.prio <= x.prio
      ensures y in s.nodes[v].delivered
    {
      DeliveredIs(w, s.nodes[w], h, y);
      assert DecisionOk(h, y.id);
      DownClosed(v, s.nodes[v], h, x, y.id);
    }
  }

  lemma PrefixesCompare(a: seq<Item>, a': seq<Item>, b: seq<Item>, b': seq<Item>)
    requires a <= a' && b <= b' && Comparable(a', b')
    ensures Comparable(a, b)
  {
    var c := if a' <= b' then b' else a';
    assert a <= c && b <= c;
    if |a| <= |b| {
      assert a == c[..|a|] && b == c[..|b|];
      assert a == b[..|a|];
    } else {
      assert a == c[..|a|] && b == c[..|b|];
      assert b == a[..|b|];
    }
  }

  // ---------------------------------------------------------------- theorems

  /** Total order: whatever two nodes have delivered, at any two moments of a run,
      one sequence is a prefix of the other. */
  lemma TotalOrder(r: Run, n: nat, v: nat, j: nat, w: nat, k: nat)
    requires IsRun(r, n) && n <= 10 && FreshIds(r) && v < n && w < n
    requires j <= |r.actions| && k <= |r.actions|
    ensures |r.states[j].nodes| == |r.states[k].nodes| == n
    ensures Comparable(r.states[j].nodes[v].delivered, r.states[k].nodes[w].delivered)
  {
    var m := if j <= k then k else j;
    RunKeeps(r, n, m);
    DeliveredGrows(r, n, v, j, m);
    DeliveredGrows(r, n, w, k, m);
    AgreeingNodes(r.states[m], HistoryAt(r, n, m), n, v, w);
    PrefixesCompare(r.states[j].nodes[v].delivered, r.states[m].nodes[v].delivered,
                    r.states[k].nodes[w].delivered, r.states[m].nodes[w].delivered);
  }

  /** The messages sent before step k. */
  ghost predicate SentBefore(r: Run, k: nat, id: Id, tx: Tx) {
    exists j :: 0 <= j < k <= |r.actions| && r.actions[j].Send? && r.actions[j].id == id && r.actions[j].tx == tx
  }

  lemma {:induction false} SentTx(r: Run, n: nat, k: nat, id: Id)
    requires k <= |r.actions| < |r.states| && id in HistoryAt(r, n, k).sent
    ensures SentBefore(r, k, id, HistoryAt(r, n, k).sent[id].tx)
  {
    if k > 0 {
      var a := r.actions[k - 1];
      if a.Send? && a.id == id {
      } else {
        SentTx(r, n, k - 1, id);
      }
    }
  }

  /** Deliveries follow strictly increasing agreed priority; only messages that were
      sent are delivered, unaltered and at most once. */
  lemma DeliveryIntegrity(r: Run, n: nat, v: nat, k: nat)
    requires IsRun(r, n) && n <= 10 && FreshIds(r) && v < n && k <= |r.actions|
    ensures |r.states[k].nodes| == n
    ensures var d := r.states[k].nodes[v].delivered;
            && (forall i, j :: 0 <= i < j < |d| ==> d[i].prio < d[j].prio && d[i].id != d[j].id)
            && (forall i :: 0 <= i < |d| ==> SentBefore(r, k, d[i].id, d[i].tx))
  {
    RunKeeps(r, n, k);
    var s, h := r.states[k], HistoryAt(r, n, k);
    var d := s.nodes[v].delivered;
    assert NodeOk(v, s.nodes[v], h);
    forall i | 0 <= i < |d|
      ensures d[i].id in h.decided && d[i].prio == h.decided[d[i].id] && SentBefore(r, k, d[i].id, d[i].tx)
    {
      DeliveredIs(v, s.nodes[v], h, d[i]);
      SentTx(r, n, k, d[i].id);
    }
  }

  /** Two nodes deliver a message with the same, agreed, priority. */
  lemma SamePriority(r: Run, n: nat, v: nat, w: nat, k: nat, x: Item, y: Item)
    requires IsRun(r, n) && n <= 10 && FreshIds(r) && v < n && w < n && k <= |r.actions| && |r.states[k].nodes| == n
    requires x in r.states[k].nodes[v].delivered && y in r.states[k].nodes[w].delivered && x.id == y.id
    ensures x == y
  {
    RunKeeps(r, n, k);
    var s, h := r.states[k], HistoryAt(r, n, k);
    assert NodeOk(v, s.nodes[v], h) && NodeOk(w, s.nodes[w], h);
    DeliveredIs(v, s.nodes[v], h, x);
    DeliveredIs(w, s.nodes[w], h, y);
  }

  /** No two entries of a queue share a priority, so a heap never has to compare the
      messages themselves; and the integer part of a node's last proposal is the
      number of messages it has received. */
  lemma UniquePriorities(r: Run, n: nat, v: nat, k: nat)
    requires IsRun(r, n) && n <= 10 && FreshIds(r) && v < n && k <= |r.actions|
    ensures |r.states[k].nodes| == n
    ensures var hold := r.states[k].nodes[v].hold;
            && (forall i, j :: 0 <= i < j < |hold.queue| ==> hold.queue[i].prio < hold.queue[j].prio)
            && hold.proSeq / 10 == |r.states[k].nodes[v].received|
  {
    RunKeeps(r, n, k);
    var s, h := r.states[k], HistoryAt(r, n, k);
    assert NodeOk(v, s.nodes[v], h);
    DistinctSize(h.order[v]);
  }

  ghost predicate SameNode(v: nat, w: nat, a: nat, b: nat) {
    NextPriority(Floored, v, a) == NextPriority(Floored, w, b) ==> v == w
  }

  /** Node ids keep priorities apart exactly as long as there are at most ten. */
  lemma TenNodes(n: nat)
    ensures n <= 10 <==> forall v: nat, w: nat, a: nat, b: nat :: v < n && w < n ==> SameNode(v, w, a, b)
  {
    if n > 10 {
      assert !SameNode(10, 0, 0, 10);
    }
  }

  // ---------------------------------------------------------- causal knowledge

  /** The packet handled in step k, if there is one. */
  function Handling(r: Run, k: nat): (p: seq<Packet>)
    requires k < |r.actions| < |r.states|
  {
    match r.actions[k]
    case Send(_, _, _) => []
    case Receive(x, v) => if (x, v) in r.states[k].chans then Head(r.states[k].chans[(x, v)]) else []
  }

  function Head(c: seq<Packet>): seq<Packet> { if c == [] then [] else c[..1] }

  ghost predicate At(r: Run, k: nat, v: nat) {
    && k < |r.actions| < |r.states| && r.actions[k].Receive? && r.actions[k].to == v < |r.states[k].nodes|
    && Handling(r, k) != []
  }

  /** Step k: node v handles message id for the first time, and proposes. */
  ghost predicate Proposes(r: Run, k: nat, v: nat, id: Id) {
    At(r, k, v) && Handling(r, k)[0].Message? && Handling(r, k)[0].id == id && id !in r.states[k].nodes[v].received
  }

  /** Step k: node v handles the agreement of message id at priority prio. */
  ghost predicate Agrees(r: Run, k: nat, v: nat, id: Id, prio: int) {
    At(r, k, v) && Handling(r, k)[0].Agree? && Handling(r, k)[0].id == id && Handling(r, k)[0].prio == prio
  }

  /** What the step of a first receipt does at its node. */
  lemma ProposeStep(r: Run, n: nat, k: nat, v: nat, id: Id)
    requires IsRun(r, n) && n <= 10 && FreshIds(r) && Proposes(r, k, v, id)
    ensures v < n && |r.states[k + 1].nodes| == n
    ensures var h, h' := HistoryAt(r, n, k), HistoryAt(r, n, k + 1);
            && |h.order| == |h'.order| == n && h'.order == h.order[v := h.order[v] + [id]]
            && r.states[k + 1].nodes[v].hold.proSeq == 10 * (|h.order[v]| + 1) + v
            && r.states[k + 1].nodes[v].received == Ids(h'.order[v])
  {
    RunKeeps(r, n, k);
    StepAt(r, n, k);
    var s, h := r.states[k], HistoryAt(r, n, k);
    var p := s.chans[(r.actions[k].from, v)][0];
    assert NodeOk(v, s.nodes[v], h);
    ReceiptCounts(v, s.nodes[v], h, p.id, p.tx);
  }

  /** Only a first receipt changes what a node has received. */
  lemma OrderStep(r: Run, n: nat, k: nat, v: nat)
    requires IsRun(r, n) && n <= 10 && FreshIds(r) && k < |r.actions| && v < n
    ensures |HistoryAt(r, n, k).order| == |HistoryAt(r, n, k + 1).order| == n
    ensures HistoryAt(r, n, k + 1).order[v] == HistoryAt(r, n, k).order[v]
            || exists id :: Proposes(r, k, v, id)
  {
    RunKeeps(r, n, k);
    StepAt(r, n, k);
    var s, h, a := r.states[k], HistoryAt(r, n, k), r.actions[k];
    if a.Receive? {
      var p := s.chans[(a.from, a.to)][0];
      if p.Message? && p.id !in s.nodes[a.to].received && a.to == v {
        assert Proposes(r, k, v, p.id);
      }
    }
  }

  /** Step j is the one in which node w received the i-th message and proposed it. */
  ghost predicate Moment(r: Run, n: nat, j: nat, w: nat, o: seq<Id>, i: nat) {
    && i < |o| && j < |r.actions| < |r.states| && Proposes(r, j, w, o[i])
    && |r.states[j + 1].nodes| == n && w < n
    && r.states[j + 1].nodes[w].received == Ids(o[..i + 1])
    && r.states[j + 1].nodes[w].hold.proSeq == 10 * (i + 1) + w
  }

  lemma LatestReceipt(r: Run, n: nat, k: nat, w: nat)
    requires IsRun(r, n) && n <= 10 && FreshIds(r) && k < |r.actions| && w < n
    ensures |HistoryAt(r, n, k).order| == |HistoryAt(r, n, k + 1).order| == n
    ensures var o, o' := HistoryAt(r, n, k).order[w], HistoryAt(r, n, k + 1).order[w];
            o' == o || (o' == o + [o'[|o'| - 1]] && Moment(r, n, k, w, o', |o|))
  {
    OrderStep(r, n, k, w);
    var o, o' := HistoryAt(r, n, k).order[w], HistoryAt(r, n, k + 1).order[w];
    if o' != o {
      var id :| Proposes(r, k, w, id);
      ProposeStep(r, n, k, w, id);
      assert o'[..|o'|] == o';
    }
  }

  lemma MomentExtends(r: Run, n: nat, j: nat, w: nat, o: seq<Id>, o': seq<Id>, i: nat)
    requires Moment(r, n, j, w, o, i) && o <= o'
    ensures Moment(r, n, j, w, o', i)
  {
    assert o[..i + 1] == o'[..i + 1];
  }

  ghost predicate HasMoment(r: Run, n: nat, k: nat, w: nat, o: seq<Id>, i: nat) {
    exists j {:trigger Moment(r, n, j, w, o, i)} :: 0 <= j < k && Moment(r, n, j, w, o, i)
  }

  lemma {:induction false} ReceiptMoment(r: Run, n: nat, k: nat, w: nat, i: nat)
    requires IsRun(r, n) && n <= 10 && FreshIds(r) && k <= |r.actions| && w < n
    requires |HistoryAt(r, n, k).order| == n && i < |HistoryAt(r, n, k).order[w]|
    ensures HasMoment(r, n, k, w, HistoryAt(r, n, k).order[w], i)
  {
    if k == 0 {
      NoReceiptYet(r, n, w);
    } else {
      LatestReceipt(r, n, k - 1, w);
      if i < |HistoryAt(r, n, k - 1).order[w]| {
        ReceiptMoment(r, n, k - 1, w, i);
        HadMoment(r, n, k - 1, w, HistoryAt(r, n, k - 1).order[w], HistoryAt(r, n, k).order[w], i);
      }
    }
  }

  lemma NoReceiptYet(r: Run, n: nat, w: nat)
    requires |r.actions| < |r.states| && w < n
    ensures HistoryAt(r, n, 0).order[w] == []
  {
  }

  lemma HadMoment(r: Run, n: nat, k: nat, w: nat, o: seq<Id>, o': seq<Id>, i: nat)
    requires HasMoment(r, n, k, w, o, i) && o <= o'
    ensures HasMoment(r, n, k + 1, w, o', i)
  {
    var j :| 0 <= j < k && Moment(r, n, j, w, o, i);
    MomentExtends(r, n, j, w, o, o', i);
  }

  /** When an agreement is handled at v, its priority was proposed by some node w in
      an earlier step, and v already holds every message w held after that step. */
  lemma AgreementIsCausal(r: Run, n: nat, k: nat, v: nat, id: Id, prio: int) returns (w: nat, j: nat)
    requires IsRun(r, n) && n <= 10 && FreshIds(r) && Agrees(r, k, v, id, prio)
    ensures w < n && j < k && |r.states[j + 1].nodes| == |r.states[k].nodes| == n
    ensures Proposes(r, j, w, id) && r.states[j + 1].nodes[w].hold.proSeq == prio
    ensures r.states[j + 1].nodes[w].received <= r.states[k].nodes[v].received
  {
    RunKeeps(r, n, k);
    var s, h := r.states[k], HistoryAt(r, n, k);
    AgreementKnown(s, h, n, r.actions[k].from, v);
    assert DecisionOk(h, id);
    w := prio % 10;
    ReceiptMoment(r, n, k, w, prio / 10 - 1);
    j :| 0 <= j < k && Moment(r, n, j, w, h.order[w], prio / 10 - 1);
    var o := h.order[w][..prio / 10];
    forall i | i in o ensures i in s.nodes[v].received {
      var q :| 0 <= q < |o| && o[q] == i;
      assert h.order[w][q] == i;
    }
  }

  /** Once v has handled an agreement, everything it proposes later is larger. */
  lemma LaterProposalsExceed(r: Run, n: nat, k: nat, v: nat, id: Id, prio: int, m: nat, id': Id)
    requires IsRun(r, n) && n <= 10 && FreshIds(r) && Agrees(r, k, v, id, prio)
    requires k <= m && Proposes(r, m, v, id')
    ensures v < |r.states[m + 1].nodes| && r.states[m + 1].nodes[v].hold.proSeq > prio
  {
    RunKeeps(r, n, k);
    RunKeeps(r, n, m);
    AgreementKnown(r.states[k], HistoryAt(r, n, k), n, r.actions[k].from, v);
    DeliveredGrows(r, n, v, k, m);
    CountsReceived(r.states[k], HistoryAt(r, n, k), n, v);
    CountsReceived(r.states[m], HistoryAt(r, n, m), n, v);
    Quorums.SubsetSize(r.states[k].nodes[v].received, r.states[m].nodes[v].received);
    ProposeStep(r, n, m, v, id');
  }

  lemma CountsReceived(s: System, h: History, n: nat, v: nat)
    requires Inv(s, h, n) && v < n
    ensures |s.nodes[v].received| == |h.order[v]|
  {
    assert NodeOk(v, s.nodes[v], h);
    DistinctSize(h.order[v]);
  }
}
