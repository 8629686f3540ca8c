/** What holds once nothing is in transit any more. */
module IsisQuiet {
  import opened IsisQueue
  import opened IsisSystem
  import opened IsisInvariant
  import opened IsisSteps
  import opened IsisNodes
  import opened IsisRuns
  import opened IsisOrder
  import opened Quorums

  /** The ids of the agreements travelling in a channel. */
  function Agreeing(c: seq<Packet>): set<Id> {
    set p | p in c && p.Agree? :: p.id
  }

  /** A message sent has reached v or is on its way from its originator. */
  ghost predicate Reaches(s: System, h: History, v: nat, id: Id)
    requires v < |s.nodes| && id in h.sent
  {
    var c := (h.sent[id].node, v);
    c in s.chans && (id in s.nodes[v].received || id in InTransit(s.chans[c]))
  }

  /** A priority decided has reached v or is on its way from its originator. */
  ghost predicate Announced(s: System, h: History, v: nat, id: Id)
    requires v < |s.nodes| && id in h.sent
  {
    var c := (h.sent[id].node, v);
    c in s.chans && (id in h.decided ==> id in s.nodes[v].agreed || id in Agreeing(s.chans[c]))
  }

  /** An originator never sits on a full list of proposals. */
  ghost predicate Unfilled(s: System, n: nat) {
    forall v, id :: 0 <= v < |s.nodes| ==> |Listed(s.nodes[v], id)| < n
  }

  ghost predicate Spread(s: System, h: History, n: nat) {
    && |s.nodes| == n
    && (forall v, id {:trigger Reaches(s, h, v, id)} :: 0 <= v < n && id in h.sent ==> Reaches(s, h, v, id))
    && (forall v, id {:trigger Announced(s, h, v, id)} :: 0 <= v < n && id in h.sent ==> Announced(s, h, v, id))
    && Unfilled(s, n)
  }

  // ------------------------------------------------------------------- steps

  /** A packet stays in its channel until it is handled, and handling it notes it. */
  lemma Passing(s: System, a: Action, s': System, x: nat, v: nat, p: Packet)
    requires Step(s, a, s') && (x, v) in s.chans && p in s.chans[(x, v)] && v < |s.nodes|
    ensures |s'.nodes| == |s.nodes| && (x, v) in s'.chans
    ensures p in s'.chans[(x, v)] || (p.Message? && p.id in s'.nodes[v].received)
            || (p.Agree? && p.id in s'.nodes[v].agreed) || p.Propose?
  {
    if a.Receive? {
      var c := s.chans[(a.from, a.to)];
      assert c == [c[0]] + c[1..];
    }
  }

  lemma StepUnfilled(s: System, a: Action, s': System, n: nat)
    requires Step(s, a, s') && |s.nodes| == n && Unfilled(s, n)
    ensures |s'.nodes| == n && Unfilled(s', n)
  {
    forall v, id | 0 <= v < n ensures |Listed(s'.nodes[v], id)| < n {
      assert |Listed(s.nodes[v], id)| < n;
    }
  }

  /** What the history of a step adds. */
  lemma RecordAdds(s: System, h: History, n: nat, a: Action, s': System, id: Id)
    requires Inv(s, h, n) && Step(s, a, s') && (a.Send? ==> a.id !in h.sent)
    requires id in Record(h, s, a).sent
    ensures var h' := Record(h, s, a);
            && (id in h.sent ==> h'.sent[id] == h.sent[id])
            && (id !in h.sent ==>
                  forall v: nat :: v < n ==> Reaches(s', h', v, id) && id !in h.decided && Announced(s', h', v, id))
            && (id in h.sent && id in h'.decided && id !in h.decided ==>
                  forall v: nat :: v < n ==> Announced(s', h', v, id))
  {
    if id !in h.sent {
      assert id in h.decided ==> DecisionOk(h, id);
      var p := Message(id, a.node, a.tx);
      forall v | 0 <= v < n ensures Reaches(s', Record(h, s, a), v, id) {
        assert p in s'.chans[(a.node, v)];
      }
    }
    if id in h.sent && id in Record(h, s, a).decided && id !in h.decided {
      Deciding(s, h, n, a, s', id);
    }
  }

  lemma Deciding(s: System, h: History, n: nat, a: Action, s': System, id: Id)
    requires Inv(s, h, n) && Step(s, a, s') && a.Receive?
    requires id in h.sent && id in Record(h, s, a).decided && id !in h.decided
    ensures forall v: nat :: v < n ==> Announced(s', Record(h, s, a), v, id)
  {
    HeadOk(s, h, n, a.from, a.to);
    var p := s.chans[(a.from, a.to)][0];
    assert p.Propose? && p.id == id && h.sent[id].node == a.to;
    var nd1 := Collect(s.nodes[a.to], id, p.prio);
    var q := Agree(id, p.origin, p.tx, Decide(nd1, id).1);
    forall v | 0 <= v < n ensures Announced(s', Record(h, s, a), v, id) {
      assert q in s'.chans[(a.to, v)];
    }
  }

  lemma StepSpreads(s: System, h: History, n: nat, a: Action, s': System, v: nat, id: Id)
    requires Inv(s, h, n) && Spread(s, h, n) && Step(s, a, s') && (a.Send? ==> a.id !in h.sent)
    requires v < n && id in h.sent && id in Record(h, s, a).sent && Record(h, s, a).sent[id] == h.sent[id]
    ensures |s'.nodes| == n && Reaches(s', Record(h, s, a), v, id)
    ensures id in h.decided ==> Announced(s', Record(h, s, a), v, id)
  {
    StepGrows(s, a, s', v);
    var c := (h.sent[id].node, v);
    assert Reaches(s, h, v, id) && Announced(s, h, v, id);
    if id !in s.nodes[v].received {
      var p :| p in s.chans[c] && p.Message? && p.id == id;
      Passing(s, a, s', c.0, v, p);
    }
    if id in h.decided && id !in s.nodes[v].agreed {
      var p :| p in s.chans[c] && p.Agree? && p.id == id;
      Passing(s, a, s', c.0, v, p);
    }
  }

  lemma SpreadKeeps(s: System, h: History, n: nat, a: Action, s': System)
    requires Inv(s, h, n) && Spread(s, h, n) && Step(s, a, s') && (a.Send? ==> a.id !in h.sent)
    ensures Spread(s', Record(h, s, a), n)
  {
    StepUnfilled(s, a, s', n);
    var h' := Record(h, s, a);
    forall v, id | 0 <= v < n && id in h'.sent ensures Reaches(s', h', v, id) && Announced(s', h', v, id) {
      RecordAdds(s, h, n, a, s', id);
      if id in h.sent {
        StepSpreads(s, h, n, a, s', v, id);
      }
    }
  }

  lemma StepSpreadsAt(r: Run, n: nat, k: nat)
    requires IsRun(r, n) && n <= 10 && FreshIds(r) && k < |r.actions|
    requires Spread(r.states[k], HistoryAt(r, n, k), n)
    ensures Spread(r.states[k + 1], HistoryAt(r, n, k + 1), n)
  {
    RunKeeps(r, n, k);
    StepAt(r, n, k);
    SpreadKeeps(r.states[k], HistoryAt(r, n, k), n, r.actions[k], r.states[k + 1]);
  }

  lemma {:induction false} RunSpreads(r: Run, n: nat, k: nat)
    requires IsRun(r, n) && n <= 10 && FreshIds(r) && k <= |r.actions|
    ensures Spread(r.states[k], HistoryAt(r, n, k), n)
  {
    if k > 0 {
      RunSpreads(r, n, k - 1);
      StepSpreadsAt(r, n, k - 1);
    } else {
      InitSpreads(r.states[0], n);
    }
  }

  lemma InitSpreads(s: System, n: nat)
    requires Init(s, n)
    ensures Spread(s, History(seq(n, _ => []), map[], map[]), n)
  {
  }

  // ------------------------------------------------------------- when quiet

  /** A list with a proposal from each of n nodes has at least n proposals. */
  lemma {:induction false} ListHasAll(ps: seq<int>, n: nat)
    requires forall v :: 0 <= v < n ==> ListedFrom(ps, v) >= 1
    ensures |ps| >= n
  {
    forall v: nat | v < n ensures v in Proposers(ps) {
      ListedPositive(ps, v);
    }
    AtLeastAll(Proposers(ps), n);
    FewProposers(ps);
  }

  lemma {:induction false} FewProposers(ps: seq<int>)
    ensures |Proposers(ps)| <= |ps|
  {
    if ps != [] {
      FewProposers(ps[1..]);
      ProposersHead(ps);
    }
  }

  lemma QuietDecided(s: System, h: History, n: nat, id: Id)
    requires Inv(s, h, n) && Spread(s, h, n) && Quiet(s) && id in h.sent
    ensures id in h.decided
    ensures forall v :: 0 <= v < n ==> id in s.nodes[v].received && id in s.nodes[v].agreed
    ensures Listed(s.nodes[h.sent[id].node], id) == []
  {
    var o := h.sent[id].node;
    var ps := Listed(s.nodes[o], id);
    forall v | 0 <= v < n ensures id in s.nodes[v].received && ListedFrom(ps, v) == if id in h.decided then 0 else 1 {
      assert Reaches(s, h, v, id) && Balanced(s, h, v, id);
    }
    if id !in h.decided {
      ListHasAll(ps, n);
    }
    assert id in h.decided;
    forall v | 0 <= v < n ensures id in s.nodes[v].agreed {
      assert Announced(s, h, v, id);
    }
    QuietList(s, h, n, id);
  }

  lemma QuietList(s: System, h: History, n: nat, id: Id)
    requires Inv(s, h, n) && id in h.sent && id in h.decided
    requires forall v :: 0 <= v < n ==> ListedFrom(Listed(s.nodes[h.sent[id].node], id), v) == 0
    ensures Listed(s.nodes[h.sent[id].node], id) == []
  {
    var o := h.sent[id].node;
    var ps := Listed(s.nodes[o], id);
    if ps != [] {
      assert StoredOk(s.nodes[o], o, h) && EntryOk(s.nodes[o], o, h, id, ps[0]);
      ListedPositive(ps, ps[0] % 10);
    }
  }

  lemma QuietNode(s: System, h: History, n: nat, v: nat)
    requires Inv(s, h, n) && Spread(s, h, n) && Quiet(s) && v < n
    ensures s.nodes[v].hold.queue == []
    ensures forall id :: id in h.sent <==> HasItem(s.nodes[v].delivered, id)
  {
    var nd := s.nodes[v];
    assert NodeOk(v, nd, h);
    if nd.hold.queue != [] {
      var x := nd.hold.queue[0];
      assert x in nd.hold.queue && ItemOk(x, v, nd, h);
      QuietDecided(s, h, n, x.id);
    }
    forall id | id in h.sent ensures HasItem(nd.delivered, id) {
      QuietDecided(s, h, n, id);
      assert HasItem(nd.hold.queue, id) || HasItem(nd.delivered, id);
    }
    forall id | HasItem(nd.delivered, id) ensures id in h.sent {
      var x :| x in nd.delivered && x.id == id;
      DeliveredIs(v, nd, h, x);
    }
  }

  lemma SameItems(s: System, h: History, n: nat, v: nat, w: nat, x: Item)
    requires Inv(s, h, n) && Spread(s, h, n) && Quiet(s) && v < n && w < n
    requires x in s.nodes[w].delivered
    ensures x in s.nodes[v].delivered
  {
    assert NodeOk(w, s.nodes[w], h) && NodeOk(v, s.nodes[v], h);
    DeliveredIs(w, s.nodes[w], h, x);
    QuietNode(s, h, n, v);
    var y :| y in s.nodes[v].delivered && y.id == x.id;
    DeliveredIs(v, s.nodes[v], h, y);
  }

  lemma NewBeyondPrefix(a: seq<Item>, b: seq<Item>)
    requires a <= b && Sorted(b) && |a| < |b|
    ensures b[|a|] in b && b[|a|] !in a
  {
    forall i | 0 <= i < |a| ensures a[i] != b[|a|] {
      assert a[i] == b[i];
    }
  }

  lemma WholePrefix(a: seq<Item>, b: seq<Item>)
    requires a <= b && Sorted(b) && forall x :: x in b ==> x in a
    ensures a == b
  {
    if |a| < |b| {
      NewBeyondPrefix(a, b);
    }
  }

  lemma SameDelivered(s: System, h: History, n: nat, v: nat, w: nat)
    requires Inv(s, h, n) && Spread(s, h, n) && Quiet(s) && v < n && w < n
    requires s.nodes[v].delivered <= s.nodes[w].delivered
    ensures s.nodes[v].delivered == s.nodes[w].delivered
  {
    assert NodeOk(w, s.nodes[w], h);
    forall x | x in s.nodes[w].delivered ensures x in s.nodes[v].delivered {
      SameItems(s, h, n, v, w, x);
    }
    WholePrefix(s.nodes[v].delivered, s.nodes[w].delivered);
  }

  // ------------------------------------------------ once per node and message

  /** Step k: the originator's list fills up and a priority is decided. */
  ghost predicate Decides(r: Run, k: nat, id: Id) {
    && k < |r.actions| < |r.states| && r.actions[k].Receive? && At(r, k, r.actions[k].to)
    && Handling(r, k)[0].Propose? && Handling(r, k)[0].id == id
    && |Listed(r.states[k].nodes[r.actions[k].to], id)| + 1 == |r.states[k].nodes|
  }

  lemma DecideStep(r: Run, n: nat, k: nat, id: Id)
    requires IsRun(r, n) && n <= 10 && FreshIds(r) && k < |r.actions|
    ensures id in HistoryAt(r, n, k + 1).decided <==> id in HistoryAt(r, n, k).decided || Decides(r, k, id)
    ensures Decides(r, k, id) ==> id !in HistoryAt(r, n, k).decided
  {
    RunKeeps(r, n, k);
    StepAt(r, n, k);
    var s, h, a := r.states[k], HistoryAt(r, n, k), r.actions[k];
    if Decides(r, k, id) {
      var p := s.chans[(a.from, a.to)][0];
      CollectKeepsInv(s, h, n, a.from, a.to, p);
      var nd := Collect(s.nodes[a.to], id, p.prio);
      var s1 := System(s.nodes[a.to := nd], Pop(s.chans, (a.from, a.to)));
      FullListFacts(s1, h, n, a.to, id, a.to);
    }
  }

  ghost predicate DecidedBefore(r: Run, k: nat, id: Id) {
    exists j {:trigger Decides(r, j, id)} :: 0 <= j < k && Decides(r, j, id)
  }

  lemma {:induction false} DecidedByStep(r: Run, n: nat, k: nat, id: Id)
    requires IsRun(r, n) && n <= 10 && FreshIds(r) && k <= |r.actions|
    ensures id in HistoryAt(r, n, k).decided <==> DecidedBefore(r, k, id)
  {
    if k > 0 {
      DecidedByStep(r, n, k - 1, id);
      DecideStep(r, n, k - 1, id);
    }
  }

  lemma DecidedOnce(r: Run, n: nat, i: nat, j: nat, id: Id)
    requires IsRun(r, n) && n <= 10 && FreshIds(r) && i < j && Decides(r, i, id)
    ensures !Decides(r, j, id)
  {
    if j < |r.actions| {
      DecidedByStep(r, n, j, id);
      DecideStep(r, n, j, id);
    }
  }

  lemma ProposedStep(r: Run, n: nat, k: nat, v: nat, id: Id)
    requires IsRun(r, n) && k < |r.actions| && v < n
    ensures |r.states[k].nodes| == |r.states[k + 1].nodes| == n
    ensures id in r.states[k + 1].nodes[v].received <==> id in r.states[k].nodes[v].received || Proposes(r, k, v, id)
  {
    RunSize(r, n, k);
    RunSize(r, n, k + 1);
    assert StepOf(r, k);
  }

  lemma {:induction false} ProposedOnce(r: Run, n: nat, k: nat, v: nat, id: Id)
    requires IsRun(r, n) && k <= |r.actions| && v < n
    ensures |r.states[k].nodes| == n
    ensures id in r.states[k].nodes[v].received <==> exists j :: 0 <= j < k && Proposes(r, j, v, id)
    ensures forall i, j :: 0 <= i < j < k && Proposes(r, i, v, id) ==> !Proposes(r, j, v, id)
  {
    RunSize(r, n, k);
    if k > 0 {
      ProposedOnce(r, n, k - 1, v, id);
      ProposedStep(r, n, k - 1, v, id);
    }
  }

  // ---------------------------------------------------------------- theorems

  ghost predicate Sent(r: Run, k: nat, id: Id) {
    exists j :: 0 <= j < k <= |r.actions| && r.actions[j].Send? && r.actions[j].id == id
  }

  /** Quiescent agreement: with all channels empty, every queue is empty, all
      delivery sequences are equal, and they hold exactly the messages sent. */
  lemma QuietAgreement(r: Run, n: nat, k: nat, v: nat, w: nat)
    requires IsRun(r, n) && n <= 10 && FreshIds(r) && k <= |r.actions| && Quiet(r.states[k]) && v < n && w < n
    ensures |r.states[k].nodes| == n
    ensures r.states[k].nodes[v].hold.queue == []
    ensures r.states[k].nodes[v].delivered == r.states[k].nodes[w].delivered
    ensures forall id :: Sent(r, k, id) <==> HasItem(r.states[k].nodes[v].delivered, id)
  {
    RunKeeps(r, n, k);
    RunSpreads(r, n, k);
    var s, h := r.states[k], HistoryAt(r, n, k);
    QuietNode(s, h, n, v);
    AgreeingNodes(s, h, n, v, w);
    if s.nodes[v].delivered <= s.nodes[w].delivered {
      SameDelivered(s, h, n, v, w);
    } else {
      SameDelivered(s, h, n, w, v);
    }
    forall id ensures Sent(r, k, id) <==> HasItem(s.nodes[v].delivered, id) {
      SentByAction(r, n, k, id);
    }
  }

  /** By then every message sent was proposed by each node, and decided, in exactly
      one step. */
  lemma QuietOnce(r: Run, n: nat, k: nat, id: Id, v: nat)
    requires IsRun(r, n) && n <= 10 && FreshIds(r) && k <= |r.actions| && Quiet(r.states[k]) && Sent(r, k, id) && v < n
    ensures exists j :: 0 <= j < k && Proposes(r, j, v, id)
    ensures forall i, j :: 0 <= i < j < k && Proposes(r, i, v, id) ==> !Proposes(r, j, v, id)
    ensures exists j :: 0 <= j < k && Decides(r, j, id)
    ensures forall i, j :: 0 <= i < j < k && Decides(r, i, id) ==> !Decides(r, j, id)
  {
    RunKeeps(r, n, k);
    RunSpreads(r, n, k);
    SentByAction(r, n, k, id);
    QuietDecided(r.states[k], HistoryAt(r, n, k), n, id);
    ProposedOnce(r, n, k, v, id);
    DecidedByStep(r, n, k, id);
    forall i, j | 0 <= i < j < k && Decides(r, i, id) ensures !Decides(r, j, id) {
      DecidedOnce(r, n, i, j, id);
    }
  }
}
