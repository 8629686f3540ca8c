/** What the ISIS invariant needs again and again: it only speaks of histories that
    grow, so each of its parts is shown to survive growth once and for all.  A node's
    order of receipt is only extended, a decided priority stays decided, and what is
    known stays known.  The rest is counting.  The proposals for one message in a channel
    and in the originator's list are counted per node; n proposals with at most one from
    each of n nodes are one from each; and knowing the first k messages of some node's
    order takes at least k receipts, which is what keeps later proposals larger. */
module IsisSteps {
  import opened IsisQueue
  import opened IsisSystem
  import opened IsisInvariant
  import opened Quorums

  // -------------------------------------------------------- growing histories

  ghost predicate Grows(h: History, h': History) {
    && |h'.order| == |h.order|
    && (forall v :: 0 <= v < |h.order| ==> h.order[v] <= h'.order[v])
    && (forall id :: id in h.decided ==> id in h'.decided && h'.decided[id] == h.decided[id])
    && (forall id :: id in h.sent ==> id in h'.sent && h'.sent[id] == h.sent[id])
  }

  lemma OwnerGrows(h: History, h': History, p: int, id: Id)
    requires Grows(h, h') && Owner(h, p, id)
    ensures Owner(h', p, id)
  {
  }

  lemma KnowsGrows(h: History, h': History, p: int, known: set<Id>, known': set<Id>)
    requires Grows(h, h') && Knows(h, p, known) && known <= known'
    ensures Knows(h', p, known')
  {
    forall i | 0 <= i < p / 10 ensures h'.order[p % 10][i] in known' {
      assert h'.order[p % 10][i] == h.order[p % 10][i];
    }
  }

  lemma PacketOkGrows(p: Packet, known: set<Id>, known': set<Id>, x: nat, v: nat, h: History, h': History)
    requires PacketOk(p, known, x, v, h) && Grows(h, h') && known <= known'
    ensures PacketOk(p, known', x, v, h')
  {
    if p.Propose? || p.Agree? {
      KnowsGrows(h, h', p.prio, known, known');
    }
    if p.Propose? {
      OwnerGrows(h, h', p.prio, p.id);
    }
  }

  lemma {:induction false} ChanOkGrows(c: seq<Packet>, known: set<Id>, known': set<Id>,
                                       x: nat, v: nat, h: History, h': History)
    requires ChanOk(c, known, x, v, h) && Grows(h, h') && known <= known'
    ensures ChanOk(c, known', x, v, h')
    decreases |c|
  {
    if c != [] {
      PacketOkGrows(c[0], known, known', x, v, h, h');
      var k := if c[0].Message? then known + {c[0].id} else known;
      var k' := if c[0].Message? then known' + {c[0].id} else known';
      ChanOkGrows(c[1..], k, k', x, v, h, h');
    }
  }

  lemma {:induction false} ChanAppend(c: seq<Packet>, p: Packet, known: set<Id>, x: nat, v: nat, h: History)
    requires ChanOk(c, known, x, v, h) && PacketOk(p, known + InTransit(c), x, v, h)
    ensures ChanOk(c + [p], known, x, v, h)
    decreases |c|
  {
    if c == [] {
      assert known + InTransit(c) == known;
      assert (c + [p])[1..] == [];
    } else {
      var k := if c[0].Message? then known + {c[0].id} else known;
      TransitHead(c);
      assert k + InTransit(c[1..]) == known + InTransit(c);
      ChanAppend(c[1..], p, k, x, v, h);
      assert (c + [p])[1..] == c[1..] + [p];
    }
  }

  lemma TransitHead(c: seq<Packet>)
    requires c != []
    ensures InTransit(c) == InTransit(c[1..]) + (if c[0].Message? then {c[0].id} else {})
  {
    assert c == [c[0]] + c[1..];
  }

  lemma TransitAppend(c: seq<Packet>, p: Packet)
    ensures InTransit(c + [p]) == InTransit(c) + (if p.Message? then {p.id} else {})
  {
  }

  // -------------------------------------------------------------- counting

  lemma {:induction false} DistinctSize(o: seq<Id>)
    ensures |Ids(o)| <= |o|
    ensures Distinct(o) ==> |Ids(o)| == |o|
  {
    if o != [] {
      var k := |o| - 1;
      DistinctSize(o[..k]);
      assert Ids(o) == Ids(o[..k]) + {o[k]};
      if Distinct(o) {
        assert Distinct(o[..k]);
        assert o[k] !in Ids(o[..k]);
      }
    }
  }

  /** Knowing everything the maker of p had received takes at least as many receipts. */
  lemma KnowsCount(h: History, p: int, v: nat)
    requires v < |h.order| && Knows(h, p, Ids(h.order[v])) && Distinct(h.order[p % 10])
    ensures p / 10 <= |h.order[v]|
  {
    var o := h.order[p % 10][..p / 10];
    assert Distinct(o);
    DistinctSize(o);
    DistinctSize(h.order[v]);
    assert Ids(o) <= Ids(h.order[v]);
    SubsetSize(Ids(o), Ids(h.order[v]));
  }

  lemma {:induction false} ProposingAppend(c: seq<Packet>, p: Packet, id: Id)
    ensures Proposing(c + [p], id) == Proposing(c, id) + (if p.Propose? && p.id == id then 1 else 0)
    decreases |c|
  {
    if c == [] {
      assert (c + [p])[1..] == [];
    } else {
      ProposingAppend(c[1..], p, id);
      assert (c + [p])[1..] == c[1..] + [p];
    }
  }

  lemma {:induction false} ListedFromAppend(ps: seq<int>, p: int, v: nat)
    ensures ListedFrom(ps + [p], v) == ListedFrom(ps, v) + (if p % 10 == v then 1 else 0)
  {
    if ps == [] {
      assert (ps + [p])[1..] == [];
    } else {
      ListedFromAppend(ps[1..], p, v);
      assert (ps + [p])[1..] == ps[1..] + [p];
    }
  }

  ghost function Proposers(ps: seq<int>): set<nat>
  {
    set p | p in ps && p % 10 >= 0 :: (p % 10) as nat
  }

  lemma ProposersHead(ps: seq<int>)
    requires ps != []
    ensures Proposers(ps) == Proposers(ps[1..]) + {(ps[0] % 10) as nat}
  {
    assert forall p :: p in ps <==> p == ps[0] || p in ps[1..];
    assert ps[0] in ps;
    forall w | w in Proposers(ps[1..]) + {(ps[0] % 10) as nat} ensures w in Proposers(ps) {
      if w in Proposers(ps[1..]) {
        var p :| p in ps[1..] && p % 10 == w;
        assert p in ps;
      }
    }
  }

  lemma {:induction false} ListedPositive(ps: seq<int>, v: nat)
    ensures ListedFrom(ps, v) >= 1 <==> v in Proposers(ps)
  {
    if ps != [] {
      ListedPositive(ps[1..], v);
      ProposersHead(ps);
    }
  }

  lemma {:induction false} OneEach(ps: seq<int>)
    requires forall v: nat :: ListedFrom(ps, v) <= 1
    ensures |Proposers(ps)| == |ps|
  {
    if ps != [] {
      var w: nat := ps[0] % 10;
      forall v: nat ensures ListedFrom(ps[1..], v) <= 1 {
        assert ListedFrom(ps, v) <= 1;
      }
      OneEach(ps[1..]);
      assert ListedFrom(ps, w) <= 1;
      ListedPositive(ps[1..], w);
      ProposersHead(ps);
    }
  }

  /** n proposals, at most one from each of n nodes, are one from each. */
  lemma FullList(ps: seq<int>, n: nat, v: nat)
    requires |ps| == n && v < n
    requires forall w: nat :: ListedFrom(ps, w) <= 1
    requires forall p :: p in ps ==> 0 <= p % 10 < n
    ensures ListedFrom(ps, v) == 1
    ensures exists p :: p in ps && p % 10 == v
  {
    OneEach(ps);
    Pigeonhole(Proposers(ps), n, v);
    ListedPositive(ps, v);
  }
}
