/** What a node has heard reaches the others through that node alone. */
module IsisFlood {
  import opened IsisQueue
  import opened IsisSystem
  import opened IsisInvariant
  import opened IsisSteps
  import opened IsisRuns
  import opened IsisOrder

  /** An agreement about message id travels in the channel. */
  ghost predicate Carries(c: seq<Packet>, id: Id) {
    exists i :: 0 <= i < |c| && c[i].Agree? && c[i].id == id
  }

  /** What x has agreed has reached v or travels from x to v. */
  ghost predicate Spread(s: System, x: nat, v: nat) {
    && x < |s.nodes| && v < |s.nodes| && (x, v) in s.chans
    && forall id {:trigger Carries(s.chans[(x, v)], id)} ::
         id in s.nodes[x].agreed ==> id in s.nodes[v].agreed || Carries(s.chans[(x, v)], id)
  }

  ghost predicate AllSpread(s: System) {
    forall x, v {:trigger Spread(s, x, v)} :: 0 <= x < |s.nodes| && 0 <= v < |s.nodes| ==> Spread(s, x, v)
  }

  lemma CarriesAppend(c: seq<Packet>, p: Packet, id: Id)
    ensures Carries(c + [p], id) <==> Carries(c, id) || (p.Agree? && p.id == id)
  {
    assert (c + [p])[|c|] == p;
    if Carries(c, id) {
      var i :| 0 <= i < |c| && c[i].Agree? && c[i].id == id;
      assert (c + [p])[i] == c[i];
    }
  }

  lemma CarriesTail(c: seq<Packet>, id: Id)
    requires c != []
    ensures Carries(c, id) <==> Carries(c[1..], id) || (c[0].Agree? && c[0].id == id)
  {
    if Carries(c, id) {
      var i :| 0 <= i < |c| && c[i].Agree? && c[i].id == id;
      assert i > 0 ==> c[1..][i - 1] == c[i];
    }
    if Carries(c[1..], id) {
      var i :| 0 <= i < |c[1..]| && c[1..][i].Agree? && c[1..][i].id == id;
      assert c[i + 1] == c[1..][i];
    }
  }

  /** What a step leaves of a channel and of what a node has agreed. */
  lemma AgreedStays(s: System, a: Action, s': System, x: nat, v: nat, id: Id)
    requires Step(s, a, s') && x < |s.nodes| && v < |s.nodes| && (x, v) in s.chans
    requires id in s.nodes[v].agreed || Carries(s.chans[(x, v)], id)
    ensures |s'.nodes| == |s.nodes| && (x, v) in s'.chans
    ensures id in s'.nodes[v].agreed || Carries(s'.chans[(x, v)], id)
  {
    var c := s.chans[(x, v)];
    match a
    case Send(u, i, tx) => CarriesAppend(c, Message(i, u, tx), id);
    case Receive(y, u) =>
      var head := s.chans[(y, u)][0];
      var c1 := Pop(s.chans, (y, u))[(x, v)];
      if (y, u) == (x, v) {
        CarriesTail(c, id);
      }
      if head.Agree? && u == v {
        assert id in s'.nodes[v].agreed <==> id in s.nodes[v].agreed || id == head.id;
      }
      HandleKeepsCarried(s, Pop(s.chans, (y, u)), u, head, (x, v), id);
  }

  /** Handling a packet takes nothing out of a channel, and nothing off what is agreed. */
  lemma HandleKeepsCarried(s: System, ch: Chans, u: nat, p: Packet, k: (nat, nat), id: Id)
    requires u < |s.nodes| && k in ch && k.1 < |s.nodes|
    ensures var s' := Handle(s, ch, u, p);
            && |s'.nodes| == |s.nodes| && k in s'.chans
            && (Carries(ch[k], id) ==> Carries(s'.chans[k], id))
            && (id in s.nodes[k.1].agreed ==> id in s'.nodes[k.1].agreed)
  {
    var nd := s.nodes[u];
    match p
    case Message(i, origin, tx) =>
      var q := Propose(i, origin, tx, Receipt(nd, i, tx).1);
      CarriesAppend(ch[k], p, id);
      CarriesAppend(Broadcast(ch, u, p)[k], q, id);
    case Propose(i, origin, tx, prio) =>
      var nd1 := Collect(nd, i, prio);
      if |Listed(nd1, i)| == |s.nodes| {
        CarriesAppend(ch[k], Agree(i, origin, tx, Decide(nd1, i).1), id);
      }
    case Agree(_, _, _, _) => CarriesAppend(ch[k], p, id);
  }

  /** A node that agrees on a message in this step has just passed the agreement on. */
  lemma AgreedPasses(s: System, a: Action, s': System, x: nat, v: nat, id: Id)
    requires Step(s, a, s') && x < |s.nodes| && v < |s.nodes| && (x, v) in s.chans && |s'.nodes| == |s.nodes|
    requires id in s'.nodes[x].agreed && id !in s.nodes[x].agreed
    ensures (x, v) in s'.chans && Carries(s'.chans[(x, v)], id)
  {
    match a
    case Send(_, _, _) =>
    case Receive(y, u) =>
      var p := s.chans[(y, u)][0];
      assert p.Agree? && u == x && p.id == id;
      CarriesAppend(Pop(s.chans, (y, u))[(x, v)], p, id);
  }

  lemma StepSpreads(s: System, a: Action, s': System)
    requires AllSpread(s) && Step(s, a, s')
    ensures |s'.nodes| == |s.nodes| && AllSpread(s')
  {
    StepNodes(s, a, s');
    forall x, v | 0 <= x < |s'.nodes| && 0 <= v < |s'.nodes| ensures Spread(s', x, v) {
      assert Spread(s, x, v);
      StepChannel(s, a, s', (x, v));
      forall id | id in s'.nodes[x].agreed ensures id in s'.nodes[v].agreed || Carries(s'.chans[(x, v)], id) {
        if id in s.nodes[x].agreed {
          AgreedStays(s, a, s', x, v, id);
        } else {
          AgreedPasses(s, a, s', x, v, id);
        }
      }
    }
  }

  lemma StepNodes(s: System, a: Action, s': System)
    requires Step(s, a, s')
    ensures |s'.nodes| == |s.nodes|
  {
  }

  lemma StepChannel(s: System, a: Action, s': System, k: (nat, nat))
    requires Step(s, a, s') && k in s.chans
    ensures k in s'.chans
  {
  }

  lemma {:induction false} RunSpreads(r: Run, n: nat, k: nat)
    requires IsRun(r, n) && k <= |r.actions|
    ensures |r.states[k].nodes| == n && AllSpread(r.states[k])
  {
    if k > 0 {
      RunSpreads(r, n, k - 1);
      assert StepOf(r, k - 1);
      StepSpreads(r.states[k - 1], r.actions[k - 1], r.states[k]);
    }
  }

  /** In every run, once any node has delivered on an agreement, every other node has
      handled that agreement or will get it from this very node, whatever the other
      channels do. */
  lemma AgreementsPassedOn(r: Run, n: nat, k: nat, x: nat, v: nat, id: Id)
    requires IsRun(r, n) && k <= |r.actions| && x < n && v < n
    requires |r.states[k].nodes| == n && id in r.states[k].nodes[x].agreed
    ensures (x, v) in r.states[k].chans
    ensures id in r.states[k].nodes[v].agreed || Carries(r.states[k].chans[(x, v)], id)
  {
    RunSpreads(r, n, k);
    assert Spread(r.states[k], x, v);
  }

  /** The same for messages. */
  lemma MessagesPassedOn(r: Run, n: nat, k: nat, x: nat, v: nat, id: Id)
    requires IsRun(r, n) && n <= 10 && FreshIds(r) && k <= |r.actions| && x < n && v < n
    requires |r.states[k].nodes| == n && id in r.states[k].nodes[x].received
    ensures (x, v) in r.states[k].chans
    ensures id in r.states[k].nodes[v].received || id in InTransit(r.states[k].chans[(x, v)])
  {
    RunKeeps(r, n, k);
    var h := HistoryAt(r, n, k);
    assert Flooded(r.states[k], x, v, h) && NodeOk(x, r.states[k].nodes[x], h);
  }

  /** A proposal never overtakes its message: the originator that handles one has received
      the message, because the proposer passed it on first. */
  lemma ProposalFollowsMessage(r: Run, n: nat, k: nat, v: nat)
    requires IsRun(r, n) && n <= 10 && FreshIds(r) && At(r, k, v) && Handling(r, k)[0].Propose?
    ensures Handling(r, k)[0].origin == v && Handling(r, k)[0].id in r.states[k].nodes[v].received
  {
    RunKeeps(r, n, k);
    StepAt(r, n, k);
    var s, h, x, p := r.states[k], HistoryAt(r, n, k), r.actions[k].from, Handling(r, k)[0];
    HeadOk(s, h, n, x, v);
    assert h.order[p.prio % 10][p.prio / 10 - 1] in s.nodes[v].received;
  }

  /** A new node counts from its own id and has heard, listed, agreed and delivered nothing. */
  lemma FreshNode(v: nat)
    ensures var nd := InitNode(v);
            && nd.hold == Holdback(v, v, v, []) && nd.received == {} && nd.agreed == {} && nd.delivered == []
            && forall id :: Listed(nd, id) == []
  {
  }
}
