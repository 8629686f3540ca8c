/** Log back-off over runs: how far failed replies lower nextIndex. */
module RaftBackOff {
  import opened Options
  import opened RaftCore
  import opened RaftCluster
  import opened RaftHistory
  import opened RaftCommit
  import E = RaftElection
  import A = RaftApply

  // ------------------------------------------------------------ the exchanges

  /** In step j the leader i of term t sends peer p the request a. */
  predicate SendsAt(r: Run, j: nat, i: nat, p: nat, t: nat, a: AppendArgs) {
    && j < |r.actions| && j < |r.states| && r.actions[j] == SendHeartBeat(i, p)
    && E.Leads(r.states[j], i, t) && p < |r.states[j].servers[i].nextIndex|
    && HeartBeat(r.states[j].servers[i], p) == Done(Some(a))
  }

  /** In step k the leader i of term t handles a reply of peer p and stays the leader. */
  predicate ReturnsAt(r: Run, k: nat, i: nat, p: nat, t: nat) {
    && k < |r.actions| && k < |r.states| && r.actions[k].AppendReturns? && r.actions[k].m.AppendAnswer?
    && var m := r.actions[k].m;
       && m.append.leader == i && m.from == p && m.appendReply.term <= t
       && E.Leads(r.states[k], i, t) && !r.states[k].servers[i].dead
  }

  predicate PassesAt(r: Run, k: nat, i: nat, p: nat, t: nat) {
    ReturnsAt(r, k, i, p, t) && r.actions[k].m.appendReply.success
  }

  predicate FailsAt(r: Run, k: nat, i: nat, p: nat, t: nat) {
    ReturnsAt(r, k, i, p, t) && !r.actions[k].m.appendReply.success
  }

  /** The reply of step k answers a request of step j, and none came back in between. */
  predicate Answers(r: Run, j: nat, k: nat, i: nat, p: nat, t: nat) {
    && j < k && ReturnsAt(r, k, i, p, t) && SendsAt(r, j, i, p, t, r.actions[k].m.append)
    && forall l :: j < l < k ==> !ReturnsAt(r, l, i, p, t)
  }

  /** No two exchanges of leader i with peer p overlap in term t: every reply answers a
      request sent since the reply before it. */
  ghost predicate OneExchange(r: Run, i: nat, p: nat, t: nat) {
    forall k {:trigger ReturnsAt(r, k, i, p, t)} :: ReturnsAt(r, k, i, p, t) ==> exists j :: Answers(r, j, k, i, p, t)
  }

  /** The number of failed replies in the steps from .. upto - 1. */
  function Failures(r: Run, i: nat, p: nat, t: nat, from: nat, upto: nat): (f: nat) {
    if upto <= from then 0
    else Failures(r, i, p, t, from, upto - 1) + (if FailsAt(r, upto - 1, i, p, t) then 1 else 0)
  }

  ghost predicate Reign(r: Run, i: nat, t: nat, from: nat, upto: nat) {
    from <= upto < |r.states| && forall l :: from <= l <= upto ==> E.Leads(r.states[l], i, t)
  }

  /** No reply passes in the steps from .. upto - 1. */
  ghost predicate NonePasses(r: Run, i: nat, p: nat, t: nat, from: nat, upto: nat) {
    forall l :: from <= l < upto ==> !PassesAt(r, l, i, p, t)
  }

  // ------------------------------------------------------- one step of a reign

  /** What a step does to the leader's nextIndex for p. */
  function NextIndexAfter(r: Run, k: nat, i: nat, p: nat, t: nat, next: int, length: nat): int {
    if PassesAt(r, k, i, p, t) then length else if FailsAt(r, k, i, p, t) then next - 1 else next
  }

  lemma ReignStep(r: Run, n: nat, k: nat, i: nat, p: nat, t: nat)
    requires IsRun(r, n) && k + 1 < |r.states| && Formed(r.states[k], n) && p < n && p != i
    requires E.Leads(r.states[k], i, t) && E.Leads(r.states[k + 1], i, t)
    ensures var s, s' := r.states[k].servers[i], r.states[k + 1].servers[i];
            && |s'.nextIndex| == n && |s.log| <= |s'.log|
            && s'.nextIndex[p] == NextIndexAfter(r, k, i, p, t, s.nextIndex[p], |s'.log|)
  {
    HistoryStep(r, n, k);
    LeaderStep(r.states[k], r.actions[k], r.states[k + 1], n, i, p, t);
  }

  /** The same, for one step on its own. */
  lemma LeaderStep(c: Cluster, a: Action, c': Cluster, n: nat, i: nat, p: nat, t: nat)
    requires Formed(c, n) && Step(c, a, c') && p < n && p != i && E.Leads(c, i, t) && E.Leads(c', i, t)
    ensures var s, s' := c.servers[i], c'.servers[i];
            && |s'.nextIndex| == n && |s.log| <= |s'.log|
            && var counted := a.AppendReturns? && a.m.AppendAnswer? && a.m.append.leader == i && a.m.from == p
                              && a.m.appendReply.term <= t && !s.dead;
               s'.nextIndex[p] == (if !counted then s.nextIndex[p]
                                   else if a.m.appendReply.success then |s'.log| else s.nextIndex[p] - 1)
  {
  }

  lemma ElectedByVote(c: Cluster, a: Action, c': Cluster, n: nat, i: nat, t: nat)
    requires Formed(c, n) && Step(c, a, c') && i < n && !E.Leads(c, i, t) && E.Leads(c', i, t)
    ensures a.VoteReturns? && Place(a) == i && c.servers[i].state != Leader
  {
  }

  /** The step that makes i the leader of t sets nextIndex to its log's length. */
  lemma ElectionStep(c: Cluster, a: Action, c': Cluster, n: nat, i: nat, p: nat, t: nat)
    requires Formed(c, n) && Step(c, a, c') && i < n && p < n && p != i && !E.Leads(c, i, t) && E.Leads(c', i, t)
    ensures var s, s' := c.servers[i], c'.servers[i];
            s'.log == s.log && |s'.nextIndex| == n && s'.nextIndex[p] == |s.log|
  {
    ElectedByVote(c, a, c', n, i, t);
  }

  // --------------------------------------------------------------- answers

  /** Index 0 is always accepted, so a live server that refuses it knows a later term. */
  predicate PlainOk(m: Message, servers: seq<Server>) {
    match m
    case AppendRequest(_, a) => a.prevLogIndex == 0 ==> a.prevLogTerm == 0
    case AppendAnswer(p, a, reply) =>
      (a.prevLogIndex == 0 ==> a.prevLogTerm == 0)
      && (a.prevLogIndex == 0 && p < |servers| && !servers[p].dead ==> reply.success || reply.term > a.term)
    case _ => true
  }

  ghost predicate NetPlain(c: Cluster) {
    forall m :: m in c.net ==> PlainOk(m, c.servers)
  }

  /** The only message a step may add. */
  lemma StepPlain(c: Cluster, a: Action, c': Cluster, n: nat, m: Message)
    requires Formed(c, n) && Step(c, a, c') && NetPlain(c) && m in c'.net
    ensures PlainOk(m, c'.servers)
  {
    if m in c.net {
      assert PlainOk(m, c.servers);
      StaysDead(c, a, c', n, m);
    } else {
      NewPlain(c, a, c', n, m);
    }
  }

  lemma StaysDead(c: Cluster, a: Action, c': Cluster, n: nat, m: Message)
    requires Formed(c, n) && Step(c, a, c') && PlainOk(m, c.servers)
    ensures PlainOk(m, c'.servers)
  {
    if m.AppendAnswer? && m.from < |c'.servers| {
      assert c.servers[m.from].dead ==> c'.servers[m.from].dead;
    }
  }

  lemma NewPlain(c: Cluster, a: Action, c': Cluster, n: nat, m: Message)
    requires Formed(c, n) && Step(c, a, c') && NetPlain(c) && m in c'.net && m !in c.net
    ensures PlainOk(m, c'.servers)
  {
    match a
    case SendHeartBeat(i, p) => assert Shaped(c.servers[i], n);
    case DeliverAppend(q) =>
      assert PlainOk(q, c.servers) && Shaped(c.servers[q.to], n);
    case _ =>
  }

  lemma {:induction false} RunPlain(r: Run, n: nat, k: nat)
    requires IsRun(r, n) && k < |r.states|
    ensures NetPlain(r.states[k])
  {
    if k > 0 {
      RunPlain(r, n, k - 1);
      A.RunFormed(r, n, k - 1);
      HistoryStep(r, n, k - 1);
      forall m | m in r.states[k].net ensures PlainOk(m, r.states[k].servers) {
        StepPlain(r.states[k - 1], r.actions[k - 1], r.states[k], n, m);
      }
    }
  }

  // -------------------------------------------------------- a reign as a whole

  function Next(c: Cluster, i: nat, p: nat): int {
    if i < |c.servers| && p < |c.servers[i].nextIndex| then c.servers[i].nextIndex[p] else 0
  }

  function Length(c: Cluster, i: nat): nat {
    if i < |c.servers| then |c.servers[i].log| else 0
  }

  lemma ReignMoves(r: Run, n: nat, k: nat, i: nat, p: nat, t: nat)
    requires IsRun(r, n) && H1(r) && k + 1 < |r.states| && p < n && p != i
    requires E.Leads(r.states[k], i, t) && E.Leads(r.states[k + 1], i, t)
    ensures Next(r.states[k + 1], i, p) ==
            NextIndexAfter(r, k, i, p, t, Next(r.states[k], i, p), Length(r.states[k + 1], i))
    ensures Length(r.states[k], i) <= Length(r.states[k + 1], i)
  {
    E.RunKeeps(r, n, k);
    ReignStep(r, n, k, i, p, t);
  }

  /** While none passes, nextIndex falls by one with every failed reply and by
      nothing else. */
  lemma {:induction false} NextIndexIs(r: Run, n: nat, i: nat, p: nat, t: nat, a: nat, k: nat)
    requires IsRun(r, n) && H1(r) && p < n && p != i && Reign(r, i, t, a, k) && NonePasses(r, i, p, t, a, k)
    ensures Next(r.states[k], i, p) + Failures(r, i, p, t, a, k) == Next(r.states[a], i, p)
    ensures Length(r.states[a], i) <= Length(r.states[k], i)
    decreases k
  {
    if a < k {
      NextIndexIs(r, n, i, p, t, a, k - 1);
      assert E.Leads(r.states[k - 1], i, t) && E.Leads(r.states[k - 1 + 1], i, t);
      ReignMoves(r, n, k - 1, i, p, t);
    }
  }

  lemma WithinStep(r: Run, n: nat, i: nat, p: nat, t: nat, k: nat)
    requires IsRun(r, n) && H1(r) && k + 1 < |r.states| && p < n && p != i
    requires E.Leads(r.states[k], i, t) && E.Leads(r.states[k + 1], i, t)
    requires Next(r.states[k], i, p) <= Length(r.states[k], i)
    ensures Next(r.states[k + 1], i, p) <= Length(r.states[k + 1], i)
  {
    ReignMoves(r, n, k, i, p, t);
  }

  lemma {:induction false} WithinLog(r: Run, n: nat, i: nat, p: nat, t: nat, a: nat, k: nat)
    requires IsRun(r, n) && H1(r) && p < n && p != i && Reign(r, i, t, a, k)
    requires Next(r.states[a], i, p) <= Length(r.states[a], i)
    ensures Next(r.states[k], i, p) <= Length(r.states[k], i)
    decreases k - a
  {
    if a < k {
      assert E.Leads(r.states[a], i, t) && E.Leads(r.states[a + 1], i, t);
      WithinStep(r, n, i, p, t, a);
      WithinLog(r, n, i, p, t, a + 1, k);
    }
  }

  /** A server that leads a term at two moments leads it at every moment between. */
  lemma LeadsBetween(r: Run, n: nat, j: nat, m: nat, k: nat, i: nat, t: nat)
    requires IsRun(r, n) && H1(r) && j <= m <= k < |r.states| && E.Leads(r.states[j], i, t)
             && E.Leads(r.states[k], i, t)
    ensures E.Leads(r.states[m], i, t)
  {
    E.RunKeeps(r, n, j);
    E.RunKeeps(r, n, m);
    E.LeadersStay(r, n, j, m);
    E.SameTermBetween(r, n, j, m, k, i, t);
    assert E.ServerOk(r.states[j].servers[i], HistoryAt(r, n, j));
    assert E.ServerOk(r.states[m].servers[i], HistoryAt(r, n, m));
  }

  lemma OneReign(r: Run, n: nat, j: nat, k: nat, i: nat, t: nat)
    requires IsRun(r, n) && H1(r) && j <= k < |r.states| && E.Leads(r.states[j], i, t) && E.Leads(r.states[k], i, t)
    ensures Reign(r, i, t, j, k)
  {
    forall m | j <= m <= k ensures E.Leads(r.states[m], i, t) {
      LeadsBetween(r, n, j, m, k, i, t);
    }
  }

  /** The step that made the server the leader of the term. */
  lemma {:induction false} Elected(r: Run, n: nat, i: nat, t: nat, k: nat) returns (e: nat)
    requires IsRun(r, n) && k < |r.states| && E.Leads(r.states[k], i, t)
    ensures e < k && !E.Leads(r.states[e], i, t) && Reign(r, i, t, e + 1, k)
  {
    if E.Leads(r.states[k - 1], i, t) {
      e := Elected(r, n, i, t, k - 1);
    } else {
      e := k - 1;
    }
  }

  lemma NextAtElection(r: Run, n: nat, i: nat, p: nat, t: nat, e: nat)
    requires IsRun(r, n) && H1(r) && e + 1 < |r.states| && p < n && p != i
    requires !E.Leads(r.states[e], i, t) && E.Leads(r.states[e + 1], i, t)
    ensures Next(r.states[e + 1], i, p) == Length(r.states[e], i) == Length(r.states[e + 1], i) >= 1
  {
    E.RunKeeps(r, n, e);
    E.RunKeeps(r, n, e + 1);
    HistoryStep(r, n, e);
    ElectionStep(r.states[e], r.actions[e], r.states[e + 1], n, i, p, t);
    assert Shaped(r.states[e].servers[i], n);
  }

  // --------------------------------------------------------- nextIndex stays up

  ghost predicate Alive(c: Cluster, p: nat) {
    p < |c.servers| && !c.servers[p].dead
  }

  /** The failed reply to a request of this reign was for an index above 0. */
  lemma FailureHasRoom(r: Run, n: nat, i: nat, p: nat, t: nat, k: nat)
    requires IsRun(r, n) && H1(r) && OneExchange(r, i, p, t) && p < n && p != i
    requires FailsAt(r, k, i, p, t) && Alive(r.states[k], p)
    ensures Next(r.states[k], i, p) >= 2
  {
    var j :| Answers(r, j, k, i, p, t);
    OneReign(r, n, j, k, i, t);
    NextIndexIs(r, n, i, p, t, j, k);
    NoneFails(r, i, p, t, j, k);
    RunPlain(r, n, k);
    HistoryStep(r, n, k);
    assert PlainOk(r.actions[k].m, r.states[k].servers);
  }

  lemma {:induction false} NoneFails(r: Run, i: nat, p: nat, t: nat, a: nat, k: nat)
    requires forall l :: a <= l < k ==> !FailsAt(r, l, i, p, t)
    ensures Failures(r, i, p, t, a, k) == 0
    decreases k
  {
    if a < k {
      NoneFails(r, i, p, t, a, k - 1);
    }
  }

  lemma AliveBefore(r: Run, n: nat, k: nat, p: nat)
    requires IsRun(r, n) && k + 1 < |r.states| && Alive(r.states[k + 1], p)
    ensures Alive(r.states[k], p)
  {
    HistoryStep(r, n, k);
    DeadStaysDead(r.states[k], r.actions[k], r.states[k + 1], p);
  }

  lemma DeadStaysDead(c: Cluster, a: Action, c': Cluster, p: nat)
    requires Step(c, a, c') && Alive(c', p)
    ensures Alive(c, p)
  {
  }

  lemma StaysUpStep(r: Run, n: nat, i: nat, p: nat, t: nat, k: nat)
    requires IsRun(r, n) && H1(r) && OneExchange(r, i, p, t) && p < n && p != i
    requires k + 1 < |r.states| && E.Leads(r.states[k], i, t) && E.Leads(r.states[k + 1], i, t)
    requires Alive(r.states[k], p) && 1 <= Next(r.states[k], i, p) <= Length(r.states[k], i)
    ensures 1 <= Next(r.states[k + 1], i, p) <= Length(r.states[k + 1], i)
  {
    ReignMoves(r, n, k, i, p, t);
    if FailsAt(r, k, i, p, t) {
      FailureHasRoom(r, n, i, p, t, k);
    }
  }

  lemma {:induction false} StaysUp(r: Run, n: nat, i: nat, p: nat, t: nat, k: nat)
    requires IsRun(r, n) && H1(r) && OneExchange(r, i, p, t) && p < n && p != i
    requires k < |r.states| && E.Leads(r.states[k], i, t) && Alive(r.states[k], p)
    ensures 1 <= Next(r.states[k], i, p) <= Length(r.states[k], i)
  {
    NotLeadingAtFirst(r, n, i, t);
    if E.Leads(r.states[k - 1], i, t) {
      AliveBefore(r, n, k - 1, p);
      StaysUp(r, n, i, p, t, k - 1);
      StaysUpStep(r, n, i, p, t, k - 1);
    } else {
      NextAtElection(r, n, i, p, t, k - 1);
    }
  }

  lemma NotLeadingAtFirst(r: Run, n: nat, i: nat, t: nat)
    requires IsRun(r, n)
    ensures !E.Leads(r.states[0], i, t)
  {
  }

  /** In every run that satisfies H1, at every moment at which i leads t and the peer is
      alive, if their exchanges in the term do not overlap: nextIndex is within the log
      and the heartbeat does not panic; and until the first reply passes, as many
      replies have failed as nextIndex is below the length of the log at the election,
      hence fewer than that length. */
  lemma BackOffTerminates(r: Run, n: nat, i: nat, p: nat, t: nat, k: nat) returns (e: nat)
    requires IsRun(r, n) && H1(r) && OneExchange(r, i, p, t) && p < n && p != i
    requires k < |r.states| && E.Leads(r.states[k], i, t) && Alive(r.states[k], p)
    ensures e < k && !E.Leads(r.states[e], i, t) && Reign(r, i, t, e + 1, k)
    ensures var s := r.states[k].servers[i];
            p < |s.nextIndex| && 1 <= s.nextIndex[p] <= |s.log| && HeartBeat(s, p).Done?
    ensures NonePasses(r, i, p, t, e + 1, k) ==>
              && Next(r.states[k], i, p) + Failures(r, i, p, t, e + 1, k) == Length(r.states[e], i)
              && Failures(r, i, p, t, e + 1, k) <= Length(r.states[e], i) - 1
  {
    e := Elected(r, n, i, t, k);
    StaysUp(r, n, i, p, t, k);
    NextAtElection(r, n, i, p, t, e);
    E.RunKeeps(r, n, k);
    if NonePasses(r, i, p, t, e + 1, k) {
      NextIndexIs(r, n, i, p, t, e + 1, k);
    }
  }

  /** From any moment of the reign on: fewer replies fail before one passes than the
      leader's log was then long. */
  lemma FewFailures(r: Run, n: nat, i: nat, p: nat, t: nat, a: nat, k: nat)
    requires IsRun(r, n) && H1(r) && OneExchange(r, i, p, t) && p < n && p != i
    requires a <= k < |r.states| && E.Leads(r.states[a], i, t) && E.Leads(r.states[k], i, t) && Alive(r.states[k], p)
    requires NonePasses(r, i, p, t, a, k)
    ensures Failures(r, i, p, t, a, k) < Length(r.states[a], i)
  {
    OneReign(r, n, a, k, i, t);
    NextIndexIs(r, n, i, p, t, a, k);
    StaysUp(r, n, i, p, t, k);
    var e := Elected(r, n, i, t, a);
    NextAtElection(r, n, i, p, t, e);
    WithinLog(r, n, i, p, t, e + 1, a);
  }

  /** Whatever the peer and the exchanges do: counted from a moment at which nextIndex
      was the log's length, which an election and a passing reply make it, the next
      heartbeat panics exactly when as many replies failed as that log was long. */
  lemma PanicsIff(r: Run, n: nat, i: nat, p: nat, t: nat, a: nat, k: nat)
    requires IsRun(r, n) && H1(r) && p < n && p != i && Reign(r, i, t, a, k) && NonePasses(r, i, p, t, a, k)
    requires Next(r.states[a], i, p) == Length(r.states[a], i)
    ensures p < |r.states[k].servers[i].nextIndex|
    ensures HeartBeat(r.states[k].servers[i], p).Panic? <==>
              !r.states[k].servers[i].dead && Failures(r, i, p, t, a, k) >= Length(r.states[a], i)
  {
    NextIndexIs(r, n, i, p, t, a, k);
    WithinLog(r, n, i, p, t, a, k);
    E.RunKeeps(r, n, k);
  }

  /** The moments from which failures are counted. */
  lemma ResetsNextIndex(r: Run, n: nat, i: nat, p: nat, t: nat, k: nat)
    requires IsRun(r, n) && H1(r) && k + 1 < |r.states| && p < n && p != i && E.Leads(r.states[k + 1], i, t)
    requires !E.Leads(r.states[k], i, t) || PassesAt(r, k, i, p, t)
    ensures Next(r.states[k + 1], i, p) == Length(r.states[k + 1], i)
  {
    if E.Leads(r.states[k], i, t) {
      ReignMoves(r, n, k, i, p, t);
    } else {
      NextAtElection(r, n, i, p, t, k);
    }
  }

  // ------------------------------------------------------------ what fails a reply

  /** While no committed command has been lost, as under H1, H2 and H3, a request handled
      by a live server that is not ahead of it in term is answered, and with success
      exactly when the prefix check passes, as it does for index 0.  A refusal names the
      request's term, so the leader counts it. */
  lemma RefusedIff(r: Run, n: nat, k: nat, m: Message)
    requires IsRun(r, n) && k < |r.states| && A.KeepsUpTo(r, k)
    requires m in r.states[k].net && m.AppendRequest? && Alive(r.states[k], m.to)
    requires r.states[k].servers[m.to].currentTerm <= m.append.term
    ensures var f := r.states[k].servers[m.to];
            && |f.log| > 0 && AppendEntries(f, m.append).Done?
            && (AppendEntries(f, m.append).value.1.success <==> PrefixAccepted(f.log, m.append))
            && (m.append.prevLogIndex == 0 ==> AppendEntries(f, m.append).value.1.success)
            && AppendEntries(f, m.append).value.1.term <= m.append.term
  {
    A.DeliveryNeverPanics(r, n, k, m);
    RunPlain(r, n, k);
    A.RunFormed(r, n, k);
    assert PlainOk(m, r.states[k].servers) && Shaped(r.states[k].servers[m.to], n);
  }

  /** The leader after j failed replies of the peer. */
  function BackedOff(s: Server, peer: nat, j: nat): (r: Server)
    requires peer < |s.nextIndex|
  {
    s.(nextIndex := s.nextIndex[peer := s.nextIndex[peer] - j])
  }
}
