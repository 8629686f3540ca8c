/** A cluster of Raft peers over a network that may lose, delay, reorder and
    repeat messages; its steps, its runs, and the hypotheses on runs under which
    the program is safe.  A killed server takes no step of its own. */
module RaftCluster {
  import opened Options
  import opened RaftCore

  /** A reply carries the arguments of the call it answers. */
  datatype Message =
    | VoteRequest(to: nat, vote: VoteArgs)
    | VoteAnswer(from: nat, vote: VoteArgs, voteReply: VoteReply)
    | AppendRequest(to: nat, append: AppendArgs)
    | AppendAnswer(from: nat, append: AppendArgs, appendReply: AppendReply)

  datatype Cluster = Cluster(servers: seq<Server>, net: set<Message>)

  datatype Action =
    | Timeout(server: nat)
    | DeliverVote(m: Message)
    | VoteReturns(m: Message)
    | SendHeartBeat(server: nat, peer: nat)
    | DeliverAppend(m: Message)
    | AppendReturns(m: Message)
    | ClientStart(server: nat, command: Command)
    | Kill(server: nat)

  predicate Init(c: Cluster, n: nat) {
    && |c.servers| == n
    && c.net == {}
    && forall i :: 0 <= i < n ==> c.servers[i] == InitServer(i, n)
  }

  predicate Formed(c: Cluster, n: nat) {
    && |c.servers| == n
    && forall i :: 0 <= i < n ==> Shaped(c.servers[i], n) && c.servers[i].me == i
  }

  function Put(c: Cluster, i: nat, s: Server, sent: set<Message>): Cluster
    requires i < |c.servers|
  {
    Cluster(c.servers[i := s], c.net + sent)
  }

  /** The server at which an action happens. */
  function Place(a: Action): nat {
    match a
    case Timeout(i) => i
    case DeliverVote(m) => if m.VoteRequest? then m.to else 0
    case VoteReturns(m) => if m.VoteAnswer? then m.vote.candidate else 0
    case SendHeartBeat(i, _) => i
    case DeliverAppend(m) => if m.AppendRequest? then m.to else 0
    case AppendReturns(m) => if m.AppendAnswer? then m.append.leader else 0
    case ClientStart(i, _) => i
    case Kill(i) => i
  }

  predicate TimeoutStep(c: Cluster, i: nat, c': Cluster)
    requires i < |c.servers| && |c.servers[i].log| > 0
  {
    var s := c.servers[i];
    && !s.dead && s.state != Leader
    && var (s', a) := StandForElection(s);
       c' == Put(c, i, s', set p | 0 <= p < |c.servers| && p != i :: VoteRequest(p, a))
  }

  predicate DeliverVoteStep(c: Cluster, m: Message, c': Cluster)
    requires m.VoteRequest? && m.to < |c.servers| && |c.servers[m.to].log| > 0
  {
    && m in c.net
    && var (s', reply) := RequestVote(c.servers[m.to], m.vote);
       c' == Put(c, m.to, s', {VoteAnswer(m.to, m.vote, reply)})
  }

  /** Each vote call returns at most once, to the election that made it. */
  predicate VoteReturnsStep(c: Cluster, m: Message, c': Cluster)
    requires m.VoteAnswer? && m.vote.candidate < |c.servers|
  {
    var s := c.servers[m.vote.candidate];
    && m in c.net
    && (m.vote.term, m.from) in s.awaiting
    && c' == Put(c, m.vote.candidate, VoteReturned(s, m.vote.term, m.from, m.voteReply), {})
  }

  predicate SendHeartBeatStep(c: Cluster, i: nat, peer: nat, c': Cluster)
    requires i < |c.servers| && peer < |c.servers[i].nextIndex|
  {
    && peer != i
    && var r := HeartBeat(c.servers[i], peer);
       r.Done? && c' == (if r.value.None? then c
                         else Put(c, i, c.servers[i], {AppendRequest(peer, r.value.value)}))
  }

  predicate DeliverAppendStep(c: Cluster, m: Message, c': Cluster)
    requires m.AppendRequest? && m.to < |c.servers| && |c.servers[m.to].log| > 0
  {
    && m in c.net
    && var r := AppendEntries(c.servers[m.to], m.append);
       r.Done? && c' == Put(c, m.to, r.value.0, {AppendAnswer(m.to, m.append, r.value.1)})
  }

  predicate AppendReturnsStep(c: Cluster, m: Message, c': Cluster)
    requires m.AppendAnswer? && m.append.leader < |c.servers|
    requires Shaped(c.servers[m.append.leader], |c.servers|) && m.from < |c.servers|
  {
    && m in c.net
    && var r := AppendReturned(c.servers[m.append.leader], m.from, m.appendReply);
       r.Done? && c' == Put(c, m.append.leader, r.value, {})
  }

  /** One atomic step.  A handler that panics has no successor state. */
  predicate Step(c: Cluster, a: Action, c': Cluster) {
    && Formed(c, |c.servers|)
    && Place(a) < |c.servers|
    && match a
       case Timeout(i) => TimeoutStep(c, i, c')
       case DeliverVote(m) => m.VoteRequest? && DeliverVoteStep(c, m, c')
       case VoteReturns(m) => m.VoteAnswer? && VoteReturnsStep(c, m, c')
       case SendHeartBeat(i, p) => p < |c.servers| && SendHeartBeatStep(c, i, p, c')
       case DeliverAppend(m) => m.AppendRequest? && DeliverAppendStep(c, m, c')
       case AppendReturns(m) => m.AppendAnswer? && m.from < |c.servers| && AppendReturnsStep(c, m, c')
       case ClientStart(i, cmd) => c' == Put(c, i, Start(c.servers[i], cmd), {})
       case Kill(i) => c' == Put(c, i, c.servers[i].(dead := true), {})
  }

  datatype Run = Run(states: seq<Cluster>, actions: seq<Action>)

  ghost predicate IsRun(r: Run, n: nat) {
    && |r.states| == |r.actions| + 1
    && Init(r.states[0], n)
    && forall k :: 0 <= k < |r.actions| ==> Step(r.states[k], r.actions[k], r.states[k + 1])
  }

  // ------------------------------------------------ hypotheses on the run

  /** H1: a reply that is counted is handled in the term of its request. */
  predicate SameTerm(c: Cluster, a: Action) {
    && (a.VoteReturns? && a.m.VoteAnswer? && a.m.vote.candidate < |c.servers| ==>
          var s := c.servers[a.m.vote.candidate];
          CountsVote(s, a.m.voteReply) ==> s.currentTerm == a.m.vote.term)
    && (a.AppendReturns? && a.m.AppendAnswer? && a.m.append.leader < |c.servers| ==>
          var s := c.servers[a.m.append.leader];
          CountsMatch(s, a.m.appendReply) ==> s.currentTerm == a.m.append.term)
  }

  /** How far an AppendEntries message reaches: the sender's log length. */
  function Reach(a: AppendArgs): nat { a.prevLogIndex + 1 + |a.entries| }

  /** H2: the leader's log has not grown since it sent the request whose
      successful reply it now counts. */
  predicate NotGrown(c: Cluster, a: Action) {
    a.AppendReturns? && a.m.AppendAnswer? && a.m.append.leader < |c.servers| ==>
      var s := c.servers[a.m.append.leader];
      CountsMatch(s, a.m.appendReply) ==> |s.log| == Reach(a.m.append)
  }

  /** H3: an index newly committed by counting holds an entry of the current term. */
  predicate CommitsOwnTerm(c: Cluster, a: Action, c': Cluster) {
    a.AppendReturns? && a.m.AppendAnswer? && a.m.append.leader < |c.servers| == |c'.servers| ==>
      var s, s' := c.servers[a.m.append.leader], c'.servers[a.m.append.leader];
      s'.commitIndex > s.commitIndex && s'.commitIndex < |s'.log| ==>
        s'.log[s'.commitIndex].term == s'.currentTerm
  }

  ghost predicate H1(r: Run) {
    forall k :: 0 <= k < |r.actions| && k < |r.states| ==> SameTerm(r.states[k], r.actions[k])
  }

  ghost predicate H2(r: Run) {
    forall k :: 0 <= k < |r.actions| && k < |r.states| ==> NotGrown(r.states[k], r.actions[k])
  }

  ghost predicate H3(r: Run) {
    forall k :: 0 <= k < |r.actions| && k + 1 < |r.states| ==>
                  CommitsOwnTerm(r.states[k], r.actions[k], r.states[k + 1])
  }
}
