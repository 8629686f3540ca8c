/** What a step does to the server it happens at, and what it answers. */
module RaftSteps {
  import opened Options
  import opened RaftCore
  import opened RaftCluster
  import opened RaftCommit
  import opened Quorums

  function Later(a: nat, b: nat): nat { if a < b then b else a }

  // ------------------------------------------------------------------- terms

  /** A server that hears of a later term, in a request, in a vote reply as a candidate or
      in an append reply as a leader. */
  predicate HearsOf(c: Cluster, a: Action, v: nat, t: nat)
    requires v < |c.servers|
  {
    var s := c.servers[v];
    && !s.dead && t > s.currentTerm
    && match a
       case DeliverVote(m) => m.VoteRequest? && m.to == v && m.vote.term == t
       case DeliverAppend(m) => m.AppendRequest? && m.to == v && m.append.term == t
       case VoteReturns(m) => m.VoteAnswer? && m.vote.candidate == v && m.voteReply.term == t && s.state == Candidate
       case AppendReturns(m) => m.AppendAnswer? && m.append.leader == v && m.appendReply.term == t && s.state == Leader
       case _ => false
  }

  /** It steps down into that term, with no vote but the one it may have granted. */
  lemma LaterTermHeard(c: Cluster, a: Action, c': Cluster, v: nat, t: nat)
    requires Step(c, a, c') && v < |c.servers| == |c'.servers| && HearsOf(c, a, v, t)
    ensures var s' := c'.servers[v];
            && s'.state == Follower && s'.currentTerm == t
            && (s'.votedFor.Some? ==> a.DeliverVote? && s'.votedFor == Some(a.m.vote.candidate))
  {
  }

  /** Nothing else changes a term, but standing. */
  lemma TermChanges(c: Cluster, a: Action, c': Cluster, v: nat)
    requires Step(c, a, c') && v < |c.servers| == |c'.servers| && c'.servers[v].currentTerm != c.servers[v].currentTerm
    ensures a == Timeout(v) || HearsOf(c, a, v, c'.servers[v].currentTerm)
  {
  }

  // ------------------------------------------------------------------ answers

  /** The answer to a vote request names the voter's term as it then is, or nothing if it
      is dead; granting is voting, and nothing but role, term and vote changes. */
  lemma VoteAnswered(c: Cluster, m: Message, c': Cluster) returns (reply: VoteReply)
    requires m.VoteRequest? && m.to < |c.servers| && Step(c, DeliverVote(m), c')
    ensures c'.net == c.net + {VoteAnswer(m.to, m.vote, reply)} && |c'.servers| == |c.servers|
    ensures var f, f' := c.servers[m.to], c'.servers[m.to];
            && (f.dead ==> f' == f && reply == VoteReply(0, false))
            && (!f.dead ==>
                  && reply.term == f'.currentTerm == Later(f.currentTerm, m.vote.term)
                  && (reply.granted ==> f'.votedFor == Some(m.vote.candidate) && f'.currentTerm == m.vote.term)
                  && (!reply.granted && f'.currentTerm == f.currentTerm ==> f' == f)
                  && f' == f.(state := f'.state, currentTerm := f'.currentTerm, votedFor := f'.votedFor)
                  && (f'.currentTerm == f.currentTerm ==> f'.state == f.state))
  {
    reply := RequestVote(c.servers[m.to], m.vote).1;
  }

  /** An append request of an earlier term, or to a dead server, changes nothing; any other
      is heard as from a leader.  A refusal names the server's term as it then is, and a
      success no term. */
  predicate Hears(f: Server, a: AppendArgs, f': Server, reply: AppendReply) {
    if f.dead then f' == f && reply == AppendReply(0, false)
    else if a.term < f.currentTerm then f' == f && reply == AppendReply(f.currentTerm, false)
    else
      && f'.state == Follower && f'.currentTerm == a.term && !f'.dead
      && f'.votedFor == (if f.state == Follower && f.currentTerm == a.term then f.votedFor else None)
      && reply.term == (if reply.success then 0 else a.term)
      && (!reply.success ==> f'.log == f.log && f'.commitIndex == f.commitIndex && f'.applied == f.applied)
      && f'.nextIndex == f.nextIndex && f'.matchIndex == f.matchIndex
      && f'.voteNum == f.voteNum && f'.awaiting == f.awaiting
  }

  lemma HandlerHears(f: Server, a: AppendArgs)
    requires |f.log| > 0 && AppendEntries(f, a).Done?
    ensures Hears(f, a, AppendEntries(f, a).value.0, AppendEntries(f, a).value.1)
  {
  }

  lemma AppendAnswered(c: Cluster, m: Message, c': Cluster) returns (reply: AppendReply)
    requires m.AppendRequest? && m.to < |c.servers| && Step(c, DeliverAppend(m), c')
    ensures c'.net == c.net + {AppendAnswer(m.to, m.append, reply)} && |c'.servers| == |c.servers|
    ensures Hears(c.servers[m.to], m.append, c'.servers[m.to], reply)
  {
    reply := AppendEntries(c.servers[m.to], m.append).value.1;
    HandlerHears(c.servers[m.to], m.append);
  }

  // ----------------------------------------------------------------- elections

  /** A time-out starts an election: one vote counted, its own, and a request about its
      log to every other server, whose answer it then awaits. */
  lemma Stood(c: Cluster, i: nat, c': Cluster)
    requires i < |c.servers| && Step(c, Timeout(i), c')
    ensures |c'.servers| == |c.servers|
    ensures var s, s', t := c.servers[i], c'.servers[i], c.servers[i].currentTerm + 1;
            && s'.state == Candidate && s'.currentTerm == t && s'.votedFor == Some(i)
            && t in s'.voteNum && s'.voteNum[t] == 1
            && (forall p :: 0 <= p < |c.servers| && p != i ==>
                  && (t, p) in s'.awaiting
                  && VoteRequest(p, VoteArgs(t, i, |s.log| - 1, s.log[|s.log| - 1].term)) in c'.net)
            && s.awaiting <= s'.awaiting && s'.log == s.log
            && s'.nextIndex == s.nextIndex && s'.matchIndex == s.matchIndex && s'.commitIndex == s.commitIndex
    ensures forall m :: m in c'.net && m !in c.net ==> m.VoteRequest? && m.to != i
  {
    assert Shaped(c.servers[i], |c.servers|);
  }

  /** Votes counted so far for the election. */
  function Tally(s: Server, election: nat): nat {
    if election in s.voteNum then s.voteNum[election] else 0
  }

  /** A vote call that has returned is over.  A live candidate counts it if it grants the
      vote and names no later term, and leads exactly when more than half have then been
      counted, with nothing yet known of any peer's log. */
  lemma VoteCounted(c: Cluster, m: Message, c': Cluster)
    requires m.VoteAnswer? && m.vote.candidate < |c.servers| && Step(c, VoteReturns(m), c')
    ensures |c'.servers| == |c.servers| && c'.net == c.net
    ensures var s, s', t := c.servers[m.vote.candidate], c'.servers[m.vote.candidate], m.vote.term;
            var counted := !s.dead && s.state == Candidate && m.voteReply.term <= s.currentTerm && m.voteReply.granted;
            && (t, m.from) !in s'.awaiting
            && s'.awaiting == s.awaiting - {(t, m.from)} && s'.log == s.log && s'.dead == s.dead
            && Tally(s', t) == Tally(s, t) + (if counted then 1 else 0)
            && (s.state != Leader ==> (s'.state == Leader <==> counted && 2 * Tally(s', t) > |c.servers|))
            && (s.state != Leader && s'.state == Leader ==>
                  forall p :: 0 <= p < |c.servers| ==> s'.nextIndex[p] == |s.log| && s'.matchIndex[p] == 0)
  {
    assert Shaped(c.servers[m.vote.candidate], |c.servers|);
  }

  // ---------------------------------------------------------------- replication

  /** A leader that is given a command appends it in its own term and counts itself as
      holding it; any other server ignores it. */
  lemma Started(c: Cluster, i: nat, cmd: Command, c': Cluster)
    requires i < |c.servers| && Step(c, ClientStart(i, cmd), c')
    ensures |c'.servers| == |c.servers| && c'.net == c.net
    ensures var s, s' := c.servers[i], c'.servers[i];
            && (s.state != Leader ==> s' == s)
            && (s.state == Leader ==>
                  && |s'.log| == |s.log| + 1 && s.log <= s'.log && s'.log[|s.log|] == Entry(s.currentTerm, cmd)
                  && s'.matchIndex[i] == |s.log| && s'.nextIndex[i] == |s'.log|
                  && (forall p :: 0 <= p < |c.servers| && p != i ==>
                        s'.matchIndex[p] == s.matchIndex[p] && s'.nextIndex[p] == s.nextIndex[p])
                  && s' == s.(log := s'.log, matchIndex := s'.matchIndex, nextIndex := s'.nextIndex))
  {
    assert Shaped(c.servers[i], |c.servers|);
  }

  /** More than half the servers are known to match up to index i. */
  ghost predicate Matched(s: Server, i: nat) {
    Majority(Matching(s.matchIndex, i), |s.matchIndex|)
  }

  lemma QuorumIs(matchIndex: seq<nat>, i: nat)
    ensures QuorumAt(matchIndex, i) <==> Majority(Matching(matchIndex, i), |matchIndex|)
  {
    CountIsSize(matchIndex, i);
  }

  /** A leader that counts a success takes the peer to hold its whole log, and commits up
      to the largest index that more than half are then known to match; with a refusal it
      goes one back. */
  lemma ReplyCounted(c: Cluster, m: Message, c': Cluster)
    requires m.AppendAnswer? && m.append.leader < |c.servers| && m.from < |c.servers| && Step(c, AppendReturns(m), c')
    ensures |c'.servers| == |c.servers| && c'.net == c.net
    ensures var s, s', p := c.servers[m.append.leader], c'.servers[m.append.leader], m.from;
            s.state == Leader && !s.dead && m.appendReply.term <= s.currentTerm ==>
              && s'.state == Leader && s'.currentTerm == s.currentTerm && s'.log == s.log
              && |s'.nextIndex| == |s'.matchIndex| == |c.servers|
              && (m.appendReply.success ==>
                    && s'.nextIndex[p] == |s.log| && s'.matchIndex[p] == |s.log| - 1
                    && (forall j {:trigger Matched(s', j)} :: s'.commitIndex < j < |s.log| ==> !Matched(s', j))
                    && (s'.commitIndex == s.commitIndex
                        || (s.commitIndex < s'.commitIndex < |s.log| && Matched(s', s'.commitIndex))))
              && (!m.appendReply.success ==>
                    && s'.nextIndex[p] == s.nextIndex[p] - 1 && s'.matchIndex == s.matchIndex
                    && s'.commitIndex == s.commitIndex && s'.applied == s.applied)
              && forall q :: 0 <= q < |c.servers| && q != p ==>
                   s'.nextIndex[q] == s.nextIndex[q] && s'.matchIndex[q] == s.matchIndex[q]
  {
    var s, s' := c.servers[m.append.leader], c'.servers[m.append.leader];
    assert Shaped(s, |c.servers|);
    if s.state == Leader && !s.dead && m.appendReply.term <= s.currentTerm && m.appendReply.success {
      assert s'.matchIndex == PeerMatched(s, m.from).matchIndex;
      QuorumIs(s'.matchIndex, s'.commitIndex);
      forall j | s'.commitIndex < j < |s.log| ensures !Matched(s', j) {
        QuorumIs(s'.matchIndex, j);
      }
    }
  }

  /** A reply that reaches a server that is dead or leads no more changes nothing. */
  lemma ReplyIgnored(c: Cluster, m: Message, c': Cluster)
    requires m.AppendAnswer? && m.append.leader < |c.servers| && Step(c, AppendReturns(m), c')
    requires var s := c.servers[m.append.leader]; s.dead || s.state != Leader
    ensures c' == c
  {
  }

  /** A request starts where the leader thinks the peer's log ends, with the entry before,
      and holds everything from there on; a server that is dead or does not lead sends none. */
  lemma Asked(c: Cluster, i: nat, p: nat, c': Cluster) returns (a: AppendArgs)
    requires i < |c.servers| && p < |c.servers| && Step(c, SendHeartBeat(i, p), c')
    ensures var s := c.servers[i];
            if s.dead || s.state != Leader then c' == c
            else
              && |s.nextIndex| == |c.servers| && 1 <= s.nextIndex[p] <= |s.log| && p != i
              && c'.servers == c.servers && c'.net == c.net + {AppendRequest(p, a)}
              && a.term == s.currentTerm && a.leader == i && a.leaderCommit == s.commitIndex
              && a.prevLogIndex + 1 == s.nextIndex[p] && s.log[a.prevLogIndex].term == a.prevLogTerm
              && s.log[..s.nextIndex[p]] + a.entries == s.log
  {
    var s := c.servers[i];
    assert Shaped(s, |c.servers|);
    if s.dead || s.state != Leader {
      a := AppendArgs(0, 0, 0, 0, [], 0);
    } else {
      a := HeartBeat(s, p).value.value;
    }
  }

  /** A new server follows in term 0, has voted for nobody, holds the sentinel alone, and
      knows of nothing committed, applied or matched. */
  lemma FreshServer(me: nat, n: nat, p: nat)
    requires me < n && p < n
    ensures var s := InitServer(me, n);
            && s.me == me && !s.dead && s.state == Follower && s.currentTerm == 0 && s.votedFor == None
            && s.log == [Entry(0, Nil)] && s.commitIndex == 0 && s.lastApplied == 0 && s.applied == []
            && |s.nextIndex| == |s.matchIndex| == n && s.nextIndex[p] == |s.log| && s.matchIndex[p] == 0
            && s.voteNum == map[] && s.awaiting == {}
  {
  }
}
