/** Quorums behind commits. */
module RaftQuorum {
  import opened Options
  import opened RaftCore
  import opened RaftCluster
  import opened RaftHistory
  import opened Quorums
  import opened L = RaftLogs
  import opened P = RaftPersistence
  import opened RaftCommit
  import E = RaftElection

  // ---------------------------------------------------- quorum-backed commits

  /** At moment j the server, in the given term, held the given prefix. */
  predicate HadPrefix(r: Run, j: nat, v: nat, term: nat, prefix: seq<Entry>) {
    && j < |r.states| && v < |r.states[j].servers|
    && r.states[j].servers[v].currentTerm == term
    && prefix <= r.states[j].servers[v].log
  }

  ghost predicate HadPrefixBy(r: Run, k: nat, v: nat, term: nat, prefix: seq<Entry>) {
    exists j :: 0 <= j <= k && HadPrefix(r, j, v, term, prefix)
  }

  ghost predicate AllHad(r: Run, k: nat, q: set<nat>, term: nat, prefix: seq<Entry>) {
    forall v :: v in q ==> HadPrefixBy(r, k, v, term, prefix)
  }

  ghost predicate AckSeen(r: Run, k: nat, ack: Ack, lead: LeaderLogs) {
    && ack.term in lead && ack.len <= |lead[ack.term]|
    && HadPrefixBy(r, k, ack.server, ack.term, lead[ack.term][..ack.len])
  }

  ghost predicate AcksSeen(r: Run, k: nat, h: History) {
    forall ack :: ack in h.acks ==> AckSeen(r, k, ack, h.lead)
  }

  lemma AckStaysSeen(r: Run, k: nat, ack: Ack, lead: LeaderLogs, lead': LeaderLogs)
    requires AckSeen(r, k, ack, lead) && LeadExtends(lead, lead')
    ensures AckSeen(r, k + 1, ack, lead')
  {
    assert lead'[ack.term][..ack.len] == lead[ack.term][..ack.len];
  }

  /** The acknowledgement a step records is true of the state after the step. */
  lemma NewAckSeen(c: Cluster, h: History, n: nat, a: Action, c': Cluster, ack: Ack)
    requires SafeInv(c, h, n) && Step(c, a, c')
    requires var h' := Record(h, a, c.servers[Place(a)], c'.servers[Place(a)]);
             ack in h'.acks && ack !in h.acks
    ensures var h' := Record(h, a, c.servers[Place(a)], c'.servers[Place(a)]);
            && ack.server == Place(a) && ack.term in h'.lead && ack.len <= |h'.lead[ack.term]|
            && c'.servers[ack.server].currentTerm == ack.term
            && h'.lead[ack.term][..ack.len] <= c'.servers[ack.server].log
  {
    var i := Place(a);
    if a.DeliverAppend? {
      AppendAckSeen(c, h, n, a.m, c');
    }
  }

  lemma AppendAckSeen(c: Cluster, h: History, n: nat, m: Message, c': Cluster)
    requires SafeInv(c, h, n) && m.AppendRequest? && m.to < n && DeliverAppendStep(c, m, c')
    requires AppendEntries(c.servers[m.to], m.append).value.1.success
    ensures m.append.term in h.lead && Reach(m.append) <= |h.lead[m.append.term]|
    ensures c'.servers[m.to].currentTerm == m.append.term
    ensures h.lead[m.append.term][..Reach(m.append)] <= c'.servers[m.to].log
  {
    var s, a := c.servers[m.to], m.append;
    assert ServerLogOk(s, h) && MessageLogOk(m, h);
    var s1 := HearLeader(s, a.term);
    MergeFollowsLeader(s1.log, a, h);
    assert c'.servers[m.to].log == Merge(s1.log, a.prevLogIndex, a.entries);
  }

  lemma StepAcksSeen(r: Run, n: nat, k: nat, h: History, h': History)
    requires k < |r.actions| && k + 1 < |r.states| && Step(r.states[k], r.actions[k], r.states[k + 1])
    requires SafeInv(r.states[k], h, n) && AcksSeen(r, k, h) && LeadExtends(h.lead, h'.lead)
    requires h' == Record(h, r.actions[k],
                          r.states[k].servers[Place(r.actions[k])], r.states[k + 1].servers[Place(r.actions[k])])
    ensures AcksSeen(r, k + 1, h')
  {
    forall ack | ack in h'.acks ensures AckSeen(r, k + 1, ack, h'.lead) {
      if ack in h.acks {
        AckStaysSeen(r, k, ack, h.lead, h'.lead);
      } else {
        NewAckSeen(r.states[k], h, n, r.actions[k], r.states[k + 1], ack);
        assert HadPrefix(r, k + 1, ack.server, ack.term, h'.lead[ack.term][..ack.len]);
      }
    }
  }

  lemma {:induction false} RunAcksSeen(r: Run, n: nat, k: nat)
    requires IsRun(r, n) && H1(r) && k < |r.states|
    ensures AcksSeen(r, k, HistoryAt(r, n, k))
  {
    if k > 0 {
      RunAcksSeen(r, n, k - 1);
      P.RunKeeps(r, n, k - 1);
      L.LeadStays(r, n, k - 1, k);
      HistoryStep(r, n, k - 1);
      StepAcksSeen(r, n, k - 1, HistoryAt(r, n, k - 1), HistoryAt(r, n, k));
    }
  }

  /** In step k a leader moves its commit index by counting replies. */
  predicate CommitsByCounting(r: Run, k: nat) {
    && k < |r.actions| && k + 1 < |r.states|
    && r.actions[k].AppendReturns? && r.actions[k].m.AppendAnswer?
    && r.actions[k].m.append.leader < |r.states[k].servers| == |r.states[k + 1].servers|
    && var i := r.actions[k].m.append.leader;
       r.states[k + 1].servers[i].commitIndex > r.states[k].servers[i].commitIndex
  }

  /** In every run that satisfies H1 and H2, when a leader moves its commit index
      to ci by counting, each server of some strict majority had, at some moment
      of that leader's term, the leader's log up to ci. */
  lemma QuorumBackedCommit(r: Run, n: nat, k: nat) returns (q: set<nat>)
    requires IsRun(r, n) && H1(r) && H2(r) && CommitsByCounting(r, k)
    ensures Majority(q, n)
    ensures var s := r.states[k + 1].servers[r.actions[k].m.append.leader];
            s.commitIndex < |s.log| && AllHad(r, k, q, s.currentTerm, s.log[..s.commitIndex + 1])
  {
    RunCountingIsAcked(r, n, k);
    RunAcksSeen(r, n, k);
    var h := HistoryAt(r, n, k);
    var s := r.states[k + 1].servers[r.actions[k].m.append.leader];
    q := Ackers(h.acks, s.currentTerm, s.commitIndex);
    AckersHadPrefix(r, k, h, s, q);
  }

  lemma AckersHadPrefix(r: Run, k: nat, h: History, s: Server, q: set<nat>)
    requires AcksSeen(r, k, h) && s.commitIndex < |s.log| && s.currentTerm in h.lead && h.lead[s.currentTerm] == s.log
    requires q == Ackers(h.acks, s.currentTerm, s.commitIndex)
    ensures AllHad(r, k, q, s.currentTerm, s.log[..s.commitIndex + 1])
  {
    forall v | v in q ensures HadPrefixBy(r, k, v, s.currentTerm, s.log[..s.commitIndex + 1]) {
      AckerHadPrefix(r, k, h, v, s);
    }
  }

  lemma RunCountingIsAcked(r: Run, n: nat, k: nat)
    requires IsRun(r, n) && H1(r) && H2(r) && CommitsByCounting(r, k)
    ensures var s, h := r.states[k + 1].servers[r.actions[k].m.append.leader], HistoryAt(r, n, k);
            && s.commitIndex < |s.log| && s.currentTerm in h.lead && h.lead[s.currentTerm] == s.log
            && Majority(Ackers(h.acks, s.currentTerm, s.commitIndex), n)
  {
    P.RunKeeps(r, n, k);
    RunKeepsMatch(r, n, k);
    CountingIsAcked(r, n, k, HistoryAt(r, n, k));
  }

  lemma CountingIsAcked(r: Run, n: nat, k: nat, h: History)
    requires IsRun(r, n) && H1(r) && H2(r) && CommitsByCounting(r, k)
    requires SafeInv(r.states[k], h, n) && MatchInv(r.states[k], h)
    ensures var s := r.states[k + 1].servers[r.actions[k].m.append.leader];
            && s.commitIndex < |s.log| && s.currentTerm in h.lead && h.lead[s.currentTerm] == s.log
            && Majority(Ackers(h.acks, s.currentTerm, s.commitIndex), n)
  {
    var c, m := r.states[k], r.actions[k].m;
    var i := m.append.leader;
    assert Step(r.states[k], r.actions[k], r.states[k + 1]);
    assert SameTerm(r.states[k], r.actions[k]) && NotGrown(r.states[k], r.actions[k]);
    assert ServerLogOk(c.servers[i], h);
    PeerMatchedOk(c, h, m);
    AcksBelow(c, h);
    CountedIsAcked(c.servers[i], m.from, h, n, PeerMatched(c.servers[i], m.from));
  }

  lemma AckerHadPrefix(r: Run, k: nat, h: History, v: nat, s: Server)
    requires AcksSeen(r, k, h) && s.commitIndex < |s.log| && s.currentTerm in h.lead && h.lead[s.currentTerm] == s.log
    requires v in Ackers(h.acks, s.currentTerm, s.commitIndex)
    ensures HadPrefixBy(r, k, v, s.currentTerm, s.log[..s.commitIndex + 1])
  {
    var ack :| ack in h.acks && ack.term == s.currentTerm && ack.len > s.commitIndex && ack.server == v;
    assert AckSeen(r, k, ack, h.lead);
    var j :| 0 <= j <= k && HadPrefix(r, j, v, s.currentTerm, s.log[..ack.len]);
    assert s.log[..s.commitIndex + 1] <= s.log[..ack.len];
    assert HadPrefix(r, j, v, s.currentTerm, s.log[..s.commitIndex + 1]);
  }

  // --------------------------------------------------------- handlers that panic

  /** Committing by counting never panics, in any state at all in which the
      commit index is within the log. */
  lemma CountingNeverPanics(s: Server, peer: nat, reply: AppendReply, n: nat)
    requires Shaped(s, n) && peer < n && s.commitIndex < |s.log|
    ensures AppendReturned(s, peer, reply).Done?
  {
  }
}
