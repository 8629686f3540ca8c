/** Append requests that arrive in another order than they were sent. */
module RaftReorder {
  import opened Options
  import opened RaftCore
  import opened RaftCluster
  import opened RaftHistory
  import opened L = RaftLogs
  import opened P = RaftPersistence
  import opened RaftCommit
  import A = RaftApply
  import Q = RaftQuorum
  import E = RaftElection

  // ------------------------------------------------------------- two merges

  /** What Merge computes on logs drawn from leaders' logs: the old log if it
      already reaches as far as the message, else the leader's log that far. */
  lemma MergeIs(log: seq<Entry>, a: AppendArgs, h: History)
    requires LeadOk(h) && Matches(log, h.lead) && AppendOk(a, h.lead) && PrefixAccepted(log, a)
    ensures var p := h.lead[a.term][..Reach(a)];
            Merge(log, a.prevLogIndex, a.entries) == if p <= log then log else p
  {
    var p := h.lead[a.term][..Reach(a)];
    MergeFollowsLeader(log, a, h);
    if p <= log {
      NothingConflicts(log, a, h.lead[a.term]);
    }
  }

  lemma NothingConflicts(log: seq<Entry>, a: AppendArgs, l: seq<Entry>)
    requires Reach(a) <= |l| && l[..Reach(a)] <= log && a.entries == l[a.prevLogIndex + 1..Reach(a)]
    ensures FirstConflict(log, a.prevLogIndex + 1, a.entries).None?
  {
    forall j | 0 <= j < |a.entries| ensures !Conflicts(log, a.prevLogIndex + 1 + j, a.entries[j]) {
      assert a.entries[j] == l[..Reach(a)][a.prevLogIndex + 1 + j] == log[a.prevLogIndex + 1 + j];
    }
  }

  /** Accepting one message of a leader does not make another one unacceptable. */
  lemma StillAccepted(log: seq<Entry>, a: AppendArgs, b: AppendArgs, h: History)
    requires LeadOk(h) && Matches(log, h.lead) && a.term == b.term
    requires AppendOk(a, h.lead) && AppendOk(b, h.lead) && PrefixAccepted(log, a) && PrefixAccepted(log, b)
    ensures var r := Merge(log, a.prevLogIndex, a.entries);
            Matches(r, h.lead) && PrefixAccepted(r, b)
  {
    var l, r := h.lead[a.term], Merge(log, a.prevLogIndex, a.entries);
    assert LeadLogOk(a.term, h);
    SameTermSamePrefix(log, l, h.lead, b.prevLogIndex);
    MergeKeepsCommon(log, a, h, log[..b.prevLogIndex + 1]);
    assert log[..b.prevLogIndex + 1][b.prevLogIndex] == log[b.prevLogIndex];
    MergeFollowsLeader(log, a, h);
    PrefixMatches(l[..Reach(a)], l, h.lead);
  }

  /** Two messages of one leader, in either order, give the same log: the one that
      reaches further decides. */
  lemma MergeCommutes(log: seq<Entry>, a: AppendArgs, b: AppendArgs, h: History)
    requires LeadOk(h) && Matches(log, h.lead) && a.term == b.term
    requires AppendOk(a, h.lead) && AppendOk(b, h.lead) && PrefixAccepted(log, a) && PrefixAccepted(log, b)
    ensures var ra, rb := Merge(log, a.prevLogIndex, a.entries), Merge(log, b.prevLogIndex, b.entries);
            && PrefixAccepted(ra, b) && PrefixAccepted(rb, a)
            && Merge(ra, b.prevLogIndex, b.entries) == Merge(rb, a.prevLogIndex, a.entries)
            && Merge(ra, b.prevLogIndex, b.entries) == (if Reach(a) < Reach(b) then rb else ra)
  {
    StillAccepted(log, a, b, h);
    StillAccepted(log, b, a, h);
    MergeIs(log, a, h);
    MergeIs(log, b, h);
    MergeIs(Merge(log, a.prevLogIndex, a.entries), b, h);
    MergeIs(Merge(log, b.prevLogIndex, b.entries), a, h);
    var l := h.lead[a.term];
    if Reach(a) < Reach(b) {
      LongerPrefix(l, Reach(a), Reach(b), log);
    } else {
      LongerPrefix(l, Reach(b), Reach(a), log);
    }
  }

  lemma LongerPrefix(l: seq<Entry>, i: nat, j: nat, log: seq<Entry>)
    requires i <= j <= |l|
    ensures l[..i] <= l[..j] && (l[..j] <= log ==> l[..i] <= log)
    ensures l[..j] <= l[..i] ==> l[..i] == l[..j]
  {
  }

  // ------------------------------------------------- two requests, each handled or refused

  /** The log after a request: merged if the prefix check passes, else as it was. */
  function Handled(log: seq<Entry>, a: AppendArgs): (r: seq<Entry>)
    requires |log| > 0
    ensures |r| > 0
  {
    if PrefixAccepted(log, a) then Merge(log, a.prevLogIndex, a.entries) else log
  }

  /** That is what the handler makes of the log of a live server not ahead in term. */
  lemma HandledIs(s: Server, a: AppendArgs)
    requires |s.log| > 0 && !s.dead && s.currentTerm <= a.term && AppendEntries(s, a).Done?
    ensures AppendEntries(s, a).value.0.log == Handled(s.log, a)
  {
    A.HandlerLog(s, a);
  }

  /** The request b is refused unless a comes first, and then reaches further than a. */
  predicate Needs(log: seq<Entry>, b: AppendArgs, a: AppendArgs)
    requires |log| > 0
  {
    !PrefixAccepted(log, b) && PrefixAccepted(Handled(log, a), b) && Reach(b) > Reach(a)
  }

  /** The log after both, a first. */
  function Both(log: seq<Entry>, a: AppendArgs, b: AppendArgs): seq<Entry>
    requires |log| > 0
  {
    Handled(Handled(log, a), b)
  }

  lemma HandledMatches(log: seq<Entry>, a: AppendArgs, h: History)
    requires LeadOk(h) && |log| > 0 && Matches(log, h.lead) && AppendOk(a, h.lead)
    ensures Matches(Handled(log, a), h.lead)
    ensures PrefixAccepted(log, a) ==>
              var r, p := Handled(log, a), h.lead[a.term][..Reach(a)];
              r == (if p <= log then log else p) && p <= r
  {
    if PrefixAccepted(log, a) {
      MergeIs(log, a, h);
      MergeFollowsLeader(log, a, h);
      assert LeadLogOk(a.term, h);
      PrefixMatches(h.lead[a.term][..Reach(a)], h.lead[a.term], h.lead);
    }
  }

  /** A request handled a second time, or a shorter one that arrives late, changes
      nothing, whether it is then accepted or not. */
  lemma StaleChangesNothing(log: seq<Entry>, a: AppendArgs, b: AppendArgs, h: History)
    requires LeadOk(h) && |log| > 0 && Matches(log, h.lead) && a.term == b.term && Reach(b) <= Reach(a)
    requires AppendOk(a, h.lead) && AppendOk(b, h.lead) && PrefixAccepted(log, a)
    ensures Both(log, a, b) == Handled(log, a)
  {
    var r := Handled(log, a);
    HandledMatches(log, a, h);
    HandledMatches(r, b, h);
    LongerPrefix(h.lead[a.term], Reach(b), Reach(a), r);
  }

  /** One is accepted at first and the other is not. */
  lemma OneRefused(log: seq<Entry>, a: AppendArgs, b: AppendArgs, h: History)
    requires LeadOk(h) && |log| > 0 && Matches(log, h.lead) && a.term == b.term
    requires AppendOk(a, h.lead) && AppendOk(b, h.lead) && PrefixAccepted(log, a) && !PrefixAccepted(log, b)
    ensures Both(log, b, a) == Handled(log, a)
    ensures Both(log, a, b) == Handled(log, a) <==> !Needs(log, b, a)
  {
    var r, l := Handled(log, a), h.lead[a.term];
    HandledMatches(log, a, h);
    if Reach(b) <= Reach(a) {
      StaleChangesNothing(log, a, b, h);
    } else if PrefixAccepted(r, b) {
      assert r == l[..Reach(a)];
      HandledMatches(r, b, h);
    }
  }

  /** Two requests of one leader give the same log in either order if and only if neither
      needs the other to come first; if both are accepted at first, the one that reaches
      further decides. */
  lemma OrderIrrelevantIff(log: seq<Entry>, a: AppendArgs, b: AppendArgs, h: History)
    requires LeadOk(h) && |log| > 0 && Matches(log, h.lead) && a.term == b.term
    requires AppendOk(a, h.lead) && AppendOk(b, h.lead)
    ensures Both(log, a, b) == Both(log, b, a) <==> !Needs(log, a, b) && !Needs(log, b, a)
    ensures PrefixAccepted(log, a) && PrefixAccepted(log, b) ==>
              Both(log, a, b) == Both(log, b, a) == Handled(log, if Reach(a) < Reach(b) then b else a)
  {
    if PrefixAccepted(log, a) && PrefixAccepted(log, b) {
      MergeCommutes(log, a, b, h);
    } else if PrefixAccepted(log, a) {
      OneRefused(log, a, b, h);
    } else if PrefixAccepted(log, b) {
      OneRefused(log, b, a, h);
    }
  }

  /** The same over runs: in every run that satisfies H1, for any two requests of one
      term in transit, at whatever server's log. */
  lemma RequestsCommuteIff(r: Run, n: nat, k: nat, x: nat, m: Message, m': Message)
    requires IsRun(r, n) && H1(r) && k < |r.states| && x < |r.states[k].servers|
    requires m in r.states[k].net && m' in r.states[k].net && m.AppendRequest? && m'.AppendRequest?
    requires m.append.term == m'.append.term
    ensures |r.states[k].servers[x].log| > 0
    ensures var log, a, b := r.states[k].servers[x].log, m.append, m'.append;
            && (Both(log, a, b) == Both(log, b, a) <==> !Needs(log, a, b) && !Needs(log, b, a))
            && (PrefixAccepted(log, a) && Reach(b) <= Reach(a) ==> Both(log, a, b) == Handled(log, a))
  {
    L.RunKeeps(r, n, k);
    var h, log, a, b := HistoryAt(r, n, k), r.states[k].servers[x].log, m.append, m'.append;
    assert ServerLogOk(r.states[k].servers[x], h) && MessageLogOk(m, h) && MessageLogOk(m', h);
    OrderIrrelevantIff(log, a, b, h);
    if PrefixAccepted(log, a) && Reach(b) <= Reach(a) {
      StaleChangesNothing(log, a, b, h);
    }
  }

  // ------------------------------------- under H1 and H2 the order never matters

  /** A server that acknowledged a prefix in its present term still holds it. */
  ghost predicate HoldsAck(ack: Ack, s: Server, lead: LeaderLogs) {
    && ack.term in lead && ack.len <= |lead[ack.term]|
    && lead[ack.term][..ack.len] <= s.log
  }

  ghost predicate HoldsAcks(s: Server, h: History) {
    forall ack {:trigger HoldsAck(ack, s, h.lead)} ::
      ack in h.acks && ack.server == s.me && ack.term == s.currentTerm ==> HoldsAck(ack, s, h.lead)
  }

  /** Peer p acknowledged at least len entries in term t. */
  ghost predicate Acked(acks: set<Ack>, t: nat, p: nat, len: int) {
    exists ack :: ack in acks && ack.term == t && ack.server == p && ack.len >= len
  }

  /** A leader's nextIndex is past what an earlier request of its term assumed only if the
      peer acknowledged that much. */
  ghost predicate NextOk(s: Server, m: Message, acks: set<Ack>) {
    m.AppendRequest? && s.state == Leader && m.append.term == s.currentTerm && m.to != s.me && m.to < |s.nextIndex| ==>
      || s.nextIndex[m.to] <= m.append.prevLogIndex + 1
      || Acked(acks, s.currentTerm, m.to, s.nextIndex[m.to])
  }

  /** Of two requests, the one that assumes more and reaches further assumes what the
      peer has acknowledged. */
  ghost predicate PairOk(m: Message, m': Message, acks: set<Ack>) {
    && m.AppendRequest? && m'.AppendRequest? && m.to == m'.to && m.append.term == m'.append.term
    && m.append.prevLogIndex < m'.append.prevLogIndex && Reach(m.append) < Reach(m'.append) ==>
      Acked(acks, m.append.term, m.to, m'.append.prevLogIndex + 1)
  }

  ghost predicate OrderInv(c: Cluster, h: History) {
    && (forall i {:trigger c.servers[i]} :: 0 <= i < |c.servers| ==> HoldsAcks(c.servers[i], h))
    && (forall i, m {:trigger NextOk(c.servers[i], m, h.acks)} ::
          0 <= i < |c.servers| && m in c.net ==> NextOk(c.servers[i], m, h.acks))
    && (forall m, m' {:trigger PairOk(m, m', h.acks)} :: m in c.net && m' in c.net ==> PairOk(m, m', h.acks))
  }

  lemma AckedStays(acks: set<Ack>, acks': set<Ack>, t: nat, p: nat, len: int, len': int)
    requires Acked(acks, t, p, len) && acks <= acks' && len' <= len
    ensures Acked(acks', t, p, len')
  {
  }

  lemma NextStays(s: Server, m: Message, acks: set<Ack>, acks': set<Ack>)
    requires NextOk(s, m, acks) && acks <= acks'
    ensures NextOk(s, m, acks')
  {
  }

  lemma PairStays(m: Message, m': Message, acks: set<Ack>, acks': set<Ack>)
    requires PairOk(m, m', acks) && acks <= acks'
    ensures PairOk(m, m', acks')
  {
  }

  lemma HoldsStays(s: Server, h: History, h': History)
    requires HoldsAcks(s, h) && LeadExtends(h.lead, h'.lead)
    requires forall ack :: ack in h'.acks && ack !in h.acks ==> ack.server != s.me
    ensures HoldsAcks(s, h')
  {
    forall ack | ack in h'.acks && ack.server == s.me && ack.term == s.currentTerm ensures HoldsAck(ack, s, h'.lead) {
      assert HoldsAck(ack, s, h.lead);
      assert h'.lead[ack.term][..ack.len] == h.lead[ack.term][..ack.len];
    }
  }

  /** What remains to be shown for a step that changes one server and sends no request. */
  lemma OneOrder(c: Cluster, h: History, n: nat, i: nat, s': Server, sent: set<Message>, h': History)
    requires Formed(c, n) && OrderInv(c, h) && i < n && s'.me == i
    requires h.acks <= h'.acks && LeadExtends(h.lead, h'.lead)
    requires forall ack :: ack in h'.acks && ack !in h.acks ==> ack.server == i
    requires HoldsAcks(s', h')
    requires forall m :: m in c.net ==> NextOk(s', m, h'.acks)
    requires forall m :: m in sent ==> !m.AppendRequest?
    ensures OrderInv(Put(c, i, s', sent), h')
  {
    var c' := Put(c, i, s', sent);
    forall j | 0 <= j < n ensures HoldsAcks(c'.servers[j], h') {
      if j != i {
        HoldsStays(c.servers[j], h, h');
      }
    }
    forall j, m | 0 <= j < n && m in c'.net ensures NextOk(c'.servers[j], m, h'.acks) {
      if j != i && m in c.net {
        NextStays(c.servers[j], m, h.acks, h'.acks);
      }
    }
    forall m, m' | m in c'.net && m' in c'.net ensures PairOk(m, m', h'.acks) {
      if m in c.net && m' in c.net {
        PairStays(m, m', h.acks, h'.acks);
      }
    }
  }

  /** A request the leader sends now, and the ones it sent before in the term. */
  lemma SentPairs(c: Cluster, h: History, n: nat, i: nat, p: nat, a: AppendArgs, m: Message)
    requires SafeInv(c, h, n) && OrderInv(c, h) && i < n && p < n && p != i
    requires HeartBeat(c.servers[i], p) == Done(Some(a)) && m in c.net
    ensures PairOk(m, AppendRequest(p, a), h.acks) && PairOk(AppendRequest(p, a), m, h.acks)
  {
    assert MessageLogOk(m, h) && ServerLogOk(c.servers[i], h) && NextOk(c.servers[i], m, h.acks);
  }

  lemma SendOrder(c: Cluster, h: History, n: nat, i: nat, p: nat, c': Cluster)
    requires SafeInv(c, h, n) && OrderInv(c, h) && i < n && p < n && SendHeartBeatStep(c, i, p, c')
    ensures OrderInv(c', h)
  {
    var r := HeartBeat(c.servers[i], p).value;
    if r.Some? {
      var q := AppendRequest(p, r.value);
      assert c'.servers == c.servers;
      forall j, m | 0 <= j < n && m in c'.net ensures NextOk(c'.servers[j], m, h.acks) {
        if m !in c.net {
          SentNext(c, h, n, i, p, r.value, j);
        }
      }
      forall m, m' | m in c'.net && m' in c'.net ensures PairOk(m, m', h.acks) {
        if m in c.net && m' !in c.net {
          SentPairs(c, h, n, i, p, r.value, m);
        } else if m !in c.net && m' in c.net {
          SentPairs(c, h, n, i, p, r.value, m');
        }
      }
    }
  }

  lemma SentNext(c: Cluster, h: History, n: nat, i: nat, p: nat, a: AppendArgs, j: nat)
    requires SafeInv(c, h, n) && i < n && j < n && p < n && HeartBeat(c.servers[i], p) == Done(Some(a))
    ensures NextOk(c.servers[j], AppendRequest(p, a), h.acks)
  {
    assert E.ServerOk(c.servers[i], h) && E.ServerOk(c.servers[j], h);
  }

  // ---------------------------------------------- what the changed server holds

  /** A log that is only extended holds what it held, and what is newly acknowledged. */
  lemma GrowthHolds(s: Server, s': Server, h: History, h': History)
    requires HoldsAcks(s, h) && LeadExtends(h.lead, h'.lead) && s.log <= s'.log
    requires s'.me == s.me && s.currentTerm <= s'.currentTerm
    requires forall ack :: ack in h.acks && ack.server == s.me ==> ack.term <= s.currentTerm
    requires forall ack {:trigger HoldsAck(ack, s', h'.lead)} ::
               ack in h'.acks && ack !in h.acks && ack.server == s.me ==> HoldsAck(ack, s', h'.lead)
    ensures HoldsAcks(s', h')
  {
    forall ack | ack in h'.acks && ack.server == s'.me && ack.term == s'.currentTerm
      ensures HoldsAck(ack, s', h'.lead)
    {
      if ack in h.acks {
        assert HoldsAck(ack, s, h.lead);
        assert h'.lead[ack.term][..ack.len] == h.lead[ack.term][..ack.len];
      }
    }
  }

  lemma MergeHolds(s: Server, log: seq<Entry>, a: AppendArgs, h: History, ack: Ack)
    requires LeadOk(h) && ServerLogOk(s, h) && AppendOk(a, h.lead) && PrefixAccepted(s.log, a)
    requires ack.term == a.term && HoldsAck(ack, s, h.lead) && log == Merge(s.log, a.prevLogIndex, a.entries)
    ensures h.lead[ack.term][..ack.len] <= log
  {
    MergeKeepsCommon(s.log, a, h, h.lead[ack.term][..ack.len]);
  }

  lemma DeliveryAcks(h: History, m: Message, s: Server, s': Server)
    requires |s.log| > 0 && m.AppendRequest?
    ensures var h' := Record(h, DeliverAppend(m), s, s');
            && h'.lead == h.lead && h.acks <= h'.acks
            && forall ack :: ack in h'.acks && ack !in h.acks ==>
                 && ack == Ack(m.append.term, m.to, Reach(m.append))
                 && AppendEntries(s, m.append).Done? && AppendEntries(s, m.append).value.1.success
  {
  }

  lemma DeliveryHolds(c: Cluster, h: History, n: nat, m: Message, c': Cluster, h': History)
    requires SafeInv(c, h, n) && m.AppendRequest? && m.to < n && DeliverAppendStep(c, m, c')
    requires HoldsAcks(c.servers[m.to], h)
    requires h' == Record(h, DeliverAppend(m), c.servers[m.to], c'.servers[m.to])
    ensures HoldsAcks(c'.servers[m.to], h')
  {
    var s, s' := c.servers[m.to], c'.servers[m.to];
    DeliveryAcks(h, m, s, s');
    E.AppendKeepsShape(s, m.append, n);
    forall ack | ack in h'.acks && ack.server == m.to && ack.term == s'.currentTerm ensures HoldsAck(ack, s', h'.lead) {
      if ack in h.acks {
        OldAckHeld(c, h, n, m, c', ack);
      } else {
        Q.AppendAckSeen(c, h, n, m, c');
      }
    }
  }

  lemma OldAckHeld(c: Cluster, h: History, n: nat, m: Message, c': Cluster, ack: Ack)
    requires SafeInv(c, h, n) && m.AppendRequest? && m.to < n && DeliverAppendStep(c, m, c')
    requires HoldsAcks(c.servers[m.to], h) && ack in h.acks && ack.server == m.to
    requires ack.term == c'.servers[m.to].currentTerm
    ensures HoldsAck(ack, c'.servers[m.to], h.lead)
  {
    var s, a := c.servers[m.to], m.append;
    assert MessageLogOk(m, h) && ServerLogOk(s, h) && ack.term <= s.currentTerm;
    DeliveryTerm(s, a);
    assert HoldsAck(ack, s, h.lead);
    A.HandlerLog(s, a);
    if A.Merges(s, a) {
      MergeHolds(s, Merge(s.log, a.prevLogIndex, a.entries), a, h, ack);
    }
  }

  lemma DeliveryTerm(s: Server, a: AppendArgs)
    requires |s.log| > 0 && AppendEntries(s, a).Done?
    ensures var t := AppendEntries(s, a).value.0.currentTerm; s.currentTerm <= t && (A.Merges(s, a) ==> t == a.term)
  {
  }

  // -------------------------------------------------------------- every step

  lemma DeliverOrder(c: Cluster, h: History, n: nat, m: Message, c': Cluster)
    requires SafeInv(c, h, n) && OrderInv(c, h) && m.AppendRequest? && m.to < n && DeliverAppendStep(c, m, c')
    ensures OrderInv(c', Record(h, DeliverAppend(m), c.servers[m.to], c'.servers[m.to]))
  {
    var s := c.servers[m.to];
    var r := AppendEntries(s, m.append).value;
    var h' := Record(h, DeliverAppend(m), s, r.0);
    DeliveryAcks(h, m, s, r.0);
    DeliveryHolds(c, h, n, m, c', h');
    E.AppendKeepsShape(s, m.append, n);
    forall q | q in c.net ensures NextOk(r.0, q, h'.acks) {
      assert NextOk(s, q, h.acks);
      StillLeads(s, m.append);
      NextStays(s, q, h.acks, h'.acks);
    }
    OneOrder(c, h, n, m.to, r.0, {AppendAnswer(m.to, m.append, r.1)}, h');
  }

  lemma StillLeads(s: Server, a: AppendArgs)
    requires |s.log| > 0 && AppendEntries(s, a).Done?
    ensures AppendEntries(s, a).value.0.state == Leader ==> AppendEntries(s, a).value.0 == s
  {
  }

  /** A reply that is counted is of this term, and for the whole of the log. */
  lemma ReturnNext(c: Cluster, h: History, n: nat, m: Message, s': Server, q: Message)
    requires SafeInv(c, h, n) && MatchInv(c, h) && OrderInv(c, h) && m in c.net && q in c.net
    requires m.AppendAnswer? && m.append.leader < n && m.from < n
    requires SameTerm(c, AppendReturns(m)) && NotGrown(c, AppendReturns(m))
    requires AppendReturned(c.servers[m.append.leader], m.from, m.appendReply) == Done(s')
    ensures NextOk(s', q, h.acks)
  {
    var s := c.servers[m.append.leader];
    assert NextOk(s, q, h.acks) && AnswerOk(m, h.acks);
    if CountsMatch(s, m.appendReply) {
      assert s'.nextIndex == s.nextIndex[m.from := |s.log|];
      assert Acked(h.acks, s.currentTerm, m.from, |s.log|);
    } else if s'.state == Leader && q.AppendRequest? && q.to < |s.nextIndex| && s'.nextIndex[q.to] < s.nextIndex[q.to] {
      if Acked(h.acks, s.currentTerm, q.to, s.nextIndex[q.to]) {
        AckedStays(h.acks, h.acks, s.currentTerm, q.to, s.nextIndex[q.to], s'.nextIndex[q.to]);
      }
    }
  }

  lemma ReturnOrder(c: Cluster, h: History, n: nat, m: Message, c': Cluster)
    requires SafeInv(c, h, n) && MatchInv(c, h) && OrderInv(c, h)
    requires m.AppendAnswer? && m.append.leader < n && m.from < n && AppendReturnsStep(c, m, c')
    requires SameTerm(c, AppendReturns(m)) && NotGrown(c, AppendReturns(m))
    ensures OrderInv(c', h)
  {
    var s := c.servers[m.append.leader];
    var s' := AppendReturned(s, m.from, m.appendReply).value;
    assert HoldsAcks(s, h) && E.ServerOk(s, h);
    GrowthHolds(s, s', h, h);
    forall q | q in c.net ensures NextOk(s', q, h.acks) {
      ReturnNext(c, h, n, m, s', q);
    }
    OneOrder(c, h, n, m.append.leader, s', {}, h);
  }

  /** Steps that send no request, count no append reply and merge nothing. */
  lemma OtherOrder(c: Cluster, h: History, n: nat, a: Action, c': Cluster)
    requires SafeInv(c, h, n) && OrderInv(c, h) && Step(c, a, c') && SameTerm(c, a)
    requires a.Timeout? || a.DeliverVote? || a.VoteReturns? || a.ClientStart? || a.Kill?
    ensures OrderInv(c', Record(h, a, c.servers[Place(a)], c'.servers[Place(a)]))
  {
    var i := Place(a);
    var s, s' := c.servers[i], c'.servers[i];
    var h' := Record(h, a, s, s');
    OtherHistory(c, h, n, a, c');
    OtherHolds(c, h, n, a, c');
    forall q | q in c.net ensures NextOk(s', q, h'.acks) {
      OtherNext(c, h, n, a, c', q);
    }
    match a
    case Timeout(_) =>
      var (_, v) := StandForElection(s);
      OneOrder(c, h, n, i, s', set p | 0 <= p < n && p != i :: VoteRequest(p, v), h');
    case DeliverVote(m) => OneOrder(c, h, n, i, s', {VoteAnswer(m.to, m.vote, RequestVote(s, m.vote).1)}, h');
    case _ => OneOrder(c, h, n, i, s', {}, h');
  }

  lemma OtherHolds(c: Cluster, h: History, n: nat, a: Action, c': Cluster)
    requires SafeInv(c, h, n) && OrderInv(c, h) && Step(c, a, c') && SameTerm(c, a)
    requires a.Timeout? || a.DeliverVote? || a.VoteReturns? || a.ClientStart? || a.Kill?
    ensures HoldsAcks(c'.servers[Place(a)], Record(h, a, c.servers[Place(a)], c'.servers[Place(a)]))
  {
    var i := Place(a);
    var s, s' := c.servers[i], c'.servers[i];
    var h' := Record(h, a, s, s');
    StepExtendsLead(c, h, n, a, c');
    OtherGrows(c, a, c');
    assert HoldsAcks(s, h);
    forall ack | ack in h'.acks && ack !in h.acks ensures ack.server == i && HoldsAck(ack, s', h'.lead) {
      OtherAck(c, h, a, c', ack);
    }
    GrowthHolds(s, s', h, h');
  }

  lemma OtherHistory(c: Cluster, h: History, n: nat, a: Action, c': Cluster)
    requires SafeInv(c, h, n) && Step(c, a, c') && SameTerm(c, a)
    requires a.Timeout? || a.DeliverVote? || a.VoteReturns? || a.ClientStart? || a.Kill?
    ensures c'.servers[Place(a)].me == Place(a)
    ensures var h' := Record(h, a, c.servers[Place(a)], c'.servers[Place(a)]);
            && h.acks <= h'.acks && LeadExtends(h.lead, h'.lead)
            && forall ack :: ack in h'.acks && ack !in h.acks ==> ack.server == Place(a)
  {
    StepExtendsLead(c, h, n, a, c');
    OtherGrows(c, a, c');
    var s, s' := c.servers[Place(a)], c'.servers[Place(a)];
    forall ack | ack in Record(h, a, s, s').acks && ack !in h.acks ensures ack.server == Place(a) {
      OtherAck(c, h, a, c', ack);
    }
  }

  lemma OtherGrows(c: Cluster, a: Action, c': Cluster)
    requires Step(c, a, c') && |c'.servers| == |c.servers|
    requires a.Timeout? || a.DeliverVote? || a.VoteReturns? || a.ClientStart? || a.Kill?
    ensures var s, s' := c.servers[Place(a)], c'.servers[Place(a)];
            s.log <= s'.log && s'.me == s.me && s.currentTerm <= s'.currentTerm
  {
  }

  lemma OtherAck(c: Cluster, h: History, a: Action, c': Cluster, ack: Ack)
    requires Step(c, a, c') && |c'.servers| == |c.servers|
    requires a.Timeout? || a.DeliverVote? || a.VoteReturns? || a.ClientStart? || a.Kill?
    requires var h' := Record(h, a, c.servers[Place(a)], c'.servers[Place(a)]); ack in h'.acks && ack !in h.acks
    ensures var s' := c'.servers[Place(a)];
            ack.server == Place(a) && HoldsAck(ack, s', Record(h, a, c.servers[Place(a)], s').lead)
  {
    assert a.ClientStart?;
  }

  lemma OtherNext(c: Cluster, h: History, n: nat, a: Action, c': Cluster, q: Message)
    requires SafeInv(c, h, n) && OrderInv(c, h) && Step(c, a, c') && SameTerm(c, a) && q in c.net
    requires a.Timeout? || a.DeliverVote? || a.VoteReturns? || a.ClientStart? || a.Kill?
    ensures var s, s' := c.servers[Place(a)], c'.servers[Place(a)]; NextOk(s', q, Record(h, a, s, s').acks)
  {
    var s, s' := c.servers[Place(a)], c'.servers[Place(a)];
    assert NextOk(s, q, h.acks) && E.MessageOk(q, h);
    OtherHistory(c, h, n, a, c');
    if s.state == Leader {
      LeaderUnmoved(c, a, c');
      NextStays(s, q, h.acks, Record(h, a, s, s').acks);
    } else if s'.state == Leader {
      E.ElectedIsFirst(c, h, n, a.m, c');
    }
  }

  lemma LeaderUnmoved(c: Cluster, a: Action, c': Cluster)
    requires Step(c, a, c') && |c'.servers| == |c.servers| && c.servers[Place(a)].state == Leader
    requires a.Timeout? || a.DeliverVote? || a.VoteReturns? || a.ClientStart? || a.Kill?
    ensures var s, s' := c.servers[Place(a)], c'.servers[Place(a)];
            s'.state == Leader ==>
              && s'.currentTerm == s.currentTerm && s'.me == s.me && |s'.nextIndex| == |s.nextIndex|
              && forall p :: 0 <= p < |s.nextIndex| && p != s.me ==> s'.nextIndex[p] == s.nextIndex[p]
  {
  }

  lemma StepOrder(c: Cluster, h: History, n: nat, a: Action, c': Cluster)
    requires SafeInv(c, h, n) && MatchInv(c, h) && OrderInv(c, h) && Step(c, a, c')
    requires SameTerm(c, a) && NotGrown(c, a)
    ensures OrderInv(c', Record(h, a, c.servers[Place(a)], c'.servers[Place(a)]))
  {
    match a
    case SendHeartBeat(i, p) => SendOrder(c, h, n, i, p, c');
    case DeliverAppend(m) => DeliverOrder(c, h, n, m, c');
    case AppendReturns(m) => ReturnOrder(c, h, n, m, c');
    case _ => OtherOrder(c, h, n, a, c');
  }

  lemma OrderStep(r: Run, n: nat, k: nat)
    requires IsRun(r, n) && H1(r) && H2(r) && k + 1 < |r.states| && OrderInv(r.states[k], HistoryAt(r, n, k))
    ensures OrderInv(r.states[k + 1], HistoryAt(r, n, k + 1))
  {
    P.RunKeeps(r, n, k);
    RunKeepsMatch(r, n, k);
    HistoryStep(r, n, k);
    assert SameTerm(r.states[k], r.actions[k]) && NotGrown(r.states[k], r.actions[k]);
    StepOrder(r.states[k], HistoryAt(r, n, k), n, r.actions[k], r.states[k + 1]);
  }

  lemma {:induction false} RunOrder(r: Run, n: nat, k: nat)
    requires IsRun(r, n) && H1(r) && H2(r) && k < |r.states|
    ensures OrderInv(r.states[k], HistoryAt(r, n, k))
  {
    if k == 0 {
      InitOrder(r.states[0], n);
    } else {
      RunOrder(r, n, k - 1);
      OrderStep(r, n, k - 1);
    }
  }

  lemma InitOrder(c: Cluster, n: nat)
    requires Init(c, n)
    ensures OrderInv(c, InitHistory())
  {
  }

  // ------------------------------------------------------------------ theorem

  lemma LowerAccepted(s: Server, a: AppendArgs, b: AppendArgs, h: History)
    requires LeadOk(h) && ServerLogOk(s, h) && a.term == b.term && AppendOk(a, h.lead) && AppendOk(b, h.lead)
    requires PrefixAccepted(s.log, a) && b.prevLogIndex <= a.prevLogIndex
    ensures PrefixAccepted(s.log, b)
  {
    var l, i := h.lead[a.term], b.prevLogIndex;
    assert LeadLogOk(a.term, h);
    SameTermSamePrefix(s.log, l, h.lead, a.prevLogIndex);
    assert s.log[i] == s.log[..a.prevLogIndex + 1][i] == l[i];
  }

  lemma AckedAccepted(s: Server, b: AppendArgs, ack: Ack, h: History)
    requires AppendOk(b, h.lead) && HoldsAck(ack, s, h.lead) && ack.term == b.term && ack.len > b.prevLogIndex
    ensures PrefixAccepted(s.log, b)
  {
    assert h.lead[ack.term][..ack.len][b.prevLogIndex] == s.log[b.prevLogIndex];
  }

  /** If the order matters, the request accepted first assumes less and reaches less. */
  lemma NeedsMore(s: Server, a: AppendArgs, b: AppendArgs, h: History)
    requires LeadOk(h) && ServerLogOk(s, h) && a.term == b.term
    requires AppendOk(a, h.lead) && AppendOk(b, h.lead) && Needs(s.log, b, a)
    ensures a.prevLogIndex < b.prevLogIndex && Reach(a) < Reach(b)
  {
    if PrefixAccepted(s.log, a) && b.prevLogIndex <= a.prevLogIndex {
      LowerAccepted(s, a, b, h);
    }
  }

  lemma NeverNeeds(c: Cluster, h: History, n: nat, m: Message, m': Message)
    requires SafeInv(c, h, n) && OrderInv(c, h) && m in c.net && m' in c.net
    requires m.AppendRequest? && m'.AppendRequest? && m.append.term == m'.append.term && m.to == m'.to < n
    requires c.servers[m.to].currentTerm <= m.append.term && |c.servers[m.to].log| > 0
    ensures !Needs(c.servers[m.to].log, m'.append, m.append)
  {
    var s, a, b := c.servers[m.to], m.append, m'.append;
    assert MessageLogOk(m, h) && MessageLogOk(m', h) && ServerLogOk(s, h) && HoldsAcks(s, h);
    assert PairOk(m, m', h.acks);
    if Acked(h.acks, a.term, m.to, b.prevLogIndex + 1) {
      var ack :| ack in h.acks && ack.term == a.term && ack.server == m.to && ack.len >= b.prevLogIndex + 1;
      assert HoldsAck(ack, s, h.lead);
      AckedAccepted(s, b, ack, h);
    } else if Needs(s.log, b, a) {
      NeedsMore(s, a, b, h);
    }
  }

  /** In every run that satisfies H1 and H2, any two requests of one leader that are in
      transit to a server not ahead of them in term leave it the same log in either
      order, whether it accepts them at first or refuses them. */
  lemma RequestsCommute(r: Run, n: nat, k: nat, m: Message, m': Message)
    requires IsRun(r, n) && H1(r) && H2(r) && k < |r.states|
    requires m in r.states[k].net && m' in r.states[k].net && m.AppendRequest? && m'.AppendRequest?
    requires m.append.term == m'.append.term && m.to == m'.to < |r.states[k].servers|
    requires r.states[k].servers[m.to].currentTerm <= m.append.term
    ensures var log := r.states[k].servers[m.to].log;
            |log| > 0 && Both(log, m.append, m'.append) == Both(log, m'.append, m.append)
  {
    RunSize(r, n, k);
    P.RunKeeps(r, n, k);
    RunOrder(r, n, k);
    RequestsCommuteIff(r, n, k, m.to, m, m');
    NeverNeeds(r.states[k], HistoryAt(r, n, k), n, m, m');
    NeverNeeds(r.states[k], HistoryAt(r, n, k), n, m', m);
  }
}
