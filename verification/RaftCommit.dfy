/** Commitment and application. */
module RaftCommit {
  import opened Options
  import opened RaftCore
  import opened RaftCluster
  import opened RaftHistory
  import opened Quorums
  import opened L = RaftLogs
  import opened P = RaftPersistence
  import E = RaftElection

  // ------------------------------------------- matchIndex means acknowledged

  ghost predicate MatchOk(s: Server, acks: set<Ack>) {
    s.state == Leader ==>
      forall p :: 0 <= p < |s.matchIndex| && s.matchIndex[p] >= 1 ==>
                    Ack(s.currentTerm, p, s.matchIndex[p] + 1) in acks
  }

  ghost predicate AnswerOk(m: Message, acks: set<Ack>) {
    m.AppendAnswer? && m.appendReply.success ==> Ack(m.append.term, m.from, Reach(m.append)) in acks
  }

  ghost predicate MatchInv(c: Cluster, h: History) {
    && (forall i :: 0 <= i < |c.servers| ==> MatchOk(c.servers[i], h.acks))
    && (forall m :: m in c.net ==> AnswerOk(m, h.acks))
  }

  lemma OneMatchChanges(c: Cluster, h: History, i: nat, s': Server, sent: set<Message>, h': History)
    requires MatchInv(c, h) && i < |c.servers| && h.acks <= h'.acks
    requires MatchOk(s', h'.acks) && forall m :: m in sent ==> AnswerOk(m, h'.acks)
    ensures MatchInv(Put(c, i, s', sent), h')
  {
    forall j | 0 <= j < |c.servers| && j != i ensures MatchOk(c.servers[j], h'.acks) {
      assert MatchOk(c.servers[j], h.acks);
    }
    forall m | m in c.net ensures AnswerOk(m, h'.acks) {
      assert AnswerOk(m, h.acks);
    }
  }

  lemma DeliverAppendMatch(c: Cluster, h: History, n: nat, m: Message, c': Cluster)
    requires Formed(c, n) && MatchInv(c, h) && m.AppendRequest? && m.to < n && DeliverAppendStep(c, m, c')
    ensures MatchInv(c', Record(h, DeliverAppend(m), c.servers[m.to], c'.servers[m.to]))
  {
    var s := c.servers[m.to];
    var r := AppendEntries(s, m.append).value;
    assert MatchOk(s, h.acks);
    OneMatchChanges(c, h, m.to, r.0, {AppendAnswer(m.to, m.append, r.1)}, Record(h, DeliverAppend(m), s, r.0));
  }

  lemma AppendReturnsMatch(c: Cluster, h: History, n: nat, m: Message, c': Cluster)
    requires Formed(c, n) && LogInv(c, h) && MatchInv(c, h) && m.AppendAnswer? && m.append.leader < n && m.from < n
    requires AppendReturnsStep(c, m, c') && SameTerm(c, AppendReturns(m)) && NotGrown(c, AppendReturns(m))
    ensures MatchInv(c', h)
  {
    var s := c.servers[m.append.leader];
    assert MatchOk(s, h.acks) && AnswerOk(m, h.acks);
    var s' := AppendReturned(s, m.from, m.appendReply).value;
    if CountsMatch(s, m.appendReply) {
      assert s'.matchIndex == PeerMatched(s, m.from).matchIndex;
    }
    OneMatchChanges(c, h, m.append.leader, s', {}, h);
  }

  lemma StartMatch(c: Cluster, h: History, n: nat, i: nat, cmd: Command)
    requires Formed(c, n) && MatchInv(c, h) && i < n
    ensures var s' := Start(c.servers[i], cmd);
            MatchInv(Put(c, i, s', {}), Record(h, ClientStart(i, cmd), c.servers[i], s'))
  {
    var s := c.servers[i];
    var s' := Start(s, cmd);
    assert MatchOk(s, h.acks);
    OneMatchChanges(c, h, i, s', {}, Record(h, ClientStart(i, cmd), s, s'));
  }

  lemma StepKeepsMatch(c: Cluster, h: History, n: nat, a: Action, c': Cluster)
    requires Formed(c, n) && LogInv(c, h) && MatchInv(c, h) && Step(c, a, c') && SameTerm(c, a) && NotGrown(c, a)
    ensures MatchInv(c', Record(h, a, c.servers[Place(a)], c'.servers[Place(a)]))
  {
    var i := Place(a);
    var s, s' := c.servers[i], c'.servers[i];
    var h' := Record(h, a, s, s');
    assert MatchOk(s, h.acks);
    match a
    case Timeout(_) =>
      var (_, v) := StandForElection(s);
      OneMatchChanges(c, h, i, s', set p | 0 <= p < n && p != i :: VoteRequest(p, v), h');
    case DeliverVote(m) => OneMatchChanges(c, h, i, s', {VoteAnswer(m.to, m.vote, RequestVote(s, m.vote).1)}, h');
    case VoteReturns(m) => OneMatchChanges(c, h, i, s', {}, h');
    case SendHeartBeat(_, p) =>
      var r := HeartBeat(s, p).value;
      if r.Some? {
        OneMatchChanges(c, h, i, s, {AppendRequest(p, r.value)}, h');
      }
    case DeliverAppend(m) => DeliverAppendMatch(c, h, n, m, c');
    case AppendReturns(m) => AppendReturnsMatch(c, h, n, m, c');
    case ClientStart(_, cmd) => StartMatch(c, h, n, i, cmd);
    case Kill(_) => OneMatchChanges(c, h, i, s', {}, h');
  }

  lemma {:induction false} RunKeepsMatch(r: Run, n: nat, k: nat)
    requires IsRun(r, n) && H1(r) && H2(r) && k < |r.states|
    ensures MatchInv(r.states[k], HistoryAt(r, n, k))
  {
    if k > 0 {
      RunKeepsMatch(r, n, k - 1);
      P.RunKeeps(r, n, k - 1);
      HistoryStep(r, n, k - 1);
      assert SameTerm(r.states[k - 1], r.actions[k - 1]) && NotGrown(r.states[k - 1], r.actions[k - 1]);
      StepKeepsMatch(r.states[k - 1], HistoryAt(r, n, k - 1), n, r.actions[k - 1], r.states[k]);
    }
  }

  // ------------------------------------------------- a counted quorum is one

  function Matching(matchIndex: seq<nat>, i: nat): set<nat> {
    set p | 0 <= p < |matchIndex| && matchIndex[p] >= i
  }

  lemma {:induction false} CountIsSize(matchIndex: seq<nat>, i: nat)
    ensures CountAtLeast(matchIndex, i) == |Matching(matchIndex, i)|
  {
    if matchIndex != [] {
      var k := |matchIndex| - 1;
      CountIsSize(matchIndex[..k], i);
      var rest := Matching(matchIndex[..k], i);
      assert Matching(matchIndex, i) == rest + (if matchIndex[k] >= i then {k} else {});
      assert k !in rest;
    }
  }

  /** An index that the leader counts as matched by a quorum was acknowledged by one. */
  lemma QuorumAcked(s: Server, h: History, n: nat, i: nat)
    requires MatchOk(s, h.acks) && s.state == Leader && Shaped(s, n) && i >= 1 && QuorumAt(s.matchIndex, i)
    requires Evolves(h, h, n)
    ensures Majority(Ackers(h.acks, s.currentTerm, i), n)
  {
    CountIsSize(s.matchIndex, i);
    var q := Matching(s.matchIndex, i);
    forall p | p in q ensures p in Ackers(h.acks, s.currentTerm, i) {
      assert Ack(s.currentTerm, p, s.matchIndex[p] + 1) in h.acks;
    }
    SubsetSize(q, Ackers(h.acks, s.currentTerm, i));
  }

  // --------------------------------------------------------------- invariants

  /** The log up to index ci is part of what some majority chose. */
  ghost predicate Backed(h: History, n: nat, ci: nat, log: seq<Entry>, term: nat) {
    ci < |log| && (ci == 0 || exists t, i :: BackedBy(h, n, ci, log, term, t, i))
  }

  ghost predicate BackedBy(h: History, n: nat, ci: nat, log: seq<Entry>, term: nat, t: nat, i: nat) {
    ci < |log| && Chosen(h, n, t, i) && ci <= i && t <= term && h.lead[t][..ci + 1] == log[..ci + 1]
  }

  ghost predicate CommitOk(s: Server, h: History, n: nat) {
    && Backed(h, n, s.commitIndex, s.log, s.currentTerm)
    && s.lastApplied == s.commitIndex
    && s.applied == Messages(s.log, 0, s.commitIndex)
  }

  ghost predicate RequestOk(m: Message, h: History, n: nat) {
    m.AppendRequest? ==>
      && m.append.term in h.lead
      && m.append.leaderCommit < Reach(m.append)
      && Backed(h, n, m.append.leaderCommit, h.lead[m.append.term], m.append.term)
  }

  ghost predicate CommitInv(c: Cluster, h: History, n: nat) {
    && (forall i :: 0 <= i < |c.servers| ==> CommitOk(c.servers[i], h, n))
    && (forall m :: m in c.net ==> RequestOk(m, h, n))
  }

  // ---------------------------------------------------------- frame lemmas

  ghost predicate Evolves(h: History, h': History, n: nat) {
    && GrowsByOwn(h.lead, h'.lead) && h.acks <= h'.acks
    && forall ack :: ack in h'.acks ==> ack.server < n
  }

  lemma ChosenGrows(h: History, h': History, n: nat, t: nat, i: nat)
    requires Chosen(h, n, t, i) && Evolves(h, h', n)
    ensures Chosen(h', n, t, i)
  {
    assert Ackers(h.acks, t, i) <= Ackers(h'.acks, t, i);
    SubsetSize(Ackers(h.acks, t, i), Ackers(h'.acks, t, i));
  }

  lemma BackedGrows(h: History, h': History, n: nat, ci: nat, log: seq<Entry>, term: nat, log': seq<Entry>, term': nat)
    requires Backed(h, n, ci, log, term) && Evolves(h, h', n)
    requires ci < |log'| && log'[..ci + 1] == log[..ci + 1] && term <= term'
    ensures Backed(h', n, ci, log', term')
  {
    if ci != 0 {
      var t, i :| BackedBy(h, n, ci, log, term, t, i);
      ChosenGrows(h, h', n, t, i);
      assert BackedBy(h', n, ci, log', term', t, i);
    }
  }

  lemma {:induction false} MessagesOfPrefix(a: seq<Entry>, b: seq<Entry>, from: nat, upto: nat)
    requires upto < |a| && upto < |b| && a[..upto + 1] == b[..upto + 1]
    ensures Messages(a, from, upto) == Messages(b, from, upto)
  {
    if upto > from {
      assert a[..upto] == a[..upto + 1][..upto] == b[..upto + 1][..upto] == b[..upto];
      assert a[upto] == a[..upto + 1][upto] == b[upto];
      MessagesOfPrefix(a, b, from, upto - 1);
    }
  }

  lemma {:induction false} MessagesJoin(log: seq<Entry>, from: nat, mid: nat, upto: nat)
    requires from <= mid <= upto < |log|
    ensures Messages(log, from, mid) + Messages(log, mid, upto) == Messages(log, from, upto)
  {
    if mid < upto {
      MessagesJoin(log, from, mid, upto - 1);
    }
  }

  /** What the messages of the stream are. */
  lemma {:induction false} MessagesAre(log: seq<Entry>, from: nat, upto: nat)
    requires from <= upto < |log|
    ensures |Messages(log, from, upto)| == upto - from
    ensures forall k :: 0 <= k < upto - from ==>
                          Messages(log, from, upto)[k] == ApplyMsg(from + k + 1, log[from + k + 1].command)
  {
    if from < upto {
      MessagesAre(log, from, upto - 1);
      var ms := Messages(log, from, upto - 1);
      MessagesEnd(log, from, upto, ms);
    }
  }

  lemma MessagesEnd(log: seq<Entry>, from: nat, upto: nat, ms: seq<ApplyMsg>)
    requires from < upto < |log| && ms == Messages(log, from, upto - 1)
    ensures Messages(log, from, upto) == ms + [ApplyMsg(upto, log[upto].command)]
  {
  }

  /** The server keeps the committed part of its log and does not go back in term. */
  lemma CommitOkKeeps(s: Server, s': Server, h: History, h': History, n: nat)
    requires CommitOk(s, h, n) && Evolves(h, h', n)
    requires s'.commitIndex == s.commitIndex && s'.lastApplied == s.lastApplied && s'.applied == s.applied
    requires s.commitIndex < |s'.log| && s'.log[..s.commitIndex + 1] == s.log[..s.commitIndex + 1]
    requires s'.currentTerm >= s.currentTerm
    ensures CommitOk(s', h', n)
  {
    BackedGrows(h, h', n, s.commitIndex, s.log, s.currentTerm, s'.log, s'.currentTerm);
    MessagesOfPrefix(s.log, s'.log, 0, s.commitIndex);
  }

  lemma OneCommitChanges(c: Cluster, h: History, n: nat, i: nat, s': Server, sent: set<Message>, h': History)
    requires CommitInv(c, h, n) && i < |c.servers|
    requires Evolves(h, h', n)
    requires CommitOk(s', h', n) && forall m :: m in sent ==> RequestOk(m, h', n)
    ensures CommitInv(Put(c, i, s', sent), h', n)
  {
    forall j | 0 <= j < |c.servers| && j != i ensures CommitOk(c.servers[j], h', n) {
      CommitOkKeeps(c.servers[j], c.servers[j], h, h', n);
    }
    forall m | m in c.net ensures RequestOk(m, h', n) {
      RequestGrows(m, h, h', n);
    }
  }

  lemma RequestGrows(m: Message, h: History, h': History, n: nat)
    requires RequestOk(m, h, n) && Evolves(h, h', n)
    ensures RequestOk(m, h', n)
  {
    if m.AppendRequest? {
      var a := m.append;
      var l, l' := h.lead[a.term], h'.lead[a.term];
      assert l'[..a.leaderCommit + 1] == l[..a.leaderCommit + 1];
      BackedGrows(h, h', n, a.leaderCommit, l, a.term, l', a.term);
    }
  }

  // --------------------------------------------- following the leader's commit

  /** What is committed is in the log of every leader of the same or a later term. */
  lemma CommittedInLeader(c: Cluster, h: History, n: nat, ci: nat, log: seq<Entry>, term: nat, u: nat)
    requires PersistInv(c, h) && |c.servers| == n
    requires Backed(h, n, ci, log, term) && ci > 0 && term <= u && u in h.lead
    ensures log[..ci + 1] <= h.lead[u]
  {
    var t, i :| BackedBy(h, n, ci, log, term, t, i);
    LeaderCompleteness(c, h, t, i, u);
    assert log[..ci + 1] == h.lead[t][..i + 1][..ci + 1];
  }

  /** AppendEntries never truncates at or below the commit index. */
  lemma CommittedKept(c: Cluster, h: History, n: nat, s: Server, a: AppendArgs)
    requires PersistInv(c, h) && |c.servers| == n && LeadOk(h) && ServerLogOk(s, h)
    requires Backed(h, n, s.commitIndex, s.log, s.currentTerm) && s.currentTerm <= a.term
    requires AppendOk(a, h.lead) && PrefixAccepted(s.log, a)
    ensures var r := Merge(s.log, a.prevLogIndex, a.entries);
            s.commitIndex < |r| && r[..s.commitIndex + 1] == s.log[..s.commitIndex + 1]
  {
    var r, ci := Merge(s.log, a.prevLogIndex, a.entries), s.commitIndex;
    if ci == 0 {
      assert r[..1] == r[..a.prevLogIndex + 1][..1] == s.log[..a.prevLogIndex + 1][..1] == s.log[..1];
    } else {
      CommittedInLeader(c, h, n, ci, s.log, s.currentTerm, a.term);
      MergeKeepsCommon(s.log, a, h, s.log[..ci + 1]);
    }
  }

  /** Raising the commit index over backed entries and applying them. */
  lemma ApplyKeeps(s: Server, s': Server, log: seq<Entry>, ci: nat, h: History, n: nat)
    requires CommitOk(s, h, n) && s.commitIndex <= ci < |log| && log[..s.commitIndex + 1] == s.log[..s.commitIndex + 1]
    requires s'.log == log && s'.commitIndex == ci && s'.lastApplied == s.lastApplied && s'.applied == s.applied
    requires Backed(h, n, ci, log, s'.currentTerm)
    ensures Apply(s').Done? && CommitOk(Apply(s').value, h, n)
  {
    MessagesOfPrefix(s.log, log, 0, s.commitIndex);
    MessagesJoin(log, 0, s.commitIndex, ci);
  }

  /** The leader's commit index is backed in the follower's merged log. */
  lemma MergedIsBacked(h: History, n: nat, log: seq<Entry>, a: AppendArgs)
    requires LeadOk(h) && Matches(log, h.lead) && AppendOk(a, h.lead) && PrefixAccepted(log, a)
    requires a.leaderCommit < Reach(a) && Backed(h, n, a.leaderCommit, h.lead[a.term], a.term)
    requires Evolves(h, h, n)
    ensures Backed(h, n, a.leaderCommit, Merge(log, a.prevLogIndex, a.entries), a.term)
  {
    var r, l, lc := Merge(log, a.prevLogIndex, a.entries), h.lead[a.term], a.leaderCommit;
    MergeFollowsLeader(log, a, h);
    assert r[..lc + 1] == r[..Reach(a)][..lc + 1] == l[..Reach(a)][..lc + 1] == l[..lc + 1];
    BackedGrows(h, h, n, lc, l, a.term, r, a.term);
  }

  lemma AcceptCommits(c: Cluster, h: History, n: nat, s: Server, a: AppendArgs)
    requires PersistInv(c, h) && |c.servers| == n && LeadOk(h) && ServerLogOk(s, h) && CommitOk(s, h, n)
    requires AppendOk(a, h.lead) && PrefixAccepted(s.log, a) && s.currentTerm == a.term
    requires a.leaderCommit < Reach(a) && Backed(h, n, a.leaderCommit, h.lead[a.term], a.term)
    requires Evolves(h, h, n)
    ensures Accept(s, a).Done? && CommitOk(Accept(s, a).value, h, n)
  {
    var r := Merge(s.log, a.prevLogIndex, a.entries);
    NextCommit(c, h, n, s, a);
    ApplyKeeps(s, s.(log := r, commitIndex := CommitOf(s, a, r)), r, CommitOf(s, a, r), h, n);
  }

  /** The commit index a follower with merged log r takes over. */
  function CommitOf(s: Server, a: AppendArgs, r: seq<Entry>): nat {
    if a.leaderCommit > s.commitIndex then Min(|r|, a.leaderCommit) else s.commitIndex
  }

  lemma NextCommit(c: Cluster, h: History, n: nat, s: Server, a: AppendArgs)
    requires PersistInv(c, h) && |c.servers| == n && LeadOk(h) && ServerLogOk(s, h)
    requires Backed(h, n, s.commitIndex, s.log, s.currentTerm)
    requires AppendOk(a, h.lead) && PrefixAccepted(s.log, a) && s.currentTerm == a.term
    requires a.leaderCommit < Reach(a) && Backed(h, n, a.leaderCommit, h.lead[a.term], a.term)
    requires Evolves(h, h, n)
    ensures var r := Merge(s.log, a.prevLogIndex, a.entries);
            && s.commitIndex <= CommitOf(s, a, r) < |r| && s.commitIndex < |s.log|
            && r[..s.commitIndex + 1] == s.log[..s.commitIndex + 1]
            && Backed(h, n, CommitOf(s, a, r), r, a.term)
  {
    var r := Merge(s.log, a.prevLogIndex, a.entries);
    CommittedKept(c, h, n, s, a);
    if a.leaderCommit > s.commitIndex {
      MergeReaches(s.log, a, h);
      MergedIsBacked(h, n, s.log, a);
    } else {
      BackedGrows(h, h, n, s.commitIndex, s.log, s.currentTerm, r, a.term);
    }
  }

  lemma MergeReaches(log: seq<Entry>, a: AppendArgs, h: History)
    requires LeadOk(h) && Matches(log, h.lead) && AppendOk(a, h.lead) && PrefixAccepted(log, a)
    ensures Reach(a) <= |Merge(log, a.prevLogIndex, a.entries)|
  {
    MergeFollowsLeader(log, a, h);
  }

  lemma AppendCommits(c: Cluster, h: History, n: nat, s: Server, a: AppendArgs)
    requires PersistInv(c, h) && |c.servers| == n && LeadOk(h) && ServerLogOk(s, h) && CommitOk(s, h, n)
    requires AppendOk(a, h.lead)
    requires a.leaderCommit < Reach(a) && Backed(h, n, a.leaderCommit, h.lead[a.term], a.term)
    requires Evolves(h, h, n)
    ensures AppendEntries(s, a).Done? && CommitOk(AppendEntries(s, a).value.0, h, n)
  {
    if !s.dead && a.term >= s.currentTerm {
      var s1 := HearLeader(s, a.term);
      RetreatKeeps(s, s1, h);
      CommitOkKeeps(s, s1, h, h, n);
      if PrefixAccepted(s1.log, a) {
        AcceptCommits(c, h, n, s1, a);
      }
    }
  }

  lemma AcksBelow(c: Cluster, h: History)
    requires PersistInv(c, h)
    ensures Evolves(h, h, |c.servers|)
  {
  }

  /** AppendEntries never panics, and keeps the commit invariant. */
  lemma DeliverAppendServer(c: Cluster, h: History, n: nat, m: Message)
    requires SafeInv(c, h, n) && CommitInv(c, h, n) && m in c.net && m.AppendRequest? && m.to < n
    ensures var r := AppendEntries(c.servers[m.to], m.append);
            r.Done? && CommitOk(r.value.0, h, n)
  {
    assert MessageLogOk(m, h) && RequestOk(m, h, n);
    assert ServerLogOk(c.servers[m.to], h) && CommitOk(c.servers[m.to], h, n);
    AcksBelow(c, h);
    AppendCommits(c, h, n, c.servers[m.to], m.append);
  }

  lemma DeliverAppendCommits(c: Cluster, h: History, n: nat, m: Message, c': Cluster)
    requires CommitInv(c, h, n) && |c.servers| == n && Evolves(h, h, n)
    requires m.AppendRequest? && m.to < n && |c.servers[m.to].log| > 0
    requires DeliverAppendStep(c, m, c') && CommitOk(c'.servers[m.to], h, n)
    ensures CommitInv(c', Record(h, DeliverAppend(m), c.servers[m.to], c'.servers[m.to]), n)
  {
    var r := AppendEntries(c.servers[m.to], m.append).value;
    OneCommitChanges(c, h, n, m.to, r.0, {AppendAnswer(m.to, m.append, r.1)}, h);
    if r.1.success {
      MoreAcks(c', h, n, Ack(m.append.term, m.to, Reach(m.append)));
    }
  }

  lemma MoreAcks(c: Cluster, h: History, n: nat, ack: Ack)
    requires CommitInv(c, h, n) && |c.servers| == n && ack.server < n && Evolves(h, h, n)
    ensures CommitInv(c, h.(acks := h.acks + {ack}), n)
  {
    var h' := h.(acks := h.acks + {ack});
    assert GrowsByOwn(h.lead, h'.lead);
    forall j | 0 <= j < n ensures CommitOk(c.servers[j], h', n) {
      CommitOkKeeps(c.servers[j], c.servers[j], h, h', n);
    }
    forall m | m in c.net ensures RequestOk(m, h', n) {
      RequestGrows(m, h, h', n);
    }
  }

  // ------------------------------------------------------ committing by counting

  /** A new commit index of the leader was acknowledged by a majority (H1 and H2). */
  lemma CountedIsAcked(s: Server, peer: nat, h: History, n: nat, s1: Server)
    requires Shaped(s, n) && peer < n && s1 == PeerMatched(s, peer) && s.state == Leader && MatchOk(s1, h.acks)
    requires Evolves(h, h, n)
    requires s1.commitIndex > s.commitIndex
    ensures s1.commitIndex < |s.log| && Majority(Ackers(h.acks, s.currentTerm, s1.commitIndex), n)
  {
    QuorumAcked(s1, h, n, s1.commitIndex);
  }

  lemma CountCommits(s: Server, peer: nat, h: History, n: nat, s1: Server)
    requires Shaped(s, n) && peer < n && s1 == PeerMatched(s, peer) && s.state == Leader && MatchOk(s1, h.acks)
    requires CommitOk(s, h, n) && ServerLogOk(s, h) && s.currentTerm >= 1
    requires Evolves(h, h, n)
    requires s1.commitIndex > s.commitIndex ==>
               s1.commitIndex < |s1.log| && s1.log[s1.commitIndex].term == s1.currentTerm
    ensures Apply(s1).Done? && CommitOk(Apply(s1).value, h, n)
  {
    var ci := s1.commitIndex;
    if ci > s.commitIndex {
      CountedIsAcked(s, peer, h, n, s1);
      assert BackedBy(h, n, ci, s.log, s.currentTerm, s.currentTerm, ci);
    }
    ApplyKeeps(s, s1, s.log, ci, h, n);
  }

  /** matchIndex after the bookkeeping of a counted reply (H1 and H2). */
  lemma PeerMatchedOk(c: Cluster, h: History, m: Message)
    requires LogInv(c, h) && MatchInv(c, h) && m.AppendAnswer? && m in c.net && m.append.leader < |c.servers|
    requires Shaped(c.servers[m.append.leader], |c.servers|) && m.from < |c.servers|
    requires var s := c.servers[m.append.leader];
             CountsMatch(s, m.appendReply) && s.currentTerm == m.append.term && |s.log| == Reach(m.append)
    ensures MatchOk(PeerMatched(c.servers[m.append.leader], m.from), h.acks)
  {
    assert MatchOk(c.servers[m.append.leader], h.acks) && AnswerOk(m, h.acks);
  }

  lemma CountedReply(c: Cluster, h: History, n: nat, m: Message, c': Cluster)
    requires SafeInv(c, h, n) && MatchInv(c, h) && CommitInv(c, h, n)
    requires m.AppendAnswer? && m.append.leader < n && m.from < n && AppendReturnsStep(c, m, c')
    requires SameTerm(c, AppendReturns(m)) && NotGrown(c, AppendReturns(m)) && CommitsOwnTerm(c, AppendReturns(m), c')
    requires CountsMatch(c.servers[m.append.leader], m.appendReply)
    ensures CommitOk(c'.servers[m.append.leader], h, n)
  {
    var s := c.servers[m.append.leader];
    assert E.ServerOk(s, h) && ServerLogOk(s, h) && CommitOk(s, h, n);
    PeerMatchedOk(c, h, m);
    AcksBelow(c, h);
    CountCommits(s, m.from, h, n, PeerMatched(s, m.from));
  }

  lemma AppendReturnsCommits(c: Cluster, h: History, n: nat, m: Message, c': Cluster)
    requires SafeInv(c, h, n) && MatchInv(c, h) && CommitInv(c, h, n)
    requires m.AppendAnswer? && m.append.leader < n && m.from < n && AppendReturnsStep(c, m, c')
    requires SameTerm(c, AppendReturns(m)) && NotGrown(c, AppendReturns(m)) && CommitsOwnTerm(c, AppendReturns(m), c')
    ensures CommitInv(c', h, n)
  {
    var i := m.append.leader;
    var s, s' := c.servers[i], c'.servers[i];
    AcksBelow(c, h);
    assert CommitOk(s, h, n);
    if CountsMatch(s, m.appendReply) {
      CountedReply(c, h, n, m, c');
    } else {
      CommitOkKeeps(s, s', h, h, n);
    }
    OneCommitChanges(c, h, n, i, s', {}, h);
  }

  // -------------------------------------------------------------- other steps

  /** The server's commit state and the committed part of its log are untouched. */
  predicate KeepsCommit(s: Server, s': Server) {
    && s'.commitIndex == s.commitIndex && s'.lastApplied == s.lastApplied && s'.applied == s.applied
    && s.log <= s'.log && s'.currentTerm >= s.currentTerm
  }

  lemma QuietStep(c: Cluster, h: History, n: nat, i: nat, s': Server, sent: set<Message>, h': History)
    requires CommitInv(c, h, n) && i < |c.servers| && KeepsCommit(c.servers[i], s')
    requires Evolves(h, h', n)
    requires forall m :: m in sent ==> RequestOk(m, h', n)
    ensures CommitInv(Put(c, i, s', sent), h', n)
  {
    assert CommitOk(c.servers[i], h, n);
    CommitOkKeeps(c.servers[i], s', h, h', n);
    OneCommitChanges(c, h, n, i, s', sent, h');
  }

  lemma VoteReturnsEvolves(c: Cluster, h: History, n: nat, m: Message, c': Cluster)
    requires SafeInv(c, h, n)
    requires m.VoteAnswer? && m.vote.candidate < n && VoteReturnsStep(c, m, c') && SameTerm(c, VoteReturns(m))
    ensures var s, s' := c.servers[m.vote.candidate], c'.servers[m.vote.candidate];
            Evolves(h, Record(h, VoteReturns(m), s, s'), n)
  {
    AcksBelow(c, h);
    if c.servers[m.vote.candidate].state != Leader && c'.servers[m.vote.candidate].state == Leader {
      E.ElectedIsFirst(c, h, n, m, c');
    }
  }

  lemma StartEvolves(c: Cluster, h: History, n: nat, i: nat, cmd: Command)
    requires SafeInv(c, h, n) && i < n
    ensures var s := c.servers[i];
            Evolves(h, Record(h, ClientStart(i, cmd), s, Start(s, cmd)), n)
  {
    AcksBelow(c, h);
    if c.servers[i].state == Leader {
      assert ServerLogOk(c.servers[i], h);
      StartGrows(c.servers[i], h, cmd);
    }
  }

  lemma HeartBeatOk(h: History, n: nat, s: Server, p: nat)
    requires ServerLogOk(s, h) && CommitOk(s, h, n) && p < |s.nextIndex|
    requires HeartBeat(s, p).Done? && HeartBeat(s, p).value.Some?
    ensures RequestOk(AppendRequest(p, HeartBeat(s, p).value.value), h, n)
  {
  }

  lemma SendHeartBeatCommits(c: Cluster, h: History, n: nat, i: nat, p: nat, c': Cluster)
    requires SafeInv(c, h, n) && CommitInv(c, h, n) && i < n && p < n && SendHeartBeatStep(c, i, p, c')
    ensures CommitInv(c', h, n)
  {
    var s := c.servers[i];
    var r := HeartBeat(s, p).value;
    if r.Some? {
      assert CommitOk(s, h, n) && ServerLogOk(s, h);
      HeartBeatOk(h, n, s, p);
      QuietStep(c, h, n, i, s, {AppendRequest(p, r.value)}, h);
    }
  }

  lemma QuietSteps(c: Cluster, h: History, n: nat, a: Action, c': Cluster, h': History)
    requires CommitInv(c, h, n) && Step(c, a, c') && |c.servers| == n && Evolves(h, h', n)
    requires a.Timeout? || a.DeliverVote? || a.VoteReturns? || a.ClientStart? || a.Kill?
    ensures CommitInv(c', h', n)
  {
    var i := Place(a);
    var s, s' := c.servers[i], c'.servers[i];
    match a
    case Timeout(_) =>
      var (_, v) := StandForElection(s);
      QuietStep(c, h, n, i, s', set p | 0 <= p < n && p != i :: VoteRequest(p, v), h');
    case DeliverVote(m) =>
      QuietStep(c, h, n, i, s', {VoteAnswer(m.to, m.vote, RequestVote(s, m.vote).1)}, h');
    case _ => QuietStep(c, h, n, i, s', {}, h');
  }

  lemma QuietEvolves(c: Cluster, h: History, n: nat, a: Action, c': Cluster)
    requires SafeInv(c, h, n) && Step(c, a, c') && SameTerm(c, a)
    requires a.Timeout? || a.DeliverVote? || a.VoteReturns? || a.ClientStart? || a.Kill?
    ensures Evolves(h, Record(h, a, c.servers[Place(a)], c'.servers[Place(a)]), n)
  {
    AcksBelow(c, h);
    match a
    case VoteReturns(m) => VoteReturnsEvolves(c, h, n, m, c');
    case ClientStart(i, cmd) => StartEvolves(c, h, n, i, cmd);
    case _ =>
  }

  /** Everything that H1, H2 and H3 keep. */
  ghost predicate FullInv(c: Cluster, h: History, n: nat) {
    SafeInv(c, h, n) && MatchInv(c, h) && CommitInv(c, h, n)
  }

  lemma StepKeepsCommit(c: Cluster, h: History, n: nat, a: Action, c': Cluster)
    requires FullInv(c, h, n) && Step(c, a, c')
    requires SameTerm(c, a) && NotGrown(c, a) && CommitsOwnTerm(c, a, c')
    ensures CommitInv(c', Record(h, a, c.servers[Place(a)], c'.servers[Place(a)]), n)
  {
    match a
    case SendHeartBeat(i, p) => SendHeartBeatCommits(c, h, n, i, p, c');
    case DeliverAppend(m) =>
      DeliverAppendServer(c, h, n, m);
      AcksBelow(c, h);
      DeliverAppendCommits(c, h, n, m, c');
    case AppendReturns(m) => AppendReturnsCommits(c, h, n, m, c');
    case _ =>
      QuietEvolves(c, h, n, a, c');
      QuietSteps(c, h, n, a, c', Record(h, a, c.servers[Place(a)], c'.servers[Place(a)]));
  }

  lemma StepKeepsFull(c: Cluster, h: History, n: nat, a: Action, c': Cluster)
    requires FullInv(c, h, n) && Step(c, a, c')
    requires SameTerm(c, a) && NotGrown(c, a) && CommitsOwnTerm(c, a, c')
    ensures FullInv(c', Record(h, a, c.servers[Place(a)], c'.servers[Place(a)]), n)
  {
    StepKeepsCommit(c, h, n, a, c');
    StepKeepsMatch(c, h, n, a, c');
    StepKeepsAll(c, h, n, a, c');
  }

  lemma InitFull(c: Cluster, n: nat)
    requires Init(c, n)
    ensures FullInv(c, InitHistory(), n)
  {
    P.InitKeeps(c, n);
    L.InitKeeps(c, n);
  }

  lemma {:induction false} RunKeepsFull(r: Run, n: nat, k: nat)
    requires IsRun(r, n) && H1(r) && H2(r) && H3(r) && k < |r.states|
    ensures FullInv(r.states[k], HistoryAt(r, n, k), n)
  {
    if k == 0 {
      InitFull(r.states[0], n);
    } else {
      RunKeepsFull(r, n, k - 1);
      HistoryStep(r, n, k - 1);
      assert SameTerm(r.states[k - 1], r.actions[k - 1]) && NotGrown(r.states[k - 1], r.actions[k - 1]);
      assert CommitsOwnTerm(r.states[k - 1], r.actions[k - 1], r.states[k - 1 + 1]);
      StepKeepsFull(r.states[k - 1], HistoryAt(r, n, k - 1), n, r.actions[k - 1], r.states[k]);
    }
  }

  // ---------------------------------------------------------------- theorems

  /** Two backed prefixes agree as far as both reach. */
  lemma BackedAgree(c: Cluster, h: History, n: nat, ci: nat, a: seq<Entry>, ta: nat, cj: nat, b: seq<Entry>, tb: nat)
    requires PersistInv(c, h) && |c.servers| == n && 0 < ci <= cj
    requires Backed(h, n, ci, a, ta) && Backed(h, n, cj, b, tb)
    ensures a[..ci + 1] == b[..ci + 1]
  {
    var t1, i1 :| BackedBy(h, n, ci, a, ta, t1, i1);
    var t2, i2 :| BackedBy(h, n, cj, b, tb, t2, i2);
    if t1 <= t2 {
      LeaderCompleteness(c, h, t1, i1, t2);
    } else {
      LeaderCompleteness(c, h, t2, i2, t1);
    }
    PrefixesMeet(h.lead[t1], i1, h.lead[t2], i2, ci);
    assert b[..ci + 1] == b[..cj + 1][..ci + 1];
    assert h.lead[t2][..ci + 1] == h.lead[t2][..cj + 1][..ci + 1];
  }

  lemma PrefixesMeet(a: seq<Entry>, i: nat, b: seq<Entry>, j: nat, ci: nat)
    requires i < |a| && j < |b| && ci <= i && ci <= j
    requires a[..i + 1] <= b || b[..j + 1] <= a
    ensures a[..ci + 1] == b[..ci + 1]
  {
    if a[..i + 1] <= b {
      assert a[..ci + 1] == a[..i + 1][..ci + 1] == b[..ci + 1];
    } else {
      assert b[..ci + 1] == b[..j + 1][..ci + 1] == a[..ci + 1];
    }
  }

  lemma StreamsAgree(c: Cluster, h: History, n: nat, a: Server, b: Server, i: nat)
    requires PersistInv(c, h) && |c.servers| == n && CommitOk(a, h, n) && CommitOk(b, h, n)
    requires a.commitIndex <= b.commitIndex && i < |a.applied| && i < |b.applied|
    ensures a.applied[i] == b.applied[i]
  {
    StreamIs(a, h, n, i);
    StreamIs(b, h, n, i);
    BackedAgree(c, h, n, a.commitIndex, a.log, a.currentTerm, b.commitIndex, b.log, b.currentTerm);
    assert a.log[i + 1] == a.log[..a.commitIndex + 1][i + 1] == b.log[i + 1];
  }

  /** At one moment, two servers applied the same command at every index both applied. */
  lemma AppliedAgree(c: Cluster, h: History, n: nat, x: nat, y: nat, i: nat)
    requires FullInv(c, h, n) && x < n && y < n
    requires i < |c.servers[x].applied| && i < |c.servers[y].applied|
    ensures c.servers[x].applied[i] == c.servers[y].applied[i]
  {
    assert CommitOk(c.servers[x], h, n) && CommitOk(c.servers[y], h, n);
    if c.servers[x].commitIndex <= c.servers[y].commitIndex {
      StreamsAgree(c, h, n, c.servers[x], c.servers[y], i);
    } else {
      StreamsAgree(c, h, n, c.servers[y], c.servers[x], i);
    }
  }

  lemma StreamIs(s: Server, h: History, n: nat, i: nat)
    requires CommitOk(s, h, n) && i < |s.applied|
    ensures |s.applied| == s.commitIndex < |s.log| && s.applied[i] == ApplyMsg(i + 1, s.log[i + 1].command)
  {
    if s.commitIndex > 0 {
      MessagesAre(s.log, 0, s.commitIndex);
    }
  }

  /** What was applied stays applied. */
  lemma StepAppliedGrows(c: Cluster, a: Action, c': Cluster, x: nat)
    requires Step(c, a, c') && x < |c.servers|
    ensures |c'.servers| == |c.servers| && c.servers[x].applied <= c'.servers[x].applied
  {
  }

  lemma {:induction false} AppliedGrows(r: Run, n: nat, j: nat, k: nat, x: nat)
    requires IsRun(r, n) && j <= k < |r.states| && x < n
    ensures |r.states[j].servers| == |r.states[k].servers| == n
    ensures r.states[j].servers[x].applied <= r.states[k].servers[x].applied
    decreases k
  {
    RunSize(r, n, j);
    if j < k {
      AppliedGrows(r, n, j, k - 1, x);
      RunStepGrows(r, n, k - 1, x);
      PrefixTransitive(r.states[j].servers[x].applied, r.states[k - 1].servers[x].applied,
          r.states[k].servers[x].applied);
    }
  }

  lemma RunStepGrows(r: Run, n: nat, k: nat, x: nat)
    requires IsRun(r, n) && k < |r.actions| && x < |r.states[k].servers|
    ensures |r.states[k + 1].servers| == |r.states[k].servers|
    ensures r.states[k].servers[x].applied <= r.states[k + 1].servers[x].applied
  {
    StepAppliedGrows(r.states[k], r.actions[k], r.states[k + 1], x);
  }

  lemma PrefixTransitive<T>(a: seq<T>, b: seq<T>, c: seq<T>)
    requires a <= b <= c
    ensures a <= c
  {
  }

  lemma {:induction false} RunSize(r: Run, n: nat, k: nat)
    requires IsRun(r, n) && k < |r.states|
    ensures |r.states[k].servers| == n
  {
    if k > 0 {
      RunSize(r, n, k - 1);
      assert Step(r.states[k - 1], r.actions[k - 1], r.states[k - 1 + 1]);
      if n > 0 {
        StepAppliedGrows(r.states[k - 1], r.actions[k - 1], r.states[k], 0);
      }
    }
  }

  /** State machine safety: in every run that satisfies H1, H2 and H3, no two
      servers, at whatever moments, apply different commands at the same index. */
  lemma StateMachineSafety(r: Run, n: nat, j: nat, k: nat, x: nat, y: nat, i: nat)
    requires IsRun(r, n) && H1(r) && H2(r) && H3(r) && j < |r.states| && k < |r.states|
    requires x < |r.states[j].servers| && y < |r.states[k].servers|
    requires i < |r.states[j].servers[x].applied| && i < |r.states[k].servers[y].applied|
    ensures r.states[j].servers[x].applied[i] == r.states[k].servers[y].applied[i]
  {
    RunSize(r, n, j);
    RunSize(r, n, k);
    var l := if j <= k then k else j;
    RunKeepsFull(r, n, l);
    AppliedGrows(r, n, j, l, x);
    AppliedGrows(r, n, k, l, y);
    AppliedAgree(r.states[l], HistoryAt(r, n, l), n, x, y, i);
  }
}
