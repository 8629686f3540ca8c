/** Log matching: in every run that satisfies H1, two logs that hold an entry of
    the same index and term are identical up to that index. */
module RaftLogs {
  import opened Options
  import opened RaftCore
  import opened RaftCluster
  import opened RaftHistory
  import E = RaftElection

  type LeaderLogs = map<nat, seq<Entry>>

  // ------------------------------------------------------------- invariants

  /** Every entry came, with everything before it, from the leader of its term. */
  ghost predicate Matches(log: seq<Entry>, lead: LeaderLogs) {
    forall i {:trigger EntryMatches(log, i, lead)} :: 0 <= i < |log| ==> EntryMatches(log, i, lead)
  }

  ghost predicate EntryMatches(log: seq<Entry>, i: nat, lead: LeaderLogs)
    requires i < |log|
  {
    log[i].term in lead && log[..i + 1] <= lead[log[i].term]
  }

  ghost predicate Ascending(log: seq<Entry>) {
    forall i, j :: 0 <= i <= j < |log| ==> log[i].term <= log[j].term
  }

  ghost predicate LeadLogOk(t: nat, h: History)
    requires t in h.lead
  {
    var log := h.lead[t];
    |log| > 0 && Matches(log, h.lead) && Ascending(log) && Last(log).term <= t
  }

  ghost predicate StoodOk(k: (nat, nat), h: History)
    requires k in h.stood
  {
    var log := h.stood[k];
    |log| > 0 && Matches(log, h.lead) && Last(log).term < k.0
  }

  ghost predicate LeadOk(h: History) {
    && h.lead.Keys == h.leaders.Keys + {0}
    && 0 !in h.leaders
    && h.lead[0] == [SENTINEL]
    && (forall t {:trigger LeadLogOk(t, h)} :: t in h.lead ==> LeadLogOk(t, h))
    && (forall k {:trigger StoodOk(k, h)} :: k in h.stood ==> StoodOk(k, h))
  }

  ghost predicate ServerLogOk(s: Server, h: History) {
    && |s.log| > 0
    && Matches(s.log, h.lead)
    && Last(s.log).term <= s.currentTerm
    && (s.state == Leader ==> s.currentTerm in h.lead && h.lead[s.currentTerm] == s.log)
    && (s.state == Candidate ==> (s.currentTerm, s.me) in h.stood && h.stood[(s.currentTerm, s.me)] == s.log)
    && (forall k :: k in h.stood && k.1 == s.me ==> k.0 <= s.currentTerm)
  }

  /** The message is a piece of the log of its term's leader. */
  ghost predicate AppendOk(a: AppendArgs, lead: LeaderLogs) {
    && a.term in lead
    && Reach(a) <= |lead[a.term]|
    && a.entries == lead[a.term][a.prevLogIndex + 1..Reach(a)]
    && a.prevLogTerm == lead[a.term][a.prevLogIndex].term
  }

  ghost predicate VoteArgsOk(a: VoteArgs, stood: map<(nat, nat), seq<Entry>>) {
    && (a.term, a.candidate) in stood
    && |stood[(a.term, a.candidate)]| > 0
    && a.lastLogIndex == |stood[(a.term, a.candidate)]| - 1
    && a.lastLogTerm == Last(stood[(a.term, a.candidate)]).term
  }

  ghost predicate MessageLogOk(m: Message, h: History) {
    match m
    case VoteRequest(_, a) => VoteArgsOk(a, h.stood)
    case VoteAnswer(_, a, _) => true
    case AppendRequest(_, a) => AppendOk(a, h.lead)
    case AppendAnswer(_, a, _) => AppendOk(a, h.lead)
  }

  ghost predicate LogInv(c: Cluster, h: History) {
    && LeadOk(h)
    && (forall i :: 0 <= i < |c.servers| ==> ServerLogOk(c.servers[i], h))
    && (forall m :: m in c.net ==> MessageLogOk(m, h))
  }

  // --------------------------------------------------------- log properties

  /** Logs drawn from the leaders' logs that agree on the term of one index
      agree on everything up to that index. */
  lemma SameTermSamePrefix(a: seq<Entry>, b: seq<Entry>, lead: LeaderLogs, i: nat)
    requires Matches(a, lead) && Matches(b, lead) && i < |a| && i < |b| && a[i].term == b[i].term
    ensures a[..i + 1] == b[..i + 1]
  {
    assert EntryMatches(a, i, lead) && EntryMatches(b, i, lead);
    var l := lead[a[i].term];
    assert a[..i + 1] == l[..i + 1];
    assert b[..i + 1] == l[..i + 1];
  }

  lemma MatchedIsAscending(log: seq<Entry>, h: History)
    requires LeadOk(h) && |log| > 0 && Matches(log, h.lead)
    ensures Ascending(log) && Last(log).term in h.lead && log <= h.lead[Last(log).term]
  {
    assert EntryMatches(log, |log| - 1, h.lead);
    var l := h.lead[Last(log).term];
    assert log == log[..|log| - 1 + 1];
    assert LeadLogOk(Last(log).term, h);
    forall i, j | 0 <= i <= j < |log| ensures log[i].term <= log[j].term {
      assert log[i] == l[i] && log[j] == l[j];
    }
  }

  lemma PrefixMatches(a: seq<Entry>, b: seq<Entry>, lead: LeaderLogs)
    requires a <= b && Matches(b, lead)
    ensures Matches(a, lead)
  {
    forall i | 0 <= i < |a| ensures EntryMatches(a, i, lead) {
      assert EntryMatches(b, i, lead);
      assert a[..i + 1] == b[..i + 1] && a[i] == b[i];
    }
  }

  /** The number of entries in front of the first conflicting one. */
  function Agreeing(log: seq<Entry>, a: AppendArgs): (d: nat)
    ensures d <= |a.entries|
  {
    var at := FirstConflict(log, a.prevLogIndex + 1, a.entries);
    if at.Some? then at.value else |a.entries|
  }

  lemma AgreeUpToConflict(log: seq<Entry>, a: AppendArgs, h: History)
    requires LeadOk(h) && Matches(log, h.lead) && AppendOk(a, h.lead) && PrefixAccepted(log, a)
    ensures var m := a.prevLogIndex + 1 + Agreeing(log, a);
            m <= |log| && log[..m] == h.lead[a.term][..m]
  {
    var l, d := h.lead[a.term], Agreeing(log, a);
    assert LeadLogOk(a.term, h);
    if d == 0 {
      SameTermSamePrefix(log, l, h.lead, a.prevLogIndex);
    } else {
      assert !Conflicts(log, a.prevLogIndex + 1 + (d - 1), a.entries[d - 1]);
      assert a.entries[d - 1] == l[a.prevLogIndex + d];
      SameTermSamePrefix(log, l, h.lead, a.prevLogIndex + d);
    }
  }

  /** What merging a piece of the leader's log does to a matching log: the result
      holds the leader's log as far as the message reaches, and it is either that
      and no more, or the old log. */
  lemma MergeFollowsLeader(log: seq<Entry>, a: AppendArgs, h: History)
    requires LeadOk(h) && Matches(log, h.lead) && AppendOk(a, h.lead) && PrefixAccepted(log, a)
    ensures var r, l := Merge(log, a.prevLogIndex, a.entries), h.lead[a.term];
            && Reach(a) <= |r| && r[..Reach(a)] == l[..Reach(a)]
            && (r == log || r == l[..Reach(a)])
  {
    AgreeUpToConflict(log, a, h);
    MergeShape(log, a, h.lead[a.term]);
  }

  lemma MergeShape(log: seq<Entry>, a: AppendArgs, l: seq<Entry>)
    requires a.prevLogIndex < |log| && Reach(a) <= |l| && a.entries == l[a.prevLogIndex + 1..Reach(a)]
    requires var m := a.prevLogIndex + 1 + Agreeing(log, a); m <= |log| && log[..m] == l[..m]
    ensures var r := Merge(log, a.prevLogIndex, a.entries);
            && Reach(a) <= |r| && r[..Reach(a)] == l[..Reach(a)]
            && (r == log || r == l[..Reach(a)])
  {
    var d := Agreeing(log, a);
    MergeKeepsAgreeing(log, a, d);
    ShapeOf(log, a, l, d, Merge(log, a.prevLogIndex, a.entries));
  }

  lemma ShapeOf(log: seq<Entry>, a: AppendArgs, l: seq<Entry>, d: nat, r: seq<Entry>)
    requires Reach(a) <= |l| && a.entries == l[a.prevLogIndex + 1..Reach(a)] && d <= |a.entries|
    requires var m := a.prevLogIndex + 1 + d; m <= |log| && log[..m] == l[..m]
    requires r == if d == |a.entries| then log else log[..a.prevLogIndex + 1 + d] + a.entries[d..]
    ensures Reach(a) <= |r| && r[..Reach(a)] == l[..Reach(a)]
    ensures r == log || r == l[..Reach(a)]
  {
    if d < |a.entries| {
      Splice(l, log, a.entries, a.prevLogIndex + 1, d);
    }
  }

  lemma MergeKeepsAgreeing(log: seq<Entry>, a: AppendArgs, d: nat)
    requires a.prevLogIndex < |log| && d == Agreeing(log, a) && a.prevLogIndex + 1 + d <= |log|
    ensures Merge(log, a.prevLogIndex, a.entries)
         == if d == |a.entries| then log else log[..a.prevLogIndex + 1 + d] + a.entries[d..]
  {
  }

  lemma Splice(l: seq<Entry>, log: seq<Entry>, piece: seq<Entry>, p: nat, d: nat)
    requires p + |piece| <= |l| && piece == l[p..p + |piece|] && d <= |piece|
    requires p + d <= |log| && log[..p + d] == l[..p + d]
    ensures log[..p + d] + piece[d..] == l[..p + |piece|]
  {
    assert piece[d..] == l[p + d..p + |piece|];
  }

  /** Merging never loses what the log and the leader's log have in common: a
      stale or short message removes nothing the leader still has. */
  lemma MergeKeepsCommon(log: seq<Entry>, a: AppendArgs, h: History, common: seq<Entry>)
    requires LeadOk(h) && Matches(log, h.lead) && AppendOk(a, h.lead) && PrefixAccepted(log, a)
    requires common <= log && common <= h.lead[a.term]
    ensures common <= Merge(log, a.prevLogIndex, a.entries)
  {
    var l := h.lead[a.term];
    var prev := a.prevLogIndex;
    var r := Merge(log, prev, a.entries);
    MergeFollowsLeader(log, a, h);
    if r != log {
      var d := FirstConflict(log, prev + 1, a.entries).value;
      if Reach(a) < |common| {
        assert false;
      }
      assert common == l[..|common|] == r[..|common|];
    }
  }

  // ---------------------------------------------------------- frame lemmas

  /** The history only grows. */
  ghost predicate LeadExtends(lead: LeaderLogs, lead': LeaderLogs) {
    forall t :: t in lead ==> t in lead' && lead[t] <= lead'[t]
  }

  ghost predicate StoodExtends(stood: map<(nat, nat), seq<Entry>>, stood': map<(nat, nat), seq<Entry>>) {
    forall k :: k in stood ==> k in stood' && stood'[k] == stood[k]
  }

  lemma MatchesGrows(log: seq<Entry>, lead: LeaderLogs, lead': LeaderLogs)
    requires Matches(log, lead) && LeadExtends(lead, lead')
    ensures Matches(log, lead')
  {
    forall i | 0 <= i < |log| ensures EntryMatches(log, i, lead') {
      assert EntryMatches(log, i, lead);
    }
  }

  lemma AppendOkGrows(a: AppendArgs, lead: LeaderLogs, lead': LeaderLogs)
    requires AppendOk(a, lead) && LeadExtends(lead, lead')
    ensures AppendOk(a, lead')
  {
    var l, l' := lead[a.term], lead'[a.term];
    assert l == l'[..|l|];
    assert l'[a.prevLogIndex + 1..Reach(a)] == l[a.prevLogIndex + 1..Reach(a)];
  }

  lemma OldMessagesKeep(net: set<Message>, h: History, h': History)
    requires forall m :: m in net ==> MessageLogOk(m, h)
    requires LeadExtends(h.lead, h'.lead) && StoodExtends(h.stood, h'.stood)
    ensures forall m :: m in net ==> MessageLogOk(m, h')
  {
    forall m | m in net ensures MessageLogOk(m, h') {
      assert MessageLogOk(m, h);
      if m.AppendRequest? || m.AppendAnswer? {
        AppendOkGrows(m.append, h.lead, h'.lead);
      }
    }
  }

  // ---------------------------------------------------- what each step keeps

  lemma StandKeepsLead(s: Server, h: History)
    requires |s.log| > 0 && ServerLogOk(s, h) && LeadOk(h)
    ensures var s' := StandForElection(s).0;
            var h' := RecordStand(h, s');
            LeadOk(h') && ServerLogOk(s', h') && StoodExtends(h.stood, h'.stood)
  {
    var s' := StandForElection(s).0;
    var h' := RecordStand(h, s');
    forall t | t in h'.lead ensures LeadLogOk(t, h') {
      assert LeadLogOk(t, h);
    }
    forall k | k in h'.stood ensures StoodOk(k, h') {
      if k != (s'.currentTerm, s.me) {
        assert StoodOk(k, h);
      }
    }
  }

  /** The new log of a term extends the old one, or the term is new. */
  lemma LeadGrows(h: History, h': History, t: nat)
    requires LeadOk(h) && t >= 1 && t in h'.lead && h'.lead.Keys == h.lead.Keys + {t}
    requires h'.stood == h.stood && h'.leaders.Keys == h.leaders.Keys + {t}
    requires LeadExtends(h.lead, h'.lead)
    requires forall u :: u in h.lead && u != t ==> h'.lead[u] == h.lead[u]
    requires LeadLogOk(t, h')
    ensures LeadOk(h')
  {
    forall u | u in h'.lead ensures LeadLogOk(u, h') {
      if u != t {
        assert LeadLogOk(u, h);
        MatchesGrows(h.lead[u], h.lead, h'.lead);
      }
    }
    forall k | k in h'.stood ensures StoodOk(k, h') {
      assert StoodOk(k, h);
      MatchesGrows(h.stood[k], h.lead, h'.lead);
    }
  }

  lemma ElectionKeepsLead(s: Server, h: History)
    requires ServerLogOk(s, h) && LeadOk(h) && s.currentTerm >= 1 && s.currentTerm !in h.leaders
    ensures LeadOk(RecordElection(h, s)) && LeadExtends(h.lead, RecordElection(h, s).lead)
  {
    var h' := RecordElection(h, s);
    MatchesGrows(s.log, h.lead, h'.lead);
    MatchedIsAscending(s.log, h);
    LeadGrows(h, h', s.currentTerm);
  }

  lemma StartKeepsLead(s: Server, cmd: Command, h: History)
    requires s.me < |s.matchIndex| == |s.nextIndex| && ServerLogOk(s, h) && LeadOk(h) && s.state == Leader
    requires s.currentTerm in h.leaders
    ensures var h' := RecordStart(h, Start(s, cmd));
            LeadOk(h') && LeadExtends(h.lead, h'.lead) && ServerLogOk(Start(s, cmd), h')
  {
    var s' := Start(s, cmd);
    var h' := RecordStart(h, s');
    var t := s.currentTerm;
    assert s'.log[..|s.log|] == s.log;
    assert LeadExtends(h.lead, h'.lead);
    MatchesGrows(s.log, h.lead, h'.lead);
    forall i | 0 <= i < |s'.log| ensures EntryMatches(s'.log, i, h'.lead) {
      if i < |s.log| {
        assert EntryMatches(s.log, i, h'.lead);
        assert s'.log[..i + 1] == s.log[..i + 1];
      }
    }
    MatchedIsAscending(s.log, h);
    LeadGrows(h, h', t);
  }

  lemma AppendKeepsLogOk(s: Server, a: AppendArgs, h: History)
    requires ServerLogOk(s, h) && LeadOk(h) && AppendOk(a, h.lead) && PrefixAccepted(s.log, a)
    requires s.state == Follower && s.currentTerm == a.term && Accept(s, a).Done?
    ensures ServerLogOk(Accept(s, a).value, h)
  {
    var l := h.lead[a.term];
    MergeFollowsLeader(s.log, a, h);
    var r := Merge(s.log, a.prevLogIndex, a.entries);
    if r != s.log {
      assert LeadLogOk(a.term, h);
      PrefixMatches(r, l, h.lead);
      assert Last(r) == l[Reach(a) - 1];
    }
  }

  lemma OthersKeepLogOk(s: Server, h: History, h': History, t: nat, i: nat)
    requires ServerLogOk(s, h) && LeadExtends(h.lead, h'.lead) && StoodExtends(h.stood, h'.stood)
    requires forall u :: u in h.lead && u != t ==> h'.lead[u] == h.lead[u]
    requires s.state == Leader ==> s.currentTerm != t
    requires i != s.me && forall k :: k in h'.stood ==> k in h.stood || k.1 == i
    ensures ServerLogOk(s, h')
  {
    MatchesGrows(s.log, h.lead, h'.lead);
  }

  /** The log is the same, and the server kept its role and term or fell back. */
  predicate Retreats(s: Server, s': Server) {
    && s'.me == s.me && s'.log == s.log && s'.currentTerm >= s.currentTerm
    && (s'.state == Follower || (s'.state == s.state && s'.currentTerm == s.currentTerm))
  }

  lemma RetreatKeeps(s: Server, s': Server, h: History)
    requires Retreats(s, s') && ServerLogOk(s, h)
    ensures ServerLogOk(s', h)
  {
  }

  // -------------------------------------------------------------- every step

  lemma OneLogChanges(c: Cluster, h: History, i: nat, s': Server, sent: set<Message>, h': History)
    requires LogInv(c, h) && i < |c.servers| && LeadOk(h')
    requires LeadExtends(h.lead, h'.lead) && StoodExtends(h.stood, h'.stood)
    requires ServerLogOk(s', h')
    requires forall j :: 0 <= j < |c.servers| && j != i ==> ServerLogOk(c.servers[j], h')
    requires forall m :: m in sent ==> MessageLogOk(m, h')
    ensures LogInv(Put(c, i, s', sent), h')
  {
    OldMessagesKeep(c.net, h, h');
  }

  lemma TimeoutKeeps(c: Cluster, h: History, n: nat, i: nat, c': Cluster)
    requires E.ElectionInv(c, h, n) && LogInv(c, h) && i < n && TimeoutStep(c, i, c')
    ensures LogInv(c', RecordStand(h, c'.servers[i]))
  {
    var (s', a) := StandForElection(c.servers[i]);
    var h' := RecordStand(h, s');
    StandKeepsLead(c.servers[i], h);
    forall j | 0 <= j < n && j != i ensures ServerLogOk(c.servers[j], h') {
      assert E.ServerOk(c.servers[j], h);
      OthersKeepLogOk(c.servers[j], h, h', 0, i);
    }
    var sent := set p | 0 <= p < n && p != i :: VoteRequest(p, a);
    OneLogChanges(c, h, i, s', sent, h');
  }

  lemma DeliverVoteKeeps(c: Cluster, h: History, n: nat, m: Message, c': Cluster)
    requires Formed(c, n) && LogInv(c, h) && m.VoteRequest? && m.to < n && DeliverVoteStep(c, m, c')
    ensures LogInv(c', Record(h, DeliverVote(m), c.servers[m.to], c'.servers[m.to]))
  {
    var (s', reply) := RequestVote(c.servers[m.to], m.vote);
    RetreatKeeps(c.servers[m.to], s', h);
    OneLogChanges(c, h, m.to, s', {VoteAnswer(m.to, m.vote, reply)}, h);
    GrantsDoNotMatter(c', h, Record(h, DeliverVote(m), c.servers[m.to], s'));
  }

  lemma GrantsDoNotMatter(c: Cluster, h: History, h': History)
    requires LogInv(c, h) && h'.lead == h.lead && h'.leaders == h.leaders && h'.stood == h.stood
    ensures LogInv(c, h')
  {
    forall t | t in h'.lead ensures LeadLogOk(t, h') {
      assert LeadLogOk(t, h);
    }
    forall k | k in h'.stood ensures StoodOk(k, h') {
      assert StoodOk(k, h);
    }
    OldMessagesKeep(c.net, h, h');
  }

  lemma VoteElects(c: Cluster, h: History, n: nat, i: nat, s': Server)
    requires E.ElectionInv(c, h, n) && LogInv(c, h) && i < n && c.servers[i].state == Candidate
    requires s'.me == i && s'.log == c.servers[i].log && s'.currentTerm == c.servers[i].currentTerm
             && s'.state == Leader
    requires s'.currentTerm !in h.leaders
    ensures LogInv(Put(c, i, s', {}), RecordElection(h, s'))
  {
    var s := c.servers[i];
    var h' := RecordElection(h, s');
    assert E.ServerOk(s, h);
    ElectionKeepsLead(s, h);
    MatchesGrows(s.log, h.lead, h'.lead);
    assert h' == RecordElection(h, s);
    forall j | 0 <= j < n && j != i ensures ServerLogOk(c.servers[j], h') {
      assert E.ServerOk(c.servers[j], h);
      OthersKeepLogOk(c.servers[j], h, h', s'.currentTerm, i);
    }
    OneLogChanges(c, h, i, s', {}, h');
  }

  lemma VoteReturnsKeeps(c: Cluster, h: History, n: nat, m: Message, c': Cluster)
    requires E.ElectionInv(c, h, n) && LogInv(c, h) && m.VoteAnswer? && m.vote.candidate < n
    requires VoteReturnsStep(c, m, c') && SameTerm(c, VoteReturns(m))
    ensures LogInv(c', Record(h, VoteReturns(m), c.servers[m.vote.candidate], c'.servers[m.vote.candidate]))
  {
    var s := c.servers[m.vote.candidate];
    var s' := VoteReturned(s, m.vote.term, m.from, m.voteReply);
    if s.state != Leader && s'.state == Leader {
      E.ElectedIsFirst(c, h, n, m, c');
      VoteElects(c, h, n, m.vote.candidate, s');
    } else {
      assert Retreats(s, s');
      RetreatKeeps(s, s', h);
      OneLogChanges(c, h, m.vote.candidate, s', {}, h);
    }
  }

  lemma SendHeartBeatKeeps(c: Cluster, h: History, n: nat, i: nat, peer: nat, c': Cluster)
    requires Formed(c, n) && LogInv(c, h) && i < n && peer < n && SendHeartBeatStep(c, i, peer, c')
    ensures LogInv(c', h)
  {
    var r := HeartBeat(c.servers[i], peer).value;
    if r.Some? {
      assert ServerLogOk(c.servers[i], h);
      assert AppendOk(r.value, h.lead);
      OneLogChanges(c, h, i, c.servers[i], {AppendRequest(peer, r.value)}, h);
    }
  }

  lemma AppendEntriesKeeps(s: Server, a: AppendArgs, h: History)
    requires ServerLogOk(s, h) && LeadOk(h) && AppendOk(a, h.lead) && AppendEntries(s, a).Done?
    ensures ServerLogOk(AppendEntries(s, a).value.0, h)
  {
    if !s.dead && a.term >= s.currentTerm {
      var s1 := HearLeader(s, a.term);
      RetreatKeeps(s, s1, h);
      if PrefixAccepted(s1.log, a) {
        AppendKeepsLogOk(s1, a, h);
      }
    }
  }

  lemma DeliverAppendKeeps(c: Cluster, h: History, n: nat, m: Message, c': Cluster)
    requires Formed(c, n) && LogInv(c, h) && m.AppendRequest? && m.to < n && DeliverAppendStep(c, m, c')
    ensures LogInv(c', Record(h, DeliverAppend(m), c.servers[m.to], c'.servers[m.to]))
  {
    var s := c.servers[m.to];
    var r := AppendEntries(s, m.append).value;
    assert MessageLogOk(m, h);
    AppendEntriesKeeps(s, m.append, h);
    OneLogChanges(c, h, m.to, r.0, {AppendAnswer(m.to, m.append, r.1)}, h);
    GrantsDoNotMatter(c', h, Record(h, DeliverAppend(m), s, r.0));
  }

  lemma AppendReturnsKeeps(c: Cluster, h: History, n: nat, m: Message, c': Cluster)
    requires Formed(c, n) && LogInv(c, h) && m.AppendAnswer? && m.append.leader < n && m.from < n
    requires AppendReturnsStep(c, m, c')
    ensures LogInv(c', h)
  {
    var s := c.servers[m.append.leader];
    var s' := AppendReturned(s, m.from, m.appendReply).value;
    assert Retreats(s, s');
    RetreatKeeps(s, s', h);
    OneLogChanges(c, h, m.append.leader, s', {}, h);
  }

  lemma StartKeeps(c: Cluster, h: History, n: nat, i: nat, cmd: Command)
    requires E.ElectionInv(c, h, n) && LogInv(c, h) && i < n
    ensures var s' := Start(c.servers[i], cmd);
            LogInv(Put(c, i, s', {}), Record(h, ClientStart(i, cmd), c.servers[i], s'))
  {
    var s := c.servers[i];
    var s' := Start(s, cmd);
    assert E.ServerOk(s, h);
    if s.state == Leader {
      var h' := RecordStart(h, s');
      StartKeepsLead(s, cmd, h);
      forall j | 0 <= j < n && j != i ensures ServerLogOk(c.servers[j], h') {
        assert E.ServerOk(c.servers[j], h);
        OthersKeepLogOk(c.servers[j], h, h', s.currentTerm, i);
      }
      OneLogChanges(c, h, i, s', {}, h');
    } else {
      OneLogChanges(c, h, i, s', {}, h);
    }
  }

  lemma StepKeeps(c: Cluster, h: History, n: nat, a: Action, c': Cluster)
    requires E.ElectionInv(c, h, n) && LogInv(c, h) && Step(c, a, c') && SameTerm(c, a)
    ensures LogInv(c', Record(h, a, c.servers[Place(a)], c'.servers[Place(a)]))
  {
    match a
    case Timeout(i) => TimeoutKeeps(c, h, n, i, c');
    case DeliverVote(m) => DeliverVoteKeeps(c, h, n, m, c');
    case VoteReturns(m) => VoteReturnsKeeps(c, h, n, m, c');
    case SendHeartBeat(i, p) => SendHeartBeatKeeps(c, h, n, i, p, c');
    case DeliverAppend(m) => DeliverAppendKeeps(c, h, n, m, c');
    case AppendReturns(m) => AppendReturnsKeeps(c, h, n, m, c');
    case ClientStart(i, cmd) => StartKeeps(c, h, n, i, cmd);
    case Kill(i) =>
      RetreatKeeps(c.servers[i], c.servers[i].(dead := true), h);
      OneLogChanges(c, h, i, c.servers[i].(dead := true), {}, h);
  }

  // ------------------------------------------------------------- every run

  lemma InitKeeps(c: Cluster, n: nat)
    requires Init(c, n)
    ensures LogInv(c, InitHistory())
  {
    var h := InitHistory();
    assert EntryMatches([SENTINEL], 0, h.lead);
    assert LeadLogOk(0, h);
  }

  lemma {:induction false} RunKeeps(r: Run, n: nat, k: nat)
    requires IsRun(r, n) && H1(r) && k < |r.states|
    ensures LogInv(r.states[k], HistoryAt(r, n, k))
  {
    if k == 0 {
      InitKeeps(r.states[0], n);
    } else {
      RunKeeps(r, n, k - 1);
      E.RunKeeps(r, n, k - 1);
      HistoryStep(r, n, k - 1);
      assert SameTerm(r.states[k - 1], r.actions[k - 1]);
      StepKeeps(r.states[k - 1], HistoryAt(r, n, k - 1), n, r.actions[k - 1], r.states[k]);
    }
  }

  /** Log matching over whole runs: two logs, of any servers at any two moments,
      that hold an entry of the same term at index i are identical up to i,
      commands included. */
  lemma LogMatching(r: Run, n: nat, j: nat, k: nat, x: nat, y: nat, i: nat)
    requires IsRun(r, n) && H1(r) && j < |r.states| && k < |r.states|
    requires x < |r.states[j].servers| && y < |r.states[k].servers|
    requires var a, b := r.states[j].servers[x].log, r.states[k].servers[y].log;
             i < |a| && i < |b| && a[i].term == b[i].term
    ensures r.states[j].servers[x].log[..i + 1] == r.states[k].servers[y].log[..i + 1]
  {
    if j <= k {
      LogMatchingInOrder(r, n, j, k, x, y, i);
    } else {
      LogMatchingInOrder(r, n, k, j, y, x, i);
    }
  }

  lemma LogMatchingInOrder(r: Run, n: nat, j: nat, k: nat, x: nat, y: nat, i: nat)
    requires IsRun(r, n) && H1(r) && j <= k < |r.states|
    requires x < |r.states[j].servers| && y < |r.states[k].servers|
    requires var a, b := r.states[j].servers[x].log, r.states[k].servers[y].log;
             i < |a| && i < |b| && a[i].term == b[i].term
    ensures r.states[j].servers[x].log[..i + 1] == r.states[k].servers[y].log[..i + 1]
  {
    RunKeeps(r, n, j);
    RunKeeps(r, n, k);
    LeadStays(r, n, j, k);
    var a, b := r.states[j].servers[x], r.states[k].servers[y];
    assert ServerLogOk(a, HistoryAt(r, n, j)) && ServerLogOk(b, HistoryAt(r, n, k));
    MatchesGrows(a.log, HistoryAt(r, n, j).lead, HistoryAt(r, n, k).lead);
    SameTermSamePrefix(a.log, b.log, HistoryAt(r, n, k).lead, i);
  }

  lemma StepExtendsLead(c: Cluster, h: History, n: nat, a: Action, c': Cluster)
    requires E.ElectionInv(c, h, n) && LogInv(c, h) && Step(c, a, c') && SameTerm(c, a)
    ensures LeadExtends(h.lead, Record(h, a, c.servers[Place(a)], c'.servers[Place(a)]).lead)
  {
    var s, s' := c.servers[Place(a)], c'.servers[Place(a)];
    assert E.ServerOk(s, h) && ServerLogOk(s, h);
    if a.VoteReturns? && s.state != Leader && s'.state == Leader {
      E.ElectedIsFirst(c, h, n, a.m, c');
    } else if a.ClientStart? && s.state == Leader {
      assert s'.log[..|s.log|] == s.log;
    }
  }

  lemma {:induction false} LeadStays(r: Run, n: nat, j: nat, k: nat)
    requires IsRun(r, n) && H1(r) && j <= k < |r.states|
    ensures LeadExtends(HistoryAt(r, n, j).lead, HistoryAt(r, n, k).lead)
    decreases k
  {
    if j < k {
      LeadStays(r, n, j, k - 1);
      RunKeeps(r, n, k - 1);
      E.RunKeeps(r, n, k - 1);
      HistoryStep(r, n, k - 1);
      assert SameTerm(r.states[k - 1], r.actions[k - 1]);
      StepExtendsLead(r.states[k - 1], HistoryAt(r, n, k - 1), n, r.actions[k - 1], r.states[k]);
    }
  }
}
