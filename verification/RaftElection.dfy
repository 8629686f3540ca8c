/** Election safety: no term has two leaders, in every run that satisfies H1,
    although a candidate that steps down may vote again in the same term. */
module RaftElection {
  import opened Options
  import opened RaftCore
  import opened RaftCluster
  import opened RaftHistory
  import opened Quorums

  // ------------------------------------------------------------- invariants

  /** Votes this server received and counted in the election of term t. */
  function Counted(s: Server, grants: set<Grant>, t: nat): set<nat> {
    set g | g in grants && g.term == t && g.candidate == s.me && g.voter != s.me
            && (t, g.voter) !in s.awaiting :: g.voter
  }

  ghost predicate TallyOk(s: Server, grants: set<Grant>) {
    && (forall t :: t in s.voteNum ==>
                      && t <= s.currentTerm
                      && Grant(t, s.me, s.me) in grants
                      && s.voteNum[t] <= 1 + |Counted(s, grants, t)|)
    && (forall t, p :: (t, p) in s.awaiting ==> t in s.voteNum && p != s.me)
  }

  /** What a server's own state says about the votes it has cast. */
  ghost predicate VoterOk(s: Server, grants: set<Grant>) {
    && (forall g :: g in grants && g.voter == s.me ==> g.term <= s.currentTerm)
    && (s.state != Follower ==>
          && s.currentTerm >= 1
          && s.votedFor == Some(s.me)
          && Grant(s.currentTerm, s.me, s.me) in grants
          && forall g :: g in grants && g.voter == s.me && g.term == s.currentTerm ==> g.candidate == s.me)
    && (s.state == Follower ==>
          forall g :: g in grants && g.voter == s.me && g.term == s.currentTerm && g.candidate != s.me ==>
                        s.votedFor == Some(g.candidate))
  }

  ghost predicate LeaderOk(s: Server, leaders: map<nat, nat>) {
    && (s.state == Leader ==> s.currentTerm in leaders && leaders[s.currentTerm] == s.me)
    && (forall t :: t in leaders && leaders[t] == s.me ==>
                      t <= s.currentTerm && (t == s.currentTerm ==> s.state == Leader))
  }

  /** A server casts at most one vote for another server in a term. */
  ghost predicate OneForeignVote(grants: set<Grant>) {
    forall g1, g2 :: g1 in grants && g2 in grants ==> !Clash(g1, g2)
  }

  predicate Clash(g1: Grant, g2: Grant) {
    && g1.voter == g2.voter && g1.term == g2.term && g1.candidate != g2.candidate
    && g1.candidate != g1.voter && g2.candidate != g2.voter
  }

  ghost predicate ReignsOk(h: History, n: nat) {
    && (forall g :: g in h.grants ==> g.voter < n && g.term >= 1)
    && (forall t :: t in h.leaders ==>
                      && t >= 1
                      && h.leaders[t] < n
                      && Majority(Voters(h.grants, t, h.leaders[t]), n))
    && (forall g :: g in h.grants && g.term in h.leaders && g.voter == h.leaders[g.term] ==>
                      g.candidate == g.voter)
  }

  ghost predicate NetOk(net: set<Message>, h: History) {
    forall m :: m in net ==> MessageOk(m, h)
  }

  ghost predicate MessageOk(m: Message, h: History) {
    match m
    case VoteRequest(to, a) => to != a.candidate && a.term >= 1
    case VoteAnswer(from, a, reply) => reply.granted ==> Grant(a.term, from, a.candidate) in h.grants
    case AppendRequest(to, a) => a.term in h.leaders && h.leaders[a.term] == a.leader && to != a.leader
    case AppendAnswer(_, a, _) => a.term in h.leaders && h.leaders[a.term] == a.leader
  }

  ghost predicate ServerOk(s: Server, h: History) {
    VoterOk(s, h.grants) && TallyOk(s, h.grants) && LeaderOk(s, h.leaders)
  }

  ghost predicate ElectionInv(c: Cluster, h: History, n: nat) {
    && Formed(c, n)
    && (forall i :: 0 <= i < n ==> ServerOk(c.servers[i], h))
    && OneForeignVote(h.grants)
    && ReignsOk(h, n)
    && NetOk(c.net, h)
  }

  // ---------------------------------------------------------- frame lemmas

  lemma VotersGrow(grants: set<Grant>, g: Grant, t: nat, c: nat, n: nat)
    requires Majority(Voters(grants, t, c), n) && g.voter < n
    ensures Majority(Voters(grants + {g}, t, c), n)
  {
    assert Voters(grants, t, c) <= Voters(grants + {g}, t, c) <= Voters(grants, t, c) + {g.voter};
    SubsetSize(Voters(grants, t, c), Voters(grants + {g}, t, c));
  }

  lemma TallyGrows(s: Server, grants: set<Grant>, g: Grant)
    requires TallyOk(s, grants)
    ensures TallyOk(s, grants + {g})
  {
    forall t | t in s.voteNum
      ensures s.voteNum[t] <= 1 + |Counted(s, grants + {g}, t)|
    {
      assert Counted(s, grants, t) <= Counted(s, grants + {g}, t);
      SubsetSize(Counted(s, grants, t), Counted(s, grants + {g}, t));
    }
  }

  lemma OthersKeepServerOk(s: Server, h: History, g: Grant)
    requires ServerOk(s, h) && g.voter != s.me
    ensures ServerOk(s, h.(grants := h.grants + {g}))
  {
    TallyGrows(s, h.grants, g);
  }

  lemma ReignsKeep(h: History, g: Grant, n: nat)
    requires ReignsOk(h, n) && g.voter < n && g.term >= 1
    requires g.term in h.leaders && g.voter == h.leaders[g.term] ==> g.candidate == g.voter
    ensures ReignsOk(h.(grants := h.grants + {g}), n)
  {
    forall t | t in h.leaders
      ensures Majority(Voters(h.grants + {g}, t, h.leaders[t]), n)
    {
      VotersGrow(h.grants, g, t, h.leaders[t], n);
    }
  }

  /** The fields that elections depend on. */
  predicate SameBallot(s: Server, s': Server) {
    && s'.me == s.me && s'.state == s.state && s'.currentTerm == s.currentTerm
    && s'.votedFor == s.votedFor && s'.voteNum == s.voteNum && s'.awaiting == s.awaiting
  }

  lemma SameBallotKeeps(s: Server, s': Server, h: History)
    requires SameBallot(s, s') && ServerOk(s, h)
    ensures ServerOk(s', h)
  {
    forall t | t in s'.voteNum
      ensures s'.voteNum[t] <= 1 + |Counted(s', h.grants, t)|
    {
      assert Counted(s', h.grants, t) == Counted(s, h.grants, t);
    }
  }

  /** A server that moves to a later term as a follower without a vote. */
  lemma LaterTermKeeps(s: Server, term: nat, h: History)
    requires ServerOk(s, h) && term > s.currentTerm
    ensures ServerOk(TurnFollower(s, term, None), h)
  {
    var s' := TurnFollower(s, term, None);
    forall t | t in s'.voteNum
      ensures s'.voteNum[t] <= 1 + |Counted(s', h.grants, t)|
    {
      assert Counted(s', h.grants, t) == Counted(s, h.grants, t);
    }
  }

  // ---------------------------------------------------- what each step keeps

  lemma StandKeeps(s: Server, h: History)
    requires |s.log| > 0 && ServerOk(s, h)
    ensures ServerOk(StandForElection(s).0, RecordStand(h, StandForElection(s).0))
  {
    var s' := StandForElection(s).0;
    var g := Grant(s'.currentTerm, s.me, s.me);
    forall t | t in s'.voteNum
      ensures s'.voteNum[t] <= 1 + |Counted(s', h.grants + {g}, t)|
    {
      if t != s'.currentTerm {
        assert Counted(s, h.grants, t) <= Counted(s', h.grants + {g}, t);
        SubsetSize(Counted(s, h.grants, t), Counted(s', h.grants + {g}, t));
      }
    }
  }

  lemma VoteKeeps(s: Server, a: VoteArgs, h: History)
    requires |s.log| > 0 && ServerOk(s, h) && s.me != a.candidate
    ensures var (s', reply) := RequestVote(s, a);
            var h' := if reply.granted then h.(grants := h.grants + {Grant(a.term, s.me, a.candidate)}) else h;
            ServerOk(s', h')
  {
    var (s', reply) := RequestVote(s, a);
    if s.dead || RefusesOutright(s, a) {
    } else {
      var s1 := AdoptTerm(s, a.term);
      if a.term > s.currentTerm {
        LaterTermKeeps(s, a.term, h);
      }
      if reply.granted {
        var g := Grant(a.term, s.me, a.candidate);
        TallyGrows(s1, h.grants, g);
        TallySame(s1, s', h.grants + {g});
      }
    }
  }

  lemma TallySame(s: Server, s': Server, grants: set<Grant>)
    requires TallyOk(s, grants)
    requires s'.me == s.me && s'.voteNum == s.voteNum && s'.awaiting == s.awaiting && s'.currentTerm >= s.currentTerm
    ensures TallyOk(s', grants)
  {
    forall t | t in s'.voteNum
      ensures s'.voteNum[t] <= 1 + |Counted(s', grants, t)|
    {
      assert Counted(s', grants, t) == Counted(s, grants, t);
    }
  }

  /** A vote cast for another server clashes with no earlier vote. */
  lemma VoteDoesNotClash(s: Server, a: VoteArgs, h: History)
    requires |s.log| > 0 && ServerOk(s, h) && s.me != a.candidate && OneForeignVote(h.grants)
    requires RequestVote(s, a).1.granted
    ensures OneForeignVote(h.grants + {Grant(a.term, s.me, a.candidate)})
    ensures a.term in h.leaders ==> h.leaders[a.term] != s.me
  {
    assert s.state != Follower && a.term == s.currentTerm ==> false;
  }

  lemma HearLeaderKeeps(s: Server, a: AppendArgs, h: History)
    requires ServerOk(s, h) && a.term >= s.currentTerm
    requires a.term in h.leaders && h.leaders[a.term] != s.me
    ensures ServerOk(HearLeader(s, a.term), h)
  {
    var s' := HearLeader(s, a.term);
    TallySame(s, s', h.grants);
  }

  lemma AppendKeeps(s: Server, a: AppendArgs, h: History)
    requires |s.log| > 0 && ServerOk(s, h)
    requires a.term in h.leaders && h.leaders[a.term] != s.me
    requires AppendEntries(s, a).Done?
    ensures ServerOk(AppendEntries(s, a).value.0, h)
  {
    if !s.dead && a.term >= s.currentTerm {
      HearLeaderKeeps(s, a, h);
      SameBallotKeeps(HearLeader(s, a.term), AppendEntries(s, a).value.0, h);
    }
  }

  lemma AppendReturnedKeeps(s: Server, peer: nat, reply: AppendReply, h: History)
    requires |s.log| > 0 && peer < |s.nextIndex| == |s.matchIndex| && ServerOk(s, h)
    requires AppendReturned(s, peer, reply).Done?
    ensures ServerOk(AppendReturned(s, peer, reply).value, h)
  {
    var s' := AppendReturned(s, peer, reply).value;
    if !s.dead && s.state == Leader && reply.term > s.currentTerm {
      LaterTermKeeps(s, reply.term, h);
    } else {
      SameBallotKeeps(s, s', h);
    }
  }

  // ------------------------------------------------------ winning an election

  /** The server after its vote call returned, before any promotion. */
  function Tallied(s: Server, election: nat, peer: nat): Server {
    var votes := (if election in s.voteNum then s.voteNum[election] else 0) + 1;
    s.(awaiting := s.awaiting - {(election, peer)}, voteNum := s.voteNum[election := votes])
  }

  lemma TallyReturns(s: Server, election: nat, peer: nat, h: History)
    requires ServerOk(s, h) && (election, peer) in s.awaiting
    ensures ServerOk(s.(awaiting := s.awaiting - {(election, peer)}), h)
  {
    var s' := s.(awaiting := s.awaiting - {(election, peer)});
    forall t | t in s'.voteNum
      ensures s'.voteNum[t] <= 1 + |Counted(s', h.grants, t)|
    {
      assert Counted(s, h.grants, t) <= Counted(s', h.grants, t);
      SubsetSize(Counted(s, h.grants, t), Counted(s', h.grants, t));
    }
  }

  lemma TallyCounts(s: Server, election: nat, peer: nat, h: History)
    requires ServerOk(s, h) && (election, peer) in s.awaiting
    requires Grant(election, peer, s.me) in h.grants
    ensures ServerOk(Tallied(s, election, peer), h)
  {
    var s' := Tallied(s, election, peer);
    forall t | t in s'.voteNum
      ensures s'.voteNum[t] <= 1 + |Counted(s', h.grants, t)|
    {
      if t == election {
        assert Counted(s, h.grants, t) + {peer} <= Counted(s', h.grants, t);
        assert peer !in Counted(s, h.grants, t);
        SubsetSize(Counted(s, h.grants, t) + {peer}, Counted(s', h.grants, t));
      } else {
        assert Counted(s, h.grants, t) <= Counted(s', h.grants, t);
        SubsetSize(Counted(s, h.grants, t), Counted(s', h.grants, t));
      }
    }
  }

  /** More than half the votes counted means a majority of servers voted. */
  lemma CountedMajority(s: Server, h: History, n: nat)
    requires ServerOk(s, h) && ReignsOk(h, n) && s.currentTerm in s.voteNum
    requires s.voteNum[s.currentTerm] > n / 2
    ensures Majority(Voters(h.grants, s.currentTerm, s.me), n)
  {
    var t := s.currentTerm;
    var c := Counted(s, h.grants, t);
    var v := Voters(h.grants, t, s.me);
    assert Grant(t, s.me, s.me) in h.grants;
    assert c + {s.me} <= v;
    assert s.me !in c;
    SubsetSize(c + {s.me}, v);
  }

  /** A candidate with a majority in its own term is the first leader of that term. */
  lemma NoEarlierLeader(s: Server, h: History, n: nat)
    requires ServerOk(s, h) && ReignsOk(h, n) && OneForeignVote(h.grants) && s.state == Candidate
    requires Majority(Voters(h.grants, s.currentTerm, s.me), n)
    ensures s.currentTerm !in h.leaders
  {
    var t := s.currentTerm;
    if t in h.leaders {
      var l := h.leaders[t];
      var w := MajoritiesMeet(Voters(h.grants, t, s.me), Voters(h.grants, t, l), n);
      assert false;
    }
  }

  lemma ElectionKeeps(s: Server, h: History, n: nat)
    requires ServerOk(s, h) && ReignsOk(h, n) && OneForeignVote(h.grants) && s.state == Candidate
    requires s.me < n && s.currentTerm in s.voteNum && s.voteNum[s.currentTerm] > n / 2
    ensures s.currentTerm !in h.leaders
    ensures ServerOk(TurnLeader(s), RecordElection(h, TurnLeader(s)))
    ensures ReignsOk(RecordElection(h, TurnLeader(s)), n)
  {
    CountedMajority(s, h, n);
    NoEarlierLeader(s, h, n);
    TallySame(s, TurnLeader(s), h.grants);
  }

  // -------------------------------------------------------------- every step

  /** What remains to be shown for a step that changes one server. */
  lemma OneServerChanges(c: Cluster, h: History, n: nat, i: nat, s': Server, sent: set<Message>, h': History)
    requires ElectionInv(c, h, n) && i < n
    requires Shaped(s', n) && s'.me == i && ServerOk(s', h')
    requires forall j :: 0 <= j < n && j != i ==> ServerOk(c.servers[j], h')
    requires OneForeignVote(h'.grants) && ReignsOk(h', n)
    requires h.grants <= h'.grants
    requires forall t :: t in h.leaders ==> t in h'.leaders && h'.leaders[t] == h.leaders[t]
    requires NetOk(sent, h')
    ensures ElectionInv(Put(c, i, s', sent), h', n)
  {
    forall m | m in c.net ensures MessageOk(m, h') {
      assert MessageOk(m, h);
    }
  }

  lemma TimeoutKeeps(c: Cluster, h: History, n: nat, i: nat, c': Cluster)
    requires ElectionInv(c, h, n) && i < n && TimeoutStep(c, i, c')
    ensures ElectionInv(c', RecordStand(h, c'.servers[i]), n)
  {
    var s := c.servers[i];
    var (s', a) := StandForElection(s);
    var h' := RecordStand(h, s');
    StandKeeps(s, h);
    var g := Grant(s'.currentTerm, i, i);
    forall j | 0 <= j < n && j != i ensures ServerOk(c.servers[j], h') {
      OthersKeepServerOk(c.servers[j], h, g);
    }
    ReignsKeep(h, g, n);
    var sent := set p | 0 <= p < n && p != i :: VoteRequest(p, a);
    OneServerChanges(c, h, n, i, s', sent, h');
  }

  lemma DeliverVoteKeeps(c: Cluster, h: History, n: nat, m: Message, c': Cluster)
    requires ElectionInv(c, h, n) && m.VoteRequest? && m.to < n && DeliverVoteStep(c, m, c')
    ensures ElectionInv(c', Record(h, DeliverVote(m), c.servers[m.to], c'.servers[m.to]), n)
  {
    var s := c.servers[m.to];
    var (s', reply) := RequestVote(s, m.vote);
    assert MessageOk(m, h);
    VoteKeeps(s, m.vote, h);
    var h' := Record(h, DeliverVote(m), s, s');
    if reply.granted {
      var g := Grant(m.vote.term, m.to, m.vote.candidate);
      VoteDoesNotClash(s, m.vote, h);
      forall j | 0 <= j < n && j != m.to ensures ServerOk(c.servers[j], h') {
        OthersKeepServerOk(c.servers[j], h, g);
      }
      ReignsKeep(h, g, n);
    }
    OneServerChanges(c, h, n, m.to, s', {VoteAnswer(m.to, m.vote, reply)}, h');
  }

  /** A vote call that returns without electing the server. */
  lemma ReturnWithoutElection(s: Server, m: Message, h: History)
    requires m.VoteAnswer? && m.vote.candidate == s.me && MessageOk(m, h) && ServerOk(s, h)
    requires (m.vote.term, m.from) in s.awaiting
    requires var s' := VoteReturned(s, m.vote.term, m.from, m.voteReply);
             s.state == Leader || s'.state != Leader
    ensures ServerOk(VoteReturned(s, m.vote.term, m.from, m.voteReply), h)
  {
    TallyReturns(s, m.vote.term, m.from, h);
    if CountsVote(s, m.voteReply) {
      TallyCounts(s, m.vote.term, m.from, h);
    } else if !s.dead && s.state == Candidate && m.voteReply.term > s.currentTerm {
      LaterTermKeeps(s.(awaiting := s.awaiting - {(m.vote.term, m.from)}), m.voteReply.term, h);
    }
  }

  /** A vote call that returns in its own term and elects the server. */
  lemma ReturnWithElection(s: Server, m: Message, h: History, n: nat)
    requires m.VoteAnswer? && m.vote.candidate == s.me && MessageOk(m, h) && ServerOk(s, h)
    requires (m.vote.term, m.from) in s.awaiting && s.currentTerm == m.vote.term && Shaped(s, n)
    requires ReignsOk(h, n) && OneForeignVote(h.grants)
    requires s.state != Leader && VoteReturned(s, m.vote.term, m.from, m.voteReply).state == Leader
    ensures s.currentTerm !in h.leaders
    ensures var s' := VoteReturned(s, m.vote.term, m.from, m.voteReply);
            ServerOk(s', RecordElection(h, s')) && ReignsOk(RecordElection(h, s'), n)
  {
    TallyCounts(s, m.vote.term, m.from, h);
    ElectionKeeps(Tallied(s, m.vote.term, m.from), h, n);
  }

  lemma OthersKeepLeaderOk(s: Server, h: History, w: Server)
    requires ServerOk(s, h) && w.me != s.me && w.currentTerm !in h.leaders
    ensures ServerOk(s, RecordElection(h, w))
  {
  }

  lemma VoteElects(c: Cluster, h: History, n: nat, m: Message, s': Server)
    requires ElectionInv(c, h, n) && m.VoteAnswer? && m in c.net && m.vote.candidate < n
    requires var s := c.servers[m.vote.candidate];
             && (m.vote.term, m.from) in s.awaiting && s.currentTerm == m.vote.term
             && s' == VoteReturned(s, m.vote.term, m.from, m.voteReply)
             && s.state != Leader && s'.state == Leader
    ensures ElectionInv(Put(c, m.vote.candidate, s', {}), RecordElection(h, s'), n)
  {
    var i := m.vote.candidate;
    assert MessageOk(m, h);
    ReturnWithElection(c.servers[i], m, h, n);
    var h' := RecordElection(h, s');
    forall j | 0 <= j < n && j != i ensures ServerOk(c.servers[j], h') {
      OthersKeepLeaderOk(c.servers[j], h, s');
    }
    OneServerChanges(c, h, n, i, s', {}, h');
  }

  lemma VoteDoesNotElect(c: Cluster, h: History, n: nat, m: Message, s': Server)
    requires ElectionInv(c, h, n) && m.VoteAnswer? && m in c.net && m.vote.candidate < n
    requires var s := c.servers[m.vote.candidate];
             && (m.vote.term, m.from) in s.awaiting
             && s' == VoteReturned(s, m.vote.term, m.from, m.voteReply)
             && (s.state == Leader || s'.state != Leader)
    ensures ElectionInv(Put(c, m.vote.candidate, s', {}), h, n)
  {
    var s := c.servers[m.vote.candidate];
    assert MessageOk(m, h);
    ReturnWithoutElection(s, m, h);
    assert Shaped(s', n);
    OneServerChanges(c, h, n, m.vote.candidate, s', {}, h);
  }

  /** A vote return that promotes the server: it was a candidate, its term had no
      leader, and its term and log are unchanged. */
  lemma ElectedIsFirst(c: Cluster, h: History, n: nat, m: Message, c': Cluster)
    requires ElectionInv(c, h, n) && m.VoteAnswer? && m.vote.candidate < n && VoteReturnsStep(c, m, c')
    requires SameTerm(c, VoteReturns(m))
    requires c.servers[m.vote.candidate].state != Leader && c'.servers[m.vote.candidate].state == Leader
    ensures var s, s' := c.servers[m.vote.candidate], c'.servers[m.vote.candidate];
            && s.currentTerm !in h.leaders && s.state == Candidate && s.currentTerm >= 1
            && s'.me == s.me && s'.log == s.log && s'.currentTerm == s.currentTerm
            && Majority(Voters(h.grants, s.currentTerm, s.me), n)
  {
    var s := c.servers[m.vote.candidate];
    assert MessageOk(m, h);
    assert CountsVote(s, m.voteReply);
    ReturnWithElection(s, m, h, n);
    var s' := c'.servers[m.vote.candidate];
    assert ReignsOk(RecordElection(h, s'), n);
    assert RecordElection(h, s').leaders[s.currentTerm] == s.me;
  }

  lemma VoteReturnsKeeps(c: Cluster, h: History, n: nat, m: Message, c': Cluster)
    requires ElectionInv(c, h, n) && m.VoteAnswer? && m.vote.candidate < n && VoteReturnsStep(c, m, c')
    requires SameTerm(c, VoteReturns(m))
    ensures ElectionInv(c', Record(h, VoteReturns(m), c.servers[m.vote.candidate], c'.servers[m.vote.candidate]), n)
  {
    var s := c.servers[m.vote.candidate];
    var s' := VoteReturned(s, m.vote.term, m.from, m.voteReply);
    if s.state != Leader && s'.state == Leader {
      assert CountsVote(s, m.voteReply);
      VoteElects(c, h, n, m, s');
    } else {
      VoteDoesNotElect(c, h, n, m, s');
    }
  }

  lemma SendHeartBeatKeeps(c: Cluster, h: History, n: nat, i: nat, peer: nat, c': Cluster)
    requires ElectionInv(c, h, n) && i < n && peer < n && SendHeartBeatStep(c, i, peer, c')
    ensures ElectionInv(c', h, n)
  {
    var r := HeartBeat(c.servers[i], peer).value;
    if r.Some? {
      OneServerChanges(c, h, n, i, c.servers[i], {AppendRequest(peer, r.value)}, h);
    }
  }

  /** Elections do not depend on the acknowledgements and logs of the history. */
  lemma LogsDoNotMatter(c: Cluster, h: History, h': History, n: nat)
    requires ElectionInv(c, h, n) && h'.grants == h.grants && h'.leaders == h.leaders
    ensures ElectionInv(c, h', n)
  {
    forall m | m in c.net ensures MessageOk(m, h') {
      assert MessageOk(m, h);
    }
  }

  lemma DeliverAppendKeeps(c: Cluster, h: History, n: nat, m: Message, c': Cluster)
    requires ElectionInv(c, h, n) && m.AppendRequest? && m.to < n && DeliverAppendStep(c, m, c')
    ensures ElectionInv(c', Record(h, DeliverAppend(m), c.servers[m.to], c'.servers[m.to]), n)
  {
    var s := c.servers[m.to];
    var r := AppendEntries(s, m.append).value;
    assert MessageOk(m, h);
    AppendKeeps(s, m.append, h);
    AppendKeepsShape(s, m.append, n);
    OneServerChanges(c, h, n, m.to, r.0, {AppendAnswer(m.to, m.append, r.1)}, h);
    LogsDoNotMatter(c', h, Record(h, DeliverAppend(m), s, r.0), n);
  }

  lemma MergeKeepsHead(log: seq<Entry>, prev: nat, entries: seq<Entry>)
    requires prev < |log|
    ensures |Merge(log, prev, entries)| > 0 && Merge(log, prev, entries)[0] == log[0]
  {
    var r := Merge(log, prev, entries);
    assert r[0] == r[..prev + 1][0];
  }

  lemma AcceptKeepsShape(s: Server, a: AppendArgs, n: nat)
    requires Shaped(s, n) && PrefixAccepted(s.log, a) && Accept(s, a).Done?
    ensures Shaped(Accept(s, a).value, n) && Accept(s, a).value.me == s.me
  {
    MergeKeepsHead(s.log, a.prevLogIndex, a.entries);
  }

  lemma AppendKeepsShape(s: Server, a: AppendArgs, n: nat)
    requires Shaped(s, n) && AppendEntries(s, a).Done?
    ensures Shaped(AppendEntries(s, a).value.0, n) && AppendEntries(s, a).value.0.me == s.me
  {
    if !s.dead && a.term >= s.currentTerm {
      var s1 := HearLeader(s, a.term);
      if PrefixAccepted(s1.log, a) {
        AcceptKeepsShape(s1, a, n);
      }
    }
  }

  lemma AppendReturnsKeeps(c: Cluster, h: History, n: nat, m: Message, c': Cluster)
    requires ElectionInv(c, h, n) && m.AppendAnswer? && m.append.leader < n && m.from < n && AppendReturnsStep(c, m, c')
    ensures ElectionInv(c', h, n)
  {
    var s := c.servers[m.append.leader];
    var s' := AppendReturned(s, m.from, m.appendReply).value;
    AppendReturnedKeeps(s, m.from, m.appendReply, h);
    OneServerChanges(c, h, n, m.append.leader, s', {}, h);
  }

  lemma StepKeeps(c: Cluster, h: History, n: nat, a: Action, c': Cluster)
    requires ElectionInv(c, h, n) && Step(c, a, c') && SameTerm(c, a)
    ensures Formed(c', n)
    ensures ElectionInv(c', Record(h, a, c.servers[Place(a)], c'.servers[Place(a)]), n)
  {
    match a
    case Timeout(i) => TimeoutKeeps(c, h, n, i, c');
    case DeliverVote(m) => DeliverVoteKeeps(c, h, n, m, c');
    case VoteReturns(m) => VoteReturnsKeeps(c, h, n, m, c');
    case SendHeartBeat(i, p) => SendHeartBeatKeeps(c, h, n, i, p, c');
    case DeliverAppend(m) => DeliverAppendKeeps(c, h, n, m, c');
    case AppendReturns(m) => AppendReturnsKeeps(c, h, n, m, c');
    case ClientStart(i, cmd) => StartKeeps(c, h, n, i, cmd);
    case Kill(i) =>
      SameBallotKeeps(c.servers[i], c.servers[i].(dead := true), h);
      OneServerChanges(c, h, n, i, c.servers[i].(dead := true), {}, h);
  }

  lemma StartKeeps(c: Cluster, h: History, n: nat, i: nat, cmd: Command)
    requires ElectionInv(c, h, n) && i < n
    ensures var s' := Start(c.servers[i], cmd);
            ElectionInv(Put(c, i, s', {}), Record(h, ClientStart(i, cmd), c.servers[i], s'), n)
  {
    var s' := Start(c.servers[i], cmd);
    var h' := Record(h, ClientStart(i, cmd), c.servers[i], s');
    SameBallotKeeps(c.servers[i], s', h');
    OneServerChanges(c, h, n, i, s', {}, h');
  }

  // ------------------------------------------------------------- every run

  lemma {:induction false} RunKeeps(r: Run, n: nat, k: nat)
    requires IsRun(r, n) && H1(r) && k < |r.states|
    ensures ElectionInv(r.states[k], HistoryAt(r, n, k), n)
  {
    if k > 0 {
      RunKeeps(r, n, k - 1);
      HistoryStep(r, n, k - 1);
      assert SameTerm(r.states[k - 1], r.actions[k - 1]);
      StepKeeps(r.states[k - 1], HistoryAt(r, n, k - 1), n, r.actions[k - 1], r.states[k]);
    }
  }

  predicate Leads(c: Cluster, i: nat, term: nat) {
    i < |c.servers| && c.servers[i].state == Leader && c.servers[i].currentTerm == term
  }

  /** Leaders and votes stay recorded. */
  ghost predicate LeadersExtend(h: History, h': History) {
    && (forall t :: t in h.leaders ==> t in h'.leaders && h'.leaders[t] == h.leaders[t])
    && (forall g :: g in h.grants ==> g in h'.grants)
  }

  lemma StepKeepsLeaders(c: Cluster, h: History, n: nat, a: Action, c': Cluster)
    requires ElectionInv(c, h, n) && Step(c, a, c') && SameTerm(c, a)
    ensures LeadersExtend(h, Record(h, a, c.servers[Place(a)], c'.servers[Place(a)]))
  {
    if a.VoteReturns? {
      var s, s' := c.servers[Place(a)], c'.servers[Place(a)];
      if s.state != Leader && s'.state == Leader {
        ElectedIsFirst(c, h, n, a.m, c');
      }
    }
  }

  /** Leaders, once recorded, stay recorded. */
  lemma {:induction false} LeadersStay(r: Run, n: nat, j: nat, k: nat)
    requires IsRun(r, n) && H1(r) && j <= k < |r.states|
    ensures LeadersExtend(HistoryAt(r, n, j), HistoryAt(r, n, k))
    decreases k
  {
    if j < k {
      LeadersStay(r, n, j, k - 1);
      RunKeeps(r, n, k - 1);
      HistoryStep(r, n, k - 1);
      assert SameTerm(r.states[k - 1], r.actions[k - 1]);
      StepKeepsLeaders(r.states[k - 1], HistoryAt(r, n, k - 1), n, r.actions[k - 1], r.states[k]);
    }
  }

  /** No step lowers a term. */
  lemma TermRises(c: Cluster, a: Action, c': Cluster, i: nat)
    requires Step(c, a, c') && i < |c.servers| == |c'.servers|
    ensures c.servers[i].currentTerm <= c'.servers[i].currentTerm
  {
  }

  lemma {:induction false} TermsOnlyRise(r: Run, n: nat, j: nat, k: nat, i: nat)
    requires IsRun(r, n) && H1(r) && j <= k < |r.states| && i < n
    ensures |r.states[j].servers| == |r.states[k].servers| == n
    ensures r.states[j].servers[i].currentTerm <= r.states[k].servers[i].currentTerm
    decreases k
  {
    RunKeeps(r, n, k);
    if j < k {
      TermsOnlyRise(r, n, j, k - 1, i);
      HistoryStep(r, n, k - 1);
      TermRises(r.states[k - 1], r.actions[k - 1], r.states[k], i);
    }
  }

  /** Between two moments of one term there is no other term. */
  lemma SameTermBetween(r: Run, n: nat, j: nat, m: nat, k: nat, i: nat, t: nat)
    requires IsRun(r, n) && H1(r) && j <= m <= k < |r.states| && i < n
    requires i < |r.states[j].servers| && r.states[j].servers[i].currentTerm == t
    requires i < |r.states[k].servers| && r.states[k].servers[i].currentTerm == t
    ensures |r.states[m].servers| == n && r.states[m].servers[i].currentTerm == t
  {
    TermsOnlyRise(r, n, j, m, i);
    TermsOnlyRise(r, n, m, k, i);
  }

  /** Election safety over whole runs: whoever leads term t, at whatever moments,
      is one and the same server. */
  lemma ElectionSafety(r: Run, n: nat, j: nat, k: nat, x: nat, y: nat, t: nat)
    requires IsRun(r, n) && H1(r) && j < |r.states| && k < |r.states|
    requires Leads(r.states[j], x, t) && Leads(r.states[k], y, t)
    ensures x == y
  {
    RunKeeps(r, n, j);
    RunKeeps(r, n, k);
    assert ServerOk(r.states[j].servers[x], HistoryAt(r, n, j));
    assert ServerOk(r.states[k].servers[y], HistoryAt(r, n, k));
    if j <= k {
      LeadersStay(r, n, j, k);
    } else {
      LeadersStay(r, n, k, j);
    }
  }
}
