/** Leader completeness.  Say that index i is acknowledged to the leader of term t when
    a server held that leader's log past i in term t.  An acknowledgement is kept until
    a later leader lacks the entry, and a vote passes on what the voter acknowledged,
    because the voter compares the last entries of the two logs.  So a later leader can
    lack an entry of term t only if its voters, a majority, never acknowledged it: then
    a majority has moved on and the entry is blocked for good.  An entry acknowledged
    by a majority is therefore in the log of every later leader.  None of this needs
    more than H1; H2 and H3 come in where acknowledgements are counted (RaftCommit). */
module RaftPersistence {
  import opened Options
  import opened RaftCore
  import opened RaftCluster
  import opened RaftHistory
  import opened Quorums
  import opened L = RaftLogs
  import E = RaftElection

  // ------------------------------------------------------------- invariants

  /** Index i of the log of term t's leader holds an entry of term t. */
  ghost predicate OwnEntry(h: History, t: nat, i: nat) {
    t >= 1 && t in h.lead && i < |h.lead[t]| && h.lead[t][i].term == t
  }

  /** A later leader, of a term up to bound, lacks that entry. */
  ghost predicate Overridden(h: History, t: nat, i: nat, bound: nat)
    requires OwnEntry(h, t, i)
  {
    exists u: nat :: Lacks(h, u, t, i) && u <= bound
  }

  ghost predicate Lacks(h: History, u: nat, t: nat, i: nat)
    requires OwnEntry(h, t, i)
  {
    t < u && u in h.lead && !(h.lead[t][..i + 1] <= h.lead[u])
  }

  /** The log still holds the entry, or a later leader lacks it. */
  ghost predicate Held(h: History, t: nat, i: nat, log: seq<Entry>, bound: nat)
    requires OwnEntry(h, t, i)
  {
    h.lead[t][..i + 1] <= log || Overridden(h, t, i, bound)
  }

  ghost predicate AckKept(h: History, ack: Ack, i: nat, log: seq<Entry>, bound: nat) {
    i < ack.len && OwnEntry(h, ack.term, i) ==> Held(h, ack.term, i, log, bound)
  }

  ghost predicate AckOk(s: Server, h: History) {
    forall ack, i {:trigger AckKept(h, ack, i, s.log, s.currentTerm)} ::
      ack in h.acks && ack.server == s.me ==> AckKept(h, ack, i, s.log, s.currentTerm)
  }

  ghost predicate AckRanges(h: History, servers: seq<Server>) {
    forall ack :: ack in h.acks ==>
                    && ack.server < |servers|
                    && ack.term in h.lead && ack.term >= 1
                    && ack.len <= |h.lead[ack.term]|
                    && ack.term <= servers[ack.server].currentTerm
  }

  /** A voter passes what it acknowledged on to the candidate it votes for. */
  ghost predicate GrantCarries(h: History, g: Grant, ack: Ack, i: nat) {
    (g.term, g.candidate) in h.stood
    && (ack.server == g.voter && ack.term < g.term ==> AckKept(h, ack, i, h.stood[(g.term, g.candidate)], g.term))
  }

  ghost predicate GrantsOk(h: History) {
    forall g, ack, i {:trigger GrantCarries(h, g, ack, i)} ::
      g in h.grants && ack in h.acks ==> GrantCarries(h, g, ack, i)
  }

  ghost predicate GrantsStood(h: History) {
    forall g :: g in h.grants ==> (g.term, g.candidate) in h.stood
  }

  /** The servers that acknowledged index i to the leader of term t. */
  function Ackers(acks: set<Ack>, t: nat, i: nat): set<nat> {
    set a | a in acks && a.term == t && a.len > i :: a.server
  }

  /** A majority has moved past term t without acknowledging index i, and never will. */
  ghost predicate Blocked(h: History, servers: seq<Server>, t: nat, i: nat) {
    exists q :: Blocks(q, h, servers, t, i)
  }

  ghost predicate Blocks(q: set<nat>, h: History, servers: seq<Server>, t: nat, i: nat) {
    && Majority(q, |servers|)
    && q !! Ackers(h.acks, t, i)
    && forall v :: v in q ==> servers[v].currentTerm > t
  }

  ghost predicate LackImpliesBlocked(h: History, servers: seq<Server>, u: nat, t: nat, i: nat) {
    OwnEntry(h, t, i) && Lacks(h, u, t, i) ==> Blocked(h, servers, t, i)
  }

  ghost predicate BlockedOk(h: History, servers: seq<Server>) {
    forall u, t, i {:trigger LackImpliesBlocked(h, servers, u, t, i)} :: LackImpliesBlocked(h, servers, u, t, i)
  }

  ghost predicate PersistInv(c: Cluster, h: History) {
    && (forall i :: 0 <= i < |c.servers| ==> AckOk(c.servers[i], h))
    && AckRanges(h, c.servers)
    && GrantsStood(h)
    && GrantsOk(h)
    && BlockedOk(h, c.servers)
  }

  // --------------------------------------------- consequences: completeness

  /** Index i was acknowledged by a majority to the leader of term t, which wrote it. */
  ghost predicate Chosen(h: History, n: nat, t: nat, i: nat) {
    OwnEntry(h, t, i) && Majority(Ackers(h.acks, t, i), n)
  }

  /** Leader completeness: every later leader holds a chosen entry, and all before it. */
  lemma LeaderCompleteness(c: Cluster, h: History, t: nat, i: nat, u: nat)
    requires PersistInv(c, h) && Chosen(h, |c.servers|, t, i) && t <= u && u in h.lead
    ensures h.lead[t][..i + 1] <= h.lead[u]
  {
    if t < u && !(h.lead[t][..i + 1] <= h.lead[u]) {
      assert LackImpliesBlocked(h, c.servers, u, t, i);
      var q :| Blocks(q, h, c.servers, t, i);
      var v := MajoritiesMeet(q, Ackers(h.acks, t, i), |c.servers|);
      assert false;
    }
  }

  // ------------------------------------------------------- growing histories

  /** A leader's log only grows, and only by entries of its own term. */
  ghost predicate GrowsByOwn(lead: LeaderLogs, lead': LeaderLogs) {
    forall u :: u in lead ==> u in lead' && lead[u] <= lead'[u]
                              && forall j :: |lead[u]| <= j < |lead'[u]| ==> lead'[u][j].term == u
  }

  ghost predicate Grows(h: History, h': History) {
    LeadOk(h) && GrowsByOwn(h.lead, h'.lead)
  }

  /** A leader that lacks an older entry never gains it. */
  lemma LackStays(h: History, h': History, u: nat, t: nat, i: nat)
    requires Grows(h, h') && OwnEntry(h, t, i) && Lacks(h, u, t, i)
    ensures OwnEntry(h', t, i) && Lacks(h', u, t, i) && h'.lead[t][..i + 1] == h.lead[t][..i + 1]
  {
    assert LeadLogOk(t, h);
    assert h'.lead[t][..i + 1] == h.lead[t][..i + 1];
  }

  lemma HeldGrows(h: History, h': History, t: nat, i: nat, log: seq<Entry>, bound: nat)
    requires Grows(h, h') && OwnEntry(h, t, i) && Held(h, t, i, log, bound)
    ensures OwnEntry(h', t, i) && Held(h', t, i, log, bound)
  {
    assert h'.lead[t][..i + 1] == h.lead[t][..i + 1];
    if Overridden(h, t, i, bound) {
      var u: nat :| Lacks(h, u, t, i) && u <= bound;
      LackStays(h, h', u, t, i);
    }
  }

  /** An own entry within the old log was one before. */
  lemma OwnBefore(h: History, h': History, t: nat, i: nat)
    requires Grows(h, h') && t in h.lead && i < |h.lead[t]| && OwnEntry(h', t, i)
    ensures OwnEntry(h, t, i)
  {
  }

  lemma KeptGrows(h: History, h': History, ack: Ack, i: nat, log: seq<Entry>, bound: nat)
    requires Grows(h, h') && ack.term in h.lead && ack.len <= |h.lead[ack.term]|
    requires AckKept(h, ack, i, log, bound)
    ensures AckKept(h', ack, i, log, bound)
  {
    if i < ack.len && OwnEntry(h', ack.term, i) {
      OwnBefore(h, h', ack.term, i);
      HeldGrows(h, h', ack.term, i, log, bound);
    }
  }

  lemma AckOkGrows(s: Server, h: History, h': History, servers: seq<Server>)
    requires AckOk(s, h) && Grows(h, h') && AckRanges(h, servers)
    requires forall ack :: ack in h'.acks && ack.server == s.me ==> ack in h.acks
    ensures AckOk(s, h')
  {
    forall ack, i | ack in h'.acks && ack.server == s.me
      ensures AckKept(h', ack, i, s.log, s.currentTerm)
    {
      assert AckKept(h, ack, i, s.log, s.currentTerm);
      KeptGrows(h, h', ack, i, s.log, s.currentTerm);
    }
  }

  /** A later term bound, or a log that keeps the entry, keeps an acknowledgement. */
  lemma AckOkLater(s: Server, s': Server, h: History)
    requires AckOk(s, h) && s'.me == s.me && s'.log == s.log && s'.currentTerm >= s.currentTerm
    ensures AckOk(s', h)
  {
    forall ack, i | ack in h.acks && ack.server == s'.me
      ensures AckKept(h, ack, i, s'.log, s'.currentTerm)
    {
      assert AckKept(h, ack, i, s.log, s.currentTerm);
    }
  }

  // ------------------------------------------------- steps that move only terms

  ghost predicate TermsRise(a: seq<Server>, b: seq<Server>) {
    |a| == |b| && forall v :: 0 <= v < |a| ==> a[v].currentTerm <= b[v].currentTerm
  }

  lemma BlockedLater(h: History, a: seq<Server>, b: seq<Server>)
    requires BlockedOk(h, a) && TermsRise(a, b)
    ensures BlockedOk(h, b)
  {
    forall u, t, i ensures LackImpliesBlocked(h, b, u, t, i) {
      assert LackImpliesBlocked(h, a, u, t, i);
      if OwnEntry(h, t, i) && Lacks(h, u, t, i) {
        var q :| Blocks(q, h, a, t, i);
        assert Blocks(q, h, b, t, i);
      }
    }
  }

  /** One server keeps its log and does not go back in term; the history stays. */
  lemma PlainKeeps(c: Cluster, h: History, i: nat, s': Server, sent: set<Message>)
    requires PersistInv(c, h) && i < |c.servers|
    requires s'.me == c.servers[i].me && s'.log == c.servers[i].log && s'.currentTerm >= c.servers[i].currentTerm
    ensures PersistInv(Put(c, i, s', sent), h)
  {
    AckOkLater(c.servers[i], s', h);
    BlockedLater(h, c.servers, c.servers[i := s']);
  }

  // ------------------------------------------------------------- voting steps

  /** The invariant depends on the votes only through GrantsStood and GrantsOk. */
  lemma NewGrants(c: Cluster, h: History, h': History)
    requires PersistInv(c, h) && h'.lead == h.lead && h'.acks == h.acks
    requires GrantsStood(h') && GrantsOk(h')
    ensures PersistInv(c, h')
  {
    forall j | 0 <= j < |c.servers| ensures AckOk(c.servers[j], h') {
      AckOkSame(c.servers[j], h, h');
    }
    forall u, t, i ensures LackImpliesBlocked(h', c.servers, u, t, i) {
      assert LackImpliesBlocked(h, c.servers, u, t, i);
      if OwnEntry(h', t, i) && Lacks(h', u, t, i) {
        assert OwnEntry(h, t, i) && Lacks(h, u, t, i);
        var q :| Blocks(q, h, c.servers, t, i);
        assert Blocks(q, h', c.servers, t, i);
      }
    }
  }

  lemma KeptSame(h: History, h': History, ack: Ack, i: nat, log: seq<Entry>, bound: nat)
    requires h'.lead == h.lead && AckKept(h, ack, i, log, bound)
    ensures AckKept(h', ack, i, log, bound)
  {
    if i < ack.len && OwnEntry(h', ack.term, i) {
      assert OwnEntry(h, ack.term, i);
      if Overridden(h, ack.term, i, bound) {
        var u: nat :| Lacks(h, u, ack.term, i) && u <= bound;
        assert Lacks(h', u, ack.term, i);
      }
    }
  }

  lemma AckOkSame(s: Server, h: History, h': History)
    requires AckOk(s, h) && h'.lead == h.lead && h'.acks == h.acks
    ensures AckOk(s, h')
  {
    forall ack, i | ack in h'.acks && ack.server == s.me
      ensures AckKept(h', ack, i, s.log, s.currentTerm)
    {
      assert AckKept(h, ack, i, s.log, s.currentTerm);
      KeptSame(h, h', ack, i, s.log, s.currentTerm);
    }
  }

  /** Adding one vote: only its own obligation is new. */
  lemma OneNewGrant(h: History, h': History, g: Grant)
    requires GrantsOk(h) && GrantsStood(h)
    requires h'.lead == h.lead && h'.acks == h.acks && h'.grants == h.grants + {g} && StoodExtends(h.stood, h'.stood)
    requires (g.term, g.candidate) in h'.stood
    requires forall ack, i {:trigger GrantCarries(h', g, ack, i)} :: ack in h'.acks ==> GrantCarries(h', g, ack, i)
    ensures GrantsOk(h') && GrantsStood(h')
  {
    forall f, ack, i | f in h'.grants && ack in h'.acks ensures GrantCarries(h', f, ack, i) {
      if f in h.grants {
        assert GrantCarries(h, f, ack, i);
        if ack.server == f.voter && ack.term < f.term {
          KeptSame(h, h', ack, i, h.stood[(f.term, f.candidate)], f.term);
        }
      }
    }
  }

  lemma LargerBound(h: History, ack: Ack, i: nat, log: seq<Entry>, bound: nat, bound': nat)
    requires AckKept(h, ack, i, log, bound) && bound <= bound'
    ensures AckKept(h, ack, i, log, bound')
  {
  }

  lemma TimeoutKeeps(c: Cluster, h: History, n: nat, i: nat, c': Cluster)
    requires E.ElectionInv(c, h, n) && LogInv(c, h) && PersistInv(c, h) && i < n && TimeoutStep(c, i, c')
    ensures PersistInv(c', RecordStand(h, c'.servers[i]))
  {
    var s := c.servers[i];
    var (s', a) := StandForElection(s);
    var h' := RecordStand(h, s');
    var g := Grant(s'.currentTerm, i, i);
    assert ServerLogOk(s, h);
    PlainKeeps(c, h, i, s', c'.net);
    forall ack, j | ack in h'.acks ensures GrantCarries(h', g, ack, j) {
      if ack.server == i {
        assert AckKept(h, ack, j, s.log, s.currentTerm);
        LargerBound(h, ack, j, s.log, s.currentTerm, s'.currentTerm);
        KeptSame(h, h', ack, j, s.log, s'.currentTerm);
      }
    }
    OneNewGrant(h, h', g);
    NewGrants(Put(c, i, s', c'.net), h, h');
    assert Put(c, i, s', c'.net).servers == c'.servers;
  }

  /** A prefix of a leader's log that ends in an older term ends before an entry
      of a newer term. */
  lemma LongerThan(h: History, p: seq<Entry>, u: nat, k: nat, t: nat)
    requires LeadOk(h) && u in h.lead && k < |h.lead[u]| && h.lead[u][k].term > t
    requires |p| > 0 && p <= h.lead[u] && Last(p).term == t
    ensures |p| <= k
  {
    assert LeadLogOk(u, h);
    assert Last(p) == h.lead[u][|p| - 1];
  }

  /** The heart of leader completeness: an up-to-date candidate log holds what the
      voter's log held of an acknowledged entry, or a leader in between lacked it. */
  lemma UpToDateCarries(h: History, w: seq<Entry>, log: seq<Entry>, a: VoteArgs, t: nat, i: nat)
    requires LeadOk(h) && OwnEntry(h, t, i)
    requires |w| > 0 && Matches(w, h.lead) && |log| > 0 && Matches(log, h.lead) && Last(log).term < a.term
    requires a.lastLogIndex == |log| - 1 && a.lastLogTerm == Last(log).term && UpToDate(w, a)
    requires h.lead[t][..i + 1] <= w
    ensures Held(h, t, i, log, a.term)
  {
    var p := h.lead[t][..i + 1];
    MatchedIsAscending(w, h);
    MatchedIsAscending(log, h);
    assert p[i] == w[i] && w[i].term == t;
    assert t <= Last(w).term;
    var u := Last(log).term;
    if Last(w).term < u {
      if p <= h.lead[u] {
        assert log == h.lead[u][..|log|];
        LongerThan(h, p, u, |log| - 1, t);
        assert p <= log;
      } else {
        assert Lacks(h, u, t, i);
      }
    } else {
      assert w == h.lead[u][..|w|] && log == h.lead[u][..|log|];
      assert p == log[..i + 1];
    }
  }

  lemma GrantedIsUpToDate(s: Server, a: VoteArgs)
    requires |s.log| > 0 && RequestVote(s, a).1.granted
    ensures UpToDate(s.log, a) && a.term >= s.currentTerm
  {
  }

  lemma DeliverVoteKeeps(c: Cluster, h: History, n: nat, m: Message, c': Cluster)
    requires E.ElectionInv(c, h, n) && LogInv(c, h) && PersistInv(c, h)
    requires m.VoteRequest? && m.to < n && DeliverVoteStep(c, m, c')
    ensures PersistInv(c', Record(h, DeliverVote(m), c.servers[m.to], c'.servers[m.to]))
  {
    var s := c.servers[m.to];
    var (s', reply) := RequestVote(s, m.vote);
    PlainKeeps(c, h, m.to, s', {VoteAnswer(m.to, m.vote, reply)});
    if reply.granted {
      var g := Grant(m.vote.term, m.to, m.vote.candidate);
      var h' := h.(grants := h.grants + {g});
      GrantedIsUpToDate(s, m.vote);
      assert MessageLogOk(m, h) && ServerLogOk(s, h);
      var log := h.stood[(m.vote.term, m.vote.candidate)];
      assert StoodOk((m.vote.term, m.vote.candidate), h);
      forall ack, i | ack in h'.acks ensures GrantCarries(h', g, ack, i) {
        if ack.server == m.to {
          assert AckKept(h, ack, i, s.log, s.currentTerm);
          VoteCarries(h, s, log, m.vote, ack, i);
          KeptSame(h, h', ack, i, log, g.term);
        }
      }
      OneNewGrant(h, h', g);
      NewGrants(c', h, h');
    }
  }

  lemma VoteCarries(h: History, s: Server, log: seq<Entry>, a: VoteArgs, ack: Ack, i: nat)
    requires LeadOk(h) && ServerLogOk(s, h) && AckKept(h, ack, i, s.log, s.currentTerm)
    requires |log| > 0 && Matches(log, h.lead) && Last(log).term < a.term
    requires a.lastLogIndex == |log| - 1 && a.lastLogTerm == Last(log).term && UpToDate(s.log, a)
    requires a.term >= s.currentTerm
    ensures AckKept(h, ack, i, log, a.term)
  {
    if i < ack.len && OwnEntry(h, ack.term, i) && h.lead[ack.term][..i + 1] <= s.log {
      UpToDateCarries(h, s.log, log, a, ack.term, i);
    }
  }

  // ---------------------------------------------------------------- elections

  /** If the new leader lacks an older own entry, its voters block that entry. */
  lemma NewLeaderLacks(c: Cluster, h: History, n: nat, w: nat, t: nat, i: nat)
    requires E.ElectionInv(c, h, n) && LogInv(c, h) && PersistInv(c, h) && w < n
    requires var s := c.servers[w];
             && s.state == Candidate && s.currentTerm !in h.lead
             && Majority(Voters(h.grants, s.currentTerm, w), n)
             && OwnEntry(h, t, i) && t < s.currentTerm && !(h.lead[t][..i + 1] <= s.log)
    ensures Blocked(h, c.servers, t, i)
  {
    var s := c.servers[w];
    var u := s.currentTerm;
    var q := Voters(h.grants, u, w);
    assert E.ReignsOk(h, n);
    forall v | v in q ensures c.servers[v].currentTerm > t {
      assert Grant(u, v, w) in h.grants && E.ServerOk(c.servers[v], h);
    }
    if v :| v in q && v in Ackers(h.acks, t, i) {
      var ack :| ack in h.acks && ack.term == t && ack.len > i && ack.server == v;
      assert ServerLogOk(s, h);
      assert GrantCarries(h, Grant(u, v, w), ack, i);
      var u2: nat :| Lacks(h, u2, t, i) && u2 <= u;
      assert LackImpliesBlocked(h, c.servers, u2, t, i);
    } else {
      assert Blocks(q, h, c.servers, t, i);
    }
  }

  lemma BlockedSame(h: History, h': History, servers: seq<Server>, t: nat, i: nat)
    requires Blocked(h, servers, t, i) && h'.acks == h.acks
    ensures Blocked(h', servers, t, i)
  {
    var q :| Blocks(q, h, servers, t, i);
    assert Blocks(q, h', servers, t, i);
  }

  lemma ElectionBlocks(c: Cluster, h: History, n: nat, w: nat, s': Server, u: nat, t: nat, i: nat)
    requires E.ElectionInv(c, h, n) && LogInv(c, h) && PersistInv(c, h) && w < n
    requires var s := c.servers[w];
             && s.state == Candidate && s.currentTerm !in h.lead
             && Majority(Voters(h.grants, s.currentTerm, w), n)
             && s'.me == w && s'.log == s.log && s'.currentTerm == s.currentTerm
    ensures LackImpliesBlocked(RecordElection(h, s'), c.servers, u, t, i)
  {
    var s := c.servers[w];
    var h' := RecordElection(h, s');
    assert ServerLogOk(s, h) && E.ServerOk(s, h);
    MatchedIsAscending(s.log, h);
    assert h'.lead[s.currentTerm] == s.log;
    if OwnEntry(h', t, i) && Lacks(h', u, t, i) {
      assert t != s.currentTerm by {
        NoFutureTerm(s, h, s.currentTerm);
      }
      assert OwnEntry(h, t, i);
      if u == s.currentTerm {
        NewLeaderLacks(c, h, n, w, t, i);
      } else {
        assert Lacks(h, u, t, i);
        assert LackImpliesBlocked(h, c.servers, u, t, i);
      }
      BlockedSame(h, h', c.servers, t, i);
    }
  }

  /** No entry carries a term that has no leader yet. */
  lemma NoFutureTerm(s: Server, h: History, t: nat)
    requires ServerLogOk(s, h) && t !in h.lead
    ensures forall i :: 0 <= i < |s.log| ==> s.log[i].term != t
  {
    forall i | 0 <= i < |s.log| ensures s.log[i].term != t {
      assert EntryMatches(s.log, i, h.lead);
    }
  }

  lemma ElectionKeeps(c: Cluster, h: History, n: nat, w: nat, s': Server)
    requires E.ElectionInv(c, h, n) && LogInv(c, h) && PersistInv(c, h) && w < n
    requires var s := c.servers[w];
             && s.state == Candidate && s.currentTerm !in h.lead
             && Majority(Voters(h.grants, s.currentTerm, w), n)
             && s'.me == w && s'.log == s.log && s'.currentTerm == s.currentTerm
    ensures PersistInv(Put(c, w, s', {}), RecordElection(h, s'))
  {
    var h' := RecordElection(h, s');
    assert Grows(h, h');
    forall j | 0 <= j < n ensures AckOk(c.servers[j], h') {
      AckOkGrows(c.servers[j], h, h', c.servers);
    }
    AckOkLater(c.servers[w], s', h');
    GrantsGrow(h, h', c.servers);
    forall u, t, i ensures LackImpliesBlocked(h', c.servers, u, t, i) {
      ElectionBlocks(c, h, n, w, s', u, t, i);
    }
    BlockedLater(h', c.servers, c.servers[w := s']);
  }

  lemma GrantsGrow(h: History, h': History, servers: seq<Server>)
    requires GrantsOk(h) && Grows(h, h') && AckRanges(h, servers)
    requires h'.grants == h.grants && h'.acks == h.acks && h'.stood == h.stood
    ensures GrantsOk(h')
  {
    forall f, ack, i | f in h'.grants && ack in h'.acks ensures GrantCarries(h', f, ack, i) {
      assert GrantCarries(h, f, ack, i);
      if ack.server == f.voter && ack.term < f.term {
        KeptGrows(h, h', ack, i, h.stood[(f.term, f.candidate)], f.term);
      }
    }
  }

  lemma VoteElects(c: Cluster, h: History, n: nat, m: Message, c': Cluster)
    requires E.ElectionInv(c, h, n) && LogInv(c, h) && PersistInv(c, h)
    requires m.VoteAnswer? && m.vote.candidate < n && VoteReturnsStep(c, m, c') && SameTerm(c, VoteReturns(m))
    requires c.servers[m.vote.candidate].state != Leader && c'.servers[m.vote.candidate].state == Leader
    ensures PersistInv(c', RecordElection(h, c'.servers[m.vote.candidate]))
  {
    E.ElectedIsFirst(c, h, n, m, c');
    ElectionKeeps(c, h, n, m.vote.candidate, c'.servers[m.vote.candidate]);
  }

  lemma VoteReturnsKeeps(c: Cluster, h: History, n: nat, m: Message, c': Cluster)
    requires E.ElectionInv(c, h, n) && LogInv(c, h) && PersistInv(c, h)
    requires m.VoteAnswer? && m.vote.candidate < n && VoteReturnsStep(c, m, c') && SameTerm(c, VoteReturns(m))
    ensures PersistInv(c', Record(h, VoteReturns(m), c.servers[m.vote.candidate], c'.servers[m.vote.candidate]))
  {
    if c.servers[m.vote.candidate].state != Leader && c'.servers[m.vote.candidate].state == Leader {
      VoteElects(c, h, n, m, c');
    } else {
      PlainKeeps(c, h, m.vote.candidate, c'.servers[m.vote.candidate], {});
    }
  }

  // ---------------------------------------------------------- acknowledgements

  /** Adding one acknowledgement by a server in its current term. */
  lemma NewAckBlocks(h: History, servers: seq<Server>, ack: Ack)
    requires BlockedOk(h, servers) && ack.server < |servers| && servers[ack.server].currentTerm <= ack.term
    ensures BlockedOk(h.(acks := h.acks + {ack}), servers)
  {
    var h' := h.(acks := h.acks + {ack});
    forall u, t, i ensures LackImpliesBlocked(h', servers, u, t, i) {
      assert LackImpliesBlocked(h, servers, u, t, i);
      if OwnEntry(h', t, i) && Lacks(h', u, t, i) {
        assert OwnEntry(h, t, i) && Lacks(h, u, t, i);
        var q :| Blocks(q, h, servers, t, i);
        assert q !! Ackers(h'.acks, t, i);
        assert Blocks(q, h', servers, t, i);
      }
    }
  }

  lemma NewAckGrants(h: History, ack: Ack, s: Server)
    requires GrantsOk(h) && GrantsStood(h) && E.ServerOk(s, h) && ack.server == s.me && s.currentTerm <= ack.term
    ensures GrantsOk(h.(acks := h.acks + {ack}))
  {
    var h' := h.(acks := h.acks + {ack});
    forall f, b, i | f in h'.grants && b in h'.acks ensures GrantCarries(h', f, b, i) {
      if b in h.acks {
        assert GrantCarries(h, f, b, i);
        if b.server == f.voter && b.term < f.term {
          KeptSame(h, h', b, i, h.stood[(f.term, f.candidate)], f.term);
        }
      }
    }
  }

  /** Merging the entries of the leader of term a.term keeps every acknowledgement
      and makes the new one good. */
  lemma AcceptKeepsAcks(s: Server, a: AppendArgs, h: History)
    requires AckOk(s, h) && ServerLogOk(s, h) && LeadOk(h) && AppendOk(a, h.lead) && PrefixAccepted(s.log, a)
    requires s.currentTerm == a.term && Accept(s, a).Done?
    requires forall ack :: ack in h.acks && ack.server == s.me ==> ack.term <= s.currentTerm
    ensures AckOk(Accept(s, a).value, h.(acks := h.acks + {Ack(a.term, s.me, Reach(a))}))
  {
    var s' := Accept(s, a).value;
    var r := Merge(s.log, a.prevLogIndex, a.entries);
    var h' := h.(acks := h.acks + {Ack(a.term, s.me, Reach(a))});
    assert s'.log == r && s'.currentTerm == a.term;
    forall ack, i | ack in h'.acks && ack.server == s.me
      ensures AckKept(h', ack, i, r, a.term)
    {
      if ack in h.acks {
        assert AckKept(h, ack, i, s.log, s.currentTerm);
        MergeKeepsAck(s.log, a, h, ack, i);
      } else {
        MergeAcks(s.log, a, h, ack, i);
      }
      KeptSame(h, h', ack, i, r, a.term);
    }
  }

  lemma MergeKeepsAck(log: seq<Entry>, a: AppendArgs, h: History, ack: Ack, i: nat)
    requires LeadOk(h) && Matches(log, h.lead) && AppendOk(a, h.lead) && PrefixAccepted(log, a)
    requires AckKept(h, ack, i, log, a.term) && ack.term <= a.term
    ensures AckKept(h, ack, i, Merge(log, a.prevLogIndex, a.entries), a.term)
  {
    if i < ack.len && OwnEntry(h, ack.term, i) && h.lead[ack.term][..i + 1] <= log {
      if h.lead[ack.term][..i + 1] <= h.lead[a.term] {
        MergeKeepsCommon(log, a, h, h.lead[ack.term][..i + 1]);
      } else {
        assert Lacks(h, a.term, ack.term, i);
      }
    }
  }

  lemma MergeAcks(log: seq<Entry>, a: AppendArgs, h: History, ack: Ack, i: nat)
    requires LeadOk(h) && Matches(log, h.lead) && AppendOk(a, h.lead) && PrefixAccepted(log, a)
    requires ack.term == a.term && ack.len == Reach(a)
    ensures AckKept(h, ack, i, Merge(log, a.prevLogIndex, a.entries), a.term)
  {
    MergeFollowsLeader(log, a, h);
    if i < ack.len && OwnEntry(h, ack.term, i) {
      var l, r := h.lead[a.term], Merge(log, a.prevLogIndex, a.entries);
      assert l[..i + 1] == l[..Reach(a)][..i + 1] == r[..i + 1];
    }
  }

  lemma AcceptKeeps(c: Cluster, h: History, n: nat, i: nat, a: AppendArgs, sent: set<Message>)
    requires E.ElectionInv(c, h, n) && LogInv(c, h) && PersistInv(c, h) && i < n && a.term >= 1
    requires var s := c.servers[i];
             AppendOk(a, h.lead) && PrefixAccepted(s.log, a) && s.currentTerm == a.term && Accept(s, a).Done?
    ensures PersistInv(Put(c, i, Accept(c.servers[i], a).value, sent),
                       h.(acks := h.acks + {Ack(a.term, i, Reach(a))}))
  {
    var s := c.servers[i];
    var s' := Accept(s, a).value;
    var ack := Ack(a.term, i, Reach(a));
    var h' := h.(acks := h.acks + {ack});
    assert ServerLogOk(s, h) && E.ServerOk(s, h);
    AcceptKeepsAcks(s, a, h);
    NewAckBlocks(h, c.servers, ack);
    NewAckGrants(h, ack, s);
    BlockedLater(h', c.servers, c.servers[i := s']);
    forall j | 0 <= j < n && j != i ensures AckOk(c.servers[j], h') {
      OthersKeepAckOk(c.servers[j], h, ack);
    }
  }

  lemma OthersKeepAckOk(s: Server, h: History, ack: Ack)
    requires AckOk(s, h) && ack.server != s.me
    ensures AckOk(s, h.(acks := h.acks + {ack}))
  {
    var h' := h.(acks := h.acks + {ack});
    forall b, i | b in h'.acks && b.server == s.me ensures AckKept(h', b, i, s.log, s.currentTerm) {
      assert AckKept(h, b, i, s.log, s.currentTerm);
      KeptSame(h, h', b, i, s.log, s.currentTerm);
    }
  }

  /** Hearing from a leader, before its entries are looked at. */
  lemma HearKeeps(c: Cluster, h: History, n: nat, i: nat, a: AppendArgs)
    requires E.ElectionInv(c, h, n) && LogInv(c, h) && PersistInv(c, h) && i < n
    requires a.term >= c.servers[i].currentTerm && a.term in h.leaders && h.leaders[a.term] != i
    ensures var c1 := Put(c, i, HearLeader(c.servers[i], a.term), {});
            E.ElectionInv(c1, h, n) && LogInv(c1, h) && PersistInv(c1, h)
  {
    var s := c.servers[i];
    var s1 := HearLeader(s, a.term);
    E.HearLeaderKeeps(s, a, h);
    E.OneServerChanges(c, h, n, i, s1, {}, h);
    assert ServerLogOk(s, h);
    RetreatKeeps(s, s1, h);
    OneLogChanges(c, h, i, s1, {}, h);
    PlainKeeps(c, h, i, s1, {});
  }

  lemma AcceptedAppendKeeps(c: Cluster, h: History, n: nat, i: nat, a: AppendArgs, sent: set<Message>)
    requires E.ElectionInv(c, h, n) && LogInv(c, h) && PersistInv(c, h) && i < n
    requires a.term >= c.servers[i].currentTerm && a.term in h.leaders && h.leaders[a.term] != i && AppendOk(a, h.lead)
    requires var s1 := HearLeader(c.servers[i], a.term);
             PrefixAccepted(s1.log, a) && Accept(s1, a).Done?
    ensures PersistInv(Put(c, i, Accept(HearLeader(c.servers[i], a.term), a).value, sent),
                       h.(acks := h.acks + {Ack(a.term, i, Reach(a))}))
  {
    var s1 := HearLeader(c.servers[i], a.term);
    HearKeeps(c, h, n, i, a);
    AcceptKeeps(Put(c, i, s1, {}), h, n, i, a, sent);
    assert c.servers[i := s1][i := Accept(s1, a).value] == c.servers[i := Accept(s1, a).value];
  }

  lemma DeliverAppendKeeps(c: Cluster, h: History, n: nat, m: Message, c': Cluster)
    requires E.ElectionInv(c, h, n) && LogInv(c, h) && PersistInv(c, h)
    requires m.AppendRequest? && m.to < n && DeliverAppendStep(c, m, c')
    ensures PersistInv(c', Record(h, DeliverAppend(m), c.servers[m.to], c'.servers[m.to]))
  {
    var i, s, a := m.to, c.servers[m.to], m.append;
    var r := AppendEntries(s, a).value;
    var sent := {AppendAnswer(i, a, r.1)};
    assert E.MessageOk(m, h) && MessageLogOk(m, h);
    if r.1.success {
      AcceptedAppendKeeps(c, h, n, i, a, sent);
    } else {
      PlainKeeps(c, h, i, r.0, sent);
    }
  }

  // ------------------------------------------------------------ client commands

  /** The history after a leader appended a command, before the leader counts it. */
  function LeadAppends(h: History, s': Server): History {
    h.(lead := h.lead[s'.currentTerm := s'.log])
  }

  lemma StartBlocks(c: Cluster, h: History, n: nat, w: nat, s': Server, u: nat, t: nat, i: nat)
    requires E.ElectionInv(c, h, n) && LogInv(c, h) && PersistInv(c, h) && w < n
    requires var s := c.servers[w];
             s.state == Leader && s'.currentTerm == s.currentTerm && |s'.log| == |s.log| + 1
    requires Grows(h, LeadAppends(h, s'))
    ensures LackImpliesBlocked(LeadAppends(h, s'), c.servers, u, t, i)
  {
    var h' := LeadAppends(h, s');
    if OwnEntry(h', t, i) && Lacks(h', u, t, i) {
      assert ServerLogOk(c.servers[w], h);
      if i < |h.lead[t]| {
        assert Lacks(h, u, t, i);
        assert LackImpliesBlocked(h, c.servers, u, t, i);
        BlockedSame(h, h', c.servers, t, i);
      } else {
        var q := Voters(h.grants, u, h.leaders[u]);
        assert E.ReignsOk(h, n);
        forall v | v in q ensures c.servers[v].currentTerm > t {
          assert Grant(u, v, h.leaders[u]) in h.grants && E.ServerOk(c.servers[v], h);
        }
        assert Ackers(h.acks, t, i) == {};
        assert Blocks(q, h', c.servers, t, i);
      }
    }
  }

  lemma LeadAppendsKeeps(c: Cluster, h: History, n: nat, w: nat, s': Server)
    requires E.ElectionInv(c, h, n) && LogInv(c, h) && PersistInv(c, h) && w < n
    requires var s := c.servers[w];
             && s.state == Leader && s'.me == w && s'.currentTerm == s.currentTerm
             && s.log <= s'.log && |s'.log| == |s.log| + 1
    requires Grows(h, LeadAppends(h, s'))
    ensures PersistInv(Put(c, w, s', {}), LeadAppends(h, s'))
  {
    var h' := LeadAppends(h, s');
    forall j | 0 <= j < n ensures AckOk(c.servers[j], h') {
      AckOkGrows(c.servers[j], h, h', c.servers);
    }
    AckOkLonger(c.servers[w], s', h');
    GrantsGrow(h, h', c.servers);
    forall u, t, i ensures LackImpliesBlocked(h', c.servers, u, t, i) {
      StartBlocks(c, h, n, w, s', u, t, i);
    }
    BlockedLater(h', c.servers, c.servers[w := s']);
  }

  lemma AckOkLonger(s: Server, s': Server, h: History)
    requires AckOk(s, h) && s'.me == s.me && s.log <= s'.log && s'.currentTerm == s.currentTerm
    ensures AckOk(s', h)
  {
    forall ack, i | ack in h.acks && ack.server == s'.me
      ensures AckKept(h, ack, i, s'.log, s'.currentTerm)
    {
      assert AckKept(h, ack, i, s.log, s.currentTerm);
    }
  }

  /** A leader acknowledges its own log. */
  lemma OwnAckKeeps(c: Cluster, h: History, n: nat, w: nat)
    requires PersistInv(c, h) && Formed(c, n) && w < n
    requires var s := c.servers[w];
             && s.currentTerm in h.lead && s.currentTerm >= 1 && h.lead[s.currentTerm] == s.log
             && E.ServerOk(s, h)
    ensures PersistInv(c, h.(acks := h.acks + {Ack(c.servers[w].currentTerm, w, |c.servers[w].log|)}))
  {
    var s := c.servers[w];
    var ack := Ack(s.currentTerm, w, |s.log|);
    var h' := h.(acks := h.acks + {ack});
    NewAckBlocks(h, c.servers, ack);
    NewAckGrants(h, ack, s);
    forall j | 0 <= j < n ensures AckOk(c.servers[j], h') {
      if j != w {
        OthersKeepAckOk(c.servers[j], h, ack);
      } else {
        OwnAckKept(s, h, ack);
      }
    }
  }

  lemma OwnAckKept(s: Server, h: History, ack: Ack)
    requires AckOk(s, h) && ack.term == s.currentTerm && ack.server == s.me
    requires s.currentTerm in h.lead && h.lead[s.currentTerm] == s.log
    ensures AckOk(s, h.(acks := h.acks + {ack}))
  {
    var h' := h.(acks := h.acks + {ack});
    forall b, i | b in h'.acks && b.server == s.me ensures AckKept(h', b, i, s.log, s.currentTerm) {
      if b in h.acks {
        assert AckKept(h, b, i, s.log, s.currentTerm);
        KeptSame(h, h', b, i, s.log, s.currentTerm);
      }
    }
  }

  lemma StartGrows(s: Server, h: History, cmd: Command)
    requires LeadOk(h) && ServerLogOk(s, h) && s.state == Leader && s.me < |s.matchIndex| == |s.nextIndex|
    ensures s.log <= Start(s, cmd).log && Grows(h, LeadAppends(h, Start(s, cmd)))
  {
  }

  lemma StartKeeps(c: Cluster, h: History, n: nat, i: nat, cmd: Command)
    requires E.ElectionInv(c, h, n) && LogInv(c, h) && PersistInv(c, h) && i < n && c.servers[i].state == Leader
    ensures var s' := Start(c.servers[i], cmd);
            PersistInv(Put(c, i, s', {}), RecordStart(h, s'))
  {
    var s := c.servers[i];
    var s' := Start(s, cmd);
    assert ServerLogOk(s, h) && E.ServerOk(s, h);
    StartGrows(s, h, cmd);
    LeadAppendsKeeps(c, h, n, i, s');
    E.SameBallotKeeps(s, s', LeadAppends(h, s'));
    OwnAckKeeps(Put(c, i, s', {}), LeadAppends(h, s'), n, i);
  }

  // ------------------------------------------------------- every step and run

  lemma OtherStepKeeps(c: Cluster, h: History, n: nat, a: Action, c': Cluster)
    requires Formed(c, n) && PersistInv(c, h) && Step(c, a, c')
    requires a.SendHeartBeat? || a.AppendReturns? || a.Kill? || (a.ClientStart? && c.servers[a.server].state != Leader)
    ensures PersistInv(c', h)
  {
    match a
    case SendHeartBeat(i, p) =>
      var r := HeartBeat(c.servers[i], p).value;
      if r.Some? {
        PlainKeeps(c, h, i, c.servers[i], {AppendRequest(p, r.value)});
      }
    case AppendReturns(m) =>
      PlainKeeps(c, h, m.append.leader, AppendReturned(c.servers[m.append.leader], m.from, m.appendReply).value, {});
    case ClientStart(i, cmd) => PlainKeeps(c, h, i, c.servers[i], {});
    case Kill(i) => PlainKeeps(c, h, i, c.servers[i].(dead := true), {});
  }

  lemma StepKeeps(c: Cluster, h: History, n: nat, a: Action, c': Cluster)
    requires SafeInv(c, h, n) && Step(c, a, c') && SameTerm(c, a)
    ensures PersistInv(c', Record(h, a, c.servers[Place(a)], c'.servers[Place(a)]))
  {
    match a
    case Timeout(i) => TimeoutKeeps(c, h, n, i, c');
    case DeliverVote(m) => DeliverVoteKeeps(c, h, n, m, c');
    case VoteReturns(m) => VoteReturnsKeeps(c, h, n, m, c');
    case DeliverAppend(m) => DeliverAppendKeeps(c, h, n, m, c');
    case ClientStart(i, cmd) =>
      if c.servers[i].state == Leader {
        StartKeeps(c, h, n, i, cmd);
      } else {
        OtherStepKeeps(c, h, n, a, c');
      }
    case _ => OtherStepKeeps(c, h, n, a, c');
  }

  /** Everything that H1 alone keeps. */
  ghost predicate SafeInv(c: Cluster, h: History, n: nat) {
    E.ElectionInv(c, h, n) && LogInv(c, h) && PersistInv(c, h)
  }

  lemma StepKeepsAll(c: Cluster, h: History, n: nat, a: Action, c': Cluster)
    requires SafeInv(c, h, n) && Step(c, a, c') && SameTerm(c, a)
    ensures SafeInv(c', Record(h, a, c.servers[Place(a)], c'.servers[Place(a)]), n)
  {
    StepKeeps(c, h, n, a, c');
    L.StepKeeps(c, h, n, a, c');
    E.StepKeeps(c, h, n, a, c');
  }

  lemma InitKeeps(c: Cluster, n: nat)
    requires Init(c, n)
    ensures PersistInv(c, InitHistory())
  {
    var h := InitHistory();
    forall u, t, i ensures LackImpliesBlocked(h, c.servers, u, t, i) {
      assert !OwnEntry(h, t, i);
    }
  }

  lemma {:induction false} RunKeeps(r: Run, n: nat, k: nat)
    requires IsRun(r, n) && H1(r) && k < |r.states|
    ensures SafeInv(r.states[k], HistoryAt(r, n, k), n)
  {
    if k == 0 {
      InitKeeps(r.states[0], n);
      L.InitKeeps(r.states[0], n);
    } else {
      RunKeeps(r, n, k - 1);
      HistoryStep(r, n, k - 1);
      assert SameTerm(r.states[k - 1], r.actions[k - 1]);
      StepKeepsAll(r.states[k - 1], HistoryAt(r, n, k - 1), n, r.actions[k - 1], r.states[k]);
    }
  }
}
