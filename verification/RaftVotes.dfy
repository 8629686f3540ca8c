/** How often a server votes in one term. */
module RaftVotes {
  import opened Options
  import opened RaftCore
  import opened RaftCluster
  import opened RaftHistory
  import E = RaftElection
  import L = RaftLogs

  /** In step k server v starts an election of term t, and so votes for itself. */
  predicate StandsAt(r: Run, k: nat, v: nat, t: nat) {
    && k < |r.actions| && k + 1 < |r.states| && r.actions[k] == Timeout(v)
    && v < |r.states[k + 1].servers| && r.states[k + 1].servers[v].currentTerm == t
  }

  /** In step k server v grants its vote of term t to candidate x. */
  predicate GrantsAt(r: Run, k: nat, v: nat, x: nat, t: nat) {
    && k < |r.actions| && k < |r.states| && r.actions[k].DeliverVote? && r.actions[k].m.VoteRequest?
    && var m := r.actions[k].m;
       && m.to == v < |r.states[k].servers| && m.vote.candidate == x && m.vote.term == t
       && |r.states[k].servers[v].log| > 0 && RequestVote(r.states[k].servers[v], m.vote).1.granted
  }

  predicate VotesAt(r: Run, k: nat, v: nat, x: nat, t: nat) {
    GrantsAt(r, k, v, x, t) || (x == v && StandsAt(r, k, v, t))
  }

  /** In step k the candidate v hears an append of its own term t. */
  predicate StepsDownAt(r: Run, k: nat, v: nat, t: nat) {
    && k < |r.actions| && k < |r.states| && r.actions[k].DeliverAppend? && r.actions[k].m.AppendRequest?
    && r.actions[k].m.to == v < |r.states[k].servers| && r.actions[k].m.append.term == t
    && var s := r.states[k].servers[v];
       !s.dead && s.state == Candidate && s.currentTerm == t
  }

  /** Two votes of server v in term t before moment k, for different candidates. */
  ghost predicate VotesTwice(r: Run, k: nat, v: nat, t: nat) {
    exists a, b, x, y :: 0 <= a < k && 0 <= b < k && x != y && VotesAt(r, a, v, x, t) && VotesAt(r, b, v, y, t)
  }

  /** Before moment k server v stood in term t, then stepped down within it, and then
      granted a vote. */
  ghost predicate StoodThenGranted(r: Run, k: nat, v: nat, t: nat) {
    exists a, b, c, y ::
      0 <= a < b < c < k && StandsAt(r, a, v, t) && StepsDownAt(r, b, v, t) && GrantsAt(r, c, v, y, t)
  }

  // ---------------------------------------------------------- never two others

  /** A vote that is granted goes to another server, and the history knows it from then on. */
  lemma GrantIsKnown(r: Run, n: nat, k: nat, v: nat, x: nat, t: nat, l: nat)
    requires IsRun(r, n) && H1(r) && GrantsAt(r, k, v, x, t) && k < l < |r.states|
    ensures x != v && Grant(t, v, x) in HistoryAt(r, n, l).grants
  {
    E.RunKeeps(r, n, k);
    HistoryStep(r, n, k);
    assert E.MessageOk(r.actions[k].m, HistoryAt(r, n, k));
    E.LeadersStay(r, n, k + 1, l);
  }

  /** No server ever grants votes of one term to two others. */
  lemma OneGrantPerTerm(r: Run, n: nat, j: nat, k: nat, v: nat, x: nat, y: nat, t: nat)
    requires IsRun(r, n) && H1(r) && GrantsAt(r, j, v, x, t) && GrantsAt(r, k, v, y, t)
    ensures x == y && x != v
  {
    var l := |r.states| - 1;
    GrantIsKnown(r, n, j, v, x, t, l);
    GrantIsKnown(r, n, k, v, y, t, l);
    E.RunKeeps(r, n, l);
    assert !E.Clash(Grant(t, v, x), Grant(t, v, y));
  }

  // ------------------------------------------------------ standing, then granting

  /** A step in which a server that was no follower becomes one within its term. */
  lemma LosesRole(r: Run, n: nat, k: nat, v: nat, t: nat)
    requires IsRun(r, n) && H1(r) && k < |r.actions| && v < n
    requires |r.states[k].servers| == |r.states[k + 1].servers| == n
    requires var s, s' := r.states[k].servers[v], r.states[k + 1].servers[v];
             s.currentTerm == t == s'.currentTerm && s.state != Follower && s'.state == Follower
    ensures StepsDownAt(r, k, v, t)
  {
    E.RunKeeps(r, n, k);
    HistoryStep(r, n, k);
    var h, s := HistoryAt(r, n, k), r.states[k].servers[v];
    ByAppend(r.states[k], r.actions[k], r.states[k + 1], n, v);
    assert E.MessageOk(r.actions[k].m, h) && E.ServerOk(s, h);
  }

  lemma ByAppend(c: Cluster, a: Action, c': Cluster, n: nat, v: nat)
    requires Formed(c, n) && Step(c, a, c') && v < n && |c'.servers| == n
    requires c.servers[v].currentTerm == c'.servers[v].currentTerm
    requires c.servers[v].state != Follower && c'.servers[v].state == Follower
    ensures a.DeliverAppend? && a.m.AppendRequest? && a.m in c.net && a.m.to == v
    ensures !c.servers[v].dead && a.m.append.term == c.servers[v].currentTerm
  {
  }

  /** A sequence that turns true does so somewhere. */
  lemma {:induction false} TurnsTrue(f: seq<bool>, j: nat, k: nat) returns (b: nat)
    requires j < k < |f| && !f[j] && f[k]
    ensures j <= b < k && !f[b] && f[b + 1]
  {
    if f[k - 1] {
      b := TurnsTrue(f, j, k - 1);
    } else {
      b := k - 1;
    }
  }

  predicate Follows(c: Cluster, v: nat) {
    v < |c.servers| && c.servers[v].state == Follower
  }

  /** Somewhere between two moments of one term the server steps down. */
  lemma StepDownBetween(r: Run, n: nat, j: nat, k: nat, v: nat, t: nat) returns (b: nat)
    requires IsRun(r, n) && H1(r) && j < k < |r.states| && v < n
    requires |r.states[j].servers| == |r.states[k].servers| == n
    requires r.states[j].servers[v].currentTerm == t == r.states[k].servers[v].currentTerm
    requires !Follows(r.states[j], v) && Follows(r.states[k], v)
    ensures j <= b < k && StepsDownAt(r, b, v, t)
  {
    b := TurnsTrue(seq(|r.states|, l requires 0 <= l < |r.states| => Follows(r.states[l], v)), j, k);
    E.SameTermBetween(r, n, j, b, k, v, t);
    E.SameTermBetween(r, n, j, b + 1, k, v, t);
    LosesRole(r, n, b, v, t);
  }

  /** What a granted vote says about the voter at that moment. */
  lemma GrantNeedsFollower(r: Run, n: nat, k: nat, v: nat, y: nat, t: nat)
    requires IsRun(r, n) && H1(r) && GrantsAt(r, k, v, y, t)
    ensures |r.states[k].servers| == n && v < n && r.states[k].servers[v].currentTerm <= t
    ensures r.states[k].servers[v].currentTerm == t ==> r.states[k].servers[v].state == Follower
    ensures |r.states[k + 1].servers| == n && r.states[k + 1].servers[v].currentTerm == t
  {
    E.RunKeeps(r, n, k);
    HistoryStep(r, n, k);
    var h := HistoryAt(r, n, k);
    assert E.MessageOk(r.actions[k].m, h) && E.ServerOk(r.states[k].servers[v], h);
  }

  lemma Standing(r: Run, n: nat, k: nat, v: nat, t: nat)
    requires IsRun(r, n) && StandsAt(r, k, v, t)
    ensures v < |r.states[k].servers| && r.states[k].servers[v].currentTerm + 1 == t
    ensures r.states[k + 1].servers[v].state == Candidate
  {
    HistoryStep(r, n, k);
  }

  /** The vote of a standing server comes first, and it steps down before it grants. */
  lemma StandsFirst(r: Run, n: nat, a: nat, c: nat, v: nat, y: nat, t: nat) returns (b: nat)
    requires IsRun(r, n) && H1(r) && StandsAt(r, a, v, t) && GrantsAt(r, c, v, y, t)
    ensures a < b < c && StepsDownAt(r, b, v, t)
  {
    Standing(r, n, a, v, t);
    GrantNeedsFollower(r, n, c, v, y, t);
    if c < a {
      E.TermsOnlyRise(r, n, c + 1, a, v);
    }
    E.TermsOnlyRise(r, n, a + 1, c, v);
    b := StepDownBetween(r, n, a + 1, c, v, t);
  }

  /** In every run that satisfies H1 a server votes for two candidates of one term
      exactly when it stood in that term, was stepped down by an append of that very
      term, and then granted a vote. */
  lemma TwoVotesIff(r: Run, n: nat, k: nat, v: nat, t: nat)
    requires IsRun(r, n) && H1(r) && k < |r.states|
    ensures VotesTwice(r, k, v, t) <==> StoodThenGranted(r, k, v, t)
  {
    if VotesTwice(r, k, v, t) {
      var a, c, x, y :| 0 <= a < k && 0 <= c < k && x != y && VotesAt(r, a, v, x, t) && VotesAt(r, c, v, y, t);
      TwoVotesOrder(r, n, k, a, c, v, x, y, t);
    }
    if StoodThenGranted(r, k, v, t) {
      var a, b, c, y :| 0 <= a < b < c < k && StandsAt(r, a, v, t) && StepsDownAt(r, b, v, t)
          && GrantsAt(r, c, v, y, t);
      OneGrantPerTerm(r, n, c, c, v, y, y, t);
      assert VotesAt(r, a, v, v, t) && VotesAt(r, c, v, y, t);
    }
  }

  lemma TwoVotesOrder(r: Run, n: nat, k: nat, a: nat, c: nat, v: nat, x: nat, y: nat, t: nat)
    requires IsRun(r, n) && H1(r) && k < |r.states| && a < k && c < k && x != y
    requires VotesAt(r, a, v, x, t) && VotesAt(r, c, v, y, t)
    ensures StoodThenGranted(r, k, v, t)
  {
    if GrantsAt(r, a, v, x, t) && GrantsAt(r, c, v, y, t) {
      OneGrantPerTerm(r, n, a, c, v, x, y, t);
    } else if GrantsAt(r, c, v, y, t) {
      var b := StandsFirst(r, n, a, c, v, y, t);
    } else {
      var b := StandsFirst(r, n, c, a, v, x, t);
    }
  }

  // ------------------------------------------------------ when a vote is granted

  /** Server v has voted for x in term t, and has not stepped down within the term since. */
  ghost predicate HoldsVote(r: Run, k: nat, v: nat, x: nat, t: nat) {
    exists j {:trigger VotesAt(r, j, v, x, t)} :: 0 <= j < k && VotesAt(r, j, v, x, t) && Unforgotten(r, j, k, v, t)
  }

  ghost predicate Unforgotten(r: Run, j: nat, k: nat, v: nat, t: nat) {
    forall b :: j < b < k ==> !StepsDownAt(r, b, v, t)
  }

  /** How a step changes whom a server has voted for. */
  lemma BallotStep(r: Run, n: nat, k: nat, v: nat)
    requires IsRun(r, n) && H1(r) && k < |r.actions| && v < n
    requires |r.states[k].servers| == |r.states[k + 1].servers| == n
    ensures var s, s', t := r.states[k].servers[v], r.states[k + 1].servers[v], r.states[k + 1].servers[v].currentTerm;
            && (forall x: nat :: VotesAt(r, k, v, x, t) ==> s'.votedFor == Some(x))
            && (s'.votedFor.Some? && !VotesAt(r, k, v, s'.votedFor.value, t) ==>
                  s.currentTerm == t && s.votedFor == s'.votedFor && !StepsDownAt(r, k, v, t))
            && (s.currentTerm == t && s.votedFor.Some? && s'.votedFor != s.votedFor ==> StepsDownAt(r, k, v, t))
  {
    E.RunKeeps(r, n, k);
    HistoryStep(r, n, k);
    var c, a, c', h := r.states[k], r.actions[k], r.states[k + 1], HistoryAt(r, n, k);
    assert E.ServerOk(c.servers[v], h);
    if a.DeliverAppend? && a.m.to == v {
      assert E.MessageOk(a.m, h);
      BallotAppend(c.servers[v], a.m.append, h);
    } else if a.DeliverVote? && a.m.to == v {
      assert E.MessageOk(a.m, h);
      BallotVote(c.servers[v], a.m.vote);
    } else {
      BallotOther(c, a, c', n, v);
    }
  }

  lemma BallotAppend(s: Server, a: AppendArgs, h: History)
    requires |s.log| > 0 && E.ServerOk(s, h) && a.term in h.leaders && h.leaders[a.term] != s.me
    requires AppendEntries(s, a).Done?
    ensures var s' := AppendEntries(s, a).value.0;
            && s.currentTerm <= s'.currentTerm
            && (s'.votedFor.Some? ==> s'.currentTerm == s.currentTerm && s'.votedFor == s.votedFor
                                      && (s.dead || s.state != Candidate || a.term != s.currentTerm))
            && (s'.currentTerm == s.currentTerm && s.votedFor.Some? && s'.votedFor != s.votedFor ==>
                  !s.dead && s.state == Candidate && a.term == s.currentTerm)
  {
  }

  lemma BallotVote(s: Server, a: VoteArgs)
    requires |s.log| > 0
    ensures var (s', reply) := RequestVote(s, a);
            && (reply.granted ==> s'.votedFor == Some(a.candidate) && s'.currentTerm == a.term)
            && (!reply.granted && s'.votedFor.Some? ==> s'.currentTerm == s.currentTerm && s'.votedFor == s.votedFor)
            && (s'.currentTerm == s.currentTerm && s.votedFor.Some? ==> s'.votedFor == s.votedFor)
  {
  }

  /** Any other step but standing leaves the vote, or loses it with the term. */
  lemma BallotOther(c: Cluster, a: Action, c': Cluster, n: nat, v: nat)
    requires Formed(c, n) && Step(c, a, c') && v < n && |c'.servers| == n
    requires (a.DeliverAppend? || a.DeliverVote?) ==> Place(a) != v
    ensures var s, s' := c.servers[v], c'.servers[v];
            || (a == Timeout(v) && s'.votedFor == Some(v) && s'.currentTerm == s.currentTerm + 1)
            || (a != Timeout(v) && s'.votedFor == s.votedFor && s'.currentTerm == s.currentTerm)
            || (a != Timeout(v) && s'.votedFor == None && s'.currentTerm > s.currentTerm)
  {
  }

  /** In every run that satisfies H1 votedFor is the vote a server holds in its term. */
  lemma {:induction false} VotedForIs(r: Run, n: nat, k: nat, v: nat, x: nat)
    requires IsRun(r, n) && H1(r) && k < |r.states| && v < n
    ensures |r.states[k].servers| == n
    ensures var s := r.states[k].servers[v]; s.votedFor == Some(x) <==> HoldsVote(r, k, v, x, s.currentTerm)
  {
    E.RunKeeps(r, n, k);
    if k > 0 {
      VotedForIs(r, n, k - 1, v, x);
      VoteKept(r, n, k - 1, v, x);
    }
  }

  lemma VoteKept(r: Run, n: nat, k: nat, v: nat, x: nat)
    requires IsRun(r, n) && H1(r) && k + 1 < |r.states| && v < n
    requires |r.states[k].servers| == |r.states[k + 1].servers| == n
    requires var s := r.states[k].servers[v]; s.votedFor == Some(x) <==> HoldsVote(r, k, v, x, s.currentTerm)
    ensures var s' := r.states[k + 1].servers[v];
            s'.votedFor == Some(x) <==> HoldsVote(r, k + 1, v, x, s'.currentTerm)
  {
    var t := r.states[k + 1].servers[v].currentTerm;
    BallotStep(r, n, k, v);
    if r.states[k + 1].servers[v].votedFor == Some(x) {
      if VotesAt(r, k, v, x, t) {
        assert Unforgotten(r, k, k + 1, v, t);
      } else {
        StillHeld(r, k, v, x, t);
      }
    }
    if HoldsVote(r, k + 1, v, x, t) && !VotesAt(r, k, v, x, t) {
      HeldBefore(r, n, k, v, x, t);
    }
  }

  lemma StillHeld(r: Run, k: nat, v: nat, x: nat, t: nat)
    requires HoldsVote(r, k, v, x, t) && !StepsDownAt(r, k, v, t)
    ensures HoldsVote(r, k + 1, v, x, t)
  {
    var j: nat :| j < k && VotesAt(r, j, v, x, t) && Unforgotten(r, j, k, v, t);
    assert Unforgotten(r, j, k + 1, v, t);
  }

  lemma HeldBefore(r: Run, n: nat, k: nat, v: nat, x: nat, t: nat)
    requires IsRun(r, n) && H1(r) && k + 1 < |r.states| && v < n
    requires |r.states[k].servers| == |r.states[k + 1].servers| == n && r.states[k + 1].servers[v].currentTerm == t
    requires HoldsVote(r, k + 1, v, x, t) && !VotesAt(r, k, v, x, t)
    ensures HoldsVote(r, k, v, x, t) && r.states[k].servers[v].currentTerm == t && !StepsDownAt(r, k, v, t)
  {
    var j: nat :| j < k + 1 && VotesAt(r, j, v, x, t) && Unforgotten(r, j, k + 1, v, t);
    VoteTerm(r, n, j, v, x, t);
    E.SameTermBetween(r, n, j + 1, k, k + 1, v, t);
    assert Unforgotten(r, j, k, v, t);
  }

  /** A vote is cast in the voter's own term. */
  lemma VoteTerm(r: Run, n: nat, j: nat, v: nat, x: nat, t: nat)
    requires IsRun(r, n) && H1(r) && VotesAt(r, j, v, x, t)
    ensures v < n && |r.states[j + 1].servers| == n && r.states[j + 1].servers[v].currentTerm == t
  {
    E.RunKeeps(r, n, j + 1);
    if GrantsAt(r, j, v, x, t) {
      GrantNeedsFollower(r, n, j, v, x, t);
    }
  }

  /** The one log is more up to date than the other. */
  predicate Ahead(log: seq<Entry>, other: seq<Entry>)
    requires |log| > 0 && |other| > 0
  {
    Last(log).term > Last(other).term || (Last(log).term == Last(other).term && |log| > |other|)
  }

  /** It holds no vote for another than x. */
  ghost predicate FreeFor(r: Run, k: nat, v: nat, x: nat, t: nat) {
    forall y: nat {:trigger HoldsVote(r, k, v, y, t)} :: HoldsVote(r, k, v, y, t) ==> y == x
  }

  predicate MayVote(f: Server, x: nat, t: nat) {
    f.currentTerm < t || (f.currentTerm == t && (f.votedFor == None || f.votedFor == Some(x)))
  }

  lemma FreeIs(r: Run, n: nat, k: nat, v: nat, x: nat, t: nat)
    requires IsRun(r, n) && H1(r) && k < |r.states| && v < n && |r.states[k].servers| == n
    requires r.states[k].servers[v].currentTerm <= t
    ensures FreeFor(r, k, v, x, t) <==> MayVote(r.states[k].servers[v], x, t)
  {
    var f := r.states[k].servers[v];
    if f.currentTerm < t {
      forall y: nat ensures !HoldsVote(r, k, v, y, t) {
        NoVoteAhead(r, n, k, v, y, t);
      }
    } else {
      if f.votedFor.Some? {
        VotedForIs(r, n, k, v, f.votedFor.value);
      }
      forall y: nat | HoldsVote(r, k, v, y, t) ensures f.votedFor == Some(y) {
        VotedForIs(r, n, k, v, y);
      }
    }
  }

  lemma HandlerGrants(f: Server, a: VoteArgs, log: seq<Entry>)
    requires |f.log| > 0 && |log| > 0 && a.lastLogIndex == |log| - 1 && a.lastLogTerm == Last(log).term
    ensures RequestVote(f, a).1.granted <==> !f.dead && MayVote(f, a.candidate, a.term) && !Ahead(f.log, log)
  {
  }

  /** Exactly when a vote is granted, in every run that satisfies H1: the voter is alive
      and not ahead in term, it holds no vote for another in the term asked for, and its
      log is not ahead of the one with which the candidate stood. */
  lemma GrantIff(r: Run, n: nat, k: nat, m: Message)
    requires IsRun(r, n) && H1(r) && k < |r.actions| && r.actions[k] == DeliverVote(m) && m.VoteRequest?
    ensures m.to < |r.states[k].servers| && |r.states[k].servers[m.to].log| > 0
    ensures var h, t, x := HistoryAt(r, n, k), m.vote.term, m.vote.candidate;
            && (t, x) in h.stood && |h.stood[(t, x)]| > 0
            && (GrantsAt(r, k, m.to, x, t) <==>
                  var f := r.states[k].servers[m.to];
                  !f.dead && f.currentTerm <= t && FreeFor(r, k, m.to, x, t) && !Ahead(f.log, h.stood[(t, x)]))
  {
    RequestIsHonest(r, n, k, m);
    var t, x, v := m.vote.term, m.vote.candidate, m.to;
    HandlerGrants(r.states[k].servers[v], m.vote, HistoryAt(r, n, k).stood[(t, x)]);
    if r.states[k].servers[v].currentTerm <= t {
      FreeIs(r, n, k, v, x, t);
    }
  }

  /** A vote request describes the log with which its candidate stood. */
  lemma RequestIsHonest(r: Run, n: nat, k: nat, m: Message)
    requires IsRun(r, n) && H1(r) && k < |r.actions| && r.actions[k] == DeliverVote(m) && m.VoteRequest?
    ensures m.to < |r.states[k].servers| == n && |r.states[k].servers[m.to].log| > 0
    ensures L.VoteArgsOk(m.vote, HistoryAt(r, n, k).stood)
  {
    E.RunKeeps(r, n, k);
    L.RunKeeps(r, n, k);
    HistoryStep(r, n, k);
    assert L.MessageLogOk(m, HistoryAt(r, n, k)) && Shaped(r.states[k].servers[m.to], n);
  }

  lemma NoVoteAhead(r: Run, n: nat, k: nat, v: nat, y: nat, t: nat)
    requires IsRun(r, n) && H1(r) && k < |r.states| && v < n && |r.states[k].servers| == n
    requires r.states[k].servers[v].currentTerm < t
    ensures !HoldsVote(r, k, v, y, t)
  {
    if HoldsVote(r, k, v, y, t) {
      var j: nat :| j < k && VotesAt(r, j, v, y, t) && Unforgotten(r, j, k, v, t);
      VoteTerm(r, n, j, v, y, t);
      E.TermsOnlyRise(r, n, j + 1, k, v);
    }
  }
}
