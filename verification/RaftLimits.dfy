/** What fails without H1 or H2, and what fails even with H1, H2 and H3, in concrete
    runs of three servers.  A run is put together from pieces: each lemma that returns a
    piece says from which state it starts, in which it ends, and which of the three
    hypotheses its steps satisfy; JoinPieces puts two of them together. */
module RaftLimits {
  import opened Options
  import opened RaftCore
  import opened RaftCluster
  import V = RaftVotes
  import B = RaftBackOff
  import O = RaftReorder
  import A = RaftApply

  /** A piece of a run: states and the actions between them. */
  ghost predicate Piece(r: Run) {
    && |r.states| == |r.actions| + 1
    && forall k :: 0 <= k < |r.actions| ==> Step(r.states[k], r.actions[k], r.states[k + 1])
  }

  function End(r: Run): Cluster
    requires |r.states| > 0
  {
    r.states[|r.states| - 1]
  }

  function Join(a: Run, b: Run): Run
    requires |b.states| > 0
  {
    Run(a.states + b.states[1..], a.actions + b.actions)
  }

  /** The hypotheses at every step of a piece. */
  ghost predicate Keeps(r: Run, h1: bool, h2: bool, h3: bool) {
    && (h1 ==> H1(r)) && (h2 ==> H2(r)) && (h3 ==> H3(r))
  }

  lemma JoinPieces(a: Run, b: Run, h1: bool, h2: bool, h3: bool)
    requires Piece(a) && Piece(b) && End(a) == b.states[0]
    requires Keeps(a, h1, h2, h3) && Keeps(b, h1, h2, h3)
    ensures Piece(Join(a, b)) && Keeps(Join(a, b), h1, h2, h3)
    ensures Join(a, b).states[0] == a.states[0] && End(Join(a, b)) == End(b)
  {
    var r := Join(a, b);
    forall k | 0 <= k < |r.actions|
      ensures Step(r.states[k], r.actions[k], r.states[k + 1])
      ensures h1 ==> SameTerm(r.states[k], r.actions[k])
      ensures h2 ==> NotGrown(r.states[k], r.actions[k])
      ensures h3 ==> CommitsOwnTerm(r.states[k], r.actions[k], r.states[k + 1])
    {
      var j := k - |a.actions|;
      if j >= 0 {
        assert Step(b.states[j], b.actions[j], b.states[j + 1]);
        assert r.actions[k] == b.actions[j] && r.states[k] == b.states[j] && r.states[k + 1] == b.states[j + 1];
      } else {
        assert Step(a.states[k], a.actions[k], a.states[k + 1]);
      }
    }
  }

  lemma OneStep(c: Cluster, a: Action, c': Cluster) returns (r: Run)
    requires Step(c, a, c')
    ensures Piece(r) && r == Run([c, c'], [a])
    ensures Keeps(r, SameTerm(c, a), NotGrown(c, a), CommitsOwnTerm(c, a, c'))
  {
    r := Run([c, c'], [a]);
  }

  // ------------------------------------------------ a server wins an election

  function Standing(c: Cluster, i: nat): Cluster
    requires i < |c.servers| && |c.servers[i].log| > 0
  {
    var (s', a) := StandForElection(c.servers[i]);
    Put(c, i, s', set p | 0 <= p < |c.servers| && p != i :: VoteRequest(p, a))
  }

  function Args(s: Server): VoteArgs
    requires |s.log| > 0
  {
    VoteArgs(s.currentTerm, s.me, |s.log| - 1, Last(s.log).term)
  }

  lemma Stands(c: Cluster, n: nat, i: nat) returns (r: Run)
    requires Formed(c, n) && i < n && !c.servers[i].dead && c.servers[i].state != Leader
    ensures Piece(r) && Keeps(r, true, true, true) && r.states[0] == c && Formed(End(r), n)
    ensures End(r) == Standing(c, i) && End(r).servers[i] == StandForElection(c.servers[i]).0
    ensures r == Run([c, End(r)], [Timeout(i)])
  {
    r := OneStep(c, Timeout(i), Standing(c, i));
  }

  /** Server v, behind the candidate's term and with no longer a log, votes for it. */
  lemma Votes(c: Cluster, n: nat, v: nat, a: VoteArgs) returns (r: Run)
    requires Formed(c, n) && v < n && VoteRequest(v, a) in c.net
    requires var f := c.servers[v];
             !f.dead && f.currentTerm < a.term && UpToDate(f.log, a)
    ensures Piece(r) && Keeps(r, true, true, true) && r.states[0] == c && Formed(End(r), n)
    ensures var f, f' := c.servers[v], End(r).servers[v];
            && f' == TurnFollower(f, a.term, Some(a.candidate))
            && End(r) == Put(c, v, f', {VoteAnswer(v, a, VoteReply(a.term, true))})
  {
    var f' := TurnFollower(c.servers[v], a.term, Some(a.candidate));
    assert RequestVote(c.servers[v], a) == (f', VoteReply(a.term, true));
    r := OneStep(c, DeliverVote(VoteRequest(v, a)), Put(c, v, f', {VoteAnswer(v, a, VoteReply(a.term, true))}));
  }

  /** The vote returns and elects, in whatever term the candidate now is. */
  lemma Wins(c: Cluster, v: nat, a: VoteArgs) returns (r: Run)
    requires Formed(c, 3) && v < 3 && a.candidate < 3 && VoteAnswer(v, a, VoteReply(a.term, true)) in c.net
    requires var s := c.servers[a.candidate];
             && !s.dead && s.state == Candidate && a.term <= s.currentTerm
             && (a.term, v) in s.awaiting && a.term in s.voteNum && s.voteNum[a.term] == 1
    ensures Piece(r) && Keeps(r, a.term == c.servers[a.candidate].currentTerm, true, true)
    ensures |r.actions| == 1 && r.states[0] == c && Formed(End(r), 3)
    ensures var s, s' := c.servers[a.candidate], End(r).servers[a.candidate];
            && s'.state == Leader && s'.log == s.log && s'.currentTerm == s.currentTerm && !s'.dead
            && s'.applied == s.applied && s'.commitIndex == s.commitIndex && s'.lastApplied == s.lastApplied
            && s'.nextIndex == seq(3, _ => |s.log|) && s'.matchIndex == seq(3, _ => 0)
            && End(r) == Put(c, a.candidate, s', {})
  {
    var s' := VoteReturned(c.servers[a.candidate], a.term, v, VoteReply(a.term, true));
    r := OneStep(c, VoteReturns(VoteAnswer(v, a, VoteReply(a.term, true))), Put(c, a.candidate, s', {}));
  }

  /** Server i stands and wins its term with the vote of v, in three steps. */
  lemma Elects(c: Cluster, i: nat, v: nat) returns (r: Run)
    requires Formed(c, 3) && i < 3 && v < 3 && v != i
    requires var s, f := c.servers[i], c.servers[v];
             && !s.dead && s.state != Leader && !f.dead && f.currentTerm <= s.currentTerm
             && f.log == [SENTINEL]
    ensures Piece(r) && Keeps(r, true, true, true) && r.states[0] == c && Formed(End(r), 3)
    ensures var s, s', f, f' := c.servers[i], End(r).servers[i], c.servers[v], End(r).servers[v];
            && s'.state == Leader && s'.log == s.log && s'.currentTerm == s.currentTerm + 1 && !s'.dead
            && s'.applied == s.applied && s'.commitIndex == s.commitIndex && s'.lastApplied == s.lastApplied
            && s'.nextIndex == seq(3, _ => |s.log|) && s'.matchIndex == seq(3, _ => 0)
            && f' == TurnFollower(f, s.currentTerm + 1, Some(i))
    ensures forall j :: 0 <= j < 3 && j != i && j != v ==> End(r).servers[j] == c.servers[j]
    ensures c.net <= End(r).net
    ensures forall q :: 0 <= q < 3 && q != i ==> VoteRequest(q, Args(StandForElection(c.servers[i]).0)) in End(r).net
  {
    var r1 := Stands(c, 3, i);
    var c1 := End(r1);
    var a := Args(c1.servers[i]);
    assert VoteRequest(v, a) in c1.net;
    var r2 := Votes(c1, 3, v, a);
    var r3 := Wins(End(r2), v, a);
    JoinPieces(r1, r2, true, true, true);
    JoinPieces(Join(r1, r2), r3, true, true, true);
    r := Join(Join(r1, r2), r3);
  }

  // ------------------------------------------------------------------ no H1

  function Start3(): (c: Cluster)
    ensures Init(c, 3) && Formed(c, 3)
  {
    Cluster([InitServer(0, 3), InitServer(1, 3), InitServer(2, 3)], {})
  }

  /** Without H1 a term can have two leaders: server 0 wins server 1's vote for
      term 1 but stands again in term 2; server 2 is elected for term 2; then the
      old vote of term 1 returns and elects server 0 for term 2 as well. */
  lemma StaleVoteElectsSecondLeader() returns (r: Run)
    ensures IsRun(r, 3) && H2(r) && H3(r) && Formed(End(r), 3)
    ensures End(r).servers[0].state == Leader && End(r).servers[2].state == Leader
    ensures End(r).servers[0].currentTerm == End(r).servers[2].currentTerm
  {
    var c0 := Start3();
    var r1 := Stands(c0, 3, 0);
    var a := Args(End(r1).servers[0]);
    assert VoteRequest(1, a) in End(r1).net;
    var r2 := Votes(End(r1), 3, 1, a);
    var r3 := Stands(End(r2), 3, 0);
    var r4 := Stands(End(r3), 3, 2);
    var r5 := Elects(End(r4), 2, 1);
    var c5 := End(r5);
    assert c5.servers[0] == End(r3).servers[0];
    var r6 := Wins(c5, 1, a);
    JoinPieces(r1, r2, true, true, true);
    JoinPieces(Join(r1, r2), r3, true, true, true);
    var q := Join(Join(r1, r2), r3);
    JoinPieces(q, r4, true, true, true);
    JoinPieces(Join(q, r4), r5, true, true, true);
    var p := Join(Join(q, r4), r5);
    JoinPieces(p, r6, false, true, true);
    r := Join(p, r6);
  }

  // ---------------------------------------------------- one vote per term fails

  /** The leader i sends the peer what its nextIndex says. */
  lemma Sends(c: Cluster, n: nat, i: nat, p: nat) returns (r: Run, a: AppendArgs)
    requires Formed(c, n) && i < n && p < n && p != i
    requires var s := c.servers[i]; s.state == Leader && !s.dead && 1 <= s.nextIndex[p] <= |s.log|
    ensures HeartBeat(c.servers[i], p) == Done(Some(a))
    ensures Piece(r) && Keeps(r, true, true, true) && r.states[0] == c && Formed(End(r), n)
    ensures End(r) == Put(c, i, c.servers[i], {AppendRequest(p, a)})
    ensures r == Run([c, End(r)], [SendHeartBeat(i, p)])
  {
    a := HeartBeat(c.servers[i], p).value.value;
    r := OneStep(c, SendHeartBeat(i, p), Put(c, i, c.servers[i], {AppendRequest(p, a)}));
  }

  /** The peer handles a request and is left as f. */
  lemma Handles(c: Cluster, n: nat, p: nat, a: AppendArgs, f: Server, reply: AppendReply) returns (r: Run)
    requires Formed(c, n) && p < n && AppendRequest(p, a) in c.net && Shaped(f, n) && f.me == p
    requires AppendEntries(c.servers[p], a) == Done((f, reply))
    ensures Piece(r) && Keeps(r, true, true, true) && r.states[0] == c && Formed(End(r), n)
    ensures End(r) == Put(c, p, f, {AppendAnswer(p, a, reply)})
  {
    r := OneStep(c, DeliverAppend(AppendRequest(p, a)), Put(c, p, f, {AppendAnswer(p, a, reply)}));
  }

  lemma JoinBegins(a: Run, b: Run)
    requires Piece(a) && Piece(b) && End(a) == b.states[0]
    ensures a.states <= Join(a, b).states && a.actions <= Join(a, b).actions
    ensures Join(a, b).states[|a.actions|..] == b.states && Join(a, b).actions[|a.actions|..] == b.actions
  {
  }

  /** Servers 0 and 1 stand in term 1; server 2 elects server 1. */
  lemma TwoStand() returns (r: Run, a: VoteArgs)
    ensures Piece(r) && Keeps(r, true, true, true) && r.states[0] == Start3() && Formed(End(r), 3)
    ensures a == VoteArgs(1, 1, 0, 0) && VoteRequest(0, a) in End(r).net
    ensures End(r).servers[0] == StandForElection(InitServer(0, 3)).0
    ensures var s := End(r).servers[1];
            && s.state == Leader && s.log == [SENTINEL] && s.currentTerm == 1 && !s.dead
            && s.nextIndex == [1, 1, 1] && s.commitIndex == 0
    ensures V.StandsAt(r, 0, 0, 1)
  {
    var r1 := Stands(Start3(), 3, 0);
    var r2 := Elects(End(r1), 1, 2);
    a := Args(StandForElection(End(r1).servers[1]).0);
    JoinPieces(r1, r2, true, true, true);
    JoinBegins(r1, r2);
    r := Join(r1, r2);
    assert r.actions[0] == r1.actions[0] && r.states[1] == r1.states[1];
  }

  /** The new leader's heartbeat makes server 0 step down, and so forget its vote. */
  lemma HearsRival(c: Cluster) returns (r: Run)
    requires Formed(c, 3) && c.servers[0] == StandForElection(InitServer(0, 3)).0
    requires var s := c.servers[1];
             && s.state == Leader && s.log == [SENTINEL] && s.currentTerm == 1 && !s.dead
             && s.nextIndex == [1, 1, 1] && s.commitIndex == 0
    ensures Piece(r) && Keeps(r, true, true, true) && r.states[0] == c && Formed(End(r), 3)
    ensures End(r).servers[0] == TurnFollower(c.servers[0], 1, None) && c.net <= End(r).net
  {
    var r1, a := Sends(c, 3, 1, 0);
    assert a == AppendArgs(1, 1, 0, 0, [], 0);
    var f := TurnFollower(c.servers[0], 1, None);
    assert Merge([SENTINEL], 0, []) == [SENTINEL];
    var r2 := Handles(End(r1), 3, 0, a, f, AppendReply(0, true));
    JoinPieces(r1, r2, true, true, true);
    r := Join(r1, r2);
  }

  /** A run of three servers that satisfies H1, H2 and H3, in which server 0 stands in
      term 1 and then grants its vote of term 1 to server 1, the leader of that term,
      whose request arrives late. */
  lemma TwoVotesInOneTerm() returns (r: Run, k: nat)
    ensures IsRun(r, 3) && H1(r) && H2(r) && H3(r)
    ensures V.VotesAt(r, 0, 0, 0, 1) && k > 0 && V.VotesAt(r, k, 0, 1, 1)
  {
    var r1, a := TwoStand();
    var r2 := HearsRival(End(r1));
    var q := Join(r1, r2);
    JoinPieces(r1, r2, true, true, true);
    JoinBegins(r1, r2);
    var c := End(q);
    var f' := c.servers[0].(votedFor := Some(1));
    var r3 := OneStep(c, DeliverVote(VoteRequest(0, a)), Put(c, 0, f', {VoteAnswer(0, a, VoteReply(1, true))}));
    JoinPieces(q, r3, true, true, true);
    JoinBegins(q, r3);
    r, k := Join(q, r3), |q.actions|;
    assert r.actions[k] == r.actions[|q.actions|..][0] && r.states[k] == r.states[|q.actions|..][0];
  }

  // ------------------------------------------------- nextIndex falls below one

  /** A failed reply returns to the leader. */
  lemma Fails(c: Cluster, n: nat, i: nat, p: nat, a: AppendArgs, reply: AppendReply) returns (r: Run)
    requires Formed(c, n) && i < n && p < n && a.leader == i && AppendAnswer(p, a, reply) in c.net
    requires var s := c.servers[i]; s.state == Leader && !s.dead && reply.term <= s.currentTerm && !reply.success
    ensures Piece(r) && Keeps(r, true, true, true) && r.states[0] == c && Formed(End(r), n)
    ensures End(r) == Put(c, i, B.BackedOff(c.servers[i], p, 1), {})
  {
    r := OneStep(c, AppendReturns(AppendAnswer(p, a, reply)), Put(c, i, B.BackedOff(c.servers[i], p, 1), {}));
  }

  /** A killed peer answers with term 0 and no success.  One such reply takes the
      leader's nextIndex to 0, and its next heartbeat to that peer panics. */
  lemma KilledPeerPanics() returns (r: Run)
    ensures IsRun(r, 3) && H1(r) && H2(r) && H3(r) && Formed(End(r), 3)
    ensures End(r).servers[0].nextIndex[2] == 0 && HeartBeat(End(r).servers[0], 2) == Panic
  {
    var r1 := Elects(Start3(), 0, 1);
    var r2, a := Sends(End(r1), 3, 0, 2);
    var c := End(r2);
    var f := c.servers[2].(dead := true);
    var r3 := OneStep(c, Kill(2), Put(c, 2, f, {}));
    var r4 := Handles(End(r3), 3, 2, a, f, AppendReply(0, false));
    var r5 := Fails(End(r4), 3, 0, 2, a, AppendReply(0, false));
    JoinPieces(r1, r2, true, true, true);
    JoinPieces(Join(r1, r2), r3, true, true, true);
    var q := Join(Join(r1, r2), r3);
    JoinPieces(q, r4, true, true, true);
    JoinPieces(Join(q, r4), r5, true, true, true);
    r := Join(Join(q, r4), r5);
  }

  /** A leader hears of a later term from a candidate with a shorter log: it steps down
      and does not vote. */
  lemma Declines(c: Cluster, n: nat, v: nat, a: VoteArgs) returns (r: Run)
    requires Formed(c, n) && v < n && VoteRequest(v, a) in c.net
    requires var f := c.servers[v];
             !f.dead && f.currentTerm < a.term && !UpToDate(f.log, a)
    ensures Piece(r) && Keeps(r, true, true, true) && r.states[0] == c && Formed(End(r), n)
    ensures var f' := TurnFollower(c.servers[v], a.term, None);
            End(r) == Put(c, v, f', {VoteAnswer(v, a, VoteReply(a.term, false))})
  {
    var f' := TurnFollower(c.servers[v], a.term, None);
    r := OneStep(c, DeliverVote(VoteRequest(v, a)), Put(c, v, f', {VoteAnswer(v, a, VoteReply(a.term, false))}));
  }

  /** Server 0 leads term 1, appends x, is deposed, and leads again in term 3, with
      nextIndex 2 for server 2, whose log is empty. */
  lemma LeadsAgain(x: Command) returns (r: Run)
    ensures Piece(r) && Keeps(r, true, true, true) && r.states[0] == Start3() && Formed(End(r), 3)
    ensures var s := End(r).servers[0];
            && s.state == Leader && !s.dead && s.currentTerm == 3 && s.log == [SENTINEL, Entry(1, x)]
            && s.nextIndex == [2, 2, 2] && s.commitIndex == 0
    ensures End(r).servers[2] == TurnFollower(InitServer(2, 3), 3, Some(0))
  {
    var r1 := Elects(Start3(), 0, 1);
    var r2 := Starts(End(r1), 3, 0, x);
    var r3 := Stands(End(r2), 3, 1);
    var a := VoteArgs(2, 1, 0, 0);
    assert VoteRequest(0, a) in End(r3).net;
    var r4 := Declines(End(r3), 3, 0, a);
    var r5 := Elects(End(r4), 0, 2);
    JoinPieces(r1, r2, true, true, true);
    JoinPieces(Join(r1, r2), r3, true, true, true);
    var q := Join(Join(r1, r2), r3);
    JoinPieces(q, r4, true, true, true);
    JoinPieces(Join(q, r4), r5, true, true, true);
    r := Join(Join(q, r4), r5);
  }

  /** Two requests are on their way at once, and both come back failed. */
  lemma BothFail(c: Cluster) returns (r: Run)
    requires Formed(c, 3)
    requires var s := c.servers[0];
             && s.state == Leader && !s.dead && s.currentTerm == 3 && |s.log| == 2 && s.nextIndex == [2, 2, 2]
    requires c.servers[2] == TurnFollower(InitServer(2, 3), 3, Some(0))
    ensures Piece(r) && Keeps(r, true, true, true) && r.states[0] == c && Formed(End(r), 3)
    ensures End(r).servers[2] == c.servers[2]
    ensures var s := End(r).servers[0]; s.nextIndex[2] == 0 && s.state == Leader && !s.dead
  {
    var r1, a := Sends(c, 3, 0, 2);
    var r2, b := Sends(End(r1), 3, 0, 2);
    var f, reply := c.servers[2], AppendReply(3, false);
    assert a == b && a.prevLogIndex == 1;
    assert AppendEntries(f, a) == Done((f, reply));
    var r3 := Handles(End(r2), 3, 2, a, f, reply);
    var r4 := Handles(End(r3), 3, 2, b, f, reply);
    var r5 := Fails(End(r4), 3, 0, 2, a, reply);
    var r6 := Fails(End(r5), 3, 0, 2, b, reply);
    JoinPieces(r1, r2, true, true, true);
    JoinPieces(Join(r1, r2), r3, true, true, true);
    var q := Join(Join(r1, r2), r3);
    JoinPieces(q, r4, true, true, true);
    JoinPieces(Join(q, r4), r5, true, true, true);
    var p := Join(Join(q, r4), r5);
    JoinPieces(p, r6, true, true, true);
    r := Join(p, r6);
  }

  /** Neither server is killed, but two exchanges between them overlap: the two failed replies
      take nextIndex from 2 to 0, and the next heartbeat panics. */
  lemma OverlapPanics(x: Command) returns (r: Run)
    ensures IsRun(r, 3) && H1(r) && H2(r) && H3(r) && Formed(End(r), 3)
    ensures !End(r).servers[0].dead && !End(r).servers[2].dead
    ensures End(r).servers[0].nextIndex[2] == 0 && HeartBeat(End(r).servers[0], 2) == Panic
  {
    var r1 := LeadsAgain(x);
    var r2 := BothFail(End(r1));
    JoinPieces(r1, r2, true, true, true);
    r := Join(r1, r2);
  }

  // ------------------------------------------------------------------ no H2

  lemma Starts(c: Cluster, n: nat, i: nat, cmd: Command) returns (r: Run)
    requires Formed(c, n) && i < n && c.servers[i].state == Leader
    ensures Piece(r) && Keeps(r, true, true, true) && r.states[0] == c && Formed(End(r), n)
    ensures End(r) == Put(c, i, Start(c.servers[i], cmd), {})
  {
    r := OneStep(c, ClientStart(i, cmd), Put(c, i, Start(c.servers[i], cmd), {}));
  }

  /** A leader with nextIndex 1 for the peer sends its whole log, and the peer, whose
      log is empty, takes it. */
  lemma Replicates(c: Cluster, i: nat, p: nat) returns (r: Run, a: AppendArgs)
    requires Formed(c, 3) && i < 3 && p < 3 && p != i
    requires var s, f := c.servers[i], c.servers[p];
             && s.state == Leader && !s.dead && s.nextIndex[p] == 1 && s.commitIndex == 0
             && !f.dead && f.currentTerm <= s.currentTerm && f.log == [SENTINEL]
             && f.commitIndex == f.lastApplied == 0
    ensures a.term == c.servers[i].currentTerm && a.leader == i && Reach(a) == |c.servers[i].log|
    ensures Piece(r) && Keeps(r, true, true, true) && r.states[0] == c && Formed(End(r), 3)
    ensures AppendAnswer(p, a, AppendReply(0, true)) in End(r).net
    ensures End(r).servers == c.servers[p := End(r).servers[p]]
    ensures End(r).servers[p].applied == c.servers[p].applied
    ensures End(r).servers[p].log == [SENTINEL] + c.servers[i].log[1..]
    ensures c.servers[p].state == Follower ==> End(r).servers[p].state == Follower
    ensures !End(r).servers[p].dead && End(r).servers[p].currentTerm == c.servers[i].currentTerm
    ensures End(r).servers[p].commitIndex == End(r).servers[p].lastApplied == 0
  {
    var f := c.servers[p];
    var r1, m := Sends(c, 3, i, p);
    var f' := Taken(f, m);
    var r2 := Handles(End(r1), 3, p, m, f', AppendReply(0, true));
    JoinPieces(r1, r2, true, true, true);
    r, a := Join(r1, r2), m;
  }

  /** What an empty peer becomes by accepting a whole log with nothing committed. */
  lemma Taken(f: Server, a: AppendArgs) returns (f': Server)
    requires !f.dead && f.currentTerm <= a.term && f.log == [SENTINEL] && f.commitIndex == f.lastApplied == 0
    requires a.prevLogIndex == a.prevLogTerm == a.leaderCommit == 0
    ensures AppendEntries(f, a) == Done((f', AppendReply(0, true)))
    ensures f'.log == [SENTINEL] + a.entries && f'.commitIndex == f'.lastApplied == 0 && f'.applied == f.applied
    ensures !f'.dead && f'.currentTerm == a.term && f'.state == Follower && f'.me == f.me
    ensures f'.nextIndex == f.nextIndex && f'.matchIndex == f.matchIndex
  {
    A.FreshMerge(a.entries);
    f' := AppendEntries(f, a).value.0;
  }

  /** The first entry is committed by counting the leader and one peer. */
  lemma CommitsFirst(c: Cluster, i: nat, p: nat, a: AppendArgs, cmd: Command) returns (r: Run)
    requires Formed(c, 3) && i < 3 && p < 3 && p != i && a.leader == i
    requires AppendAnswer(p, a, AppendReply(0, true)) in c.net
    requires var s := c.servers[i];
             && s.state == Leader && !s.dead && s.log == [SENTINEL, Entry(s.currentTerm, cmd)]
             && s.matchIndex == (seq(3, _ => 0))[i := 1] && s.commitIndex == s.lastApplied == 0 && s.applied == []
    ensures Piece(r) && Keeps(r, a.term == c.servers[i].currentTerm, Reach(a) == 2, true) && r.states[0] == c
    ensures Formed(End(r), 3) && End(r).servers[i].applied == [ApplyMsg(1, cmd)] && c.net <= End(r).net
    ensures var s, s' := c.servers[i], End(r).servers[i];
            && s'.state == Leader && !s'.dead && s'.log == s.log && s'.currentTerm == s.currentTerm
            && s'.nextIndex[p] == 2 && s'.commitIndex == 1
    ensures forall j :: 0 <= j < 3 && j != i ==> End(r).servers[j] == c.servers[j]
  {
    var s := c.servers[i];
    var s1 := PeerMatched(s, p);
    assert s1.matchIndex == (seq(3, _ => 0))[i := 1][p := 1];
    TwoOfThree(s1.matchIndex, i, p);
    assert Messages(s.log, 0, 1) == [ApplyMsg(1, cmd)];
    var s' := AppendReturned(s, p, AppendReply(0, true)).value;
    r := OneStep(c, AppendReturns(AppendAnswer(p, a, AppendReply(0, true))), Put(c, i, s', {}));
  }

  lemma TwoOfThree(m: seq<nat>, i: nat, p: nat)
    requires i < 3 && p < 3 && i != p && m == (seq(3, _ => 0))[i := 1][p := 1]
    ensures HighestQuorum(m, 0, 1) == 1
  {
    assert m[..2][..1] == m[..1] && m[..1][..0] == [];
    assert CountAtLeast(m[..1], 1) == (if m[0] >= 1 then 1 else 0);
    assert CountAtLeast(m[..2], 1) == CountAtLeast(m[..1], 1) + (if m[1] >= 1 then 1 else 0);
    assert CountAtLeast(m, 1) == CountAtLeast(m[..2], 1) + (if m[2] >= 1 then 1 else 0);
  }

  /** Server 0 is elected, sends an empty message to server 1, appends x, and counts
      the reply to the empty message as if it covered x. */
  lemma CommitsUnsent(x: Command) returns (r: Run)
    ensures Piece(r) && Keeps(r, true, false, true) && r.states[0] == Start3() && Formed(End(r), 3)
    ensures End(r).servers[0].applied == [ApplyMsg(1, x)]
    ensures var b := End(r).servers[1];
            && b.state == Follower && !b.dead && b.log == [SENTINEL] && b.currentTerm == 1
            && b.commitIndex == b.lastApplied == 0 && b.applied == []
    ensures End(r).servers[2] == InitServer(2, 3)
  {
    var r1 := Elects(Start3(), 0, 1);
    var r2, a := Replicates(End(r1), 0, 1);
    var r3 := Starts(End(r2), 3, 0, x);
    var r4 := CommitsFirst(End(r3), 0, 1, a, x);
    JoinPieces(r1, r2, true, true, true);
    JoinPieces(Join(r1, r2), r3, true, true, true);
    JoinPieces(Join(Join(r1, r2), r3), r4, true, false, true);
    r := Join(Join(Join(r1, r2), r3), r4);
  }

  /** Server 1 is elected next, and commits y properly at the same index. */
  lemma CommitsAfresh(c: Cluster, y: Command) returns (r: Run)
    requires Formed(c, 3) && c.servers[2] == InitServer(2, 3)
    requires var b := c.servers[1];
             && b.state == Follower && !b.dead && b.log == [SENTINEL] && b.currentTerm == 1
             && b.commitIndex == b.lastApplied == 0 && b.applied == []
    ensures Piece(r) && Keeps(r, true, true, true) && r.states[0] == c && Formed(End(r), 3)
    ensures End(r).servers[0] == c.servers[0] && End(r).servers[1].applied == [ApplyMsg(1, y)]
  {
    var r1 := Elects(c, 1, 2);
    var r2 := Starts(End(r1), 3, 1, y);
    var r3, a := Replicates(End(r2), 1, 2);
    var r4 := CommitsFirst(End(r3), 1, 2, a, y);
    JoinPieces(r1, r2, true, true, true);
    JoinPieces(Join(r1, r2), r3, true, true, true);
    JoinPieces(Join(Join(r1, r2), r3), r4, true, true, true);
    r := Join(Join(Join(r1, r2), r3), r4);
  }

  /** Without H2 two servers can apply different commands at index 1, even though
      H1 and H3 hold throughout. */
  lemma UnsentEntryCommits(x: Command, y: Command) returns (r: Run)
    ensures IsRun(r, 3) && H1(r) && H3(r) && Formed(End(r), 3)
    ensures End(r).servers[0].applied == [ApplyMsg(1, x)] && End(r).servers[1].applied == [ApplyMsg(1, y)]
  {
    var r1 := CommitsUnsent(x);
    var r2 := CommitsAfresh(End(r1), y);
    JoinPieces(r1, r2, true, false, true);
    r := Join(r1, r2);
  }

  // --------------------------------------------- requests whose order matters

  /** Server 0 is elected and sends server 2 an empty request, which is accepted, and
      then x; the reply to the first is counted as if it were the reply to the second. */
  lemma CountsEarly(x: Command) returns (r: Run, a: AppendArgs)
    ensures Piece(r) && Keeps(r, true, false, true) && r.states[0] == Start3() && Formed(End(r), 3)
    ensures a == AppendArgs(1, 0, 0, 0, [Entry(1, x)], 0) && AppendRequest(2, a) in End(r).net
    ensures var s := End(r).servers[0];
            && s.state == Leader && !s.dead && s.currentTerm == 1 && s.log == [SENTINEL, Entry(1, x)]
            && s.nextIndex[2] == 2
    ensures End(r).servers[2].log == [SENTINEL]
  {
    var r1 := Elects(Start3(), 0, 1);
    var r2, e := Sends(End(r1), 3, 0, 2);
    var r3 := Starts(End(r2), 3, 0, x);
    var r4, m := Sends(End(r3), 3, 0, 2);
    var f := InitServer(2, 3).(currentTerm := 1);
    assert Merge([SENTINEL], 0, []) == [SENTINEL];
    var r5 := Handles(End(r4), 3, 2, e, f, AppendReply(0, true));
    var r6 := CommitsFirst(End(r5), 0, 2, e, x);
    JoinPieces(r1, r2, true, true, true);
    JoinPieces(Join(r1, r2), r3, true, true, true);
    var q := Join(Join(r1, r2), r3);
    JoinPieces(q, r4, true, true, true);
    JoinPieces(Join(q, r4), r5, true, true, true);
    var p := Join(Join(q, r4), r5);
    JoinPieces(p, r6, true, false, true);
    r, a := Join(p, r6), m;
  }

  /** Without H2 the order of two requests in transit can matter: the second is refused
      if it arrives before the first. */
  lemma OrderMatters(x: Command, y: Command) returns (r: Run, a: AppendArgs, b: AppendArgs)
    ensures IsRun(r, 3) && H1(r) && H3(r) && Formed(End(r), 3)
    ensures AppendRequest(2, a) in End(r).net && AppendRequest(2, b) in End(r).net && a.term == b.term
    ensures End(r).servers[2].log == [SENTINEL]
    ensures O.Both([SENTINEL], a, b) == [SENTINEL, Entry(1, x), Entry(1, y)]
    ensures O.Both([SENTINEL], b, a) == [SENTINEL, Entry(1, x)]
  {
    var r1, m := CountsEarly(x);
    var r2 := Starts(End(r1), 3, 0, y);
    var r3, m' := Sends(End(r2), 3, 0, 2);
    JoinPieces(r1, r2, true, false, true);
    JoinPieces(Join(r1, r2), r3, true, false, true);
    r, a, b := Join(Join(r1, r2), r3), m, m';
    assert b.prevLogIndex == 1 && b.prevLogTerm == 1 && b.entries == [Entry(1, y)];
    TwoOrders(x, y, a, b);
  }

  lemma TwoOrders(x: Command, y: Command, a: AppendArgs, b: AppendArgs)
    requires a.prevLogIndex == 0 && a.prevLogTerm == 0 && a.entries == [Entry(1, x)]
    requires b.prevLogIndex == 1 && b.prevLogTerm == 1 && b.entries == [Entry(1, y)]
    ensures O.Both([SENTINEL], a, b) == [SENTINEL, Entry(1, x), Entry(1, y)]
    ensures O.Both([SENTINEL], b, a) == [SENTINEL, Entry(1, x)]
  {
    var log, log1 := [SENTINEL], [SENTINEL, Entry(1, x)];
    assert Conflicts(log, 1, a.entries[0]) && a.entries[0..] == a.entries;
    assert O.Handled(log, a) == log1 && O.Handled(log, b) == log;
    assert Conflicts(log1, 2, b.entries[0]) && b.entries[0..] == b.entries;
    assert O.Handled(log1, b) == log1 + b.entries;
  }

  // ------------------------------------------------- a follower applies a command

  /** Server 0 leads, server 1 holds its x, and both replies have been counted. */
  lemma CommitsAtLeader(x: Command) returns (r: Run)
    ensures Piece(r) && Keeps(r, true, true, true) && r.states[0] == Start3() && Formed(End(r), 3)
    ensures var s := End(r).servers[0];
            && s.state == Leader && !s.dead && s.currentTerm == 1 && s.log == [SENTINEL, Entry(1, x)]
            && s.nextIndex[1] == 2 && s.commitIndex == 1 && s.applied == [ApplyMsg(1, x)]
    ensures var f := End(r).servers[1];
            && !f.dead && f.state == Follower && f.currentTerm == 1 && f.log == [SENTINEL, Entry(1, x)]
            && f.commitIndex == f.lastApplied == 0 && f.applied == []
  {
    var r1 := Elects(Start3(), 0, 1);
    var r2 := Starts(End(r1), 3, 0, x);
    var r3, a := Replicates(End(r2), 0, 1);
    var r4 := CommitsFirst(End(r3), 0, 1, a, x);
    JoinPieces(r1, r2, true, true, true);
    JoinPieces(Join(r1, r2), r3, true, true, true);
    JoinPieces(Join(Join(r1, r2), r3), r4, true, true, true);
    r := Join(Join(Join(r1, r2), r3), r4);
  }

  /** The leader commits x, and with the next request the follower commits and applies
      it too, in a run that satisfies H1, H2 and H3. */
  lemma FollowerApplies(x: Command) returns (r: Run)
    ensures IsRun(r, 3) && H1(r) && H2(r) && H3(r) && Formed(End(r), 3)
    ensures End(r).servers[0].state == Leader && End(r).servers[1].state == Follower
    ensures End(r).servers[0].applied == [ApplyMsg(1, x)] && End(r).servers[1].applied == [ApplyMsg(1, x)]
  {
    var r1 := CommitsAtLeader(x);
    var r2, a := Sends(End(r1), 3, 0, 1);
    var f := End(r2).servers[1];
    assert a.entries == [] && a.prevLogIndex == 1 && a.leaderCommit == 1;
    assert Merge(f.log, 1, []) == f.log && Messages(f.log, 0, 1) == [ApplyMsg(1, x)];
    var f' := f.(commitIndex := 1, lastApplied := 1, applied := [ApplyMsg(1, x)]);
    var r3 := Handles(End(r2), 3, 1, a, f', AppendReply(0, true));
    JoinPieces(r1, r2, true, true, true);
    JoinPieces(Join(r1, r2), r3, true, true, true);
    r := Join(Join(r1, r2), r3);
  }
}
