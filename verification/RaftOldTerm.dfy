/** What fails without H3: the run behind section 5.4.2 of the Raft paper.  Servers 0 and
    4 of five lead in turn, each with one entry that nobody else holds.  Server 0 leads
    again, commits its old entry by counting three copies, and applies it.  Server 4,
    whose entry has the later term, is elected over the copies and overwrites them. */
module RaftOldTerm {
  import opened Options
  import opened RaftCore
  import opened RaftCluster
  import opened RaftLimits

  /** A server with a better log refuses the vote, but takes over the term. */
  lemma Adopts(c: Cluster, x: nat, a: VoteArgs) returns (r: Run)
    requires Formed(c, 5) && x < 5 && VoteRequest(x, a) in c.net
    requires var f := c.servers[x]; !f.dead && f.currentTerm < a.term && !UpToDate(f.log, a)
    ensures Piece(r) && Keeps(r, true, true, true) && r.states[0] == c && Formed(End(r), 5)
    ensures End(r) == Put(c, x, TurnFollower(c.servers[x], a.term, None), {VoteAnswer(x, a, VoteReply(a.term, false))})
  {
    var f' := TurnFollower(c.servers[x], a.term, None);
    assert RequestVote(c.servers[x], a) == (f', VoteReply(a.term, false));
    r := OneStep(c, DeliverVote(VoteRequest(x, a)), Put(c, x, f', {VoteAnswer(x, a, VoteReply(a.term, false))}));
  }

  predicate CountsIn(c: Cluster, v: nat, a: VoteArgs, votes: nat) {
    Formed(c, 5) && v < 5 && a.candidate < 5 && VoteAnswer(v, a, VoteReply(a.term, true)) in c.net &&
    var s := c.servers[a.candidate];
    && !s.dead && s.state == Candidate && a.term == s.currentTerm
    && (a.term, v) in s.awaiting && a.term in s.voteNum && s.voteNum[a.term] == votes
  }

  /** The second vote does not elect yet; the third does. */
  lemma SecondVote(c: Cluster, v: nat, a: VoteArgs) returns (r: Run)
    requires CountsIn(c, v, a, 1)
    ensures Piece(r) && Keeps(r, true, true, true) && r.states[0] == c && Formed(End(r), 5)
    ensures var s := c.servers[a.candidate];
            End(r) == Put(c, a.candidate,
                s.(awaiting := s.awaiting - {(a.term, v)}, voteNum := s.voteNum[a.term := 2]), {})
  {
    var s' := VoteReturned(c.servers[a.candidate], a.term, v, VoteReply(a.term, true));
    r := OneStep(c, VoteReturns(VoteAnswer(v, a, VoteReply(a.term, true))), Put(c, a.candidate, s', {}));
  }

  /** What a freshly elected leader looks like. */
  predicate Elected(s: Server, s': Server) {
    && s'.state == Leader && s'.log == s.log && s'.me == s.me && !s'.dead
    && s'.applied == s.applied && s'.commitIndex == s.commitIndex && s'.lastApplied == s.lastApplied
    && s'.nextIndex == seq(5, _ => |s.log|) && s'.matchIndex == seq(5, _ => 0)
  }

  lemma ThirdVote(c: Cluster, v: nat, a: VoteArgs) returns (r: Run)
    requires CountsIn(c, v, a, 2)
    ensures Piece(r) && Keeps(r, true, true, true) && r.states[0] == c && Formed(End(r), 5)
    ensures var s, s' := c.servers[a.candidate], End(r).servers[a.candidate];
            Elected(s, s') && s'.currentTerm == s.currentTerm && End(r) == Put(c, a.candidate, s', {})
  {
    var s' := VoteReturned(c.servers[a.candidate], a.term, v, VoteReply(a.term, true));
    r := OneStep(c, VoteReturns(VoteAnswer(v, a, VoteReply(a.term, true))), Put(c, a.candidate, s', {}));
  }

  /** The arguments server s stands with next. */
  function NextArgs(s: Server): VoteArgs
    requires |s.log| > 0
  {
    StandForElection(s).1
  }

  predicate WouldVote(f: Server, a: VoteArgs)
    requires |f.log| > 0
  {
    !f.dead && f.currentTerm < a.term && UpToDate(f.log, a)
  }

  function AfterVote(f: Server, a: VoteArgs): Server {
    TurnFollower(f, a.term, Some(a.candidate))
  }

  /** Server i stands, and v and w vote for it. */
  lemma GetsVotes(c: Cluster, i: nat, v: nat, w: nat) returns (r: Run)
    requires Formed(c, 5) && i < 5 && v < 5 && w < 5 && v != i && w != i && v != w
    requires !c.servers[i].dead && c.servers[i].state != Leader
    requires WouldVote(c.servers[v], NextArgs(c.servers[i])) && WouldVote(c.servers[w], NextArgs(c.servers[i]))
    ensures Piece(r) && Keeps(r, true, true, true) && r.states[0] == c && Formed(End(r), 5)
    ensures var a := NextArgs(c.servers[i]);
            && End(r).servers == c.servers[i := StandForElection(c.servers[i]).0]
                                          [v := AfterVote(c.servers[v], a)][w := AfterVote(c.servers[w], a)]
            && VoteAnswer(v, a, VoteReply(a.term, true)) in End(r).net
            && VoteAnswer(w, a, VoteReply(a.term, true)) in End(r).net
            && c.net <= End(r).net && forall p :: 0 <= p < 5 && p != i ==> VoteRequest(p, a) in End(r).net
  {
    var a := NextArgs(c.servers[i]);
    var r1 := Stands(c, 5, i);
    assert forall p :: 0 <= p < 5 && p != i ==> VoteRequest(p, a) in End(r1).net;
    var r2 := Votes(End(r1), 5, v, a);
    var r3 := Votes(End(r2), 5, w, a);
    JoinPieces(r1, r2, true, true, true);
    JoinPieces(Join(r1, r2), r3, true, true, true);
    r := Join(Join(r1, r2), r3);
  }

  /** Server i is elected with the votes of v and w. */
  lemma Elects5(c: Cluster, i: nat, v: nat, w: nat) returns (r: Run, l: Server)
    requires Formed(c, 5) && i < 5 && v < 5 && w < 5 && v != i && w != i && v != w
    requires !c.servers[i].dead && c.servers[i].state != Leader
    requires WouldVote(c.servers[v], NextArgs(c.servers[i])) && WouldVote(c.servers[w], NextArgs(c.servers[i]))
    ensures Piece(r) && Keeps(r, true, true, true) && r.states[0] == c && Formed(End(r), 5)
    ensures Elected(c.servers[i], l) && l.currentTerm == c.servers[i].currentTerm + 1
    ensures var a := NextArgs(c.servers[i]);
            && End(r).servers == c.servers[i := l][v := AfterVote(c.servers[v], a)][w := AfterVote(c.servers[w], a)]
            && forall p :: 0 <= p < 5 && p != i ==> VoteRequest(p, a) in End(r).net
  {
    var a := NextArgs(c.servers[i]);
    var r1 := GetsVotes(c, i, v, w);
    assert CountsIn(End(r1), v, a, 1);
    var r2 := SecondVote(End(r1), v, a);
    assert CountsIn(End(r2), w, a, 2);
    var r3 := ThirdVote(End(r2), w, a);
    l := End(r3).servers[i];
    assert End(r3).servers == c.servers[i := l][v := AfterVote(c.servers[v], a)][w := AfterVote(c.servers[w], a)];
    JoinPieces(r1, r2, true, true, true);
    JoinPieces(Join(r1, r2), r3, true, true, true);
    r := Join(Join(r1, r2), r3);
  }

  // ------------------------------------------------------------- replication

  /** A log without the entry: empty, or with one entry of another term. */
  predicate Lacking(log: seq<Entry>, e: Entry) {
    log == [SENTINEL] || (|log| == 2 && log[0] == SENTINEL && log[1].term != e.term)
  }

  /** A leader holding one entry, and a peer without it. */
  predicate Behind(c: Cluster, i: nat, p: nat, e: Entry) {
    Formed(c, 5) && i < 5 && p < 5 && p != i &&
    var s, f := c.servers[i], c.servers[p];
    && s.state == Leader && !s.dead && s.log == [SENTINEL, e] && s.commitIndex == s.lastApplied == 0 && s.applied == []
    && !f.dead && f.currentTerm <= s.currentTerm && f.commitIndex == f.lastApplied == 0
    && Lacking(f.log, e)
  }

  /** A follower of the leader's term, with the given log and nothing committed. */
  predicate Follows(f: Server, f': Server, term: nat, log: seq<Entry>) {
    f'.log == log && f'.currentTerm == term && !f'.dead && f'.commitIndex == f'.lastApplied == 0 && f'.me == f.me
  }

  /** The first message is refused, and nextIndex goes back to 1. */
  lemma BacksOff(c: Cluster, i: nat, p: nat, e: Entry) returns (r: Run, f': Server)
    requires Behind(c, i, p, e) && c.servers[i].nextIndex[p] == 2
    ensures Piece(r) && Keeps(r, true, true, true) && r.states[0] == c && Formed(End(r), 5)
    ensures Follows(c.servers[p], f', c.servers[i].currentTerm, c.servers[p].log)
    ensures var s := c.servers[i];
            End(r).servers == c.servers[p := f'][i := s.(nextIndex := s.nextIndex[p := 1])]
  {
    var s := c.servers[i];
    var a := HeartBeat(s, p).value.value;
    var c1 := Put(c, i, s, {AppendRequest(p, a)});
    var r1 := OneStep(c, SendHeartBeat(i, p), c1);
    assert c1.servers == c.servers;
    assert !PrefixAccepted(c.servers[p].log, a);
    f' := AppendEntries(c.servers[p], a).value.0;
    var reply := AppendReply(s.currentTerm, false);
    var r2 := OneStep(c1, DeliverAppend(AppendRequest(p, a)), Put(c1, p, f', {AppendAnswer(p, a, reply)}));
    var s' := s.(nextIndex := s.nextIndex[p := 1]);
    assert AppendReturned(s, p, reply) == Done(s');
    var r3 := OneStep(End(r2), AppendReturns(AppendAnswer(p, a, reply)), Put(End(r2), i, s', {}));
    JoinPieces(r1, r2, true, true, true);
    JoinPieces(Join(r1, r2), r3, true, true, true);
    r := Join(Join(r1, r2), r3);
  }

  lemma MergedEntry(log: seq<Entry>, e: Entry)
    requires Lacking(log, e)
    ensures Merge(log, 0, [e]) == [SENTINEL, e]
  {
    assert Conflicts(log, 1, e);
    assert FirstConflict(log, 1, [e]) == Some(0);
    assert log[..1] == [SENTINEL];
  }

  lemma AcceptsEntry(f: Server, a: AppendArgs, e: Entry, n: nat) returns (f': Server)
    requires Shaped(f, n) && a.prevLogIndex == a.prevLogTerm == a.leaderCommit == 0 && a.entries == [e]
             && Lacking(f.log, e)
    requires !f.dead && f.currentTerm <= a.term && f.commitIndex == f.lastApplied == 0
    ensures AppendEntries(f, a) == Done((f', AppendReply(0, true)))
    ensures Shaped(f', n) && Follows(f, f', a.term, [SENTINEL, e])
  {
    MergedEntry(f.log, e);
    f' := AppendEntries(f, a).value.0;
  }

  /** The second message carries the entry, and is accepted. */
  lemma Sends(c: Cluster, i: nat, p: nat, e: Entry) returns (r: Run, f': Server, a: AppendArgs)
    requires Behind(c, i, p, e) && c.servers[i].nextIndex[p] == 1
    ensures Piece(r) && Keeps(r, true, true, true) && r.states[0] == c && Formed(End(r), 5)
    ensures Follows(c.servers[p], f', c.servers[i].currentTerm, [SENTINEL, e])
    ensures End(r).servers == c.servers[p := f']
    ensures a.leader == i && a.term == c.servers[i].currentTerm && Reach(a) == 2
    ensures AppendAnswer(p, a, AppendReply(0, true)) in End(r).net
  {
    var s := c.servers[i];
    a := HeartBeat(s, p).value.value;
    assert a == AppendArgs(s.currentTerm, i, 0, 0, [e], 0);
    var c1 := Put(c, i, s, {AppendRequest(p, a)});
    var r1 := OneStep(c, SendHeartBeat(i, p), c1);
    assert c1.servers == c.servers;
    f' := AcceptsEntry(c.servers[p], a, e, 5);
    var r2 := OneStep(c1, DeliverAppend(AppendRequest(p, a)),
        Put(c1, p, f', {AppendAnswer(p, a, AppendReply(0, true))}));
    JoinPieces(r1, r2, true, true, true);
    r := Join(r1, r2);
  }

  /** The reply is counted; index 1 is committed if that makes three. */
  lemma Counts(c: Cluster, i: nat, p: nat, e: Entry, a: AppendArgs) returns (r: Run, s': Server)
    requires Formed(c, 5) && i < 5 && p < 5 && p != i
    requires var s := c.servers[i];
             && s.state == Leader && !s.dead && s.log == [SENTINEL, e]
             && s.commitIndex == s.lastApplied == 0 && s.applied == []
    requires a.leader == i && a.term == c.servers[i].currentTerm && Reach(a) == 2
    requires AppendAnswer(p, a, AppendReply(0, true)) in c.net
    ensures Piece(r) && Keeps(r, true, true, false) && r.states[0] == c && Formed(End(r), 5)
    ensures End(r).servers == c.servers[i := s']
    ensures var s := c.servers[i];
            && s'.state == Leader && !s'.dead && s'.log == s.log && s'.currentTerm == s.currentTerm && s'.me == s.me
            && s'.nextIndex == s.nextIndex[p := 2] && s'.matchIndex == s.matchIndex[p := 1]
            && (if QuorumAt(s'.matchIndex, 1) then s'.applied == [ApplyMsg(1, e.command)]
                else s'.applied == [] && s'.commitIndex == s'.lastApplied == 0)
  {
    var s := c.servers[i];
    s' := AppendReturned(s, p, AppendReply(0, true)).value;
    assert Messages(s.log, 0, 1) == [ApplyMsg(1, e.command)];
    r := OneStep(c, AppendReturns(AppendAnswer(p, a, AppendReply(0, true))), Put(c, i, s', {}));
  }

  /** The exchange with one peer. */
  lemma Replicates5(c: Cluster, i: nat, p: nat, e: Entry) returns (r: Run, f': Server, s': Server)
    requires Behind(c, i, p, e) && c.servers[i].nextIndex[p] == 2
    ensures Piece(r) && Keeps(r, true, true, false) && r.states[0] == c && Formed(End(r), 5)
    ensures Follows(c.servers[p], f', c.servers[i].currentTerm, [SENTINEL, e])
    ensures End(r).servers == c.servers[p := f'][i := s']
    ensures var s := c.servers[i];
            && s'.state == Leader && !s'.dead && s'.log == s.log && s'.currentTerm == s.currentTerm && s'.me == s.me
            && s'.nextIndex == s.nextIndex && s'.matchIndex == s.matchIndex[p := 1]
            && (if QuorumAt(s'.matchIndex, 1) then s'.applied == [ApplyMsg(1, e.command)]
                else s'.applied == [] && s'.commitIndex == s'.lastApplied == 0)
  {
    var r1, f1 := BacksOff(c, i, p, e);
    assert Behind(End(r1), i, p, e);
    var r2, f2, a := Sends(End(r1), i, p, e);
    var r3, s3 := Counts(End(r2), i, p, e, a);
    f', s' := f2, s3;
    assert End(r3).servers == c.servers[p := f'][i := s'];
    JoinPieces(r1, r2, true, true, false);
    JoinPieces(Join(r1, r2), r3, true, true, false);
    r := Join(Join(r1, r2), r3);
  }

  lemma QuorumOfThree(m: seq<nat>, m1: seq<nat>, m2: seq<nat>, m3: seq<nat>)
    requires m == seq(5, _ => 0) && m1 == m[1 := 1] && m2 == m1[2 := 1] && m3 == m2[3 := 1]
    ensures !QuorumAt(m1, 1) && !QuorumAt(m2, 1) && QuorumAt(m3, 1)
  {
    CountFive(m1);
    CountFive(m2);
    CountFive(m3);
  }

  lemma CountFive(m: seq<nat>)
    requires |m| == 5
    ensures CountAtLeast(m, 1) ==
            (if m[0] >= 1 then 1 else 0) + (if m[1] >= 1 then 1 else 0) + (if m[2] >= 1 then 1 else 0)
                                + (if m[3] >= 1 then 1 else 0) + (if m[4] >= 1 then 1 else 0)
  {
    assert m[..4][..3] == m[..3] && m[..3][..2] == m[..2] && m[..2][..1] == m[..1] && m[..1][..0] == [];
    assert CountAtLeast(m[..1], 1) == if m[0] >= 1 then 1 else 0;
    assert CountAtLeast(m[..2], 1) == CountAtLeast(m[..1], 1) + if m[1] >= 1 then 1 else 0;
    assert CountAtLeast(m[..3], 1) == CountAtLeast(m[..2], 1) + if m[2] >= 1 then 1 else 0;
    assert CountAtLeast(m[..4], 1) == CountAtLeast(m[..3], 1) + if m[3] >= 1 then 1 else 0;
  }

  /** A new leader i (0 or 4) that brings its only entry to servers 1, 2 and 3 commits it. */
  lemma CommitsByCopies(c: Cluster, i: nat, e: Entry) returns (r: Run)
    requires (i == 0 || i == 4) && Behind(c, i, 1, e) && Behind(c, i, 2, e) && Behind(c, i, 3, e)
    requires c.servers[i].nextIndex == seq(5, _ => 2) && c.servers[i].matchIndex == seq(5, _ => 0)
    ensures Piece(r) && Keeps(r, true, true, false) && r.states[0] == c && Formed(End(r), 5)
    ensures End(r).servers[i].applied == [ApplyMsg(1, e.command)]
    ensures forall p :: 1 <= p <= 3 ==>
            Follows(c.servers[p], End(r).servers[p], c.servers[i].currentTerm, [SENTINEL, e])
    ensures End(r).servers[4 - i] == c.servers[4 - i]
  {
    var r1, f1, s1 := Replicates5(c, i, 1, e);
    var m := c.servers[i].matchIndex;
    QuorumOfThree(m, m[1 := 1], m[1 := 1][2 := 1], m[1 := 1][2 := 1][3 := 1]);
    assert Behind(End(r1), i, 2, e) && Behind(End(r1), i, 3, e);
    var r2, f2, s2 := Replicates5(End(r1), i, 2, e);
    assert Behind(End(r2), i, 3, e);
    var r3, f3, s3 := Replicates5(End(r2), i, 3, e);
    assert End(r3).servers == c.servers[1 := f1][2 := f2][3 := f3][i := s3];
    JoinPieces(r1, r2, true, true, false);
    JoinPieces(Join(r1, r2), r3, true, true, false);
    r := Join(Join(r1, r2), r3);
  }

  // ------------------------------------------------------------------- the run

  function Start5(): (c: Cluster)
    ensures Init(c, 5) && Formed(c, 5)
  {
    Cluster([InitServer(0, 5), InitServer(1, 5), InitServer(2, 5), InitServer(3, 5), InitServer(4, 5)], {})
  }

  /** A server with only its sentinel, nothing committed, in term t. */
  predicate Blank(s: Server, t: nat) {
    s.log == [SENTINEL] && !s.dead && s.currentTerm == t && s.commitIndex == s.lastApplied == 0 && s.applied == []
  }

  /** A server that holds one entry of its own making and committed nothing. */
  predicate Alone(s: Server, t: nat, e: Entry) {
    s.log == [SENTINEL, e] && !s.dead && s.currentTerm == t && s.commitIndex == s.lastApplied == 0 && s.applied == []
  }

  /** Server 0 leads term 1 with x, server 4 leads term 2 with y, neither replicated. */
  lemma TwoLonelyLeaders(x: Command, y: Command) returns (r: Run)
    ensures Piece(r) && Keeps(r, true, true, true) && r.states[0] == Start5() && Formed(End(r), 5)
    ensures var s := End(r).servers;
            && Alone(s[0], 2, Entry(1, x)) && s[0].state == Follower
            && Alone(s[4], 2, Entry(2, y)) && s[4].state == Leader
            && Blank(s[1], 2) && Blank(s[2], 2) && Blank(s[3], 0)
  {
    var r1, l1 := Elects5(Start5(), 0, 1, 2);
    var r2 := Starts(End(r1), 5, 0, x);
    var r3 := Stands(End(r2), 5, 4);
    var a := NextArgs(End(r3).servers[4]);
    var r4, l4 := Elects5(End(r3), 4, 1, 2);
    var r5 := Adopts(End(r4), 0, a);
    var r6 := Starts(End(r5), 5, 4, y);
    JoinPieces(r1, r2, true, true, true);
    var q2 := Join(r1, r2);
    JoinPieces(q2, r3, true, true, true);
    var q3 := Join(q2, r3);
    JoinPieces(q3, r4, true, true, true);
    var q4 := Join(q3, r4);
    JoinPieces(q4, r5, true, true, true);
    var q5 := Join(q4, r5);
    JoinPieces(q5, r6, true, true, true);
    r := Join(q5, r6);
  }

  /** Server 0 leads term 3 and commits x of term 1 by counting copies. */
  lemma CommitsOldEntry(c: Cluster, x: Command, y: Command) returns (r: Run)
    requires Formed(c, 5)
    requires var s := c.servers;
             && Alone(s[0], 2, Entry(1, x)) && s[0].state == Follower
             && Alone(s[4], 2, Entry(2, y)) && s[4].state == Leader
             && Blank(s[1], 2) && Blank(s[2], 2) && Blank(s[3], 0)
    ensures Piece(r) && Keeps(r, true, true, false) && r.states[0] == c && Formed(End(r), 5)
    ensures var s := End(r).servers;
            && s[0].applied == [ApplyMsg(1, x)] && Alone(s[4], 3, Entry(2, y)) && s[4].state == Follower
            && forall p :: 1 <= p <= 3 ==> Follows(c.servers[p], s[p], 3, [SENTINEL, Entry(1, x)])
  {
    var a := NextArgs(c.servers[0]);
    var r1, l := Elects5(c, 0, 1, 2);
    var r2 := Adopts(End(r1), 4, a);
    var r3 := CommitsByCopies(End(r2), 0, Entry(1, x));
    JoinPieces(r1, r2, true, true, false);
    JoinPieces(Join(r1, r2), r3, true, true, false);
    r := Join(Join(r1, r2), r3);
  }

  /** Server 4 leads term 4 and overwrites x with y everywhere else. */
  lemma Overwrites(c: Cluster, x: Command, y: Command) returns (r: Run)
    requires Formed(c, 5)
    requires var s := c.servers;
             && s[0].applied == [ApplyMsg(1, x)] && Alone(s[4], 3, Entry(2, y)) && s[4].state == Follower
             && forall p :: 1 <= p <= 3 ==> Follows(s[p], s[p], 3, [SENTINEL, Entry(1, x)])
    ensures Piece(r) && Keeps(r, true, true, false) && r.states[0] == c && Formed(End(r), 5)
    ensures End(r).servers[0].applied == [ApplyMsg(1, x)] && End(r).servers[4].applied == [ApplyMsg(1, y)]
  {
    assert Follows(c.servers[1], c.servers[1], 3, [SENTINEL, Entry(1, x)]);
    assert Follows(c.servers[2], c.servers[2], 3, [SENTINEL, Entry(1, x)]);
    assert Follows(c.servers[3], c.servers[3], 3, [SENTINEL, Entry(1, x)]);
    var r1, l := Elects5(c, 4, 1, 2);
    var r2 := CommitsByCopies(End(r1), 4, Entry(2, y));
    JoinPieces(r1, r2, true, true, false);
    r := Join(r1, r2);
  }

  /** Without H3 two servers can apply different commands at index 1, even though H1
      and H2 hold throughout. */
  lemma OldEntryIsOverwritten(x: Command, y: Command) returns (r: Run)
    ensures IsRun(r, 5) && H1(r) && H2(r) && Formed(End(r), 5)
    ensures End(r).servers[0].applied == [ApplyMsg(1, x)] && End(r).servers[4].applied == [ApplyMsg(1, y)]
  {
    var r1 := TwoLonelyLeaders(x, y);
    var r2 := CommitsOldEntry(End(r1), x, y);
    var r3 := Overwrites(End(r2), x, y);
    JoinPieces(r1, r2, true, true, false);
    JoinPieces(Join(r1, r2), r3, true, true, false);
    r := Join(Join(r1, r2), r3);
  }
}
