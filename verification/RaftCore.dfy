/** The state of one Raft peer and what each handler does to it, as values
    (mp2/src/raft/raft.go).  A handler body that the program runs under its
    mutex is one function here.  A run-time index error is the outcome Panic.
    The class in RaftNode.dfy holds the same state in fields and is proved to
    compute these functions. */
module RaftCore {
  import opened Options

  datatype Outcome<+T> = Done(value: T) | Panic

  datatype Role = Leader | Candidate | Follower

  /** A client command; Nil is the zero value stored at index 0. */
  datatype Command = Nil | Cmd(payload: string)

  datatype Entry = Entry(term: nat, command: Command)

  const SENTINEL := Entry(0, Nil)

  datatype ApplyMsg = ApplyMsg(index: nat, command: Command)

  datatype VoteArgs = VoteArgs(term: nat, candidate: nat, lastLogIndex: nat, lastLogTerm: nat)

  datatype VoteReply = VoteReply(term: nat, granted: bool)

  datatype AppendArgs = AppendArgs(
    term: nat, leader: nat, prevLogIndex: nat, prevLogTerm: nat,
    entries: seq<Entry>, leaderCommit: nat)

  datatype AppendReply = AppendReply(term: nat, success: bool)

  /** voteNum holds one vote counter per election this server started, keyed by
      the election's term; awaiting holds the (term, peer) pairs whose vote call
      has not returned; applied is the stream sent on the apply channel. */
  datatype Server = Server(
    me: nat,
    dead: bool,
    state: Role,
    currentTerm: nat,
    votedFor: Option<nat>,
    log: seq<Entry>,
    commitIndex: nat,
    lastApplied: nat,
    nextIndex: seq<int>,
    matchIndex: seq<nat>,
    voteNum: map<nat, nat>,
    awaiting: set<(nat, nat)>,
    applied: seq<ApplyMsg>)

  /** A log is never empty: index 0 holds the sentinel. */
  predicate Shaped(s: Server, n: nat) {
    && s.me < n
    && |s.log| > 0
    && s.log[0] == SENTINEL
    && |s.nextIndex| == n
    && |s.matchIndex| == n
  }

  function Last(log: seq<Entry>): Entry
    requires |log| > 0
  {
    log[|log| - 1]
  }

  function InitServer(me: nat, n: nat): Server
    requires me < n
  {
    Server(me, false, Follower, 0, None, [SENTINEL], 0, 0,
           seq(n, _ => 1), seq(n, _ => 0), map[], {}, [])
  }

  function TurnFollower(s: Server, term: nat, vote: Option<nat>): Server {
    s.(state := Follower, currentTerm := term, votedFor := vote)
  }

  // ---------------------------------------------------------------- elections

  /** The election time-out together with the stamping of the vote arguments. */
  function StandForElection(s: Server): (r: (Server, VoteArgs))
    requires |s.log| > 0
  {
    var t := s.currentTerm + 1;
    (s.(state := Candidate, currentTerm := t, votedFor := Some(s.me),
        voteNum := s.voteNum[t := 1],
        awaiting := s.awaiting + (set p | 0 <= p < |s.nextIndex| && p != s.me :: (t, p))),
     VoteArgs(t, s.me, |s.log| - 1, Last(s.log).term))
  }

  /** The candidate's log is at least as up to date as the voter's. */
  predicate UpToDate(log: seq<Entry>, a: VoteArgs)
    requires |log| > 0
  {
    || Last(log).term < a.lastLogTerm
    || (Last(log).term == a.lastLogTerm && |log| - 1 <= a.lastLogIndex)
  }

  predicate RefusesOutright(s: Server, a: VoteArgs) {
    || a.term < s.currentTerm
    || (a.term == s.currentTerm && s.votedFor.Some? && s.votedFor != Some(a.candidate))
  }

  function AdoptTerm(s: Server, term: nat): Server {
    if term > s.currentTerm then TurnFollower(s, term, None) else s
  }

  function RequestVote(s: Server, a: VoteArgs): (r: (Server, VoteReply))
    requires |s.log| > 0
  {
    if s.dead then (s, VoteReply(0, false))
    else if RefusesOutright(s, a) then (s, VoteReply(s.currentTerm, false))
    else
      var s1 := AdoptTerm(s, a.term);
      if (s1.votedFor.None? || s1.votedFor == Some(a.candidate)) && UpToDate(s1.log, a)
      then (s1.(votedFor := Some(a.candidate)), VoteReply(s1.currentTerm, true))
      else (s1, VoteReply(s1.currentTerm, false))
  }

  function TurnLeader(s: Server): Server {
    s.(state := Leader,
       nextIndex := seq(|s.nextIndex|, _ => |s.log|),
       matchIndex := seq(|s.matchIndex|, _ => 0))
  }

  /** A vote reply is counted when the caller is alive, still a candidate, and
      the reply grants the vote without naming a larger term. */
  predicate CountsVote(s: Server, reply: VoteReply) {
    !s.dead && s.state == Candidate && reply.term <= s.currentTerm && reply.granted
  }

  /** The return of the vote call made to peer for the election of the given term. */
  function VoteReturned(s: Server, election: nat, peer: nat, reply: VoteReply): Server {
    var s0 := s.(awaiting := s.awaiting - {(election, peer)});
    if s.dead || s.state != Candidate then s0
    else if reply.term > s.currentTerm then TurnFollower(s0, reply.term, None)
    else if !reply.granted then s0
    else
      var votes := (if election in s.voteNum then s.voteNum[election] else 0) + 1;
      var s1 := s0.(voteNum := s.voteNum[election := votes]);
      if votes > |s.nextIndex| / 2 then TurnLeader(s1) else s1
  }

  // -------------------------------------------------------------- replication

  /** The entry e conflicts with the log at position at. */
  predicate Conflicts(log: seq<Entry>, at: nat, e: Entry) {
    at >= |log| || log[at].term != e.term
  }

  /** The offset of the first entry that conflicts with the log from start on. */
  function FirstConflict(log: seq<Entry>, start: nat, entries: seq<Entry>): (r: Option<nat>)
    ensures r.Some? ==> r.value < |entries| && Conflicts(log, start + r.value, entries[r.value])
    ensures forall j :: 0 <= j < (if r.Some? then r.value else |entries|) ==>
                          !Conflicts(log, start + j, entries[j])
    decreases |entries|
  {
    if entries == [] then None
    else if Conflicts(log, start, entries[0]) then Some(0)
    else
      var rest := FirstConflict(log, start + 1, entries[1..]);
      assert forall j :: 0 < j < |entries| ==> entries[j] == entries[1..][j - 1];
      if rest.None? then None else Some(rest.value + 1)
  }

  /** The log after the entries that follow position prev have been merged in. */
  function Merge(log: seq<Entry>, prev: nat, entries: seq<Entry>): (r: seq<Entry>)
    requires prev < |log|
    ensures prev + 1 <= |r| && r[..prev + 1] == log[..prev + 1]
  {
    var at := FirstConflict(log, prev + 1, entries);
    if at.None? then log
    else
      assert at.value > 0 ==> !Conflicts(log, prev + 1 + (at.value - 1), entries[at.value - 1]);
      log[..prev + 1 + at.value] + entries[at.value..]
  }

  /** The messages for the indices from + 1 .. upto, in order. */
  function Messages(log: seq<Entry>, from: nat, upto: nat): (r: seq<ApplyMsg>)
    requires upto < |log|
  {
    if upto <= from then [] else Messages(log, from, upto - 1) + [ApplyMsg(upto, log[upto].command)]
  }

  function Apply(s: Server): (r: Outcome<Server>)
  {
    if s.lastApplied >= s.commitIndex then Done(s.(lastApplied := s.commitIndex))
    else if s.commitIndex >= |s.log| then Panic
    else Done(s.(applied := s.applied + Messages(s.log, s.lastApplied, s.commitIndex),
                 lastApplied := s.commitIndex))
  }

  function Min(a: nat, b: nat): nat { if a < b then a else b }

  predicate PrefixAccepted(log: seq<Entry>, a: AppendArgs) {
    a.prevLogIndex < |log| && log[a.prevLogIndex].term == a.prevLogTerm
  }

  /** Steps 2 and 3 of the handler: take the larger term, and step down. */
  function HearLeader(s: Server, term: nat): Server {
    var s1 := if term > s.currentTerm then s.(currentTerm := term, votedFor := None) else s;
    if s1.state != Follower then TurnFollower(s1, term, None) else s1
  }

  /** Steps 6 to 8 of the handler: merge the entries, follow the leader's commit
      index, apply what is newly committed. */
  function Accept(s: Server, a: AppendArgs): (r: Outcome<Server>)
    requires PrefixAccepted(s.log, a)
  {
    var log := Merge(s.log, a.prevLogIndex, a.entries);
    var commit := if a.leaderCommit > s.commitIndex then Min(|log|, a.leaderCommit) else s.commitIndex;
    Apply(s.(log := log, commitIndex := commit))
  }

  function AppendEntries(s: Server, a: AppendArgs): (r: Outcome<(Server, AppendReply)>)
    requires |s.log| > 0
  {
    if s.dead then Done((s, AppendReply(0, false)))
    else if a.term < s.currentTerm then Done((s, AppendReply(s.currentTerm, false)))
    else
      var s1 := HearLeader(s, a.term);
      if !PrefixAccepted(s1.log, a) then Done((s1, AppendReply(s1.currentTerm, false)))
      else
        match Accept(s1, a)
        case Panic => Panic
        case Done(s2) => Done((s2, AppendReply(0, true)))
  }

  function Start(s: Server, command: Command): (r: Server)
    requires s.me < |s.matchIndex| == |s.nextIndex|
  {
    if s.state != Leader then s
    else s.(log := s.log + [Entry(s.currentTerm, command)],
            matchIndex := s.matchIndex[s.me := |s.log|],
            nextIndex := s.nextIndex[s.me := |s.log| + 1])
  }

  /** The arguments of the AppendEntries call a leader sends to a peer: always
      the whole suffix of its log from nextIndex on. */
  function HeartBeat(s: Server, peer: nat): (r: Outcome<Option<AppendArgs>>)
    requires peer < |s.nextIndex|
  {
    if s.dead || s.state != Leader then Done(None)
    else
      var next := s.nextIndex[peer];
      if !(1 <= next <= |s.log|) then Panic
      else Done(Some(AppendArgs(s.currentTerm, s.me, next - 1, s.log[next - 1].term,
                                s.log[next..], s.commitIndex)))
  }

  /** How many peers are known to match at least up to index i. */
  function CountAtLeast(matchIndex: seq<nat>, i: nat): (r: nat)
    ensures r <= |matchIndex|
  {
    if matchIndex == [] then 0
    else CountAtLeast(matchIndex[..|matchIndex| - 1], i)
         + (if matchIndex[|matchIndex| - 1] >= i then 1 else 0)
  }

  predicate QuorumAt(matchIndex: seq<nat>, i: nat) {
    CountAtLeast(matchIndex, i) > |matchIndex| / 2
  }

  /** The largest index in (low, i] that a quorum matches, or low if there is none. */
  function HighestQuorum(matchIndex: seq<nat>, low: nat, i: nat): (r: nat)
    ensures r == low || (low < r <= i && QuorumAt(matchIndex, r))
    ensures forall j :: r < j <= i ==> !QuorumAt(matchIndex, j)
    decreases i
  {
    if i <= low then low
    else if QuorumAt(matchIndex, i) then i
    else HighestQuorum(matchIndex, low, i - 1)
  }

  /** The leader's bookkeeping for a successful reply of a peer. */
  function PeerMatched(s: Server, peer: nat): (r: Server)
    requires |s.log| > 0 && peer < |s.nextIndex| == |s.matchIndex|
  {
    var s1 := s.(nextIndex := s.nextIndex[peer := |s.log|],
                 matchIndex := s.matchIndex[peer := |s.log| - 1]);
    s1.(commitIndex := HighestQuorum(s1.matchIndex, s.commitIndex, |s.log| - 1))
  }

  /** A successful append reply is processed by a server that is alive and leads. */
  predicate CountsMatch(s: Server, reply: AppendReply) {
    !s.dead && s.state == Leader && reply.term <= s.currentTerm && reply.success
  }

  /** The return of the AppendEntries call made to peer. */
  function AppendReturned(s: Server, peer: nat, reply: AppendReply): (r: Outcome<Server>)
    requires |s.log| > 0 && peer < |s.nextIndex| == |s.matchIndex|
  {
    if s.dead || s.state != Leader then Done(s)
    else if reply.term > s.currentTerm then Done(TurnFollower(s, reply.term, None))
    else if reply.success then Apply(PeerMatched(s, peer))
    else Done(s.(nextIndex := s.nextIndex[peer := s.nextIndex[peer] - 1]))
  }
}
