/** One Raft peer as the program keeps it: fields that its methods update, and
    loops that search, count and apply.  Each method is proved to compute the
    function of the same step in RaftCore. */
module RaftNode {
  import opened Options
  import opened RaftCore

  class Raft {
    const me: nat
    const peers: nat
    var dead: bool
    var state: Role
    var currentTerm: nat
    var votedFor: Option<nat>
    var log: seq<Entry>
    var commitIndex: nat
    var lastApplied: nat
    const nextIndex: array<int>
    const matchIndex: array<nat>
    var voteNum: map<nat, nat>
    var awaiting: set<(nat, nat)>
    var applied: seq<ApplyMsg>

    ghost predicate Valid()
      reads this
    {
      me < peers && nextIndex.Length == peers && matchIndex.Length == peers && |log| > 0
      && (nextIndex as object) != (matchIndex as object)
    }

    ghost function State(): Server
      reads this, nextIndex, matchIndex
    {
      Server(me, dead, state, currentTerm, votedFor, log, commitIndex, lastApplied,
             nextIndex[..], matchIndex[..], voteNum, awaiting, applied)
    }

    constructor Make(peers: nat, me: nat)
      requires me < peers
      ensures Valid() && fresh(nextIndex) && fresh(matchIndex)
      ensures State() == InitServer(me, peers)
    {
      this.me, this.peers := me, peers;
      dead, state, currentTerm, votedFor := false, Follower, 0, None;
      log := [SENTINEL];
      commitIndex, lastApplied := 0, 0;
      nextIndex := new int[peers](_ => 0);
      matchIndex := new nat[peers](_ => 0);
      voteNum, awaiting, applied := map[], {}, [];
      new;
      for i := 0 to peers
        modifies nextIndex
        invariant forall j :: 0 <= j < i ==> nextIndex[j] == 1
      {
        nextIndex[i] := |log|;
      }
      assert nextIndex[..] == seq(peers, _ => 1);
      assert matchIndex[..] == seq(peers, _ => 0);
    }

    method Kill()
      requires Valid()
      modifies this`dead
      ensures Valid() && State() == old(State()).(dead := true)
    {
      dead := true;
    }

    method BecomeFollower(term: nat, vote: Option<nat>)
      requires Valid()
      modifies this`state, this`currentTerm, this`votedFor
      ensures Valid() && State() == TurnFollower(old(State()), term, vote)
    {
      state, currentTerm, votedFor := Follower, term, vote;
    }

    method Timeout() returns (args: VoteArgs)
      requires Valid()
      modifies this
      ensures Valid() && (State(), args) == StandForElection(old(State()))
    {
      state := Candidate;
      currentTerm := currentTerm + 1;
      votedFor := Some(me);
      args := VoteArgs(currentTerm, me, |log| - 1, Last(log).term);
      voteNum := voteNum[currentTerm := 1];
      var calls: set<(nat, nat)> := {};
      for p := 0 to peers
        invariant calls == set q | 0 <= q < p && q != me :: (currentTerm, q)
      {
        if p != me {
          calls := calls + {(currentTerm, p)};
        }
      }
      awaiting := awaiting + calls;
    }

    method HandleRequestVote(args: VoteArgs) returns (reply: VoteReply)
      requires Valid()
      modifies this
      ensures Valid() && (State(), reply) == RequestVote(old(State()), args)
    {
      if dead {
        return VoteReply(0, false);
      }
      if args.term < currentTerm
         || (args.term == currentTerm && votedFor.Some? && votedFor != Some(args.candidate)) {
        return VoteReply(currentTerm, false);
      }
      if args.term > currentTerm {
        currentTerm := args.term;
        votedFor := None;
        if state != Follower {
          BecomeFollower(args.term, None);
        }
      }
      if votedFor.None? || votedFor == Some(args.candidate) {
        if Last(log).term < args.lastLogTerm
           || (Last(log).term == args.lastLogTerm && |log| - 1 <= args.lastLogIndex) {
          votedFor := Some(args.candidate);
          return VoteReply(currentTerm, true);
        }
      }
      return VoteReply(currentTerm, false);
    }

    method BecomeLeader()
      requires Valid()
      modifies this`state, nextIndex, matchIndex
      ensures Valid() && State() == TurnLeader(old(State()))
    {
      state := Leader;
      var len := |log|;
      for i := 0 to peers
        modifies nextIndex, matchIndex
        invariant forall j :: 0 <= j < i ==> nextIndex[j] == len && matchIndex[j] == 0
      {
        nextIndex[i] := len;
        matchIndex[i] := 0;
      }
      assert nextIndex[..] == TurnLeader(old(State())).nextIndex;
      assert matchIndex[..] == TurnLeader(old(State())).matchIndex;
    }

    method HandleVoteReply(election: nat, peer: nat, reply: VoteReply)
      requires Valid()
      modifies this, nextIndex, matchIndex
      ensures Valid() && State() == VoteReturned(old(State()), election, peer, reply)
    {
      awaiting := awaiting - {(election, peer)};
      if dead || state != Candidate {
        return;
      }
      if reply.term > currentTerm {
        BecomeFollower(reply.term, None);
      }
      if reply.granted && state == Candidate {
        var votes := (if election in voteNum then voteNum[election] else 0) + 1;
        voteNum := voteNum[election := votes];
        if votes > peers / 2 {
          BecomeLeader();
        }
      }
    }

    /** The first position at which the log conflicts with the entries. */
    method FindConflict(prev: nat, entries: seq<Entry>) returns (point: Option<nat>)
      requires Valid() && prev < |log|
      ensures point.Some? ==> prev < point.value <= |log|
      ensures point.None? <==> FirstConflict(log, prev + 1, entries).None?
      ensures point.Some? ==> point.value == prev + 1 + FirstConflict(log, prev + 1, entries).value
    {
      for i := 0 to |entries|
        invariant forall j :: 0 <= j < i ==> !Conflicts(log, prev + 1 + j, entries[j])
      {
        var at := prev + 1 + i;
        assert i > 0 ==> !Conflicts(log, prev + 1 + (i - 1), entries[i - 1]);
        if at > |log| - 1 || log[at].term != entries[i].term {
          FirstConflictIs(log, prev + 1, entries, i);
          return Some(at);
        }
      }
      NoConflictIs(log, prev + 1, entries);
      return None;
    }

    method ApplyCommitted() returns (ok: bool)
      requires Valid()
      modifies this`lastApplied, this`applied
      ensures ok <==> Apply(old(State())).Done?
      ensures ok ==> Valid() && State() == Apply(old(State())).value
    {
      var n := commitIndex - lastApplied;
      ghost var from, before := lastApplied, applied;
      while n > 0
        invariant lastApplied == from
        invariant from > commitIndex ==> n < 0 && applied == before
        invariant from <= commitIndex ==> 0 <= n <= commitIndex - from
        invariant from <= commitIndex && n == commitIndex - from ==> applied == before
        invariant from <= commitIndex && n < commitIndex - from ==>
                    commitIndex - n < |log| && applied == before + Messages(log, from, commitIndex - n)
      {
        var k := commitIndex + 1 - n;
        if k >= |log| {
          return false;
        }
        assert Messages(log, from, k) ==
            (if k - 1 == from then [] else Messages(log, from, k - 1)) + [ApplyMsg(k, log[k].command)];
        applied := applied + [ApplyMsg(k, log[k].command)];
        n := n - 1;
      }
      lastApplied := commitIndex;
      return true;
    }

    /** Steps 6 to 8 of the handler. */
    method AcceptEntries(args: AppendArgs) returns (ok: bool)
      requires Valid() && PrefixAccepted(log, args)
      modifies this
      ensures ok <==> Accept(old(State()), args).Done?
      ensures ok ==> Valid() && State() == Accept(old(State()), args).value
    {
      var point := FindConflict(args.prevLogIndex, args.entries);
      if point.Some? {
        log := log[..point.value] + args.entries[point.value - 1 - args.prevLogIndex..];
      }
      assert log == Merge(old(log), args.prevLogIndex, args.entries);
      if args.leaderCommit > commitIndex {
        commitIndex := Min(|log|, args.leaderCommit);
      }
      ok := ApplyCommitted();
    }

    method HandleAppendEntries(args: AppendArgs) returns (ok: bool, reply: AppendReply)
      requires Valid()
      modifies this
      ensures ok <==> AppendEntries(old(State()), args).Done?
      ensures ok ==> Valid() && (State(), reply) == AppendEntries(old(State()), args).value
    {
      if dead {
        return true, AppendReply(0, false);
      }
      if args.term < currentTerm {
        return true, AppendReply(currentTerm, false);
      }
      if args.term > currentTerm {
        currentTerm := args.term;
        votedFor := None;
      }
      if state != Follower {
        BecomeFollower(args.term, None);
      }
      assert State() == HearLeader(old(State()), args.term);
      if |log| - 1 < args.prevLogIndex || log[args.prevLogIndex].term != args.prevLogTerm {
        return true, AppendReply(currentTerm, false);
      }
      ok := AcceptEntries(args);
      reply := AppendReply(0, true);
    }

    method StartCommand(command: Command) returns (index: int, term: int, isLeader: bool)
      requires Valid()
      modifies this`log, nextIndex, matchIndex
      ensures Valid() && State() == Start(old(State()), command)
      ensures isLeader <==> old(state) == Leader
      ensures isLeader ==> index == old(|log|) && term == currentTerm
      ensures !isLeader ==> index == -1 && term == -1
    {
      if state != Leader {
        return -1, -1, false;
      }
      log := log + [Entry(currentTerm, command)];
      matchIndex[me] := |log| - 1;
      nextIndex[me] := |log|;
      return |log| - 1, currentTerm, true;
    }

    method MakeHeartBeat(peer: nat) returns (ok: bool, args: Option<AppendArgs>)
      requires Valid() && peer < peers
      ensures ok <==> HeartBeat(State(), peer).Done?
      ensures ok ==> args == HeartBeat(State(), peer).value
    {
      if dead || state != Leader {
        return true, None;
      }
      var next := nextIndex[peer];
      if next < 1 || next > |log| {
        return false, None;
      }
      return true, Some(AppendArgs(currentTerm, me, next - 1, log[next - 1].term, log[next..], commitIndex));
    }

    /** How many entries of matchIndex are at least i. */
    method CountMatches(i: nat) returns (total: nat)
      requires Valid()
      ensures total == CountAtLeast(matchIndex[..], i)
    {
      total := 0;
      for j := 0 to peers
        invariant total == CountAtLeast(matchIndex[..j], i)
      {
        assert matchIndex[..j + 1][..j] == matchIndex[..j];
        if matchIndex[j] >= i {
          total := total + 1;
        }
      }
      assert matchIndex[..peers] == matchIndex[..];
    }

    method AdvanceCommit()
      requires Valid()
      modifies this`commitIndex
      ensures Valid()
      ensures State() == old(State()).(commitIndex := HighestQuorum(matchIndex[..], old(commitIndex), |log| - 1))
    {
      var i: int := |log| - 1;
      while i > commitIndex
        invariant commitIndex == old(commitIndex)
        invariant i <= |log| - 1
        invariant i >= 0 && HighestQuorum(matchIndex[..], commitIndex, |log| - 1) ==
                  HighestQuorum(matchIndex[..], commitIndex, i)
        decreases i
      {
        var total := CountMatches(i);
        if total > peers / 2 {
          commitIndex := i;
          return;
        }
        i := i - 1;
      }
    }

    method HandleAppendReply(peer: nat, reply: AppendReply) returns (ok: bool)
      requires Valid() && peer < peers
      modifies this, nextIndex, matchIndex
      ensures ok <==> AppendReturned(old(State()), peer, reply).Done?
      ensures ok ==> Valid() && State() == AppendReturned(old(State()), peer, reply).value
    {
      if dead || state != Leader {
        return true;
      }
      if reply.term > currentTerm {
        BecomeFollower(reply.term, None);
        return true;
      }
      if reply.success {
        nextIndex[peer] := |log|;
        matchIndex[peer] := |log| - 1;
        AdvanceCommit();
        assert State() == PeerMatched(old(State()), peer);
        ok := ApplyCommitted();
      } else {
        nextIndex[peer] := nextIndex[peer] - 1;
        ok := true;
      }
    }
  }

  /** The first offset that conflicts is the one FirstConflict finds. */
  lemma {:induction false} FirstConflictIs(log: seq<Entry>, start: nat, entries: seq<Entry>, i: nat)
    requires i < |entries| && Conflicts(log, start + i, entries[i])
    requires forall j :: 0 <= j < i ==> !Conflicts(log, start + j, entries[j])
    ensures FirstConflict(log, start, entries) == Some(i)
  {
    if FirstConflict(log, start, entries) != Some(i) {
      assert false;
    }
  }

  lemma {:induction false} NoConflictIs(log: seq<Entry>, start: nat, entries: seq<Entry>)
    requires forall j :: 0 <= j < |entries| ==> !Conflicts(log, start + j, entries[j])
    ensures FirstConflict(log, start, entries).None?
  {
  }
}
