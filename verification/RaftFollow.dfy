/** Followers learn what their leader has committed. */
module RaftFollow {
  import opened Options
  import opened RaftCore
  import opened RaftCluster
  import opened RaftHistory
  import opened L = RaftLogs
  import opened P = RaftPersistence
  import opened RaftCommit
  import opened RaftApply
  import E = RaftElection
  import Q = RaftQuorum

  /** In step j the live leader i sends a request to p. */
  predicate AsksAt(r: Run, j: nat, i: nat, p: nat) {
    && j < |r.actions| && j + 1 < |r.states| && r.actions[j] == SendHeartBeat(i, p)
    && i < |r.states[j].servers|
    && var s := r.states[j].servers[i]; s.state == Leader && !s.dead
  }

  /** In step k the request a is handled by p, which is alive, not ahead of it in term, and
      accepts its previous entry. */
  predicate AcceptsAt(r: Run, k: nat, p: nat, a: AppendArgs) {
    && k < |r.actions| && k + 1 < |r.states| && r.actions[k] == DeliverAppend(AppendRequest(p, a))
    && p < |r.states[k].servers| == |r.states[k + 1].servers|
    && var f := r.states[k].servers[p];
       !f.dead && f.currentTerm <= a.term && PrefixAccepted(f.log, a)
  }

  /** The peer then has committed what it had or what the leader had, whichever is more,
      and has applied that much. */
  ghost predicate CatchesUp(f: Server, f': Server, c: nat) {
    && f'.commitIndex == (if f.commitIndex < c then c else f.commitIndex)
    && |f'.applied| == f'.commitIndex
    && (c > 0 ==> f'.applied[c - 1].index == c)
  }

  /** Of the request the leader sends: it starts after nextIndex - 1, goes to the end of the
      leader's log, and carries the leader's commit index. */
  lemma RequestSent(r: Run, n: nat, j: nat, i: nat, p: nat) returns (a: AppendArgs)
    requires IsRun(r, n) && AsksAt(r, j, i, p) && KeepsUpTo(r, j)
    ensures AppendRequest(p, a) in r.states[j + 1].net
    ensures r.states[j + 1].net == r.states[j].net + {AppendRequest(p, a)}
    ensures r.states[j + 1].servers == r.states[j].servers
    ensures var s := r.states[j].servers[i];
            && a.term == s.currentTerm && a.leader == i && Reach(a) == |s.log|
            && a.leaderCommit == s.commitIndex < Reach(a)
  {
    RunStreams(r, n, j);
    HistoryStep(r, n, j);
    assert StreamOk(r.states[j].servers[i]);
    a := HeartBeat(r.states[j].servers[i], p).value.value;
  }

  /** What a live server not ahead in term does with a request it accepts. */
  lemma HandlerCatchesUp(f: Server, a: AppendArgs)
    requires StreamOk(f) && !f.dead && f.currentTerm <= a.term && PrefixAccepted(f.log, a) && a.leaderCommit < Reach(a)
    requires AppendEntries(f, a).Done? && StreamOk(AppendEntries(f, a).value.0)
    ensures CatchesUp(f, AppendEntries(f, a).value.0, a.leaderCommit)
  {
    MergeLength(f.log, a);
    var f' := AppendEntries(f, a).value.0;
    if a.leaderCommit > 0 {
      assert f'.applied[a.leaderCommit - 1] == ApplyMsg(a.leaderCommit, f'.log[a.leaderCommit].command);
    }
  }

  lemma AcceptedCatchesUp(r: Run, n: nat, k: nat, p: nat, a: AppendArgs)
    requires IsRun(r, n) && AcceptsAt(r, k, p, a) && KeepsUpTo(r, k + 1) && a.leaderCommit < Reach(a)
    ensures CatchesUp(r.states[k].servers[p], r.states[k + 1].servers[p], a.leaderCommit)
  {
    RunStreams(r, n, k);
    RunStreams(r, n, k + 1);
    HistoryStep(r, n, k);
    assert StreamOk(r.states[k].servers[p]) && StreamOk(r.states[k + 1].servers[p]);
    HandlerCatchesUp(r.states[k].servers[p], a);
  }

  /** The commit index travels: in every run that loses no committed command, for the
      request a leader sends in step j there is one message that enters the network, and
      whoever accepts it later has then committed at least what its leader had committed
      at j, and has applied it. */
  lemma CommitTravels(r: Run, n: nat, j: nat, i: nat, p: nat) returns (a: AppendArgs)
    requires IsRun(r, n) && NoTruncation(r) && AsksAt(r, j, i, p)
    ensures AppendRequest(p, a) in r.states[j + 1].net
    ensures r.states[j + 1].net == r.states[j].net + {AppendRequest(p, a)}
    ensures a.term == r.states[j].servers[i].currentTerm && a.leader == i
    ensures forall k {:trigger AcceptsAt(r, k, p, a)} :: j < k && AcceptsAt(r, k, p, a) ==>
              CatchesUp(r.states[k].servers[p], r.states[k + 1].servers[p], r.states[j].servers[i].commitIndex)
  {
    TruncatesNothing(r, j);
    a := RequestSent(r, n, j, i, p);
    forall k | j < k && AcceptsAt(r, k, p, a)
      ensures CatchesUp(r.states[k].servers[p], r.states[k + 1].servers[p], r.states[j].servers[i].commitIndex)
    {
      TruncatesNothing(r, k + 1);
      AcceptedCatchesUp(r, n, k, p, a);
    }
  }

  /** Under H1 what it has applied at those indices are the leader's own commands. */
  lemma LeadersCommandsApplied(r: Run, n: nat, j: nat, i: nat, p: nat, a: AppendArgs, k: nat, x: nat)
    requires IsRun(r, n) && NoTruncation(r) && H1(r) && AsksAt(r, j, i, p) && j < k && AcceptsAt(r, k, p, a)
    requires a.term == r.states[j].servers[i].currentTerm && Reach(a) == |r.states[j].servers[i].log|
    requires 1 <= x < |r.states[j].servers[i].log| && x <= r.states[k + 1].servers[p].commitIndex
    ensures var f' := r.states[k + 1].servers[p];
            |f'.applied| >= x && f'.applied[x - 1] == ApplyMsg(x, r.states[j].servers[i].log[x].command)
  {
    LeadersPrefix(r, n, j, i, p, a, k);
    ApplyStream(r, n, k + 1, p);
    var f', s := r.states[k + 1].servers[p], r.states[j].servers[i];
    assert f'.log[x] == f'.log[..|s.log|][x];
  }

  lemma LeadersPrefix(r: Run, n: nat, j: nat, i: nat, p: nat, a: AppendArgs, k: nat)
    requires IsRun(r, n) && NoTruncation(r) && H1(r) && AsksAt(r, j, i, p) && j < k && AcceptsAt(r, k, p, a)
    requires a.term == r.states[j].servers[i].currentTerm && Reach(a) == |r.states[j].servers[i].log|
    ensures r.states[j].servers[i].log <= r.states[k + 1].servers[p].log
  {
    P.RunKeeps(r, n, k);
    L.RunKeeps(r, n, j);
    L.LeadStays(r, n, j, k);
    HistoryStep(r, n, k);
    AcceptSucceeds(r.states[k].servers[p], a);
    Q.AppendAckSeen(r.states[k], HistoryAt(r, n, k), n, AppendRequest(p, a), r.states[k + 1]);
    assert ServerLogOk(r.states[j].servers[i], HistoryAt(r, n, j));
    var l := HistoryAt(r, n, k).lead[a.term];
    assert l[..Reach(a)] == r.states[j].servers[i].log;
  }

  lemma AcceptSucceeds(f: Server, a: AppendArgs)
    requires |f.log| > 0 && !f.dead && f.currentTerm <= a.term && PrefixAccepted(f.log, a) && AppendEntries(f, a).Done?
    ensures AppendEntries(f, a).value.1.success
  {
  }
}
