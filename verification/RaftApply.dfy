/** The apply stream of every run, and when the append handler runs past its log. */
module RaftApply {
  import opened Options
  import opened RaftCore
  import opened RaftCluster
  import opened RaftHistory
  import opened L = RaftLogs
  import opened P = RaftPersistence
  import opened RaftCommit
  import E = RaftElection

  // ------------------------------------------------------------ what is promised

  /** The server has applied the indices 1 .. commitIndex, each once and in order, and
      they are entries of its log. */
  ghost predicate StreamOk(s: Server) {
    && |s.applied| == s.lastApplied == s.commitIndex < |s.log|
    && forall i :: 0 <= i < |s.applied| ==> s.applied[i] == ApplyMsg(i + 1, s.log[i + 1].command)
  }

  ghost predicate StreamsOk(c: Cluster) {
    forall x {:trigger c.servers[x]} :: 0 <= x < |c.servers| ==> StreamOk(c.servers[x])
  }

  ghost predicate Kept(log: seq<Entry>, ci: nat, log': seq<Entry>) {
    forall i :: 1 <= i <= ci && i < |log| ==> i < |log'| && log'[i].command == log[i].command
  }

  /** No command at or below the commit index is lost or replaced. */
  ghost predicate KeepsCommands(s: Server, s': Server) {
    Kept(s.log, s.commitIndex, s'.log)
  }

  /** Nothing at or below the commit index is truncated. */
  ghost predicate KeepsCommitted(s: Server, s': Server) {
    forall i :: 1 <= i <= s.commitIndex && i < |s.log| ==> i < |s'.log| && s'.log[i] == s.log[i]
  }

  ghost predicate StepKeepsCommands(c: Cluster, c': Cluster) {
    forall x {:trigger c.servers[x]} :: 0 <= x < |c.servers| && x < |c'.servers| ==>
                                          KeepsCommands(c.servers[x], c'.servers[x])
  }

  ghost predicate StepKeepsCommitted(c: Cluster, c': Cluster) {
    forall x {:trigger c.servers[x]} :: 0 <= x < |c.servers| && x < |c'.servers| ==>
                                          KeepsCommitted(c.servers[x], c'.servers[x])
  }

  /** In the first k steps of the run no committed command is lost or replaced. */
  ghost predicate KeepsUpTo(r: Run, k: nat) {
    forall j :: 0 <= j < k && j + 1 < |r.states| ==> StepKeepsCommands(r.states[j], r.states[j + 1])
  }

  /** No step of the run truncates a log at or below its commit index. */
  ghost predicate NoTruncation(r: Run) {
    forall j :: 0 <= j && j + 1 < |r.states| ==> StepKeepsCommitted(r.states[j], r.states[j + 1])
  }

  // ------------------------------------------------------------------ the handler

  /** Merging leaves at least what the message reaches. */
  lemma MergeLength(log: seq<Entry>, a: AppendArgs)
    requires a.prevLogIndex < |log|
    ensures |Merge(log, a.prevLogIndex, a.entries)| >= Reach(a)
  {
    var at := FirstConflict(log, a.prevLogIndex + 1, a.entries);
    var d := if at.Some? then at.value else |a.entries|;
    if d > 0 {
      assert !Conflicts(log, a.prevLogIndex + 1 + (d - 1), a.entries[d - 1]);
    }
    MergeKeepsAgreeing(log, a, d);
  }

  /** The handler gets as far as merging. */
  predicate Merges(s: Server, a: AppendArgs) {
    !s.dead && s.currentTerm <= a.term && PrefixAccepted(s.log, a)
  }

  /** The append handler panics exactly when it merges and the commit index it then has
      is past the merged log and not yet applied; adopting the leader's commit index it
      bounds that by the log's length, which is one too many. */
  lemma AppendPanicsIff(s: Server, a: AppendArgs)
    requires |s.log| > 0
    ensures AppendEntries(s, a).Panic? <==>
              && Merges(s, a)
              && var length := |Merge(s.log, a.prevLogIndex, a.entries)|;
                 if a.leaderCommit > s.commitIndex then s.lastApplied < length <= a.leaderCommit
                 else s.lastApplied < s.commitIndex && length <= s.commitIndex
  {
  }

  /** Only sending the whole suffix of the log makes that safe: a fresh follower handed
      fewer entries than the leader has committed always panics. */
  lemma FreshFollowerPanicsIff(v: nat, n: nat, a: AppendArgs)
    requires v < n && a.prevLogIndex == 0 && a.prevLogTerm == 0
    ensures AppendEntries(InitServer(v, n), a).Panic? <==> Reach(a) <= a.leaderCommit
  {
    var s := InitServer(v, n);
    AppendPanicsIff(s, a);
    FreshMerge(a.entries);
  }

  lemma FreshMerge(entries: seq<Entry>)
    ensures Merge([SENTINEL], 0, entries) == [SENTINEL] + entries
  {
    if entries != [] {
      assert Conflicts([SENTINEL], 1, entries[0]);
      assert entries[0..] == entries;
    }
  }

  /** Applying ends with lastApplied at the commit index, and sends the messages between,
      in order, behind what was sent before; it needs the log only for those. */
  lemma ApplyIs(s: Server)
    ensures Apply(s).Panic? <==> s.lastApplied < s.commitIndex && |s.log| <= s.commitIndex
    ensures Apply(s).Done? ==>
              var s', n := Apply(s).value, |s.applied|;
              && s'.lastApplied == s.commitIndex && s' == s.(lastApplied := s'.lastApplied, applied := s'.applied)
              && s.applied <= s'.applied
              && |s'.applied| == n + (if s.lastApplied < s.commitIndex then s.commitIndex - s.lastApplied else 0)
              && forall k :: n <= k < |s'.applied| ==>
                   var i := s.lastApplied + 1 + (k - n);
                   i < |s.log| && s'.applied[k] == ApplyMsg(i, s.log[i].command)
  {
    if s.lastApplied < s.commitIndex < |s.log| {
      MessagesAre(s.log, s.lastApplied, s.commitIndex);
    }
  }

  /** Applying a commit index that lies within the log and is not lowered. */
  lemma ApplyStreams(s: Server, t: Server)
    requires StreamOk(s) && KeepsCommands(s, t)
    requires t.applied == s.applied && t.lastApplied == s.lastApplied && s.commitIndex <= t.commitIndex < |t.log|
    ensures Apply(t).Done? && StreamOk(Apply(t).value)
  {
    MessagesAre(t.log, s.commitIndex, t.commitIndex);
  }

  /** A request that carries a commit index below what it reaches is handled. */
  lemma AppendDone(s: Server, a: AppendArgs)
    requires StreamOk(s) && a.leaderCommit < Reach(a)
    ensures AppendEntries(s, a).Done?
  {
    AppendPanicsIff(s, a);
    if Merges(s, a) {
      MergeLength(s.log, a);
    }
  }

  lemma AppendStreams(s: Server, a: AppendArgs)
    requires StreamOk(s) && a.leaderCommit < Reach(a) && AppendEntries(s, a).Done?
    requires KeepsCommands(s, AppendEntries(s, a).value.0)
    ensures StreamOk(AppendEntries(s, a).value.0)
  {
    if Merges(s, a) {
      var t := HearLeader(s, a.term);
      assert Accept(t, a).Done? && AppendEntries(s, a).value.0 == Accept(t, a).value;
      AcceptStreams(t, a);
    }
  }

  lemma AcceptStreams(s: Server, a: AppendArgs)
    requires StreamOk(s) && a.leaderCommit < Reach(a) && PrefixAccepted(s.log, a) && Accept(s, a).Done?
    requires KeepsCommands(s, Accept(s, a).value)
    ensures StreamOk(Accept(s, a).value)
  {
    var log := Merge(s.log, a.prevLogIndex, a.entries);
    MergeLength(s.log, a);
    var t := s.(log := log, commitIndex := CommitOf(s, a, log));
    assert Accept(s, a) == Apply(t) && Apply(t).value.log == log;
    if s.commitIndex > 0 {
      assert s.log[s.commitIndex].command == Accept(s, a).value.log[s.commitIndex].command;
    }
    ApplyStreams(s, t);
  }

  lemma ReturnStreams(s: Server, peer: nat, reply: AppendReply)
    requires StreamOk(s) && peer < |s.nextIndex| == |s.matchIndex|
    ensures AppendReturned(s, peer, reply).Done? && StreamOk(AppendReturned(s, peer, reply).value)
  {
    if CountsMatch(s, reply) {
      ApplyStreams(s, PeerMatched(s, peer));
    }
  }

  // --------------------------------------------------------------- every step

  /** The leader always sends its whole suffix, so what a request reaches is the length
      of a log that holds everything its sender had committed. */
  ghost predicate RequestsWhole(net: set<Message>) {
    forall m :: m in net && m.AppendRequest? ==> m.append.leaderCommit < Reach(m.append)
  }

  ghost predicate ApplyInv(c: Cluster, n: nat) {
    Formed(c, n) && StreamsOk(c) && RequestsWhole(c.net)
  }

  lemma OneStreams(c: Cluster, n: nat, i: nat, s': Server, sent: set<Message>)
    requires ApplyInv(c, n) && i < n && Shaped(s', n) && s'.me == i && StreamOk(s') && RequestsWhole(sent)
    ensures ApplyInv(Put(c, i, s', sent), n)
  {
  }

  /** The server changes neither its commit state nor what its log holds. */
  predicate Idle(s: Server, s': Server, n: nat) {
    && s'.commitIndex == s.commitIndex && s'.lastApplied == s.lastApplied && s'.applied == s.applied
    && s.log <= s'.log && Shaped(s', n) && s'.me == s.me
  }

  lemma IdleStreams(c: Cluster, n: nat, i: nat, s': Server, sent: set<Message>)
    requires ApplyInv(c, n) && i < n && Idle(c.servers[i], s', n) && RequestsWhole(sent)
    ensures ApplyInv(Put(c, i, s', sent), n)
  {
    assert StreamOk(c.servers[i]);
    OneStreams(c, n, i, s', sent);
  }

  lemma IdleSteps(c: Cluster, n: nat, a: Action, c': Cluster)
    requires ApplyInv(c, n) && Step(c, a, c') && !a.DeliverAppend? && !a.AppendReturns?
    ensures ApplyInv(c', n)
  {
    var i := Place(a);
    var s, s' := c.servers[i], c'.servers[i];
    match a
    case Timeout(_) =>
      var (_, v) := StandForElection(s);
      IdleStreams(c, n, i, s', set p | 0 <= p < n && p != i :: VoteRequest(p, v));
    case DeliverVote(m) => IdleStreams(c, n, i, s', {VoteAnswer(m.to, m.vote, RequestVote(s, m.vote).1)});
    case SendHeartBeat(_, p) => SendStreams(c, n, i, p, c');
    case _ => IdleStreams(c, n, i, s', {});
  }

  lemma SendStreams(c: Cluster, n: nat, i: nat, p: nat, c': Cluster)
    requires ApplyInv(c, n) && i < n && p < n && SendHeartBeatStep(c, i, p, c')
    ensures ApplyInv(c', n)
  {
    var r := HeartBeat(c.servers[i], p).value;
    if r.Some? {
      assert StreamOk(c.servers[i]) && Reach(r.value) == |c.servers[i].log|;
      IdleStreams(c, n, i, c.servers[i], {AppendRequest(p, r.value)});
    }
  }

  lemma StepStreams(c: Cluster, n: nat, a: Action, c': Cluster)
    requires ApplyInv(c, n) && Step(c, a, c') && StepKeepsCommands(c, c')
    ensures ApplyInv(c', n)
  {
    var i := Place(a);
    var s, s' := c.servers[i], c'.servers[i];
    assert StreamOk(s) && KeepsCommands(s, s');
    match a
    case DeliverAppend(m) =>
      AppendStreams(s, m.append);
      E.AppendKeepsShape(s, m.append, n);
      OneStreams(c, n, i, s', {AppendAnswer(m.to, m.append, AppendEntries(s, m.append).value.1)});
    case AppendReturns(m) =>
      ReturnStreams(s, m.from, m.appendReply);
      OneStreams(c, n, i, s', {});
    case _ => IdleSteps(c, n, a, c');
  }

  lemma InitStreams(c: Cluster, n: nat)
    requires Init(c, n)
    ensures ApplyInv(c, n)
  {
  }

  // --------------------------------------------------------------- every run

  lemma {:induction false} RunStreams(r: Run, n: nat, k: nat)
    requires IsRun(r, n) && k < |r.states| && KeepsUpTo(r, k)
    ensures ApplyInv(r.states[k], n)
  {
    if k == 0 {
      InitStreams(r.states[0], n);
    } else {
      RunStreams(r, n, k - 1);
      HistoryStep(r, n, k - 1);
      assert StepKeepsCommands(r.states[k - 1], r.states[k - 1 + 1]);
      StepStreams(r.states[k - 1], n, r.actions[k - 1], r.states[k]);
    }
  }

  /** What was applied stays, so a step between two moments with such streams keeps the
      commands below the commit index. */
  lemma StreamsKeep(s: Server, s': Server)
    requires StreamOk(s) && StreamOk(s') && s.applied <= s'.applied
    ensures KeepsCommands(s, s')
  {
    forall i | 1 <= i <= s.commitIndex && i < |s.log| ensures i < |s'.log| && s'.log[i].command == s.log[i].command {
      assert s.applied[i - 1] == s'.applied[i - 1];
    }
  }

  /** The apply stream, exactly: in every run, whatever was lost, delayed or miscounted,
      at all moments up to k every server has applied precisely the indices 1 ..
      commitIndex, once each, in order, in bounds and as in its log, if and only if no
      step up to k lost or replaced a command at or below a commit index. */
  lemma ApplyStreamIff(r: Run, n: nat, k: nat)
    requires IsRun(r, n) && k < |r.states|
    ensures (forall j :: 0 <= j <= k ==> StreamsOk(r.states[j])) <==> KeepsUpTo(r, k)
  {
    if KeepsUpTo(r, k) {
      forall j | 0 <= j <= k ensures StreamsOk(r.states[j]) {
        RunStreams(r, n, j);
      }
    }
    if forall j :: 0 <= j <= k ==> StreamsOk(r.states[j]) {
      forall j | 0 <= j < k && j + 1 < |r.states| ensures StepKeepsCommands(r.states[j], r.states[j + 1]) {
        assert StreamsOk(r.states[j]) && StreamsOk(r.states[j + 1]);
        StreamsKeepStep(r, n, j);
      }
    }
  }

  lemma StreamsKeepStep(r: Run, n: nat, j: nat)
    requires IsRun(r, n) && j + 1 < |r.states| && StreamsOk(r.states[j]) && StreamsOk(r.states[j + 1])
    ensures StepKeepsCommands(r.states[j], r.states[j + 1])
  {
    forall x | 0 <= x < |r.states[j].servers| && x < |r.states[j + 1].servers|
      ensures KeepsCommands(r.states[j].servers[x], r.states[j + 1].servers[x])
    {
      RunStepGrows(r, n, j, x);
      assert StreamOk(r.states[j].servers[x]) && StreamOk(r.states[j + 1].servers[x]);
      StreamsKeep(r.states[j].servers[x], r.states[j + 1].servers[x]);
    }
  }

  lemma EntriesHoldCommands(s: Server, s': Server)
    requires KeepsCommitted(s, s')
    ensures KeepsCommands(s, s')
  {
    forall i | 1 <= i <= s.commitIndex && i < |s.log| ensures i < |s'.log| && s'.log[i].command == s.log[i].command {
      assert s.log[i] == s.log[i];
    }
  }

  lemma TruncatesNothing(r: Run, k: nat)
    requires NoTruncation(r)
    ensures KeepsUpTo(r, k)
  {
    forall j | 0 <= j < k && j + 1 < |r.states| ensures StepKeepsCommands(r.states[j], r.states[j + 1]) {
      assert StepKeepsCommitted(r.states[j], r.states[j + 1]);
      forall x | 0 <= x < |r.states[j].servers| && x < |r.states[j + 1].servers|
        ensures KeepsCommands(r.states[j].servers[x], r.states[j + 1].servers[x])
      {
        EntriesHoldCommands(r.states[j].servers[x], r.states[j + 1].servers[x]);
      }
    }
  }

  /** In every run in which no log is truncated at or below its commit index, with none
      of H1, H2 and H3, at every moment each server has applied exactly the indices
      1 .. commitIndex, each once and in order, and they are entries of its log. */
  lemma ApplyStream(r: Run, n: nat, k: nat, x: nat)
    requires IsRun(r, n) && NoTruncation(r) && k < |r.states| && x < |r.states[k].servers|
    ensures var s := r.states[k].servers[x];
            && |s.applied| == s.lastApplied == s.commitIndex < |s.log|
            && forall i :: 0 <= i < |s.applied| ==> s.applied[i] == ApplyMsg(i + 1, s.log[i + 1].command)
  {
    TruncatesNothing(r, k);
    RunStreams(r, n, k);
    assert StreamOk(r.states[k].servers[x]);
  }

  /** In such a run no delivery of a request in transit panics, whatever it truncates. */
  lemma DeliveryNeverPanics(r: Run, n: nat, k: nat, m: Message)
    requires IsRun(r, n) && KeepsUpTo(r, k) && k < |r.states|
    requires m in r.states[k].net && m.AppendRequest? && m.to < |r.states[k].servers|
    ensures |r.states[k].servers[m.to].log| > 0 && AppendEntries(r.states[k].servers[m.to], m.append).Done?
  {
    RunStreams(r, n, k);
    assert StreamOk(r.states[k].servers[m.to]);
    AppendDone(r.states[k].servers[m.to], m.append);
  }

  lemma StepFormed(c: Cluster, n: nat, a: Action, c': Cluster)
    requires Formed(c, n) && Step(c, a, c')
    ensures Formed(c', n)
  {
    if a.DeliverAppend? {
      E.AppendKeepsShape(c.servers[a.m.to], a.m.append, n);
    }
  }

  lemma {:induction false} RunFormed(r: Run, n: nat, k: nat)
    requires IsRun(r, n) && k < |r.states|
    ensures Formed(r.states[k], n)
  {
    if k == 0 {
      InitStreams(r.states[0], n);
    } else {
      RunFormed(r, n, k - 1);
      HistoryStep(r, n, k - 1);
      StepFormed(r.states[k - 1], n, r.actions[k - 1], r.states[k]);
    }
  }

  // ---------------------------------------------------- runs that satisfy H1 to H3

  lemma OneKept(c: Cluster, i: nat, s': Server, c': Cluster)
    requires i < |c.servers| && c'.servers == c.servers[i := s'] && KeepsCommitted(c.servers[i], s')
    ensures StepKeepsCommitted(c, c')
  {
  }

  lemma GrowthKeeps(s: Server, s': Server)
    requires s.log <= s'.log
    ensures KeepsCommitted(s, s')
  {
  }

  lemma LogGrows(c: Cluster, a: Action, c': Cluster)
    requires Step(c, a, c') && !a.DeliverAppend?
    ensures var i := Place(a);
            |c'.servers| == |c.servers| && c'.servers == c.servers[i := c'.servers[i]]
            && c.servers[i].log <= c'.servers[i].log
  {
  }

  lemma HandlerLog(s: Server, a: AppendArgs)
    requires |s.log| > 0 && AppendEntries(s, a).Done?
    ensures AppendEntries(s, a).value.0.log
         == if Merges(s, a) then Merge(s.log, a.prevLogIndex, a.entries) else s.log
  {
  }

  lemma HandlerKeeps(c: Cluster, h: History, n: nat, s: Server, a: AppendArgs)
    requires PersistInv(c, h) && |c.servers| == n && LeadOk(h) && ServerLogOk(s, h) && CommitOk(s, h, n)
    requires AppendOk(a, h.lead) && AppendEntries(s, a).Done?
    ensures KeepsCommitted(s, AppendEntries(s, a).value.0)
  {
    var s' := AppendEntries(s, a).value.0;
    HandlerLog(s, a);
    if Merges(s, a) {
      CommittedKept(c, h, n, s, a);
      PrefixKeeps(s, s');
    } else {
      GrowthKeeps(s, s');
    }
  }

  lemma PrefixKeeps(s: Server, s': Server)
    requires s.commitIndex < |s.log| && s.commitIndex < |s'.log|
    requires s'.log[..s.commitIndex + 1] == s.log[..s.commitIndex + 1]
    ensures KeepsCommitted(s, s')
  {
    forall i | 1 <= i <= s.commitIndex && i < |s.log| ensures i < |s'.log| && s'.log[i] == s.log[i] {
      assert s'.log[i] == s'.log[..s.commitIndex + 1][i];
    }
  }

  /** Under H1, H2 and H3 no step truncates what a server has committed. */
  lemma StepTruncatesNothing(c: Cluster, h: History, n: nat, a: Action, c': Cluster)
    requires FullInv(c, h, n) && Step(c, a, c')
    ensures StepKeepsCommitted(c, c')
  {
    var i := Place(a);
    if a.DeliverAppend? {
      assert MessageLogOk(a.m, h) && ServerLogOk(c.servers[i], h) && CommitOk(c.servers[i], h, n);
      HandlerKeeps(c, h, n, c.servers[i], a.m.append);
    } else {
      LogGrows(c, a, c');
      GrowthKeeps(c.servers[i], c'.servers[i]);
    }
    OneKept(c, i, c'.servers[i], c');
  }

  lemma SafeRunTruncatesNothing(r: Run, n: nat)
    requires IsRun(r, n) && H1(r) && H2(r) && H3(r)
    ensures NoTruncation(r)
  {
    forall j | 0 <= j && j + 1 < |r.states| ensures StepKeepsCommitted(r.states[j], r.states[j + 1]) {
      RunKeepsFull(r, n, j);
      HistoryStep(r, n, j);
      StepTruncatesNothing(r.states[j], HistoryAt(r, n, j), n, r.actions[j], r.states[j + 1]);
    }
  }

  /** So under H1, H2 and H3 the stream is as promised and no delivery panics. */
  lemma SafeRunApplies(r: Run, n: nat, k: nat)
    requires IsRun(r, n) && H1(r) && H2(r) && H3(r) && k < |r.states|
    ensures StreamsOk(r.states[k])
    ensures forall m :: m in r.states[k].net && m.AppendRequest? && m.to < |r.states[k].servers| ==>
              && |r.states[k].servers[m.to].log| > 0
              && AppendEntries(r.states[k].servers[m.to], m.append).Done?
  {
    SafeRunTruncatesNothing(r, n);
    TruncatesNothing(r, k);
    RunStreams(r, n, k);
    forall m | m in r.states[k].net && m.AppendRequest? && m.to < |r.states[k].servers|
      ensures |r.states[k].servers[m.to].log| > 0 && AppendEntries(r.states[k].servers[m.to], m.append).Done?
    {
      DeliveryNeverPanics(r, n, k, m);
    }
  }
}
