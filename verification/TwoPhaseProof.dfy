/** Atomicity of the two-phase commit, over every interleaving. */
module TwoPhaseProof {
  import opened Options
  import opened TxStore
  import opened TwoPhase
  import opened Quorums

  ghost predicate LogGrows(a: Log, b: Log) {
    a.commits <= b.commits && a.aborts <= b.aborts
  }

  // ------------------------------------------------------ while it is at work

  lemma AsksData(s: Net, b: nat, op: Op)
    requires Working(s) && s.client == Idle && b < SERVERS && Operation(op, s.ts)
    ensures Inv(AskData(s, b, op))
  {
    var s' := AskData(s, b, op);
    if b != s.c {
      assert s.out[b] + [Forward(op)] == [Forward(op)];
      assert Working(s');
    } else if s'.client == Idle {
      assert Working(s');
    } else {
      assert Doomed(s');
    }
  }

  /** After a broadcast of an abort everyone is told. */
  lemma TellTells(s: Net, s': Net)
    requires Sized(s) && s.log[s.c].aborts > 0 && s' == Tell(s, AbortMsg)
    ensures Told(s')
  {
    forall i: nat | Participant(s', i) ensures ToldOne(s', i) {
      assert s'.out[i] == s.out[i] + [AbortMsg];
    }
  }

  lemma AbortsMore(s: Net, i: nat)
    requires Sized(s) && i < SERVERS && Told(s)
    ensures Told(Aborts(s, i))
  {
    var s' := Aborts(s, i);
    forall j: nat | Participant(s', j) ensures ToldOne(s', j) {
      assert ToldOne(s, j);
    }
  }

  lemma AsksGiveUp(s: Net)
    requires Working(s) && s.client == Idle
    ensures Doomed(AskGiveUp(s))
  {
    var s' := AskGiveUp(s);
    if Undo(s.stores[s.c], s.ts).Some? {
      TellTells(Aborts(s.(client := Closed, last := GiveUp), s.c), s');
    }
  }

  lemma AsksVotes(s: Net, s': Net)
    requires Working(s) && s.client == Idle
    requires s' == Tell(Voted(s.(client := Waiting, last := Finish, count := 0), s.c, Yes), PrepareMsg)
    ensures Voting(s')
  {
    forall i: nat | Participant(s', i) ensures Stage(s', i) {
      assert s'.out[i] == [PrepareMsg];
    }
    assert Counted(s') == {};
  }

  /** The coordinator's own check failed: it tells everyone and aborts. */
  lemma AsksRefused(s: Net, s1: Net)
    requires Working(s) && s.client == Idle
    requires s1 == Aborts(Voted(s.(client := Waiting, last := Finish, count := 0), s.c, No), s.c)
    ensures Undo(s.stores[s.c], s.ts).None? ==> Doomed(s1)
    ensures Undo(s.stores[s.c], s.ts).Some? ==> Doomed(Tell(s1.(client := Closed), AbortMsg))
    ensures Undo(s.stores[s.c], s.ts).Some? ==> Told(Tell(s1.(client := Closed), AbortMsg))
  {
    var s2 := Tell(s1.(client := Closed), AbortMsg);
    TellTells(s1.(client := Closed), s2);
  }

  lemma DoomedAborts(s: Net)
    requires Doomed(s) && Told(s) && s.last.Finish?
    ensures Doomed(Aborts(s, s.c))
  {
    AbortsMore(s, s.c);
  }

  lemma AsksFinish(s: Net)
    requires Working(s) && s.client == Idle
    ensures Inv(AskFinish(s))
  {
    var s0 := s.(client := Waiting, last := Finish, count := 0);
    if Solvent(s.stores[s.c], s.ts) {
      AsksVotes(s, AskFinish(s));
    } else {
      var s1 := Aborts(Voted(s0, s.c, No), s.c);
      AsksRefused(s, s1);
      if Undo(s.stores[s.c], s.ts).Some? {
        DoomedAborts(Tell(s1.(client := Closed), AbortMsg));
      }
    }
  }

  // ----------------------------------------------------- what a server changes

  /** Only server i's log, messages and replies change. */
  ghost predicate Shape(s: Net, i: nat, s': Net) {
    && Sized(s) && Sized(s') && i < SERVERS && s.out[i] != []
    && s'.c == s.c && s'.ts == s.ts && s'.last == s.last && s'.client == s.client && s'.count == s.count
    && s'.log == s.log[i := s'.log[i]] && s'.out == s.out[i := s.out[i][1..]] && s'.back == s.back[i := s'.back[i]]
    && s.failed <= s'.failed && LogGrows(s.log[i], s'.log[i])
  }

  /** What the message does to the server's log and replies. */
  ghost predicate Effect(s: Net, i: nat, s': Net)
    requires Shape(s, i, s')
  {
    var l, l', b, b' := s.log[i], s'.log[i], s.back[i], s'.back[i];
    match s.out[i][0]
    case Forward(_) => true
    case AbortMsg => l' == l.(aborts := l.aborts + 1) && b' == b
    case CommitMsg => l' == l.(commits := l.commits + 1) && b' == b
    case PrepareMsg =>
      || (l' == l.(vote := Yes) && b' == b + [Ready])
      || (l'.vote == No && l'.aborts > l.aborts && l'.commits == l.commits
          && (b' == b + [Bad] || (b' == b && i in s'.failed)))
  }

  lemma PrepareEffect(s: Net, i: nat, s': Net)
    requires Step(s, Serves(i), s') && s.out[i][0] == PrepareMsg
    ensures Shape(s, i, s') && Effect(s, i, s')
  {
    var s1 := s.(out := s.out[i := s.out[i][1..]]);
    if !Solvent(s.stores[i], s.ts) {
      var s2 := Aborts(Voted(s1, i, No), i);
      assert s2.log == s.log[i := s.log[i].(vote := No, aborts := s.log[i].aborts + 1)];
    }
  }

  lemma ForwardEffect(s: Net, i: nat, s': Net)
    requires Step(s, Serves(i), s') && s.out[i][0].Forward?
    ensures Shape(s, i, s') && Effect(s, i, s')
  {
  }

  lemma ServeEffect(s: Net, i: nat, s': Net)
    requires Step(s, Serves(i), s')
    ensures Shape(s, i, s') && Effect(s, i, s')
  {
    if s.out[i][0] == PrepareMsg {
      PrepareEffect(s, i, s');
    } else if s.out[i][0].Forward? {
      ForwardEffect(s, i, s');
    }
  }

  lemma WorkingServes(s: Net, i: nat, s': Net)
    requires Working(s) && Step(s, Serves(i), s')
    ensures Inv(s')
  {
    var b := s.last.branch;
    assert i == b;
    var (st, outcome) := Attempt(s.stores[i], s.last.op);
    if outcome.Failed? {
      assert s'.back[b] == [Bad];
      assert Doomed(s');
    } else {
      assert s'.back[b] == [Good];
      assert Working(s');
    }
  }

  lemma WorkingCollects(s: Net, i: nat, s': Net)
    requires Working(s) && Step(s, Collects(i), s')
    ensures Working(s')
  {
    assert i == s.last.branch;
  }

  // ----------------------------------------------------------- once it is doomed

  lemma DoomedServes(s: Net, i: nat, s': Net)
    requires Doomed(s) && Step(s, Serves(i), s')
    ensures Doomed(s')
  {
    assert s.out[i][0] == AbortMsg;
    ServeEffect(s, i, s');
    if Told(s) {
      ServeKeepsTold(s, i, s');
    }
  }

  lemma ServeKeepsTold(s: Net, i: nat, s': Net)
    requires Told(s) && Shape(s, i, s') && Effect(s, i, s')
    ensures Told(s')
  {
    forall j: nat | Participant(s', j) ensures ToldOne(s', j) {
      assert ToldOne(s, j);
      if j == i {
        HeadAndTail(s.out[i]);
      }
    }
  }

  lemma DoomedCollects(s: Net, i: nat, s': Net)
    requires Doomed(s) && Step(s, Collects(i), s')
    ensures Doomed(s')
  {
    assert s.back[i][0] == Bad;
    var s0 := s.(back := s.back[i := s.back[i][1..]]);
    var s1 := Aborts(s0, s.c);
    if Undo(s.stores[s.c], s.ts).Some? {
      TellTells(s1.(client := Closed), s');
    }
    if s.last.Data? && s.last.branch != s.c {
      assert s.log[s.last.branch].aborts > 0;
    }
  }

  // ---------------------------------------------------------------- the voting

  /** A stage that is not touched stays as what is known grows. */
  lemma StageStays(s: Net, s': Net, i: nat)
    requires Sized(s) && Sized(s') && Participant(s, i) && s'.c == s.c && Stage(s, i)
    requires s'.out[i] == s.out[i] && s'.back[i] == s.back[i] && s'.log[i] == s.log[i]
    requires s'.log[s.c].commits == s.log[s.c].commits && s.failed <= s'.failed
    requires (AllYes(s) ==> AllYes(s')) && (SomeNo(s) ==> SomeNo(s')) && (Told(s) ==> Told(s'))
    ensures Stage(s', i)
  {
  }

  lemma HeadAndTail<T>(q: seq<T>)
    requires q != []
    ensures multiset(q) == multiset{q[0]} + multiset(q[1..])
    ensures forall x :: x in q <==> x == q[0] || x in q[1..]
  {
    assert q == [q[0]] + q[1..];
  }

  /** Votes are not taken back. */
  lemma NoStays(s: Net, s': Net)
    requires SomeNo(s) && Sized(s') && forall i :: 0 <= i < SERVERS && s.log[i].vote.No? ==> s'.log[i].vote.No?
    ensures SomeNo(s')
  {
    var j :| 0 <= j < SERVERS && s.log[j].vote.No?;
    assert s'.log[j].vote.No?;
  }

  lemma ServesStages(s: Net, i: nat, s': Net)
    requires Voting(s) && Shape(s, i, s') && Effect(s, i, s') && Participant(s, i)
    requires AllYes(s) ==> AllYes(s')
    requires forall j :: 0 <= j < SERVERS && s.log[j].vote.No? ==> s'.log[j].vote.No?
    ensures forall j: nat {:trigger Stage(s', j)} :: Participant(s', j) && j != i ==> Stage(s', j)
    ensures SomeNo(s) ==> SomeNo(s')
    ensures Told(s) ==> Told(s')
  {
    if SomeNo(s) {
      NoStays(s, s');
    }
    if Told(s) {
      ServeKeepsTold(s, i, s');
    }
    forall j: nat | Participant(s', j) && j != i ensures Stage(s', j) {
      assert Stage(s, j);
      StageStays(s, s', j);
    }
  }

  lemma ServesPrepare(s: Net, i: nat, s': Net)
    requires Voting(s) && Shape(s, i, s') && Effect(s, i, s') && Participant(s, i) && s.out[i][0] == PrepareMsg
    ensures Voting(s')
  {
    assert Stage(s, i);
    HeadAndTail(s.out[i]);
    assert s.log[i].vote.Unasked? && s.back[i] == [];
    assert s'.log[i].vote.No? ==> SomeNo(s');
    ServesStages(s, i, s');
    assert Counted(s') == Counted(s);
    assert Stage(s', i);
  }

  lemma ServesRest(s: Net, i: nat, s': Net)
    requires Voting(s) && Shape(s, i, s') && Effect(s, i, s') && Participant(s, i) && s.out[i][0] != PrepareMsg
    ensures Voting(s')
  {
    assert Stage(s, i);
    HeadAndTail(s.out[i]);
    var m := s.out[i][0];
    assert m == AbortMsg || m == CommitMsg;
    assert m == AbortMsg ==> ToldOne(s, i);
    ServesStages(s, i, s');
    assert Counted(s') == Counted(s);
    assert Stage(s', i);
  }

  /** What handling a failure report of server i changes. */
  ghost predicate HearsBad(s: Net, i: nat, s': Net) {
    && Sized(s) && Sized(s') && i < SERVERS && s.back[i] != []
    && s'.c == s.c && s'.ts == s.ts && s'.last == s.last && (s.client != Idle ==> s'.client != Idle)
    && s'.count == s.count && s'.back == s.back[i := s.back[i][1..]] && s.failed <= s'.failed
    && s'.log == s.log[s.c := s.log[s.c].(aborts := s.log[s.c].aborts + 1)]
    && (s'.out == Tell(s, AbortMsg).out || (s'.out == s.out && s.c in s'.failed))
  }

  lemma BadEffect(s: Net, i: nat, s': Net)
    requires Step(s, Collects(i), s') && s.back[i][0] == Bad
    ensures HearsBad(s, i, s')
  {
  }

  /** Everyone has been told, unless the coordinator did not get that far. */
  lemma BadTells(s: Net, i: nat, s': Net)
    requires HearsBad(s, i, s')
    ensures Told(s') || s.c in s'.failed
  {
    if s'.out == Tell(s, AbortMsg).out {
      forall j: nat | Participant(s', j) ensures ToldOne(s', j) {
        assert s'.out[j] == s.out[j] + [AbortMsg];
      }
    }
  }

  lemma BadStage(s: Net, i: nat, s': Net, j: nat)
    requires HearsBad(s, i, s') && Participant(s, i) && Participant(s, j) && Stage(s, j)
    requires s.log[i].vote.No? && (Told(s') || s.c in s'.failed) && SomeNo(s') && s.back[i] == [Bad]
    ensures Stage(s', j)
  {
    assert multiset(s.out[j] + [AbortMsg])[CommitMsg] == multiset(s.out[j])[CommitMsg];
    assert s'.log[j] == s.log[j];
    assert AllYes(s) ==> AllYes(s');
  }

  lemma CollectsBad(s: Net, i: nat, s': Net)
    requires Voting(s) && HearsBad(s, i, s') && Participant(s, i) && s.back[i][0] == Bad
    ensures Voting(s')
  {
    assert Stage(s, i);
    assert s.log[i].vote.No? && s'.log[i].vote.No?;
    BadTells(s, i, s');
    assert Counted(s') == Counted(s);
    forall j: nat | Participant(s', j) ensures Stage(s', j) {
      assert Stage(s, j);
      BadStage(s, i, s', j);
    }
  }

  /** All four READYs counted: everyone voted yes. */
  lemma FourReady(s: Net, q: set<nat>)
    requires Sized(s) && s.log[s.c].vote.Yes? && |q| == NEEDED
    requires forall i :: i in q ==> Participant(s, i) && s.log[i].vote.Yes?
    ensures AllYes(s)
  {
    forall i: nat | i < SERVERS ensures s.log[i].vote.Yes? {
      if i != s.c {
        assert Below(q + {s.c}, SERVERS);
        assert |q + {s.c}| == SERVERS;
        Pigeonhole(q + {s.c}, SERVERS, i);
      }
    }
  }

  /** What counting one READY of server i changes. */
  ghost predicate CountsReady(s: Net, i: nat, s': Net) {
    && Sized(s) && Sized(s') && i < SERVERS && s.back[i] != []
    && s'.c == s.c && s'.ts == s.ts && s'.last == s.last && (s.client != Idle ==> s'.client != Idle)
    && s'.count == s.count + 1 && s'.back == s.back[i := s.back[i][1..]] && s.failed <= s'.failed
    && if s'.count == NEEDED
       then s'.log == s.log[s.c := s.log[s.c].(commits := s.log[s.c].commits + 1)]
            && (s'.out == Tell(s, CommitMsg).out || (s'.out == s.out && s.c in s'.failed))
       else s'.log == s.log && s'.out == s.out && s'.failed == s.failed
  }

  lemma ReadyEffect(s: Net, i: nat, s': Net)
    requires Step(s, Collects(i), s') && s.back[i][0] == Ready
    ensures CountsReady(s, i, s')
  {
  }

  lemma OneMoreReady(s: Net, i: nat, s': Net)
    requires Voting(s) && CountsReady(s, i, s') && Participant(s, i) && s.back[i] == [Ready] && s.log[i].vote.Yes?
    ensures s'.count == |Counted(s')| && s.count < NEEDED
  {
    assert s'.back[i] == [] && i !in Counted(s);
    assert Counted(s') == Counted(s) + {i};
    AtMostFour(s', Counted(s'));
  }

  lemma AtMostFour(s: Net, q: set<nat>)
    requires Sized(s) && forall i :: i in q ==> Participant(s, i)
    ensures |q| <= NEEDED
  {
    assert Below(q + {s.c}, SERVERS);
    BelowSize(q + {s.c}, SERVERS);
  }

  lemma CollectsReady(s: Net, i: nat, s': Net)
    requires Voting(s) && CountsReady(s, i, s') && Participant(s, i) && s.back[i][0] == Ready
    ensures Voting(s')
  {
    assert Stage(s, i);
    OneMoreReady(s, i, s');
    if s'.count == NEEDED {
      FourReady(s', Counted(s'));
    }
    if SomeNo(s) {
      NoStays(s, s');
    }
    forall j: nat | Participant(s', j) ensures Stage(s', j) {
      assert Stage(s, j);
      ReadyStage(s, i, s', j);
    }
  }

  lemma ReadyStage(s: Net, i: nat, s': Net, j: nat)
    requires Voting(s) && CountsReady(s, i, s') && s.back[i] == [Ready] && Participant(s, j) && Stage(s, j)
    requires Participant(s, i) && s.log[i].vote.Yes? && s.count < NEEDED
    requires s'.count == NEEDED ==> AllYes(s')
    requires SomeNo(s) ==> SomeNo(s')
    ensures Stage(s', j)
  {
    assert multiset(s.out[j] + [CommitMsg]) == multiset(s.out[j]) + multiset{CommitMsg};
    assert AllYes(s) ==> AllYes(s');
    if Told(s) {
      forall k: nat | Participant(s', k) ensures ToldOne(s', k) {
        assert ToldOne(s, k);
      }
    }
    assert AbortMsg in s'.out[j] ==> AbortMsg in s.out[j];
    assert ToldOne(s', j) ==> ToldOne(s, j);
  }

  // ---------------------------------------------------------------- every step

  lemma ElsewhereKeeps(s: Net, i: nat, store: Store)
    requires Inv(s) && i < SERVERS
    ensures Inv(s.(stores := s.stores[i := store]))
  {
    var s' := s.(stores := s.stores[i := store]);
    assert AllYes(s') == AllYes(s) && SomeNo(s') == SomeNo(s);
    assert Told(s) ==> Told(s') by {
      if Told(s) {
        forall k: nat | Participant(s', k) ensures ToldOne(s', k) {
          assert ToldOne(s, k);
        }
      }
    }
    if Working(s) {
      assert Working(s');
    } else if Doomed(s) {
      assert Doomed(s');
    } else {
      assert Counted(s') == Counted(s);
      forall j: nat | Participant(s', j) ensures Stage(s', j) {
        assert Stage(s, j);
        StageStays(s, s', j);
      }
      assert Voting(s');
    }
  }

  lemma VotingServes(s: Net, i: nat, s': Net)
    requires Voting(s) && Step(s, Serves(i), s')
    ensures Voting(s')
  {
    assert Participant(s, i);
    ServeEffect(s, i, s');
    if s.out[i][0] == PrepareMsg {
      ServesPrepare(s, i, s');
    } else {
      ServesRest(s, i, s');
    }
  }

  lemma VotingCollects(s: Net, i: nat, s': Net)
    requires Voting(s) && Step(s, Collects(i), s')
    ensures Voting(s')
  {
    assert Participant(s, i) && Stage(s, i);
    if s.back[i][0] == Bad {
      BadEffect(s, i, s');
      CollectsBad(s, i, s');
    } else {
      ReadyEffect(s, i, s');
      CollectsReady(s, i, s');
    }
  }

  lemma StepKeeps(s: Net, a: Action, s': Net)
    requires Inv(s) && Step(s, a, s')
    ensures Inv(s')
  {
    match a
    case Asks(r) =>
      assert Working(s);
      match r {
        case Data(b, op) => AsksData(s, b, op);
        case Finish => AsksFinish(s);
        case GiveUp => AsksGiveUp(s);
      }
    case Serves(i) =>
      if Working(s) {
        WorkingServes(s, i, s');
      } else if Doomed(s) {
        DoomedServes(s, i, s');
      } else {
        VotingServes(s, i, s');
      }
    case Collects(i) =>
      if Working(s) {
        WorkingCollects(s, i, s');
      } else if Doomed(s) {
        DoomedCollects(s, i, s');
      } else {
        VotingCollects(s, i, s');
      }
    case Elsewhere(i, store) => ElsewhereKeeps(s, i, store);
  }

  /** Once the coordinator has sent COMMIT_PREPARE, the voting never ends. */
  lemma VotingStep(s: Net, a: Action, s': Net)
    requires Voting(s) && Step(s, a, s')
    ensures Voting(s')
  {
    match a
    case Asks(_) =>
    case Serves(i) => VotingServes(s, i, s');
    case Collects(i) => VotingCollects(s, i, s');
    case Elsewhere(i, store) => ElsewhereKeeps(s, i, store);
  }

  /** In the voting no operation is asked for, and none is under way. */
  lemma VotingIsDone(s: Net, a: Action, s': Net, i: nat)
    requires Voting(s) && Step(s, a, s') && i < SERVERS
    ensures !a.Asks? && (a == Serves(i) ==> !s.out[i][0].Forward?)
  {
    if a == Serves(i) {
      assert Participant(s, i) && Stage(s, i);
      HeadAndTail(s.out[i]);
    }
  }

  /** A step in which a server calls DoCommit leaves its vote. */
  lemma CommitKeepsVote(s: Net, a: Action, s': Net, i: nat)
    requires Inv(s) && Sized(s') && Step(s, a, s') && i < SERVERS && s'.log[i].commits > s.log[i].commits
    ensures s'.log[i].vote == s.log[i].vote
  {
    match a
    case Asks(r) => AskCommitsNothing(s, r, i);
    case Serves(j) => ServeEffect(s, j, s');
    case Collects(j) => CollectKeepsVotes(s.(back := s.back[j := s.back[j][1..]]), s.back[j][0], i);
    case Elsewhere(_, _) =>
  }

  lemma AskCommitsNothing(s: Net, r: Request, i: nat)
    requires Sized(s) && (r.Data? ==> r.branch < SERVERS) && i < SERVERS
    ensures Ask(s, r).log[i].commits == s.log[i].commits
  {
  }

  lemma CollectKeepsVotes(s: Net, r: Reply, i: nat)
    requires Sized(s) && i < SERVERS
    ensures Collect(s, r).log[i].vote == s.log[i].vote
  {
  }

  lemma {:induction false} RunKeeps(r: Run, k: nat)
    requires IsRun(r) && k <= |r.actions|
    ensures Inv(r.states[k])
  {
    if k == 0 {
      assert Working(r.states[0]);
    } else {
      RunKeeps(r, k - 1);
      assert StepOf(r, k - 1);
      StepKeeps(r.states[k - 1], r.actions[k - 1], r.states[k]);
    }
  }

  // ------------------------------------------------------------------ theorems

  lemma StepLogs(s: Net, a: Action, s': Net, i: nat)
    requires Step(s, a, s') && i < SERVERS
    ensures Sized(s') && LogGrows(s.log[i], s'.log[i])
  {
    match a
    case Asks(_) => AskLogs(s, a.r, i);
    case Serves(j) => ServeEffect(s, j, s');
    case Collects(j) => CollectLogs(s.(back := s.back[j := s.back[j][1..]]), s.back[j][0], i);
    case Elsewhere(_, _) =>
  }

  lemma AskLogs(s: Net, r: Request, i: nat)
    requires Sized(s) && (r.Data? ==> r.branch < SERVERS) && i < SERVERS
    ensures Sized(Ask(s, r)) && LogGrows(s.log[i], Ask(s, r).log[i])
  {
  }

  lemma CollectLogs(s: Net, r: Reply, i: nat)
    requires Sized(s) && i < SERVERS
    ensures Sized(Collect(s, r)) && LogGrows(s.log[i], Collect(s, r).log[i])
  {
  }

  lemma {:induction false} LogsGrow(r: Run, j: nat, k: nat, i: nat)
    requires IsRun(r) && j <= k <= |r.actions| && i < SERVERS
    ensures Sized(r.states[j]) && Sized(r.states[k]) && LogGrows(r.states[j].log[i], r.states[k].log[i])
    decreases k
  {
    RunKeeps(r, j);
    RunKeeps(r, k);
    if j < k {
      LogsGrow(r, j, k - 1, i);
      assert StepOf(r, k - 1);
      StepLogs(r.states[k - 1], r.actions[k - 1], r.states[k], i);
    }
  }

  /** In a state where some server has committed, everyone voted yes and nobody has
      aborted. */
  lemma CommittedState(s: Net, i: nat, j: nat)
    requires Inv(s) && i < SERVERS && j < SERVERS && s.log[i].commits > 0
    ensures s.log[j].vote.Yes? && s.log[j].aborts == 0 && s.log[j].commits <= 1
  {
    assert Voting(s);
    assert Participant(s, i) ==> Stage(s, i);
    assert AllYes(s);
    assert Participant(s, j) ==> Stage(s, j);
  }

  /** Atomicity: if any server ever commits, every server's check had succeeded by
      then, and no server ever aborts, at whatever moment of the run. */
  lemma Atomicity(r: Run, k: nat, i: nat, m: nat, j: nat)
    requires IsRun(r) && k <= |r.actions| && m <= |r.actions| && i < SERVERS && j < SERVERS
    requires Sized(r.states[k]) && r.states[k].log[i].commits > 0
    ensures r.states[k].log[j].vote.Yes?
    ensures Sized(r.states[m]) && r.states[m].log[j].aborts == 0 && r.states[m].log[j].commits <= 1
  {
    var l := if k <= m then m else k;
    LogsGrow(r, k, l, i);
    LogsGrow(r, m, l, j);
    RunKeeps(r, k);
    RunKeeps(r, l);
    CommittedState(r.states[k], i, j);
    CommittedState(r.states[l], i, j);
  }

  /** Nothing is in transit, and no call failed to return. */
  ghost predicate Drained(s: Net) {
    Sized(s) && s.failed == {} && forall i :: 0 <= i < SERVERS ==> s.out[i] == [] && s.back[i] == []
  }

  ghost predicate AllCommitted(s: Net) {
    Sized(s) && forall i :: 0 <= i < SERVERS ==> s.log[i].commits == 1 && s.log[i].aborts == 0 && s.log[i].vote.Yes?
  }

  ghost predicate AllAborted(s: Net) {
    Sized(s) && forall i :: 0 <= i < SERVERS ==> s.log[i].commits == 0 && s.log[i].aborts > 0
  }

  lemma ToldAborts(s: Net)
    requires Told(s) && Drained(s) && forall i :: 0 <= i < SERVERS ==> s.log[i].commits == 0
    ensures AllAborted(s)
  {
    forall i: nat | Participant(s, i) ensures s.log[i].aborts > 0 {
      assert ToldOne(s, i);
    }
  }

  lemma VotedOut(s: Net)
    requires Voting(s) && Drained(s)
    ensures AllCommitted(s) || AllAborted(s)
    ensures AllCommitted(s) <==> AllYes(s)
  {
    forall i: nat | Participant(s, i) ensures !s.log[i].vote.Unasked? && s.log[i].commits == s.log[s.c].commits {
      assert Stage(s, i);
    }
    if AllYes(s) {
      AllCounted(s);
      forall i | 0 <= i < SERVERS ensures s.log[i].aborts == 0 {
        assert Participant(s, i) ==> Stage(s, i);
      }
      assert AllCommitted(s);
    } else {
      var i :| 0 <= i < SERVERS && !s.log[i].vote.Yes?;
      assert Participant(s, i) && Stage(s, i);
      ToldAborts(s);
    }
  }

  lemma AllCounted(s: Net)
    requires Voting(s) && Drained(s) && AllYes(s)
    ensures s.count == NEEDED
  {
    var q := Counted(s);
    forall v: nat | v < SERVERS ensures v in q + {s.c} {
    }
    AtLeastAll(q + {s.c}, SERVERS);
    assert Below(q + {s.c}, SERVERS);
    BelowSize(q + {s.c}, SERVERS);
    assert |q + {s.c}| == |q| + 1;
  }

  /** The client's last request failed on the coordinator's own branch, or waits there
      for good. */
  ghost predicate LocalFailure(s: Net) {
    s.last.Data? && s.last.branch == s.c
  }

  /** When everything in transit has been handled and the client is no longer free to
      ask, all servers have committed, once each, or all have aborted; all have
      committed exactly if every check succeeded.  The exception is an operation that
      failed on the coordinator's own branch: no other server is told. */
  lemma DrainedOutcome(r: Run, k: nat)
    requires IsRun(r) && k <= |r.actions| && Drained(r.states[k]) && r.states[k].client != Idle
    ensures !LocalFailure(r.states[k]) <==> AllCommitted(r.states[k]) || AllAborted(r.states[k])
    ensures AllCommitted(r.states[k]) <==> AllYes(r.states[k])
    ensures LocalFailure(r.states[k]) ==>
              forall i :: 0 <= i < SERVERS && i != r.states[k].c ==> r.states[k].log[i] == Log(Unasked, 0, 0)
  {
    var s := r.states[k];
    RunKeeps(r, k);
    var d := if s.c == 0 then 1 else 0;
    if Voting(s) {
      VotedOut(s);
    } else {
      assert Doomed(s);
      assert s.log[d].vote.Unasked?;
      if !LocalFailure(s) {
        ToldAborts(s);
      }
    }
  }
}
