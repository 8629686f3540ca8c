/** What the client of a transaction hears. */
module TwoPhaseClient {
  import opened Options
  import opened TxStore
  import opened TwoPhase
  import opened TwoPhaseProof

  /** Unless the coordinator's own call did not return, the client has been told the end
      exactly if the coordinator has committed or aborted. */
  predicate ToldEnd(s: Net)
    requires Sized(s)
  {
    s.c !in s.failed ==> (s.client == Closed <==> s.log[s.c].commits > 0 || s.log[s.c].aborts > 0)
  }

  lemma AskTells(s: Net, r: Request)
    requires Working(s) && s.client == Idle && (r.Data? ==> r.branch < SERVERS)
    ensures Sized(Ask(s, r)) && ToldEnd(Ask(s, r))
  {
  }

  lemma CollectTells(s: Net, i: nat, s': Net)
    requires Sized(s) && ToldEnd(s) && Step(s, Collects(i), s')
    ensures Sized(s') && ToldEnd(s')
  {
  }

  /** Serving a participant leaves client and coordinator alone. */
  lemma ServeTells(s: Net, i: nat, s': Net)
    requires Inv(s) && ToldEnd(s) && Step(s, Serves(i), s')
    ensures Sized(s') && ToldEnd(s')
  {
    ServesOther(s, i);
    ServeEffect(s, i, s');
    ServeLeavesClient(s, i, s');
  }

  lemma ServesOther(s: Net, i: nat)
    requires Inv(s) && i < SERVERS && s.out[i] != []
    ensures i != s.c
  {
  }

  /** The two have the same client, and the same of coordinator c. */
  predicate SameFor(s: Net, s': Net, c: nat)
    requires Sized(s) && c < SERVERS
  {
    && Sized(s') && s'.client == s.client && s'.c == s.c && s'.log[c] == s.log[c]
    && (c in s'.failed <==> c in s.failed)
  }

  lemma AbortsElsewhere(s: Net, i: nat, c: nat)
    requires Sized(s) && i < SERVERS && c < SERVERS && i != c
    ensures SameFor(s, Aborts(s, i), c)
  {
  }

  lemma ServeLeavesClient(s: Net, i: nat, s': Net)
    requires Step(s, Serves(i), s') && i != s.c
    ensures SameFor(s, s', s.c)
  {
    var s0 := s.(out := s.out[i := s.out[i][1..]]);
    match s.out[i][0]
    case Forward(op) =>
      var s1 := Reports(s0.(stores := s.stores[i := Attempt(s.stores[i], op).0]), i, Bad);
      AbortsElsewhere(s1, i, s.c);
    case AbortMsg => AbortsElsewhere(s0, i, s.c);
    case PrepareMsg =>
      var s1 := Aborts(Voted(s0, i, No), i);
      AbortsElsewhere(Voted(s0, i, No), i, s.c);
      AbortsElsewhere(Reports(s1, i, Bad), i, s.c);
    case CommitMsg =>
  }

  lemma StepTells(s: Net, a: Action, s': Net)
    requires Inv(s) && ToldEnd(s) && Step(s, a, s')
    ensures Sized(s') && ToldEnd(s')
  {
    match a
    case Asks(r) => AskTells(s, r);
    case Serves(i) => ServeTells(s, i, s');
    case Collects(i) => CollectTells(s, i, s');
    case Elsewhere(_, _) =>
  }

  /** In every run, at every moment, the client knows of the end exactly if there is one. */
  lemma {:induction false} ClientIsTold(r: Run, k: nat)
    requires IsRun(r) && k <= |r.actions|
    ensures Sized(r.states[k]) && ToldEnd(r.states[k])
  {
    if k > 0 {
      ClientIsTold(r, k - 1);
      RunKeeps(r, k - 1);
      assert StepOf(r, k - 1);
      StepTells(r.states[k - 1], r.actions[k - 1], r.states[k]);
    }
  }

  /** An operation on the coordinator's own branch: the client may go on if it was done,
      waits if it must wait for another writer, and is told if it failed. */
  lemma OwnBranchAnswer(s: Net, op: Op, s': Net)
    requires Step(s, Asks(Data(s.c, op)), s') && Perform(s.stores[s.c], op).Some?
    ensures var out := Perform(s.stores[s.c], op).value.1;
            s'.client == if out.Failed? then Closed else if out == Answered(Blocked) then Waiting else Idle
  {
  }

  /** An operation on another branch: that server reports how it went, not before it need
      wait no more, and only a good report lets the client go on. */
  lemma OtherBranchAnswer(s: Net, i: nat, op: Op, s': Net)
    requires Step(s, Serves(i), s') && s.out[i][0] == Forward(op) && Operation(op, s.ts)
    requires Perform(s.stores[i], op).Some?
    ensures |s'.back| == SERVERS && s'.client == s.client
    ensures s'.back[i] == s.back[i] + [if Perform(s.stores[i], op).value.1.Failed? then Bad else Good]
    ensures Perform(s.stores[i], op).value.1 != Answered(Blocked)
  {
  }

  lemma GoodReport(s: Net, i: nat, s': Net)
    requires Step(s, Collects(i), s') && s.back[i][0] == Good && s.client == Waiting
    ensures s'.client == Idle && s'.log == s.log && s'.stores == s.stores
  {
  }
}
