/** A failure on the coordinator's own branch leaves the others' writes pending. */
module TwoPhaseLimits {
  import opened Options
  import opened TxStore
  import opened TwoPhase
  import opened TwoPhaseProof

  /** Five empty servers; 0 coordinates transaction 1. */
  function Fresh(): (s: Net)
    ensures Init(s)
  {
    Net(0, 1, seq(SERVERS, _ => EMPTY), seq(SERVERS, _ => Log(Unasked, 0, 0)),
        seq(SERVERS, _ => []), seq(SERVERS, _ => []),
        0, Idle, GiveUp, {})
  }

  function Opening(): Store {
    Store(map["A" := Account(0, 0, 1)], map["A" := [Entry(1, 5)]], map[])
  }

  lemma OpensA()
    ensures Attempt(EMPTY, Write(1, "A", true, 5)) == (Opening(), Accepted)
  {
  }

  /** A deposit on branch 1 is forwarded, accepted and reported. */
  lemma DepositElsewhere(s0: Net, s1: Net, s2: Net, s3: Net)
    requires s0 == Fresh() && s1 == Ask(s0, Data(1, Write(1, "A", true, 5)))
    requires s2 == s1.(out := s1.out[1 := []], stores := s1.stores[1 := Opening()], back := s1.back[1 := [Good]])
    requires s3 == s2.(back := s2.back[1 := []], client := Idle)
    ensures Step(s0, Asks(Data(1, Write(1, "A", true, 5))), s1) && Step(s1, Serves(1), s2) && Step(s2, Collects(1), s3)
  {
    var w := Write(1, "A", true, 5);
    assert s1.out[1] == [Forward(w)] && s1.out[1][1..] == [];
    OpensA();
    assert [] + [Good] == [Good];
    assert s2.back[1][1..] == [];
  }

  /** A reading of a missing account on the coordinator's branch fails. */
  lemma ReadingHere(s3: Net, s4: Net)
    requires Sized(s3) && s3.c == 0 && s3.ts == 1 && s3.client == Idle && s3.stores[0] == EMPTY
    requires s4 == Ask(s3, Data(0, Read(1, "B")))
    ensures Step(s3, Asks(Data(0, Read(1, "B"))), s4)
    ensures s4.client == Closed && s4.failed == s3.failed && s4.out == s3.out && s4.back == s3.back
            && s4.last == Data(0, Read(1, "B"))
    ensures s4.log == s3.log[0 := s3.log[0].(aborts := s3.log[0].aborts + 1)] && s4.stores[1] == s3.stores[1]
  {
    assert Undo(EMPTY, 1).Some?;
  }

  /** With everything handled and the client gone, server 1 still holds the tentative
      write, and has been told nothing. */
  lemma LocalFailureIsReached() returns (r: Run)
    ensures IsRun(r) && |r.actions| == 4
    ensures var s := r.states[4];
            && Drained(s) && s.client == Closed && LocalFailure(s)
            && s.log[0] == Log(Unasked, 0, 1) && s.log[1] == Log(Unasked, 0, 0) && Wrote(Entries(s.stores[1], "A"), 1)
  {
    var s0 := Fresh();
    var s1 := Ask(s0, Data(1, Write(1, "A", true, 5)));
    var s2 := s1.(out := s1.out[1 := []], stores := s1.stores[1 := Opening()], back := s1.back[1 := [Good]]);
    var s3 := s2.(back := s2.back[1 := []], client := Idle);
    var s4 := Ask(s3, Data(0, Read(1, "B")));
    DepositElsewhere(s0, s1, s2, s3);
    ReadingHere(s3, s4);
    r := Run([s0, s1, s2, s3, s4],
             [Asks(Data(1, Write(1, "A", true, 5))), Serves(1), Collects(1), Asks(Data(0, Read(1, "B")))]);
    forall k | 0 <= k < 4 ensures StepOf(r, k) {
    }
    assert [Entry(1, 5)][0].ts == 1;
  }
}
