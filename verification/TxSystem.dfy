/** Two-phase commit gives a branch server what its readers and its books rely on. */
module TxSystem {
  import opened Options
  import opened TxStore
  import C = TwoPhase
  import P = TwoPhaseProof
  import R = TxReads
  import L = TxLedger

  // ------------------------------------------- a server's requests in the protocol

  /** Step m of the protocol's run is one of its steps. */
  ghost predicate At(p: C.Run, m: nat, i: nat) {
    m < |p.actions| < |p.states| && i < C.SERVERS && C.Sized(p.states[m]) && C.Sized(p.states[m + 1])
  }

  /** In step m server i answers the commit check with yes. */
  ghost predicate VotesYes(p: C.Run, m: nat, i: nat) {
    At(p, m, i) && !p.states[m].log[i].vote.Yes? && p.states[m + 1].log[i].vote.Yes?
  }

  /** In step m server i calls DoCommit. */
  ghost predicate CommitsIn(p: C.Run, m: nat, i: nat) {
    At(p, m, i) && p.states[m + 1].log[i].commits > p.states[m].log[i].commits
  }

  /** In step m server i calls DoAbort. */
  ghost predicate AbortsIn(p: C.Run, m: nat, i: nat) {
    At(p, m, i) && p.states[m + 1].log[i].aborts > p.states[m].log[i].aborts
  }

  /** The action is work of server i on an operation, its client's or a forwarded one. */
  predicate WorksOn(n: C.Net, a: C.Action, i: nat, op: Op)
    requires C.Sized(n) && i < C.SERVERS
  {
    a == C.Asks(C.Data(i, op)) || (a == C.Serves(i) && n.out[i] != [] && n.out[i][0] == C.Forward(op))
  }

  ghost predicate WorksIn(p: C.Run, m: nat, i: nat, op: Op) {
    At(p, m, i) && WorksOn(p.states[m], p.actions[m], i, op)
  }

  /** Step m of the protocol is where server i serves the request with that outcome. */
  ghost predicate Matches(p: C.Run, m: nat, i: nat, op: Op, out: Outcome) {
    && At(p, m, i)
    && (op.Read? || op.Write? ==> WorksIn(p, m, i, op))
    && (op.Prepare? && out.Accepted? ==> VotesYes(p, m, i))
    && (op.Commit? ==> CommitsIn(p, m, i))
    && (out.Failed? ==> AbortsIn(p, m, i))
  }

  /** Every request of transaction ts that server i serves in q is a step of the
      protocol's run p, in the same order, and every yes vote of i in p is one of them. */
  ghost predicate Governs(p: C.Run, q: R.Run, i: nat, ts: Time, when: seq<nat>) {
    && C.IsRun(p) && i < C.SERVERS && p.states[0].ts == ts && |when| == |q.ops| <= |q.outs|
    && (forall k {:trigger when[k]} :: 0 <= k < |q.ops| && q.ops[k].ts == ts ==>
                                         Matches(p, when[k], i, q.ops[k], q.outs[k]))
    && (forall j, k {:trigger when[j], when[k]} :: 0 <= j < k < |q.ops| && q.ops[j].ts == ts && q.ops[k].ts == ts ==>
                                                     when[j] < when[k])
    && (forall m {:trigger VotesYes(p, m, i)} :: 0 <= m && VotesYes(p, m, i) ==> Listed(q, ts, when, m))
  }

  ghost predicate Listed(q: R.Run, ts: Time, when: seq<nat>, m: nat)
    requires |when| == |q.ops| <= |q.outs|
  {
    exists k {:trigger when[k]} :: 0 <= k < |q.ops| && q.ops[k] == Prepare(ts) && q.outs[k].Accepted? && when[k] == m
  }

  ghost predicate Mentions(q: R.Run, ts: Time) {
    exists k :: 0 <= k < |q.ops| && q.ops[k].ts == ts
  }

  /** Each transaction at server i runs under the commit protocol. */
  ghost predicate Governed(q: R.Run, i: nat, protocol: map<Time, (C.Run, seq<nat>)>) {
    forall ts {:trigger Mentions(q, ts)} :: Mentions(q, ts) ==>
      ts in protocol && Governs(protocol[ts].0, q, i, ts, protocol[ts].1)
  }

  // --------------------------------------------------------- no abort after commit

  /** A server that calls DoCommit in one step calls DoAbort in none, and DoCommit in no
      other. */
  lemma NotBoth(p: C.Run, i: nat, m: nat, l: nat)
    requires C.IsRun(p) && CommitsIn(p, m, i) && l < |p.actions|
    ensures !AbortsIn(p, l, i) && (CommitsIn(p, l, i) ==> l == m)
  {
    P.Atomicity(p, m + 1, i, l + 1, i);
    if CommitsIn(p, l, i) && l != m {
      var a, b := if l < m then l else m, if l < m then m else l;
      P.LogsGrow(p, a + 1, b, i);
      P.Atomicity(p, m + 1, i, b + 1, i);
    }
  }

  /** A server all of whose transactions run under the commit protocol never aborts what
      it committed. */
  lemma ProtocolCommitsLast(q: R.Run, i: nat, protocol: map<Time, (C.Run, seq<nat>)>)
    requires Governed(q, i, protocol)
    ensures R.CommitsLast(q)
  {
    forall j, k, ts | 0 <= j < k && R.CommitsAt(q, j, ts) ensures !R.AbortsAt(q, k, ts) {
      assert q.ops[j].ts == ts && Mentions(q, ts);
      var p, when := protocol[ts].0, protocol[ts].1;
      assert Governs(p, q, i, ts, when);
      assert Matches(p, when[j], i, q.ops[j], q.outs[j]);
      if k < |q.ops| && q.ops[k].ts == ts {
        assert Matches(p, when[k], i, q.ops[k], q.outs[k]);
        NotBoth(p, i, when[j], when[k]);
      }
    }
  }

  // -------------------------------------------------------- a check before a commit

  /** A yes vote was given in some step. */
  lemma {:induction false} VoteMoment(p: C.Run, i: nat, k: nat) returns (m: nat)
    requires C.IsRun(p) && k < |p.states| && C.Sized(p.states[k]) && i < C.SERVERS && p.states[k].log[i].vote.Yes?
    ensures m < k && VotesYes(p, m, i)
  {
    P.LogsGrow(p, 0, k, i);
    if k > 0 {
      P.LogsGrow(p, k - 1, k, i);
      if p.states[k - 1].log[i].vote.Yes? {
        m := VoteMoment(p, i, k - 1);
      } else {
        m := k - 1;
      }
    }
  }

  lemma {:induction false} VotingStays(p: C.Run, j: nat, k: nat)
    requires C.IsRun(p) && j <= k < |p.states| && C.Voting(p.states[j])
    ensures C.Voting(p.states[k])
    decreases k
  {
    if j < k {
      VotingStays(p, j, k - 1);
      assert C.StepOf(p, k - 1);
      P.VotingStep(p.states[k - 1], p.actions[k - 1], p.states[k]);
    }
  }

  /** After its yes vote a server works on no operation of the transaction. */
  lemma NoWorkAfterVote(p: C.Run, i: nat, m: nat, l: nat, op: Op)
    requires C.IsRun(p) && VotesYes(p, m, i) && m < l
    ensures !WorksIn(p, l, i, op)
  {
    if WorksIn(p, l, i, op) {
      P.RunKeeps(p, m + 1);
      VotingStays(p, m + 1, l);
      assert C.StepOf(p, l);
      P.VotingIsDone(p.states[l], p.actions[l], p.states[l + 1], i);
    }
  }

  /** When a server calls DoCommit it has voted yes in an earlier step. */
  lemma CommitAfterVote(p: C.Run, i: nat, m: nat) returns (v: nat)
    requires C.IsRun(p) && CommitsIn(p, m, i)
    ensures v < m && VotesYes(p, v, i)
  {
    P.Atomicity(p, m + 1, i, m + 1, i);
    v := VoteMoment(p, i, m + 1);
    assert C.StepOf(p, m);
    P.RunKeeps(p, m);
    P.CommitKeepsVote(p.states[m], p.actions[m], p.states[m + 1], i);
  }

  lemma CommitIsChecked(q: R.Run, i: nat, p: C.Run, when: seq<nat>, k: nat)
    requires k < |q.ops| && q.ops[k].Commit? && Governs(p, q, i, q.ops[k].ts, when)
    ensures L.Checked(q, k, q.ops[k].ts)
  {
    var ts := q.ops[k].ts;
    assert Matches(p, when[k], i, q.ops[k], q.outs[k]);
    var v := CommitAfterVote(p, i, when[k]);
    assert Listed(q, ts, when, v);
    var j :| 0 <= j < |q.ops| && q.ops[j] == Prepare(ts) && q.outs[j].Accepted? && when[j] == v;
    assert j < k;
    forall l | j < l < k ensures !(q.ops[l].Write? && q.ops[l].ts == ts) && q.ops[l] != Commit(ts) {
      if q.ops[l].ts == ts {
        assert Matches(p, when[l], i, q.ops[l], q.outs[l]);
        assert when[j] < when[l] < when[k];
        NoWorkAfterVote(p, i, v, when[l], q.ops[l]);
        NotBoth(p, i, when[k], when[l]);
      }
    }
    assert L.CheckedAt(q, j, k, ts);
  }

  /** On such a server every commit follows a successful check, with no write of the
      transaction in between. */
  lemma ProtocolChecksFirst(q: R.Run, i: nat, protocol: map<Time, (C.Run, seq<nat>)>)
    requires Governed(q, i, protocol)
    ensures L.CommitsChecked(q)
  {
    forall k | 0 <= k < |q.ops| && q.ops[k].Commit? ensures L.Checked(q, k, q.ops[k].ts) {
      assert Mentions(q, q.ops[k].ts);
      CommitIsChecked(q, i, protocol[q.ops[k].ts].0, protocol[q.ops[k].ts].1, k);
    }
  }

  // ------------------------------------------------------------------ consequences

  /** On such a server readings are repeatable. */
  lemma ReadsRepeat(q: R.Run, s: nat, protocol: map<Time, (C.Run, seq<nat>)>,
                    i: nat, j: nat, tc: Time, D: string, V: int, W: int)
    requires R.IsRun(q) && Governed(q, s, protocol) && i < j && R.OnlyReads(q, i, j, tc, D)
    requires R.ReadsAt(q, i, tc, D, V) && R.ReadsAt(q, j, tc, D, W)
    ensures V == W
  {
    ProtocolCommitsLast(q, s, protocol);
    R.RepeatableRead(q, i, j, tc, D, V, W);
  }

  /** And with one live writer per account the books are exact, and never in the red. */
  lemma BooksAreSound(q: R.Run, s: nat, protocol: map<Time, (C.Run, seq<nat>)>, k: nat, D: string)
    requires R.IsRun(q) && Governed(q, s, protocol) && L.SingleWriters(q) && k <= |q.ops|
    ensures Committed(q.stores[k], D) == L.CommittedSum(q, k, D) >= 0
  {
    ProtocolCommitsLast(q, s, protocol);
    ProtocolChecksFirst(q, s, protocol);
    L.SingleIsAlone(q);
    L.LedgerExact(q, k, D);
    L.NeverNegative(q, k, D);
  }
}
