/** Runs of a branch server, and repeatable reads. */
module TxReads {
  import opened Options
  import opened TxStore

  /** Request k takes store k to store k + 1 and is answered with outs[k]. */
  datatype Run = Run(stores: seq<Store>, ops: seq<Op>, outs: seq<Outcome>)

  predicate StepOf(r: Run, k: nat)
    requires k < |r.ops| == |r.outs| < |r.stores|
  {
    Perform(r.stores[k], r.ops[k]) == Some((r.stores[k + 1], r.outs[k]))
  }

  /** A run from the empty server in which every request is served to the end. */
  ghost predicate IsRun(r: Run) {
    && |r.stores| == |r.ops| + 1 == |r.outs| + 1
    && r.stores[0] == EMPTY
    && forall k {:trigger StepOf(r, k)} :: 0 <= k < |r.ops| ==> StepOf(r, k)
  }

  ghost predicate CommitsAt(r: Run, k: nat, ts: Time) {
    k < |r.ops| && r.ops[k] == Commit(ts)
  }

  /** Request k makes the server abort transaction ts. */
  ghost predicate AbortsAt(r: Run, k: nat, ts: Time) {
    k < |r.ops| <= |r.outs| && r.ops[k].ts == ts && r.outs[k].Failed?
  }

  /** The server never aborts a transaction it has committed. */
  ghost predicate CommitsLast(r: Run) {
    forall j, k, ts :: 0 <= j < k && CommitsAt(r, j, ts) ==> !AbortsAt(r, k, ts)
  }

  function DoneAt(r: Run, k: nat): set<Time>
    requires k <= |r.ops|
  {
    if k == 0 then {} else DoneAt(r, k - 1) + (if r.ops[k - 1].Commit? then {r.ops[k - 1].ts} else {})
  }

  lemma {:induction false} DoneIs(r: Run, k: nat, ts: Time)
    requires k <= |r.ops|
    ensures ts in DoneAt(r, k) <==> exists j :: 0 <= j < k && CommitsAt(r, j, ts)
  {
    if k > 0 {
      DoneIs(r, k - 1, ts);
      if r.ops[k - 1] == Commit(ts) {
        assert CommitsAt(r, k - 1, ts);
      }
    }
  }

  /** What fails was not committed before. */
  lemma NoLateFailure(r: Run, k: nat)
    requires IsRun(r) && CommitsLast(r) && k < |r.ops|
    ensures Perform(r.stores[k], r.ops[k]) == Some((r.stores[k + 1], r.outs[k]))
    ensures r.outs[k].Failed? ==> r.ops[k].ts !in DoneAt(r, k) && AbortsAt(r, k, r.ops[k].ts)
  {
    assert StepOf(r, k);
    if r.outs[k].Failed? {
      assert AbortsAt(r, k, r.ops[k].ts);
      DoneIs(r, k, r.ops[k].ts);
    }
  }

  // --------------------------------------------------- accounts still open

  /** An account whose creating deposit is not committed: that write is still pending,
      and nothing was committed to the account except by later transactions. */
  ghost predicate OpenOk(s: Store, done: set<Time>, name: string) {
    name in s.accounts ==>
      var a := s.accounts[name];
      a.created !in done ==>
        Wrote(Entries(s, name), a.created) && ((a.committed == 0 && a.committedTs == 0) || a.committedTs > a.created)
  }

  ghost predicate AllOpenOk(s: Store, done: set<Time>) {
    forall name {:trigger OpenOk(s, done, name)} :: OpenOk(s, done, name)
  }

  lemma UndoOpen(s: Store, done: set<Time>, ts: Time)
    requires AllOpenOk(s, done) && Undo(s, ts).Some?
    ensures AllOpenOk(Undo(s, ts).value, done)
  {
    var s' := Undo(s, ts).value;
    forall name ensures OpenOk(s', done, name) {
      assert OpenOk(s, done, name);
      if name in s'.accounts {
        WithoutWrote(Entries(s, name), ts, s.accounts[name].created);
      }
    }
  }

  lemma WriteOpen(s: Store, done: set<Time>, name: string, deposit: bool, amount: int, ts: Time)
    requires AllOpenOk(s, done)
    ensures var (s', ok) := WriteRule(s, name, deposit, amount, ts);
            ok ==> AllOpenOk(s', done)
  {
    var (s', ok) := WriteRule(s, name, deposit, amount, ts);
    if ok {
      forall a ensures OpenOk(s', done, a) {
        assert OpenOk(s, done, a);
        if a == name {
          TentativeIs(Entries(s, name), ts, amount, s'.accounts[name].created);
        }
      }
    }
  }

  /** Aborting a write that opened the account closes it again. */
  lemma OpenedUndone(s: Store, name: string, ts: Time)
    ensures Undo(Opened(s, name, ts), ts) == Undo(s, ts)
  {
    var s1 := Opened(s, name, ts);
    if Undo(s, ts).Some? {
      assert Undo(s1, ts).value.accounts == Undo(s, ts).value.accounts;
    }
  }

  lemma SettleOpen(s: Store, done: set<Time>, ts: Time)
    requires AllOpenOk(s, done) && Settle(s, ts).Some?
    ensures AllOpenOk(Settle(s, ts).value, done + {ts})
  {
    var s' := Settle(s, ts).value;
    forall name ensures OpenOk(s', done + {ts}, name) {
      assert OpenOk(s, done, name);
      if name in s'.accounts && s.accounts[name].created !in done + {ts} {
        var c := s.accounts[name].created;
        WithoutWrote(Entries(s, name), ts, c);
        if name in s.tw {
          assert ReturnsAt(s, name, ts);
        }
      }
    }
  }

  /** A failing request does nothing but abort: once, or twice for a commit check. */
  lemma FailedIsUndo(s: Store, op: Op)
    requires Perform(s, op).Some? && Perform(s, op).value.1.Failed?
    ensures Undo(s, op.ts).Some?
    ensures var s1, s' := Undo(s, op.ts).value, Perform(s, op).value.0;
            s' == s1 || Undo(s1, op.ts) == Some(s')
  {
    if op.Write? {
      OpenedUndone(s, op.name, op.ts);
    }
  }

  lemma PerformOpen(s: Store, done: set<Time>, op: Op)
    requires AllOpenOk(s, done) && Perform(s, op).Some?
    ensures AllOpenOk(Perform(s, op).value.0, done + if op.Commit? then {op.ts} else {})
  {
    assert done + {} == done;
    if Perform(s, op).value.1.Failed? {
      FailedIsUndo(s, op);
      UndoOpen(s, done, op.ts);
      if Undo(Undo(s, op.ts).value, op.ts).Some? {
        UndoOpen(Undo(s, op.ts).value, done, op.ts);
      }
    } else {
      match op
      case Write(ts, name, deposit, amount) => WriteOpen(s, done, name, deposit, amount, ts);
      case Commit(ts) => SettleOpen(s, done, ts);
      case Read(ts, name) =>
        var s' := Perform(s, op).value.0;
        forall a ensures OpenOk(s', done, a) {
          assert OpenOk(s, done, a);
        }
      case Abort(_) =>
      case Prepare(_) =>
    }
  }

  lemma StepOpen(r: Run, k: nat)
    requires IsRun(r) && k < |r.ops| && AllOpenOk(r.stores[k], DoneAt(r, k))
    ensures AllOpenOk(r.stores[k + 1], DoneAt(r, k + 1))
  {
    assert StepOf(r, k);
    PerformOpen(r.stores[k], DoneAt(r, k), r.ops[k]);
  }

  lemma {:induction false} RunOpen(r: Run, k: nat)
    requires IsRun(r) && k <= |r.ops|
    ensures AllOpenOk(r.stores[k], DoneAt(r, k))
  {
    if k > 0 {
      RunOpen(r, k - 1);
      StepOpen(r, k - 1);
    }
  }

  // -------------------------------------------- between the two readings

  /** What protects the value V that Tc read from account D. */
  ghost predicate Held(s: Store, done: set<Time>, tc: Time, D: string, V: int) {
    && tc in Readers(s, D)
    && !AnyTo(Entries(s, D), tc)
    && (D !in s.accounts ==> V == 0)
    && (D in s.accounts ==>
          var a := s.accounts[D];
          && (a.committedTs > tc || (a.committedTs < tc && a.committed == V))
          && (a.created !in done ==> V == 0))
  }

  lemma ReadHolds(s: Store, done: set<Time>, tc: Time, D: string)
    requires AllOpenOk(s, done) && !Wrote(Entries(s, D), tc) && ReadRule(s, D, tc).1.Value?
    ensures Held(ReadRule(s, D, tc).0, done, tc, D, ReadRule(s, D, tc).1.value)
  {
    assert OpenOk(s, done, D);
    var a := s.accounts[D];
    if a.created !in done {
      var i :| 0 <= i < |Entries(s, D)| && Entries(s, D)[i].ts == a.created;
      assert a.created > tc;
    }
  }

  lemma HeldReads(s: Store, done: set<Time>, tc: Time, D: string, V: int)
    requires Held(s, done, tc, D, V) && ReadRule(s, D, tc).1.Value?
    ensures ReadRule(s, D, tc).1.value == V
  {
    WroteIsTo(Entries(s, D), tc);
  }

  lemma WroteIsTo(q: seq<Entry>, t: Time)
    ensures Wrote(q, t) ==> AnyTo(q, t)
  {
    if Wrote(q, t) {
      var i :| 0 <= i < |q| && q[i].ts == t;
      assert q[i].ts <= t;
    }
  }

  lemma UndoHeld(s: Store, done: set<Time>, tc: Time, D: string, V: int, ts: Time)
    requires Held(s, done, tc, D, V) && Undo(s, ts).Some? && ts != tc && ts !in done
    ensures Held(Undo(s, ts).value, done, tc, D, V)
  {
    AbortKeepsOthers(s, ts, D, tc);
    WithoutAnyTo(Entries(s, D), ts, tc);
  }

  lemma WriteHeld(s: Store, done: set<Time>, tc: Time, D: string, V: int,
                  name: string, deposit: bool, amount: int, ts: Time)
    requires Held(s, done, tc, D, V) && tc > 0 && (name != D || ts != tc)
    ensures var (s', ok) := WriteRule(s, name, deposit, amount, ts);
            ok ==> Held(s', done, tc, D, V)
  {
    if name == D {
      TentativeIs(Entries(s, D), ts, amount, tc);
      var i :| 0 <= i < |Readers(s, D)| && Readers(s, D)[i] == tc;
    }
  }

  lemma SettleHeld(s: Store, done: set<Time>, tc: Time, D: string, V: int, ts: Time)
    requires Held(s, done, tc, D, V) && Settle(s, ts).Some?
    ensures Held(Settle(s, ts).value, done + {ts}, tc, D, V)
  {
    WithoutAnyTo(Entries(s, D), ts, tc);
    if Wrote(Entries(s, D), ts) {
      var i :| 0 <= i < |Entries(s, D)| && Entries(s, D)[i].ts == ts;
      assert ts > tc;
    }
  }

  lemma PerformHeld(s: Store, done: set<Time>, tc: Time, D: string, V: int, op: Op)
    requires Held(s, done, tc, D, V) && Perform(s, op).Some? && tc > 0
    requires op.Write? && op.ts == tc ==> op.name != D
    requires Perform(s, op).value.1.Failed? ==> op.ts != tc && op.ts !in done
    ensures Held(Perform(s, op).value.0, done + if op.Commit? then {op.ts} else {}, tc, D, V)
  {
    assert done + {} == done;
    if Perform(s, op).value.1.Failed? {
      FailedIsUndo(s, op);
      UndoHeld(s, done, tc, D, V, op.ts);
      if Undo(Undo(s, op.ts).value, op.ts).Some? {
        UndoHeld(Undo(s, op.ts).value, done, tc, D, V, op.ts);
      }
    } else {
      match op
      case Write(ts, name, deposit, amount) => WriteHeld(s, done, tc, D, V, name, deposit, amount, ts);
      case Commit(ts) => SettleHeld(s, done, tc, D, V, ts);
      case Read(_, _) =>
      case Abort(_) =>
      case Prepare(_) =>
    }
  }

  // ---------------------------------------------------------- the transaction

  /** Before request j, Tc has not asked to write D, nor has it been aborted since i. */
  ghost predicate OnlyReads(r: Run, i: nat, j: nat, tc: Time, D: string) {
    && (forall k :: 0 <= k < j <= |r.ops| ==> !(r.ops[k].Write? && r.ops[k].ts == tc && r.ops[k].name == D))
    && forall k :: i <= k < j ==> !AbortsAt(r, k, tc)
  }

  lemma PerformWrote(s: Store, op: Op, tc: Time, D: string)
    requires Perform(s, op).Some? && !Wrote(Entries(s, D), tc)
    requires op.Write? && op.ts == tc ==> op.name != D
    ensures !Wrote(Entries(Perform(s, op).value.0, D), tc)
  {
    WithoutWrote(Entries(s, D), op.ts, tc);
    if Perform(s, op).value.1.Failed? {
      FailedIsUndo(s, op);
      WithoutWrote(Entries(Undo(s, op.ts).value, D), op.ts, tc);
    } else if op.Write? {
      TentativeIs(Entries(s, op.name), op.ts, op.amount, tc);
    }
  }

  lemma {:induction false} NeverWrote(r: Run, i: nat, j: nat, tc: Time, D: string, k: nat)
    requires IsRun(r) && OnlyReads(r, i, j, tc, D) && k <= j <= |r.ops|
    ensures !Wrote(Entries(r.stores[k], D), tc)
  {
    if k > 0 {
      NeverWrote(r, i, j, tc, D, k - 1);
      assert StepOf(r, k - 1);
      PerformWrote(r.stores[k - 1], r.ops[k - 1], tc, D);
    }
  }

  /** Request k reads D for Tc and is answered with value V. */
  ghost predicate ReadsAt(r: Run, k: nat, tc: Time, D: string, V: int) {
    k < |r.ops| <= |r.outs| && r.ops[k] == Read(tc, D) && r.outs[k] == Answered(Value(V))
  }

  lemma {:induction false} StaysHeld(r: Run, i: nat, j: nat, tc: Time, D: string, V: int, k: nat)
    requires IsRun(r) && CommitsLast(r) && ReadsAt(r, i, tc, D, V) && OnlyReads(r, i, j, tc, D)
    requires i < k <= j <= |r.ops|
    ensures Held(r.stores[k], DoneAt(r, k), tc, D, V)
  {
    if k == i + 1 {
      FirstHeld(r, i, j, tc, D, V);
    } else {
      StaysHeld(r, i, j, tc, D, V, k - 1);
      PositiveReader(r, i, tc, D, V);
      NoLateFailure(r, k - 1);
      PerformHeld(r.stores[k - 1], DoneAt(r, k - 1), tc, D, V, r.ops[k - 1]);
    }
  }

  lemma FirstHeld(r: Run, i: nat, j: nat, tc: Time, D: string, V: int)
    requires IsRun(r) && ReadsAt(r, i, tc, D, V) && OnlyReads(r, i, j, tc, D) && i < j <= |r.ops|
    ensures Held(r.stores[i + 1], DoneAt(r, i + 1), tc, D, V)
  {
    assert StepOf(r, i);
    RunOpen(r, i);
    NeverWrote(r, i, j, tc, D, i);
    ReadHolds(r.stores[i], DoneAt(r, i), tc, D);
    assert DoneAt(r, i + 1) == DoneAt(r, i);
  }

  lemma PositiveReader(r: Run, i: nat, tc: Time, D: string, V: int)
    requires IsRun(r) && ReadsAt(r, i, tc, D, V)
    ensures tc > 0
  {
    assert StepOf(r, i);
  }

  /** Repeatable read: on every run of a server that never aborts what it committed,
      two readings of D by Tc that are both answered with a value get the same value,
      provided Tc did not write D and was not aborted in between. */
  lemma RepeatableRead(r: Run, i: nat, j: nat, tc: Time, D: string, V: int, W: int)
    requires IsRun(r) && CommitsLast(r) && i < j && OnlyReads(r, i, j, tc, D)
    requires ReadsAt(r, i, tc, D, V) && ReadsAt(r, j, tc, D, W)
    ensures V == W
  {
    StaysHeld(r, i, j, tc, D, V, j);
    assert StepOf(r, j);
    HeldReads(r.stores[j], DoneAt(r, j), tc, D, V);
  }

  /** The recorded reading refuses every write of an earlier transaction until Tc is
      aborted. */
  lemma ReadBlocksEarlierWrites(r: Run, i: nat, k: nat, tc: Time, D: string, V: int)
    requires IsRun(r) && CommitsLast(r) && ReadsAt(r, i, tc, D, V) && OnlyReads(r, i, k, tc, D)
    requires i < k < |r.ops| && r.ops[k].Write? && r.ops[k].name == D && r.ops[k].ts < tc
    ensures r.outs[k].Failed?
  {
    StaysHeld(r, i, k, tc, D, V, k);
    assert StepOf(r, k);
    var q := Readers(r.stores[k], D);
    var n :| 0 <= n < |q| && q[n] == tc;
    assert !NotBefore(q, r.ops[k].ts);
  }

  // ------------------------------------------------------- commits in between

  /** A later transaction has been committed to D. */
  ghost predicate Overtaken(s: Store, tc: Time, D: string) {
    D in s.accounts && s.accounts[D].committedTs > tc
  }

  /** The account that transaction o opened is there. */
  ghost predicate OpenedBy(s: Store, D: string, o: Time) {
    D in s.accounts && s.accounts[D].created == o
  }

  lemma UndoKeepsAccount(s: Store, D: string, o: Time, ts: Time)
    requires OpenedBy(s, D, o) && Undo(s, ts).Some? && ts != o
    ensures OpenedBy(Undo(s, ts).value, D, o) && Undo(s, ts).value.accounts[D] == s.accounts[D]
  {
  }

  /** Only an abort of its opener takes an account away, and only a commit to it
      changes it. */
  lemma PerformKeepsAccount(s: Store, D: string, o: Time, op: Op)
    requires OpenedBy(s, D, o) && Perform(s, op).Some?
    requires Perform(s, op).value.1.Failed? ==> op.ts != o
    ensures OpenedBy(Perform(s, op).value.0, D, o)
    ensures Perform(s, op).value.0.accounts[D] == s.accounts[D] || (op.Commit? && Wrote(Entries(s, D), op.ts))
  {
    if Perform(s, op).value.1.Failed? {
      FailedIsUndo(s, op);
      UndoKeepsAccount(s, D, o, op.ts);
      if Undo(Undo(s, op.ts).value, op.ts).Some? {
        UndoKeepsAccount(Undo(s, op.ts).value, D, o, op.ts);
      }
    }
  }

  /** A commit to an account whose reading is protected is that of a later transaction. */
  lemma CommitOvertakes(s: Store, done: set<Time>, tc: Time, D: string, V: int, op: Op)
    requires Held(s, done, tc, D, V) && D in s.accounts && op.Commit? && Wrote(Entries(s, D), op.ts)
             && Perform(s, op).Some?
    ensures Overtaken(Perform(s, op).value.0, tc, D)
  {
    var n :| 0 <= n < |Entries(s, D)| && Entries(s, D)[n].ts == op.ts;
    assert op.ts > tc;
  }

  /** Request k commits a transaction that wrote D. */
  ghost predicate CommitsTo(r: Run, k: nat, D: string) {
    k < |r.ops| < |r.stores| && r.ops[k].Commit? && Wrote(Entries(r.stores[k], D), r.ops[k].ts)
  }

  /** Between requests i and j the transaction that had opened D is aborted. */
  ghost predicate OpenerAborted(r: Run, i: nat, j: nat, D: string) {
    exists k, o {:trigger AbortsAt(r, k, o)} :: i < k < j && i < |r.stores| && OpenedBy(r.stores[i], D, o)
        && AbortsAt(r, k, o)
  }

  lemma StepKeepsAccount(r: Run, i: nat, j: nat, D: string, o: Time, k: nat)
    requires IsRun(r) && i < k < j <= |r.ops|
    requires OpenedBy(r.stores[i], D, o) && !OpenerAborted(r, i, j, D) && OpenedBy(r.stores[k], D, o)
    ensures OpenedBy(r.stores[k + 1], D, o)
    ensures r.stores[k + 1].accounts[D] == r.stores[k].accounts[D] || CommitsTo(r, k, D)
  {
    assert StepOf(r, k);
    assert r.outs[k].Failed? ==> AbortsAt(r, k, r.ops[k].ts);
    PerformKeepsAccount(r.stores[k], D, o, r.ops[k]);
  }

  lemma {:induction false} StaysOpened(r: Run, i: nat, j: nat, tc: Time, D: string, V: int, o: Time, k: nat)
    requires IsRun(r) && ReadsAt(r, i, tc, D, V) && OpenedBy(r.stores[i], D, o) && !OpenerAborted(r, i, j, D)
    requires i < k <= j <= |r.ops|
    ensures OpenedBy(r.stores[k], D, o)
  {
    if k == i + 1 {
      assert StepOf(r, i);
    } else {
      StaysOpened(r, i, j, tc, D, V, o, k - 1);
      StepKeepsAccount(r, i, j, D, o, k - 1);
    }
  }

  lemma {:induction false} StaysOvertaken(r: Run, i: nat, c: nat, j: nat, tc: Time, D: string, V: int, o: Time, k: nat)
    requires IsRun(r) && CommitsLast(r) && ReadsAt(r, i, tc, D, V) && OnlyReads(r, i, j, tc, D)
    requires OpenedBy(r.stores[i], D, o) && !OpenerAborted(r, i, j, D)
    requires i < c < k <= j <= |r.ops| && CommitsTo(r, c, D)
    ensures Overtaken(r.stores[k], tc, D)
  {
    StaysOpened(r, i, j, tc, D, V, o, k - 1);
    if CommitsTo(r, k - 1, D) {
      StaysHeld(r, i, j, tc, D, V, k - 1);
      StepOvertakes(r, k - 1, tc, D, V);
    } else {
      StaysOvertaken(r, i, c, j, tc, D, V, o, k - 1);
      StepKeepsAccount(r, i, j, D, o, k - 1);
    }
  }

  lemma StepOvertakes(r: Run, k: nat, tc: Time, D: string, V: int)
    requires IsRun(r) && CommitsTo(r, k, D) && Held(r.stores[k], DoneAt(r, k), tc, D, V) && D in r.stores[k].accounts
    ensures Overtaken(r.stores[k + 1], tc, D)
  {
    assert StepOf(r, k);
    CommitOvertakes(r.stores[k], DoneAt(r, k), tc, D, V, r.ops[k]);
  }

  /** A commit to D in between makes the second reading fail, whatever the value read,
      unless the transaction that had opened D is aborted in between. */
  lemma InterveningCommit(r: Run, i: nat, c: nat, j: nat, tc: Time, D: string, V: int)
    requires IsRun(r) && CommitsLast(r) && ReadsAt(r, i, tc, D, V) && OnlyReads(r, i, j, tc, D)
    requires i < c < j < |r.ops| && CommitsTo(r, c, D) && r.ops[j] == Read(tc, D)
    ensures r.outs[j].Failed? || OpenerAborted(r, i, j, D)
  {
    assert StepOf(r, i);
    if !OpenerAborted(r, i, j, D) {
      StaysOvertaken(r, i, c, j, tc, D, V, r.stores[i].accounts[D].created, j);
      assert StepOf(r, j);
    }
  }

  /** So it fails whenever the opener had committed by the first reading. */
  lemma InterveningCommitRefuses(r: Run, i: nat, c: nat, j: nat, tc: Time, D: string, V: int)
    requires IsRun(r) && CommitsLast(r) && ReadsAt(r, i, tc, D, V) && OnlyReads(r, i, j, tc, D)
    requires D in r.stores[i].accounts && r.stores[i].accounts[D].created in DoneAt(r, i)
    requires i < c < j < |r.ops| && CommitsTo(r, c, D) && r.ops[j] == Read(tc, D)
    ensures r.outs[j].Failed?
  {
    InterveningCommit(r, i, c, j, tc, D, V);
    DoneIs(r, i, r.stores[i].accounts[D].created);
  }
}
