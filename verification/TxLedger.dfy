/** What committing does to the balances, with one live writer per account and without. */
module TxLedger {
  import opened Options
  import opened TxStore
  import opened TxReads

  // -------------------------------------------------------- sums of one list

  /** What transaction ts itself has pending. */
  function Own(q: seq<Entry>, ts: Time): int {
    if q == [] then 0 else (if q[0].ts == ts then q[0].value else 0) + Own(q[1..], ts)
  }

  /** What earlier transactions have pending. */
  function Earlier(q: seq<Entry>, ts: Time): int {
    if q == [] then 0 else (if q[0].ts < ts then q[0].value else 0) + Earlier(q[1..], ts)
  }

  lemma {:induction false} SumSplits(q: seq<Entry>, ts: Time)
    ensures SumTo(q, ts) == Own(q, ts) + Earlier(q, ts)
  {
    if q != [] {
      SumSplits(q[1..], ts);
    }
  }

  lemma {:induction false} OwnTentative(q: seq<Entry>, ts: Time, amount: int, t: Time)
    ensures Own(Tentative(q, ts, amount), t) == Own(q, t) + if t == ts then amount else 0
  {
    if q != [] && q[0].ts != ts {
      OwnTentative(q[1..], ts, amount, t);
      assert Tentative(q, ts, amount)[1..] == Tentative(q[1..], ts, amount);
    } else if q == [] {
      assert Tentative(q, ts, amount)[1..] == [];
    } else {
      assert Tentative(q, ts, amount)[1..] == q[1..];
    }
  }

  lemma {:induction false} OwnWithout(q: seq<Entry>, ts: Time, t: Time)
    ensures Own(Without(q, ts), t) == if t == ts then 0 else Own(q, t)
  {
    if q != [] {
      OwnWithout(q[1..], ts, t);
      if q[0].ts != ts {
        assert Without(q, ts)[1..] == Without(q[1..], ts);
      }
    }
  }

  lemma {:induction false} OwnUnwritten(q: seq<Entry>, ts: Time)
    requires !Wrote(q, ts)
    ensures Own(q, ts) == 0
  {
    if q != [] {
      HeadTail(q, ts);
      OwnUnwritten(q[1..], ts);
    }
  }

  /** Only one transaction has tentative writes in the list. */
  predicate OneWriter(q: seq<Entry>) {
    forall i, j :: 0 <= i < j < |q| ==> q[i].ts == q[j].ts
  }

  lemma {:induction false} AloneNoEarlier(q: seq<Entry>, ts: Time)
    requires forall i :: 0 <= i < |q| ==> q[i].ts == ts
    ensures Earlier(q, ts) == 0
  {
    if q != [] {
      assert forall i :: 0 <= i < |q[1..]| ==> q[1..][i] == q[i + 1];
      AloneNoEarlier(q[1..], ts);
    }
  }

  lemma OneWriterAlone(q: seq<Entry>, ts: Time)
    requires OneWriter(q) && Wrote(q, ts)
    ensures forall i :: 0 <= i < |q| ==> q[i].ts == ts
  {
    var k :| 0 <= k < |q| && q[k].ts == ts;
  }

  lemma AloneOnly(q: seq<Entry>, ts: Time, t: Time)
    requires forall i :: 0 <= i < |q| ==> q[i].ts == ts
    ensures Wrote(q, t) ==> t == ts
  {
  }

  lemma {:induction false} AloneGone(q: seq<Entry>, ts: Time)
    requires forall i :: 0 <= i < |q| ==> q[i].ts == ts
    ensures Without(q, ts) == []
  {
    if q != [] {
      assert forall i :: 0 <= i < |q[1..]| ==> q[1..][i] == q[i + 1];
      AloneGone(q[1..], ts);
    }
  }

  lemma {:induction false} NothingWithout(q: seq<Entry>, t: Time)
    requires !Wrote(q, t)
    ensures Without(q, t) == q
  {
    if q != [] {
      HeadTail(q, t);
      NothingWithout(q[1..], t);
    }
  }

  /** With one writer, taking a transaction out empties the list or leaves it. */
  lemma AllOrNothing(q: seq<Entry>, t: Time)
    requires OneWriter(q)
    ensures Without(q, t) == if Wrote(q, t) then [] else q
  {
    if Wrote(q, t) {
      OneWriterAlone(q, t);
      AloneGone(q, t);
    } else {
      NothingWithout(q, t);
    }
  }

  // -------------------------------------------------------------- one commit

  /** A commit adds the transaction's own amount to an account it wrote, exactly if
      the earlier writes still pending there sum to nothing. */
  lemma CommitAddsExactlyIff(s: Store, ts: Time, name: string)
    requires Settle(s, ts).Some? && name in s.accounts && Wrote(Entries(s, name), ts)
    ensures Committed(Settle(s, ts).value, name) == Committed(s, name) + Own(Entries(s, name), ts)
            <==> Earlier(Entries(s, name), ts) == 0
  {
    SumSplits(Entries(s, name), ts);
  }

  // ------------------------------------------------- the account of the run

  /** The amounts of ts that account D has accepted and not given up again. */
  function Accepting(r: Run, k: nat, D: string, ts: Time): int
    requires k <= |r.ops| == |r.outs|
  {
    if k == 0 then 0
    else
      var op, before := r.ops[k - 1], Accepting(r, k - 1, D, ts);
      if op.ts != ts then before
      else if r.outs[k - 1].Failed? || op.Commit? then 0
      else if op.Write? && op.name == D then before + op.amount
      else before
  }

  /** The accepted amounts of all committed transactions. */
  function CommittedSum(r: Run, k: nat, D: string): int
    requires k <= |r.ops| == |r.outs|
  {
    if k == 0 then 0
    else CommittedSum(r, k - 1, D) + (if r.ops[k - 1].Commit? then Accepting(r, k - 1, D, r.ops[k - 1].ts) else 0)
  }

  lemma PerformOwn(s: Store, op: Op, s': Store, out: Outcome, D: string, ts: Time)
    requires Perform(s, op) == Some((s', out))
    ensures Own(Entries(s', D), ts) ==
              if op.ts != ts then Own(Entries(s, D), ts)
              else if out.Failed? || op.Commit? then 0
              else if op.Write? && op.name == D then Own(Entries(s, D), ts) + op.amount
              else Own(Entries(s, D), ts)
  {
    if out.Failed? {
      FailedIsUndo(s, op);
      var s1 := Undo(s, op.ts).value;
      OwnWithout(Entries(s, D), op.ts, ts);
      OwnWithout(Entries(s1, D), op.ts, ts);
    } else {
      match op
      case Write(t, name, _, amount) => OwnTentative(Entries(s, name), t, amount, ts);
      case Commit(t) => OwnWithout(Entries(s, D), t, ts);
      case Read(_, _) =>
      case Prepare(_) =>
    }
  }

  /** The pending write of a transaction is the sum of its accepted amounts. */
  lemma {:induction false} PendingIsAccepted(r: Run, k: nat, D: string, ts: Time)
    requires IsRun(r) && k <= |r.ops|
    ensures Own(Entries(r.stores[k], D), ts) == Accepting(r, k, D, ts)
  {
    if k > 0 {
      PendingIsAccepted(r, k - 1, D, ts);
      assert StepOf(r, k - 1);
      PerformOwn(r.stores[k - 1], r.ops[k - 1], r.stores[k], r.outs[k - 1], D, ts);
    }
  }

  // ---------------------------------------------------------------- the ledger

  /** Every account a transaction commits to carries no other tentative write. */
  ghost predicate AloneAt(s: Store, ts: Time) {
    forall name, i :: 0 <= i < |Entries(s, name)| && Wrote(Entries(s, name), ts) ==> Entries(s, name)[i].ts == ts
  }

  ghost predicate CommitsAlone(r: Run) {
    forall k {:trigger r.ops[k]} :: 0 <= k < |r.ops| <= |r.stores| && r.ops[k].Commit? ==>
                                      AloneAt(r.stores[k], r.ops[k].ts)
  }

  /** D's committed value is the given total; until its creating deposit commits, that
      deposit is pending and the total is nothing. */
  ghost predicate LedgerOk(s: Store, done: set<Time>, D: string, total: int) {
    && (D !in s.accounts ==> total == 0)
    && (D in s.accounts ==>
          var a := s.accounts[D];
          a.committed == total && (a.created !in done ==> total == 0 && Wrote(Entries(s, D), a.created)))
  }

  lemma UndoLedger(s: Store, done: set<Time>, D: string, total: int, ts: Time)
    requires LedgerOk(s, done, D, total) && Undo(s, ts).Some? && ts !in done
    ensures LedgerOk(Undo(s, ts).value, done, D, total)
  {
    if D in s.accounts {
      WithoutWrote(Entries(s, D), ts, s.accounts[D].created);
    }
  }

  lemma SettleLedger(s: Store, done: set<Time>, D: string, total: int, ts: Time)
    requires LedgerOk(s, done, D, total) && Settle(s, ts).Some? && AloneAt(s, ts)
    ensures LedgerOk(Settle(s, ts).value, done + {ts}, D, total + Own(Entries(s, D), ts))
  {
    var q := Entries(s, D);
    SumSplits(q, ts);
    if Wrote(q, ts) {
      assert ReturnsAt(s, D, ts);
      AloneNoEarlier(q, ts);
      AloneOnly(q, ts, s.accounts[D].created);
    } else {
      OwnUnwritten(q, ts);
      if D in s.accounts {
        WithoutWrote(q, ts, s.accounts[D].created);
      }
    }
  }

  lemma PerformLedger(s: Store, done: set<Time>, D: string, total: int, op: Op, s': Store, out: Outcome)
    requires LedgerOk(s, done, D, total) && Perform(s, op) == Some((s', out))
    requires out.Failed? ==> op.ts !in done
    requires op.Commit? ==> AloneAt(s, op.ts)
    ensures LedgerOk(s', done + if op.Commit? then {op.ts} else {}, D,
                     total + if op.Commit? then Own(Entries(s, D), op.ts) else 0)
  {
    assert done + {} == done;
    if out.Failed? {
      FailedIsUndo(s, op);
      UndoLedger(s, done, D, total, op.ts);
      if Undo(Undo(s, op.ts).value, op.ts).Some? {
        UndoLedger(Undo(s, op.ts).value, done, D, total, op.ts);
      }
    } else {
      match op
      case Write(ts, name, _, amount) =>
        if name == D {
          TentativeIs(Entries(s, D), ts, amount, s'.accounts[D].created);
        }
      case Commit(ts) => SettleLedger(s, done, D, total, ts);
      case Read(_, _) =>
      case Prepare(_) =>
    }
  }

  lemma StepLedger(r: Run, k: nat, D: string, total: int)
    requires IsRun(r) && CommitsLast(r) && CommitsAlone(r) && k < |r.ops|
    requires LedgerOk(r.stores[k], DoneAt(r, k), D, total)
    ensures LedgerOk(r.stores[k + 1], DoneAt(r, k + 1), D,
                     total + if r.ops[k].Commit? then Own(Entries(r.stores[k], D), r.ops[k].ts) else 0)
  {
    NoLateFailure(r, k);
    PerformLedger(r.stores[k], DoneAt(r, k), D, total, r.ops[k], r.stores[k + 1], r.outs[k]);
  }

  lemma {:induction false} RunLedger(r: Run, k: nat, D: string)
    requires IsRun(r) && CommitsLast(r) && CommitsAlone(r) && k <= |r.ops|
    ensures LedgerOk(r.stores[k], DoneAt(r, k), D, CommittedSum(r, k, D))
  {
    if k > 0 {
      RunLedger(r, k - 1, D);
      PendingIsAccepted(r, k - 1, D, r.ops[k - 1].ts);
      StepLedger(r, k - 1, D, CommittedSum(r, k - 1, D));
    }
  }

  /** If every transaction commits with no other tentative write on its accounts, each
      committed value is the sum of the accepted amounts of committed transactions. */
  lemma LedgerExact(r: Run, k: nat, D: string)
    requires IsRun(r) && CommitsLast(r) && CommitsAlone(r) && k <= |r.ops|
    ensures Committed(r.stores[k], D) == CommittedSum(r, k, D)
  {
    RunLedger(r, k, D);
  }

  // ------------------------------------------------- never in the red, and ends

  ghost predicate OneWriterEach(s: Store) {
    forall name {:trigger Entries(s, name)} :: OneWriter(Entries(s, name))
  }

  ghost predicate SingleWriters(r: Run) {
    forall k {:trigger r.stores[k]} :: 0 <= k < |r.stores| ==> OneWriterEach(r.stores[k])
  }

  lemma SingleIsAlone(r: Run)
    requires IsRun(r) && SingleWriters(r)
    ensures CommitsAlone(r)
  {
    forall k | 0 <= k < |r.ops| && r.ops[k].Commit? ensures AloneAt(r.stores[k], r.ops[k].ts) {
      var s, ts := r.stores[k], r.ops[k].ts;
      assert OneWriterEach(s);
      forall name, i | 0 <= i < |Entries(s, name)| && Wrote(Entries(s, name), ts) ensures Entries(s, name)[i].ts == ts {
        OneWriterAlone(Entries(s, name), ts);
      }
    }
  }

  /** A transaction commits only after its check succeeded here, and asks for no write
      in between. */
  ghost predicate CheckedAt(r: Run, j: nat, k: nat, ts: Time) {
    && j < k < |r.ops| <= |r.outs| && r.ops[j] == Prepare(ts) && r.outs[j].Accepted?
    && forall i :: j < i < k ==> !(r.ops[i].Write? && r.ops[i].ts == ts) && r.ops[i] != Commit(ts)
  }

  ghost predicate Checked(r: Run, k: nat, ts: Time) {
    exists j {:trigger CheckedAt(r, j, k, ts)} :: CheckedAt(r, j, k, ts)
  }

  ghost predicate CommitsChecked(r: Run) {
    forall k {:trigger r.ops[k]} :: 0 <= k < |r.ops| && r.ops[k].Commit? ==> Checked(r, k, r.ops[k].ts)
  }

  /** What the check of ts established for account D. */
  ghost predicate Covered(s: Store, ts: Time, D: string) {
    Wrote(Entries(s, D), ts) ==> Committed(s, D) + SumTo(Entries(s, D), ts) >= 0
  }

  lemma UndoCovered(s: Store, done: set<Time>, ts: Time, D: string, total: int, t: Time)
    requires Covered(s, ts, D) && OneWriter(Entries(s, D)) && LedgerOk(s, done, D, total)
    requires Undo(s, t).Some? && t !in done
    ensures Covered(Undo(s, t).value, ts, D) && OneWriter(Entries(Undo(s, t).value, D))
  {
    AllOrNothing(Entries(s, D), t);
  }

  lemma WriteCovered(s: Store, ts: Time, D: string, op: Op, s': Store)
    requires Covered(s, ts, D) && op.Write? && op.ts != ts
    requires Perform(s, op) == Some((s', Accepted)) && OneWriter(Entries(s', D))
    ensures Covered(s', ts, D)
  {
    if op.name == D && Wrote(Entries(s', D), ts) {
      TentativeIs(Entries(s, D), op.ts, op.amount, op.ts);
      OneWriterAlone(Entries(s', D), ts);
    }
  }

  lemma SettleCovered(s: Store, ts: Time, D: string, t: Time)
    requires Covered(s, ts, D) && OneWriter(Entries(s, D)) && Settle(s, t).Some? && t != ts
    ensures Covered(Settle(s, t).value, ts, D)
  {
    AllOrNothing(Entries(s, D), t);
    if Wrote(Entries(s, D), ts) {
      OneWriterAlone(Entries(s, D), ts);
    }
  }

  lemma PerformCovered(s: Store, done: set<Time>, ts: Time, D: string, total: int, op: Op, s': Store, out: Outcome)
    requires Covered(s, ts, D) && LedgerOk(s, done, D, total) && Perform(s, op) == Some((s', out))
    requires OneWriter(Entries(s, D)) && OneWriter(Entries(s', D))
    requires out.Failed? ==> op.ts !in done
    requires op.ts == ts ==> !op.Write? && !op.Commit?
    ensures Covered(s', ts, D)
  {
    if out.Failed? {
      FailedIsUndo(s, op);
      UndoCovered(s, done, ts, D, total, op.ts);
      UndoLedger(s, done, D, total, op.ts);
      if Undo(Undo(s, op.ts).value, op.ts).Some? {
        UndoCovered(Undo(s, op.ts).value, done, ts, D, total, op.ts);
      }
    } else {
      match op
      case Write(_, _, _, _) => WriteCovered(s, ts, D, op, s');
      case Commit(t) => SettleCovered(s, ts, D, t);
      case Read(_, _) =>
      case Prepare(_) =>
    }
  }

  lemma {:induction false} StaysCovered(r: Run, j: nat, k: nat, ts: Time, D: string, i: nat)
    requires IsRun(r) && CommitsLast(r) && SingleWriters(r) && CheckedAt(r, j, k, ts) && j < i <= k
    ensures Covered(r.stores[i], ts, D)
  {
    assert StepOf(r, i - 1);
    if i == j + 1 {
      CheckCovers(r.stores[j], ts, D);
    } else {
      StaysCovered(r, j, k, ts, D, i - 1);
      StepCovered(r, i - 1, ts, D);
    }
  }

  lemma StepCovered(r: Run, k: nat, ts: Time, D: string)
    requires IsRun(r) && CommitsLast(r) && SingleWriters(r) && k < |r.ops| && Covered(r.stores[k], ts, D)
    requires r.ops[k].ts == ts ==> !r.ops[k].Write? && !r.ops[k].Commit?
    ensures Covered(r.stores[k + 1], ts, D)
  {
    SingleIsAlone(r);
    RunLedger(r, k, D);
    NoLateFailure(r, k);
    assert OneWriterEach(r.stores[k]) && OneWriterEach(r.stores[k + 1]);
    PerformCovered(r.stores[k], DoneAt(r, k), ts, D, CommittedSum(r, k, D), r.ops[k], r.stores[k + 1], r.outs[k]);
  }

  lemma CheckCovers(s: Store, ts: Time, D: string)
    requires Solvent(s, ts)
    ensures Covered(s, ts, D)
  {
    if Wrote(Entries(s, D), ts) {
      assert Related(s, ts);
    }
  }

  /** With one live writer per account, and commits only after a successful check, no
      committed value is ever negative. */
  lemma {:induction false} NeverNegative(r: Run, k: nat, D: string)
    requires IsRun(r) && CommitsLast(r) && SingleWriters(r) && CommitsChecked(r) && k <= |r.ops|
    ensures Committed(r.stores[k], D) >= 0
  {
    if k > 0 {
      NeverNegative(r, k - 1, D);
      var s, op := r.stores[k - 1], r.ops[k - 1];
      assert StepOf(r, k - 1);
      if r.outs[k - 1].Failed? {
        FailedIsUndo(s, op);
      } else if op.Commit? {
        assert Checked(r, k - 1, op.ts);
        var j :| CheckedAt(r, j, k - 1, op.ts);
        StaysCovered(r, j, k - 1, op.ts, D, k - 1);
      }
    }
  }

  /** A pending write has an account to be committed to. */
  ghost predicate HasAccount(s: Store, D: string) {
    Entries(s, D) != [] ==> D in s.accounts
  }

  lemma UndoAccount(s: Store, done: set<Time>, D: string, total: int, ts: Time)
    requires HasAccount(s, D) && LedgerOk(s, done, D, total) && OneWriter(Entries(s, D)) && Undo(s, ts).Some?
             && ts !in done
    ensures HasAccount(Undo(s, ts).value, D) && OneWriter(Entries(Undo(s, ts).value, D))
  {
    AllOrNothing(Entries(s, D), ts);
  }

  lemma PerformAccount(s: Store, done: set<Time>, D: string, total: int, op: Op, s': Store, out: Outcome)
    requires HasAccount(s, D) && LedgerOk(s, done, D, total) && OneWriter(Entries(s, D))
             && Perform(s, op) == Some((s', out))
    requires out.Failed? ==> op.ts !in done
    ensures HasAccount(s', D)
  {
    if out.Failed? {
      FailedIsUndo(s, op);
      UndoAccount(s, done, D, total, op.ts);
      UndoLedger(s, done, D, total, op.ts);
      if Undo(Undo(s, op.ts).value, op.ts).Some? {
        UndoAccount(Undo(s, op.ts).value, done, D, total, op.ts);
      }
    } else if op.Commit? {
      AllOrNothing(Entries(s, D), op.ts);
    }
  }

  lemma StepAccount(r: Run, k: nat, D: string)
    requires IsRun(r) && CommitsLast(r) && SingleWriters(r) && k < |r.ops| && HasAccount(r.stores[k], D)
    ensures HasAccount(r.stores[k + 1], D)
  {
    SingleIsAlone(r);
    RunLedger(r, k, D);
    NoLateFailure(r, k);
    assert OneWriterEach(r.stores[k]);
    PerformAccount(r.stores[k], DoneAt(r, k), D, CommittedSum(r, k, D), r.ops[k], r.stores[k + 1], r.outs[k]);
  }

  lemma {:induction false} RunAccount(r: Run, k: nat, D: string)
    requires IsRun(r) && CommitsLast(r) && SingleWriters(r) && k <= |r.ops|
    ensures HasAccount(r.stores[k], D)
  {
    if k > 0 {
      RunAccount(r, k - 1, D);
      StepAccount(r, k - 1, D);
    }
  }

  /** In such a run a commit returns exactly if the server holds no tentative write of
      a later transaction; with one it never does. */
  lemma CommitReturnsIff(r: Run, k: nat, ts: Time)
    requires IsRun(r) && CommitsLast(r) && SingleWriters(r) && k <= |r.ops|
    ensures Settle(r.stores[k], ts).Some? <==> forall D :: D in r.stores[k].tw ==> !AnyAfter(r.stores[k].tw[D], ts)
  {
    var s := r.stores[k];
    forall D | D in s.tw ensures ReturnsAt(s, D, ts) <==> !AnyAfter(s.tw[D], ts) {
      RunAccount(r, k, D);
    }
  }
}
