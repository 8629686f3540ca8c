/** What a server answers, from the requests made so far. */
module TxHistory {
  import opened Options
  import opened TxStore
  import opened TxReads
  import opened TxLedger

  // -------------------------------------------------- what the requests amount to

  /** The transaction whose deposit opened account D, unless it was aborted since. */
  function Opener(r: Run, k: nat, D: string): Option<Time>
    requires k <= |r.ops| == |r.outs|
  {
    if k == 0 then None
    else
      var op, before := r.ops[k - 1], Opener(r, k - 1, D);
      if r.outs[k - 1].Failed? then (if before == Some(op.ts) then None else before)
      else if op.Write? && op.deposit && op.name == D && before.None? then Some(op.ts)
      else before
  }

  /** Transaction ts had a write to D accepted, and has been neither committed nor aborted
      since. */
  predicate Pending(r: Run, k: nat, D: string, ts: Time)
    requires k <= |r.ops| == |r.outs|
  {
    k > 0 &&
    var op := r.ops[k - 1];
    if op.ts == ts && (r.outs[k - 1].Failed? || op.Commit?) then false
    else (op.Write? && op.ts == ts && op.name == D) || Pending(r, k - 1, D, ts)
  }

  ghost predicate PendingUpTo(r: Run, k: nat, D: string, ts: Time)
    requires k <= |r.ops| == |r.outs|
  {
    exists t: Time {:trigger Pending(r, k, D, t)} :: t <= ts && Pending(r, k, D, t)
  }

  ghost predicate PendingAfter(r: Run, k: nat, D: string, ts: Time)
    requires k <= |r.ops| == |r.outs|
  {
    exists t: Time {:trigger Pending(r, k, D, t)} :: t > ts && Pending(r, k, D, t)
  }

  /** No transaction has a write to D pending. */
  ghost predicate NonePending(r: Run, k: nat, D: string)
    requires k <= |r.ops| == |r.outs|
  {
    forall t: Time {:trigger Pending(r, k, D, t)} :: !Pending(r, k, D, t)
  }

  /** The amounts the transactions up to ts have pending on D. */
  function AcceptedUpTo(r: Run, k: nat, D: string, ts: Time): int
    requires k <= |r.ops| == |r.outs|
    decreases ts
  {
    Accepting(r, k, D, ts) + if ts == 0 then 0 else AcceptedUpTo(r, k, D, ts - 1)
  }

  /** The last request is a commit of a transaction that had a write to D pending. */
  predicate CommitsD(r: Run, k: nat, D: string)
    requires 0 < k <= |r.ops| == |r.outs|
  {
    r.ops[k - 1].Commit? && Pending(r, k - 1, D, r.ops[k - 1].ts)
  }

  /** The transaction that last committed to D, and nothing while D is not open. */
  function LastCommit(r: Run, k: nat, D: string): Time
    requires k <= |r.ops| == |r.outs|
  {
    if k == 0 || Opener(r, k, D).None? then 0
    else if CommitsD(r, k, D) then r.ops[k - 1].ts
    else LastCommit(r, k - 1, D)
  }

  /** What commits have added to D since it was opened: each adds the amounts pending of
      its own and of earlier transactions. */
  function Worth(r: Run, k: nat, D: string): int
    requires k <= |r.ops| == |r.outs|
  {
    if k == 0 || Opener(r, k, D).None? then 0
    else Worth(r, k - 1, D) + if CommitsD(r, k, D) then AcceptedUpTo(r, k - 1, D, r.ops[k - 1].ts) else 0
  }

  /** Some write to D has been accepted. */
  predicate Listed(r: Run, k: nat, D: string)
    requires k <= |r.ops| == |r.outs|
  {
    k > 0 && ((r.ops[k - 1].Write? && r.ops[k - 1].name == D && r.outs[k - 1].Accepted?) || Listed(r, k - 1, D))
  }

  // ------------------------------------------------------------- pending writes

  lemma PerformPending(s: Store, op: Op, s': Store, out: Outcome, D: string, t: Time)
    requires Perform(s, op) == Some((s', out))
    ensures Wrote(Entries(s', D), t) <==>
              if op.ts == t && (out.Failed? || op.Commit?) then false
              else (op.Write? && op.ts == t && op.name == D) || Wrote(Entries(s, D), t)
    ensures D in s'.tw <==> (op.Write? && op.name == D && out.Accepted?) || D in s.tw
  {
    if out.Failed? {
      FailedIsUndo(s, op);
      WithoutWrote(Entries(s, D), op.ts, t);
      WithoutWrote(Entries(Undo(s, op.ts).value, D), op.ts, t);
    } else {
      match op
      case Write(ts, name, _, amount) => TentativeIs(Entries(s, name), ts, amount, t);
      case Commit(ts) => WithoutWrote(Entries(s, D), ts, t);
      case Read(_, _) =>
      case Prepare(_) =>
    }
  }

  lemma {:induction false} PendingIs(r: Run, k: nat, D: string, t: Time)
    requires IsRun(r) && k <= |r.ops|
    ensures Wrote(Entries(r.stores[k], D), t) <==> Pending(r, k, D, t)
    ensures D in r.stores[k].tw <==> Listed(r, k, D)
  {
    if k > 0 {
      PendingIs(r, k - 1, D, t);
      assert StepOf(r, k - 1);
      PerformPending(r.stores[k - 1], r.ops[k - 1], r.stores[k], r.outs[k - 1], D, t);
    }
  }

  lemma {:induction false} SumUpTo(q: seq<Entry>, ts: Time)
    ensures SumTo(q, ts) == Own(q, ts) + if ts == 0 then 0 else SumTo(q, ts - 1)
  {
    if q != [] {
      SumUpTo(q[1..], ts);
    }
  }

  /** The tentative writes up to ts sum to the amounts accepted up to ts. */
  lemma {:induction false} SumIsAccepted(r: Run, k: nat, D: string, ts: Time)
    requires IsRun(r) && k <= |r.ops|
    ensures SumTo(Entries(r.stores[k], D), ts) == AcceptedUpTo(r, k, D, ts)
    decreases ts
  {
    PendingIsAccepted(r, k, D, ts);
    SumUpTo(Entries(r.stores[k], D), ts);
    if ts > 0 {
      SumIsAccepted(r, k, D, ts - 1);
    }
  }

  lemma AnyToIs(r: Run, k: nat, D: string, ts: Time)
    requires IsRun(r) && k <= |r.ops|
    ensures AnyTo(Entries(r.stores[k], D), ts) <==> PendingUpTo(r, k, D, ts)
  {
    var q := Entries(r.stores[k], D);
    if AnyTo(q, ts) {
      var i :| 0 <= i < |q| && q[i].ts <= ts;
      PendingIs(r, k, D, q[i].ts);
    }
    if PendingUpTo(r, k, D, ts) {
      var t: Time :| t <= ts && Pending(r, k, D, t);
      PendingIs(r, k, D, t);
      var i :| 0 <= i < |q| && q[i].ts == t;
      assert q[i].ts <= ts;
    }
  }

  lemma AnyAfterIs(r: Run, k: nat, D: string, ts: Time)
    requires IsRun(r) && k <= |r.ops|
    ensures AnyAfter(Entries(r.stores[k], D), ts) <==> PendingAfter(r, k, D, ts)
  {
    var q := Entries(r.stores[k], D);
    if AnyAfter(q, ts) {
      var i :| 0 <= i < |q| && q[i].ts > ts;
      PendingIs(r, k, D, q[i].ts);
    }
    if PendingAfter(r, k, D, ts) {
      var t: Time :| t > ts && Pending(r, k, D, t);
      PendingIs(r, k, D, t);
      var i :| 0 <= i < |q| && q[i].ts == t;
      assert q[i].ts > ts;
    }
  }

  lemma EmptyIs(r: Run, k: nat, D: string)
    requires IsRun(r) && k <= |r.ops|
    ensures Entries(r.stores[k], D) == [] <==> NonePending(r, k, D)
  {
    var q := Entries(r.stores[k], D);
    if q != [] {
      PendingIs(r, k, D, q[0].ts);
    }
    forall t ensures q == [] ==> !Pending(r, k, D, t) {
      PendingIs(r, k, D, t);
    }
  }

  // ------------------------------------------------------------------ accounts

  lemma PerformOpens(s: Store, op: Op, s': Store, out: Outcome, D: string)
    requires Perform(s, op) == Some((s', out))
    ensures D in s'.accounts <==>
              if out.Failed? then D in s.accounts && s.accounts[D].created != op.ts
              else D in s.accounts || (op.Write? && op.deposit && op.name == D)
    ensures D in s'.accounts && D !in s.accounts ==> s'.accounts[D] == Account(0, 0, op.ts)
    ensures D in s'.accounts && D in s.accounts ==>
              var a, a' := s.accounts[D], s'.accounts[D];
              a' == if op.Commit? && Wrote(Entries(s, D), op.ts)
                    then Account(a.committed + SumTo(Entries(s, D), op.ts), op.ts, a.created) else a
  {
    if out.Failed? {
      FailedIsUndo(s, op);
    }
  }

  /** The account the run amounts to. */
  function AccountOf(r: Run, k: nat, D: string): Option<Account>
    requires k <= |r.ops| == |r.outs|
  {
    match Opener(r, k, D)
    case None => None
    case Some(o) => Some(Account(Worth(r, k, D), LastCommit(r, k, D), o))
  }

  function AccountIn(s: Store, D: string): Option<Account> {
    if D in s.accounts then Some(s.accounts[D]) else None
  }

  /** In every run, at every moment, an account holds exactly that. */
  lemma {:induction false} AccountIs(r: Run, k: nat, D: string)
    requires IsRun(r) && k <= |r.ops|
    ensures AccountIn(r.stores[k], D) == AccountOf(r, k, D)
  {
    if k > 0 {
      var op := r.ops[k - 1];
      AccountIs(r, k - 1, D);
      assert StepOf(r, k - 1);
      PerformOpens(r.stores[k - 1], op, r.stores[k], r.outs[k - 1], D);
      PendingIs(r, k - 1, D, op.ts);
      SumIsAccepted(r, k - 1, D, op.ts);
      AccountMoves(r, k, D);
    }
  }

  /** How the last request moves it. */
  lemma AccountMoves(r: Run, k: nat, D: string)
    requires 0 < k <= |r.ops| == |r.outs| && (r.outs[k - 1].Failed? ==> !r.ops[k - 1].Commit?)
    ensures var op, a, a' := r.ops[k - 1], AccountOf(r, k - 1, D), AccountOf(r, k, D);
            a' == if r.outs[k - 1].Failed? then (if a.Some? && a.value.created == op.ts then None else a)
                  else if a.None? then
                    (if op.Write? && op.deposit && op.name == D then Some(Account(0, 0, op.ts)) else None)
                  else if CommitsD(r, k, D) then
                    Some(Account(a.value.committed + AcceptedUpTo(r, k - 1, D, op.ts), op.ts, a.value.created))
                  else a
  {
    if AccountOf(r, k - 1, D).None? && k > 1 {
      assert Opener(r, k - 1, D).None?;
    }
  }

  /** Each transaction has one entry in a list. */
  ghost predicate Apart(q: seq<Entry>) {
    forall i, j :: 0 <= i < j < |q| ==> q[i].ts != q[j].ts
  }

  lemma {:induction false} TentativeApart(q: seq<Entry>, ts: Time, amount: int)
    requires Apart(q)
    ensures Apart(Tentative(q, ts, amount))
  {
    if q != [] && q[0].ts != ts {
      TentativeApart(q[1..], ts, amount);
      var rest := Tentative(q[1..], ts, amount);
      TentativeIs(q[1..], ts, amount, q[0].ts);
      HeadApart(q, q[0].ts);
      ConsApart(q[0], rest);
    }
  }

  lemma HeadApart(q: seq<Entry>, t: Time)
    requires Apart(q) && q != [] && q[0].ts == t
    ensures Apart(q[1..]) && !Wrote(q[1..], t)
  {
    assert forall i :: 0 <= i < |q[1..]| ==> q[1..][i] == q[i + 1];
  }

  lemma ConsApart(e: Entry, q: seq<Entry>)
    requires Apart(q) && !Wrote(q, e.ts)
    ensures Apart([e] + q)
  {
  }

  lemma {:induction false} WithoutApart(q: seq<Entry>, ts: Time)
    requires Apart(q)
    ensures Apart(Without(q, ts))
  {
    if q != [] {
      HeadApart(q, q[0].ts);
      WithoutApart(q[1..], ts);
      if q[0].ts != ts {
        WithoutWrote(q[1..], ts, q[0].ts);
        ConsApart(q[0], Without(q[1..], ts));
      }
    }
  }

  lemma PerformApart(s: Store, op: Op, s': Store, out: Outcome, D: string)
    requires Perform(s, op) == Some((s', out)) && Apart(Entries(s, D))
    ensures Apart(Entries(s', D))
  {
    WithoutApart(Entries(s, D), op.ts);
    if out.Failed? {
      FailedIsUndo(s, op);
      WithoutApart(Entries(Undo(s, op.ts).value, D), op.ts);
    } else if op.Write? && op.name == D {
      TentativeApart(Entries(s, D), op.ts, op.amount);
    }
  }

  /** In every run a transaction has at most one entry in each list, with all it has
      pending there. */
  lemma {:induction false} OneEntryEach(r: Run, k: nat, D: string)
    requires IsRun(r) && k <= |r.ops|
    ensures Apart(Entries(r.stores[k], D))
  {
    if k > 0 {
      OneEntryEach(r, k - 1, D);
      assert StepOf(r, k - 1);
      PerformApart(r.stores[k - 1], r.ops[k - 1], r.stores[k], r.outs[k - 1], D);
    }
  }

  // -------------------------------------------------------------------- reading

  /** In every run the answer to a read is settled by the requests before it: too late, or
      no account; the committed value; the transaction's own view, with earlier pending
      writes in it; or wait for an earlier writer. */
  lemma ReadIs(r: Run, k: nat, ts: Time, D: string)
    requires IsRun(r) && k < |r.ops| && r.ops[k] == Read(ts, D)
    ensures r.outs[k] ==
              if Opener(r, k, D).None? || ts <= LastCommit(r, k, D) then Failed
              else if !PendingUpTo(r, k, D, ts) then Answered(Value(Worth(r, k, D)))
              else if Pending(r, k, D, ts) then Answered(Value(Worth(r, k, D) + AcceptedUpTo(r, k, D, ts)))
              else Answered(Blocked)
  {
    assert StepOf(r, k);
    AccountIs(r, k, D);
    AnyToIs(r, k, D, ts);
    PendingIs(r, k, D, ts);
    SumIsAccepted(r, k, D, ts);
  }

  /** With one writer, what is pending up to that writer is its own. */
  lemma OwnAlone(r: Run, k: nat, ts: Time, D: string)
    requires IsRun(r) && SingleWriters(r) && k <= |r.ops| && Pending(r, k, D, ts)
    ensures AcceptedUpTo(r, k, D, ts) == Accepting(r, k, D, ts)
  {
    var q := Entries(r.stores[k], D);
    assert OneWriterEach(r.stores[k]);
    PendingIs(r, k, D, ts);
    OneWriterAlone(q, ts);
    AloneNoEarlier(q, ts);
    SumSplits(q, ts);
    SumIsAccepted(r, k, D, ts);
    PendingIsAccepted(r, k, D, ts);
  }

  lemma WorthIsCommitted(r: Run, k: nat, D: string)
    requires IsRun(r) && k <= |r.ops|
    ensures Committed(r.stores[k], D) == Worth(r, k, D)
  {
    AccountIs(r, k, D);
  }

  /** A transaction sees its own writes: with one live writer per account, on a server
      that commits last, an answered read by a transaction that has a write pending on the
      account returns the committed amounts and its own accepted ones. */
  lemma ReadsOwnWrites(r: Run, k: nat, ts: Time, D: string, V: int)
    requires IsRun(r) && CommitsLast(r) && SingleWriters(r) && ReadsAt(r, k, ts, D, V) && Pending(r, k, D, ts)
    ensures V == CommittedSum(r, k, D) + Accepting(r, k, D, ts)
  {
    ReadIs(r, k, ts, D);
    OwnAlone(r, k, ts, D);
    SingleIsAlone(r);
    LedgerExact(r, k, D);
    WorthIsCommitted(r, k, D);
    assert Pending(r, k, D, ts) && ts <= ts;
  }

  // ------------------------------------------------------------- readings on record

  /** Request j reads D for t and is answered from the committed value. */
  predicate ReadCommittedAt(r: Run, j: nat, t: Time, D: string)
    requires |r.ops| == |r.outs|
  {
    && j < |r.ops| && r.ops[j] == Read(t, D) && r.outs[j].Answered? && r.outs[j].answer.Value?
    && !Pending(r, j, D, t)
  }

  /** Such a reading is put at the end of the record, and nothing else is. */
  lemma RecordGrows(r: Run, k: nat, D: string)
    requires IsRun(r) && k < |r.ops| && !r.outs[k].Failed?
    ensures Readers(r.stores[k + 1], D)
         == Readers(r.stores[k], D) + if ReadCommittedAt(r, k, r.ops[k].ts, D) then [r.ops[k].ts] else []
  {
    assert StepOf(r, k);
    PendingIs(r, k, D, r.ops[k].ts);
    if r.ops[k].Read? {
      WroteIsTo(Entries(r.stores[k], D), r.ops[k].ts);
    }
  }

  /** An abort takes readings of its own transaction off the record only. */
  lemma RecordShrinks(r: Run, k: nat, D: string, t: Time)
    requires IsRun(r) && k < |r.ops| && r.outs[k].Failed?
    ensures t in Readers(r.stores[k + 1], D) ==> t in Readers(r.stores[k], D)
    ensures t != r.ops[k].ts ==> (t in Readers(r.stores[k + 1], D) <==> t in Readers(r.stores[k], D))
  {
    assert StepOf(r, k);
    var s, ts := r.stores[k], r.ops[k].ts;
    FailedIsUndo(s, r.ops[k]);
    UndoReaders(s, ts, D, t);
    if Undo(Undo(s, ts).value, ts).Some? {
      UndoReaders(Undo(s, ts).value, ts, D, t);
    }
  }

  lemma UndoReaders(s: Store, ts: Time, D: string, t: Time)
    requires Undo(s, ts).Some?
    ensures var s' := Undo(s, ts).value;
            && (t in Readers(s', D) ==> t in Readers(s, D))
            && (t != ts ==> (t in Readers(s', D) <==> t in Readers(s, D)))
  {
    if t != ts {
      AbortKeepsOthers(s, ts, D, t);
    } else if D in s.rts {
      ScanKept(s.rts[D], |s.rts|, ts);
    }
  }

  lemma {:induction false} ScanKept(q: seq<Time>, bound: nat, ts: Time)
    ensures Scan(q, bound, ts).Some? ==> forall t :: t in Scan(q, bound, ts).value ==> t in q
  {
    if q != [] && bound > 0 {
      ScanKept(q[1..], if q[0] == ts then bound else bound - 1, ts);
      assert q == [q[0]] + q[1..];
    }
  }

  /** Whoever is on record has read; who has read is on record until it is aborted. */
  lemma {:induction false} RecordIs(r: Run, k: nat, D: string, t: Time)
    requires IsRun(r) && k <= |r.ops|
    ensures t in Readers(r.stores[k], D) ==> exists j :: 0 <= j < k && ReadCommittedAt(r, j, t, D)
    ensures (exists j :: 0 <= j < k && ReadCommittedAt(r, j, t, D) && forall l :: j < l < k ==> !AbortsAt(r, l, t)) ==>
              t in Readers(r.stores[k], D)
  {
    if k > 0 {
      RecordIs(r, k - 1, D, t);
      if r.outs[k - 1].Failed? {
        RecordShrinks(r, k - 1, D, t);
        assert r.ops[k - 1].ts == t ==> AbortsAt(r, k - 1, t);
        assert !ReadCommittedAt(r, k - 1, t, D);
      } else {
        RecordGrows(r, k - 1, D);
      }
    }
  }

  // -------------------------------------------------------------------- writing

  /** In every run a write is accepted exactly when the account is open or it is a deposit,
      no later transaction's reading of the account is on record, and no write is pending
      there or the last to commit there was an earlier transaction. */
  lemma WriteIs(r: Run, k: nat, ts: Time, D: string, deposit: bool, amount: int)
    requires IsRun(r) && k < |r.ops| && r.ops[k] == Write(ts, D, deposit, amount)
    ensures r.outs[k] ==
              if && (Opener(r, k, D).Some? || deposit)
                 && (forall t :: t in Readers(r.stores[k], D) ==> t <= ts)
                 && (NonePending(r, k, D) || LastCommit(r, k, D) < ts)
              then Accepted else Failed
  {
    assert StepOf(r, k);
    AccountIs(r, k, D);
    EmptyIs(r, k, D);
    var q := Readers(r.stores[k], D);
    assert (forall i :: 0 <= i < |q| ==> q[i] in q);
  }

  /** A deposit that is refused still opens a missing account; only the abort that follows
      closes it again. */
  lemma RefusedDepositOpens(s: Store, D: string, amount: int, ts: Time)
    requires D !in s.accounts && Attempt(s, Write(ts, D, true, amount)).1.Failed?
    ensures var s' := Attempt(s, Write(ts, D, true, amount)).0;
            && s'.accounts == s.accounts[D := Account(0, 0, ts)] && s'.tw == s.tw && s'.rts == s.rts
            && Undo(s', ts) == Undo(s, ts)
  {
    OpenedUndone(s, D, ts);
  }

  /** A later transaction has read D. */
  ghost predicate LaterReader(r: Run, k: nat, ts: Time, D: string)
    requires k <= |r.ops| == |r.outs|
  {
    exists j, t {:trigger ReadCommittedAt(r, j, t, D)} :: 0 <= j < k && t > ts && ReadCommittedAt(r, j, t, D)
  }

  /** None that has was aborted since its reading. */
  ghost predicate ReadersLive(r: Run, k: nat, ts: Time, D: string)
    requires k <= |r.ops| == |r.outs|
  {
    forall j, l, t {:trigger ReadCommittedAt(r, j, t, D), AbortsAt(r, l, t)} ::
      0 <= j < l < k && t > ts && ReadCommittedAt(r, j, t, D) ==> !AbortsAt(r, l, t)
  }

  lemma LaterOnRecord(r: Run, k: nat, ts: Time, D: string)
    requires IsRun(r) && k <= |r.ops| && ReadersLive(r, k, ts, D)
    ensures LaterReader(r, k, ts, D) <==> exists t :: t in Readers(r.stores[k], D) && t > ts
  {
    if LaterReader(r, k, ts, D) {
      var j: nat, t: Time :| j < k && t > ts && ReadCommittedAt(r, j, t, D);
      RecordIs(r, k, D, t);
      forall l | j < l < k ensures !AbortsAt(r, l, t) {
      }
    }
    if t :| t in Readers(r.stores[k], D) && t > ts {
      RecordIs(r, k, D, t);
    }
  }

  /** By requests alone: as long as no later reader of the account was aborted, a write is
      accepted exactly when the account is open or it is a deposit, no later transaction
      has read it, and no write is pending there or the last to commit was earlier. */
  lemma WriteAcceptedIff(r: Run, k: nat, ts: Time, D: string, deposit: bool, amount: int)
    requires IsRun(r) && k < |r.ops| && r.ops[k] == Write(ts, D, deposit, amount) && ReadersLive(r, k, ts, D)
    ensures r.outs[k].Accepted? <==>
              && (Opener(r, k, D).Some? || deposit)
              && !LaterReader(r, k, ts, D)
              && (NonePending(r, k, D) || LastCommit(r, k, D) < ts)
  {
    WriteIs(r, k, ts, D, deposit, amount);
    LaterOnRecord(r, k, ts, D);
  }

  /** A transaction's own reading never refuses its write: one that has just read the
      committed value may write the account, if no later transaction has read it. */
  lemma ReadThenWrite(r: Run, k: nat, ts: Time, D: string, deposit: bool, amount: int)
    requires IsRun(r) && k + 1 < |r.ops|
    requires ReadCommittedAt(r, k, ts, D) && r.ops[k + 1] == Write(ts, D, deposit, amount)
    requires !LaterReader(r, k, ts, D)
    ensures r.outs[k + 1].Accepted?
  {
    ReadIs(r, k, ts, D);
    WriteIs(r, k + 1, ts, D, deposit, amount);
    RecordGrows(r, k, D);
    var q := Readers(r.stores[k + 1], D);
    forall t | t in q ensures t <= ts {
      if t in Readers(r.stores[k], D) {
        RecordIs(r, k, D, t);
      }
    }
    SameAccount(r, k, D);
  }

  /** An answered read changes no account. */
  lemma SameAccount(r: Run, k: nat, D: string)
    requires IsRun(r) && k < |r.ops| && r.ops[k].Read? && !r.outs[k].Failed?
    ensures Opener(r, k + 1, D) == Opener(r, k, D)
    ensures Opener(r, k, D).Some? ==> LastCommit(r, k + 1, D) == LastCommit(r, k, D)
  {
  }

  // --------------------------------------------------------------------- checking

  /** What the check compares, account by account. */
  ghost predicate Affords(r: Run, k: nat, ts: Time)
    requires k <= |r.ops| == |r.outs|
  {
    forall D {:trigger Listed(r, k, D)} :: Listed(r, k, D) ==> Worth(r, k, D) + AcceptedUpTo(r, k, D, ts) >= 0
  }

  ghost predicate WroteHere(r: Run, k: nat, ts: Time)
    requires k <= |r.ops| == |r.outs|
  {
    exists D {:trigger Pending(r, k, D, ts)} :: Pending(r, k, D, ts)
  }

  lemma SolventIs(r: Run, k: nat, ts: Time)
    requires IsRun(r) && k <= |r.ops|
    ensures Solvent(r.stores[k], ts) <==> (WroteHere(r, k, ts) ==> Affords(r, k, ts))
  {
    var s := r.stores[k];
    forall D ensures D in s.tw <==> Listed(r, k, D) {
      PendingIs(r, k, D, ts);
    }
    forall D ensures Wrote(Entries(s, D), ts) <==> Pending(r, k, D, ts) {
      PendingIs(r, k, D, ts);
    }
    forall D ensures Committed(s, D) + SumTo(Entries(s, D), ts) == Worth(r, k, D) + AcceptedUpTo(r, k, D, ts) {
      WorthIsCommitted(r, k, D);
      SumIsAccepted(r, k, D, ts);
    }
    assert forall D :: D in s.tw ==> Entries(s, D) == s.tw[D];
    if Related(s, ts) {
      var D :| D in s.tw && Wrote(s.tw[D], ts);
      assert Pending(r, k, D, ts);
    }
    if WroteHere(r, k, ts) {
      var D :| Pending(r, k, D, ts);
      assert Wrote(Entries(s, D), ts);
    }
  }

  /** In every run a check succeeds exactly when the transaction has no write pending here,
      or every account that was ever written has, with what was accepted up to the
      transaction, at least nothing. */
  lemma PrepareIs(r: Run, k: nat, ts: Time)
    requires IsRun(r) && k < |r.ops| && r.ops[k] == Prepare(ts)
    ensures r.outs[k] == if WroteHere(r, k, ts) ==> Affords(r, k, ts) then Accepted else Failed
  {
    assert StepOf(r, k);
    SolventIs(r, k, ts);
  }

  lemma UnwrittenVotesYes(r: Run, k: nat, ts: Time)
    requires IsRun(r) && k < |r.ops| && r.ops[k] == Prepare(ts) && !WroteHere(r, k, ts)
    ensures r.outs[k].Accepted?
  {
    PrepareIs(r, k, ts);
  }

  /** The same with what was committed and what the transaction itself had accepted. */
  ghost predicate AffordsOwn(r: Run, k: nat, ts: Time)
    requires k <= |r.ops| == |r.outs|
  {
    forall D {:trigger Listed(r, k, D)} :: Listed(r, k, D) ==> CommittedSum(r, k, D) + Accepting(r, k, D, ts) >= 0
  }

  ghost predicate NoneEarlierPending(r: Run, k: nat, ts: Time)
    requires k <= |r.ops| == |r.outs|
  {
    forall D, t: Time {:trigger Pending(r, k, D, t)} :: t < ts ==> !Pending(r, k, D, t)
  }

  lemma OwnAmounts(r: Run, k: nat, ts: Time, D: string)
    requires IsRun(r) && CommitsLast(r) && SingleWriters(r) && k <= |r.ops| && NoneEarlierPending(r, k, ts)
    ensures Worth(r, k, D) + AcceptedUpTo(r, k, D, ts) == CommittedSum(r, k, D) + Accepting(r, k, D, ts)
  {
    SingleIsAlone(r);
    LedgerExact(r, k, D);
    WorthIsCommitted(r, k, D);
    NoEarlierAmount(r, k, D, ts);
  }

  /** With one live writer per account and no earlier write pending, a check succeeds
      exactly when the transaction has no write pending here, or every account that was
      ever written has, with the transaction's own amounts, at least nothing. */
  lemma CheckIff(r: Run, k: nat, ts: Time)
    requires IsRun(r) && CommitsLast(r) && SingleWriters(r) && k < |r.ops| && r.ops[k] == Prepare(ts)
    requires NoneEarlierPending(r, k, ts)
    ensures r.outs[k].Accepted? <==> (WroteHere(r, k, ts) ==> AffordsOwn(r, k, ts))
  {
    PrepareIs(r, k, ts);
    if Affords(r, k, ts) {
      forall D | Listed(r, k, D) ensures CommittedSum(r, k, D) + Accepting(r, k, D, ts) >= 0 {
        OwnAmounts(r, k, ts, D);
      }
    }
    if AffordsOwn(r, k, ts) {
      forall D | Listed(r, k, D) ensures Worth(r, k, D) + AcceptedUpTo(r, k, D, ts) >= 0 {
        OwnAmounts(r, k, ts, D);
      }
    }
  }

  lemma NoEarlierAmount(r: Run, k: nat, D: string, ts: Time)
    requires IsRun(r) && k <= |r.ops| && NoneEarlierPending(r, k, ts)
    ensures AcceptedUpTo(r, k, D, ts) == Accepting(r, k, D, ts)
  {
    var q := Entries(r.stores[k], D);
    forall i | 0 <= i < |q| ensures q[i].ts >= ts {
      PendingIs(r, k, D, q[i].ts);
    }
    NoneEarlier(q, ts);
    SumSplits(q, ts);
    SumIsAccepted(r, k, D, ts);
    PendingIsAccepted(r, k, D, ts);
  }

  lemma {:induction false} NoneEarlier(q: seq<Entry>, ts: Time)
    requires forall i :: 0 <= i < |q| ==> q[i].ts >= ts
    ensures Earlier(q, ts) == 0
  {
    if q != [] {
      assert forall i :: 0 <= i < |q[1..]| ==> q[1..][i] == q[i + 1];
      NoneEarlier(q[1..], ts);
    }
  }

  // -------------------------------------------------------------------- committing

  /** Nothing stops a commit of ts at D: no write of a later transaction is pending there,
      and the account is open if the transaction has one pending. */
  ghost predicate Clear(r: Run, k: nat, D: string, ts: Time)
    requires k <= |r.ops| == |r.outs|
  {
    !PendingAfter(r, k, D, ts) && (Pending(r, k, D, ts) ==> Opener(r, k, D).Some?)
  }

  lemma ClearIs(r: Run, k: nat, D: string, ts: Time)
    requires IsRun(r) && k <= |r.ops|
    ensures ReturnsAt(r.stores[k], D, ts) <==> Clear(r, k, D, ts)
  {
    AnyAfterIs(r, k, D, ts);
    PendingIs(r, k, D, ts);
    AccountIs(r, k, D);
  }

  /** In every run a commit returns exactly if no account stops it. */
  lemma CommitReturnsExactly(r: Run, k: nat, ts: Time)
    requires IsRun(r) && k <= |r.ops|
    ensures Perform(r.stores[k], Commit(ts)).Some? <==> forall D :: Clear(r, k, D, ts)
  {
    var s := r.stores[k];
    if CommitReturns(s, ts) {
      forall D ensures Clear(r, k, D, ts) {
        ClearIs(r, k, D, ts);
      }
    }
    if forall D :: Clear(r, k, D, ts) {
      forall D | D in s.tw ensures ReturnsAt(s, D, ts) {
        ClearIs(r, k, D, ts);
      }
    }
  }
}
