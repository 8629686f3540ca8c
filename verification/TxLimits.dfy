/** Concrete runs showing that the provisos of the timestamp-ordering results are
    needed, and one that goes as it should. */
module TxLimits {
  import opened Options
  import opened TxStore
  import opened TxReads

  lemma Single(q: seq<Entry>, t: Time, x: int, ts: Time)
    requires q == [Entry(t, x)]
    ensures Wrote(q, ts) <==> t == ts
    ensures AnyTo(q, ts) <==> t <= ts
    ensures AnyAfter(q, ts) <==> t > ts
    ensures SumTo(q, ts) == (if t <= ts then x else 0) && Without(q, ts) == if t == ts then [] else q
  {
    assert q[0].ts == t && q[1..] == [];
  }

  lemma SettleA(s: Store, q: seq<Entry>, ts: Time)
    requires s.tw == map["A" := q] && s.accounts.Keys == {"A"} && Wrote(q, ts) && !AnyAfter(q, ts)
    ensures var a := s.accounts["A"];
            Settle(s, ts) == Some(Store(map["A" := Account(a.committed + SumTo(q, ts), ts, a.created)],
                                        map["A" := Without(q, ts)], s.rts))
  {
    assert Entries(s, "A") == q;
    assert forall name :: name in s.tw ==> name == "A";
    assert CommitReturns(s, ts);
    var t := Settle(s, ts).value;
    assert t.tw == map["A" := Without(q, ts)];
    assert t.accounts == map["A" := Settled(s, "A", ts)];
  }

  // ----------------------------------------------- aborting what is committed

  /** The opener of account A is aborted while 5 is the only reader. */
  lemma UndoA(s: Store, s': Store, c: int, ct: Time, o: Time, q: seq<Entry>)
    requires s == Store(map["A" := Account(c, ct, o)], map["A" := q], map["A" := [5]]) && o != 5
    requires s' == Store(map[], map["A" := Without(q, o)], map["A" := [5]])
    ensures Undo(s, o) == Some(s')
  {
    var readers: seq<Time> := [5];
    assert readers[1..] == [] && readers == [readers[0]] + readers[1..];
    assert Scan(readers[1..], 0, o) == Some(readers[1..]);
    assert Scan(readers, 1, o) == Some(readers);
    assert s.rts.Keys == {"A"};
    assert |s.rts| == 1;
    var t := Undo(s, o).value;
    assert t.accounts == map[] && t.tw == s'.tw && t.rts == s'.rts;
  }

  /** The request takes s to s2 with the given outcome. */
  predicate Yields(s: Store, op: Op, s2: Store, out: Outcome) {
    Perform(s, op) == Some((s2, out))
  }

  lemma ReadsFree(s: Store, s2: Store, q: seq<Entry>, ts: Time, x: int)
    requires "A" in s.accounts && s.accounts["A"].committedTs < ts && s.accounts["A"].committed == x
    requires Entries(s, "A") == q && !AnyTo(q, ts)
    requires s2 == s.(rts := s.rts["A" := Readers(s, "A") + [ts]])
    ensures Yields(s, Read(ts, "A"), s2, Answered(Value(x)))
  {
  }

  lemma Opens(s: Store, s2: Store, ts: Time, x: int)
    requires s.accounts == map[] && Entries(s, "A") == [] && NotBefore(Readers(s, "A"), ts)
    requires s2 == Store(map["A" := Account(0, 0, ts)], s.tw["A" := [Entry(ts, x)]], s.rts)
    ensures Yields(s, Write(ts, "A", true, x), s2, Accepted)
  {
    assert Opened(s, "A", ts).accounts == map["A" := Account(0, 0, ts)];
  }

  function LateStores(): seq<Store> {
    var s2 := Store(map["A" := Account(10, 1, 1)], map["A" := []], map[]);
    var s5 := Store(map["A" := Account(0, 0, 6)], map["A" := [Entry(6, 3)]], map["A" := [5]]);
    [EMPTY, Store(map["A" := Account(0, 0, 1)], map["A" := [Entry(1, 10)]], map[]), s2, s2.(rts := map["A" := [5]]),
     Store(map[], map["A" := []], map["A" := [5]]), s5, s5.(rts := map["A" := [5, 5]])]
  }

  lemma LateAbortFirst()
    ensures var s := LateStores();
            Yields(s[0], Write(1, "A", true, 10), s[1], Accepted) && Yields(s[1], Commit(1), s[2], Accepted)
  {
    var s := LateStores();
    Opens(s[0], s[1], 1, 10);
    Single([Entry(1, 10)], 1, 10, 1);
    SettleA(s[1], [Entry(1, 10)], 1);
  }

  lemma LateAbortMiddle(s2: Store, s3: Store, s4: Store)
    requires s2 == LateStores()[2] && s3 == LateStores()[3] && s4 == LateStores()[4]
    ensures Yields(s2, Read(5, "A"), s3, Answered(Value(10))) && Yields(s3, Abort(1), s4, Failed)
  {
    var none: seq<Time> := [];
    assert none + [5] == [5];
    assert Readers(s2, "A") == none;
    ReadsFree(s2, s3, Entries(s2, "A"), 5, 10);
    UndoA(s3, s4, 10, 1, 1, []);
  }

  lemma LateAbortLast(s4: Store, s5: Store, s6: Store)
    requires s4 == LateStores()[4] && s5 == LateStores()[5] && s6 == LateStores()[6]
    ensures Yields(s4, Write(6, "A", true, 3), s5, Accepted) && Yields(s5, Read(5, "A"), s6, Answered(Value(0)))
  {
    assert s4.tw["A" := [Entry(6, 3)]] == s5.tw;
    Opens(s4, s5, 6, 3);
    Single([Entry(6, 3)], 6, 3, 5);
    var readers: seq<Time> := [5];
    assert readers + [5] == [5, 5] && s5.rts["A" := [5, 5]] == s6.rts;
    ReadsFree(s5, s6, [Entry(6, 3)], 5, 0);
  }

  /** Transaction 1 opens account A with 10 and commits, 5 reads 10, an abort of 1
      deletes the account, 6 opens it again with 3, and 5 reads 0. */
  function LateRun(): Run {
    Run(LateStores(),
        [Write(1, "A", true, 10), Commit(1), Read(5, "A"), Abort(1), Write(6, "A", true, 3), Read(5, "A")],
        [Accepted, Accepted, Answered(Value(10)), Failed, Accepted, Answered(Value(0))])
  }

  lemma LateStep(k: nat)
    requires k < 6
    ensures StepOf(LateRun(), k)
  {
    var s := LateStores();
    if k < 2 {
      LateAbortFirst();
    } else if k < 4 {
      LateAbortMiddle(s[2], s[3], s[4]);
    } else {
      LateAbortLast(s[4], s[5], s[6]);
    }
  }

  /** A server that may abort what it committed does not read repeatably. */
  lemma LateAbortChangesReading() returns (r: Run)
    ensures IsRun(r) && OnlyReads(r, 2, 5, 5, "A") && CommitsAt(r, 1, 1) && AbortsAt(r, 3, 1)
    ensures ReadsAt(r, 2, 5, "A", 10) && ReadsAt(r, 5, 5, "A", 0)
  {
    r := LateRun();
    forall k | 0 <= k < 6 ensures StepOf(r, k) {
      LateStep(k);
    }
  }

  // -------------------------------------------------------- an abort that panics

  /** The only reader of the only account is aborted: the loop over its read list runs
      off the end. */
  lemma AbortPanics() returns (r: Run)
    ensures IsRun(r) && |r.ops| == 3 && Perform(r.stores[3], Abort(5)) == None
  {
    var whole := LateRun();
    r := Run(whole.stores[..4], whole.ops[..3], whole.outs[..3]);
    forall k | 0 <= k < 3 ensures StepOf(r, k) {
      LateStep(k);
      assert StepOf(whole, k);
    }
    OnlyReaderAborts(r.stores[3]);
  }

  lemma OnlyReaderAborts(s: Store)
    requires s.rts == map["A" := [5]]
    ensures Undo(s, 5) == None
  {
    var q: seq<Time> := [5];
    assert s.rts.Keys == {"A"};
    assert |s.rts| == 1 && q[1..] == [];
    assert Scan(q, 1, 5) == None;
    assert s.rts["A"] == q;
  }

  // ------------------------------------------- a commit in between, a lost opener

  lemma WritesMore(s: Store, s2: Store, q: seq<Entry>, o: Time, t: Time, x: int)
    requires s.accounts == map["A" := Account(0, 0, o)] && s.tw == map["A" := q] && q != [] && t > 0
    requires (forall i :: 0 <= i < |q| ==> q[i].ts != t) && NotBefore(Readers(s, "A"), t)
    requires s2 == s.(tw := map["A" := q + [Entry(t, x)]])
    ensures Yields(s, Write(t, "A", true, x), s2, Accepted)
  {
    TentativeLast(q, t, x);
    assert s.tw["A" := q + [Entry(t, x)]] == s2.tw;
  }

  lemma {:induction false} TentativeLast(q: seq<Entry>, t: Time, x: int)
    requires forall i :: 0 <= i < |q| ==> q[i].ts != t
    ensures Tentative(q, t, x) == q + [Entry(t, x)]
  {
    if q != [] {
      TentativeLast(q[1..], t, x);
    }
  }

  lemma TwoEntries(q: seq<Entry>, t: Time, x: int, u: Time, y: int)
    requires q == [Entry(t, x), Entry(u, y)] && t < u
    ensures Wrote(q, t) && Wrote(q, u) && AnyAfter(q, t) && !AnyAfter(q, u)
    ensures SumTo(q, u) == x + y && Without(q, u) == [Entry(t, x)]
    ensures forall ts :: AnyTo(q, ts) <==> t <= ts
  {
    assert q[0].ts == t && q[1].ts == u;
    Single(q[1..], u, y, u);
    assert [q[0]] + [] == [Entry(t, x)];
  }

  /** 9 opens A, 5 reads 0, 10 commits to A, an abort of 9 deletes the account, 12 opens
      it again, and 5 reads 0 once more. */
  function LostOpener(): Run {
    var s1 := Store(map["A" := Account(0, 0, 9)], map["A" := [Entry(9, 3)]], map[]);
    var s2 := s1.(rts := map["A" := [5]]);
    var s6 := Store(map["A" := Account(0, 0, 12)], map["A" := [Entry(12, 1)]], map["A" := [5]]);
    Run([EMPTY, s1, s2, s2.(tw := map["A" := [Entry(9, 3), Entry(10, 4)]]),
         Store(map["A" := Account(7, 10, 9)], map["A" := [Entry(9, 3)]], map["A" := [5]]),
         Store(map[], map["A" := []], map["A" := [5]]), s6, s6.(rts := map["A" := [5, 5]])],
        [Write(9, "A", true, 3), Read(5, "A"), Write(10, "A", true, 4), Commit(10), Abort(9),
         Write(12, "A", true, 1), Read(5, "A")],
        [Accepted, Answered(Value(0)), Accepted, Accepted, Failed, Accepted, Answered(Value(0))])
  }

  lemma LostOpenerStart(s0: Store, s1: Store, s2: Store)
    requires var s := LostOpener().stores; s0 == s[0] && s1 == s[1] && s2 == s[2]
    ensures Yields(s0, Write(9, "A", true, 3), s1, Accepted) && Yields(s1, Read(5, "A"), s2, Answered(Value(0)))
  {
    Opens(s0, s1, 9, 3);
    Single([Entry(9, 3)], 9, 3, 5);
    var none: seq<Time> := [];
    assert none + [5] == [5] && Readers(s1, "A") == none;
    ReadsFree(s1, s2, [Entry(9, 3)], 5, 0);
  }

  lemma LostOpenerMiddle(s2: Store, s3: Store, s4: Store)
    requires var s := LostOpener().stores; s2 == s[2] && s3 == s[3] && s4 == s[4]
    ensures Yields(s2, Write(10, "A", true, 4), s3, Accepted) && Yields(s3, Commit(10), s4, Accepted)
  {
    var q := [Entry(9, 3)];
    assert q + [Entry(10, 4)] == [Entry(9, 3), Entry(10, 4)];
    WritesMore(s2, s3, q, 9, 10, 4);
    TwoEntries(s3.tw["A"], 9, 3, 10, 4);
    SettleA(s3, s3.tw["A"], 10);
  }

  lemma LostOpenerEnd(s4: Store, s5: Store, s6: Store, s7: Store)
    requires var s := LostOpener().stores; s4 == s[4] && s5 == s[5] && s6 == s[6] && s7 == s[7]
    ensures Yields(s4, Abort(9), s5, Failed) && Yields(s5, Write(12, "A", true, 1), s6, Accepted)
    ensures Yields(s6, Read(5, "A"), s7, Answered(Value(0)))
  {
    Single([Entry(9, 3)], 9, 3, 9);
    UndoA(s4, s5, 7, 10, 9, [Entry(9, 3)]);
    assert s5.tw["A" := [Entry(12, 1)]] == s6.tw;
    Opens(s5, s6, 12, 1);
    Single([Entry(12, 1)], 12, 1, 5);
    var readers: seq<Time> := [5];
    assert readers + [5] == [5, 5] && s6.rts["A" := [5, 5]] == s7.rts;
    ReadsFree(s6, s7, [Entry(12, 1)], 5, 0);
  }

  lemma LostOpenerStep(r: Run, k: nat)
    requires r == LostOpener() && k < 7
    ensures StepOf(r, k)
  {
    var s := r.stores;
    if k < 2 {
      LostOpenerStart(s[0], s[1], s[2]);
    } else if k < 4 {
      LostOpenerMiddle(s[2], s[3], s[4]);
    } else {
      LostOpenerEnd(s[4], s[5], s[6], s[7]);
    }
  }

  /** An intervening commit does not make the second reading fail if the account's
      opener, not committed by the first reading, is aborted in between; the server never
      aborts what it committed. */
  lemma LostOpenerReadsAgain() returns (r: Run)
    ensures IsRun(r) && CommitsLast(r) && OnlyReads(r, 1, 6, 5, "A")
    ensures ReadsAt(r, 1, 5, "A", 0) && ReadsAt(r, 6, 5, "A", 0) && CommitsTo(r, 3, "A")
    ensures OpenedBy(r.stores[1], "A", 9) && 9 !in DoneAt(r, 1) && AbortsAt(r, 4, 9)
  {
    r := LostOpener();
    forall k | 0 <= k < 7 ensures StepOf(r, k) {
      LostOpenerStep(r, k);
    }
    TwoEntries(r.stores[3].tw["A"], 9, 3, 10, 4);
    forall j, k, ts | 0 <= j < k && CommitsAt(r, j, ts) ensures !AbortsAt(r, k, ts) {
      assert j == 3 && ts == 10;
    }
  }

  // ------------------------------------------------------ two live writers

  function TwoLive(x: int, y: int): Run {
    var s1 := Store(map["A" := Account(0, 0, 1)], map["A" := [Entry(1, x)]], map[]);
    Run([EMPTY, s1, s1.(tw := map["A" := [Entry(1, x), Entry(2, y)]]),
         Store(map["A" := Account(x + y, 2, 1)], map["A" := [Entry(1, x)]], map[]),
         Store(map["A" := Account(x + y + x, 1, 1)], map["A" := []], map[])],
        [Write(1, "A", true, x), Write(2, "A", true, y), Commit(2), Commit(1)],
        [Accepted, Accepted, Accepted, Accepted])
  }

  lemma TwoLiveWrites(x: int, y: int, s0: Store, s1: Store, s2: Store)
    requires var s := TwoLive(x, y).stores; s0 == s[0] && s1 == s[1] && s2 == s[2]
    ensures Yields(s0, Write(1, "A", true, x), s1, Accepted) && Yields(s1, Write(2, "A", true, y), s2, Accepted)
  {
    Opens(s0, s1, 1, x);
    var q := [Entry(1, x)];
    assert q + [Entry(2, y)] == [Entry(1, x), Entry(2, y)];
    WritesMore(s1, s2, q, 1, 2, y);
  }

  lemma TwoLiveCommits(x: int, y: int, s2: Store, s3: Store, s4: Store)
    requires var s := TwoLive(x, y).stores; s2 == s[2] && s3 == s[3] && s4 == s[4]
    ensures Yields(s2, Commit(2), s3, Accepted) && Yields(s3, Commit(1), s4, Accepted)
  {
    TwoEntries(s2.tw["A"], 1, x, 2, y);
    SettleA(s2, s2.tw["A"], 2);
    Single(s3.tw["A"], 1, x, 1);
    SettleA(s3, s3.tw["A"], 1);
  }

  lemma TwoLiveStep(r: Run, x: int, y: int, k: nat)
    requires r == TwoLive(x, y) && k < 4
    ensures StepOf(r, k)
  {
    var s := r.stores;
    if k < 2 {
      TwoLiveWrites(x, y, s[0], s[1], s[2]);
    } else {
      TwoLiveCommits(x, y, s[2], s[3], s[4]);
    }
  }

  /** Transactions 1 and 2 deposit x and y on one account.  Committing 1 first never
      returns; committing 2 first counts x twice. */
  lemma TwoWriters(x: int, y: int) returns (r: Run)
    ensures IsRun(r) && |r.ops| == 4 && r.ops[..2] == [Write(1, "A", true, x), Write(2, "A", true, y)]
    ensures Perform(r.stores[2], Commit(1)) == None
    ensures r.ops[2..] == [Commit(2), Commit(1)] && Committed(r.stores[4], "A") == x + y + x
  {
    r := TwoLive(x, y);
    forall k | 0 <= k < 4 ensures StepOf(r, k) {
      TwoLiveStep(r, x, y, k);
    }
    TwoEntries(r.stores[2].tw["A"], 1, x, 2, y);
    assert !ReturnsAt(r.stores[2], "A", 1);
  }

  // ------------------------------------------- a whole balance, in and out again

  /** 1 deposits 10, reads them, and commits; 5 reads them, withdraws them, and commits. */
  function InAndOut(): Run {
    var s1 := Store(map["A" := Account(0, 0, 1)], map["A" := [Entry(1, 10)]], map[]);
    var s4 := Store(map["A" := Account(10, 1, 1)], map["A" := []], map[]);
    var s5 := s4.(rts := map["A" := [5]]);
    var s6 := s5.(tw := map["A" := [Entry(5, -10)]]);
    Run([EMPTY, s1, s1, s1, s4, s5, s6, s6, Store(map["A" := Account(0, 5, 1)], map["A" := []], map["A" := [5]])],
        [Write(1, "A", true, 10), Read(1, "A"), Prepare(1), Commit(1),
         Read(5, "A"), Write(5, "A", false, -10), Prepare(5), Commit(5)],
        [Accepted, Answered(Value(10)), Accepted, Accepted, Answered(Value(10)), Accepted, Accepted, Accepted])
  }

  /** A check of the only account, whose list holds the transaction's own entry. */
  lemma ChecksA(s: Store, q: seq<Entry>, ts: Time)
    requires s.tw == map["A" := q] && s.accounts.Keys == {"A"} && s.accounts["A"].committed + SumTo(q, ts) >= 0
    ensures Yields(s, Prepare(ts), s, Accepted)
  {
    assert forall name :: name in s.tw ==> name == "A";
  }

  lemma MoneyIn(s0: Store, s1: Store, s4: Store)
    requires var s := InAndOut().stores; s0 == s[0] && s1 == s[1] && s4 == s[4]
    ensures Yields(s0, Write(1, "A", true, 10), s1, Accepted) && Yields(s1, Read(1, "A"), s1, Answered(Value(10)))
    ensures Yields(s1, Prepare(1), s1, Accepted) && Yields(s1, Commit(1), s4, Accepted)
  {
    Opens(s0, s1, 1, 10);
    Single(s1.tw["A"], 1, 10, 1);
    ChecksA(s1, s1.tw["A"], 1);
    SettleA(s1, s1.tw["A"], 1);
  }

  lemma MoneyOut(s4: Store, s5: Store, s6: Store, s8: Store)
    requires var s := InAndOut().stores; s4 == s[4] && s5 == s[5] && s6 == s[6] && s8 == s[8]
    ensures Yields(s4, Read(5, "A"), s5, Answered(Value(10))) && Yields(s5, Write(5, "A", false, -10), s6, Accepted)
    ensures Yields(s6, Prepare(5), s6, Accepted) && Yields(s6, Commit(5), s8, Accepted)
  {
    var none: seq<Time> := [];
    var q: seq<Entry> := [];
    assert none + [5] == [5] && Readers(s4, "A") == none && Entries(s4, "A") == q && !AnyTo(q, 5);
    ReadsFree(s4, s5, q, 5, 10);
    assert Tentative(q, 5, -10) == [Entry(5, -10)] && s5.tw["A" := [Entry(5, -10)]] == s6.tw;
    Single(s6.tw["A"], 5, -10, 5);
    ChecksA(s6, s6.tw["A"], 5);
    SettleA(s6, s6.tw["A"], 5);
  }

  lemma InAndOutStep(r: Run, k: nat)
    requires r == InAndOut() && k < 8
    ensures StepOf(r, k)
  {
    var s := r.stores;
    if k < 4 {
      MoneyIn(s[0], s[1], s[4]);
    } else {
      MoneyOut(s[4], s[5], s[6], s[8]);
    }
  }

  /** A transaction reads its own deposit; another that has read the account may still
      write it; and a withdrawal of exactly what is there passes its check and commits. */
  lemma WholeBalance() returns (r: Run)
    ensures IsRun(r) && |r.ops| == 8
    ensures r.ops[..4] == [Write(1, "A", true, 10), Read(1, "A"), Prepare(1), Commit(1)]
    ensures r.ops[4..] == [Read(5, "A"), Write(5, "A", false, -10), Prepare(5), Commit(5)]
    ensures ReadsAt(r, 1, 1, "A", 10) && ReadsAt(r, 4, 5, "A", 10)
    ensures r.outs[5] == r.outs[6] == r.outs[7] == Accepted && Committed(r.stores[8], "A") == 0
  {
    r := InAndOut();
    forall k | 0 <= k < 8 ensures StepOf(r, k) {
      InAndOutStep(r, k);
    }
  }
}
