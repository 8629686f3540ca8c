/** The server object of mp3/server/server.go with its loops: each method is proved to
    do to the maps what TxStore.dfy says. */
module TxServer {
  import opened Options
  import opened TxStore

  method FindMax(values: seq<Time>) returns (max: Time)
    requires |values| > 0
    ensures max in values && forall i :: 0 <= i < |values| ==> values[i] <= max
  {
    max := values[0];
    for i := 0 to |values|
      invariant max in values && forall j :: 0 <= j < i ==> values[j] <= max
    {
      if max < values[i] {
        max := values[i];
      }
    }
  }

  class Server {
    var accounts: map<string, Account>
    var TW: map<string, seq<Entry>>
    var RTS: map<string, seq<Time>>

    function State(): Store
      reads this
    {
      Store(accounts, TW, RTS)
    }

    constructor ()
      ensures State() == EMPTY
    {
      accounts, TW, RTS := map[], map[], map[];
    }

    /** Ds, the latest timestamp not after ts, and whether no write is tentative. */
    method Version(name: string, ts: Time) returns (Ds: int, TS: Time, committed: bool)
      requires name in accounts && ts > accounts[name].committedTs
      ensures Ds == accounts[name].committed + SumTo(Entries(State(), name), ts)
      ensures committed <==> !AnyTo(Entries(State(), name), ts)
      ensures TS == ts <==> Wrote(Entries(State(), name), ts)
    {
      var q := Entries(State(), name);
      Ds, TS, committed := accounts[name].committed, accounts[name].committedTs, true;
      assert q[..0] == [];
      for i := 0 to |q|
        invariant Ds == accounts[name].committed + SumTo(q[..i], ts)
        invariant committed <==> !AnyTo(q[..i], ts)
        invariant TS <= ts && (TS == ts <==> Wrote(q[..i], ts))
      {
        assert q[..i + 1] == q[..i] + [q[i]];
        SumAppend(q[..i], q[i], ts);
        WroteAppend(q[..i], q[i], ts);
        if q[i].ts <= ts {
          Ds := Ds + q[i].value;
          if q[i].ts > TS {
            TS := q[i].ts;
          }
          committed := false;
        }
      }
      assert q[..|q|] == q;
    }

    method Read(name: string, ts: Time) returns (a: Answer)
      modifies this`RTS
      ensures (State(), a) == ReadRule(old(State()), name, ts)
    {
      if name !in accounts {
        return Refused;
      }
      if ts > accounts[name].committedTs {
        var Ds, TS, committed := Version(name, ts);
        if committed {
          NoneTo(Entries(State(), name), ts);
          RTS := RTS[name := (if name in RTS then RTS[name] else []) + [ts]];
          return Value(Ds);
        } else if ts == TS {
          return Value(Ds);
        } else {
          return Blocked;
        }
      } else {
        return Refused;
      }
    }

    method AddTentative(name: string, amount: int, ts: Time)
      modifies this`TW
      ensures TW == old(TW)[name := Tentative(old(Entries(State(), name)), ts, amount)]
    {
      var q := Entries(State(), name);
      var i := 0;
      while i < |q| && q[i].ts != ts
        invariant 0 <= i <= |q| && forall j :: 0 <= j < i ==> q[j].ts != ts
      {
        i := i + 1;
      }
      TentativeAt(q, ts, amount, i);
      if i < |q| {
        TW := TW[name := q[i := Entry(ts, q[i].value + amount)]];
      } else {
        TW := TW[name := q + [Entry(ts, amount)]];
      }
    }

    method Write(name: string, deposit: bool, amount: int, ts: Time) returns (ok: bool)
      modifies this
      ensures (State(), ok) == WriteRule(old(State()), name, deposit, amount, ts)
    {
      if name !in accounts {
        if !deposit {
          return false;
        }
        accounts := accounts[name := Account(0, 0, ts)];
      }
      var latest := true;
      if name in RTS && RTS[name] != [] {
        var max := FindMax(RTS[name]);
        latest := ts >= max;
      }
      if latest && (Entries(State(), name) == [] || ts > accounts[name].committedTs) {
        AddTentative(name, amount, ts);
        ok := true;
      } else {
        ok := false;
      }
    }

    // ---------------------------------------------------------------- abort

    method RemoveAllWrites(ts: Time)
      modifies this`TW
      ensures TW == map name | name in old(TW) :: Without(old(TW)[name], ts)
    {
      ghost var tw := TW;
      var todo := TW.Keys;
      while todo != {}
        invariant todo <= TW.Keys == tw.Keys
        invariant forall a :: a in TW ==> TW[a] == if a in todo then tw[a] else Without(tw[a], ts)
        decreases todo
      {
        var name :| name in todo;
        var kept := RemoveWrites(TW[name], ts);
        TW := TW[name := kept];
        todo := todo - {name};
      }
    }

    method RemoveAllReads(ts: Time) returns (ok: bool)
      modifies this`RTS
      ensures ok <==> ScansAll(old(RTS), ts)
      ensures ok ==> RTS == map name | name in old(RTS) :: Scan(old(RTS)[name], |old(RTS)|, ts).value
    {
      ghost var rts := RTS;
      var bound := |RTS|;
      var todo := RTS.Keys;
      while todo != {}
        invariant todo <= RTS.Keys == rts.Keys
        invariant forall a :: a in todo ==> RTS[a] == rts[a]
        invariant forall a :: a in RTS && a !in todo ==> Scan(rts[a], bound, ts) == Some(RTS[a])
        decreases todo
      {
        var name :| name in todo;
        var kept := RemoveReads(RTS[name], bound, ts);
        if kept.None? {
          return false;
        }
        RTS := RTS[name := kept.value];
        todo := todo - {name};
      }
      ok := true;
    }

    /** False: the loop over some read list ran off its end. */
    method DoAbort(ts: Time) returns (ok: bool)
      modifies this
      ensures ok <==> Undo(old(State()), ts).Some?
      ensures ok ==> State() == Undo(old(State()), ts).value
    {
      RemoveAllWrites(ts);
      ok := RemoveAllReads(ts);
      if ok {
        accounts := map name | name in accounts && accounts[name].created != ts :: accounts[name];
      }
    }

    // ------------------------------------------------------------- commit

    /** A failed check aborts the transaction before it returns false; `returned` is
        false if that abort panics. */
    method CheckCommit(ts: Time) returns (canCommit: bool, returned: bool)
      modifies this
      ensures canCommit == Solvent(old(State()), ts)
      ensures canCommit ==> returned && State() == old(State())
      ensures !canCommit ==> (returned <==> Undo(old(State()), ts).Some?)
      ensures !canCommit && returned ==> State() == Undo(old(State()), ts).value
    {
      canCommit := Check(ts);
      returned := true;
      if !canCommit {
        returned := DoAbort(ts);
      }
    }

    method Check(ts: Time) returns (canCommit: bool)
      ensures canCommit == Solvent(State(), ts)
    {
      var related := IsRelated(ts);
      if related {
        var todo := TW.Keys;
        while todo != {}
          invariant todo <= TW.Keys
          invariant forall a :: a in TW && a !in todo ==> Committed(State(), a) + SumTo(TW[a], ts) >= 0
          decreases todo
        {
          var name :| name in todo;
          var Ds := Balance(name, ts);
          if Ds < 0 {
            return false;
          }
          todo := todo - {name};
        }
      }
      canCommit := true;
    }

    method IsRelated(ts: Time) returns (related: bool)
      ensures related == Related(State(), ts)
    {
      related := false;
      var todo := TW.Keys;
      while todo != {}
        invariant todo <= TW.Keys
        invariant related <==> exists a :: a in TW && a !in todo && Wrote(TW[a], ts)
        decreases todo
      {
        var name :| name in todo;
        var i := 0;
        while i < |TW[name]| && TW[name][i].ts != ts
          invariant 0 <= i <= |TW[name]| && forall j :: 0 <= j < i ==> TW[name][j].ts != ts
        {
          i := i + 1;
        }
        assert i < |TW[name]| <==> Wrote(TW[name], ts);
        related := related || i < |TW[name]|;
        todo := todo - {name};
      }
    }

    method Balance(name: string, ts: Time) returns (Ds: int)
      requires name in TW
      ensures Ds == Committed(State(), name) + SumTo(TW[name], ts)
    {
      Ds := if name in accounts then accounts[name].committed else 0;
      var q := TW[name];
      assert q[..0] == [];
      for i := 0 to |q|
        invariant Ds == Committed(State(), name) + SumTo(q[..i], ts)
      {
        assert q[..i + 1] == q[..i] + [q[i]];
        SumAppend(q[..i], q[i], ts);
        if q[i].ts <= ts {
          Ds := Ds + q[i].value;
        }
      }
      assert q[..|q|] == q;
    }

    /** One account of DoCommit. */
    method CommitAccount(name: string, ts: Time) returns (ok: bool)
      requires name in TW
      modifies this`TW, this`accounts
      ensures ok <==> ReturnsAt(old(State()), name, ts)
      ensures ok ==> TW == old(TW)[name := Without(old(TW)[name], ts)]
      ensures ok && name in old(accounts) ==> accounts == old(accounts)[name := Settled(old(State()), name, ts)]
      ensures ok && name !in old(accounts) ==> accounts == old(accounts)
    {
      var Ds, flag, kept := CommitWrites(TW[name], Committed(State(), name), ts);
      if kept.None? {
        return false;
      }
      TW := TW[name := kept.value];
      if flag {
        if name !in accounts {
          return false;
        }
        accounts := accounts[name := Account(Ds, ts, accounts[name].created)];
      }
      ok := true;
    }

    /** False: the call never returns, or panics. */
    method DoCommit(ts: Time) returns (ok: bool)
      modifies this`TW, this`accounts
      ensures ok <==> CommitReturns(old(State()), ts)
      ensures ok ==> Settle(old(State()), ts) == Some(State())
    {
      ghost var s := State();
      var todo := TW.Keys;
      while todo != {}
        invariant Partway(s, State(), todo, ts)
        decreases todo
      {
        var name :| name in todo;
        ghost var s1 := State();
        var done := CommitAccount(name, ts);
        PartwayStep(s, s1, State(), todo, name, ts, done);
        if !done {
          return false;
        }
        todo := todo - {name};
      }
      CommitIs(s, State(), ts);
      ok := true;
    }

    /** One request: the operation, and DoAbort when it fails.  None: the server never
        gets past it. */
    method Serve(op: Op) returns (out: Option<Outcome>)
      modifies this
      ensures out.None? <==> Perform(old(State()), op).None?
      ensures out.Some? ==> Perform(old(State()), op) == Some((State(), out.value))
    {
      match op
      case Read(ts, name) =>
        var a := Read(name, ts);
        if a.Refused? {
          var ok := DoAbort(ts);
          return if ok then Some(Failed) else None;
        }
        return Some(Answered(a));
      case Write(ts, name, deposit, amount) =>
        var accepted := Write(name, deposit, amount, ts);
        if !accepted {
          var ok := DoAbort(ts);
          return if ok then Some(Failed) else None;
        }
        return Some(Accepted);
      case Abort(ts) =>
        var ok := DoAbort(ts);
        return if ok then Some(Failed) else None;
      case Prepare(ts) =>
        var canCommit, ok := CheckCommit(ts);
        if !canCommit {
          if ok {
            ok := DoAbort(ts);
          }
          return if ok then Some(Failed) else None;
        }
        return Some(Accepted);
      case Commit(ts) =>
        var ok := DoCommit(ts);
        return if ok then Some(Accepted) else None;
    }
  }

  /** The accounts not in todo are committed, the others as they were. */
  ghost predicate Partway(s: Store, s1: Store, todo: set<string>, ts: Time) {
    && todo <= s1.tw.Keys == s.tw.Keys && s1.rts == s.rts && s1.accounts.Keys == s.accounts.Keys
    && (forall a :: a in s.tw ==> s1.tw[a] == if a in todo then s.tw[a] else Without(s.tw[a], ts))
    && (forall a :: a in s.accounts ==> s1.accounts[a] == if a in todo then s.accounts[a] else Settled(s, a, ts))
    && forall a :: a in s.tw && a !in todo ==> ReturnsAt(s, a, ts)
  }

  lemma PartwayStep(s: Store, s1: Store, s2: Store, todo: set<string>, name: string, ts: Time, ok: bool)
    requires Partway(s, s1, todo, ts) && name in todo && (ok <==> ReturnsAt(s1, name, ts))
    requires ok ==> s2 == Store(if name in s1.accounts then s1.accounts[name := Settled(s1, name, ts)] else s1.accounts,
                                s1.tw[name := Without(s1.tw[name], ts)], s1.rts)
    ensures if ok then Partway(s, s2, todo - {name}, ts) else !CommitReturns(s, ts)
  {
  }

  lemma CommitIs(s: Store, s': Store, ts: Time)
    requires s'.rts == s.rts && s'.tw.Keys == s.tw.Keys && s'.accounts.Keys == s.accounts.Keys
    requires forall a :: a in s.tw ==> s'.tw[a] == Without(s.tw[a], ts) && ReturnsAt(s, a, ts)
    requires forall a :: a in s.accounts ==> s'.accounts[a] == Settled(s, a, ts)
    ensures Settle(s, ts) == Some(s')
  {
    var accounts := map name | name in s.accounts :: Settled(s, name, ts);
    var tw := map name | name in s.tw :: Without(s.tw[name], ts);
    assert s'.accounts == accounts && s'.tw == tw && s' == Store(accounts, tw, s.rts);
  }

  // ------------------------------------------------------------- inner loops

  /** One tentative-write list of DoAbort. */
  method RemoveWrites(list: seq<Entry>, ts: Time) returns (q: seq<Entry>)
    ensures q == Without(list, ts)
  {
    q := list;
    var i := 0;
    while i < |q|
      invariant 0 <= i <= |q| && q[..i] + Without(q[i..], ts) == Without(list, ts)
      decreases |q| - i
    {
      RemovalStep(q, i, ts);
      if ts == q[i].ts {
        q := q[..i] + q[i + 1..];
      } else {
        i := i + 1;
      }
    }
    assert q[..i] == q && q[i..] == [];
  }

  lemma RemovalStep(q: seq<Entry>, i: nat, ts: Time)
    requires i < |q|
    ensures var r := q[..i] + q[i + 1..];
            q[i].ts == ts ==> r[..i] + Without(r[i..], ts) == q[..i] + Without(q[i..], ts)
    ensures q[i].ts != ts ==> q[..i + 1] + Without(q[i + 1..], ts) == q[..i] + Without(q[i..], ts)
  {
    assert q[i..][0] == q[i] && q[i..][1..] == q[i + 1..];
    var r := q[..i] + q[i + 1..];
    assert r[..i] == q[..i] && r[i..] == q[i + 1..];
    assert q[..i + 1] == q[..i] + [q[i]];
  }

  /** One read list of DoAbort, as its loop is written; None if it runs off the end. */
  method RemoveReads(list: seq<Time>, bound: nat, ts: Time) returns (r: Option<seq<Time>>)
    ensures r == Scan(list, bound, ts)
  {
    var q, i := list, 0;
    assert q[0..] == list && forall x: seq<Time> :: [] + x == x;
    while i < bound
      invariant 0 <= i <= bound && i <= |q|
      invariant Scan(list, bound, ts) == Prefixed(q[..i], Scan(q[i..], bound - i, ts))
      decreases bound - i, |q|
    {
      if i >= |q| {
        return None;
      }
      assert q[i..][0] == q[i] && q[i..][1..] == q[i + 1..];
      if ts == q[i] {
        var shorter := q[..i] + q[i + 1..];
        assert shorter[i..] == q[i + 1..] && shorter[..i] == q[..i];
        q := shorter;
      } else {
        PrefixedStep(q[..i], q[i], Scan(q[i + 1..], bound - i - 1, ts));
        assert q[..i + 1] == q[..i] + [q[i]];
        i := i + 1;
      }
    }
    assert q[..i] + q[i..] == q;
    r := Some(q);
  }

  function Prefixed(p: seq<Time>, r: Option<seq<Time>>): Option<seq<Time>> {
    match r
    case None => None
    case Some(q) => Some(p + q)
  }

  lemma PrefixedStep(p: seq<Time>, x: Time, r: Option<seq<Time>>)
    ensures Prefixed(p, Prefixed([x], r)) == Prefixed(p + [x], r)
  {
    if r.Some? {
      assert p + ([x] + r.value) == p + [x] + r.value;
    }
  }

  /** One tentative-write list of DoCommit: its entries not after ts are summed, those
      of ts taken out; None if a later entry keeps the loop from ever advancing. */
  method CommitWrites(list: seq<Entry>, held: int, ts: Time) returns (Ds: int, flag: bool, r: Option<seq<Entry>>)
    ensures r == if AnyAfter(list, ts) then None else Some(Without(list, ts))
    ensures r.Some? ==> Ds == held + SumTo(list, ts) && flag == Wrote(list, ts)
  {
    Ds, flag := held, false;
    var q, i := list, 0;
    ghost var k := 0;
    assert q[0..] == list && list[..0] == [];
    while i < |q|
      invariant 0 <= i <= |q| && 0 <= k <= |list|
      invariant q[i..] == list[k..] && q[..i] == Without(list[..k], ts)
      invariant Ds == held + SumTo(list[..k], ts) && flag == Wrote(list[..k], ts) && !AnyAfter(list[..k], ts)
      decreases |q| - i
    {
      assert q[i..][0] == q[i] == list[k..][0] == list[k] && q[i + 1..] == q[i..][1..] == list[k + 1..];
      if q[i].ts <= ts {
        PrefixStep(list, k, ts);
        Ds := Ds + q[i].value;
        if q[i].ts == ts {
          flag := true;
          var shorter := q[..i] + q[i + 1..];
          assert shorter[i..] == q[i + 1..] && shorter[..i] == q[..i];
          q := shorter;
        } else {
          assert q[..i + 1] == q[..i] + [q[i]];
          i := i + 1;
        }
        k := k + 1;
      } else {
        return Ds, flag, None;
      }
    }
    assert list[..k] == list && q[..i] == q;
    r := Some(q);
  }

  // ------------------------------------------------------------- loop lemmas

  lemma WroteAppend(q: seq<Entry>, e: Entry, ts: Time)
    ensures Wrote(q + [e], ts) <==> Wrote(q, ts) || e.ts == ts
    ensures AnyTo(q + [e], ts) <==> AnyTo(q, ts) || e.ts <= ts
    ensures AnyAfter(q + [e], ts) <==> AnyAfter(q, ts) || e.ts > ts
  {
    var r := q + [e];
    assert r[|q|] == e;
    assert forall i :: 0 <= i < |q| ==> r[i] == q[i];
  }

  lemma {:induction false} NoneTo(q: seq<Entry>, ts: Time)
    requires !AnyTo(q, ts)
    ensures SumTo(q, ts) == 0
  {
    if q != [] {
      assert q[0].ts > ts;
      forall i | 0 <= i < |q[1..]| ensures q[1..][i].ts > ts {
        assert q[1..][i] == q[i + 1];
      }
      NoneTo(q[1..], ts);
    }
  }

  lemma {:induction false} TentativeAt(q: seq<Entry>, ts: Time, amount: int, i: nat)
    requires i <= |q| && (forall j :: 0 <= j < i ==> q[j].ts != ts) && (i < |q| ==> q[i].ts == ts)
    ensures Tentative(q, ts, amount)
         == if i < |q| then q[i := Entry(ts, q[i].value + amount)] else q + [Entry(ts, amount)]
  {
    if i > 0 {
      TentativeAt(q[1..], ts, amount, i - 1);
    }
  }

  lemma PrefixStep(q: seq<Entry>, k: nat, ts: Time)
    requires k < |q|
    ensures SumTo(q[..k + 1], ts) == SumTo(q[..k], ts) + (if q[k].ts <= ts then q[k].value else 0)
    ensures Wrote(q[..k + 1], ts) <==> Wrote(q[..k], ts) || q[k].ts == ts
    ensures AnyAfter(q[..k + 1], ts) <==> AnyAfter(q[..k], ts) || q[k].ts > ts
    ensures Without(q[..k + 1], ts) == Without(q[..k], ts) + (if q[k].ts == ts then [] else [q[k]])
  {
    assert q[..k + 1] == q[..k] + [q[k]];
    SumAppend(q[..k], q[k], ts);
    WroteAppend(q[..k], q[k], ts);
    WithoutAppend(q[..k], q[k], ts);
  }
}
