/** A branch server of mp3/server/server.go, on values; a crash or a hang is None. */
module TxStore {
  import opened Options

  type Time = nat

  datatype Entry = Entry(ts: Time, value: int)

  datatype Account = Account(committed: int, committedTs: Time, created: Time)

  /** accounts, the TW lists of tentative writes and the RTS lists of read timestamps. */
  datatype Store = Store(accounts: map<string, Account>, tw: map<string, seq<Entry>>, rts: map<string, seq<Time>>)

  const EMPTY := Store(map[], map[], map[])

  // ----------------------------------------------------------------- lookups

  function Entries(s: Store, name: string): seq<Entry> {
    if name in s.tw then s.tw[name] else []
  }

  function Readers(s: Store, name: string): seq<Time> {
    if name in s.rts then s.rts[name] else []
  }

  /** A missing account reads as Go's zero value. */
  function Committed(s: Store, name: string): int {
    if name in s.accounts then s.accounts[name].committed else 0
  }

  /** The sum of the tentative writes not later than ts. */
  function SumTo(q: seq<Entry>, ts: Time): int {
    if q == [] then 0 else (if q[0].ts <= ts then q[0].value else 0) + SumTo(q[1..], ts)
  }

  predicate Wrote(q: seq<Entry>, ts: Time) {
    exists i :: 0 <= i < |q| && q[i].ts == ts
  }

  predicate AnyTo(q: seq<Entry>, ts: Time) {
    exists i :: 0 <= i < |q| && q[i].ts <= ts
  }

  predicate AnyAfter(q: seq<Entry>, ts: Time) {
    exists i :: 0 <= i < |q| && q[i].ts > ts
  }

  function Without(q: seq<Entry>, ts: Time): seq<Entry> {
    if q == [] then []
    else if q[0].ts == ts then Without(q[1..], ts)
    else [q[0]] + Without(q[1..], ts)
  }

  predicate NotBefore(readers: seq<Time>, ts: Time) {
    forall i :: 0 <= i < |readers| ==> readers[i] <= ts
  }

  // ----------------------------------------------------------------- reading

  datatype Answer = Value(value: int) | Refused | Blocked

  /** Tc reads the committed value if no tentative write precedes it, its own view if
      it wrote, and otherwise waits. */
  function ReadRule(s: Store, name: string, ts: Time): (Store, Answer) {
    if name !in s.accounts || ts <= s.accounts[name].committedTs then (s, Refused)
    else
      var q := Entries(s, name);
      if !AnyTo(q, ts) then (s.(rts := s.rts[name := Readers(s, name) + [ts]]), Value(s.accounts[name].committed))
      else if Wrote(q, ts) then (s, Value(s.accounts[name].committed + SumTo(q, ts)))
      else (s, Blocked)
  }

  // ----------------------------------------------------------------- writing

  /** Adds to the transaction's entry, or appends one. */
  function Tentative(q: seq<Entry>, ts: Time, amount: int): seq<Entry> {
    if q == [] then [Entry(ts, amount)]
    else if q[0].ts == ts then [Entry(ts, q[0].value + amount)] + q[1..]
    else [q[0]] + Tentative(q[1..], ts, amount)
  }

  /** A deposit opens an account that is missing; a withdrawal is refused. */
  function Opened(s: Store, name: string, ts: Time): Store {
    if name in s.accounts then s else s.(accounts := s.accounts[name := Account(0, 0, ts)])
  }

  /** The write rule; the committed timestamp is not compared when no tentative write
      is pending. */
  predicate MayWrite(s: Store, name: string, ts: Time)
    requires name in s.accounts
  {
    NotBefore(Readers(s, name), ts) && (Entries(s, name) == [] || ts > s.accounts[name].committedTs)
  }

  function WriteRule(s: Store, name: string, deposit: bool, amount: int, ts: Time): (Store, bool) {
    if name !in s.accounts && !deposit then (s, false)
    else
      var s1 := Opened(s, name, ts);
      if MayWrite(s1, name, ts) then (s1.(tw := s1.tw[name := Tentative(Entries(s1, name), ts, amount)]), true)
      else (s1, false)
  }

  // ---------------------------------------------------------------- aborting

  /** The loop over a read list as it is written: it stops after `bound` readings of
      other transactions, where bound is the number of lists, and runs off the end of
      a shorter list. */
  function Scan(q: seq<Time>, bound: nat, ts: Time): Option<seq<Time>> {
    if bound == 0 then Some(q)
    else if q == [] then None
    else if q[0] == ts then Scan(q[1..], bound, ts)
    else
      match Scan(q[1..], bound - 1, ts)
      case None => None
      case Some(r) => Some([q[0]] + r)
  }

  predicate ScansAll(rts: map<string, seq<Time>>, ts: Time) {
    forall name :: name in rts ==> Scan(rts[name], |rts|, ts).Some?
  }

  function Undo(s: Store, ts: Time): Option<Store> {
    if !ScansAll(s.rts, ts) then None
    else
      Some(Store(
        map name | name in s.accounts && s.accounts[name].created != ts :: s.accounts[name],
        map name | name in s.tw :: Without(s.tw[name], ts),
        map name | name in s.rts :: Scan(s.rts[name], |s.rts|, ts).value))
  }

  // -------------------------------------------------------------- committing

  predicate Related(s: Store, ts: Time) {
    exists name :: name in s.tw && Wrote(s.tw[name], ts)
  }

  /** CheckCommit: no account of the server would go negative. */
  predicate Solvent(s: Store, ts: Time) {
    Related(s, ts) ==> forall name :: name in s.tw ==> Committed(s, name) + SumTo(s.tw[name], ts) >= 0
  }

  /** DoCommit returns: its loop does not advance past a later write, and it locks the
      account of every write it commits. */
  predicate CommitReturns(s: Store, ts: Time) {
    forall name :: name in s.tw ==> ReturnsAt(s, name, ts)
  }

  predicate ReturnsAt(s: Store, name: string, ts: Time) {
    !AnyAfter(Entries(s, name), ts) && (Wrote(Entries(s, name), ts) ==> name in s.accounts)
  }

  function Settled(s: Store, name: string, ts: Time): Account
    requires name in s.accounts
  {
    var a := s.accounts[name];
    if Wrote(Entries(s, name), ts) then Account(a.committed + SumTo(Entries(s, name), ts), ts, a.created) else a
  }

  function Settle(s: Store, ts: Time): Option<Store> {
    if !CommitReturns(s, ts) then None
    else
      Some(Store(
        map name | name in s.accounts :: Settled(s, name, ts),
        map name | name in s.tw :: Without(s.tw[name], ts),
        s.rts))
  }

  // ---------------------------------------------------------------- requests

  /** What a server is asked to do, by a client or by another branch. */
  datatype Op =
    | Read(ts: Time, name: string)
    | Write(ts: Time, name: string, deposit: bool, amount: int)
    | Abort(ts: Time)
    | Prepare(ts: Time)
    | Commit(ts: Time)

  datatype Outcome = Answered(answer: Answer) | Accepted | Failed

  function AbortTwice(s: Store, ts: Time): Option<Store> {
    match Undo(s, ts)
    case None => None
    case Some(s1) => Undo(s1, ts)
  }

  function Failing(s: Option<Store>): Option<(Store, Outcome)> {
    match s
    case None => None
    case Some(s1) => Some((s1, Failed))
  }

  /** An operation on an account, before the DoAbort that follows when it fails. */
  function Attempt(s: Store, op: Op): (Store, Outcome) {
    match op
    case Read(ts, name) =>
      var (s1, a) := ReadRule(s, name, ts);
      (s1, if a.Refused? then Failed else Answered(a))
    case Write(ts, name, deposit, amount) =>
      var (s1, ok) := WriteRule(s, name, deposit, amount, ts);
      (s1, if ok then Accepted else Failed)
    case _ => (s, Failed)
  }

  /** A request and, when it fails, the DoAbort of its transaction; a failed CheckCommit
      aborts by itself before its caller does.  None: a panic, or a loop without end. */
  function Perform(s: Store, op: Op): Option<(Store, Outcome)> {
    match op
    case Prepare(ts) => if Solvent(s, ts) then Some((s, Accepted)) else Failing(AbortTwice(s, ts))
    case Commit(ts) =>
      (match Settle(s, ts)
       case None => None
       case Some(s1) => Some((s1, Accepted)))
    case _ =>
      var (s1, out) := Attempt(s, op);
      if out.Failed? then Failing(Undo(s1, op.ts)) else Some((s1, out))
  }

  // ----------------------------------------------------- what the loops leave

  lemma WithoutWrote(q: seq<Entry>, ts: Time, t: Time)
    ensures Wrote(Without(q, ts), t) <==> Wrote(q, t) && t != ts
  {
    WithoutIs(q, ts);
    var r := Without(q, ts);
    if Wrote(q, t) && t != ts {
      var i :| 0 <= i < |q| && q[i].ts == t;
      assert q[i] in r;
    }
    if Wrote(r, t) {
      var i :| 0 <= i < |r| && r[i].ts == t;
      assert r[i] in q;
    }
  }

  lemma WithoutAnyTo(q: seq<Entry>, ts: Time, t: Time)
    ensures AnyTo(Without(q, ts), t) ==> AnyTo(q, t)
  {
    WithoutIs(q, ts);
    var r := Without(q, ts);
    if AnyTo(r, t) {
      var i :| 0 <= i < |r| && r[i].ts <= t;
      assert r[i] in q;
    }
  }

  lemma {:induction false} TentativeIs(q: seq<Entry>, ts: Time, amount: int, t: Time)
    ensures Wrote(Tentative(q, ts, amount), t) <==> Wrote(q, t) || t == ts
    ensures AnyTo(Tentative(q, ts, amount), t) <==> AnyTo(q, t) || ts <= t
  {
    if q == [] || q[0].ts == ts {
      HeadTail(q, t);
      HeadTail(Tentative(q, ts, amount), t);
    } else {
      TentativeIs(q[1..], ts, amount, t);
      HeadTail(q, t);
      HeadTail(Tentative(q, ts, amount), t);
      assert Tentative(q, ts, amount)[1..] == Tentative(q[1..], ts, amount);
    }
  }

  lemma HeadTail(q: seq<Entry>, t: Time)
    ensures q != [] ==> (Wrote(q, t) <==> q[0].ts == t || Wrote(q[1..], t))
    ensures q != [] ==> (AnyTo(q, t) <==> q[0].ts <= t || AnyTo(q[1..], t))
  {
    if q != [] {
      assert forall i :: 1 <= i < |q| ==> q[i] == q[1..][i - 1];
      assert forall i :: 0 <= i < |q[1..]| ==> q[1..][i] == q[i + 1];
    }
  }

  /** The entries of other transactions stay, in order; those of ts go. */
  lemma {:induction false} WithoutIs(q: seq<Entry>, ts: Time)
    ensures !Wrote(Without(q, ts), ts)
    ensures forall e :: e in Without(q, ts) <==> e in q && e.ts != ts
  {
    if q != [] {
      WithoutIs(q[1..], ts);
      assert q == [q[0]] + q[1..];
    }
  }

  lemma {:induction false} WithoutAppend(q: seq<Entry>, e: Entry, ts: Time)
    ensures Without(q + [e], ts) == Without(q, ts) + (if e.ts == ts then [] else [e])
  {
    if q == [] {
      assert (q + [e])[1..] == [];
    } else {
      WithoutAppend(q[1..], e, ts);
      assert (q + [e])[1..] == q[1..] + [e];
    }
  }

  lemma {:induction false} SumAppend(q: seq<Entry>, e: Entry, ts: Time)
    ensures SumTo(q + [e], ts) == SumTo(q, ts) + (if e.ts <= ts then e.value else 0)
  {
    if q == [] {
      assert (q + [e])[1..] == [];
    } else {
      SumAppend(q[1..], e, ts);
      assert (q + [e])[1..] == q[1..] + [e];
    }
  }

  function Others(q: seq<Time>, ts: Time): seq<Time> {
    if q == [] then [] else (if q[0] == ts then [] else [q[0]]) + Others(q[1..], ts)
  }

  /** The scan of a read list ends normally exactly when the list holds at least
      `bound` readings of other transactions, and it only removes readings of ts. */
  lemma {:induction false} ScanIs(q: seq<Time>, bound: nat, ts: Time)
    ensures Scan(q, bound, ts).Some? <==> |Others(q, ts)| >= bound
    ensures Scan(q, bound, ts).Some? ==> Others(Scan(q, bound, ts).value, ts) == Others(q, ts)
  {
    if q != [] {
      if q[0] == ts {
        ScanIs(q[1..], bound, ts);
      } else if bound > 0 {
        ScanIs(q[1..], bound - 1, ts);
        var r := Scan(q[1..], bound - 1, ts);
        if r.Some? {
          assert ([q[0]] + r.value)[1..] == r.value;
        }
      }
    }
  }

  lemma OthersHead(q: seq<Time>, j: nat, ts: Time)
    requires q != [] && j <= |q| - 1
    ensures Others(q[..j + 1], ts) == (if q[0] == ts then [] else [q[0]]) + Others(q[1..][..j], ts)
  {
    assert q[..j + 1][0] == q[0] && q[..j + 1][1..] == q[1..][..j];
  }

  /** Where the scan stops: right behind the bound-th reading of another transaction.  It
      removes the readings of ts before that point and leaves those behind it. */
  lemma {:induction false} ScanCuts(q: seq<Time>, bound: nat, ts: Time) returns (i: nat)
    requires Scan(q, bound, ts).Some?
    ensures i <= |q| && |Others(q[..i], ts)| == bound && (i > 0 ==> q[i - 1] != ts)
    ensures Scan(q, bound, ts) == Some(Others(q[..i], ts) + q[i..])
  {
    if bound == 0 {
      i := 0;
      assert q[..0] == [] && q[0..] == q && Others(q[..0], ts) + q == q;
    } else if q[0] == ts {
      var j := ScanCuts(q[1..], bound, ts);
      i := j + 1;
      OthersHead(q, j, ts);
      assert q[i..] == q[1..][j..] && q[1..][..0] == [];
      assert q[1..][j - 1] == q[i - 1] && Others(q[..i], ts) == Others(q[1..][..j], ts);
    } else {
      var j := ScanCuts(q[1..], bound - 1, ts);
      i := j + 1;
      OthersHead(q, j, ts);
      var rest := Others(q[1..][..j], ts);
      assert q[i..] == q[1..][j..] && (j > 0 ==> q[1..][j - 1] == q[i - 1]);
      assert [q[0]] + (rest + q[i..]) == [q[0]] + rest + q[i..];
    }
  }

  lemma {:induction false} InOthers(q: seq<Time>, ts: Time, t: Time)
    ensures t in Others(q, ts) <==> t in q && t != ts
  {
    if q != [] {
      InOthers(q[1..], ts, t);
      assert q == [q[0]] + q[1..];
    }
  }

  /** DoAbort returns exactly when every read list holds as many readings of other
      transactions as there are lists. */
  lemma AbortReturnsIff(s: Store, ts: Time)
    ensures Undo(s, ts).Some? <==> forall name :: name in s.rts ==> |Others(s.rts[name], ts)| >= |s.rts|
  {
    forall name | name in s.rts ensures Scan(s.rts[name], |s.rts|, ts).Some? <==> |Others(s.rts[name], ts)| >= |s.rts| {
      ScanIs(s.rts[name], |s.rts|, ts);
    }
  }

  lemma {:induction false} WithoutAgain(q: seq<Entry>, ts: Time)
    ensures Without(Without(q, ts), ts) == Without(q, ts)
  {
    if q != [] {
      WithoutAgain(q[1..], ts);
      if q[0].ts != ts {
        assert Without(q, ts)[1..] == Without(q[1..], ts);
      }
    }
  }

  /** Aborting touches nothing of any other transaction: its entries and readings stay
      the same ones, as often and in the same order, and so does its account. */
  lemma AbortKeepsOthers(s: Store, ts: Time, name: string, t: Time)
    requires Undo(s, ts).Some? && t != ts
    ensures var s' := Undo(s, ts).value;
            && Others(Readers(s', name), ts) == Others(Readers(s, name), ts)
            && Entries(s', name) == Without(Entries(s', name), ts) == Without(Entries(s, name), ts)
            && (t in Readers(s', name) <==> t in Readers(s, name))
            && (forall e: Entry :: e.ts == t ==> (e in Entries(s', name) <==> e in Entries(s, name)))
            && (name in s.accounts && s.accounts[name].created != ts ==>
                  name in s'.accounts && s'.accounts[name] == s.accounts[name])
  {
    WithoutAgain(Entries(s, name), ts);
    WithoutIs(Entries(s, name), ts);
    if name in s.rts {
      ScanIs(s.rts[name], |s.rts|, ts);
      InOthers(s.rts[name], ts, t);
      InOthers(Scan(s.rts[name], |s.rts|, ts).value, ts, t);
    }
  }
}
